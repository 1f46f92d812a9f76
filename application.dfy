/**
 * AbstractApplication of ramverk/application.py: construction over default
 * settings, and the WSGI call that resets the per-request store, binds the
 * environ and runs respond inside the application's own enter/exit hooks.
 */
module Application {
  import opened Wrappers
  import opened Http
  import opened Utils

  /** The settings Bunch before the caller's keyword settings: `debug` is false. */
  function DefaultSettings(): Bunch {
    map["debug" := Flag(false)]
  }

  /** The settings after `settings.update(given)`: every given key wins, `debug` defaults to false. */
  function MergedSettings(given: Bunch): (s: Bunch)
    ensures s.Keys == given.Keys + {"debug"}
    ensures forall k :: k in given ==> s[k] == given[k]
    ensures "debug" !in given ==> s["debug"] == Flag(false)
  {
    DefaultSettings() + given
  }

  /** How `respond` ended: with a response, or by raising. */
  datatype Outcome = Returned(response: Response) | Raised(exception: Exception) {
    /** Raised something other than an HTTPException. */
    predicate IsFault() {
      Raised? && exception.Fault?
    }
  }

  /** What one run of `respond` did: how it ended and the per-request store it left behind. */
  datatype Responded = Responded(outcome: Outcome, local: Bunch)

  /**
   * The methods a concrete application overrides, fixed when the application
   * is composed. Each sees the state the source gives it: `setup` the
   * settings, the others the per-request store `local`.
   */
  datatype Hooks = Hooks(
    setup: Bunch -> Bunch,
    enter: Bunch -> Option<Exception>,
    respond: Bunch -> Responded,
    errorResponse: HttpException -> Response,
    exit: (Bunch, ExcInfo) -> bool)

  /** The default `setup` does nothing. */
  function DefaultSetup(settings: Bunch): (s: Bunch)
    ensures s == settings
  {
    settings
  }

  /** The default `__enter__` does nothing and raises nothing. */
  function DefaultEnter(local: Bunch): (raised: Option<Exception>)
    ensures raised == None
  {
    None
  }

  /** The default `error_response` hands back the HTTPException itself as the response. */
  function DefaultErrorResponse(error: HttpException): (r: Response)
    ensures r.ExceptionResponse? && r.error == error
  {
    ExceptionResponse(error)
  }

  /** The default `__exit__` returns None, which never suppresses. */
  function DefaultExit(local: Bunch, excInfo: ExcInfo): (suppress: bool)
    ensures !suppress
  {
    false
  }

  /** Observable steps of construction and of one call, in the order they happen. */
  datatype Event =
    | SetUp(settings: Bunch)
    | LocalReleased
    | EnvironBound(environ: Environ)
    | EnterCalled
    | RespondCalled(local: Bunch)
    | ErrorResponseCalled(error: HttpException)
    | Exited(excInfo: ExcInfo)

  /**
   * How one call ends. `ResponseUnbound` is the UnboundLocalError raised by
   * `return response` when `__exit__` suppressed a fault: no response was
   * ever assigned.
   */
  datatype CallResult = Completed(response: Response) | Propagated(exception: Exception) | ResponseUnbound

  /** The result of a call, the steps it took, and the per-request store it leaves. */
  datatype Handling = Handling(result: CallResult, events: seq<Event>, local: Bunch)

  /** The per-request store right after `release_local` and `local.environ = environ`. */
  function BoundLocal(environ: Environ): Bunch {
    map["environ" := EnvironValue(environ)]
  }

  /** Specification of one WSGI call of an application with the given hooks. */
  function Handle(hooks: Hooks, environ: Environ): (h: Handling)
    // the store is emptied, then environ is bound, then enter runs
    ensures |h.events| >= 3 && h.events[..3] == [LocalReleased, EnvironBound(environ), EnterCalled]
    // an exception from enter escapes at once: respond and exit never run
    ensures hooks.enter(BoundLocal(environ)).Some? ==>
              h.result == Propagated(hooks.enter(BoundLocal(environ)).value) && |h.events| == 3
              && h.local == BoundLocal(environ)
    // error_response runs exactly when respond raised an HTTPException, and with that exception
    ensures forall e :: ErrorResponseCalled(e) in h.events <==>
              hooks.enter(BoundLocal(environ)).None? && hooks.respond(BoundLocal(environ)).outcome == Raised(HttpError(e))
    ensures hooks.enter(BoundLocal(environ)).None? ==>
              (|h.events| == 6 <==> hooks.respond(BoundLocal(environ)).outcome.Raised?
                                    && hooks.respond(BoundLocal(environ)).outcome.exception.HttpError?)
    // otherwise respond runs next on the freshly bound store, with nothing left from an
    // earlier call; exit always runs last
    ensures hooks.enter(BoundLocal(environ)).None? ==>
              var out := hooks.respond(BoundLocal(environ));
              && |h.events| >= 5
              && h.events[3] == RespondCalled(BoundLocal(environ))
              && h.events[|h.events| - 1] == Exited(if out.outcome.IsFault() then Some(out.outcome.exception) else None)
              && h.local == out.local
    // on the normal path the result is exactly what respond produced
    ensures hooks.enter(BoundLocal(environ)).None? && hooks.respond(BoundLocal(environ)).outcome.Returned? ==>
              h.result == Completed(hooks.respond(BoundLocal(environ)).outcome.response)
    // an HTTPException becomes error_response(e), and exit sees no exception
    ensures hooks.enter(BoundLocal(environ)).None? ==>
              var out := hooks.respond(BoundLocal(environ)).outcome;
              out.Raised? && out.exception.HttpError? ==>
                && h.result == Completed(hooks.errorResponse(out.exception.error))
                && h.events[4] == ErrorResponseCalled(out.exception.error)
    // any other exception escapes after exit, unless exit suppresses it, which leaves no response
    ensures hooks.enter(BoundLocal(environ)).None? ==>
              var out := hooks.respond(BoundLocal(environ));
              out.outcome.IsFault() ==>
                h.result == (if hooks.exit(out.local, Some(out.outcome.exception))
                             then ResponseUnbound else Propagated(out.outcome.exception))
    // a response is only ever the one respond or error_response produced
    ensures h.result.Completed? ==>
              hooks.enter(BoundLocal(environ)).None? && !hooks.respond(BoundLocal(environ)).outcome.IsFault()
  {
    var bound := BoundLocal(environ);
    var prefix := [LocalReleased, EnvironBound(environ), EnterCalled];
    match hooks.enter(bound)
    case Some(raised) => Handling(Propagated(raised), prefix, bound)
    case None =>
      var out := hooks.respond(bound);
      match out.outcome
      case Returned(response) =>
        Handling(Completed(response), prefix + [RespondCalled(bound), Exited(None)], out.local)
      case Raised(HttpError(e)) =>
        Handling(Completed(hooks.errorResponse(e)),
                 prefix + [RespondCalled(bound), ErrorResponseCalled(e), Exited(None)], out.local)
      case Raised(fault) =>
        var suppress := hooks.exit(out.local, Some(fault));
        Handling(if suppress then ResponseUnbound else Propagated(fault),
                 prefix + [RespondCalled(bound), Exited(Some(fault))], out.local)
  }

  /** The phases of one request, as the lifecycle state machine names them. */
  datatype Phase = Unbound | Bound | Entering | Dispatching | Errored | Finished

  /** The phase one event moves to from `from`, if that event is allowed there. */
  function Next(from: Phase, e: Event): Option<Phase> {
    match (from, e)
    case (Unbound, LocalReleased) => Some(Unbound)
    case (Unbound, EnvironBound(_)) => Some(Bound)
    case (Bound, EnterCalled) => Some(Entering)
    case (Entering, RespondCalled(_)) => Some(Dispatching)
    case (Dispatching, ErrorResponseCalled(_)) => Some(Errored)
    case (Dispatching, Exited(_)) => Some(Finished)
    // a handled HTTP error is invisible to the exit hooks
    case (Errored, Exited(None)) => Some(Finished)
    case _ => None
  }

  /** The phase reached by running `events` from `from`, if every step is allowed. */
  function Run(from: Phase, events: seq<Event>): Option<Phase>
    decreases |events|
  {
    if events == [] then Some(from)
    else match Next(from, events[0])
      case None => None
      case Some(p) => Run(p, events[1..])
  }

  /** Running two traces one after the other is running their concatenation. */
  lemma {:induction false} RunAppend(from: Phase, a: seq<Event>, b: seq<Event>)
    requires Run(from, a).Some?
    ensures Run(from, a + b) == Run(Run(from, a).value, b)
    decreases |a|
  {
    if a != [] {
      assert Next(from, a[0]).Some?;
      assert (a + b)[0] == a[0];
      assert (a + b)[1..] == a[1..] + b;
      RunAppend(Next(from, a[0]).value, a[1..], b);
    } else {
      assert a + b == b;
    }
  }

  /**
   * Every call is a run of the lifecycle state machine from UNBOUND: it ends
   * in FINISHED once exit has run, or stops while entering when enter raised.
   */
  lemma {:induction false} HandleFollowsLifecycle(hooks: Hooks, environ: Environ)
    ensures var h := Handle(hooks, environ);
            Run(Unbound, h.events) == Some(if hooks.enter(BoundLocal(environ)).Some? then Entering else Finished)
  {
    var h := Handle(hooks, environ);
    var prefix := [LocalReleased, EnvironBound(environ), EnterCalled];
    assert Run(Entering, []) == Some(Entering);
    assert Run(Bound, [EnterCalled]) == Some(Entering);
    assert Run(Unbound, [EnvironBound(environ), EnterCalled]) == Some(Entering);
    assert Run(Unbound, prefix) == Some(Entering);
    if hooks.enter(BoundLocal(environ)).None? {
      var bound := BoundLocal(environ);
      var out := hooks.respond(bound).outcome;
      var exit := Exited(if out.IsFault() then Some(out.exception) else None);
      var rest := if out.Raised? && out.exception.HttpError?
                  then [RespondCalled(bound), ErrorResponseCalled(out.exception.error), Exited(None)]
                  else [RespondCalled(bound), exit];
      assert h.events == prefix + rest;
      RunAppend(Unbound, prefix, rest);
      if out.Raised? && out.exception.HttpError? {
        assert Run(Errored, [Exited(None)]) == Some(Finished);
      } else {
        assert Run(Dispatching, [exit]) == Some(Finished);
      }
    }
  }

  /**
   * An application object. `settings` and `local` are the Bunch fields the
   * source updates in place; `events` records the order of the hook calls.
   */
  class AbstractApplication {
    const hooks: Hooks
    /** The response class the application builds its responses with. */
    const response: ResponseClass
    var settings: Bunch
    /** The per-request store. */
    var local: Bunch
    ghost var events: seq<Event>

    /** `__init__(**settings)`: update the default settings with `given`, then run `setup` once. */
    constructor (given: Bunch, hooks: Hooks, response: ResponseClass)
      ensures this.hooks == hooks && this.response == response
      ensures events == [SetUp(MergedSettings(given))]
      ensures settings == hooks.setup(MergedSettings(given))
      ensures local == map[]
    {
      this.hooks := hooks;
      this.response := response;
      var merged := DefaultSettings();
      merged := merged + given;
      events := [SetUp(merged)];
      settings := hooks.setup(merged);
      local := map[];
    }

    /** `__call__`: one request handled with the application as its own context manager. */
    method Call(environ: Environ) returns (result: CallResult)
      modifies this
      ensures settings == old(settings)
      ensures result == Handle(hooks, environ).result
      ensures local == Handle(hooks, environ).local
      ensures events == old(events) + Handle(hooks, environ).events
    {
      local := map[];
      events := events + [LocalReleased];
      local := local["environ" := EnvironValue(environ)];
      events := events + [EnvironBound(environ), EnterCalled];
      var entered := hooks.enter(local);
      if entered.Some? {
        return Propagated(entered.value);
      }
      events := events + [RespondCalled(local)];
      var out := hooks.respond(local);
      local := out.local;
      // the Python local `response`, unbound until one of the branches assigns it
      var response: Option<Response> := None;
      var excInfo: ExcInfo := None;
      match out.outcome {
        case Returned(r) =>
          response := Some(r);
        case Raised(HttpError(e)) =>
          events := events + [ErrorResponseCalled(e)];
          response := Some(hooks.errorResponse(e));
        case Raised(fault) =>
          excInfo := Some(fault);
      }
      events := events + [Exited(excInfo)];
      var suppress := hooks.exit(local, excInfo);
      if excInfo.Some? && !suppress {
        result := Propagated(excInfo.value);
      } else if response.None? {
        result := ResponseUnbound;
      } else {
        result := Completed(response.value);
      }
    }
  }

  /** With the default exit hook a fault from respond always escapes the call. */
  lemma DefaultExitPropagatesFaults(hooks: Hooks, environ: Environ)
    requires hooks.exit == DefaultExit
    requires hooks.enter(BoundLocal(environ)).None?
    requires hooks.respond(BoundLocal(environ)).outcome.IsFault()
    ensures Handle(hooks, environ).result == Propagated(hooks.respond(BoundLocal(environ)).outcome.exception)
  {
  }

  /** With the default error_response an HTTPException from respond is itself the response. */
  lemma DefaultErrorResponseIsIdentity(hooks: Hooks, environ: Environ)
    requires hooks.errorResponse == DefaultErrorResponse
    requires hooks.enter(BoundLocal(environ)).None?
    requires var out := hooks.respond(BoundLocal(environ)).outcome; out.Raised? && out.exception.HttpError?
    ensures Handle(hooks, environ).result
            == Completed(ExceptionResponse(hooks.respond(BoundLocal(environ)).outcome.exception.error))
  {
  }

  /** With the default setup the constructed application keeps exactly the merged settings. */
  method DefaultSetupKeepsMergedSettings(given: Bunch, hooks: Hooks, response: ResponseClass)
    returns (app: AbstractApplication)
    requires hooks.setup == DefaultSetup
    ensures app.settings == MergedSettings(given)
    ensures "debug" in app.settings
  {
    app := new AbstractApplication(given, hooks, response);
  }

  /** With the default enter hook every call reaches respond and ends with exit. */
  lemma DefaultEnterReachesRespond(hooks: Hooks, environ: Environ)
    requires hooks.enter == DefaultEnter
    ensures var h := Handle(hooks, environ);
            && |h.events| >= 5
            && h.events[3] == RespondCalled(BoundLocal(environ))
            && h.events[|h.events| - 1].Exited?
            && Run(Unbound, h.events) == Some(Finished)
  {
    assert hooks.enter(BoundLocal(environ)) == None;
    HandleFollowsLifecycle(hooks, environ);
  }
}
