/**
 * BaseEnvironment of ramverk/environment.py: the per-request object that
 * holds its application and environ, runs its `__create__` hook once, and
 * by default answers every request with NotFound.
 */
module Environment {
  import opened Wrappers
  import opened Http
  import Application

  /** Steps of an environment's life that the source makes observable. */
  datatype EnvironmentEvent =
    | Created(environ: Environ)
    | RequestBuilt(environ: Environ)

  class BaseEnvironment {
    /** The application whose request this environment serves. */
    const application: Application.AbstractApplication
    /** The request's WSGI environ dictionary. */
    const environ: Environ
    /** The slot `cached_property` fills on the first access of `request`. */
    var request: Option<HttpRequest>
    ghost var events: seq<EnvironmentEvent>

    /** The cached request wraps this environ, and it was built at most once, after creation. */
    ghost predicate Valid()
      reads this
    {
      && (request.Some? ==> request.value == HttpRequest(environ))
      && events == [Created(environ)] + (if request.Some? then [RequestBuilt(environ)] else [])
    }

    /** Stores `application` and `environ`, then calls the `__create__` hook exactly once. */
    constructor (application: Application.AbstractApplication, environ: Environ)
      ensures this.application == application && this.environ == environ
      ensures request == None
      ensures events == [Created(environ)]
      ensures Valid()
    {
      this.application := application;
      this.environ := environ;
      request := None;
      // the hook runs once the fields are assigned, so it sees this environ
      events := [Created(environ)];
    }

    /** `__enter__` does nothing. */
    method Enter()
      ensures unchanged(this)
    {
    }

    /** `__exit__` does nothing and returns None, so it never suppresses an exception. */
    method Exit(excInfo: ExcInfo) returns (suppress: bool)
      ensures !suppress
    {
      suppress := false;
    }

    /** The default `__call__` never responds: it raises NotFound, HTTP 404. */
    method Call() returns (outcome: Application.Outcome)
      ensures outcome.Raised? && outcome.exception == HttpError(NotFound)
      ensures outcome.exception.error.code == 404
    {
      outcome := Application.Raised(HttpError(NotFound));
    }

    /** `request`: built from this environment's own environ, at most once per environment. */
    method Request() returns (r: HttpRequest)
      requires Valid()
      modifies this
      ensures Valid()
      ensures r.environ == environ
      ensures request == Some(r)
      ensures old(request).Some? ==> r == old(request).value && events == old(events)
      ensures old(request).None? ==> events == old(events) + [RequestBuilt(environ)]
    {
      if request.None? {
        request := Some(HttpRequest(environ));
        events := events + [RequestBuilt(environ)];
      }
      r := request.value;
    }

    /** `response` is an alias of the application's response factory. */
    function ResponseFactory(): (factory: ResponseClass)
      ensures factory == application.response
    {
      application.response
    }
  }
}
