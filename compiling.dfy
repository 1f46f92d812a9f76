/**
 * ramverk/compiling.py: the `compiled` endpoint, which picks a compiler by
 * the requested file name's extension, and the mixin that routes
 * `/compiled/<path:name>` to it.
 */
module Compiling {
  import opened Wrappers
  import opened Http

  /** A compiler: given the whole requested file name, it yields what the endpoint returns. */
  type Compiler = string -> Response

  /** How `compiled` fails. */
  datatype CompileError =
    // the ValueError of `str.index`: the name has no '.'
    | NoExtension(name: string)
    // the KeyError of the table lookup: no compiler for this extension
    | UnknownCompiler(key: string)

  /** `s.index(c)`: the position of the first `c` in `s`, if there is one. */
  function IndexOf(s: string, c: char): (r: Option<nat>)
    ensures r.None? <==> c !in s
    ensures r.Some? ==> r.value < |s| && s[r.value] == c && c !in s[..r.value]
  {
    if s == [] then None
    else if s[0] == c then Some(0)
    else match IndexOf(s[1..], c)
      case None => None
      case Some(i) =>
        assert s[..i + 1] == [s[0]] + s[1..][..i];
        Some(i + 1)
  }

  /**
   * `filename[filename.index('.'):]`: the suffix of the name from its first
   * '.', inclusive.
   */
  function CompilerKey(name: string): (r: Result<string, CompileError>)
    ensures r.Failure? <==> '.' !in name
    ensures r.Failure? ==> r.error == NoExtension(name)
    ensures r.Success? ==>
              && 0 < |r.value| <= |name|
              && r.value[0] == '.'
              && name[|name| - |r.value|..] == r.value
              && '.' !in name[..|name| - |r.value|]
  {
    match IndexOf(name, '.')
    case None => Failure(NoExtension(name))
    case Some(i) => Success(name[i..])
  }

  /**
   * `compiled`: look the key up in the compiler table and apply that
   * compiler to the whole file name, returning its result unchanged.
   */
  function Compiled(name: string, compilers: map<string, Compiler>): (r: Result<Response, CompileError>)
    ensures r == Failure(NoExtension(name)) <==> '.' !in name
    ensures r.Failure? && r.error.UnknownCompiler? <==>
              CompilerKey(name).Success? && CompilerKey(name).value !in compilers
    ensures r.Failure? && r.error.UnknownCompiler? ==> r.error.key == CompilerKey(name).value
    ensures r.Success? <==> CompilerKey(name).Success? && CompilerKey(name).value in compilers
    ensures r.Success? ==> r.value == compilers[CompilerKey(name).value](name)
  {
    match CompilerKey(name)
    case Failure(e) => Failure(e)
    case Success(key) =>
      if key in compilers then Success(compilers[key](name)) else Failure(UnknownCompiler(key))
  }

  /** In `stem + ext`, with no `c` in `stem` and `ext` starting with `c`, the first `c` is at `|stem|`. */
  lemma {:induction false} IndexOfAfterStem(stem: string, ext: string, c: char)
    requires c !in stem
    requires |ext| > 0 && ext[0] == c
    ensures IndexOf(stem + ext, c) == Some(|stem|)
  {
    if stem == [] {
      assert stem + ext == ext;
    } else {
      assert (stem + ext)[0] == stem[0];
      assert (stem + ext)[1..] == stem[1..] + ext;
      IndexOfAfterStem(stem[1..], ext, c);
    }
  }

  /** The key of a name is everything from its first '.' on: `stem + ext` gives `ext` when `stem` has no '.'. */
  lemma CompilerKeyAfterStem(stem: string, ext: string)
    requires '.' !in stem
    requires |ext| > 0 && ext[0] == '.'
    ensures CompilerKey(stem + ext) == Success(ext)
  {
    IndexOfAfterStem(stem, ext, '.');
    assert (stem + ext)[|stem|..] == ext;
  }

  /** For example, `a.b.css` is compiled by the compiler registered for `.b.css`. */
  lemma KeyOfDottedName()
    ensures CompilerKey("a.b.css") == Success(".b.css")
  {
    assert "a.b.css" == "a" + ".b.css";
    CompilerKeyAfterStem("a", ".b.css");
  }

  /** With the default, empty table every request for a compiled file fails. */
  lemma EmptyTableAlwaysFails(name: string)
    ensures Compiled(name, map[]).Failure?
  {
  }

  /** A URL rule of the application's map. */
  datatype Rule = Rule(pattern: string, endpoint: string)

  /** The rule `__create__` registers. */
  const CompiledRule := Rule("/compiled/<path:name>", "compiled")

  /** What an endpoint name is bound to: the `compiled` function, or some other view. */
  datatype Endpoint = CompiledEndpoint | View(name: string)

  /** Steps of `__create__`, in order. */
  datatype CreateEvent = Routed(rule: Rule) | EndpointBound(name: string, endpoint: Endpoint) | NextCreated

  /**
   * CompilerMixinBase: the URL map and endpoint table it writes into, and its
   * compiler table.
   */
  class CompilerMixinBase {
    var rules: seq<Rule>
    var endpoints: map<string, Endpoint>
    /** The compilers, keyed by the extension of the file each one produces. */
    var compilers: map<string, Compiler>
    ghost var events: seq<CreateEvent>

    /** The compiler table starts empty. */
    constructor (rules: seq<Rule>, endpoints: map<string, Endpoint>)
      ensures this.rules == rules && this.endpoints == endpoints
      ensures compilers == map[] && events == []
    {
      this.rules := rules;
      this.endpoints := endpoints;
      compilers := map[];
      events := [];
    }

    /**
     * `__create__`: route `/compiled/<path:name>` to endpoint `compiled`,
     * bind that endpoint to `compiled`, then chain to the next mixin.
     */
    method Create()
      modifies this
      ensures rules == old(rules) + [CompiledRule]
      ensures endpoints == old(endpoints)["compiled" := CompiledEndpoint]
      ensures compilers == old(compilers)
      ensures events == old(events) + [Routed(CompiledRule), EndpointBound("compiled", CompiledEndpoint), NextCreated]
    {
      rules := rules + [CompiledRule];
      events := events + [Routed(CompiledRule)];
      endpoints := endpoints["compiled" := CompiledEndpoint];
      events := events + [EndpointBound("compiled", CompiledEndpoint)];
      events := events + [NextCreated];
    }
  }
}
