# ramverk request lifecycle and resource leases, in Dafny

This project models the core of ramverk, a toolkit that builds WSGI
applications and per-request environments out of cooperative mixins:

- **Application** (`application.dfy`): `AbstractApplication` construction
  merges the caller's keyword settings over the defaults (`debug` false)
  and then runs `setup` once. A WSGI call empties the per-request store
  `local`, binds `environ`, then runs the application's own
  `__enter__`, `respond` and `__exit__`. An `HTTPException` from `respond`
  becomes `error_response(e)`, and `__exit__` then sees no exception. Any
  other exception reaches `__exit__`, which may suppress it. The
  overridable methods are a `Hooks` value of pure functions fixed when the
  application is composed. `Handle` is the specification of one call. The
  class method `Call` follows the Python control flow step by step,
  including the local variable `response` that may stay unassigned, and is
  proved equal to `Handle`. A lemma shows that every call is a run of the
  lifecycle state machine (unbound, bound, entering, dispatching, errored,
  finished).
- **Environment** (`environment.dfy`): `BaseEnvironment` stores its
  application and environ and runs its `__create__` hook once. Its enter
  and exit hooks do nothing and never suppress. Its default dispatch raises
  NotFound (404). `request` is built once per environment from its own
  environ, and `response` is the application's response factory.
- **ZODB lease** (`zodb.dfy`): the application's pool (`DB`) is built once
  from the configured storage. The environment opens at most one
  connection, on first access of the connection or of `persistent`, and
  sets `_zodb_connected` when it does. On exit it closes the connection if
  and only if it opened one, and then forwards the same exception info to
  the next mixin. The pool counts `open` and `close` calls in ghost fields.
  A per-environment trace of opens, closes and forwards carries the
  at-most-once invariant.
- **Compiled assets** (`compiling.dfy`): `compiled` takes the suffix of
  the file name from its first `.`, looks it up in the compiler table and
  applies that compiler to the whole name. A name without `.` and an
  unknown suffix are explicit errors. `__create__` registers the rule
  `/compiled/<path:name>` and the `compiled` endpoint, then chains on.
- **Genshi rendering** (`genshi.dfy`): the six-entry renderer table, the
  loader entry for the application's `templates` directory, the namespace
  tables of the compact template classes, and `GenshiRenderer.__call__`.
  The call updates the context, loads the template with the renderer's
  dialect, generates and filters the stream, and serializes it with
  `serialize` when lazy and `render` otherwise. It passes the doctype only
  when one is set, and wraps the result in the application's response with
  the renderer's mimetype. Genshi's loading, generation and serialization
  are foreign. Their results are terms that record how they were produced
  (`Template`, `Stream`, `Rendering`), so the contracts can say which
  inputs reached each step.

`wrappers.dfy` (Option, Result), `http.dfy` (stand-ins for werkzeug's
environ, request, HTTP exceptions and responses) and `utils.dfy` (the
`Bunch` value map) hold the shared values.

Two behaviours of the code are worth stating outright:

- When `__exit__` suppresses a non-HTTP exception, `return response` raises
  UnboundLocalError, because `response` was never assigned
  (ramverk/application.py:89). The model gives this its own result,
  `ResponseUnbound`, and never invents a response.
- The ZODB connection is cached on the environment object
  (`cached_property`), not in the per-request store.

## Model

| member | source | states |
|---|---|---|
| Application.MergedSettings | ramverk/application.py:20-30 | the given keyword settings override the defaults; `debug` is present and false when not given |
| Application.AbstractApplication.constructor | ramverk/application.py:20-24 | setup runs exactly once and sees the merged settings; the settings are what setup leaves; `local` starts empty |
| Application.DefaultSetup | ramverk/application.py:43-45 | the default setup leaves the settings unchanged |
| Application.DefaultErrorResponse | ramverk/application.py:62-67 | the default error_response returns the HTTPException itself as the response |
| Application.DefaultEnter | ramverk/application.py:69-71 | the default `__enter__` raises nothing |
| Application.DefaultExit | ramverk/application.py:73-76 | the default `__exit__` never suppresses |
| Application.Handle | ramverk/application.py:78-89 | local is emptied before environ is bound, both before enter; an exception from enter escapes without respond or exit, leaving the bound store; respond sees the freshly bound store, with nothing from an earlier call surviving; exit runs last on every other path; the normal result is respond's response; error_response runs if and only if respond raised an HTTPException, is given that exception, and its result is the response, and exit then sees no exception; a fault escapes after exit unless exit suppresses it, which leaves no response (UnboundLocalError); a response is only ever one respond or error_response produced |
| Application.HandleFollowsLifecycle | ramverk/application.py:82-89 | every call is a run of the lifecycle state machine from unbound, ending finished (after exit), or stopped while entering when enter raised |
| Application.AbstractApplication.Call | ramverk/application.py:78-89 | the imperative call yields exactly the result, the hook order and the per-request store of `Handle`, whatever the store held before, and leaves the settings alone |
| Application.DefaultExitPropagatesFaults | ramverk/application.py:84-89 | with the default `__exit__` a non-HTTP exception from respond always escapes the call |
| Application.DefaultErrorResponseIsIdentity | ramverk/application.py:85-88 | with the default error_response an HTTPException from respond is returned as the response |
| Application.DefaultSetupKeepsMergedSettings | ramverk/application.py:20-24 | with the default setup the new application's settings are exactly the defaults updated with the given keywords |
| Application.DefaultEnterReachesRespond | ramverk/application.py:69-71 | with the default `__enter__` every call reaches respond on the bound store and ends in exit, a complete lifecycle run |
| Environment.BaseEnvironment.constructor | ramverk/environment.py:9-17 | application and environ are stored unchanged, then `__create__` runs exactly once and sees that environ; no request is cached yet |
| Environment.BaseEnvironment.Enter | ramverk/environment.py:19-20 | `__enter__` changes nothing |
| Environment.BaseEnvironment.Exit | ramverk/environment.py:22-23 | `__exit__` never suppresses an exception |
| Environment.BaseEnvironment.Call | ramverk/environment.py:25-28 | the default dispatch never returns a response; it raises NotFound, code 404 |
| Environment.BaseEnvironment.Request | ramverk/environment.py:30-34 | the request wraps this environment's own environ, is cached, and is built at most once per environment |
| Environment.BaseEnvironment.ResponseFactory | ramverk/environment.py:36-37 | `response` resolves to the application's response factory |
| Zodb.ZodbStorageMixin.ConnectionPool | ramverk/zodb.py:39-41 | the pool is built from the configured storage on first access only, with the one call of `settings.storage()`, and every later access returns that same pool; a built pool always sits over the configured storage |
| Zodb.ZodbConnectionMixin.constructor | ramverk/zodb.py:11 | a new environment is not connected, has no cached connection and has opened nothing |
| Zodb.ZodbConnectionMixin.ZodbConnection | ramverk/zodb.py:13-19 | the first access sets the flag and opens exactly one fresh connection from the application's pool with this environment's transaction manager; the connection is over the configured storage; a pool that already exists is kept, otherwise a new one is built with one call of `settings.storage()`; later accesses return the same connection and do not touch the pool; the environment never holds more than one open |
| Zodb.ZodbConnectionMixin.Persistent | ramverk/zodb.py:28-32 | `persistent` is the root of this environment's single connection, whose storage is the application's configured storage; it opens a connection only if none was opened, keeps an existing pool and closes nothing |
| Zodb.ZodbConnectionMixin.Exit | ramverk/zodb.py:21-26 | the connection is closed exactly once if one was opened and the pool is untouched otherwise; the close comes before forwarding; the same exception info goes to the next mixin and its answer is returned unchanged |
| Zodb.TwoEnvironmentsShareOnePool | ramverk/zodb.py:13-19 | two environments of one application each lease their own connection from the same pool; both keep the one-open invariant, `settings.storage()` has been called once, and the pool sees two opens and no closes |
| Zodb.OpenCountAppend | ramverk/zodb.py:13-25 | opens counted over a trace add up over concatenation, which keeps the at-most-once invariant through exit |
| Compiling.IndexOf | ramverk/compiling.py:8 | `str.index`: no result exactly when the character is absent; otherwise the position of its first occurrence |
| Compiling.CompilerKey | ramverk/compiling.py:7-8 | the key is the suffix of the name starting at its first `.`, inclusive; a name without `.` is an error |
| Compiling.Compiled | ramverk/compiling.py:6-10 | a name without `.` fails with the index error; a key missing from the table fails with a lookup error naming that key; otherwise the result is the key's compiler applied to the whole name, unchanged |
| Compiling.CompilerKeyAfterStem | ramverk/compiling.py:7-8 | for a stem without `.` followed by an extension starting with `.`, the key is exactly that extension |
| Compiling.KeyOfDottedName | ramverk/compiling.py:7-8 | `a.b.css` gives the key `.b.css` |
| Compiling.EmptyTableAlwaysFails | ramverk/compiling.py:21-24 | with the default empty compiler table every lookup fails |
| Compiling.CompilerMixinBase.constructor | ramverk/compiling.py:21-24 | the compiler table starts empty |
| Compiling.CompilerMixinBase.Create | ramverk/compiling.py:16-19 | `__create__` appends the rule `/compiled/<path:name>` for endpoint `compiled`, binds `compiled` to the compiled function, then chains to the next mixin, in that order, and changes nothing else |
| Genshi.CompactNamespaces | ramverk/genshi.py:18-20 | CompactTemplate's prefixes are exactly `py` for Genshi's directives and `xi` for XInclude |
| Genshi.CompactHtmlNamespaces | ramverk/genshi.py:45-49 | CompactHTMLTemplate's prefixes are all of CompactTemplate's with the same URIs, plus `i18n` for Babel and `form` for Flatland |
| Genshi.GenshiRendererTable | ramverk/genshi.py:134-142 | exactly the six extensions; `.html` uses CompactHTMLTemplate, `.txt` NewTextTemplate, the rest CompactTemplate; serializers `html`, `xml` and `text`; doctypes `html5`, `xhtml11` and `svg` on their three extensions and none on the others; each extension's mimetype; none lazy |
| Genshi.GenshiMixin.Renderers | ramverk/genshi.py:131-143 | the table keeps every inherited entry and adds or overwrites exactly the six extensions with new renderers bound to this application and configured as the table says; computed once, then cached |
| Genshi.GenshiMixin.NewGenshiRenderers | ramverk/genshi.py:135-142 | the six new renderers, each configured as the table says for its extension |
| Genshi.GenshiMixin.TemplateLoaders | ramverk/genshi.py:145-151 | the inherited loaders with `genshi` set to one package loader for the module's `templates` directory; computed once, then cached |
| Genshi.GenshiRenderer.constructor | ramverk/genshi.py:99-102 | the fields are stored as given; dialect defaults to CompactTemplate and lazy to false |
| Genshi.DefaultFilterGenshiStream | ramverk/genshi.py:165-168 | the default stream filter returns the stream unchanged |
| Genshi.GenshiRenderer.Filter | ramverk/genshi.py:116-119 | `filter` delegates to the application's `filter_genshi_stream` |
| Genshi.DefaultFilterKeepsStream | ramverk/genshi.py:116-119 | a renderer of an application with the default `filter_genshi_stream` returns the stream unchanged |
| Genshi.GenshiRenderer.Call | ramverk/genshi.py:104-114 | the stream is the filtered output of the template loaded with this dialect and generated from the updated context; lazy selects serialize, otherwise render; the doctype keyword is passed if and only if a doctype is set; the response uses the application's response class and this mimetype |
| Genshi.RenderWithDefaultFilter | ramverk/genshi.py:104-119 | with the default filter, the rendered stream is exactly the one the template generated from the updated context, wrapped in the application's response class with the renderer's mimetype |

## Left out

- WSGI plumbing: the `@responder` adaptation and `start_response` are not modelled. `local` is one per-worker map, so werkzeug's `Local` thread-locality and `release_local` become "empty the map".
- Application.Handle: `__enter__`, `error_response` and `__exit__` are pure functions of the store, so they cannot write to `local` as the Python methods could. What respond sees and what the call leaves in `local` are stated for hooks that only read it.
- Hooks that raise: `setup`, `error_response` and `__exit__` are total functions here, so an exception raised inside one of them is not modelled. `__enter__` and `respond` may raise.
- `self.self = self` (ramverk/application.py:22) and the `module`, `log` and `request` properties of AbstractApplication are not modelled. `request_property` lives in ramverk/utils.py, which is not part of this model.
- Zodb.ZodbConnectionMixin.Exit: the next mixin's `__exit__` is a pure function of the exception info, so any effect it has of its own (the transaction mixin's commit or abort) is outside this model.
- Zodb.ZodbConnectionMixin.Exit: `close()` never raises here, so exit always forwards. In the source, a `close()` that raises (ramverk/zodb.py:25) skips the forward to the next mixin's `__exit__` (ramverk/zodb.py:26); that path is not modelled.
- Pool failures: `DB.open` always succeeds here. The source sets `_zodb_connected` before calling `open` (ramverk/zodb.py:17-19), so a failing `open` would leave the flag set with nothing cached, and exit would then call `open` again. That path is not modelled. The pool's checkout blocking, concurrency and transaction commit and abort belong to ZODB and are left out too.
- The `__debug__` log calls (ramverk/zodb.py:15-16, 23-24) write to an external log channel and are left out.
- Configurable's `__create__` chain and URLMapMixin's `route` come from ramverk/utils.py and ramverk/routing.py, which are not part of this model. The model records the calls in order.
- The inherited renderer and loader tables come from ramverk/rendering.py, which is not part of this model. They are given to `GenshiMixin` when it is built.
- Genshi itself: CompactTemplate and HTMLTemplate parsing (compactxml's `expand_to_string` with its `pretty_print` flag, `HTML()`, `Transformer`), template loading and caching, stream generation and serialization. Their results are symbolic terms.
- `genshi_loader`, `configure_genshi_template` and `GenshiRenderer.__repr__` (ramverk/genshi.py:121-125, 153-163) only build or describe Genshi objects and are left out.
- ramverk/fullstack.py, pavement.py, the transaction, Bunch and response helpers (ramverk/transaction.py, ramverk/utils.py, ramverk/wrappers.py) and the tests are not part of this model.
- Environment.BaseEnvironment.Request builds the request directly from the environment's environ. The source calls the application's request factory, `self.application.request(self.environ)` (ramverk/environment.py:34). That factory is the `request_property` of ramverk/utils.py, which is not part of this model.
