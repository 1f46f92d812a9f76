/**
 * ramverk/genshi.py: renderers with a fixed configuration that load a
 * template, generate and filter its stream and serialize it into a
 * response, and the application mixin holding their extension table.
 * Genshi's own loading, generation and serialization are foreign: their
 * results are kept as terms that record how they were produced.
 */
module Genshi {
  import opened Wrappers
  import opened Http
  import opened Utils
  import Environment

  /** Template classes a renderer can load with. */
  datatype Dialect = CompactTemplate | CompactHTMLTemplate | NewTextTemplate | MarkupTemplate | HTMLTemplate

  /** Genshi's template directive namespace. */
  const GenshiNamespace := "http://genshi.edgewall.org/"
  /** The XInclude namespace, for template inclusion. */
  const XIncludeNamespace := "http://www.w3.org/2001/XInclude"
  /** Genshi's Babel translation namespace. */
  const I18nNamespace := "http://genshi.edgewall.org/i18n"
  /** Flatland's Genshi form namespace. */
  const FlatlandNamespace := "http://ns.discorporate.us/flatland/genshi"

  /** Namespace prefixes every CompactTemplate is parsed with: Genshi's directives and XInclude. */
  function CompactNamespaces(): (ns: map<string, string>)
    ensures ns.Keys == {"py", "xi"}
    ensures ns["py"] == GenshiNamespace && ns["xi"] == XIncludeNamespace
  {
    map["py" := GenshiNamespace, "xi" := XIncludeNamespace]
  }

  /** CompactHTMLTemplate's prefixes: all of CompactTemplate's, plus `i18n` and `form`. */
  function CompactHtmlNamespaces(): (ns: map<string, string>)
    ensures ns.Keys == CompactNamespaces().Keys + {"i18n", "form"}
    ensures forall prefix :: prefix in CompactNamespaces() ==> ns[prefix] == CompactNamespaces()[prefix]
    ensures ns["i18n"] == I18nNamespace && ns["form"] == FlatlandNamespace
  {
    map["py" := GenshiNamespace,
        "xi" := XIncludeNamespace,
        "i18n" := I18nNamespace,
        "form" := FlatlandNamespace]
  }

  /** The keyword context a template is rendered with. */
  type Context = Bunch

  /** A template as the loader hands it back: the file it was loaded from and the class that parsed it. */
  datatype Template = Template(name: string, dialect: Dialect)

  /** A markup stream: generated from a template and a context, or the output of some filter. */
  datatype Stream = Generated(template: Template, context: Context) | Transformed(filter: string, source: Stream)

  /** `stream.serialize` (lazy) or `stream.render`. */
  datatype SerializeMethod = Serialize | Render

  /** The serialization of the final stream: the method used, the serializer, and the keyword arguments passed. */
  datatype Rendering = Rendering(stream: Stream, serialization: SerializeMethod, serializer: Option<string>, keywords: map<string, string>)

  /** What `app.response(rendering, mimetype=...)` builds. */
  datatype RenderedResponse = RenderedResponse(responseClass: ResponseClass, rendering: Rendering, mimetype: Option<string>)

  /** A renderer's five settings, as one value. */
  datatype RendererConfig = RendererConfig(
    serializer: Option<string>, doctype: Option<string>, mimetype: Option<string>, dialect: Dialect, lazy: bool)

  /** The default `filter_genshi_stream` leaves the stream as it is. */
  function DefaultFilterGenshiStream(environment: Environment.BaseEnvironment, template: Template, stream: Stream): (s: Stream)
    ensures s == stream
  {
    stream
  }

  /** The extensions GenshiMixin installs renderers for. */
  const GenshiExtensions: set<string> := {".html", ".xhtml", ".atom", ".svg", ".xml", ".txt"}

  /** The configuration GenshiMixin gives each of its renderers. */
  function GenshiRendererTable(): (t: map<string, RendererConfig>)
    ensures t.Keys == GenshiExtensions
    ensures t[".html"].dialect == CompactHTMLTemplate
    ensures t[".txt"].dialect == NewTextTemplate
    ensures forall ext :: ext in t && ext != ".html" && ext != ".txt" ==> t[ext].dialect == CompactTemplate
    ensures forall ext :: ext in t ==> !t[ext].lazy && t[ext].mimetype.Some?
    ensures t[".html"].serializer == Some("html") && t[".txt"].serializer == Some("text")
    ensures forall ext :: ext in t && ext != ".html" && ext != ".txt" ==> t[ext].serializer == Some("xml")
    ensures forall ext :: ext in t ==> (t[ext].doctype.None? <==> ext in {".atom", ".xml", ".txt"})
    ensures t[".html"].doctype == Some("html5") && t[".xhtml"].doctype == Some("xhtml11") && t[".svg"].doctype == Some("svg")
    ensures t[".html"].mimetype == Some("text/html") && t[".xhtml"].mimetype == Some("application/xhtml+xml")
    ensures t[".atom"].mimetype == Some("application/atom+xml") && t[".svg"].mimetype == Some("image/svg+xml")
    ensures t[".xml"].mimetype == Some("application/xml") && t[".txt"].mimetype == Some("text/plain")
  {
    map[".html"  := RendererConfig(Some("html"), Some("html5"),   Some("text/html"),             CompactHTMLTemplate, false),
        ".xhtml" := RendererConfig(Some("xml"),  Some("xhtml11"), Some("application/xhtml+xml"), CompactTemplate,     false),
        ".atom"  := RendererConfig(Some("xml"),  None,            Some("application/atom+xml"),  CompactTemplate,     false),
        ".svg"   := RendererConfig(Some("xml"),  Some("svg"),     Some("image/svg+xml"),         CompactTemplate,     false),
        ".xml"   := RendererConfig(Some("xml"),  None,            Some("application/xml"),       CompactTemplate,     false),
        ".txt"   := RendererConfig(Some("text"), None,            Some("text/plain"),            NewTextTemplate,     false)]
  }

  /** An entry of an application's renderer table: a Genshi renderer, or one another mixin put there. */
  datatype Renderer = Genshi(renderer: GenshiRenderer) | OtherRenderer(name: string)

  /** A template search path entry. */
  datatype Loader = PackageLoader(package: string, path: string) | OtherLoader(name: string)

  /**
   * GenshiMixin: the application side. The methods a concrete application
   * overrides are fixed when it is composed; the tables it inherits from the
   * templating base are given; `renderers` and `templateLoaders` are the
   * slots `cached_property` fills.
   */
  class GenshiMixin {
    /** The application's module, whose package holds the templates. */
    const moduleName: string
    /** The response class rendered output is wrapped in. */
    const response: ResponseClass
    /** `update_template_context`, which adds to the context in place. */
    const updateTemplateContext: (Environment.BaseEnvironment, Context) -> Context
    /** `filter_genshi_stream`. */
    const filterGenshiStream: (Environment.BaseEnvironment, Template, Stream) -> Stream
    /** The renderer table of the templating base. */
    const inheritedRenderers: map<string, Renderer>
    /** The template loader Bunch of the templating base. */
    const inheritedLoaders: map<string, seq<Loader>>
    var renderers: Option<map<string, Renderer>>
    var templateLoaders: Option<map<string, seq<Loader>>>

    constructor (moduleName: string, response: ResponseClass,
                 updateTemplateContext: (Environment.BaseEnvironment, Context) -> Context,
                 filterGenshiStream: (Environment.BaseEnvironment, Template, Stream) -> Stream,
                 inheritedRenderers: map<string, Renderer>, inheritedLoaders: map<string, seq<Loader>>)
      ensures this.moduleName == moduleName && this.response == response
      ensures this.updateTemplateContext == updateTemplateContext && this.filterGenshiStream == filterGenshiStream
      ensures this.inheritedRenderers == inheritedRenderers && this.inheritedLoaders == inheritedLoaders
      ensures renderers == None && templateLoaders == None
    {
      this.moduleName := moduleName;
      this.response := response;
      this.updateTemplateContext := updateTemplateContext;
      this.filterGenshiStream := filterGenshiStream;
      this.inheritedRenderers := inheritedRenderers;
      this.inheritedLoaders := inheritedLoaders;
      renderers := None;
      templateLoaders := None;
    }

    /**
     * `renderers`: the inherited table, with every inherited entry kept
     * except that the six Genshi extensions are added or overwritten by new
     * renderers configured as GenshiRendererTable says.
     */
    method Renderers() returns (table: map<string, Renderer>)
      modifies this
      ensures renderers == Some(table) && templateLoaders == old(templateLoaders)
      ensures old(renderers).Some? ==> table == old(renderers).value
      ensures old(renderers).None? ==>
                && table.Keys == inheritedRenderers.Keys + GenshiExtensions
                && (forall ext :: ext in inheritedRenderers && ext !in GenshiExtensions ==> table[ext] == inheritedRenderers[ext])
                && (forall ext :: ext in GenshiExtensions ==>
                      && table[ext].Genshi?
                      && fresh(table[ext].renderer)
                      && table[ext].renderer.app == this
                      && table[ext].renderer.Config() == GenshiRendererTable()[ext])
    {
      if renderers.None? {
        var genshi := NewGenshiRenderers();
        renderers := Some(inheritedRenderers + genshi);
      }
      table := renderers.value;
    }

    /** The six renderers `renderers` installs, each new and bound to this application. */
    method NewGenshiRenderers() returns (genshi: map<string, Renderer>)
      ensures genshi.Keys == GenshiExtensions
      ensures forall ext :: ext in genshi ==>
                && genshi[ext].Genshi?
                && fresh(genshi[ext].renderer)
                && genshi[ext].renderer.app == this
                && genshi[ext].renderer.Config() == GenshiRendererTable()[ext]
    {
      var html := new GenshiRenderer(this, Some("html"), Some("html5"), Some("text/html"), CompactHTMLTemplate);
      var xhtml := new GenshiRenderer(this, Some("xml"), Some("xhtml11"), Some("application/xhtml+xml"));
      var atom := new GenshiRenderer(this, Some("xml"), None, Some("application/atom+xml"));
      var svg := new GenshiRenderer(this, Some("xml"), Some("svg"), Some("image/svg+xml"));
      var xml := new GenshiRenderer(this, Some("xml"), None, Some("application/xml"));
      var txt := new GenshiRenderer(this, Some("text"), None, Some("text/plain"), NewTextTemplate);
      genshi := map[".html" := Genshi(html), ".xhtml" := Genshi(xhtml), ".atom" := Genshi(atom),
                    ".svg" := Genshi(svg), ".xml" := Genshi(xml), ".txt" := Genshi(txt)];
    }

    /**
     * `template_loaders`: the inherited loader Bunch with `genshi` set to one
     * package loader for the `templates` directory of the application's module.
     */
    method TemplateLoaders() returns (loaders: map<string, seq<Loader>>)
      modifies this
      ensures templateLoaders == Some(loaders) && renderers == old(renderers)
      ensures old(templateLoaders).Some? ==> loaders == old(templateLoaders).value
      ensures old(templateLoaders).None? ==>
                && loaders.Keys == inheritedLoaders.Keys + {"genshi"}
                && loaders["genshi"] == [PackageLoader(moduleName, "templates")]
                && (forall name :: name in inheritedLoaders && name != "genshi" ==> loaders[name] == inheritedLoaders[name])
    {
      if templateLoaders.None? {
        templateLoaders := Some(inheritedLoaders["genshi" := [PackageLoader(moduleName, "templates")]]);
      }
      loaders := templateLoaders.value;
    }
  }

  /** GenshiRenderer: one fixed configuration for rendering templates into responses. */
  class GenshiRenderer {
    const app: GenshiMixin
    /** The Genshi serializer name (`html`, `xml`, `text`). */
    var serializer: Option<string>
    /** The doctype passed to the serializer, when there is one. */
    var doctype: Option<string>
    /** The mimetype given to the response. */
    var mimetype: Option<string>
    /** The template class the loader parses with. */
    var dialect: Dialect
    /** Whether the stream is serialized on demand rather than rendered at once. */
    var lazy: bool

    /** Stores the six settings exactly as given; `dialect` defaults to CompactTemplate and `lazy` to false. */
    constructor (app: GenshiMixin, serializer: Option<string> := None, doctype: Option<string> := None,
                 mimetype: Option<string> := None, dialect: Dialect := CompactTemplate, lazy: bool := false)
      ensures this.app == app
      ensures Config() == RendererConfig(serializer, doctype, mimetype, dialect, lazy)
    {
      this.app := app;
      this.serializer, this.doctype := serializer, doctype;
      this.mimetype, this.dialect, this.lazy := mimetype, dialect, lazy;
    }

    /** The renderer's current settings. */
    function Config(): RendererConfig
      reads this
    {
      RendererConfig(serializer, doctype, mimetype, dialect, lazy)
    }

    /** `filter` delegates to the application's `filter_genshi_stream`. */
    function Filter(environment: Environment.BaseEnvironment, template: Template, stream: Stream): (s: Stream)
      ensures s == app.filterGenshiStream(environment, template, stream)
    {
      app.filterGenshiStream(environment, template, stream)
    }

    /**
     * `__call__`: update the context, load the template with this dialect,
     * generate its stream, filter it, serialize it and wrap it in the
     * application's response with this mimetype.
     */
    method Call(environment: Environment.BaseEnvironment, templateName: string, context: Context)
      returns (r: RenderedResponse)
      ensures var template := Template(templateName, dialect);
              r.rendering.stream
              == app.filterGenshiStream(environment, template,
                                        Generated(template, app.updateTemplateContext(environment, context)))
      ensures r.rendering.serialization == (if lazy then Serialize else Render)
      ensures r.rendering.serializer == serializer
      ensures "doctype" in r.rendering.keywords <==> doctype.Some?
      ensures doctype.Some? ==> r.rendering.keywords == map["doctype" := doctype.value]
      ensures doctype.None? ==> r.rendering.keywords == map[]
      ensures r.responseClass == app.response && r.mimetype == mimetype
    {
      var updated := app.updateTemplateContext(environment, context);
      var template := Template(templateName, dialect);
      var stream := Generated(template, updated);
      stream := Filter(environment, template, stream);
      var serialization := if lazy then Serialize else Render;
      var rendering;
      if doctype.None? {
        rendering := Rendering(stream, serialization, serializer, map[]);
      } else {
        rendering := Rendering(stream, serialization, serializer, map["doctype" := doctype.value]);
      }
      r := RenderedResponse(app.response, rendering, mimetype);
    }
  }

  /** A renderer of an application with the default `filter_genshi_stream` filters nothing out. */
  lemma DefaultFilterKeepsStream(r: GenshiRenderer, environment: Environment.BaseEnvironment, template: Template, stream: Stream)
    requires r.app.filterGenshiStream == DefaultFilterGenshiStream
    ensures r.Filter(environment, template, stream) == stream
  {
  }

  /**
   * With the default filter, what a renderer serializes is exactly the stream
   * the template generated from the updated context.
   */
  method RenderWithDefaultFilter(r: GenshiRenderer, environment: Environment.BaseEnvironment,
                                 templateName: string, context: Context)
    returns (response: RenderedResponse)
    requires r.app.filterGenshiStream == DefaultFilterGenshiStream
    ensures response.rendering.stream
            == Generated(Template(templateName, r.dialect), r.app.updateTemplateContext(environment, context))
    ensures response.responseClass == r.app.response && response.mimetype == r.mimetype
  {
    response := r.Call(environment, templateName, context);
  }
}
