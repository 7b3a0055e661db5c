/** The handler tree `start()` assembles: a static-resource context, then the web-app context. */
module Handlers {
  import opened Sequences
  import opened Classification

  /** The static-file handler's settings. */
  datatype ResourceHandler = ResourceHandler(directoriesListed: bool, welcomeFiles: seq<string>, baseResource: string)

  /** What a servlet mapping serves: the Jersey container over the resource registrations, or a discovered servlet class. */
  datatype ServletHolder =
    | JerseyServletContainer(resourceConfig: seq<ClassInfo>)
    | ServletClass(servlet: ClassInfo)

  /** A servlet mounted at a path spec of the web-app context. */
  datatype ServletMapping = ServletMapping(holder: ServletHolder, pathSpec: string)

  /** A top-level context of the handler collection. */
  datatype Handler =
    | ContextHandler(resourceHandler: ResourceHandler, initParams: map<string, string>)
    | WebAppContext(contextPath: string, initParams: map<string, string>, servlets: seq<ServletMapping>)

  /** Both contexts disable memory-mapped file buffers. */
  const NoFileMappedBuffer := map["useFileMappedBuffer" := "false"]

  /** The static-resource context: the classpath `/web` tree, listing on, `index.html` as welcome file. */
  const StaticResourceContext := ContextHandler(ResourceHandler(true, ["index.html"], "/web"), NoFileMappedBuffer)

  /** A discovered servlet mounted at its own `@Path` value, unchanged. */
  function MountAtPath(c: ClassInfo): ServletMapping
  {
    ServletMapping(ServletClass(c), c.pathValue)
  }

  /** The servlets the second stream adds to the web-app context, in discovery order. */
  function ServletMappings(classes: seq<ClassInfo>): (r: seq<ServletMapping>)
    ensures |r| == |ServletClasses(classes)|
    ensures forall m :: m in r ==>
      && m.holder.ServletClass?
      && m.holder.servlet in classes
      && m.holder.servlet.hasPath && m.holder.servlet.isServlet
      && m.pathSpec == m.holder.servlet.pathValue
  {
    MapSeq(ServletClasses(classes), MountAtPath)
  }

  /** Every `@Path` servlet is mounted at exactly its `@Path` value. */
  lemma PathServletMounted(classes: seq<ClassInfo>, c: ClassInfo)
    requires c in classes && c.hasPath && c.isServlet
    ensures ServletMapping(ServletClass(c), c.pathValue) in ServletMappings(classes)
  {
    MapContains(ServletClasses(classes), MountAtPath, c);
  }

  /** Mounting is done class by class, so a longer discovery list extends the mappings. */
  lemma ServletMappingsAppend(a: seq<ClassInfo>, b: seq<ClassInfo>)
    ensures ServletMappings(a + b) == ServletMappings(a) + ServletMappings(b)
  {
    FilterAppend(a, b, IsPathServlet);
    MapAppend(ServletClasses(a), ServletClasses(b), MountAtPath);
  }

  /**
   * The web-app context at `/`: the Jersey container on every path (added first,
   * serving every resource registration), then the discovered servlets.
   */
  function WebAppContextFor(classes: seq<ClassInfo>): (r: Handler)
    ensures r.WebAppContext? && r.contextPath == "/" && r.initParams == NoFileMappedBuffer
    ensures |r.servlets| == 1 + |ServletClasses(classes)|
    ensures r.servlets[0] == ServletMapping(JerseyServletContainer(ResourceRegistrations(classes)), "/*")
    ensures r.servlets[1..] == ServletMappings(classes)
  {
    WebAppContext("/", NoFileMappedBuffer,
      [ServletMapping(JerseyServletContainer(ResourceRegistrations(classes)), "/*")] + ServletMappings(classes))
  }

  /** The handler collection: exactly two contexts, the static one first. */
  function HandlersFor(classes: seq<ClassInfo>): (r: seq<Handler>)
    ensures |r| == 2
    ensures r[0] == StaticResourceContext
    ensures r[1] == WebAppContextFor(classes)
  {
    [StaticResourceContext, WebAppContextFor(classes)]
  }

  /**
   * A `@Path` servlet is reachable twice: mounted as a servlet at its own path,
   * and registered with the Jersey container's `ResourceConfig`.
   */
  lemma PathServletServedBothWays(classes: seq<ClassInfo>, c: ClassInfo)
    requires c in classes && c.hasPath && c.isServlet
    ensures var app := HandlersFor(classes)[1];
            && MountAtPath(c) in app.servlets
            && c in app.servlets[0].holder.resourceConfig
  {
    PathServletMounted(classes, c);
    var app := HandlersFor(classes)[1];
    assert app.servlets == app.servlets[..1] + ServletMappings(classes);
  }
}
