/**
 * The three annotation filters that `EmbeddedJettyServer.start()` runs over
 * the container's discovered classes.
 */
module Classification {
  import opened Sequences

  /**
   * What `start()` learns about one discovered class by reflection.
   * `pathValue` and `endpointValue` are the annotations' `value()`s and are
   * only read when the matching annotation is present.
   */
  datatype ClassInfo = ClassInfo(
    name: string,
    hasPath: bool,            // annotated with javax.ws.rs.Path
    pathValue: string,
    hasProvider: bool,        // annotated with javax.ws.rs.ext.Provider
    hasServerEndpoint: bool,  // annotated with javax.websocket.server.ServerEndpoint
    endpointValue: string,
    isServlet: bool)          // Servlet.class.isAssignableFrom(the class)

  /** The JAX-RS filter: a resource or provider that is neither a websocket endpoint nor a servlet. */
  predicate IsResourceOrProvider(c: ClassInfo)
  {
    (c.hasPath || c.hasProvider) && !c.hasServerEndpoint && !c.isServlet
  }

  /** The servlet filter: `@Path` on a `Servlet`; `@ServerEndpoint` is not consulted. */
  predicate IsPathServlet(c: ClassInfo)
  {
    c.hasPath && c.isServlet
  }

  /** The websocket filter: `@ServerEndpoint`, whatever else the class carries. */
  predicate IsServerEndpoint(c: ClassInfo)
  {
    c.hasServerEndpoint
  }

  /** The classes the first stream registers with the `ResourceConfig`, in discovery order. */
  function ResourceClasses(classes: seq<ClassInfo>): (r: seq<ClassInfo>)
    ensures forall c :: c in r <==>
      c in classes && (c.hasPath || c.hasProvider) && !c.hasServerEndpoint && !c.isServlet
  {
    Filter(classes, IsResourceOrProvider)
  }

  /** The classes the second stream mounts as servlets, in discovery order. */
  function ServletClasses(classes: seq<ClassInfo>): (r: seq<ClassInfo>)
    ensures forall c :: c in r <==> c in classes && c.hasPath && c.isServlet
  {
    Filter(classes, IsPathServlet)
  }

  /** The classes the third stream turns into websocket endpoint configurations. */
  function EndpointClasses(classes: seq<ClassInfo>): (r: seq<ClassInfo>)
    ensures forall c :: c in r <==> c in classes && c.hasServerEndpoint
  {
    Filter(classes, IsServerEndpoint)
  }

  /**
   * Everything registered with the `ResourceConfig` by the end of `start()`:
   * the JAX-RS classes first, then every path-bound servlet again.
   */
  function ResourceRegistrations(classes: seq<ClassInfo>): (r: seq<ClassInfo>)
    ensures forall c :: c in r <==>
      c in classes && (((c.hasPath || c.hasProvider) && !c.hasServerEndpoint && !c.isServlet)
                       || (c.hasPath && c.isServlet))
    ensures ResourceClasses(classes) <= r
  {
    ResourceClasses(classes) + ServletClasses(classes)
  }

  /** The JAX-RS list and the servlet list never share a class, nor do the JAX-RS and websocket lists. */
  lemma ResourceListsDisjoint(classes: seq<ClassInfo>, c: ClassInfo)
    ensures c in ResourceClasses(classes) ==> c !in ServletClasses(classes) && c !in EndpointClasses(classes)
  {
  }

  /**
   * A servlet with both `@Path` and `@ServerEndpoint` is mounted as a servlet,
   * registered as a resource AND configured as a websocket endpoint.
   */
  lemma ServletEndpointInBothLists(classes: seq<ClassInfo>, c: ClassInfo)
    requires c in classes && c.hasPath && c.isServlet && c.hasServerEndpoint
    ensures c in ServletClasses(classes) && c in EndpointClasses(classes)
    ensures c in ResourceRegistrations(classes) && c !in ResourceClasses(classes)
  {
  }

  /** Each class lands in a list exactly as many times as it was discovered: filtering never duplicates. */
  lemma {:induction false} FilterKeepsMultiplicity(classes: seq<ClassInfo>, keep: ClassInfo -> bool, c: ClassInfo)
    ensures multiset(Filter(classes, keep))[c] == if keep(c) then multiset(classes)[c] else 0
  {
    if classes != [] {
      FilterKeepsMultiplicity(classes[1..], keep, c);
      assert classes == [classes[0]] + classes[1..];
    }
  }

  /** Discovering a class once registers it with the `ResourceConfig` at most once. */
  lemma RegisteredAtMostOnce(classes: seq<ClassInfo>, c: ClassInfo)
    ensures multiset(ResourceRegistrations(classes))[c] <= multiset(classes)[c]
  {
    FilterKeepsMultiplicity(classes, IsResourceOrProvider, c);
    FilterKeepsMultiplicity(classes, IsPathServlet, c);
  }
}
