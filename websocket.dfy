/**
 * Websocket endpoints: the endpoint configuration built for each
 * `@ServerEndpoint` class, its registration with the websocket container,
 * and the configurator's instance resolution.
 */
module WebSocket {
  import opened Wrappers
  import opened Sequences
  import opened Classification

  /** The exceptions this part of `start()` raises or wraps. */
  datatype Error =
    | UncheckedException(cause: Error)      // orbit's wrapper for a checked exception
    | InstantiationException(className: string)  // thrown by newInstance(): no usable no-argument constructor
    | IllegalAccessException(className: string)  // thrown by newInstance(): constructor not accessible
    | DeploymentException(path: string)     // the container refused an endpoint

  /**
   * An endpoint configuration: the endpoint class and the path it is served at.
   * Every one carries the same configurator, whose policy is `GetEndpointInstance`.
   */
  datatype EndpointConfig = EndpointConfig(endpointClass: ClassInfo, path: string)

  /** The configuration built for one endpoint class: its `@ServerEndpoint` value, unchanged. */
  function ConfigFor(c: ClassInfo): EndpointConfig
  {
    EndpointConfig(c, c.endpointValue)
  }

  /** The configurations the third stream builds, in discovery order. */
  function EndpointConfigs(classes: seq<ClassInfo>): (r: seq<EndpointConfig>)
    ensures |r| == |EndpointClasses(classes)|
    ensures forall e :: e in r ==>
      e.endpointClass in classes && e.endpointClass.hasServerEndpoint && e.path == e.endpointClass.endpointValue
  {
    MapSeq(EndpointClasses(classes), ConfigFor)
  }

  /** Every `@ServerEndpoint` class gets a configuration at exactly its annotation value. */
  lemma EndpointConfigured(classes: seq<ClassInfo>, c: ClassInfo)
    requires c in classes && c.hasServerEndpoint
    ensures EndpointConfig(c, c.endpointValue) in EndpointConfigs(classes)
  {
    MapContains(EndpointClasses(classes), ConfigFor, c);
  }

  /** Configurations are built class by class. */
  lemma EndpointConfigsAppend(a: seq<ClassInfo>, b: seq<ClassInfo>)
    ensures EndpointConfigs(a + b) == EndpointConfigs(a) + EndpointConfigs(b)
  {
    FilterAppend(a, b, IsServerEndpoint);
    MapAppend(EndpointClasses(a), EndpointClasses(b), ConfigFor);
  }

  /** Stepping over one more discovered class adds its configuration, if it is an endpoint. */
  lemma EndpointConfigsStep(classes: seq<ClassInfo>, i: nat)
    requires i < |classes|
    ensures EndpointConfigs(classes[..i + 1])
         == EndpointConfigs(classes[..i]) + if IsServerEndpoint(classes[i]) then [ConfigFor(classes[i])] else []
  {
    assert classes[..i + 1] == classes[..i] + [classes[i]];
    EndpointConfigsAppend(classes[..i], [classes[i]]);
    assert Filter([classes[i]], IsServerEndpoint) == if IsServerEndpoint(classes[i]) then [classes[i]] else [];
  }

  /** The configurations of a prefix of the classes are a prefix of all the configurations. */
  lemma EndpointConfigsPrefix(classes: seq<ClassInfo>, i: nat)
    requires i <= |classes|
    ensures EndpointConfigs(classes) == EndpointConfigs(classes[..i]) + EndpointConfigs(classes[i..])
  {
    assert classes == classes[..i] + classes[i..];
    EndpointConfigsAppend(classes[..i], classes[i..]);
  }

  /**
   * The third stream: build each endpoint's configuration and add it to the
   * container, which `accepts` or refuses (`addEndpoint` throwing). The first
   * refusal is wrapped twice (once inside the `forEach`, once by the
   * surrounding `catch`) and ends the registration; what was added before it
   * stays added.
   */
  method AddEndpoints(classes: seq<ClassInfo>, accepts: EndpointConfig -> bool)
    returns (added: seq<EndpointConfig>, failure: Option<Error>)
    ensures added <= EndpointConfigs(classes)
    ensures forall e :: e in added ==> accepts(e)
    ensures failure.None? <==> added == EndpointConfigs(classes)
    ensures failure.Some? ==>
      var configs := EndpointConfigs(classes);
      && |added| < |configs|
      && !accepts(configs[|added|])
      && failure.value == UncheckedException(UncheckedException(DeploymentException(configs[|added|].path)))
  {
    added, failure := [], None;
    var i := 0;
    while i < |classes|
      invariant 0 <= i <= |classes|
      invariant added == EndpointConfigs(classes[..i])
      invariant forall e :: e in added ==> accepts(e)
    {
      EndpointConfigsStep(classes, i);
      if IsServerEndpoint(classes[i]) {
        var config := ConfigFor(classes[i]);
        if !accepts(config) {
          EndpointConfigsPrefix(classes, i);
          EndpointConfigsStep(classes[i..], 0);
          assert classes[i..][..1] == [classes[i]];
          EndpointConfigsPrefix(classes[i..], 1);
          failure := Some(UncheckedException(UncheckedException(DeploymentException(config.path))));
          return;
        }
        added := added + [config];
      }
      i := i + 1;
    }
    assert classes[..i] == classes;
  }

  /** What constructing the endpoint class with its no-argument constructor gave. */
  datatype Construction<T> = Constructed(instance: T) | ConstructionFailed(cause: Error)

  /**
   * The configurator's `getEndpointInstance`: the service locator's instance
   * if it has one; otherwise a newly constructed instance; a failed
   * construction becomes an `UncheckedException` around its cause.
   */
  function GetEndpointInstance<T>(
    endpointClass: ClassInfo,
    locate: ClassInfo -> Option<T>,
    construct: ClassInfo -> Construction<T>): (r: Result<T, Error>)
    ensures locate(endpointClass).Some? ==> r == Ok(locate(endpointClass).value)
    ensures r.Ok? ==>
      locate(endpointClass) == Some(r.value)
      || (locate(endpointClass).None? && construct(endpointClass) == Constructed(r.value))
    ensures r.Err? <==> locate(endpointClass).None? && construct(endpointClass).ConstructionFailed?
    ensures r.Err? ==> r.error == UncheckedException(construct(endpointClass).cause)
  {
    match locate(endpointClass)
    case Some(instance) => Ok(instance)
    case None =>
      match construct(endpointClass)
      case Constructed(instance) => Ok(instance)
      case ConstructionFailed(e) => Err(UncheckedException(e))
  }

  /** When the service locator has an instance, the constructor is never consulted. */
  lemma LocatedInstanceIgnoresConstructor<T>(
    endpointClass: ClassInfo,
    locate: ClassInfo -> Option<T>,
    construct1: ClassInfo -> Construction<T>,
    construct2: ClassInfo -> Construction<T>)
    requires locate(endpointClass).Some?
    ensures GetEndpointInstance(endpointClass, locate, construct1)
         == GetEndpointInstance(endpointClass, locate, construct2)
  {
  }

  /** Resolution fails only when both the locator and the constructor fail, and a modelled failure is always wrapped. */
  lemma ResolutionFailsOnlyWhenBothFail<T>(
    endpointClass: ClassInfo,
    locate: ClassInfo -> Option<T>,
    construct: ClassInfo -> Construction<T>)
    ensures GetEndpointInstance(endpointClass, locate, construct).Ok?
        <==> locate(endpointClass).Some? || construct(endpointClass).Constructed?
    ensures GetEndpointInstance(endpointClass, locate, construct).Err? ==>
      GetEndpointInstance(endpointClass, locate, construct).error.UncheckedException?
  {
  }

  /**
   * The two checked exceptions `newInstance()` declares reach the websocket
   * layer inside one `UncheckedException`, with the class's name kept.
   */
  lemma NewInstanceExceptionsWrapped<T>(
    endpointClass: ClassInfo,
    locate: ClassInfo -> Option<T>,
    construct: ClassInfo -> Construction<T>)
    requires locate(endpointClass).None?
    requires construct(endpointClass) == ConstructionFailed(InstantiationException(endpointClass.name))
          || construct(endpointClass) == ConstructionFailed(IllegalAccessException(endpointClass.name))
    ensures var r := GetEndpointInstance(endpointClass, locate, construct);
            r.Err? && r.error.UncheckedException? && r.error.cause.className == endpointClass.name
  {
  }
}
