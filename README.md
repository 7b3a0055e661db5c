# Orbit embedded Jetty server: composition model

This project models the composition logic of orbit-jetty's `EmbeddedJettyServer`.
When the Orbit container starts it, `start()` does five things:

1. It sorts the container's discovered classes with three annotation filters:
   - JAX-RS resources and providers;
   - servlets bound to a `@Path`;
   - `@ServerEndpoint` websocket endpoints.
2. It registers those classes with a Jersey `ResourceConfig` and a `WebAppContext`.
3. It builds a handler collection: the static-resource context first, then the web-app context.
4. It assembles one `HttpConfiguration` and, when TLS is on, one `SslContextFactory` and a copy of the
   `HttpConfiguration` with the secure-request customizer added. Every optional
   setting is applied only when it is set. It then creates exactly one connector on the configured port.
5. It adds a websocket endpoint configuration for each endpoint class. Each configuration's configurator
   asks the service locator for an instance first and falls back to the no-argument constructor.

Reflection is replaced by a `ClassInfo` record per class. Jetty's and Jersey's objects are replaced by
records of the settings `start()` passes them. What the websocket container and the constructor do is
passed in as parameters: `accepts` and `construct`. `start()` itself is the imperative method
`EmbeddedJettyServer.Start` of a class that carries the configuration fields. Its steps are
proved equal to the pure specification functions (`ResourceClasses`, `HandlersFor`, `ConnectorsFor`,
`EndpointConfigs`, ...), and the lemmas state what the code promises about those functions.

Modules, one per component:
- `Wrappers`: `Option` for `null`, `Result` for thrown exceptions.
- `JavaTypes`: `int32`.
- `Sequences`: stream `filter` and element-wise mapping.
- `Classification`: the three filters.
- `HttpConfig` and `SslConfig`: the two configuration objects.
- `Connectors`: the single connector.
- `Handlers`: the two contexts.
- `WebSocket`: endpoint configurations, their registration and instance resolution.
- `EmbeddedJetty`: the server class.

Behaviour of the code worth stating outright:
- A class with `@Path`, `Servlet` and `@ServerEndpoint` is mounted as a servlet, registered as a
  resource and configured as an endpoint, because the servlet filter at line 183 does not test
  `@ServerEndpoint` (`Classification.ServletEndpointInBothLists`).
- Endpoint instances are created when the websocket layer asks for one, not during `start()`, so
  of the websocket steps only a refused `addEndpoint` aborts `start()` (`WebSocket.AddEndpoints`).
- The code keeps no lifecycle state beyond the `server` field.
- The code builds exactly one connector.

## Model

| member | source | states |
|---|---|---|
| Sequences.Filter | src/main/java/cloud/orbit/web/EmbeddedJettyServer.java:150-155 | the filtered stream holds exactly the elements the predicate accepts and is no longer than the input |
| Sequences.FilterAppend | src/main/java/cloud/orbit/web/EmbeddedJettyServer.java:150-155 | filtering distributes over concatenation, so the element-by-element `forEach` builds the same list as the filter |
| Classification.ResourceClasses | src/main/java/cloud/orbit/web/EmbeddedJettyServer.java:150-155 | a class is registered by the first filter iff it has `@Path` or `@Provider`, has no `@ServerEndpoint` and is not a `Servlet` |
| Classification.ServletClasses | src/main/java/cloud/orbit/web/EmbeddedJettyServer.java:182-183 | a class is selected as a servlet iff it has `@Path` and is a `Servlet`; `@ServerEndpoint` is not consulted |
| Classification.EndpointClasses | src/main/java/cloud/orbit/web/EmbeddedJettyServer.java:283-284 | a class is selected as a websocket endpoint iff it has `@ServerEndpoint`, whatever its other annotations |
| Classification.ResourceRegistrations | src/main/java/cloud/orbit/web/EmbeddedJettyServer.java:150-188 | the resource config ends up holding exactly the JAX-RS classes followed by the path-bound servlets |
| Classification.ResourceListsDisjoint | src/main/java/cloud/orbit/web/EmbeddedJettyServer.java:151-154 | no JAX-RS class is also a path-bound servlet or a websocket endpoint |
| Classification.ServletEndpointInBothLists | src/main/java/cloud/orbit/web/EmbeddedJettyServer.java:182-189 | a `@Path` servlet that also has `@ServerEndpoint` is in the servlet list, the resource registrations and the endpoint list, but not in the JAX-RS list |
| Classification.FilterKeepsMultiplicity | src/main/java/cloud/orbit/web/EmbeddedJettyServer.java:150-155 | a filter keeps each accepted class exactly as often as it was discovered and drops every other class |
| Classification.RegisteredAtMostOnce | src/main/java/cloud/orbit/web/EmbeddedJettyServer.java:150-188 | the two streams together register a class no more often than it was discovered |
| HttpConfig.HttpConfigurationFor | src/main/java/cloud/orbit/web/EmbeddedJettyServer.java:201-204 | each of the three size settings is applied only when set: unset keeps the library default, a set value N yields exactly N; no customizer is added |
| HttpConfig.HttpsConfigurationFor | src/main/java/cloud/orbit/web/EmbeddedJettyServer.java:254-255 | the TLS HTTP configuration keeps every size setting of the base one and appends the secure-request customizer |
| HttpConfig.NoOverridesIsDefault | src/main/java/cloud/orbit/web/EmbeddedJettyServer.java:201-204 | with no size setting, the configuration equals the library's default one |
| HttpConfig.OverridesIndependent | src/main/java/cloud/orbit/web/EmbeddedJettyServer.java:201-204 | setting one size option changes that setting only |
| SslConfig.SslContextFor | src/main/java/cloud/orbit/web/EmbeddedJettyServer.java:211-252 | `needClientAuth` always equals `clientAuth`; each of the ten other TLS options leaves the library default in place when null and otherwise sets exactly its value |
| SslConfig.NothingSetIsFresh | src/main/java/cloud/orbit/web/EmbeddedJettyServer.java:211-252 | with no TLS option set, the factory is a fresh one apart from `needClientAuth` |
| Connectors.ConnectorsFor | src/main/java/cloud/orbit/web/EmbeddedJettyServer.java:207-269 | exactly one connector, on `port`: a TLS one (TLS, then HTTP/1.1 on the secure configuration) iff SSL is enabled, a plain HTTP one iff it is not |
| Connectors.NeverBothKinds | src/main/java/cloud/orbit/web/EmbeddedJettyServer.java:207-269 | the connector list holds a TLS connector iff SSL is enabled, a plain one iff it is not, and never both |
| Connectors.OverridesReachConnector | src/main/java/cloud/orbit/web/EmbeddedJettyServer.java:201-268 | the HTTP factory of the connector carries the size overrides, applied only when set, in both modes |
| Handlers.ServletMappings | src/main/java/cloud/orbit/web/EmbeddedJettyServer.java:182-187 | one mapping per path-bound servlet, each mounting a discovered `@Path` servlet at exactly its `@Path` value |
| Handlers.PathServletMounted | src/main/java/cloud/orbit/web/EmbeddedJettyServer.java:182-187 | every `@Path` servlet in the discovered classes is mounted at its own `@Path` value |
| Handlers.ServletMappingsAppend | src/main/java/cloud/orbit/web/EmbeddedJettyServer.java:182-189 | servlets are mounted class by class, so mappings distribute over concatenation of the discovered classes |
| Handlers.WebAppContextFor | src/main/java/cloud/orbit/web/EmbeddedJettyServer.java:163-187 | the web-app context sits at `/`, disables file-mapped buffers, holds the Jersey container over all resource registrations on `/*` first, then the servlet mappings |
| Handlers.HandlersFor | src/main/java/cloud/orbit/web/EmbeddedJettyServer.java:191-196 | the handler collection has exactly two entries: the static-resource context, then the web-app context |
| Handlers.PathServletServedBothWays | src/main/java/cloud/orbit/web/EmbeddedJettyServer.java:182-189 | a `@Path` servlet is mounted at its path and also registered in the Jersey container's resource config |
| WebSocket.EndpointConfigs | src/main/java/cloud/orbit/web/EmbeddedJettyServer.java:283-289 | one endpoint configuration per `@ServerEndpoint` class, at exactly its annotation value |
| WebSocket.EndpointConfigured | src/main/java/cloud/orbit/web/EmbeddedJettyServer.java:283-289 | every `@ServerEndpoint` class gets a configuration at its annotation value |
| WebSocket.EndpointConfigsAppend | src/main/java/cloud/orbit/web/EmbeddedJettyServer.java:283-289 | endpoint configurations are built class by class |
| WebSocket.EndpointConfigsStep | src/main/java/cloud/orbit/web/EmbeddedJettyServer.java:283-289 | one more discovered class adds its configuration exactly when it is an endpoint |
| WebSocket.EndpointConfigsPrefix | src/main/java/cloud/orbit/web/EmbeddedJettyServer.java:283-289 | the configurations of a prefix of the classes are a prefix of all configurations |
| WebSocket.AddEndpoints | src/main/java/cloud/orbit/web/EmbeddedJettyServer.java:283-328 | the endpoints added are a prefix of the configurations, all accepted; registration fails iff some configuration is refused, and then at the first refused one, with the doubly wrapped `UncheckedException` |
| WebSocket.GetEndpointInstance | src/main/java/cloud/orbit/web/EmbeddedJettyServer.java:292-309 | the service locator's instance when there is one; otherwise the constructed instance; a failed construction yields `UncheckedException` around its cause, never a missing instance |
| WebSocket.LocatedInstanceIgnoresConstructor | src/main/java/cloud/orbit/web/EmbeddedJettyServer.java:294-296 | when the locator has an instance, the result does not depend on the constructor |
| WebSocket.ResolutionFailsOnlyWhenBothFail | src/main/java/cloud/orbit/web/EmbeddedJettyServer.java:294-306 | resolution succeeds iff the locator or the constructor supplies an instance, and a failure of the constructor's `Exception` is always the wrapped kind |
| WebSocket.NewInstanceExceptionsWrapped | src/main/java/cloud/orbit/web/EmbeddedJettyServer.java:298-305 | an `InstantiationException` or `IllegalAccessException` from `newInstance()` comes back inside one `UncheckedException`, naming the class |
| EmbeddedJetty.RegisterResources | src/main/java/cloud/orbit/web/EmbeddedJettyServer.java:150-155 | the `forEach` registers exactly the JAX-RS classes, in discovery order |
| EmbeddedJetty.AddServlets | src/main/java/cloud/orbit/web/EmbeddedJettyServer.java:182-189 | the `forEach` mounts exactly the path-bound servlets at their paths and appends them to the resource registrations |
| EmbeddedJetty.EmbeddedJettyServer.constructor | src/main/java/cloud/orbit/web/EmbeddedJettyServer.java:85-136 | a new server has port 9090, SSL and client authentication off, every optional setting unset and no Jetty server |
| EmbeddedJetty.EmbeddedJettyServer.Start | src/main/java/cloud/orbit/web/EmbeddedJettyServer.java:140-328 | the server field holds the connectors of `ConnectorsFor`, the handlers of `HandlersFor` and a prefix of the endpoint configurations; success iff the container accepts every configuration, failure with the wrapped error of the first refused one |
| EmbeddedJetty.EmbeddedJettyServer.ConfigureHttp | src/main/java/cloud/orbit/web/EmbeddedJettyServer.java:201-204 | the guarded setters produce exactly `HttpConfigurationFor` of the size settings |
| EmbeddedJetty.EmbeddedJettyServer.ConfigureSsl | src/main/java/cloud/orbit/web/EmbeddedJettyServer.java:211-252 | the null-guarded setters, each passing the option's value, produce exactly `SslContextFor` of the TLS settings |
| EmbeddedJetty.EmbeddedJettyServer.CreateConnectors | src/main/java/cloud/orbit/web/EmbeddedJettyServer.java:207-269 | the connector list built step by step equals `ConnectorsFor` of the settings |
| EmbeddedJetty.EmbeddedJettyServer.GetPort | src/main/java/cloud/orbit/web/EmbeddedJettyServer.java:361-364 | returns the `port` field |
| EmbeddedJetty.EmbeddedJettyServer.SetPort | src/main/java/cloud/orbit/web/EmbeddedJettyServer.java:366-369 | writes `port` and changes no other setting, so `GetPort` and the next connector see the new value |

## Left out

- `server.start()` and `stop()` (lines 331-359) are left out. They bind sockets and drain connections, which is network I/O. `Start` models `start()` up to the point where it calls `server.start()`.
- Dispatch of requests between the two contexts is done by Jetty and is not modelled. This includes which context wins when a path matches both.
- The WAR location from the `ProtectionDomain` and the service-locator servlet-context attribute (lines 159-166) are classpath and container plumbing. The `WebAppContext` record leaves them out.
- `WebSocketServerContainerInitializer.configureContext` (line 281) is assumed to succeed. A failure there would be caught only by the outer `catch` (lines 324-327) and wrapped once, in one `UncheckedException`.
- The websocket container's `addEndpoint` is the `accepts` parameter. Its refusal is recorded as a `DeploymentException` carrying the endpoint's path, whatever exception the library actually throws.
- When the websocket layer calls the configurator is decided by the library. `GetEndpointInstance` is the configurator's policy, but nothing here invokes it.
- GetEndpointInstance: assumes the service locator's `getService` (line 294) does not throw; a thrown exception there would propagate unwrapped without trying the constructor. Only `Exception`s from `newInstance()` (line 300) are modelled; a `java.lang.Error` such as `ExceptionInInitializerError` is not caught at line 302 and would escape unwrapped.
- Reflection (`isAnnotationPresent`, `isAssignableFrom`, `getAnnotation`, `newInstance`) is replaced by the `ClassInfo` record and the `construct` parameter.
- The Jersey `ServletContainer` keeps the `ResourceConfig` by reference, and `start()` registers the servlets after creating it. The model stores the final registration list in the container record, which is what the running container sees. The aliasing itself is not modelled.
- The model keeps every `register` call, in order. What Jersey does with a class registered twice is not modelled.
- The values of `DefaultHttpConfiguration` are Jetty 9's built-in defaults. No property depends on them.
- `SslContextFactory` fields that are never set hold `LibraryDefault`; the library's default values themselves are not modelled.
- Logging, the `Task` return values and `@Config` injection carry no logic and are left out. The configuration fields start at their initial values and only `SetPort` writes them.
