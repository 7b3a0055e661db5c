/**
 * The `EmbeddedJettyServer` component: its configuration fields, the
 * composition done by `start()`, and the `port` accessors.
 */
module EmbeddedJetty {
  import opened Wrappers
  import opened JavaTypes
  import opened Sequences
  import opened Classification
  import opened HttpConfig
  import opened SslConfig
  import opened Connectors
  import opened Handlers
  import opened WebSocket

  /** The server object as `start()` leaves it: connectors, handler collection, websocket endpoints. */
  datatype Server = Server(
    connectors: seq<ServerConnector>,
    handlers: seq<Handler>,
    endpoints: seq<EndpointConfig>)

  /** The injected configuration, gathered in one value. */
  datatype ServerSettings = ServerSettings(port: int32, http: HttpOptions, enableSSL: bool, ssl: SslOptions)

  /** The configuration of a server whose fields were not overridden. */
  const DefaultSettings := ServerSettings(
    9090,
    HttpOptions(None, None, None),
    false,
    SslOptions(None, None, None, None, None, None, None, false, None, None, None))

  /** The first stream: register every JAX-RS resource or provider, in discovery order. */
  method RegisterResources(classes: seq<ClassInfo>) returns (registered: seq<ClassInfo>)
    ensures registered == ResourceClasses(classes)
  {
    registered := [];
    for i := 0 to |classes|
      invariant registered == ResourceClasses(classes[..i])
    {
      assert classes[..i + 1] == classes[..i] + [classes[i]];
      FilterAppend(classes[..i], [classes[i]], IsResourceOrProvider);
      if IsResourceOrProvider(classes[i]) {
        registered := registered + [classes[i]];
      }
    }
    assert classes[..|classes|] == classes;
  }

  /**
   * The second stream: mount every `@Path` servlet at its path and register it
   * with the resource configuration as well, in discovery order.
   */
  method AddServlets(classes: seq<ClassInfo>, registeredBefore: seq<ClassInfo>)
    returns (servlets: seq<ServletMapping>, registered: seq<ClassInfo>)
    ensures servlets == ServletMappings(classes)
    ensures registered == registeredBefore + ServletClasses(classes)
  {
    servlets, registered := [], registeredBefore;
    for i := 0 to |classes|
      invariant servlets == ServletMappings(classes[..i])
      invariant registered == registeredBefore + ServletClasses(classes[..i])
    {
      assert classes[..i + 1] == classes[..i] + [classes[i]];
      ServletMappingsAppend(classes[..i], [classes[i]]);
      FilterAppend(classes[..i], [classes[i]], IsPathServlet);
      if IsPathServlet(classes[i]) {
        servlets := servlets + [MountAtPath(classes[i])];
        registered := registered + [classes[i]];
      }
    }
    assert classes[..|classes|] == classes;
  }

  class EmbeddedJettyServer {
    var server: Option<Server>

    var port: int32
    var requestHeaderSize: Option<int32>
    var responseHeaderSize: Option<int32>
    var outputBufferSize: Option<int32>

    var enableSSL: bool
    var sslKeyStorePath: Option<string>
    var sslKeyStorePassword: Option<string>
    var sslKeyManagerPassword: Option<string>
    var sslTrustStorePath: Option<string>
    var sslTrustStorePassword: Option<string>
    var sslIncludedCipherSuites: Option<seq<string>>
    var sslExcludedCipherSuites: Option<seq<string>>
    var clientAuth: bool
    var sslIncludedProtocols: Option<seq<string>>
    var sslExcludedProtocols: Option<seq<string>>
    var certAlias: Option<string>

    /** The configuration fields, read as one value. */
    function Settings(): ServerSettings
      reads this
    {
      ServerSettings(
        port,
        HttpOptions(requestHeaderSize, responseHeaderSize, outputBufferSize),
        enableSSL,
        SslOptions(sslKeyStorePath, sslKeyStorePassword, sslKeyManagerPassword,
                   sslTrustStorePath, sslTrustStorePassword,
                   sslIncludedCipherSuites, sslExcludedCipherSuites, clientAuth,
                   sslIncludedProtocols, sslExcludedProtocols, certAlias))
    }

    /** A new server: the field initialisers' values, and no Jetty server yet. */
    constructor ()
      ensures Settings() == DefaultSettings
      ensures server == None
    {
      server := None;
      port := 9090;
      requestHeaderSize, responseHeaderSize, outputBufferSize := None, None, None;
      enableSSL := false;
      sslKeyStorePath, sslKeyStorePassword, sslKeyManagerPassword := None, None, None;
      sslTrustStorePath, sslTrustStorePassword := None, None;
      sslIncludedCipherSuites, sslExcludedCipherSuites := None, None;
      clientAuth := false;
      sslIncludedProtocols, sslExcludedProtocols := None, None;
      certAlias := None;
    }

    /**
     * `start()` up to, not including, `server.start()`: classify the
     * discovered classes, assemble the handler collection and the single
     * connector, install them on a new server, then add the websocket
     * endpoints, which the container `accepts` or refuses.
     */
    method Start(classes: seq<ClassInfo>, accepts: EndpointConfig -> bool) returns (outcome: Result<(), Error>)
      modifies this`server
      ensures server.Some?
      ensures server.value.connectors == ConnectorsFor(port, Settings().http, enableSSL, Settings().ssl)
      ensures server.value.handlers == HandlersFor(classes)
      ensures server.value.endpoints <= EndpointConfigs(classes)
      ensures outcome.Ok? <==> forall e :: e in EndpointConfigs(classes) ==> accepts(e)
      ensures outcome.Ok? ==> server.value.endpoints == EndpointConfigs(classes)
      ensures outcome.Err? ==>
        var configs := EndpointConfigs(classes);
        && |server.value.endpoints| < |configs|
        && !accepts(configs[|server.value.endpoints|])
        && outcome.error
           == UncheckedException(UncheckedException(DeploymentException(configs[|server.value.endpoints|].path)))
    {
      // JAX-RS resources and providers
      var registered := RegisterResources(classes);

      // Path-bound servlets, also registered as resources
      var servlets;
      servlets, registered := AddServlets(classes, registered);

      // The Jersey container keeps the resource configuration by reference, so
      // it serves every registration made above.
      var webAppContext := WebAppContext("/", NoFileMappedBuffer,
        [ServletMapping(JerseyServletContainer(registered), "/*")] + servlets);

      var handlers: seq<Handler> := [];
      handlers := handlers + [StaticResourceContext];
      handlers := handlers + [webAppContext];

      server := Some(Server([], [], []));

      var httpConfiguration := ConfigureHttp();
      var connectors := CreateConnectors(httpConfiguration);

      server := Some(server.value.(connectors := connectors, handlers := handlers));

      // Websocket endpoints
      var added, failure := AddEndpoints(classes, accepts);
      server := Some(server.value.(endpoints := added));
      if failure.Some? {
        outcome := Err(failure.value);
      } else {
        outcome := Ok(());
      }
    }

    /** The HTTP configuration: a new one, with each size override applied only when set. */
    method ConfigureHttp() returns (httpConfiguration: HttpConfiguration)
      ensures httpConfiguration == HttpConfigurationFor(Settings().http)
    {
      httpConfiguration := DefaultHttpConfiguration;
      if requestHeaderSize.Some? {
        httpConfiguration := httpConfiguration.(requestHeaderSize := requestHeaderSize.value);
      }
      if responseHeaderSize.Some? {
        httpConfiguration := httpConfiguration.(responseHeaderSize := responseHeaderSize.value);
      }
      if outputBufferSize.Some? {
        httpConfiguration := httpConfiguration.(outputBufferSize := outputBufferSize.value);
      }
    }

    /** The TLS context: client authentication always, every other setting only when set. */
    method ConfigureSsl() returns (sslContextFactory: SslContextFactory)
      ensures sslContextFactory == SslContextFor(Settings().ssl)
    {
      sslContextFactory := NewSslContextFactory;
      sslContextFactory := sslContextFactory.(needClientAuth := clientAuth);
      // After each guarded setter the asserts record the factory so far.
      if sslKeyStorePath.Some? {
        sslContextFactory := sslContextFactory.(keyStorePath := Set(sslKeyStorePath.value));
      }
      assert sslContextFactory == SslContextFactory(clientAuth, SettingAfter(sslKeyStorePath), LibraryDefault, LibraryDefault, LibraryDefault, LibraryDefault, LibraryDefault, LibraryDefault, LibraryDefault, LibraryDefault, LibraryDefault);
      if sslKeyStorePassword.Some? {
        sslContextFactory := sslContextFactory.(keyStorePassword := Set(sslKeyStorePassword.value));
      }
      assert sslContextFactory == SslContextFactory(clientAuth, SettingAfter(sslKeyStorePath), SettingAfter(sslKeyStorePassword), LibraryDefault, LibraryDefault, LibraryDefault, LibraryDefault, LibraryDefault, LibraryDefault, LibraryDefault, LibraryDefault);
      if sslKeyManagerPassword.Some? {
        sslContextFactory := sslContextFactory.(keyManagerPassword := Set(sslKeyManagerPassword.value));
      }
      assert sslContextFactory == SslContextFactory(clientAuth, SettingAfter(sslKeyStorePath), SettingAfter(sslKeyStorePassword), SettingAfter(sslKeyManagerPassword), LibraryDefault, LibraryDefault, LibraryDefault, LibraryDefault, LibraryDefault, LibraryDefault, LibraryDefault);
      if sslTrustStorePath.Some? {
        sslContextFactory := sslContextFactory.(trustStorePath := Set(sslTrustStorePath.value));
      }
      assert sslContextFactory == SslContextFactory(clientAuth, SettingAfter(sslKeyStorePath), SettingAfter(sslKeyStorePassword), SettingAfter(sslKeyManagerPassword), SettingAfter(sslTrustStorePath), LibraryDefault, LibraryDefault, LibraryDefault, LibraryDefault, LibraryDefault, LibraryDefault);
      if sslTrustStorePassword.Some? {
        sslContextFactory := sslContextFactory.(trustStorePassword := Set(sslTrustStorePassword.value));
      }
      assert sslContextFactory == SslContextFactory(clientAuth, SettingAfter(sslKeyStorePath), SettingAfter(sslKeyStorePassword), SettingAfter(sslKeyManagerPassword), SettingAfter(sslTrustStorePath), SettingAfter(sslTrustStorePassword), LibraryDefault, LibraryDefault, LibraryDefault, LibraryDefault, LibraryDefault);
      if sslIncludedCipherSuites.Some? {
        sslContextFactory := sslContextFactory.(includeCipherSuites := Set(sslIncludedCipherSuites.value));
      }
      assert sslContextFactory == SslContextFactory(clientAuth, SettingAfter(sslKeyStorePath), SettingAfter(sslKeyStorePassword), SettingAfter(sslKeyManagerPassword), SettingAfter(sslTrustStorePath), SettingAfter(sslTrustStorePassword), SettingAfter(sslIncludedCipherSuites), LibraryDefault, LibraryDefault, LibraryDefault, LibraryDefault);
      if sslExcludedCipherSuites.Some? {
        sslContextFactory := sslContextFactory.(excludeCipherSuites := Set(sslExcludedCipherSuites.value));
      }
      assert sslContextFactory == SslContextFactory(clientAuth, SettingAfter(sslKeyStorePath), SettingAfter(sslKeyStorePassword), SettingAfter(sslKeyManagerPassword), SettingAfter(sslTrustStorePath), SettingAfter(sslTrustStorePassword), SettingAfter(sslIncludedCipherSuites), SettingAfter(sslExcludedCipherSuites), LibraryDefault, LibraryDefault, LibraryDefault);
      if sslIncludedProtocols.Some? {
        sslContextFactory := sslContextFactory.(includeProtocols := Set(sslIncludedProtocols.value));
      }
      assert sslContextFactory == SslContextFactory(clientAuth, SettingAfter(sslKeyStorePath), SettingAfter(sslKeyStorePassword), SettingAfter(sslKeyManagerPassword), SettingAfter(sslTrustStorePath), SettingAfter(sslTrustStorePassword), SettingAfter(sslIncludedCipherSuites), SettingAfter(sslExcludedCipherSuites), SettingAfter(sslIncludedProtocols), LibraryDefault, LibraryDefault);
      if sslExcludedProtocols.Some? {
        sslContextFactory := sslContextFactory.(excludeProtocols := Set(sslExcludedProtocols.value));
      }
      assert sslContextFactory == SslContextFactory(clientAuth, SettingAfter(sslKeyStorePath), SettingAfter(sslKeyStorePassword), SettingAfter(sslKeyManagerPassword), SettingAfter(sslTrustStorePath), SettingAfter(sslTrustStorePassword), SettingAfter(sslIncludedCipherSuites), SettingAfter(sslExcludedCipherSuites), SettingAfter(sslIncludedProtocols), SettingAfter(sslExcludedProtocols), LibraryDefault);
      if certAlias.Some? {
        sslContextFactory := sslContextFactory.(certAlias := Set(certAlias.value));
      }
      assert sslContextFactory == SslContextFactory(clientAuth, SettingAfter(sslKeyStorePath), SettingAfter(sslKeyStorePassword), SettingAfter(sslKeyManagerPassword), SettingAfter(sslTrustStorePath), SettingAfter(sslTrustStorePassword), SettingAfter(sslIncludedCipherSuites), SettingAfter(sslExcludedCipherSuites), SettingAfter(sslIncludedProtocols), SettingAfter(sslExcludedProtocols), SettingAfter(certAlias));
    }

    /** The connector list: one TLS connector when SSL is enabled, one plain one otherwise, on `port`. */
    method CreateConnectors(httpConfiguration: HttpConfiguration) returns (connectors: seq<ServerConnector>)
      requires httpConfiguration == HttpConfigurationFor(Settings().http)
      ensures connectors == ConnectorsFor(port, Settings().http, enableSSL, Settings().ssl)
    {
      connectors := [];
      if enableSSL {
        var sslContextFactory := ConfigureSsl();
        var httpsConfiguration := httpConfiguration;
        httpsConfiguration := httpsConfiguration.(customizers := httpsConfiguration.customizers + [SecureRequestCustomizer]);
        var sslConnector := ServerConnector(
          [SslConnectionFactory(sslContextFactory, Http11), HttpConnectionFactory(httpsConfiguration)], port);
        connectors := connectors + [sslConnector];
      } else {
        var connector := ServerConnector([HttpConnectionFactory(httpConfiguration)], port);
        connectors := connectors + [connector];
      }
    }

    /** The configured port. */
    method GetPort() returns (p: int32)
      ensures p == port
    {
      p := port;
    }

    /** Overrides the port; nothing else changes, and the next `Start` listens there. */
    method SetPort(p: int32)
      modifies this`port
      ensures port == p
      ensures Settings() == old(Settings()).(port := p)
    {
      port := p;
    }
  }
}
