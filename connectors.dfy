/** The single `ServerConnector` that `start()` builds on the configured port. */
module Connectors {
  import opened JavaTypes
  import opened HttpConfig
  import opened SslConfig

  /** The protocol the TLS layer hands decrypted bytes to (`HttpVersion.HTTP_1_1.asString()`). */
  const Http11 := "HTTP/1.1"

  /** A connection factory of a connector, holding the settings it was built with. */
  datatype ConnectionFactory =
    | SslConnectionFactory(sslContext: SslContextFactory, nextProtocol: string)
    | HttpConnectionFactory(config: HttpConfiguration)

  /** A connector: its factories in negotiation order and the port it listens on. */
  datatype ServerConnector = ServerConnector(factories: seq<ConnectionFactory>, port: int32)

  /** A plain HTTP connector: one HTTP factory and nothing else. */
  predicate IsPlainConnector(c: ServerConnector)
  {
    |c.factories| == 1 && c.factories[0].HttpConnectionFactory?
  }

  /** A TLS connector: TLS first, handing over to HTTP/1.1 on a configuration marked secure. */
  predicate IsTlsConnector(c: ServerConnector)
  {
    && |c.factories| == 2
    && c.factories[0].SslConnectionFactory?
    && c.factories[0].nextProtocol == Http11
    && c.factories[1].HttpConnectionFactory?
    && SecureRequestCustomizer in c.factories[1].config.customizers
  }

  /**
   * The connector list `start()` hands to the server: exactly one connector on
   * `port`, TLS when `enableSSL` and plain HTTP otherwise.
   */
  function ConnectorsFor(port: int32, http: HttpOptions, enableSSL: bool, ssl: SslOptions): (r: seq<ServerConnector>)
    ensures |r| == 1 && r[0].port == port
    ensures IsTlsConnector(r[0]) <==> enableSSL
    ensures IsPlainConnector(r[0]) <==> !enableSSL
    ensures enableSSL ==> r[0].factories[0].sslContext == SslContextFor(ssl)
    ensures enableSSL ==> r[0].factories[1].config == HttpsConfigurationFor(HttpConfigurationFor(http))
    ensures !enableSSL ==> r[0].factories[0].config == HttpConfigurationFor(http)
  {
    var httpConfiguration := HttpConfigurationFor(http);
    if enableSSL then
      [ServerConnector([SslConnectionFactory(SslContextFor(ssl), Http11),
                        HttpConnectionFactory(HttpsConfigurationFor(httpConfiguration))], port)]
    else
      [ServerConnector([HttpConnectionFactory(httpConfiguration)], port)]
  }

  /**
   * The connector list never mixes kinds: it holds a TLS connector exactly when
   * SSL is enabled, a plain one exactly when it is not, and never both.
   */
  lemma NeverBothKinds(port: int32, http: HttpOptions, enableSSL: bool, ssl: SslOptions)
    ensures var r := ConnectorsFor(port, http, enableSSL, ssl);
            && ((exists c :: c in r && IsTlsConnector(c)) <==> enableSSL)
            && ((exists c :: c in r && IsPlainConnector(c)) <==> !enableSSL)
            && !((exists c :: c in r && IsTlsConnector(c)) && (exists c :: c in r && IsPlainConnector(c)))
  {
    var r := ConnectorsFor(port, http, enableSSL, ssl);
    assert r[0] in r;
  }

  /** The size overrides reach the connector in both modes, with the same values. */
  lemma OverridesReachConnector(port: int32, http: HttpOptions, enableSSL: bool, ssl: SslOptions)
    ensures var factories := ConnectorsFor(port, http, enableSSL, ssl)[0].factories;
            var config := factories[|factories| - 1].config;
            && AppliedOnlyWhenSet(http.requestHeaderSize, DefaultHttpConfiguration.requestHeaderSize, config.requestHeaderSize)
            && AppliedOnlyWhenSet(http.responseHeaderSize, DefaultHttpConfiguration.responseHeaderSize, config.responseHeaderSize)
            && AppliedOnlyWhenSet(http.outputBufferSize, DefaultHttpConfiguration.outputBufferSize, config.outputBufferSize)
  {
  }
}
