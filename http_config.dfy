/** The `HttpConfiguration` that `start()` builds from the three optional size settings. */
module HttpConfig {
  import opened Wrappers
  import opened JavaTypes

  /** The one customizer `start()` adds: it marks requests arriving over TLS as secure. */
  datatype Customizer = SecureRequestCustomizer

  /** The settings of a Jetty `HttpConfiguration` that `start()` touches. */
  datatype HttpConfiguration = HttpConfiguration(
    requestHeaderSize: int32,
    responseHeaderSize: int32,
    outputBufferSize: int32,
    customizers: seq<Customizer>)

  /** A freshly constructed `HttpConfiguration` (Jetty 9's built-in defaults, no customizers). */
  const DefaultHttpConfiguration := HttpConfiguration(8192, 8192, 32768, [])

  /** The `orbit.jetty.*` size settings; `None` is a setting left unconfigured (`null`). */
  datatype HttpOptions = HttpOptions(
    requestHeaderSize: Option<int32>,
    responseHeaderSize: Option<int32>,
    outputBufferSize: Option<int32>)

  /** An override was applied only when set: unset keeps `default`, a set value N yields exactly N. */
  predicate AppliedOnlyWhenSet(option: Option<int32>, default: int32, actual: int32)
  {
    match option
    case None => actual == default
    case Some(n) => actual == n
  }

  /** The plain HTTP configuration: the library defaults with the set overrides applied. */
  function HttpConfigurationFor(o: HttpOptions): (r: HttpConfiguration)
    ensures AppliedOnlyWhenSet(o.requestHeaderSize, DefaultHttpConfiguration.requestHeaderSize, r.requestHeaderSize)
    ensures AppliedOnlyWhenSet(o.responseHeaderSize, DefaultHttpConfiguration.responseHeaderSize, r.responseHeaderSize)
    ensures AppliedOnlyWhenSet(o.outputBufferSize, DefaultHttpConfiguration.outputBufferSize, r.outputBufferSize)
    ensures r.customizers == []
  {
    DefaultHttpConfiguration.(
      requestHeaderSize := o.requestHeaderSize.GetOr(DefaultHttpConfiguration.requestHeaderSize),
      responseHeaderSize := o.responseHeaderSize.GetOr(DefaultHttpConfiguration.responseHeaderSize),
      outputBufferSize := o.outputBufferSize.GetOr(DefaultHttpConfiguration.outputBufferSize))
  }

  /**
   * The TLS variant: a copy of `base` (the copy constructor keeps every
   * setting) with the secure-request customizer added after the existing ones.
   */
  function HttpsConfigurationFor(base: HttpConfiguration): (r: HttpConfiguration)
    ensures r.requestHeaderSize == base.requestHeaderSize
    ensures r.responseHeaderSize == base.responseHeaderSize
    ensures r.outputBufferSize == base.outputBufferSize
    ensures base.customizers <= r.customizers && r.customizers[|base.customizers|..] == [SecureRequestCustomizer]
  {
    base.(customizers := base.customizers + [SecureRequestCustomizer])
  }

  /** With no override set, the configuration is exactly the library's default one. */
  lemma NoOverridesIsDefault()
    ensures HttpConfigurationFor(HttpOptions(None, None, None)) == DefaultHttpConfiguration
  {
  }

  /** Each override changes its own setting only: setting one leaves the other two as they were. */
  lemma OverridesIndependent(o: HttpOptions, n: int32)
    ensures HttpConfigurationFor(o.(requestHeaderSize := Some(n)))
         == HttpConfigurationFor(o).(requestHeaderSize := n)
    ensures HttpConfigurationFor(o.(responseHeaderSize := Some(n)))
         == HttpConfigurationFor(o).(responseHeaderSize := n)
    ensures HttpConfigurationFor(o.(outputBufferSize := Some(n)))
         == HttpConfigurationFor(o).(outputBufferSize := n)
  {
  }
}
