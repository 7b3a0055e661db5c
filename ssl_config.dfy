/** The `SslContextFactory` that `start()` builds when TLS is enabled. */
module SslConfig {
  import opened Wrappers

  /** The `orbit.jetty.ssl.*` settings; `None` is a setting left unconfigured (`null`). */
  datatype SslOptions = SslOptions(
    keyStorePath: Option<string>,
    keyStorePassword: Option<string>,
    keyManagerPassword: Option<string>,
    trustStorePath: Option<string>,
    trustStorePassword: Option<string>,
    includeCipherSuites: Option<seq<string>>,
    excludeCipherSuites: Option<seq<string>>,
    clientAuth: bool,
    includeProtocols: Option<seq<string>>,
    excludeProtocols: Option<seq<string>>,
    certAlias: Option<string>)

  /**
   * One setting of the factory: still the library's own default, or set by a
   * setter call to exactly the given value.
   */
  datatype Setting<T> = LibraryDefault | Set(value: T)

  /** The settings of a Jetty `SslContextFactory` that `start()` touches. */
  datatype SslContextFactory = SslContextFactory(
    needClientAuth: bool,
    keyStorePath: Setting<string>,
    keyStorePassword: Setting<string>,
    keyManagerPassword: Setting<string>,
    trustStorePath: Setting<string>,
    trustStorePassword: Setting<string>,
    includeCipherSuites: Setting<seq<string>>,
    excludeCipherSuites: Setting<seq<string>>,
    includeProtocols: Setting<seq<string>>,
    excludeProtocols: Setting<seq<string>>,
    certAlias: Setting<string>)

  /** A freshly constructed factory: client authentication off, every other setting at the library default. */
  const NewSslContextFactory := SslContextFactory(false, LibraryDefault, LibraryDefault, LibraryDefault, LibraryDefault, LibraryDefault, LibraryDefault, LibraryDefault, LibraryDefault, LibraryDefault, LibraryDefault)

  /**
   * A setter was called only when its option is set: an unset option leaves
   * the library default in place, a set one yields exactly its value.
   */
  predicate SettingAppliedOnlyWhenSet<T(==)>(option: Option<T>, actual: Setting<T>)
  {
    match option
    case None => actual == LibraryDefault
    case Some(v) => actual == Set(v)
  }

  /** What a guarded setter leaves in a fresh factory's setting. */
  function SettingAfter<T>(option: Option<T>): Setting<T>
  {
    match option
    case None => LibraryDefault
    case Some(v) => Set(v)
  }

  /**
   * The factory after `start()`'s setters: only the fields `o` sets differ from
   * a fresh factory, and `needClientAuth` is always written from `clientAuth`.
   */
  function SslContextFor(o: SslOptions): (r: SslContextFactory)
    ensures r.needClientAuth == o.clientAuth
    ensures SettingAppliedOnlyWhenSet(o.keyStorePath, r.keyStorePath)
    ensures SettingAppliedOnlyWhenSet(o.keyStorePassword, r.keyStorePassword)
    ensures SettingAppliedOnlyWhenSet(o.keyManagerPassword, r.keyManagerPassword)
    ensures SettingAppliedOnlyWhenSet(o.trustStorePath, r.trustStorePath)
    ensures SettingAppliedOnlyWhenSet(o.trustStorePassword, r.trustStorePassword)
    ensures SettingAppliedOnlyWhenSet(o.includeCipherSuites, r.includeCipherSuites)
    ensures SettingAppliedOnlyWhenSet(o.excludeCipherSuites, r.excludeCipherSuites)
    ensures SettingAppliedOnlyWhenSet(o.includeProtocols, r.includeProtocols)
    ensures SettingAppliedOnlyWhenSet(o.excludeProtocols, r.excludeProtocols)
    ensures SettingAppliedOnlyWhenSet(o.certAlias, r.certAlias)
  {
    SslContextFactory(
      o.clientAuth, SettingAfter(o.keyStorePath), SettingAfter(o.keyStorePassword), SettingAfter(o.keyManagerPassword), SettingAfter(o.trustStorePath), SettingAfter(o.trustStorePassword), SettingAfter(o.includeCipherSuites), SettingAfter(o.excludeCipherSuites), SettingAfter(o.includeProtocols), SettingAfter(o.excludeProtocols), SettingAfter(o.certAlias))
  }

  /** With nothing configured, the factory differs from a fresh one in `needClientAuth` at most. */
  lemma NothingSetIsFresh(clientAuth: bool)
    ensures SslContextFor(SslOptions(None, None, None, None, None, None, None, clientAuth, None, None, None))
         == NewSslContextFactory.(needClientAuth := clientAuth)
  {
  }
}
