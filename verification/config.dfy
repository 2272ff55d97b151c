/** The HTTP configuration and the two ways the server combines configurations:
    lodash `defaults` (fill only the top-level keys that are missing) for the
    server-wide defaults, and `Object.assign` (every key the later object sets wins)
    for the per-request mock configuration. A key that is not set is `None`. */
module Config {
  import opened Wrappers

  datatype MockConfig = MockConfig(
    dynamic: Option<bool>,
    code: Option<string>,
    exampleKey: Option<string>,
    mediaType: Option<string>)

  datatype ProxyConfig = ProxyConfig(upstream: string)

  datatype HttpConfig = HttpConfig(
    mock: Option<MockConfig>,
    validateRequest: Option<bool>,
    validateResponse: Option<bool>,
    checkSecurity: Option<bool>,
    proxy: Option<ProxyConfig>)

  /** A mock configuration that sets no key. */
  const NoMockKeys := MockConfig(None, None, None, None)

  /** The mock configuration the server fills in when none is given. */
  const DefaultMock := MockConfig(Some(false), None, None, None)

  /** One key under lodash `defaults`: an existing value stays, a missing one is filled. */
  function Fill<T>(value: Option<T>, fallback: Option<T>): Option<T> {
    if value.Some? then value else fallback
  }

  /** `_.defaults(config, source)`: the top-level keys `config` lacks are taken from
      `source`; nested objects are not merged. */
  function Defaults(config: HttpConfig, source: HttpConfig): (r: HttpConfig)
    ensures Extends(r, config)
    ensures config.mock.None? ==> r.mock == source.mock
    ensures config.validateRequest.None? ==> r.validateRequest == source.validateRequest
    ensures config.validateResponse.None? ==> r.validateResponse == source.validateResponse
    ensures config.checkSecurity.None? ==> r.checkSecurity == source.checkSecurity
    ensures config.proxy.None? ==> r.proxy == source.proxy
  {
    HttpConfig(
      Fill(config.mock, source.mock),
      Fill(config.validateRequest, source.validateRequest),
      Fill(config.validateResponse, source.validateResponse),
      Fill(config.checkSecurity, source.checkSecurity),
      Fill(config.proxy, source.proxy))
  }

  /** Every top-level key `config` sets, `r` sets to the same value. */
  predicate Extends(r: HttpConfig, config: HttpConfig) {
    && (config.mock.Some? ==> r.mock == config.mock)
    && (config.validateRequest.Some? ==> r.validateRequest == config.validateRequest)
    && (config.validateResponse.Some? ==> r.validateResponse == config.validateResponse)
    && (config.checkSecurity.Some? ==> r.checkSecurity == config.checkSecurity)
    && (config.proxy.Some? ==> r.proxy == config.proxy)
  }

  /** The server's defaults. The `proxy` default is the configuration's own `proxy`
      value, so it never adds anything. */
  function ServerDefaults(config: HttpConfig): HttpConfig {
    HttpConfig(Some(DefaultMock), Some(true), Some(true), None, config.proxy)
  }

  /** The configuration the server runs with: supplied keys win, `mock`,
      `validateRequest` and `validateResponse` are always set afterwards, and a
      supplied `mock` is kept as it is even when it lacks `dynamic`. */
  function MergeDefaults(config: HttpConfig): (r: HttpConfig)
    ensures Extends(r, config)
    ensures r.mock.Some? && r.validateRequest.Some? && r.validateResponse.Some?
    ensures config.mock.None? ==> r.mock == Some(DefaultMock)
    ensures config.validateRequest.None? ==> r.validateRequest == Some(true)
    ensures config.validateResponse.None? ==> r.validateResponse == Some(true)
    ensures r.checkSecurity == config.checkSecurity
    ensures r.proxy == config.proxy
  {
    Defaults(config, ServerDefaults(config))
  }

  /** Applying the server defaults a second time changes nothing. */
  lemma MergeDefaultsIdempotent(config: HttpConfig)
    ensures MergeDefaults(MergeDefaults(config)) == MergeDefaults(config)
  {
  }

  /** The merge is shallow: a supplied `mock` without `dynamic` is not completed. */
  lemma MergeDefaultsShallow(config: HttpConfig)
    requires config.mock.Some? && config.mock.value.dynamic.None?
    ensures MergeDefaults(config).mock.value.dynamic.None?
  {
  }

  /** One key under `Object.assign`: a later value wins, otherwise the earlier stays. */
  function Override<T>(earlier: Option<T>, later: Option<T>): Option<T> {
    if later.Some? then later else earlier
  }

  /** `Object.assign({}, base, overrides)` on mock configurations; an absent `base`
      contributes no key. */
  function Assign(base: Option<MockConfig>, overrides: MockConfig): (r: MockConfig)
    ensures var b := base.GetOr(NoMockKeys);
      && (overrides.dynamic.Some? ==> r.dynamic == overrides.dynamic)
      && (overrides.dynamic.None? ==> r.dynamic == b.dynamic)
      && (overrides.code.Some? ==> r.code == overrides.code)
      && (overrides.code.None? ==> r.code == b.code)
      && (overrides.exampleKey.Some? ==> r.exampleKey == overrides.exampleKey)
      && (overrides.exampleKey.None? ==> r.exampleKey == b.exampleKey)
      && (overrides.mediaType.Some? ==> r.mediaType == overrides.mediaType)
      && (overrides.mediaType.None? ==> r.mediaType == b.mediaType)
  {
    var b := base.GetOr(NoMockKeys);
    MockConfig(
      Override(b.dynamic, overrides.dynamic),
      Override(b.code, overrides.code),
      Override(b.exampleKey, overrides.exampleKey),
      Override(b.mediaType, overrides.mediaType))
  }

  /** Overriding with nothing keeps the base; overriding nothing gives the overrides. */
  lemma AssignIdentity(m: MockConfig)
    ensures Assign(Some(m), NoMockKeys) == m
    ensures Assign(None, m) == m
  {
  }

  /** Successive overrides compose: the latest value of each key wins. */
  lemma AssignComposes(a: MockConfig, b: MockConfig, c: MockConfig)
    ensures Assign(Some(Assign(Some(a), b)), c) == Assign(Some(a), Assign(Some(b), c))
  {
  }
}
