/** The builder's options: the sparse record a caller supplies, the defaults
    table, and the fully populated record obtained by filling the one from
    the other, field by field. */
module Options {
  import opened Wrappers

  /** A count that differs between CI and local runs (`retries`, `workers`). */
  datatype EnvironmentCounts = EnvironmentCounts(ci: int, nonCi: int)

  /** Playwright's `ViewportSize`. */
  datatype Viewport = Viewport(width: int, height: int)

  /** `BasePlaywrightConfigOptions`: `isCi` is mandatory, every other field
      may be left out. */
  datatype BaseOptions = BaseOptions(
    isCi: bool,
    testDir: Option<string>,
    fullyParallel: Option<bool>,
    retries: Option<EnvironmentCounts>,
    workers: Option<EnvironmentCounts>,
    testIdAttribute: Option<string>,
    webServerUrl: Option<string>,
    webServerCommand: Option<string>,
    viewport: Option<Viewport>)

  /** `RequiredNonNullable<Omit<BasePlaywrightConfigOptions, "isCi">>`: the
      shape of the defaults table, every optional field present. */
  datatype DefaultOptions = DefaultOptions(
    testDir: string,
    fullyParallel: bool,
    retries: EnvironmentCounts,
    workers: EnvironmentCounts,
    testIdAttribute: string,
    webServerUrl: string,
    webServerCommand: string,
    viewport: Viewport)

  /** `RequiredNonNullable<BasePlaywrightConfigOptions>`: every option present. */
  datatype ResolvedOptions = ResolvedOptions(
    isCi: bool,
    testDir: string,
    fullyParallel: bool,
    retries: EnvironmentCounts,
    workers: EnvironmentCounts,
    testIdAttribute: string,
    webServerUrl: string,
    webServerCommand: string,
    viewport: Viewport)

  /** The URL used when the caller supplies none. */
  const DefaultWebServerUrl: string := "http://localhost:3000"

  /** `defaultBasePlaywrightConfigOptions`. The host's logical CPU count,
      which the table reads from the operating system, is a parameter. */
  function DefaultBaseOptions(cpuCount: nat): DefaultOptions {
    DefaultOptions(
      testDir := "./",
      fullyParallel := true,
      retries := EnvironmentCounts(ci := 2, nonCi := 0),
      workers := EnvironmentCounts(ci := 1, nonCi := cpuCount),
      testIdAttribute := "data-test-id",
      webServerUrl := DefaultWebServerUrl,
      webServerCommand := "pnpm run start-test-server",
      viewport := Viewport(width := 1920, height := 1080))
  }

  /** `actual` is the supplied value when there is one, `fallback` otherwise. */
  predicate Honours<T(==)>(supplied: Option<T>, fallback: T, actual: T) {
    match supplied
    case Some(v) => actual == v
    case None => actual == fallback
  }

  /** Only the mandatory `isCi` supplied. */
  function OnlyCi(isCi: bool): BaseOptions {
    BaseOptions(isCi, None, None, None, None, None, None, None, None)
  }

  /** Every option supplied, with the values of `r`. */
  function SupplyAll(r: ResolvedOptions): BaseOptions {
    BaseOptions(r.isCi, Some(r.testDir), Some(r.fullyParallel), Some(r.retries), Some(r.workers),
                Some(r.testIdAttribute), Some(r.webServerUrl), Some(r.webServerCommand), Some(r.viewport))
  }

  /** Fills every absent option from the defaults table. Composite options
      (`retries`, `workers`, `viewport`) are taken whole from one side. */
  function Resolve(partial: BaseOptions, defaults: DefaultOptions): (r: ResolvedOptions)
    ensures r.isCi == partial.isCi
    ensures Honours(partial.testDir, defaults.testDir, r.testDir)
    ensures Honours(partial.fullyParallel, defaults.fullyParallel, r.fullyParallel)
    ensures Honours(partial.retries, defaults.retries, r.retries)
    ensures Honours(partial.workers, defaults.workers, r.workers)
    ensures Honours(partial.testIdAttribute, defaults.testIdAttribute, r.testIdAttribute)
    ensures Honours(partial.webServerUrl, defaults.webServerUrl, r.webServerUrl)
    ensures Honours(partial.webServerCommand, defaults.webServerCommand, r.webServerCommand)
    ensures Honours(partial.viewport, defaults.viewport, r.viewport)
  {
    ResolvedOptions(
      isCi := partial.isCi,
      testDir := partial.testDir.GetOr(defaults.testDir),
      fullyParallel := partial.fullyParallel.GetOr(defaults.fullyParallel),
      retries := partial.retries.GetOr(defaults.retries),
      workers := partial.workers.GetOr(defaults.workers),
      testIdAttribute := partial.testIdAttribute.GetOr(defaults.testIdAttribute),
      webServerUrl := partial.webServerUrl.GetOr(defaults.webServerUrl),
      webServerCommand := partial.webServerCommand.GetOr(defaults.webServerCommand),
      viewport := partial.viewport.GetOr(defaults.viewport))
  }

  /** Supplying every option leaves nothing for the defaults: resolution gives
      back exactly what was supplied, whatever the table holds. */
  lemma SuppliedOptionsRoundTrip(r: ResolvedOptions, defaults: DefaultOptions)
    ensures Resolve(SupplyAll(r), defaults) == r
  {
  }

  /** Supplying nothing but `isCi` yields the defaults table itself. */
  lemma AbsentOptionsAreDefaults(isCi: bool, defaults: DefaultOptions)
    ensures var r := Resolve(OnlyCi(isCi), defaults);
      DefaultOptions(r.testDir, r.fullyParallel, r.retries, r.workers, r.testIdAttribute,
                     r.webServerUrl, r.webServerCommand, r.viewport) == defaults
  {
  }

  /** No deep merge: a supplied `retries`, `workers` or `viewport` is taken as
      a unit, so none of its components depends on the defaults table, even
      when the table differs in that very component. */
  lemma SuppliedCompositesIgnoreDefaults(partial: BaseOptions, d1: DefaultOptions, d2: DefaultOptions)
    ensures partial.retries.Some? ==> Resolve(partial, d1).retries == Resolve(partial, d2).retries
    ensures partial.workers.Some? ==> Resolve(partial, d1).workers == Resolve(partial, d2).workers
    ensures partial.viewport.Some? ==> Resolve(partial, d1).viewport == Resolve(partial, d2).viewport
  {
  }
}
