/** The configuration object handed to the Playwright test runner, and the
    single-pass builder that both copies of `getBasePlaywrightConfig` share:
    parse the URL, resolve the options, assemble the output. The copies
    differ only in the reporter list, which is a parameter here. */
module PlaywrightConfig {
  import opened Wrappers
  import opened Url
  import opened Options

  /** The options object of a reporter entry (`{ open: "never" }`). */
  datatype ReporterOptions = ReporterOptions(open: string)

  /** A reporter entry: `[name]` or `[name, options]`. */
  datatype ReporterEntry = ReporterEntry(name: string, options: Option<ReporterOptions>)

  /** The shared `use` section. */
  datatype UseOptions = UseOptions(baseURL: string, trace: string, testIdAttribute: string, viewport: Viewport)

  /** A `devices[key]` preset of Playwright: third-party emulation settings,
      identified here by their key only. */
  datatype DevicePreset = DevicePreset(key: string)

  /** `{ ...devices[key], viewport }`: the preset with its viewport replaced. */
  datatype ProjectUse = ProjectUse(device: DevicePreset, viewport: Viewport)

  datatype Project = Project(name: string, use: ProjectUse)

  /** How the runner starts the system under test and detects that it is up. */
  datatype WebServer = WebServer(command: string, url: string, reuseExistingServer: bool)

  /** The part of Playwright's `PlaywrightTestConfig` the builder fills in. */
  datatype PlaywrightTestConfig = PlaywrightTestConfig(
    testDir: string,
    fullyParallel: bool,
    forbidOnly: bool,
    retries: int,
    workers: int,
    reporter: seq<ReporterEntry>,
    use: UseOptions,
    projects: seq<Project>,
    webServer: WebServer)

  /** Traces are recorded only when a test is retried for the first time. */
  const TraceOnFirstRetry: string := "on-first-retry"

  /** The component of a per-environment count that applies. */
  function ForEnvironment(counts: EnvironmentCounts, isCi: bool): int {
    if isCi then counts.ci else counts.nonCi
  }

  /** The URL that is parsed: the supplied one, or the default when absent. */
  function ServerUrlInput(partial: BaseOptions): string {
    partial.webServerUrl.GetOr(DefaultWebServerUrl)
  }

  /** Chromium, Firefox and WebKit, in that order, each on its desktop preset
      and each with the given viewport. */
  predicate StandardProjects(ps: seq<Project>, viewport: Viewport) {
    && |ps| == 3
    && ps[0] == Project("chromium", ProjectUse(DevicePreset("Desktop Chrome"), viewport))
    && ps[1] == Project("firefox", ProjectUse(DevicePreset("Desktop Firefox"), viewport))
    && ps[2] == Project("webkit", ProjectUse(DevicePreset("Desktop Safari"), viewport))
  }

  /** What a configuration `c` built from `partial` over the table
      `defaults`, once the URL parsed as `parsed`, must satisfy: every supplied option wins over its default, `isCi` selects
      the CI behaviour, the base URL is the slash-terminated href and the
      readiness URL the origin. */
  ghost predicate FollowsOptions(partial: BaseOptions, defaults: DefaultOptions, parsed: ParsedUrl, c: PlaywrightTestConfig) {
    && Honours(partial.testDir, defaults.testDir, c.testDir)
    && Honours(partial.fullyParallel, defaults.fullyParallel, c.fullyParallel)
    && c.forbidOnly == partial.isCi
    && c.retries == ForEnvironment(partial.retries.GetOr(defaults.retries), partial.isCi)
    && c.workers == ForEnvironment(partial.workers.GetOr(defaults.workers), partial.isCi)
    && SlashTerminated(parsed.href, c.use.baseURL)
    && c.use.trace == TraceOnFirstRetry
    && Honours(partial.testIdAttribute, defaults.testIdAttribute, c.use.testIdAttribute)
    && Honours(partial.viewport, defaults.viewport, c.use.viewport)
    && StandardProjects(c.projects, c.use.viewport)
    && Honours(partial.webServerCommand, defaults.webServerCommand, c.webServer.command)
    && c.webServer.url == parsed.origin
    && c.webServer.reuseExistingServer == !partial.isCi
  }

  /** Assembles the output from the resolved options and the derived URLs. */
  function Assemble(o: ResolvedOptions, urls: DerivedUrls, reporter: seq<ReporterEntry>): PlaywrightTestConfig {
    PlaywrightTestConfig(
      testDir := o.testDir,
      fullyParallel := o.fullyParallel,
      forbidOnly := o.isCi,
      retries := ForEnvironment(o.retries, o.isCi),
      workers := ForEnvironment(o.workers, o.isCi),
      reporter := reporter,
      use := UseOptions(urls.baseUrl, TraceOnFirstRetry, o.testIdAttribute, o.viewport),
      projects := [
        Project("chromium", ProjectUse(DevicePreset("Desktop Chrome"), o.viewport)),
        Project("firefox", ProjectUse(DevicePreset("Desktop Firefox"), o.viewport)),
        Project("webkit", ProjectUse(DevicePreset("Desktop Safari"), o.viewport))
      ],
      webServer := WebServer(o.webServerCommand, urls.origin, !o.isCi))
  }

  /** `getBasePlaywrightConfig` with the reporter list left open. It fails
      exactly when the URL it parses is rejected, and otherwise produces a
      configuration that follows the options. */
  function Build(partial: BaseOptions, cpuCount: nat, parse: UrlParser, reporter: seq<ReporterEntry>): (r: Result<PlaywrightTestConfig, UrlError>)
    ensures r.Failure? <==> parse(ServerUrlInput(partial)).None?
    ensures r.Failure? ==> r.error == InvalidUrl(ServerUrlInput(partial))
    ensures r.Success? ==> FollowsOptions(partial, DefaultBaseOptions(cpuCount), parse(ServerUrlInput(partial)).value, r.value)
    ensures r.Success? ==> r.value.reporter == reporter
  {
    var defaults := DefaultBaseOptions(cpuCount);
    match DeriveUrls(parse, partial.webServerUrl.GetOr(defaults.webServerUrl))
    case Failure(e) => Failure(e)
    case Success(urls) => Success(Assemble(Resolve(partial, defaults), urls, reporter))
  }

  /** With only `isCi` supplied, the output carries the documented defaults:
      tests under "./", fully parallel, two CI retries and none locally, one
      CI worker and one per logical CPU locally, "data-test-id", a 1920x1080
      viewport, the server started by "pnpm run start-test-server" and
      checked at the origin of "http://localhost:3000". */
  lemma DefaultsWhenOnlyCiSupplied(isCi: bool, cpuCount: nat, parse: UrlParser, reporter: seq<ReporterEntry>)
    requires parse("http://localhost:3000").Some?
    ensures Build(OnlyCi(isCi), cpuCount, parse, reporter).Success?
    ensures var c := Build(OnlyCi(isCi), cpuCount, parse, reporter).value;
      && c.testDir == "./"
      && c.fullyParallel
      && c.retries == (if isCi then 2 else 0)
      && c.workers == (if isCi then 1 else cpuCount)
      && c.use.testIdAttribute == "data-test-id"
      && c.use.viewport == Viewport(1920, 1080)
      && c.webServer.command == "pnpm run start-test-server"
      && c.webServer.url == parse("http://localhost:3000").value.origin
  {
  }

  /** Override precedence: every supplied option reaches its place in the
      output unchanged. For `retries` and `workers` this is the component
      `isCi` selects; for `webServerUrl` it is the parsed URL's origin at
      `webServer.url`. */
  lemma SuppliedValuesReachOutput(partial: BaseOptions, cpuCount: nat, parse: UrlParser, reporter: seq<ReporterEntry>)
    requires Build(partial, cpuCount, parse, reporter).Success?
    ensures var c := Build(partial, cpuCount, parse, reporter).value;
      && (partial.testDir.Some? ==> c.testDir == partial.testDir.value)
      && (partial.fullyParallel.Some? ==> c.fullyParallel == partial.fullyParallel.value)
      && (partial.retries.Some? ==> c.retries == ForEnvironment(partial.retries.value, partial.isCi))
      && (partial.workers.Some? ==> c.workers == ForEnvironment(partial.workers.value, partial.isCi))
      && (partial.testIdAttribute.Some? ==> c.use.testIdAttribute == partial.testIdAttribute.value)
      && (partial.webServerCommand.Some? ==> c.webServer.command == partial.webServerCommand.value)
      && (partial.viewport.Some? ==> c.use.viewport == partial.viewport.value)
      && (partial.webServerUrl.Some? ==> c.webServer.url == parse(partial.webServerUrl.value).value.origin)
  {
  }

  /** CI branching: flipping `isCi` changes exactly `forbidOnly`, the selected
      retry and worker counts and `reuseExistingServer`; every other part of
      the output stays as it was. */
  lemma CiFlagChangesOnlyCiFields(partial: BaseOptions, cpuCount: nat, parse: UrlParser, reporter: seq<ReporterEntry>)
    ensures var a := Build(partial, cpuCount, parse, reporter);
      var b := Build(partial.(isCi := !partial.isCi), cpuCount, parse, reporter);
      && (a.Success? <==> b.Success?)
      && (a.Success? ==>
            var o := Resolve(partial, DefaultBaseOptions(cpuCount));
            b.value == a.value.(
              forbidOnly := !a.value.forbidOnly,
              retries := ForEnvironment(o.retries, !partial.isCi),
              workers := ForEnvironment(o.workers, !partial.isCi),
              webServer := a.value.webServer.(reuseExistingServer := !a.value.webServer.reuseExistingServer)))
  {
  }

  /** Defaults apply only to absent options: a supplied URL that does not
      parse makes the builder fail, even when the default would parse. */
  lemma SuppliedInvalidUrlIsNotReplaced(partial: BaseOptions, cpuCount: nat, parse: UrlParser, reporter: seq<ReporterEntry>)
    requires partial.webServerUrl.Some? && parse(partial.webServerUrl.value).None?
    ensures Build(partial, cpuCount, parse, reporter) == Failure(InvalidUrl(partial.webServerUrl.value))
  {
  }

  /** Examples of the derivation, for a parser that behaves as the URL
      Standard does on these inputs. */
  lemma UrlDerivationExamples(isCi: bool, cpuCount: nat, parse: UrlParser, reporter: seq<ReporterEntry>)
    requires parse("http://localhost:3000") == Some(ParsedUrl("http://localhost:3000", "http://localhost:3000/"))
    requires parse("http://localhost:3000/app/") == Some(ParsedUrl("http://localhost:3000", "http://localhost:3000/app/"))
    requires parse("http://localhost:3000/app") == Some(ParsedUrl("http://localhost:3000", "http://localhost:3000/app"))
    requires parse("not a url") == None
    ensures var c := Build(OnlyCi(isCi), cpuCount, parse, reporter).value;
      c.use.baseURL == "http://localhost:3000/" && c.webServer.url == "http://localhost:3000"
    ensures var c := Build(OnlyCi(isCi).(webServerUrl := Some("http://localhost:3000/app/")), cpuCount, parse, reporter).value;
      c.use.baseURL == "http://localhost:3000/app/" && c.webServer.url == "http://localhost:3000"
    ensures var c := Build(OnlyCi(isCi).(webServerUrl := Some("http://localhost:3000/app")), cpuCount, parse, reporter).value;
      c.use.baseURL == "http://localhost:3000/app/" && c.webServer.url == "http://localhost:3000"
    ensures Build(OnlyCi(isCi).(webServerUrl := Some("not a url")), cpuCount, parse, reporter) == Failure(InvalidUrl("not a url"))
  {
  }

  /** Whatever the input, the reporter list, the trace mode and the project
      list (names, presets, order) are the same; the projects differ only in
      the viewport, which is the one of `use`. */
  lemma ShapeIndependentOfInput(p1: BaseOptions, p2: BaseOptions, cpu1: nat, cpu2: nat, parse: UrlParser, reporter: seq<ReporterEntry>)
    requires Build(p1, cpu1, parse, reporter).Success? && Build(p2, cpu2, parse, reporter).Success?
    ensures var c1 := Build(p1, cpu1, parse, reporter).value;
      var c2 := Build(p2, cpu2, parse, reporter).value;
      && c1.reporter == c2.reporter
      && c1.use.trace == c2.use.trace
      && |c1.projects| == |c2.projects| == 3
      && (forall i :: 0 <= i < 3 ==> c1.projects[i].name == c2.projects[i].name)
      && (forall i :: 0 <= i < 3 ==> c1.projects[i].use.device == c2.projects[i].use.device)
      && (forall i :: 0 <= i < 3 ==> c1.projects[i].use.viewport == c1.use.viewport)
  {
  }
}
