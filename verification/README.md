# Playwright base configuration builder, in Dafny

This project models `getBasePlaywrightConfig`, the one piece of logic in the
`playwright-config` package. The function takes a sparse options record and
returns a Playwright test-runner configuration. It fills every absent option
from a defaults table, and `isCi` decides the CI-dependent values. From one
URL it derives the web server's readiness URL (the origin) and the tests'
base URL (the href with a trailing slash). It also assembles a fixed output
shape: reporters, trace mode and three browser projects.

The function exists in two copies, `src/base.config.ts` and
`configs/base.config.ts`. They differ only in the reporter list. The model
shares the builder between them and passes the reporter list as a parameter.

Modules:

- `Wrappers` (wrappers.dfy): `Option` (a value or `undefined`, where `GetOr`
  is `??`) and `Result` (a value or the error a thrown exception carries).
- `Url` (url.dfy): the abstract URL parser and the two derived strings.
- `Options` (options.dfy): the input record `BaseOptions`, the defaults table
  `DefaultOptions` and `DefaultBaseOptions`, the fully populated
  `ResolvedOptions`, and `Resolve`. `RequiredNonNullable` from src/types.ts
  is a type-level transform, so it becomes these separate, fully populated
  datatypes.
- `PlaywrightConfig` (config.dfy): the output schema, the shared builder
  `Build`, and the end-to-end properties.
- `SrcBaseConfig` (src_base_config.dfy) and `ConfigsBaseConfig`
  (configs_base_config.dfy): the two copies, each with its own reporter list.

Abstractions:

- URL parsing is the `URL` class of the WHATWG URL Standard (section 6.1,
  the `origin` and `href` getters). The model takes it as a parameter
  `parse: string -> Option<ParsedUrl>`, where `None` means the constructor
  throws.
- The host's logical CPU count (`os.cpus().length`) is the parameter
  `cpuCount: nat`.
- A Playwright device preset (`devices["Desktop Chrome"]` and so on) is
  represented by its key. The project's viewport then overrides the preset's
  viewport.

Notes on the code:

- The reporters are named `list` and `html`, as in the code.
- The CPU count is read when the module-level defaults table is evaluated,
  that is, always. It is not read only when `workers` is absent. In the
  model it is a parameter in both cases.
- The resolved `webServerUrl` option is computed but never used. The URL
  that gets parsed comes from its own `??` on the same two values. The model
  does the same.

## Model

| member | source | states |
|---|---|---|
| `Url.WithTrailingSlash` | src/base.config.ts:119-122 | The base URL is the href extended by at most one character so that it ends in `/`, and the href unchanged when it already ended in `/` |
| `Url.SlashTerminatedUnique` | src/base.config.ts:119-122 | That description determines the base URL completely: a string meets it if and only if it is the computed base URL |
| `Url.WithTrailingSlashIdempotent` | src/base.config.ts:119-122 | Applying the slash rule to a base URL gives the same base URL back |
| `Url.BaseUrlSlashNotDoubled` | src/base.config.ts:119-122 | The slash is never doubled: the base URL ends in exactly one `/` when the href ended in none, and otherwise in as many as the href |
| `Url.DeriveUrls` | src/base.config.ts:117-122 | Fails with `InvalidUrl(raw)` exactly when the parser rejects the URL. Otherwise the origin is the parsed origin and the base URL is the slash-terminated parsed href |
| `Url.OriginDistinctFromBaseUrl` | src/base.config.ts:117-122 | An origin serialization never ends in `/`, so the readiness URL differs from the base URL |
| `Options.Resolve` | src/base.config.ts:124-134 | Each resolved option is the supplied value when one is present, otherwise the defaults-table value. `isCi` is copied |
| `Options.SuppliedOptionsRoundTrip` | src/base.config.ts:124-134 | When every option is supplied, resolution returns exactly the supplied values, whatever the defaults table holds |
| `Options.AbsentOptionsAreDefaults` | src/base.config.ts:124-134 | When only `isCi` is supplied, the resolved options are the defaults table itself |
| `Options.SuppliedCompositesIgnoreDefaults` | src/base.config.ts:128-133 | No deep merge: a supplied `retries`, `workers` or `viewport` resolves to the same whole value under any two defaults tables |
| `PlaywrightConfig.Build` | src/base.config.ts:116-187 | Covers the output object literal, which the helper `Assemble` builds. Fails exactly when the effective URL (the supplied one, or the default only when absent) does not parse. Otherwise the output follows the options: supplied values win over defaults, `forbidOnly == isCi`, retries and workers take the `ci` or `nonCi` component, the base URL is the slash-terminated href, the trace mode is `on-first-retry`, the projects are chromium, firefox and webkit in that order with the `use` viewport, the server URL is the origin, and `reuseExistingServer == !isCi` |
| `PlaywrightConfig.DefaultsWhenOnlyCiSupplied` | src/base.config.ts:90-108 | Covers the defaults table `Options.DefaultBaseOptions`. With only `isCi` supplied, the output carries the documented defaults: `./`, fully parallel, retries 2 or 0, workers 1 or the CPU count, `data-test-id`, 1920x1080, `pnpm run start-test-server`, and the origin of `http://localhost:3000` |
| `PlaywrightConfig.SuppliedValuesReachOutput` | src/base.config.ts:124-141 | Every supplied option appears unchanged at its place in the output. For `retries` and `workers` this is the component `isCi` selects; for `webServerUrl` it is the parsed URL's origin at `webServer.url` |
| `PlaywrightConfig.CiFlagChangesOnlyCiFields` | src/base.config.ts:136-186 | Flipping `isCi` flips `forbidOnly` and `reuseExistingServer` and switches the retry and worker components. Nothing else in the output changes, and success is unaffected |
| `PlaywrightConfig.SuppliedInvalidUrlIsNotReplaced` | src/base.config.ts:117 | A supplied URL that does not parse makes the builder fail with that URL, even when the default URL would parse |
| `PlaywrightConfig.UrlDerivationExamples` | src/base.config.ts:63-69 | The documented rule (the origin becomes the server URL, the full URL with a trailing slash becomes the base URL), shown on example inputs for a parser that behaves as the URL Standard does: `http://localhost:3000` gives base `http://localhost:3000/`; `.../app/` stays as it is; `.../app` gains one slash; the origin is `http://localhost:3000` each time; `not a url` fails |
| `PlaywrightConfig.ShapeIndependentOfInput` | src/base.config.ts:142-180 | Any two successful builds share the reporter list, the trace mode, and the project names, presets and order. Each project's viewport is the `use` viewport |
| `SrcBaseConfig.GetBasePlaywrightConfig` | src/base.config.ts:116-187 | The same failure and option-following promises as `Build`. The reporter list is exactly `["list"]` followed by `["html", {open: "never"}]` |
| `ConfigsBaseConfig.GetBasePlaywrightConfig` | configs/base.config.ts:48-117 | The same failure and option-following promises: `??` defaulting, CI selection, URL derivation, projects and web server. The reporter list is the single entry `["html", {open: "never"}]` |
| `ConfigsBaseConfig.CopiesDifferOnlyInReporter` | configs/base.config.ts:74-81 | On every input the two copies both fail with the same error or both succeed. Their outputs differ only in the reporter list, where this copy drops the leading `list` entry |

## Left out

- URL parsing internals: `new URL`, `.origin` and `.href` belong to a foreign library, so the parser is a parameter. The model does not decide which strings parse.
- `Url.OriginDistinctFromBaseUrl`: the fact that an origin never ends in `/` comes from the URL and HTML standards. It is stated as a precondition about the parser, not derived.
- `os.cpus().length`: this is an environment query, so it is a parameter.
- The contents of Playwright's `devices` presets: this is third-party data, so only the key is kept.
- JavaScript `number`: retries, workers and viewport sizes are unbounded integers. Negative values are modelled and passed through unchecked, as the source does. Fractional, NaN and infinite values, which the TypeScript types also allow, are not modelled.
- Object identity and mutation: the model treats the exported defaults table as a constant and every output object as a value with no sharing. In the source the table is a mutable, unfrozen object that each call reads, so a caller who changes it changes every later result. The one viewport object is also placed by reference in `use` and in all three projects, and when the caller omits `viewport` it is the table's own object.
- The rest of Playwright's `PlaywrightTestConfig` schema and the test runner itself.
- package.config.ts and eslint.config.ts: tooling configuration that only calls external packages.
