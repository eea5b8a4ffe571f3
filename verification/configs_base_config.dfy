/** `getBasePlaywrightConfig` of configs/base.config.ts: the same builder,
    reporting only to an HTML report that never opens itself. */
module ConfigsBaseConfig {
  import opened Wrappers
  import opened Url
  import opened Options
  import opened PlaywrightConfig
  import SrcBaseConfig

  /** `[["html", { open: "never" }]]` */
  const Reporters: seq<ReporterEntry> := [ReporterEntry("html", Some(ReporterOptions("never")))]

  /** Builds the configuration, or fails with the URL that did not parse. */
  function GetBasePlaywrightConfig(partial: BaseOptions, cpuCount: nat, parse: UrlParser): (r: Result<PlaywrightTestConfig, UrlError>)
    ensures r.Failure? <==> parse(ServerUrlInput(partial)).None?
    ensures r.Failure? ==> r.error == InvalidUrl(ServerUrlInput(partial))
    ensures r.Success? ==> FollowsOptions(partial, DefaultBaseOptions(cpuCount), parse(ServerUrlInput(partial)).value, r.value)
    ensures r.Success? ==> |r.value.reporter| == 1
    ensures r.Success? ==> r.value.reporter[0].name == "html" && r.value.reporter[0].options == Some(ReporterOptions("never"))
  {
    Build(partial, cpuCount, parse, Reporters)
  }

  /** The two copies agree on every input: both fail or both succeed, and
      their configurations differ in the reporter list alone, this copy's
      being the other's without the leading "list" entry. */
  lemma CopiesDifferOnlyInReporter(partial: BaseOptions, cpuCount: nat, parse: UrlParser)
    ensures var a := SrcBaseConfig.GetBasePlaywrightConfig(partial, cpuCount, parse);
      var b := GetBasePlaywrightConfig(partial, cpuCount, parse);
      && (a.Success? <==> b.Success?)
      && (a.Failure? ==> a == b)
      && (a.Success? ==> b.value == a.value.(reporter := a.value.reporter[1..]))
  {
  }
}
