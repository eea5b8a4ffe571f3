/** `getBasePlaywrightConfig` of src/base.config.ts: reports go to the
    console list reporter and to an HTML report that never opens itself. */
module SrcBaseConfig {
  import opened Wrappers
  import opened Url
  import opened Options
  import opened PlaywrightConfig

  /** `[["list"], ["html", { open: "never" }]]` */
  const Reporters: seq<ReporterEntry> :=
    [ReporterEntry("list", None), ReporterEntry("html", Some(ReporterOptions("never")))]

  /** Builds the configuration, or fails with the URL that did not parse. */
  function GetBasePlaywrightConfig(partial: BaseOptions, cpuCount: nat, parse: UrlParser): (r: Result<PlaywrightTestConfig, UrlError>)
    ensures r.Failure? <==> parse(ServerUrlInput(partial)).None?
    ensures r.Failure? ==> r.error == InvalidUrl(ServerUrlInput(partial))
    ensures r.Success? ==> FollowsOptions(partial, DefaultBaseOptions(cpuCount), parse(ServerUrlInput(partial)).value, r.value)
    ensures r.Success? ==> |r.value.reporter| == 2
    ensures r.Success? ==> r.value.reporter[0].name == "list" && r.value.reporter[0].options.None?
    ensures r.Success? ==> r.value.reporter[1].name == "html" && r.value.reporter[1].options == Some(ReporterOptions("never"))
  {
    Build(partial, cpuCount, parse, Reporters)
  }
}
