/** The per-bot section of the configuration (`config["bots"]`), read by the
    watchdog, the executor and the control loop. */
module Config {
  import opened Common

  datatype BotConfig = BotConfig(
    /** `enabled`; the watchdog reads a missing key as true, the control loop
        (`bot_config.get("enabled")`) as false. */
    enabled: Option<bool>,
    /** `auto_restart`; a missing key means true. */
    autoRestart: Option<bool>,
    screenName: string,
    /** `dashboard_port`; a missing key or 0 means no dashboard. */
    dashboardPort: Option<int>,
    /** `directory` and `main_file`; a missing key reads as "". */
    directory: Option<string>,
    mainFile: Option<string>)

  datatype Bot = Bot(name: string, config: BotConfig)

  /** The configured bots form a dictionary: no name twice. */
  predicate DistinctNames(bots: seq<Bot>) {
    forall i, j :: 0 <= i < j < |bots| ==> bots[i].name != bots[j].name
  }

  /** `config["bots"].get(name)`. */
  function Lookup(bots: seq<Bot>, name: string): (r: Option<BotConfig>)
    ensures r.Some? <==> exists i :: 0 <= i < |bots| && bots[i].name == name
    ensures r.Some? ==> exists i :: 0 <= i < |bots| && bots[i].name == name && bots[i].config == r.value
  {
    if bots == [] then None
    else if bots[0].name == name then Some(bots[0].config)
    else
      var r := Lookup(bots[1..], name);
      assert forall i :: 1 <= i < |bots| ==> bots[i] == bots[1..][i - 1];
      r
  }

  predicate IsConfigured(bots: seq<Bot>, name: string) {
    Lookup(bots, name).Some?
  }
}
