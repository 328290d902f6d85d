/**
 * The install command: the checks before a single install, the explicit --method path,
 * the summary of a batch install, and the list of keys offered for completion.
 */
module InstallCmd {
  import opened Wrappers
  import opened Text
  import Lists
  import Config
  import Detector
  import TM = ToolManager
  import Installer

  /** What runInstall reports. */
  datatype Outcome =
    | InstalledAll(succeeded: nat, failed: nat)
    | UnknownTool(key: string)
    | AlreadyInstalled(name: string, version: string)
    | NoMethod(name: string)                              // the tool has no install method here at all
    | MethodUnavailable(name: string, methodName: string) // the requested method gives no command
    | InstalledOne(result: Installer.InstallResult)

  /** Whether an install result counts as a success in the summary. */
  function Succeeded(r: Installer.InstallResult): bool {
    r.success
  }

  /**
   * The counting loop of runInstallAll, over the results in any order: each result is a
   * success or a failure, so the two counters add up to the number of results.
   */
  method CountResults(results: map<string, Installer.InstallResult>) returns (succeeded: nat, failed: nat)
    ensures succeeded == Lists.CountBy(results, results.Keys, Succeeded, true)
    ensures failed == Lists.CountBy(results, results.Keys, Succeeded, false)
    ensures succeeded + failed == |results|
  {
    succeeded, failed := 0, 0;
    var remaining := results.Keys;
    while remaining != {}
      invariant remaining <= results.Keys
      invariant succeeded + Lists.CountBy(results, remaining, Succeeded, true) == Lists.CountBy(results, results.Keys, Succeeded, true)
      invariant failed + Lists.CountBy(results, remaining, Succeeded, false) == Lists.CountBy(results, results.Keys, Succeeded, false)
      invariant succeeded + failed + |remaining| == |results.Keys|
      decreases |remaining|
    {
      var key :| key in remaining;
      Lists.CountByRemove(results, remaining, key, Succeeded, true);
      Lists.CountByRemove(results, remaining, key, Succeeded, false);
      if results[key].success {
        succeeded := succeeded + 1;
      } else {
        failed := failed + 1;
      }
      remaining := remaining - {key};
    }
    assert |results.Keys| == |results|;
  }

  /** The summary of a batch: successes and failures among all its results. */
  ghost function Summary(results: map<string, Installer.InstallResult>): (Outcome) {
    InstalledAll(Lists.CountBy(results, results.Keys, Succeeded, true), Lists.CountBy(results, results.Keys, Succeeded, false))
  }

  /** runInstallAll: installs every tool with the requested methodName, then counts the results. */
  method RunInstallAll(m: TM.Manager, methodName: string, all: seq<Config.ToolDefinition>, host: TM.Host, hist: seq<string>)
    returns (outcome: Outcome, ran: seq<string>)
    ensures var run := Installer.InstallAllRun(m, methodName, all, host, hist);
      outcome == Summary(run.result) && ran == run.ran
      && outcome.succeeded + outcome.failed == |run.result|
  {
    var results;
    results, ran := Installer.InstallAll(m, methodName, all, host, hist);
    var succeeded, failed := CountResults(results);
    outcome := InstalledAll(succeeded, failed);
  }

  /** When every tool is already installed, the batch runs nothing and counts every tool as a success. */
  lemma AllInstalledSummary(m: TM.Manager, methodName: string, all: seq<Config.ToolDefinition>, host: TM.Host, hist: seq<string>)
    requires forall i :: 0 <= i < |all| ==> TM.GetInstalledVersion(all[i], host, hist).Ok?
    ensures var run := Installer.InstallAllRun(m, methodName, all, host, hist);
      run.ran == [] && Summary(run.result) == InstalledAll(|run.result|, 0)
  {
    var results := Installer.InstallAllRun(m, methodName, all, host, hist).result;
    Installer.InstallAllInstalled(m, methodName, all, host, hist);
    Lists.CountByUniform(results, results.Keys, Succeeded, true, false);
    assert |results.Keys| == |results|;
  }

  /**
   * The single-tool path of runInstall with an explicit methodName: the tool must have some
   * install method here, a spec for this OS, and a command for the requested method.
   */
  function InstallWithRequestedMethod(methodName: string, tool: Config.ToolDefinition, m: TM.Manager,
                                      host: TM.Host, hist: seq<string>): Installer.Step<Outcome>
  {
    if TM.GetBestInstallMethod(m, tool, host).None? then Installer.Step(NoMethod(tool.name), [])
    else
      var osKey := Detector.GetOSKey(m.platform);
      if osKey !in tool.install then Installer.Step(MethodUnavailable(tool.name, methodName), [])
      else
        var command := Installer.PreferredCommand(tool.install[osKey], methodName);
        if command == "" then Installer.Step(MethodUnavailable(tool.name, methodName), [])
        else Installer.Step(InstalledOne(Installer.InstallWithMethodResult(tool, methodName, command, host, hist)), [command])
  }

  /** runInstall: the batch for "all"; else unknown tool, already installed, or an install. */
  ghost function RunInstall(args: seq<string>, methodName: string, tools: map<string, Config.ToolDefinition>,
                      all: seq<Config.ToolDefinition>, m: TM.Manager, host: TM.Host, hist: seq<string>): Installer.Step<Outcome>
    requires |args| == 1
  {
    var key := ToLower(args[0]);
    if key == "all" then
      var r := Installer.InstallAllRun(m, methodName, all, host, hist);
      Installer.Step(Summary(r.result), r.ran)
    else if key !in tools then Installer.Step(UnknownTool(key), [])
    else
      var tool := tools[key];
      var probe := TM.GetInstalledVersion(tool, host, hist);
      if probe.Ok? then Installer.Step(AlreadyInstalled(tool.name, probe.value), [])
      else if methodName != "" then InstallWithRequestedMethod(methodName, tool, m, host, hist)
      else
        var r := Installer.InstallRun(m, tool, host, hist);
        Installer.Step(InstalledOne(r.result), r.ran)
  }

  /** The method names the explicit path accepts. */
  const KnownMethods: set<string> := {"winget", "brew", "npm", "pip", "apt"}

  /**
   * A single install happens only for a known tool that is not installed; with an
   * explicit method it needs some best methodName, a spec for this OS and a non-empty command
   * for one of the five accepted names, and it runs exactly that command.
   */
  lemma RunInstallGuards(args: seq<string>, methodName: string, tools: map<string, Config.ToolDefinition>,
                         all: seq<Config.ToolDefinition>, m: TM.Manager, host: TM.Host, hist: seq<string>)
    requires |args| == 1
    ensures var s := RunInstall(args, methodName, tools, all, m, host, hist);
      var key := ToLower(args[0]);
      var osKey := Detector.GetOSKey(m.platform);
      (s.ran != [] ==> key == "all" || s.result.InstalledOne?)
      && (s.result.InstalledOne? ==> key != "all" && key in tools && TM.GetInstalledVersion(tools[key], host, hist).Err?)
      && (s.result.InstalledOne? && methodName != "" ==>
            TM.GetBestInstallMethod(m, tools[key], host).Some? && osKey in tools[key].install
            && methodName in KnownMethods
            && s.ran == [Installer.PreferredCommand(tools[key].install[osKey], methodName)]
            && s.ran[0] != "")
      && (s.result.InstalledOne? && methodName == "" ==> Installer.Step(s.result.result, s.ran) == Installer.InstallRun(m, tools[key], host, hist))
  {
    var s := RunInstall(args, methodName, tools, all, m, host, hist);
    var key := ToLower(args[0]);
    if s.result.InstalledOne? && methodName != "" {
      var spec := tools[key].install[Detector.GetOSKey(m.platform)];
      assert Installer.PreferredCommand(spec, methodName) != "";
    }
  }

  /** getToolKeys: "all" followed by every tool key in config order. */
  method GetToolKeys(tools: seq<Config.ToolDefinition>) returns (keys: seq<string>)
    ensures |keys| == |tools| + 1 && keys[0] == "all"
    ensures forall i :: 0 <= i < |tools| ==> keys[i + 1] == tools[i].key
  {
    var slots := new string[|tools| + 1];
    slots[0] := "all";
    for i := 0 to |tools|
      invariant slots[0] == "all"
      invariant forall k :: 0 <= k < i ==> slots[k + 1] == tools[k].key
    {
      slots[i + 1] := tools[i].key;
    }
    keys := slots[..];
  }
}
