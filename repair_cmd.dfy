/**
 * The repair command: uninstall (whatever its result), reinstall, then confirm with a
 * version probe; and the keys of the installed tools, offered for completion.
 */
module RepairCmd {
  import opened Wrappers
  import opened Text
  import Lists
  import Config
  import TM = ToolManager
  import Installer

  /** What runRepair reports; uninstalled says whether the uninstall step succeeded. */
  datatype Outcome =
    | UnknownTool(key: string)
    | InstallFailed(uninstalled: bool, error: Option<string>)
    | Unverified(uninstalled: bool, probeError: string)
    | Complete(uninstalled: bool, version: string)

  /** runRepair as a value: the steps in order, each on the host the earlier ones left. */
  function RepairRun(args: seq<string>, tools: map<string, Config.ToolDefinition>,
                     m: TM.Manager, host: TM.Host, hist: seq<string>): Installer.Step<Outcome>
    requires |args| == 1
  {
    var key := ToLower(args[0]);
    if key !in tools then Installer.Step(UnknownTool(key), [])
    else
      var tool := tools[key];
      var u := Installer.UninstallRun(m, tool, host, hist);
      var r := Installer.InstallRun(m, tool, host, hist + u.ran);
      var ran := u.ran + r.ran;
      if !r.result.success then Installer.Step(InstallFailed(u.result.success, r.result.error), ran)
      else
        match TM.GetInstalledVersion(tool, host, hist + ran)
        case Err(e) => Installer.Step(Unverified(u.result.success, e), ran)
        case Ok(v) => Installer.Step(Complete(u.result.success, v), ran)
  }

  /** runRepair: uninstall, reinstall, verify, stopping at an unknown tool or a failed install. */
  method RunRepair(args: seq<string>, tools: map<string, Config.ToolDefinition>,
                   m: TM.Manager, host: TM.Host, hist: seq<string>) returns (outcome: Outcome, ran: seq<string>)
    requires |args| == 1
    ensures Installer.Step(outcome, ran) == RepairRun(args, tools, m, host, hist)
  {
    var key := ToLower(args[0]);
    if key !in tools {
      return UnknownTool(key), [];
    }
    var tool := tools[key];
    var uninstallResult, uninstallRan := Installer.Uninstall(m, tool, host, hist);
    var installResult, installRan := Installer.Install(m, tool, host, hist + uninstallRan);
    ran := uninstallRan + installRan;
    if !installResult.success {
      return InstallFailed(uninstallResult.success, installResult.error), ran;
    }
    var version := TM.GetInstalledVersion(tool, host, hist + ran);
    if version.Err? {
      return Unverified(uninstallResult.success, version.error), ran;
    }
    outcome := Complete(uninstallResult.success, version.value);
  }

  /**
   * The step order: an unknown tool runs nothing; a known one always runs the uninstall
   * and then the install, whether or not the uninstall succeeded; a failed install ends
   * the repair before verification.
   */
  lemma RepairSteps(args: seq<string>, tools: map<string, Config.ToolDefinition>,
                    m: TM.Manager, host: TM.Host, hist: seq<string>)
    requires |args| == 1
    ensures var s := RepairRun(args, tools, m, host, hist);
      var key := ToLower(args[0]);
      (key !in tools <==> s.result.UnknownTool?)
      && (key !in tools ==> s.ran == [])
      && (key in tools ==>
            var u := Installer.UninstallRun(m, tools[key], host, hist);
            var r := Installer.InstallRun(m, tools[key], host, hist + u.ran);
            s.ran == u.ran + r.ran
            && (s.result.InstallFailed? <==> !r.result.success)
            && (s.result.InstallFailed? ==> s.result.error == r.result.error))
  {
  }

  /**
   * Once the reinstall reports success, the verification probe sees the same host the
   * install's own re-probe saw, so it succeeds: the repair is complete, with the version
   * the install found.
   */
  lemma RepairVerifiedAfterInstall(args: seq<string>, tools: map<string, Config.ToolDefinition>,
                                   m: TM.Manager, host: TM.Host, hist: seq<string>)
    requires |args| == 1
    ensures var s := RepairRun(args, tools, m, host, hist);
      !s.result.Unverified?
      && (s.result.Complete? ==>
            var key := ToLower(args[0]);
            var u := Installer.UninstallRun(m, tools[key], host, hist);
            Installer.InstallRun(m, tools[key], host, hist + u.ran).result.success)
  {
    var key := ToLower(args[0]);
    if key in tools {
      var tool := tools[key];
      var h := hist + Installer.UninstallRun(m, tool, host, hist).ran;
      var r := Installer.InstallRun(m, tool, host, h);
      if r.result.success {
        Installer.InstallUsesBest(m, tool, host, h);
        var best := TM.GetBestInstallMethod(m, tool, host).value;
        Installer.InstallWithMethodReports(tool, TM.MethodName(best.0), best.1, host, h);
        assert r.ran == [best.1];
        assert hist + (Installer.UninstallRun(m, tool, host, hist).ran + r.ran) == h + [best.1];
      }
    }
  }

  /** The probe that decides whether a tool counts as installed. */
  function Probe(host: TM.Host, hist: seq<string>): Config.ToolDefinition -> bool {
    t => TM.GetInstalledVersion(t, host, hist).Ok?
  }

  /** The keys of some tools, in order. */
  function KeysOf(tools: seq<Config.ToolDefinition>): (keys: seq<string>)
    ensures |keys| == |tools| && forall i :: 0 <= i < |tools| ==> keys[i] == tools[i].key
  {
    seq(|tools|, i requires 0 <= i < |tools| => tools[i].key)
  }

  /** getInstalledToolKeys: the keys of the tools whose version probe succeeds, in config order. */
  method GetInstalledToolKeys(tools: seq<Config.ToolDefinition>, host: TM.Host, hist: seq<string>) returns (keys: seq<string>)
    ensures keys == KeysOf(Lists.Filter(tools, Probe(host, hist)))
  {
    keys := [];
    for i := 0 to |tools|
      invariant keys == KeysOf(Lists.Filter(tools[..i], Probe(host, hist)))
    {
      Lists.FilterStep(tools, i, Probe(host, hist));
      var before := Lists.Filter(tools[..i], Probe(host, hist));
      if TM.GetInstalledVersion(tools[i], host, hist).Ok? {
        assert KeysOf(before + [tools[i]]) == keys + [tools[i].key];
        keys := keys + [tools[i].key];
      } else {
        assert before + [] == before;
      }
    }
    assert tools[..|tools|] == tools;
  }

  /** A key is offered exactly when some tool with that key is installed. */
  lemma InstalledKeysMembers(tools: seq<Config.ToolDefinition>, host: TM.Host, hist: seq<string>, k: string)
    ensures k in KeysOf(Lists.Filter(tools, Probe(host, hist)))
      <==> exists t :: t in tools && t.key == k && TM.GetInstalledVersion(t, host, hist).Ok?
  {
    var sel := Lists.Filter(tools, Probe(host, hist));
    Lists.FilterMembers(tools, Probe(host, hist));
    if k in KeysOf(sel) {
      var i :| 0 <= i < |sel| && KeysOf(sel)[i] == k;
      assert sel[i] in sel;
    }
    if exists t :: t in tools && t.key == k && TM.GetInstalledVersion(t, host, hist).Ok? {
      var t :| t in tools && t.key == k && TM.GetInstalledVersion(t, host, hist).Ok?;
      assert t in sel;
      var i :| 0 <= i < |sel| && sel[i] == t;
      assert KeysOf(sel)[i] == k;
    }
  }
}
