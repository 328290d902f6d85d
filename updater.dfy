/**
 * Updating installed tools: the decision whether an update is needed, the command that
 * performs it (winget's upgrade form on Windows), and the result record.
 */
module Updater {
  import opened Wrappers
  import opened Text
  import opened Detector
  import Config
  import Versions
  import VersionChecker
  import opened ToolManager
  import opened Installer

  /** The result of an update; methodName is "" when no command was run. */
  datatype UpdateResult = UpdateResult(
    success: bool,
    methodName: string,
    oldVersion: string,
    newVersion: string,
    output: string,
    error: Option<string>,
    wasUpToDate: bool)

  /** A failed update record that carries only an error. */
  function Failure(error: string): UpdateResult {
    UpdateResult(false, "", "", "", "", Some(error), false)
  }

  // ---------------------------------------------------------------- the winget upgrade command

  /**
   * replaceWingetInstallWithUpgrade as written: a command longer than six characters that
   * starts with "winget" becomes "winget upgrade" followed by everything from index 14.
   * The slice needs at least 14 characters, which the guard does not ensure.
   */
  function ReplaceWingetInstallWithUpgrade(installCmd: string): (r: string)
    requires |installCmd| > 6 && installCmd[..6] == "winget" ==> |installCmd| >= 14
    ensures |r| == |installCmd|
    ensures !(|installCmd| > 6 && installCmd[..6] == "winget") ==> r == installCmd
  {
    if |installCmd| > 6 && installCmd[..6] == "winget" then "winget upgrade" + installCmd[14..] else installCmd
  }

  /** The guard lets through winget commands of 7 to 13 characters, whose slice from index 14 is out of range. */
  lemma ShortWingetCommandPassesGuard()
    ensures var s := "winget -v";
      |s| > 6 && s[..6] == "winget" && |s| < 14
  {
  }

  /**
   * The evident intent: replace a leading "winget install" with "winget upgrade" and
   * leave every other command alone.
   */
  function UpgradeCommand(installCmd: string): (r: string)
    ensures |r| == |installCmd|
    ensures HasPrefix(installCmd, "winget install") ==> r == "winget upgrade" + installCmd[14..]
    ensures !HasPrefix(installCmd, "winget install") ==> r == installCmd
  {
    if HasPrefix(installCmd, "winget install") then "winget upgrade" + installCmd[14..] else installCmd
  }

  /** Where the code as written does not fail, it agrees with the corrected form on every "winget install" command. */
  lemma UpgradeAgreesWithAsWritten(installCmd: string)
    requires HasPrefix(installCmd, "winget install")
    ensures ReplaceWingetInstallWithUpgrade(installCmd) == UpgradeCommand(installCmd)
  {
    assert installCmd[..6] == "winget install"[..6];
  }

  /** An upgrade command is left as it is. */
  lemma UpgradeIdempotent(installCmd: string)
    ensures UpgradeCommand(UpgradeCommand(installCmd)) == UpgradeCommand(installCmd)
  {
    var r := UpgradeCommand(installCmd);
    if HasPrefix(installCmd, "winget install") {
      assert r[..14] == "winget upgrade";
      assert r[..14][8] != "winget install"[8];
    }
  }

  /** The corrected form turns the config's winget install command into the upgrade command. */
  lemma UpgradeExample()
    ensures UpgradeCommand("winget install --id GitHub.cli") == "winget upgrade --id GitHub.cli"
  {
    var s := "winget install --id GitHub.cli";
    assert s[..14] == "winget install";
    assert HasPrefix(s, "winget install");
    assert s[14..] == " --id GitHub.cli";
    assert UpgradeCommand(s) == "winget upgrade" + " --id GitHub.cli";
  }

  // ---------------------------------------------------------------- one tool

  /** The command Update runs: on Windows with winget, the upgrade form of the spec's winget command. */
  function UpdateCommand(m: Manager, tool: Config.ToolDefinition, host: Host, meth: Method, command: string): string {
    var osKey := GetOSKey(m.platform);
    if IsWindows(host.goos) && meth == WinGet && osKey in tool.install && tool.install[osKey].winget != "" then
      UpgradeCommand(tool.install[osKey].winget)
    else command
  }

  /** Update as a value: the record and the commands run on the host reached after hist. */
  function UpdateRun(m: Manager, tool: Config.ToolDefinition, host: Host, hist: seq<string>): Step<UpdateResult> {
    match GetInstalledVersion(tool, host, hist)
    case Err(e) => Step(Failure("tool not installed: " + e), [])
    case Ok(current) =>
      var latest := VersionChecker.LatestVersion(tool, host.web);
      var newVersion := if latest.Ok? then latest.value else "";
      if latest.Ok? && Versions.CompareVersions(current, latest.value) == Ok(false) then
        Step(UpdateResult(true, "", current, newVersion, tool.name + " is already up to date (v" + current + ")", None, true), [])
      else UpdateByBestMethodResult(m, tool, host, hist, current, newVersion)
  }

  /** The steps of Update once an update is due, as a value. */
  function UpdateByBestMethodResult(m: Manager, tool: Config.ToolDefinition, host: Host, hist: seq<string>,
                                    current: string, newVersion: string): Step<UpdateResult> {
    match GetBestInstallMethod(m, tool, host)
    case None => Step(Failure("no update method available for " + tool.name + " on " + String(m.platform)), [])
    case Some((meth, best)) =>
      RunUpdateCommandResult(tool, host, hist, meth, UpdateCommand(m, tool, host, meth, best), current, newVersion)
  }

  /** The last steps of Update as a value: run the command, then re-probe the version. */
  function RunUpdateCommandResult(tool: Config.ToolDefinition, host: Host, hist: seq<string>, meth: Method,
                                  command: string, current: string, newVersion: string): Step<UpdateResult> {
    var out := Run(host, hist, command);
    if out.err.Some? then
      Step(UpdateResult(false, MethodName(meth), current, newVersion, out.stdout,
                        Some("update failed: " + out.err.value + "\n" + out.stderr), false), [command])
    else
      match GetInstalledVersion(tool, host, hist + [command])
      case Err(e) =>
        Step(UpdateResult(false, MethodName(meth), current, newVersion, out.stdout,
                          Some("update completed but could not verify: " + e), false), [command])
      case Ok(updated) =>
        var output := if current == updated then tool.name + " is already at latest version (v" + updated + ")"
                      else "Successfully updated " + tool.name + " from v" + current + " to v" + updated;
        Step(UpdateResult(true, MethodName(meth), current, updated, output, None, current == updated), [command])
  }

  /** A tool whose version probe fails is not updated: an error, and nothing is run. */
  lemma UpdateNeedsInstalled(m: Manager, tool: Config.ToolDefinition, host: Host, hist: seq<string>)
    requires GetInstalledVersion(tool, host, hist).Err?
    ensures var s := UpdateRun(m, tool, host, hist);
      !s.result.success && s.ran == []
      && s.result.error == Some("tool not installed: " + GetInstalledVersion(tool, host, hist).error)
  {
  }

  /** When the latest version is known and not newer, the tool is reported up to date and nothing is run. */
  lemma UpdateShortCircuit(m: Manager, tool: Config.ToolDefinition, host: Host, hist: seq<string>)
    requires GetInstalledVersion(tool, host, hist).Ok?
    requires var latest := VersionChecker.LatestVersion(tool, host.web);
      latest.Ok? && Versions.CompareVersions(GetInstalledVersion(tool, host, hist).value, latest.value) == Ok(false)
    ensures var s := UpdateRun(m, tool, host, hist);
      s.result.success && s.result.wasUpToDate && s.ran == [] && s.result.error.None?
      && s.result.oldVersion == GetInstalledVersion(tool, host, hist).value
  {
  }

  /**
   * A failed lookup of the latest version, or a failed comparison, does not stop the
   * update: with an install method available exactly one command is run.
   */
  lemma UpdateProceedsWhenUnsure(m: Manager, tool: Config.ToolDefinition, host: Host, hist: seq<string>)
    requires GetInstalledVersion(tool, host, hist).Ok?
    requires var latest := VersionChecker.LatestVersion(tool, host.web);
      latest.Err? || Versions.CompareVersions(GetInstalledVersion(tool, host, hist).value, latest.value).Err?
    requires GetBestInstallMethod(m, tool, host).Some?
    ensures |UpdateRun(m, tool, host, hist).ran| == 1
  {
  }

  /** No install method means an error and nothing run, unless the tool was already up to date. */
  lemma UpdateNeedsMethod(m: Manager, tool: Config.ToolDefinition, host: Host, hist: seq<string>)
    requires GetBestInstallMethod(m, tool, host).None?
    ensures var s := UpdateRun(m, tool, host, hist);
      s.ran == [] && (s.result.success ==> s.result.wasUpToDate)
  {
  }

  /**
   * On Windows the winget method runs the corrected upgrade form of the spec's winget
   * command; for a command that starts with "winget install" that is the command the
   * rewrite as written produces.
   */
  lemma UpdateUsesWingetUpgrade(m: Manager, tool: Config.ToolDefinition, host: Host, hist: seq<string>)
    requires IsWindows(host.goos)
    requires GetBestInstallMethod(m, tool, host).Some? && GetBestInstallMethod(m, tool, host).value.0 == WinGet
    requires |UpdateRun(m, tool, host, hist).ran| == 1
    ensures UpdateRun(m, tool, host, hist).ran == [UpgradeCommand(tool.install[GetOSKey(m.platform)].winget)]
    ensures var cmd := tool.install[GetOSKey(m.platform)].winget;
      HasPrefix(cmd, "winget install") ==> UpdateRun(m, tool, host, hist).ran == [ReplaceWingetInstallWithUpgrade(cmd)]
  {
    var cmd := tool.install[GetOSKey(m.platform)].winget;
    if HasPrefix(cmd, "winget install") {
      UpgradeAgreesWithAsWritten(cmd);
    }
  }

  /**
   * An update that ran a command succeeds exactly when the command and the re-probe both
   * succeed; the new version is then the re-probed one, and the tool was up to date
   * exactly when it equals the old version.
   */
  lemma UpdateSuccessVerified(m: Manager, tool: Config.ToolDefinition, host: Host, hist: seq<string>)
    requires UpdateRun(m, tool, host, hist).ran != []
    ensures var s := UpdateRun(m, tool, host, hist);
      var command := s.ran[0];
      var reprobe := GetInstalledVersion(tool, host, hist + [command]);
      |s.ran| == 1
      && (s.result.success <==> Run(host, hist, command).err.None? && reprobe.Ok?)
      && (s.result.success ==> s.result.newVersion == reprobe.value
                               && (s.result.wasUpToDate <==> s.result.oldVersion == s.result.newVersion))
      && (s.result.success <==> s.result.error.None?)
  {
    var probe := GetInstalledVersion(tool, host, hist);
    var best := GetBestInstallMethod(m, tool, host);
    assert probe.Ok? && best.Some?;
    var command := UpdateCommand(m, tool, host, best.value.0, best.value.1);
    assert UpdateRun(m, tool, host, hist).ran == [command];
  }

  /** Update: the decision sequence, run step by step. */
  method Update(m: Manager, tool: Config.ToolDefinition, host: Host, hist: seq<string>)
    returns (result: UpdateResult, ran: seq<string>)
    ensures Step(result, ran) == UpdateRun(m, tool, host, hist)
  {
    result := UpdateResult(false, "", "", "", "", None, false);
    ran := [];

    var currentVersion := GetInstalledVersion(tool, host, hist);
    if currentVersion.Err? {
      return Failure("tool not installed: " + currentVersion.error), [];
    }
    result := result.(oldVersion := currentVersion.value);

    var latestVersion := VersionChecker.GetLatestVersion(tool, host.web);
    if latestVersion.Ok? {
      result := result.(newVersion := latestVersion.value);
      var hasUpdate := Versions.CompareVersions(currentVersion.value, latestVersion.value);
      if hasUpdate.Ok? && !hasUpdate.value {
        result := result.(success := true, wasUpToDate := true,
                          output := tool.name + " is already up to date (v" + currentVersion.value + ")");
        return;
      }
    }

    result, ran := UpdateByBestMethod(m, tool, host, hist, result.oldVersion, result.newVersion);
  }

  /** Update once an update is due: picks the best method, adjusts a winget command, runs it and re-probes. */
  method UpdateByBestMethod(m: Manager, tool: Config.ToolDefinition, host: Host, hist: seq<string>,
                            current: string, newVersion: string)
    returns (result: UpdateResult, ran: seq<string>)
    ensures Step(result, ran) == UpdateByBestMethodResult(m, tool, host, hist, current, newVersion)
  {
    var best := GetBestInstallMethod(m, tool, host);
    if best.None? {
      return Failure("no update method available for " + tool.name + " on " + String(m.platform)), [];
    }
    var (meth, bestCommand) := best.value;
    var command := WingetUpgrade(m, tool, host, meth, bestCommand);
    result, ran := RunUpdateCommand(tool, host, hist, meth, command, current, newVersion);
  }

  /** Update's Windows special case: a winget install becomes the upgrade form of the spec's winget command. */
  method WingetUpgrade(m: Manager, tool: Config.ToolDefinition, host: Host, meth: Method, best: string)
    returns (command: string)
    ensures command == UpdateCommand(m, tool, host, meth, best)
  {
    command := best;
    if IsWindows(host.goos) && meth == WinGet {
      var osKey := GetOSKey(m.platform);
      if osKey in tool.install && tool.install[osKey].winget != "" {
        command := UpgradeCommand(tool.install[osKey].winget);
      }
    }
  }

  /** Update's last steps: runs the command, then re-probes the version to confirm the update. */
  method RunUpdateCommand(tool: Config.ToolDefinition, host: Host, hist: seq<string>, meth: Method,
                          command: string, current: string, newVersion: string)
    returns (result: UpdateResult, ran: seq<string>)
    ensures Step(result, ran) == RunUpdateCommandResult(tool, host, hist, meth, command, current, newVersion)
  {
    result := UpdateResult(false, "", current, newVersion, "", None, false);
    var out := Run(host, hist, command);
    ran := [command];
    result := result.(output := out.stdout, methodName := MethodName(meth));
    if out.err.Some? {
      result := result.(success := false, error := Some("update failed: " + out.err.value + "\n" + out.stderr));
      return;
    }

    var reprobe := GetInstalledVersion(tool, host, hist + ran);
    if reprobe.Err? {
      result := result.(success := false, error := Some("update completed but could not verify: " + reprobe.error));
      return;
    }

    result := result.(success := true, newVersion := reprobe.value);
    if result.oldVersion == result.newVersion {
      result := result.(wasUpToDate := true,
                        output := tool.name + " is already at latest version (v" + reprobe.value + ")");
    } else {
      result := result.(output := "Successfully updated " + tool.name + " from v" + result.oldVersion + " to v" + result.newVersion);
    }
  }

  // ---------------------------------------------------------------- all tools

  /** UpdateAll's step for one tool: "not installed" when the probe fails, otherwise Update. */
  function UpdateAllEntry(m: Manager, tool: Config.ToolDefinition, host: Host, hist: seq<string>): Step<UpdateResult> {
    if GetInstalledVersion(tool, host, hist).Err? then Step(Failure("not installed"), [])
    else UpdateRun(m, tool, host, hist)
  }

  /** UpdateAll as a value, over the tools in config order. */
  function UpdateAllRun(m: Manager, tools: seq<Config.ToolDefinition>, host: Host, hist: seq<string>): Step<map<string, UpdateResult>> {
    RunAll(tools, hist, (t, h) => UpdateAllEntry(m, t, host, h))
  }

  /** UpdateAll: each tool in turn, skipping those that are not installed. */
  method UpdateAll(m: Manager, tools: seq<Config.ToolDefinition>, host: Host, hist: seq<string>)
    returns (results: map<string, UpdateResult>, ran: seq<string>)
    ensures Step(results, ran) == UpdateAllRun(m, tools, host, hist)
  {
    results := map[];
    ran := [];
    var i := 0;
    while i < |tools|
      invariant 0 <= i <= |tools|
      invariant Step(results, ran) == UpdateAllRun(m, tools[..i], host, hist)
    {
      var t := tools[i];
      assert tools[..i + 1][..i] == tools[..i];
      i := i + 1;
      if GetInstalledVersion(t, host, hist + ran).Err? {
        results := results[t.key := Failure("not installed")];
        continue;
      }
      var r, more := Update(m, t, host, hist + ran);
      results := results[t.key := r];
      ran := ran + more;
    }
    assert tools[..i] == tools;
  }

  /** UpdateAll gives exactly one result per tool key. */
  lemma UpdateAllKeys(m: Manager, tools: seq<Config.ToolDefinition>, host: Host, hist: seq<string>)
    ensures forall k :: (k in UpdateAllRun(m, tools, host, hist).result
                         <==> exists i :: 0 <= i < |tools| && tools[i].key == k)
  {
    RunAllKeys(tools, hist, (t, h) => UpdateAllEntry(m, t, host, h));
  }

  /** When no tool is installed, UpdateAll runs nothing and reports each as not installed. */
  lemma UpdateAllNoneInstalled(m: Manager, tools: seq<Config.ToolDefinition>, host: Host, hist: seq<string>)
    requires forall i :: 0 <= i < |tools| ==> GetInstalledVersion(tools[i], host, hist).Err?
    ensures UpdateAllRun(m, tools, host, hist).ran == []
    ensures forall k :: (k in UpdateAllRun(m, tools, host, hist).result
                         ==> UpdateAllRun(m, tools, host, hist).result[k] == Failure("not installed"))
  {
    RunAllUniform(tools, hist, (t, h) => UpdateAllEntry(m, t, host, h), Failure("not installed"));
  }
}
