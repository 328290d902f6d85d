/**
 * Installing and uninstalling tools: which command is run, and the result record that
 * reports it. Commands that change the host are recorded in order; a probe of the
 * installed version sees the host as left by the commands recorded before it.
 */
module Installer {
  import opened Wrappers
  import opened Detector
  import PM = PackageManagers
  import Config
  import opened ToolManager

  /** The result of an install or uninstall; methodName is "" when no method was chosen. */
  datatype InstallResult = InstallResult(success: bool, methodName: string, output: string, error: Option<string>)

  /** An operation's result together with the state-changing commands it ran, in order. */
  datatype Step<+R> = Step(result: R, ran: seq<string>)

  /** The host's reply to a state-changing shell command run after the commands in hist. */
  function Run(host: Host, hist: seq<string>, command: string): PM.ExecResult {
    host.exec(hist, PM.ShellCommand(host.goos, command))
  }

  // ---------------------------------------------------------------- one tool

  /** InstallWithMethod as a value: the record after running command on the host reached after hist. */
  function InstallWithMethodResult(tool: Config.ToolDefinition, methodName: string, command: string, host: Host, hist: seq<string>): InstallResult {
    var out := Run(host, hist, command);
    var output := if out.stdout == "" then out.stderr else out.stdout;
    if out.err.Some? then
      InstallResult(false, methodName, output, Some("installation failed: " + out.err.value + "\n" + out.stderr))
    else
      match GetInstalledVersion(tool, host, hist + [command])
      case Err(e) => InstallResult(false, methodName, output, Some("installation completed but tool not found: " + e))
      case Ok(v) => InstallResult(true, methodName, "Successfully installed " + tool.name + " version " + v, None)
  }

  /**
   * What an install attempt reports: the method always; success exactly when the command
   * and the re-probe both succeed, and then the probed version; otherwise an error and
   * the command's stdout, or its stderr when stdout is empty.
   */
  lemma InstallWithMethodReports(tool: Config.ToolDefinition, methodName: string, command: string, host: Host, hist: seq<string>)
    ensures var r := InstallWithMethodResult(tool, methodName, command, host, hist);
      var out := Run(host, hist, command);
      var probe := GetInstalledVersion(tool, host, hist + [command]);
      r.methodName == methodName
      && (r.success <==> out.err.None? && probe.Ok?)
      && (r.success <==> r.error.None?)
      && (r.success ==> r.output == "Successfully installed " + tool.name + " version " + probe.value)
      && (!r.success ==> r.output == (if out.stdout == "" then out.stderr else out.stdout))
      && (out.err.Some? ==> r.error == Some("installation failed: " + out.err.value + "\n" + out.stderr))
      && (out.err.None? && probe.Err? ==> r.error == Some("installation completed but tool not found: " + probe.error))
  {
  }

  /** InstallWithMethod: runs the command, then probes the installed version to confirm. */
  method InstallWithMethod(tool: Config.ToolDefinition, methodName: string, command: string, host: Host, hist: seq<string>)
    returns (result: InstallResult, ran: seq<string>)
    ensures result == InstallWithMethodResult(tool, methodName, command, host, hist)
    ensures ran == [command]
  {
    result := InstallResult(false, methodName, "", None);
    var out := Run(host, hist, command);
    ran := [command];
    result := result.(output := out.stdout);
    if result.output == "" {
      result := result.(output := out.stderr);
    }
    if out.err.Some? {
      result := result.(success := false, error := Some("installation failed: " + out.err.value + "\n" + out.stderr));
      return;
    }
    var version := GetInstalledVersion(tool, host, hist + ran);
    if version.Err? {
      result := result.(success := false, error := Some("installation completed but tool not found: " + version.error));
      return;
    }
    result := result.(success := true, output := "Successfully installed " + tool.name + " version " + version.value);
  }

  /** Install as a value: the preferred method's command, or an error when there is none. */
  function InstallRun(m: Manager, tool: Config.ToolDefinition, host: Host, hist: seq<string>): Step<InstallResult> {
    match GetBestInstallMethod(m, tool, host)
    case None =>
      Step(InstallResult(false, "", "", Some("no installation method available for " + tool.name + " on " + String(m.platform))), [])
    case Some((meth, command)) =>
      Step(InstallWithMethodResult(tool, MethodName(meth), command, host, hist), [command])
  }

  /**
   * Install fails without running anything when no method is offered; otherwise it runs
   * exactly the preferred method's command and reports that method.
   */
  lemma InstallUsesBest(m: Manager, tool: Config.ToolDefinition, host: Host, hist: seq<string>)
    ensures var s := InstallRun(m, tool, host, hist);
      var best := GetBestInstallMethod(m, tool, host);
      (best.None? ==> !s.result.success && s.ran == [] && s.result.error.Some?)
      && (best.Some? ==> s.ran == [best.value.1] && best.value.1 != ""
                         && s.result.methodName == MethodName(best.value.0))
  {
    var best := GetBestInstallMethod(m, tool, host);
    if best.Some? {
      InstallWithMethodReports(tool, MethodName(best.value.0), best.value.1, host, hist);
    }
  }

  /** Install: the best available method, or an error record. */
  method Install(m: Manager, tool: Config.ToolDefinition, host: Host, hist: seq<string>)
    returns (result: InstallResult, ran: seq<string>)
    ensures Step(result, ran) == InstallRun(m, tool, host, hist)
  {
    var best := GetBestInstallMethod(m, tool, host);
    if best.None? {
      result := InstallResult(false, "", "", Some("no installation method available for " + tool.name + " on " + String(m.platform)));
      ran := [];
      return;
    }
    var (meth, command) := best.value;
    result, ran := InstallWithMethod(tool, MethodName(meth), command, host, hist);
  }

  /**
   * The command a spec gives for a method named by the user; only winget, brew, npm, pip
   * and apt are recognised, anything else gives "".
   */
  function PreferredCommand(spec: Config.InstallSpec, name: string): string {
    if name == "winget" then spec.winget
    else if name == "brew" then spec.brew
    else if name == "npm" then spec.npm
    else if name == "pip" then spec.pip
    else if name == "apt" then spec.apt
    else ""
  }

  /** The recognised names give the spec's command for that method; pacman and script are not recognised. */
  lemma PreferredCommandByName(spec: Config.InstallSpec, meth: Method)
    ensures meth in {WinGet, Brew, Npm, Pip, Apt} ==> PreferredCommand(spec, MethodName(meth)) == SpecCommand(spec, meth)
    ensures meth in {Pacman, Script} ==> PreferredCommand(spec, MethodName(meth)) == ""
  {
  }

  // ---------------------------------------------------------------- all tools

  /**
   * The results of running entry on each tool in turn, each on the host left by the
   * commands before it, keyed by tool key (a later tool with the same key overwrites).
   */
  function RunAll<R>(tools: seq<Config.ToolDefinition>, hist: seq<string>,
                     entry: (Config.ToolDefinition, seq<string>) -> Step<R>): Step<map<string, R>>
    decreases |tools|
  {
    if tools == [] then Step(map[], [])
    else
      var prev := RunAll(tools[..|tools| - 1], hist, entry);
      var t := tools[|tools| - 1];
      var e := entry(t, hist + prev.ran);
      Step(prev.result[t.key := e.result], prev.ran + e.ran)
  }

  /** One entry per tool key, and no other. */
  lemma {:induction false} RunAllKeys<R>(tools: seq<Config.ToolDefinition>, hist: seq<string>,
                                         entry: (Config.ToolDefinition, seq<string>) -> Step<R>)
    ensures forall k :: k in RunAll(tools, hist, entry).result <==> exists i :: 0 <= i < |tools| && tools[i].key == k
  {
    if tools != [] {
      var init := tools[..|tools| - 1];
      RunAllKeys(init, hist, entry);
      forall k
        ensures k in RunAll(tools, hist, entry).result <==> exists i :: 0 <= i < |tools| && tools[i].key == k
      {
        if exists i :: 0 <= i < |tools| && tools[i].key == k {
          var i :| 0 <= i < |tools| && tools[i].key == k;
          if i < |tools| - 1 {
            assert init[i] == tools[i];
          }
        }
        if k in RunAll(init, hist, entry).result {
          var i :| 0 <= i < |init| && init[i].key == k;
          assert tools[i] == init[i];
        }
      }
    }
  }

  /** When every tool's entry runs nothing and gives v, the batch runs nothing and every entry is v. */
  lemma {:induction false} RunAllUniform<R>(tools: seq<Config.ToolDefinition>, hist: seq<string>,
                                            entry: (Config.ToolDefinition, seq<string>) -> Step<R>, v: R)
    requires forall i :: 0 <= i < |tools| ==> entry(tools[i], hist) == Step(v, [])
    ensures RunAll(tools, hist, entry).ran == []
    ensures forall k :: k in RunAll(tools, hist, entry).result ==> RunAll(tools, hist, entry).result[k] == v
  {
    if tools != [] {
      var init := tools[..|tools| - 1];
      assert forall i :: 0 <= i < |init| ==> init[i] == tools[i];
      RunAllUniform(init, hist, entry, v);
      assert hist + RunAll(init, hist, entry).ran == hist;
    }
  }

  /** InstallAll's step for one tool: nothing for an installed tool, then the preferred method, then Install. */
  function InstallAllEntry(m: Manager, preferred: string, tool: Config.ToolDefinition, host: Host, hist: seq<string>): Step<InstallResult> {
    if GetInstalledVersion(tool, host, hist).Ok? then
      Step(InstallResult(true, "", "Already installed", None), [])
    else
      var osKey := GetOSKey(m.platform);
      var command := if preferred != "" && osKey in tool.install then PreferredCommand(tool.install[osKey], preferred) else "";
      if command != "" then Step(InstallWithMethodResult(tool, preferred, command, host, hist), [command])
      else InstallRun(m, tool, host, hist)
  }

  /** InstallAll as a value, over the tools in config order. */
  function InstallAllRun(m: Manager, preferred: string, tools: seq<Config.ToolDefinition>, host: Host, hist: seq<string>): Step<map<string, InstallResult>> {
    RunAll(tools, hist, (t, h) => InstallAllEntry(m, preferred, t, host, h))
  }

  /**
   * InstallAll: for each tool in turn, skips it when installed, uses the preferred
   * method's command when the spec gives one, and otherwise installs it the usual way.
   */
  method InstallAll(m: Manager, preferred: string, tools: seq<Config.ToolDefinition>, host: Host, hist: seq<string>)
    returns (results: map<string, InstallResult>, ran: seq<string>)
    ensures Step(results, ran) == InstallAllRun(m, preferred, tools, host, hist)
  {
    results := map[];
    ran := [];
    var i := 0;
    while i < |tools|
      invariant 0 <= i <= |tools|
      invariant Step(results, ran) == InstallAllRun(m, preferred, tools[..i], host, hist)
    {
      var t := tools[i];
      assert tools[..i + 1][..i] == tools[..i];
      i := i + 1;
      if GetInstalledVersion(t, host, hist + ran).Ok? {
        results := results[t.key := InstallResult(true, "", "Already installed", None)];
        continue;
      }
      if preferred != "" {
        var osKey := GetOSKey(m.platform);
        if osKey in t.install {
          var spec := t.install[osKey];
          var command := PreferredCommand(spec, preferred);
          if command != "" {
            var r, more := InstallWithMethod(t, preferred, command, host, hist + ran);
            results := results[t.key := r];
            ran := ran + more;
            continue;
          }
        }
      }
      var r, more := Install(m, t, host, hist + ran);
      results := results[t.key := r];
      ran := ran + more;
    }
    assert tools[..i] == tools;
  }

  /** InstallAll gives exactly one result per tool key. */
  lemma InstallAllKeys(m: Manager, preferred: string, tools: seq<Config.ToolDefinition>, host: Host, hist: seq<string>)
    ensures forall k :: (k in InstallAllRun(m, preferred, tools, host, hist).result
                         <==> exists i :: 0 <= i < |tools| && tools[i].key == k)
  {
    RunAllKeys(tools, hist, (t, h) => InstallAllEntry(m, preferred, t, host, h));
  }

  /** When every tool is already installed, InstallAll runs nothing and reports each as already installed. */
  lemma InstallAllInstalled(m: Manager, preferred: string, tools: seq<Config.ToolDefinition>, host: Host, hist: seq<string>)
    requires forall i :: 0 <= i < |tools| ==> GetInstalledVersion(tools[i], host, hist).Ok?
    ensures InstallAllRun(m, preferred, tools, host, hist).ran == []
    ensures forall k :: (k in InstallAllRun(m, preferred, tools, host, hist).result
                         ==> InstallAllRun(m, preferred, tools, host, hist).result[k] == InstallResult(true, "", "Already installed", None))
  {
    var entry := (t, h) => InstallAllEntry(m, preferred, t, host, h);
    RunAllUniform(tools, hist, entry, InstallResult(true, "", "Already installed", None));
  }

  /**
   * An installed tool is skipped; an uninstalled one uses the preferred method when the
   * spec has a command for it, and the usual best method otherwise.
   */
  lemma InstallAllEntryChoice(m: Manager, preferred: string, tool: Config.ToolDefinition, host: Host, hist: seq<string>)
    ensures var s := InstallAllEntry(m, preferred, tool, host, hist);
      var osKey := GetOSKey(m.platform);
      (GetInstalledVersion(tool, host, hist).Ok? ==> s.ran == [] && s.result.success)
      && (GetInstalledVersion(tool, host, hist).Err? && preferred != "" && osKey in tool.install
          && PreferredCommand(tool.install[osKey], preferred) != ""
          ==> s.ran == [PreferredCommand(tool.install[osKey], preferred)] && s.result.methodName == preferred)
      && (GetInstalledVersion(tool, host, hist).Err?
          && (preferred == "" || osKey !in tool.install || PreferredCommand(tool.install[osKey], preferred) == "")
          ==> s == InstallRun(m, tool, host, hist))
  {
  }

  // ---------------------------------------------------------------- uninstall

  /** The uninstall methods in the order they are tried: winget only on Windows, then brew, npm, pip. */
  function UninstallOrder(goos: string): seq<Method> {
    (if IsWindows(goos) then [WinGet] else []) + [Brew, Npm, Pip]
  }

  /** The first method among ms for which the spec has a command. */
  function FirstDefined(ms: seq<Method>, spec: Config.InstallSpec): (r: Option<(Method, string)>)
    ensures r.None? <==> forall i :: 0 <= i < |ms| ==> SpecCommand(spec, ms[i]) == ""
    ensures r.Some? ==> r.value.0 in ms && r.value.1 == SpecCommand(spec, r.value.0) != ""
  {
    if ms == [] then None
    else if SpecCommand(spec, ms[0]) != "" then Some((ms[0], SpecCommand(spec, ms[0])))
    else
      var rest := FirstDefined(ms[1..], spec);
      assert forall i :: 0 <= i < |ms| - 1 ==> ms[1..][i] == ms[i + 1];
      rest
  }

  /** The uninstall method and command chosen from the spec, as the if-else chain picks them. */
  function UninstallChoice(spec: Config.InstallSpec, goos: string): Option<(Method, string)> {
    if IsWindows(goos) && spec.winget != "" then Some((WinGet, spec.winget))
    else if spec.brew != "" then Some((Brew, spec.brew))
    else if spec.npm != "" then Some((Npm, spec.npm))
    else if spec.pip != "" then Some((Pip, spec.pip))
    else None
  }

  /** The chain picks the first method with a command in UninstallOrder; apt, pacman and script are never used. */
  lemma {:induction false} UninstallChoiceIsFirstDefined(spec: Config.InstallSpec, goos: string)
    ensures UninstallChoice(spec, goos) == FirstDefined(UninstallOrder(goos), spec)
    ensures UninstallChoice(spec, goos).Some? ==> UninstallChoice(spec, goos).value.0 in {WinGet, Brew, Npm, Pip}
  {
    var tail := [Brew] + ([Npm] + ([Pip] + []));
    assert [Pip] + [] == [Pip];
    FirstDefinedCons(Pip, [], spec);
    FirstDefinedCons(Npm, [Pip] + [], spec);
    FirstDefinedCons(Brew, [Npm] + ([Pip] + []), spec);
    if IsWindows(goos) {
      assert UninstallOrder(goos) == [WinGet] + tail;
      FirstDefinedCons(WinGet, tail, spec);
    } else {
      assert UninstallOrder(goos) == tail;
    }
  }

  /** FirstDefined looks at the head first. */
  lemma FirstDefinedCons(x: Method, rest: seq<Method>, spec: Config.InstallSpec)
    ensures FirstDefined([x] + rest, spec)
      == if SpecCommand(spec, x) != "" then Some((x, SpecCommand(spec, x))) else FirstDefined(rest, spec)
  {
    assert ([x] + rest)[1..] == rest;
  }

  /** Uninstall as a value. */
  function UninstallRun(m: Manager, tool: Config.ToolDefinition, host: Host, hist: seq<string>): Step<InstallResult> {
    var osKey := GetOSKey(m.platform);
    if osKey !in tool.uninstall then
      Step(InstallResult(false, "", "", Some("no uninstall method available for " + tool.name + " on " + String(m.platform))), [])
    else
      match UninstallChoice(tool.uninstall[osKey], host.goos)
      case None => Step(InstallResult(false, "", "", Some("no uninstall command found for " + tool.name)), [])
      case Some((meth, command)) =>
        var out := Run(host, hist, command);
        if out.err.Some? then
          Step(InstallResult(false, MethodName(meth), out.stdout, Some("uninstall failed: " + out.err.value + "\n" + out.stderr)), [command])
        else
          Step(InstallResult(true, MethodName(meth), "Successfully uninstalled " + tool.name, None), [command])
  }

  /**
   * Uninstall fails without running anything when the OS has no uninstall spec or the
   * spec has no winget (Windows), brew, npm or pip command; otherwise it runs exactly the
   * chosen command and succeeds exactly when that command does.
   */
  lemma UninstallReports(m: Manager, tool: Config.ToolDefinition, host: Host, hist: seq<string>)
    ensures var s := UninstallRun(m, tool, host, hist);
      var osKey := GetOSKey(m.platform);
      (osKey !in tool.uninstall ==> !s.result.success && s.ran == [] && s.result.error.Some?)
      && (osKey in tool.uninstall && UninstallChoice(tool.uninstall[osKey], host.goos).None?
          ==> s.result == InstallResult(false, "", "", Some("no uninstall command found for " + tool.name)) && s.ran == [])
      && (osKey in tool.uninstall && UninstallChoice(tool.uninstall[osKey], host.goos).Some?
          ==> var c := UninstallChoice(tool.uninstall[osKey], host.goos).value;
              s.ran == [c.1] && s.result.methodName == MethodName(c.0)
              && (s.result.success <==> Run(host, hist, c.1).err.None?))
  {
  }

  /** Uninstall: picks one command from the OS's uninstall spec and runs it. */
  method Uninstall(m: Manager, tool: Config.ToolDefinition, host: Host, hist: seq<string>)
    returns (result: InstallResult, ran: seq<string>)
    ensures Step(result, ran) == UninstallRun(m, tool, host, hist)
  {
    result := InstallResult(false, "", "", None);
    ran := [];
    var osKey := GetOSKey(m.platform);
    if osKey !in tool.uninstall {
      return InstallResult(false, "", "", Some("no uninstall method available for " + tool.name + " on " + String(m.platform))), [];
    }
    var uninstallSpec := tool.uninstall[osKey];
    var command := "";
    var meth := "";
    if IsWindows(host.goos) && uninstallSpec.winget != "" {
      meth := "winget";
      command := uninstallSpec.winget;
    } else if uninstallSpec.brew != "" {
      meth := "brew";
      command := uninstallSpec.brew;
    } else if uninstallSpec.npm != "" {
      meth := "npm";
      command := uninstallSpec.npm;
    } else if uninstallSpec.pip != "" {
      meth := "pip";
      command := uninstallSpec.pip;
    }
    if command == "" {
      return InstallResult(false, "", "", Some("no uninstall command found for " + tool.name)), [];
    }
    var out := Run(host, hist, command);
    ran := [command];
    result := result.(output := out.stdout, methodName := meth);
    if out.err.Some? {
      result := result.(success := false, error := Some("uninstall failed: " + out.err.value + "\n" + out.stderr));
      return;
    }
    result := result.(success := true, output := "Successfully uninstalled " + tool.name);
  }
}
