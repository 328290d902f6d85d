/**
 * The interactive prompt mode: the compact status table (sorted by status), the command
 * dispatch with its aliases, and the install, update, repair and run handlers with the
 * checks they make before changing anything.
 */
module Interactive {
  import opened Wrappers
  import opened Text
  import Prompt
  import Menus
  import Config
  import PM = PackageManagers
  import TM = ToolManager
  import Installer
  import Updater
  import Detector

  // ---------------------------------------------------------------- compact status

  /** statusPriority: 0 for up to date, 1 for an update available, 2 for not installed. */
  function StatusPriority(s: TM.ToolStatus): (p: nat)
    ensures p <= 2
  {
    if s.isInstalled && !s.hasUpdate then 0
    else if s.isInstalled && s.hasUpdate then 1
    else 2
  }

  /** The three status symbols of the compact table (colours are not modelled). */
  datatype Mark = SuccessMark | UpdateMark | ErrorMark

  /** getStatusSymbolCompact. */
  function CompactSymbol(s: TM.ToolStatus): Mark {
    if !s.isInstalled then ErrorMark
    else if s.hasUpdate then UpdateMark
    else SuccessMark
  }

  /** The symbol and the sort priority put every status in the same class. */
  lemma SymbolMatchesPriority(s: TM.ToolStatus)
    ensures CompactSymbol(s) == [SuccessMark, UpdateMark, ErrorMark][StatusPriority(s)]
    ensures StatusPriority(s) == 2 <==> !s.isInstalled
  {
  }

  /** Statuses in non-decreasing priority: up to date, then updates, then missing. */
  predicate SortedByPriority(s: seq<TM.ToolStatus>) {
    forall i, j :: 0 <= i < j < |s| ==> StatusPriority(s[i]) <= StatusPriority(s[j])
  }

  /** Exchanges two slots. */
  method Swap(a: array<TM.ToolStatus>, i: nat, j: nat)
    requires i < a.Length && j < a.Length
    modifies a
    ensures a[..] == old(a[..])[i := old(a[j])][j := old(a[i])]
    ensures multiset(a[..]) == multiset(old(a[..]))
  {
    a[i], a[j] := a[j], a[i];
  }

  /**
   * The priority sort of displayCompactStatus, in place. sort.Slice is not stable, so only
   * the order of the classes is fixed; this three-way partition is one such sort.
   */
  method SortByPriority(a: array<TM.ToolStatus>)
    modifies a
    ensures SortedByPriority(a[..])
    ensures multiset(a[..]) == multiset(old(a[..]))
  {
    var lo, mid, hi := 0, 0, a.Length;
    while mid < hi
      invariant 0 <= lo <= mid <= hi <= a.Length
      invariant Banded(a[..], lo, mid, hi)
      invariant multiset(a[..]) == multiset(old(a[..]))
      decreases hi - mid
    {
      ghost var s := a[..];
      var p := StatusPriority(a[mid]);
      if p == 0 {
        Swap(a, lo, mid);
        BandedLow(s, lo, mid, hi);
        lo, mid := lo + 1, mid + 1;
      } else if p == 1 {
        BandedMiddle(s, lo, mid, hi);
        mid := mid + 1;
      } else {
        hi := hi - 1;
        Swap(a, mid, hi);
        BandedHigh(s, lo, mid, hi);
      }
    }
    RegionsSorted(a[..], lo, mid);
  }

  /** The partition's state: priority 0 below lo, 1 from lo to mid, 2 from hi on; mid..hi is unsorted. */
  ghost predicate Banded(s: seq<TM.ToolStatus>, lo: nat, mid: nat, hi: nat)
    requires lo <= mid <= hi <= |s|
  {
    && (forall k :: 0 <= k < lo ==> StatusPriority(s[k]) == 0)
    && (forall k :: lo <= k < mid ==> StatusPriority(s[k]) == 1)
    && (forall k :: hi <= k < |s| ==> StatusPriority(s[k]) == 2)
  }

  /** A priority-0 entry at mid swapped down to lo extends the low band. */
  lemma BandedLow(s: seq<TM.ToolStatus>, lo: nat, mid: nat, hi: nat)
    requires lo <= mid < hi <= |s| && Banded(s, lo, mid, hi) && StatusPriority(s[mid]) == 0
    ensures Banded(s[lo := s[mid]][mid := s[lo]], lo + 1, mid + 1, hi)
  {
  }

  /** A priority-1 entry at mid extends the middle band. */
  lemma BandedMiddle(s: seq<TM.ToolStatus>, lo: nat, mid: nat, hi: nat)
    requires lo <= mid < hi <= |s| && Banded(s, lo, mid, hi) && StatusPriority(s[mid]) == 1
    ensures Banded(s, lo, mid + 1, hi)
  {
  }

  /** A priority-2 entry at mid swapped up to hi - 1 extends the high band. */
  lemma BandedHigh(s: seq<TM.ToolStatus>, lo: nat, mid: nat, hi: nat)
    requires lo <= mid <= hi < |s| && Banded(s, lo, mid, hi + 1) && StatusPriority(s[mid]) == 2
    ensures Banded(s[mid := s[hi]][hi := s[mid]], lo, mid, hi)
  {
  }

  /** Three consecutive regions of priority 0, 1 and 2 are in priority order. */
  lemma RegionsSorted(s: seq<TM.ToolStatus>, lo: nat, mid: nat)
    requires lo <= mid <= |s| && Banded(s, lo, mid, mid)
    ensures SortedByPriority(s)
  {
  }

  /** One row of the compact table: symbol and name, current, latest, run-with. */
  datatype CompactRow = CompactRow(mark: Mark, name: string, current: string, latest: string, runWith: string)

  /** The row of one status: "-" for an unknown installed or latest version. */
  function CompactRowOf(s: TM.ToolStatus): (row: CompactRow)
    ensures row.mark == CompactSymbol(s) && row.name == s.tool.name && row.runWith == s.tool.command
  {
    CompactRow(CompactSymbol(s), s.tool.name,
               if s.isInstalled then s.installedVer else "-",
               if s.latestVer != "" then s.latestVer else "-",
               s.tool.command)
  }

  /**
   * For a status record as GetToolStatus builds it, the current column is "-" exactly
   * when the tool is not installed, and otherwise the installed version.
   */
  lemma CompactRowColumns(m: TM.Manager, tool: Config.ToolDefinition, host: TM.Host, hist: seq<string>)
    ensures var s := TM.Status(m, tool, host, hist);
      var row := CompactRowOf(s);
      var probe := TM.GetInstalledVersion(tool, host, hist);
      (row.current == "-" <==> probe.Err? || probe.value == "-")
      && (probe.Ok? ==> row.current == probe.value)
      && (row.latest == "-" <==> s.latestVer == "" || s.latestVer == "-")
  {
    TM.StatusFields(m, tool, host, hist);
  }

  /** displayCompactStatus: sorts the statuses in place, then lists one row per status in the sorted order. */
  method DisplayCompactStatus(statuses: array<TM.ToolStatus>) returns (rows: seq<CompactRow>)
    modifies statuses
    ensures SortedByPriority(statuses[..])
    ensures multiset(statuses[..]) == multiset(old(statuses[..]))
    ensures |rows| == statuses.Length
    ensures forall i :: 0 <= i < |rows| ==> rows[i] == CompactRowOf(statuses[i])
  {
    SortByPriority(statuses);
    rows := [];
    for i := 0 to statuses.Length
      invariant |rows| == i
      invariant forall k :: 0 <= k < i ==> rows[k] == CompactRowOf(statuses[k])
    {
      rows := rows + [CompactRowOf(statuses[i])];
    }
  }

  // ---------------------------------------------------------------- command dispatch

  /** The commands of prompt mode; Unknown is anything else (a warning is shown). */
  datatype Command = Help | ShowStatus | InstallTool | UpdateTool | RepairTool | RunTool | ShowEnv | Exit | Unknown

  /** The command a lower-cased command word selects, with or without one leading "/". */
  function Classify(cmd: string): Command {
    var name := TrimPrefix(cmd, "/");
    if name == "help" || name == "h" || name == "?" then Help
    else if name == "status" || name == "s" then ShowStatus
    else if name == "install" || name == "i" then InstallTool
    else if name == "update" || name == "u" then UpdateTool
    else if name == "repair" || name == "r" then RepairTool
    else if name == "run" then RunTool
    else if name == "env" || name == "e" then ShowEnv
    else if name == "exit" || name == "quit" || name == "q" then Exit
    else Unknown
  }

  /** Every accepted spelling of each command, without the optional slash. */
  const Aliases: map<string, Command> := map[
    "help" := Help, "h" := Help, "?" := Help,
    "status" := ShowStatus, "s" := ShowStatus,
    "install" := InstallTool, "i" := InstallTool,
    "update" := UpdateTool, "u" := UpdateTool,
    "repair" := RepairTool, "r" := RepairTool,
    "run" := RunTool,
    "env" := ShowEnv, "e" := ShowEnv,
    "exit" := Exit, "quit" := Exit, "q" := Exit]

  /** Dispatch is a lookup in the alias table after dropping one leading slash; anything else is Unknown. */
  lemma ClassifyIsAliasLookup(cmd: string)
    ensures var name := TrimPrefix(cmd, "/");
      Classify(cmd) == if name in Aliases then Aliases[name] else Unknown
  {
    var name := TrimPrefix(cmd, "/");
    if name !in Aliases {
      assert Classify(cmd) == Unknown;
    }
  }

  /** A leading slash is optional: "/x" and "x" select the same command when x has no slash of its own. */
  lemma SlashIsOptional(c: string)
    requires c == [] || c[0] != '/'
    ensures Classify("/" + c) == Classify(c)
  {
    assert TrimPrefix("/" + c, "/") == c;
    assert !("/" <= c);
  }

  /** What the loop takes from one line: nothing for a blank line, else the command and its arguments. */
  function LineCommand(read: Result<string>): Option<(Command, seq<string>)> {
    var parsed := Prompt.ParseCommand(Prompt.PromptCommand(read));
    if parsed.0 == "" then None else Some((Classify(parsed.0), parsed.1))
  }

  /** A line of words selects the command of its first word, lower-cased, with the other words as arguments. */
  lemma LineOfWords(ws: seq<string>)
    requires ws != [] && Prompt.Words(ws)
    ensures LineCommand(Ok(Join(ws, ' '))) == Some((Classify(ToLower(ws[0])), ws[1..]))
  {
    Prompt.PromptThenParse(Join(ws, ' '));
    Prompt.ParseWords(ws);
  }

  /** The commands of all lines, in order. */
  function LineCommands(inputs: seq<Result<string>>): (cs: seq<Option<(Command, seq<string>)>>)
    ensures |cs| == |inputs| && forall k :: 0 <= k < |inputs| ==> cs[k] == LineCommand(inputs[k])
  {
    seq(|inputs|, k requires 0 <= k < |inputs| => LineCommand(inputs[k]))
  }

  /** What the prompt loop did: whether it exited, how many lines it read, the commands it handled. */
  datatype PromptTrace = PromptTrace(exited: bool, consumed: nat, dispatched: seq<(Command, seq<string>)>)

  /** The loop from line i on: blank lines are skipped, Exit ends the loop, everything else is handled. */
  function PromptReplay(cs: seq<Option<(Command, seq<string>)>>, i: nat, dispatched: seq<(Command, seq<string>)>): (t: PromptTrace)
    requires i <= |cs|
    ensures dispatched <= t.dispatched && i <= t.consumed <= |cs|
    ensures (forall k :: 0 <= k < |dispatched| ==> dispatched[k].0 != Exit) ==>
      forall k :: 0 <= k < |t.dispatched| ==> t.dispatched[k].0 != Exit
    decreases |cs| - i
  {
    if i == |cs| then PromptTrace(false, i, dispatched)
    else
      match cs[i]
      case None => PromptReplay(cs, i + 1, dispatched)
      case Some(c) =>
        if c.0 == Exit then PromptTrace(true, i + 1, dispatched)
        else PromptReplay(cs, i + 1, dispatched + [c])
  }

  /** Whether a line's command ends the loop. */
  predicate IsExit(c: Option<(Command, seq<string>)>) {
    c.Some? && c.value.0 == Exit
  }

  /** The loop ends right after the first exit line, or after reading every line when there is none. */
  lemma {:induction false} PromptReplayExits(cs: seq<Option<(Command, seq<string>)>>, i: nat, dispatched: seq<(Command, seq<string>)>)
    requires i <= |cs|
    ensures var t := PromptReplay(cs, i, dispatched);
      (t.exited ==> i < t.consumed && IsExit(cs[t.consumed - 1])) &&
      (!t.exited ==> t.consumed == |cs|) &&
      forall k :: i <= k < t.consumed - (if t.exited then 1 else 0) ==> !IsExit(cs[k])
    decreases |cs| - i
  {
    if i < |cs| {
      match cs[i]
      case None =>
        PromptReplayExits(cs, i + 1, dispatched);
      case Some(c) =>
        if c.0 != Exit {
          PromptReplayExits(cs, i + 1, dispatched + [c]);
        }
    }
  }

  /** One step of PromptReplay. */
  lemma PromptReplayStep(cs: seq<Option<(Command, seq<string>)>>, i: nat, dispatched: seq<(Command, seq<string>)>)
    requires i < |cs|
    ensures cs[i].None? ==> PromptReplay(cs, i, dispatched) == PromptReplay(cs, i + 1, dispatched)
    ensures IsExit(cs[i]) ==> PromptReplay(cs, i, dispatched) == PromptTrace(true, i + 1, dispatched)
    ensures cs[i].Some? && !IsExit(cs[i]) ==>
      PromptReplay(cs, i, dispatched) == PromptReplay(cs, i + 1, dispatched + [cs[i].value])
  {
  }

  /**
   * RunPromptMode's command loop over the lines typed: blank lines are skipped, exit,
   * quit and q end the loop, every other line goes to its handler (recorded here; the
   * handlers are modelled below).
   */
  method RunPromptMode(inputs: seq<Result<string>>) returns (t: PromptTrace)
    ensures t == PromptReplay(LineCommands(inputs), 0, [])
  {
    ghost var cs := LineCommands(inputs);
    var dispatched: seq<(Command, seq<string>)> := [];
    var i := 0;
    while i < |inputs|
      invariant i <= |inputs|
      invariant PromptReplay(cs, i, dispatched) == PromptReplay(cs, 0, [])
      decreases |inputs| - i
    {
      var input := Prompt.PromptCommand(inputs[i]);
      var parsed := Prompt.ParseCommand(input);
      assert cs[i] == LineCommand(inputs[i]);
      PromptReplayStep(cs, i, dispatched);
      i := i + 1;
      var cmd := parsed.0;
      if cmd == "" {
        continue;
      }
      var c := Classify(cmd);
      if c == Exit {
        return PromptTrace(true, i, dispatched);
      }
      dispatched := dispatched + [(c, parsed.1)];
    }
    t := PromptTrace(false, i, dispatched);
  }

  /** The prompt loop ends exactly at the first exit line, handles no exit command, and otherwise reads every line. */
  lemma PromptModeExits(inputs: seq<Result<string>>)
    ensures var t := PromptReplay(LineCommands(inputs), 0, []);
      (t.exited ==> 0 < t.consumed && LineCommand(inputs[t.consumed - 1]).Some?
                    && LineCommand(inputs[t.consumed - 1]).value.0 == Exit)
      && (!t.exited ==> t.consumed == |inputs|)
      && (forall k :: 0 <= k < |t.dispatched| ==> t.dispatched[k].0 != Exit)
  {
    var cs := LineCommands(inputs);
    ReplayFromStart(cs);
    var t := PromptReplay(cs, 0, []);
    if t.exited {
      var j := t.consumed - 1;
      assert cs[j] == LineCommand(inputs[j]);
    }
  }

  /** The loop from the first line, over any commands. */
  lemma ReplayFromStart(cs: seq<Option<(Command, seq<string>)>>)
    ensures var t := PromptReplay(cs, 0, []);
      (t.exited ==> 0 < t.consumed <= |cs| && IsExit(cs[t.consumed - 1]))
      && (!t.exited ==> t.consumed == |cs|)
      && (forall k :: 0 <= k < |t.dispatched| ==> t.dispatched[k].0 != Exit)
  {
    PromptReplayExits(cs, 0, []);
  }

  // ---------------------------------------------------------------- handlers

  /** What a handler did, as its messages report it. */
  datatype Outcome =
    | Usage                                           // no tool key given
    | UnknownTool(key: string)
    | NotInstalled(name: string)
    | AlreadyInstalled(name: string, version: string)
    | Declined                                        // the repair was not confirmed
    | Installed(install: Installer.InstallResult)
    | Updated(update: Updater.UpdateResult)
    | UpdatedAll(updates: map<string, Updater.UpdateResult>)
    | Repaired(install: Installer.InstallResult)
    | Started(command: string)

  /** config.GetTool on the first argument (keys are matched exactly). */
  function Lookup(tools: map<string, Config.ToolDefinition>, args: seq<string>): Option<Config.ToolDefinition>
    requires args != []
  {
    if args[0] in tools then Some(tools[args[0]]) else None
  }

  /** handleInstall: usage, unknown tool, already installed, or Install. */
  function HandleInstall(args: seq<string>, tools: map<string, Config.ToolDefinition>,
                         m: TM.Manager, host: TM.Host, hist: seq<string>): Installer.Step<Outcome>
  {
    if args == [] then Installer.Step(Usage, [])
    else if Lookup(tools, args).None? then Installer.Step(UnknownTool(args[0]), [])
    else
      var tool := Lookup(tools, args).value;
      var probe := TM.GetInstalledVersion(tool, host, hist);
      if probe.Ok? then Installer.Step(AlreadyInstalled(tool.name, probe.value), [])
      else
        var r := Installer.InstallRun(m, tool, host, hist);
        Installer.Step(Installed(r.result), r.ran)
  }

  /** handleInstall never installs a tool whose version probe succeeds, and installs only a known tool. */
  lemma HandleInstallGuards(args: seq<string>, tools: map<string, Config.ToolDefinition>,
                            m: TM.Manager, host: TM.Host, hist: seq<string>)
    ensures var s := HandleInstall(args, tools, m, host, hist);
      (s.result.Installed? <==> args != [] && args[0] in tools
                                && TM.GetInstalledVersion(tools[args[0]], host, hist).Err?)
      && (s.ran != [] ==> s.result.Installed?)
      && (s.result.Installed? ==> Installer.Step(s.result.install, s.ran) == Installer.InstallRun(m, tools[args[0]], host, hist))
  {
  }

  /** handleUpdate: with no argument UpdateAll; else unknown tool, not installed, or Update. */
  function HandleUpdate(args: seq<string>, tools: map<string, Config.ToolDefinition>, all: seq<Config.ToolDefinition>,
                        m: TM.Manager, host: TM.Host, hist: seq<string>): Installer.Step<Outcome>
  {
    if args == [] then
      var r := Updater.UpdateAllRun(m, all, host, hist);
      Installer.Step(UpdatedAll(r.result), r.ran)
    else if Lookup(tools, args).None? then Installer.Step(UnknownTool(args[0]), [])
    else
      var tool := Lookup(tools, args).value;
      if TM.GetInstalledVersion(tool, host, hist).Err? then Installer.Step(NotInstalled(tool.name), [])
      else
        var r := Updater.UpdateRun(m, tool, host, hist);
        Installer.Step(Updated(r.result), r.ran)
  }

  /** handleUpdate with no argument updates every tool; with one it updates only an installed, known tool. */
  lemma HandleUpdateGuards(args: seq<string>, tools: map<string, Config.ToolDefinition>, all: seq<Config.ToolDefinition>,
                           m: TM.Manager, host: TM.Host, hist: seq<string>)
    ensures var s := HandleUpdate(args, tools, all, m, host, hist);
      (args == [] ==> s.result == UpdatedAll(Updater.UpdateAllRun(m, all, host, hist).result)
                      && s.ran == Updater.UpdateAllRun(m, all, host, hist).ran)
      && (s.result.Updated? <==> args != [] && args[0] in tools
                                 && TM.GetInstalledVersion(tools[args[0]], host, hist).Ok?)
      && (args != [] && s.ran != [] ==> s.result.Updated?)
  {
  }

  /**
   * handleRepair: usage, unknown tool, not installed, declined; otherwise Uninstall (its
   * result is ignored) and then Install on the host the uninstall left.
   */
  function HandleRepair(args: seq<string>, confirm: Result<string>, tools: map<string, Config.ToolDefinition>,
                        m: TM.Manager, host: TM.Host, hist: seq<string>): Installer.Step<Outcome>
  {
    if args == [] then Installer.Step(Usage, [])
    else if Lookup(tools, args).None? then Installer.Step(UnknownTool(args[0]), [])
    else
      var tool := Lookup(tools, args).value;
      if TM.GetInstalledVersion(tool, host, hist).Err? then Installer.Step(NotInstalled(tool.name), [])
      else if !Menus.PromptConfirm(confirm) then Installer.Step(Declined, [])
      else
        var u := Installer.UninstallRun(m, tool, host, hist);
        var r := Installer.InstallRun(m, tool, host, hist + u.ran);
        Installer.Step(Repaired(r.result), u.ran + r.ran)
  }

  /**
   * handleRepair changes something only for a known, installed tool after the user
   * confirms; then it runs the uninstall and then the install, whatever the uninstall did.
   */
  lemma HandleRepairGuards(args: seq<string>, confirm: Result<string>, tools: map<string, Config.ToolDefinition>,
                           m: TM.Manager, host: TM.Host, hist: seq<string>)
    ensures var s := HandleRepair(args, confirm, tools, m, host, hist);
      (s.result.Repaired? <==> args != [] && args[0] in tools
                               && TM.GetInstalledVersion(tools[args[0]], host, hist).Ok?
                               && Menus.PromptConfirm(confirm))
      && (s.ran != [] ==> s.result.Repaired?)
      && (s.result.Repaired? ==>
            var u := Installer.UninstallRun(m, tools[args[0]], host, hist);
            s.ran == u.ran + Installer.InstallRun(m, tools[args[0]], host, hist + u.ran).ran)
  {
  }

  /** handleRun: usage, unknown tool, not installed, or starts the tool's command. */
  function HandleRun(args: seq<string>, tools: map<string, Config.ToolDefinition>,
                     host: TM.Host, hist: seq<string>): (o: Outcome)
    ensures o.Usage? <==> args == []
    ensures o.UnknownTool? <==> args != [] && args[0] !in tools
    ensures o.NotInstalled? <==> args != [] && args[0] in tools && TM.GetInstalledVersion(tools[args[0]], host, hist).Err?
    ensures o.Started? <==> args != [] && args[0] in tools && TM.GetInstalledVersion(tools[args[0]], host, hist).Ok?
    ensures o.UnknownTool? ==> o.key == args[0]
    ensures o.NotInstalled? ==> o.name == tools[args[0]].name
    ensures o.Started? ==> o.command == tools[args[0]].command
  {
    if args == [] then Usage
    else if Lookup(tools, args).None? then UnknownTool(args[0])
    else
      var tool := Lookup(tools, args).value;
      if TM.GetInstalledVersion(tool, host, hist).Err? then NotInstalled(tool.name)
      else Started(tool.command)
  }

  // ---------------------------------------------------------------- environment

  /** The package managers showEnvReport lists, in order. */
  const EnvManagers: seq<PM.Manager> := [PM.WinGet, PM.Homebrew, PM.Npm, PM.Pip]

  /** The prerequisites showEnvReport lists, in order. */
  const EnvPrerequisites: seq<string> := ["node", "npm", "python", "pip", "git"]

  /** What showEnvReport prints: the platform's OS and Arch, then the two availability lists. */
  datatype EnvView = EnvView(os: string, arch: string, managers: seq<(string, bool)>, prerequisites: seq<(string, bool)>)

  /**
   * showEnvReport: the detected OS and architecture, each manager with its availability,
   * and each prerequisite with whether it is on PATH.
   */
  function ShowEnvReport(goos: string, goarch: string, onPath: set<string>): (r: EnvView)
    ensures r.os == Detector.OSValue(Detector.OSOf(goos)) && r.arch == Detector.ArchValue(Detector.ArchOf(goarch))
    ensures |r.managers| == |EnvManagers| && |r.prerequisites| == |EnvPrerequisites|
    ensures forall k :: 0 <= k < |EnvManagers| ==>
      r.managers[k] == (PM.Name(EnvManagers[k]), PM.IsAvailable(EnvManagers[k], goos, onPath))
    ensures forall k :: 0 <= k < |EnvPrerequisites| ==>
      r.prerequisites[k] == (EnvPrerequisites[k], EnvPrerequisites[k] in onPath)
  {
    EnvView(
      Detector.OSValue(Detector.OSOf(goos)),
      Detector.ArchValue(Detector.ArchOf(goarch)),
      seq(|EnvManagers|, k requires 0 <= k < |EnvManagers| =>
        (PM.Name(EnvManagers[k]), PM.IsAvailable(EnvManagers[k], goos, onPath))),
      seq(|EnvPrerequisites|, k requires 0 <= k < |EnvPrerequisites| =>
        (EnvPrerequisites[k], EnvPrerequisites[k] in onPath)))
  }
}
