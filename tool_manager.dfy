/**
 * The tool manager: the installed version of a tool, the install methods its config
 * offers on this host, the preferred one, and the status record that combines them
 * with the latest published version.
 */
module ToolManager {
  import opened Wrappers
  import opened Text
  import opened Detector
  import opened Lists
  import PM = PackageManagers
  import Config
  import Versions
  import VersionChecker

  /**
   * The host as the manager sees it: GOOS, the executables on PATH, the shell, the
   * network with its JSON decoder, and the regexp engine.
   */
  datatype Host = Host(goos: string, onPath: set<string>, exec: PM.Exec, web: VersionChecker.Web, regex: VersionChecker.Regex)

  /** Manager: the platform and the package managers detected when it was created. */
  datatype Manager = Manager(platform: Platform, managers: seq<PM.Manager>)

  /** NewManager: the current platform and the package managers available on it. */
  method NewManager(host: Host, goarch: string) returns (m: Manager)
    ensures m.platform.os == OSOf(host.goos) && m.platform.arch == ArchOf(goarch)
    ensures m.managers == PM.AvailableAmong(PM.Candidates(OSOf(host.goos)), host.goos, host.onPath)
  {
    var p := Current(host.goos, goarch);
    var ms := PM.DetectPackageManagers(host.goos, host.onPath);
    m := Manager(p, ms);
  }

  /** The status record of one tool. */
  datatype ToolStatus = ToolStatus(
    tool: Config.ToolDefinition,
    isInstalled: bool,
    installedVer: string,
    latestVer: string,
    hasUpdate: bool,
    installMethods: seq<Method>,
    error: Option<string>)

  /**
   * GetInstalledVersion: runs the tool's version command in the host state reached after
   * the commands in hist, and extracts a version from stdout, or from stderr when stdout
   * is empty.
   */
  function GetInstalledVersion(tool: Config.ToolDefinition, host: Host, hist: seq<string>): (r: Result<string>)
    ensures tool.versionCmd == "" ==> r == Err("no version command defined")
    ensures r.Ok? ==> r.value != "" && tool.versionCmd != ""
    ensures var out := host.exec(hist, PM.ShellCommand(host.goos, tool.versionCmd));
      tool.versionCmd != "" && out.err.Some? ==> r == Err("command failed: " + out.err.value)
    ensures var out := host.exec(hist, PM.ShellCommand(host.goos, tool.versionCmd));
      r.Ok? ==> (out.err.None?
        && r.value == VersionChecker.ExtractVersion(if out.stdout != "" then out.stdout else out.stderr, tool.versionPattern, host.regex))
  {
    if tool.versionCmd == "" then Err("no version command defined")
    else
      var out := host.exec(hist, PM.ShellCommand(host.goos, tool.versionCmd));
      if out.err.Some? then Err("command failed: " + out.err.value)
      else
        var output := if out.stdout == "" then out.stderr else out.stdout;
        var version := VersionChecker.ExtractVersion(output, tool.versionPattern, host.regex);
        if version == "" then Err("could not extract version from output") else Ok(version)
  }

  /** Two hosts that answer the version command alike, apart from stderr when stdout is non-empty. */
  predicate SameReportBarStderr(a: PM.ExecResult, b: PM.ExecResult) {
    a.err == b.err && a.stdout == b.stdout && a.stdout != ""
  }

  /** stderr is read only when stdout is empty: with the same non-empty stdout, stderr makes no difference. */
  lemma StderrOnlyWhenStdoutEmpty(tool: Config.ToolDefinition, host: Host, host': Host, hist: seq<string>)
    requires tool.versionCmd != "" && host'.goos == host.goos && host'.regex == host.regex
    requires SameReportBarStderr(host.exec(hist, PM.ShellCommand(host.goos, tool.versionCmd)),
                                 host'.exec(hist, PM.ShellCommand(host.goos, tool.versionCmd)))
    ensures GetInstalledVersion(tool, host, hist) == GetInstalledVersion(tool, host', hist)
  {
  }

  /** A version report with nothing extractable is an error, never an empty version. */
  lemma NoVersionIsError(tool: Config.ToolDefinition, host: Host, hist: seq<string>)
    requires tool.versionCmd != ""
    requires var out := host.exec(hist, PM.ShellCommand(host.goos, tool.versionCmd));
      out.err.None?
      && VersionChecker.ExtractVersion(if out.stdout != "" then out.stdout else out.stderr, tool.versionPattern, host.regex) == ""
    ensures GetInstalledVersion(tool, host, hist) == Err("could not extract version from output")
  {
  }

  // ---------------------------------------------------------------- install methods

  /** The install methods a spec can name. */
  datatype Method = WinGet | Brew | Apt | Pacman | Npm | Pip | Script

  /** The method's name as reported to the user and in results. */
  function MethodName(meth: Method): (name: string)
    ensures name != ""
  {
    match meth
    case WinGet => "winget"
    case Brew => "brew"
    case Apt => "apt"
    case Pacman => "pacman"
    case Npm => "npm"
    case Pip => "pip"
    case Script => "script"
  }

  /** The install methods in the order GetAvailableInstallMethods considers them. */
  const MethodOrder: seq<Method> := [WinGet, Brew, Apt, Pacman, Npm, Pip, Script]

  /** Position in MethodOrder. */
  function MethodRank(meth: Method): int {
    match meth
    case WinGet => 0
    case Brew => 1
    case Apt => 2
    case Pacman => 3
    case Npm => 4
    case Pip => 5
    case Script => 6
  }

  /** The command a spec gives for a method; "" when it gives none. */
  function SpecCommand(spec: Config.InstallSpec, meth: Method): string {
    match meth
    case WinGet => spec.winget
    case Brew => spec.brew
    case Apt => spec.apt
    case Pacman => spec.pacman
    case Npm => spec.npm
    case Pip => spec.pip
    case Script => spec.script
  }

  /**
   * Whether a method is offered: the spec has a command for it and, for a package
   * manager, that manager is available (winget additionally only on Windows).
   */
  predicate Offered(meth: Method, spec: Config.InstallSpec, host: Host) {
    match meth
    case WinGet => spec.winget != "" && IsWindows(host.goos) && PM.IsAvailable(PM.WinGet, host.goos, host.onPath)
    case Brew => spec.brew != "" && PM.IsAvailable(PM.Homebrew, host.goos, host.onPath)
    case Apt => spec.apt != "" && PM.IsAvailable(PM.Apt, host.goos, host.onPath)
    case Pacman => spec.pacman != "" && PM.IsAvailable(PM.Pacman, host.goos, host.onPath)
    case Npm => spec.npm != "" && PM.IsAvailable(PM.Npm, host.goos, host.onPath)
    case Pip => spec.pip != "" && PM.IsAvailable(PM.Pip, host.goos, host.onPath)
    case Script => spec.script != ""
  }

  /** [meth] when it is offered, otherwise nothing. */
  function Opt(meth: Method, spec: Config.InstallSpec, host: Host): seq<Method> {
    if Offered(meth, spec, host) then [meth] else []
  }

  /** The offered methods, in MethodOrder. */
  function OfferedMethods(spec: Config.InstallSpec, host: Host): seq<Method> {
    Opt(WinGet, spec, host) + Opt(Brew, spec, host) + Opt(Apt, spec, host) + Opt(Pacman, spec, host)
    + Opt(Npm, spec, host) + Opt(Pip, spec, host) + Opt(Script, spec, host)
  }

  /** The names of some methods. */
  function Names(ms: seq<Method>): (names: seq<string>)
    ensures |names| == |ms| && forall i :: 0 <= i < |ms| ==> names[i] == MethodName(ms[i])
  {
    seq(|ms|, i requires 0 <= i < |ms| => MethodName(ms[i]))
  }

  /**
   * GetAvailableInstallMethods: nothing when the tool has no spec for this OS; otherwise
   * the offered methods, in MethodOrder.
   */
  method GetAvailableInstallMethods(m: Manager, tool: Config.ToolDefinition, host: Host) returns (methods: seq<Method>)
    ensures var key := GetOSKey(m.platform);
      methods == (if key in tool.install then OfferedMethods(tool.install[key], host) else [])
  {
    methods := [];
    var osKey := GetOSKey(m.platform);
    if osKey !in tool.install {
      return;
    }
    var spec := tool.install[osKey];
    methods := AddSystemMethods(spec, host);
    methods := AddPortableMethods(methods, spec, host);
  }

  /** The first half of GetAvailableInstallMethods: winget (Windows only), brew, apt, pacman. */
  method AddSystemMethods(spec: Config.InstallSpec, host: Host) returns (methods: seq<Method>)
    ensures methods == Opt(WinGet, spec, host) + Opt(Brew, spec, host) + Opt(Apt, spec, host) + Opt(Pacman, spec, host)
  {
    methods := [];
    if spec.winget != "" && IsWindows(host.goos) {
      if PM.IsAvailable(PM.WinGet, host.goos, host.onPath) {
        methods := methods + [WinGet];
      }
    }
    assert methods == Opt(WinGet, spec, host);
    if spec.brew != "" {
      if PM.IsAvailable(PM.Homebrew, host.goos, host.onPath) {
        methods := methods + [Brew];
      }
    }
    ghost var s2 := methods;
    assert s2 == Opt(WinGet, spec, host) + Opt(Brew, spec, host);
    if spec.apt != "" {
      if PM.IsAvailable(PM.Apt, host.goos, host.onPath) {
        methods := methods + [Apt];
      }
    }
    ghost var s3 := methods;
    assert s3 == s2 + Opt(Apt, spec, host);
    if spec.pacman != "" {
      if PM.IsAvailable(PM.Pacman, host.goos, host.onPath) {
        methods := methods + [Pacman];
      }
    }
    assert methods == s3 + Opt(Pacman, spec, host);
  }

  /** The second half of GetAvailableInstallMethods: npm, pip, then the install script. */
  method AddPortableMethods(prefix: seq<Method>, spec: Config.InstallSpec, host: Host) returns (methods: seq<Method>)
    ensures methods == prefix + Opt(Npm, spec, host) + Opt(Pip, spec, host) + Opt(Script, spec, host)
  {
    methods := prefix;
    if spec.npm != "" {
      if PM.IsAvailable(PM.Npm, host.goos, host.onPath) {
        methods := methods + [Npm];
      }
    }
    ghost var s5 := methods;
    assert s5 == prefix + Opt(Npm, spec, host);
    if spec.pip != "" {
      if PM.IsAvailable(PM.Pip, host.goos, host.onPath) {
        methods := methods + [Pip];
      }
    }
    ghost var s6 := methods;
    assert s6 == s5 + Opt(Pip, spec, host);
    if spec.script != "" {
      methods := methods + [Script];
    }
    assert methods == s6 + Opt(Script, spec, host);
  }

  /**
   * The offered methods are exactly the methods with a command and an available manager,
   * each once, in MethodOrder.
   */
  lemma OfferedMethodsShape(spec: Config.InstallSpec, host: Host)
    ensures var r := OfferedMethods(spec, host);
      (forall x :: x in r <==> Offered(x, spec, host))
      && (forall x :: x in r ==> SpecCommand(spec, x) != "")
      && Ranked(r, MethodRank)
      && (forall i, j :: 0 <= i < j < |r| ==> r[i] != r[j])
  {
    OfferedMembers(spec, host);
    OfferedRanked(spec, host);
    forall x | Offered(x, spec, host)
      ensures SpecCommand(spec, x) != ""
    {
    }
    RankedDistinct(OfferedMethods(spec, host), MethodRank);
  }

  /** A method is in the list exactly when it is offered. */
  lemma {:induction false} OfferedMembers(spec: Config.InstallSpec, host: Host)
    ensures forall x :: x in OfferedMethods(spec, host) <==> Offered(x, spec, host)
  {
    var s1 := Opt(WinGet, spec, host);
    var s2 := s1 + Opt(Brew, spec, host);
    var s3 := s2 + Opt(Apt, spec, host);
    var s4 := s3 + Opt(Pacman, spec, host);
    var s5 := s4 + Opt(Npm, spec, host);
    var s6 := s5 + Opt(Pip, spec, host);
    var r := s6 + Opt(Script, spec, host);
    forall x
      ensures x in r <==> Offered(x, spec, host)
    {
      assert x in r <==> x in s6 || x in Opt(Script, spec, host);
      assert x in s6 <==> x in s5 || x in Opt(Pip, spec, host);
      assert x in s5 <==> x in s4 || x in Opt(Npm, spec, host);
      assert x in s4 <==> x in s3 || x in Opt(Pacman, spec, host);
      assert x in s3 <==> x in s2 || x in Opt(Apt, spec, host);
      assert x in s2 <==> x in s1 || x in Opt(Brew, spec, host);
    }
  }

  /** The list is in MethodOrder, each method at most once. */
  lemma OfferedRanked(spec: Config.InstallSpec, host: Host)
    ensures Ranked(OfferedMethods(spec, host), MethodRank)
  {
    var s6 := Opt(WinGet, spec, host) + Opt(Brew, spec, host) + Opt(Apt, spec, host) + Opt(Pacman, spec, host)
      + Opt(Npm, spec, host) + Opt(Pip, spec, host);
    ThroughPipRanked(spec, host);
    RankedAppendOpt(s6, Script, spec, host);
  }

  /** Ranked up to pip. */
  lemma ThroughPipRanked(spec: Config.InstallSpec, host: Host)
    ensures var s6 := Opt(WinGet, spec, host) + Opt(Brew, spec, host) + Opt(Apt, spec, host) + Opt(Pacman, spec, host)
      + Opt(Npm, spec, host) + Opt(Pip, spec, host);
      Ranked(s6, MethodRank) && RankedBelow(s6, MethodRank(Script))
  {
    var s5 := Opt(WinGet, spec, host) + Opt(Brew, spec, host) + Opt(Apt, spec, host) + Opt(Pacman, spec, host)
      + Opt(Npm, spec, host);
    ThroughNpmRanked(spec, host);
    RankedAppendOpt(s5, Pip, spec, host);
  }

  /** Ranked up to npm. */
  lemma ThroughNpmRanked(spec: Config.InstallSpec, host: Host)
    ensures var s5 := Opt(WinGet, spec, host) + Opt(Brew, spec, host) + Opt(Apt, spec, host) + Opt(Pacman, spec, host)
      + Opt(Npm, spec, host);
      Ranked(s5, MethodRank) && RankedBelow(s5, MethodRank(Pip))
  {
    var s4 := Opt(WinGet, spec, host) + Opt(Brew, spec, host) + Opt(Apt, spec, host) + Opt(Pacman, spec, host);
    ThroughPacmanRanked(spec, host);
    RankedAppendOpt(s4, Npm, spec, host);
  }

  /** Ranked up to pacman. */
  lemma ThroughPacmanRanked(spec: Config.InstallSpec, host: Host)
    ensures var s4 := Opt(WinGet, spec, host) + Opt(Brew, spec, host) + Opt(Apt, spec, host) + Opt(Pacman, spec, host);
      Ranked(s4, MethodRank) && RankedBelow(s4, MethodRank(Npm))
  {
    var s3 := Opt(WinGet, spec, host) + Opt(Brew, spec, host) + Opt(Apt, spec, host);
    ThroughAptRanked(spec, host);
    RankedAppendOpt(s3, Pacman, spec, host);
  }

  /** Ranked up to apt. */
  lemma ThroughAptRanked(spec: Config.InstallSpec, host: Host)
    ensures var s3 := Opt(WinGet, spec, host) + Opt(Brew, spec, host) + Opt(Apt, spec, host);
      Ranked(s3, MethodRank) && RankedBelow(s3, MethodRank(Pacman))
  {
    var s1 := Opt(WinGet, spec, host);
    RankedAppendOpt([], WinGet, spec, host);
    assert [] + s1 == s1;
    RankedAppendOpt(s1, Brew, spec, host);
    RankedAppendOpt(s1 + Opt(Brew, spec, host), Apt, spec, host);
  }

  /** Every method in ms ranks below n. */
  predicate RankedBelow(ms: seq<Method>, n: int) {
    forall y :: y in ms ==> MethodRank(y) < n
  }

  /** Appending a method ranked above everything so far keeps the methods ranked. */
  lemma RankedAppendOpt(r: seq<Method>, x: Method, spec: Config.InstallSpec, host: Host)
    requires Ranked(r, MethodRank) && RankedBelow(r, MethodRank(x))
    ensures Ranked(r + Opt(x, spec, host), MethodRank)
    ensures RankedBelow(r + Opt(x, spec, host), MethodRank(x) + 1)
  {
    var t := r + Opt(x, spec, host);
    forall i, j | 0 <= i < j < |t|
      ensures MethodRank(t[i]) < MethodRank(t[j])
    {
      if j >= |r| {
        assert t[j] == x && t[i] == r[i];
      }
    }
  }

  // ---------------------------------------------------------------- the preferred method

  /** The methods GetBestInstallMethod tries, in order, on each OS. */
  function Priority(goos: string): seq<Method> {
    (if IsWindows(goos) then [WinGet]
     else if IsDarwin(goos) then [Brew]
     else if IsLinux(goos) then [Apt, Brew, Pacman]
     else [])
    + [Npm, Pip, Script]
  }

  /** The first offered method among ms, with its command. */
  function FirstOffered(ms: seq<Method>, spec: Config.InstallSpec, host: Host): (best: Option<(Method, string)>)
    ensures best.None? <==> forall i :: 0 <= i < |ms| ==> !Offered(ms[i], spec, host)
    ensures best.Some? ==> best.value.0 in ms && Offered(best.value.0, spec, host)
                           && best.value.1 == SpecCommand(spec, best.value.0)
  {
    if ms == [] then None
    else if Offered(ms[0], spec, host) then Some((ms[0], SpecCommand(spec, ms[0])))
    else
      var rest := FirstOffered(ms[1..], spec, host);
      assert forall i :: 0 <= i < |ms| - 1 ==> ms[1..][i] == ms[i + 1];
      rest
  }

  /**
   * GetBestInstallMethod: for the tool's spec on this OS, winget on Windows; brew on
   * macOS; apt, brew, pacman on Linux; then npm, pip; then the install script, which
   * needs no manager. None stands for the program's ("", "").
   */
  function GetBestInstallMethod(m: Manager, tool: Config.ToolDefinition, host: Host): (best: Option<(Method, string)>)
    ensures GetOSKey(m.platform) !in tool.install ==> best.None?
    ensures best.Some? ==> var spec := tool.install[GetOSKey(m.platform)];
      GetOSKey(m.platform) in tool.install && best.value.0 in Priority(host.goos)
      && Offered(best.value.0, spec, host) && best.value.1 == SpecCommand(spec, best.value.0) && best.value.1 != ""
  {
    var osKey := GetOSKey(m.platform);
    if osKey !in tool.install then None
    else BestInSpec(tool.install[osKey], host)
  }

  /** The early-return chain of GetBestInstallMethod over the install spec of this OS. */
  function BestInSpec(spec: Config.InstallSpec, host: Host): (best: Option<(Method, string)>)
    ensures best.Some? ==> (best.value.0 in Priority(host.goos)
      && Offered(best.value.0, spec, host) && best.value.1 == SpecCommand(spec, best.value.0) && best.value.1 != "")
  {
    var goos := host.goos;
    var onPath := host.onPath;
    if IsWindows(goos) && spec.winget != "" && PM.IsAvailable(PM.WinGet, goos, onPath) then Some((WinGet, spec.winget))
    else if IsDarwin(goos) && spec.brew != "" && PM.IsAvailable(PM.Homebrew, goos, onPath) then Some((Brew, spec.brew))
    else if IsLinux(goos) && spec.apt != "" && PM.IsAvailable(PM.Apt, goos, onPath) then Some((Apt, spec.apt))
    else if IsLinux(goos) && spec.brew != "" && PM.IsAvailable(PM.Homebrew, goos, onPath) then Some((Brew, spec.brew))
    else if IsLinux(goos) && spec.pacman != "" && PM.IsAvailable(PM.Pacman, goos, onPath) then Some((Pacman, spec.pacman))
    else BestFallback(spec, host)
  }

  /** The cross-platform end of the chain: npm, then pip, then the install script. */
  function BestFallback(spec: Config.InstallSpec, host: Host): (best: Option<(Method, string)>)
    ensures best.Some? ==> (best.value.0 in [Npm, Pip, Script]
      && Offered(best.value.0, spec, host) && best.value.1 == SpecCommand(spec, best.value.0) && best.value.1 != "")
  {
    if spec.npm != "" && PM.IsAvailable(PM.Npm, host.goos, host.onPath) then Some((Npm, spec.npm))
    else if spec.pip != "" && PM.IsAvailable(PM.Pip, host.goos, host.onPath) then Some((Pip, spec.pip))
    else if spec.script != "" then Some((Script, spec.script))
    else None
  }

  /** The cross-platform end of every priority order. */
  lemma {:induction false} FallbackOrder(spec: Config.InstallSpec, host: Host)
    ensures FirstOffered([Npm, Pip, Script], spec, host) == BestFallback(spec, host)
  {
    var tail := [Npm, Pip, Script];
    assert [Script][1..] == [];
    assert FirstOffered([Script], spec, host) == if Offered(Script, spec, host) then Some((Script, spec.script)) else None;
    assert [Pip, Script][1..] == [Script];
    assert FirstOffered([Pip, Script], spec, host)
      == if Offered(Pip, spec, host) then Some((Pip, spec.pip)) else FirstOffered([Script], spec, host);
    assert tail[1..] == [Pip, Script];
  }

  /** The early-return chain is the first offered method in the OS's priority order. */
  lemma {:induction false} BestIsFirstOffered(m: Manager, tool: Config.ToolDefinition, host: Host)
    requires GetOSKey(m.platform) in tool.install
    ensures GetBestInstallMethod(m, tool, host) == FirstOffered(Priority(host.goos), tool.install[GetOSKey(m.platform)], host)
  {
    BestInSpecIsFirstOffered(tool.install[GetOSKey(m.platform)], host);
  }

  /** The chain over one spec is the first offered method in the OS's priority order. */
  lemma BestInSpecIsFirstOffered(spec: Config.InstallSpec, host: Host)
    ensures BestInSpec(spec, host) == FirstOffered(Priority(host.goos), spec, host)
  {
    var tail := [Npm, Pip, Script];
    AtMostOneOS(host.goos);
    if IsWindows(host.goos) {
      assert Priority(host.goos) == [WinGet] + tail;
      BestOnWindows(spec, host);
    } else if IsDarwin(host.goos) {
      assert Priority(host.goos) == [Brew] + tail;
      BestOnDarwin(spec, host);
    } else if IsLinux(host.goos) {
      assert Priority(host.goos) == [Apt] + ([Brew] + ([Pacman] + tail));
      BestOnLinux(spec, host);
    } else {
      assert Priority(host.goos) == tail;
      BestElsewhere(spec, host);
    }
  }

  lemma BestOnWindows(spec: Config.InstallSpec, host: Host)
    requires IsWindows(host.goos)
    ensures BestInSpec(spec, host) == FirstOffered([WinGet] + [Npm, Pip, Script], spec, host)
  {
    AtMostOneOS(host.goos);
    FallbackOrder(spec, host);
    FirstOfferedCons(WinGet, [Npm, Pip, Script], spec, host);
  }

  lemma BestOnDarwin(spec: Config.InstallSpec, host: Host)
    requires IsDarwin(host.goos)
    ensures BestInSpec(spec, host) == FirstOffered([Brew] + [Npm, Pip, Script], spec, host)
  {
    AtMostOneOS(host.goos);
    FallbackOrder(spec, host);
    FirstOfferedCons(Brew, [Npm, Pip, Script], spec, host);
  }

  lemma BestOnLinux(spec: Config.InstallSpec, host: Host)
    requires IsLinux(host.goos)
    ensures BestInSpec(spec, host) == FirstOffered([Apt] + ([Brew] + ([Pacman] + [Npm, Pip, Script])), spec, host)
  {
    AtMostOneOS(host.goos);
    FallbackOrder(spec, host);
    LinuxOrder(spec, host, [Npm, Pip, Script]);
  }

  /** Apt, then brew, then pacman, then whatever follows. */
  lemma LinuxOrder(spec: Config.InstallSpec, host: Host, rest: seq<Method>)
    ensures FirstOffered([Apt] + ([Brew] + ([Pacman] + rest)), spec, host)
      == if Offered(Apt, spec, host) then Some((Apt, spec.apt))
         else if Offered(Brew, spec, host) then Some((Brew, spec.brew))
         else if Offered(Pacman, spec, host) then Some((Pacman, spec.pacman))
         else FirstOffered(rest, spec, host)
  {
    FirstOfferedCons(Apt, [Brew] + ([Pacman] + rest), spec, host);
    FirstOfferedCons(Brew, [Pacman] + rest, spec, host);
    FirstOfferedCons(Pacman, rest, spec, host);
  }

  lemma BestElsewhere(spec: Config.InstallSpec, host: Host)
    requires !IsWindows(host.goos) && !IsDarwin(host.goos) && !IsLinux(host.goos)
    ensures BestInSpec(spec, host) == FirstOffered([Npm, Pip, Script], spec, host)
  {
    FallbackOrder(spec, host);
  }

  /** FirstOffered looks at the head first. */
  lemma FirstOfferedCons(x: Method, rest: seq<Method>, spec: Config.InstallSpec, host: Host)
    ensures FirstOffered([x] + rest, spec, host)
      == if Offered(x, spec, host) then Some((x, SpecCommand(spec, x))) else FirstOffered(rest, spec, host)
  {
    assert ([x] + rest)[1..] == rest;
  }

  /** Every offered method is in the OS's priority order: no manager of another OS is ever offered. */
  lemma OfferedIsPrioritised(meth: Method, spec: Config.InstallSpec, host: Host)
    requires Offered(meth, spec, host)
    ensures meth in Priority(host.goos)
  {
    AtMostOneOS(host.goos);
  }

  /** The preferred method is always one of the offered methods. */
  lemma BestIsOffered(m: Manager, tool: Config.ToolDefinition, host: Host)
    requires GetBestInstallMethod(m, tool, host).Some?
    ensures GetBestInstallMethod(m, tool, host).value.0 in OfferedMethods(tool.install[GetOSKey(m.platform)], host)
  {
    OfferedMethodsShape(tool.install[GetOSKey(m.platform)], host);
  }

  /** Nothing is preferred exactly when nothing is offered. */
  lemma NoBestIffNoneOffered(m: Manager, tool: Config.ToolDefinition, host: Host)
    requires GetOSKey(m.platform) in tool.install
    ensures GetBestInstallMethod(m, tool, host).None? <==> OfferedMethods(tool.install[GetOSKey(m.platform)], host) == []
  {
    var spec := tool.install[GetOSKey(m.platform)];
    OfferedMethodsShape(spec, host);
    BestIsFirstOffered(m, tool, host);
    if OfferedMethods(spec, host) != [] {
      var x := OfferedMethods(spec, host)[0];
      OfferedIsPrioritised(x, spec, host);
    }
  }

  // ---------------------------------------------------------------- status

  /** The install methods reported for a tool: the offered ones for this OS's spec, none without one. */
  function MethodsFor(m: Manager, tool: Config.ToolDefinition, host: Host): seq<Method> {
    var key := GetOSKey(m.platform);
    if key in tool.install then OfferedMethods(tool.install[key], host) else []
  }

  /** GetToolStatus as a value: the status record of a tool on the host reached after hist. */
  function Status(m: Manager, tool: Config.ToolDefinition, host: Host, hist: seq<string>): ToolStatus {
    var installed := GetInstalledVersion(tool, host, hist);
    var latest := VersionChecker.LatestVersion(tool, host.web);
    var isInstalled := installed.Ok? && installed.value != "";
    var installedVer := if isInstalled then installed.value else "";
    var latestVer := if latest.Ok? && latest.value != "" then latest.value else "";
    var hasUpdate := isInstalled && latestVer != "" && Versions.CompareVersions(installedVer, latestVer) == Ok(true);
    ToolStatus(tool, isInstalled, installedVer, latestVer, hasUpdate, MethodsFor(m, tool, host), None)
  }

  /**
   * The fields of a status record: installed exactly when the probe yields a version,
   * which is then the installed version; the latest version when the lookup yields one;
   * an update exactly when both are known and the comparison says the latest is newer.
   */
  lemma StatusFields(m: Manager, tool: Config.ToolDefinition, host: Host, hist: seq<string>)
    ensures var s := Status(m, tool, host, hist);
      var probe := GetInstalledVersion(tool, host, hist);
      var latest := VersionChecker.LatestVersion(tool, host.web);
      s.tool == tool && s.error.None?
      && (s.isInstalled <==> probe.Ok?)
      && s.installedVer == (if probe.Ok? then probe.value else "")
      && (s.latestVer != "" <==> latest.Ok? && latest.value != "")
      && (s.latestVer != "" ==> s.latestVer == latest.value)
      && (s.hasUpdate <==> s.isInstalled && s.latestVer != "" && Versions.CompareVersions(s.installedVer, s.latestVer) == Ok(true))
  {
  }

  /** What a status record may claim: an update only for an installed tool with a known, newer latest version. */
  predicate Coherent(s: ToolStatus) {
    (s.isInstalled <==> s.installedVer != "")
    && (s.hasUpdate ==>
          s.isInstalled && s.latestVer != ""
          && Versions.Parse(TrimPrefix(s.installedVer, "v")).Ok? && Versions.Parse(TrimPrefix(s.latestVer, "v")).Ok?
          && Versions.Less(Versions.Parse(TrimPrefix(s.installedVer, "v")).value, Versions.Parse(TrimPrefix(s.latestVer, "v")).value))
  }

  /** Every status record is coherent: HasUpdate implies installed, a latest version, and that it is newer. */
  lemma StatusCoherent(m: Manager, tool: Config.ToolDefinition, host: Host, hist: seq<string>)
    ensures Coherent(Status(m, tool, host, hist))
  {
    var s := Status(m, tool, host, hist);
    if s.hasUpdate {
      Versions.CompareMeansLess(s.installedVer, s.latestVer);
    }
  }

  /** A failed comparison never reports an update. */
  lemma CompareErrorNoUpdate(m: Manager, tool: Config.ToolDefinition, host: Host, hist: seq<string>)
    requires var s := Status(m, tool, host, hist); Versions.CompareVersions(s.installedVer, s.latestVer).Err?
    ensures !Status(m, tool, host, hist).hasUpdate
  {
  }

  /** GetToolStatus: fills the status record field by field. */
  method GetToolStatus(m: Manager, tool: Config.ToolDefinition, host: Host, hist: seq<string>) returns (status: ToolStatus)
    ensures status == Status(m, tool, host, hist)
  {
    status := ToolStatus(tool, false, "", "", false, [], None);

    var installedVersion := GetInstalledVersion(tool, host, hist);
    if installedVersion.Ok? && installedVersion.value != "" {
      status := status.(isInstalled := true);
      status := status.(installedVer := installedVersion.value);
    }

    var latestVersion := VersionChecker.GetLatestVersion(tool, host.web);
    if latestVersion.Ok? && latestVersion.value != "" {
      status := status.(latestVer := latestVersion.value);
      if status.isInstalled && status.installedVer != "" {
        var hasUpdate := Versions.CompareVersions(status.installedVer, latestVersion.value);
        status := status.(hasUpdate := hasUpdate.Ok? && hasUpdate.value);
      }
    }

    var methods := GetAvailableInstallMethods(m, tool, host);
    status := status.(installMethods := methods);
  }

  /**
   * GetAllToolStatus: one slot per tool, slot i holding the status of tool i. The Go code
   * fills the slots concurrently; probes change nothing, so the order does not matter.
   */
  method GetAllToolStatus(m: Manager, tools: seq<Config.ToolDefinition>, host: Host, hist: seq<string>)
    returns (statuses: seq<ToolStatus>)
    ensures |statuses| == |tools|
    ensures forall i :: 0 <= i < |tools| ==> statuses[i] == Status(m, tools[i], host, hist)
  {
    var slots := new ToolStatus[|tools|];
    var i := 0;
    while i < |tools|
      invariant 0 <= i <= |tools|
      invariant forall k :: 0 <= k < i ==> slots[k] == Status(m, tools[k], host, hist)
    {
      slots[i] := GetToolStatus(m, tools[i], host, hist);
      i := i + 1;
    }
    statuses := slots[..];
  }
}
