/**
 * The package managers agenthelper knows about, when each one is usable, and how a
 * shell command is run on the host.
 */
module PackageManagers {
  import opened Wrappers
  import opened Text
  import opened Detector

  datatype Manager = WinGet | Homebrew | Apt | Pacman | Npm | Pip

  /** Name(): the display name of each manager. */
  function Name(m: Manager): string {
    match m
    case WinGet => "WinGet"
    case Homebrew => "Homebrew"
    case Apt => "apt"
    case Pacman => "pacman"
    case Npm => "npm"
    case Pip => "pip"
  }

  /** The executable each manager is looked up by. */
  function Executable(m: Manager): string {
    match m
    case WinGet => "winget"
    case Homebrew => "brew"
    case Apt => "apt"
    case Pacman => "pacman"
    case Npm => "npm"
    case Pip => "pip"
  }

  /**
   * IsAvailable: whether the manager can be used on a host whose GOOS is goos and whose
   * PATH holds the executables in onPath.
   */
  predicate IsAvailable(m: Manager, goos: string, onPath: set<string>) {
    match m
    case WinGet => IsWindows(goos) && "winget" in onPath
    case Homebrew => (IsDarwin(goos) || IsLinux(goos)) && "brew" in onPath
    case Apt => IsLinux(goos) && "apt" in onPath
    case Pacman => IsLinux(goos) && "pacman" in onPath
    case Npm => "npm" in onPath
    case Pip => "pip" in onPath || "pip3" in onPath
  }

  /** Position in the detection order; WinGet and Homebrew share the first place, as no OS has both. */
  function DetectRank(m: Manager): nat {
    match m
    case WinGet => 0
    case Homebrew => 0
    case Apt => 1
    case Pacman => 2
    case Npm => 3
    case Pip => 4
  }

  /** The managers DetectPackageManagers considers on each OS, in the order it considers them. */
  function Candidates(os: OS): seq<Manager> {
    OSSpecific(os) + [Npm, Pip]
  }

  /** The OS-specific managers, which DetectPackageManagers considers first. */
  function OSSpecific(os: OS): seq<Manager> {
    match os
    case Windows => [WinGet]
    case Darwin => [Homebrew]
    case Linux => [Homebrew, Apt, Pacman]
    case Unknown => []
  }

  /** [m] when m is available, [] otherwise. */
  function Opt(m: Manager, goos: string, onPath: set<string>): seq<Manager> {
    if IsAvailable(m, goos, onPath) then [m] else []
  }

  /** The available managers among ms, in order. */
  function AvailableAmong(ms: seq<Manager>, goos: string, onPath: set<string>): seq<Manager> {
    if ms == [] then [] else Opt(ms[0], goos, onPath) + AvailableAmong(ms[1..], goos, onPath)
  }

  /** Strictly increasing detection rank, hence no manager twice. */
  predicate RankOrdered(ms: seq<Manager>) {
    forall i, j :: 0 <= i < j < |ms| ==> DetectRank(ms[i]) < DetectRank(ms[j])
  }

  /**
   * DetectPackageManagers: the available managers among the OS-specific ones (WinGet on
   * Windows; Homebrew on macOS; Homebrew, apt, pacman on Linux), then npm, then pip.
   */
  method DetectPackageManagers(goos: string, onPath: set<string>) returns (managers: seq<Manager>)
    ensures managers == AvailableAmong(Candidates(OSOf(goos)), goos, onPath)
  {
    managers := DetectOSSpecific(goos, onPath);
    if IsAvailable(Npm, goos, onPath) {
      managers := managers + [Npm];
    }
    if IsAvailable(Pip, goos, onPath) {
      managers := managers + [Pip];
    }
    AvailableAmongPair(Npm, Pip, goos, onPath);
    AvailableAmongConcat(OSSpecific(OSOf(goos)), [Npm, Pip], goos, onPath);
  }

  /** The OS switch of DetectPackageManagers: the available OS-specific managers, in order. */
  method DetectOSSpecific(goos: string, onPath: set<string>) returns (managers: seq<Manager>)
    ensures managers == AvailableAmong(OSSpecific(OSOf(goos)), goos, onPath)
  {
    managers := [];
    match OSOf(goos) {
      case Windows =>
        if IsAvailable(WinGet, goos, onPath) {
          managers := managers + [WinGet];
        }
        assert [WinGet][1..] == [];
      case Darwin =>
        if IsAvailable(Homebrew, goos, onPath) {
          managers := managers + [Homebrew];
        }
        assert [Homebrew][1..] == [];
      case Linux =>
        if IsAvailable(Homebrew, goos, onPath) {
          managers := managers + [Homebrew];
        }
        if IsAvailable(Apt, goos, onPath) {
          managers := managers + [Apt];
        }
        if IsAvailable(Pacman, goos, onPath) {
          managers := managers + [Pacman];
        }
        AvailableAmongPair(Apt, Pacman, goos, onPath);
        assert [Homebrew, Apt, Pacman][1..] == [Apt, Pacman];
      case Unknown =>
    }
  }

  /** The available managers among two. */
  lemma AvailableAmongPair(a: Manager, b: Manager, goos: string, onPath: set<string>)
    ensures AvailableAmong([a, b], goos, onPath) == Opt(a, goos, onPath) + Opt(b, goos, onPath)
  {
    assert [a, b][1..] == [b];
    assert [b][1..] == [];
    assert AvailableAmong([b], goos, onPath) == Opt(b, goos, onPath) + [];
    assert Opt(b, goos, onPath) + [] == Opt(b, goos, onPath);
  }

  lemma {:induction false} AvailableAmongConcat(a: seq<Manager>, b: seq<Manager>, goos: string, onPath: set<string>)
    ensures AvailableAmong(a + b, goos, onPath) == AvailableAmong(a, goos, onPath) + AvailableAmong(b, goos, onPath)
  {
    if a != [] {
      assert (a + b)[1..] == a[1..] + b;
      AvailableAmongConcat(a[1..], b, goos, onPath);
    } else {
      assert a + b == b;
    }
  }

  lemma {:induction false} AvailableAmongMembers(ms: seq<Manager>, goos: string, onPath: set<string>)
    ensures forall m :: m in AvailableAmong(ms, goos, onPath) <==> m in ms && IsAvailable(m, goos, onPath)
  {
    if ms != [] {
      AvailableAmongMembers(ms[1..], goos, onPath);
      assert forall m :: m in ms <==> m == ms[0] || m in ms[1..];
    }
  }

  lemma {:induction false} AvailableAmongOrdered(ms: seq<Manager>, goos: string, onPath: set<string>)
    requires RankOrdered(ms)
    ensures RankOrdered(AvailableAmong(ms, goos, onPath))
  {
    if ms != [] {
      var rest := AvailableAmong(ms[1..], goos, onPath);
      AvailableAmongOrdered(ms[1..], goos, onPath);
      AvailableAmongMembers(ms[1..], goos, onPath);
      var r := AvailableAmong(ms, goos, onPath);
      if IsAvailable(ms[0], goos, onPath) {
        assert r == [ms[0]] + rest;
        forall i, j | 0 <= i < j < |r|
          ensures DetectRank(r[i]) < DetectRank(r[j])
        {
          assert r[j] == rest[j - 1] && rest[j - 1] in rest;
          assert RankOrdered(rest);
          if i > 0 {
            assert r[i] == rest[i - 1];
          } else {
            assert r[i] == ms[0];
            var k :| 0 <= k < |ms[1..]| && ms[1..][k] == r[j];
            assert ms[k + 1] == r[j];
          }
        }
      } else {
        assert r == rest;
      }
    }
  }

  /**
   * What DetectPackageManagers finds, without reference to the OS switch: exactly the
   * available managers, each once, in detection order.
   */
  lemma DetectedAreAvailable(goos: string, onPath: set<string>)
    ensures var r := AvailableAmong(Candidates(OSOf(goos)), goos, onPath);
      (forall m :: m in r <==> IsAvailable(m, goos, onPath))
      && (forall i, j :: 0 <= i < j < |r| ==> DetectRank(r[i]) < DetectRank(r[j]))
  {
    var cs := Candidates(OSOf(goos));
    AvailableAmongMembers(cs, goos, onPath);
    CandidatesRanked(OSOf(goos));
    AvailableAmongOrdered(cs, goos, onPath);
    CandidatesCoverAvailable(goos, onPath);
  }

  /** Every OS's candidates are in detection order. */
  lemma CandidatesRanked(os: OS)
    ensures RankOrdered(Candidates(os))
  {
  }

  /** Every manager available on an OS is one of its candidates. */
  lemma CandidatesCoverAvailable(goos: string, onPath: set<string>)
    ensures forall m :: IsAvailable(m, goos, onPath) ==> m in Candidates(OSOf(goos))
  {
    AtMostOneOS(goos);
  }

  /** GetPackageManagerByName: a case-insensitive lookup that also accepts "homebrew". */
  function GetPackageManagerByName(name: string): (r: Option<Manager>)
    ensures r == None <==> ToLower(name) !in {"winget", "brew", "homebrew", "apt", "pacman", "npm", "pip"}
    ensures r.Some? ==> ToLower(name) == Executable(r.value) || (r.value == Homebrew && ToLower(name) == "homebrew")
  {
    var n := ToLower(name);
    if n == "winget" then Some(WinGet)
    else if n == "brew" || n == "homebrew" then Some(Homebrew)
    else if n == "apt" then Some(Apt)
    else if n == "pacman" then Some(Pacman)
    else if n == "npm" then Some(Npm)
    else if n == "pip" then Some(Pip)
    else None
  }

  /** A lower-case string is its own ToLower. */
  lemma {:induction false} ToLowerOfLower(s: string)
    requires forall k :: 0 <= k < |s| ==> !('A' <= s[k] <= 'Z')
    ensures ToLower(s) == s
  {
  }

  /** Every manager is found both by its executable name and by its display name. */
  lemma ByNameRoundTrip(m: Manager)
    ensures GetPackageManagerByName(Executable(m)) == Some(m)
    ensures GetPackageManagerByName(Name(m)) == Some(m)
  {
    ToLowerOfLower(Executable(m));
    NameLowered(m);
  }

  /** The display names lower-case to the executable names, except Homebrew's, which is its own lookup key. */
  lemma NameLowered(m: Manager)
    ensures ToLower(Name(m)) == if m == Homebrew then "homebrew" else Executable(m)
  {
    var n := Name(m);
    var lower := ToLower(n);
    if m == WinGet {
      assert lower[0] == LowerChar('W') == 'w';
      assert lower[3] == LowerChar('G') == 'g';
    } else if m == Homebrew {
      assert lower[0] == LowerChar('H') == 'h';
    } else {
      ToLowerOfLower(n);
    }
  }

  /** Names that differ only in ASCII case select the same manager. */
  lemma ByNameCaseInsensitive(a: string, b: string)
    requires EqualFold(a, b)
    ensures GetPackageManagerByName(a) == GetPackageManagerByName(b)
  {
  }

  /** NewShellCommand: `cmd /C command` on Windows and `sh -c command` elsewhere. */
  function ShellCommand(goos: string, command: string): (argv: seq<string>)
    ensures |argv| == 3 && argv[2] == command
    ensures argv[0] == (if IsWindows(goos) then "cmd" else "sh")
    ensures argv[1] == (if IsWindows(goos) then "/C" else "-c")
  {
    if IsWindows(goos) then ["cmd", "/C", command] else ["sh", "-c", command]
  }

  /** What the host reports after running a command: the run error, if any, and the captured streams. */
  datatype ExecResult = ExecResult(err: Option<string>, stdout: string, stderr: string)

  /**
   * The host: its answer to running argv, given the state-changing commands that ran
   * before it (in order).
   */
  type Exec = (seq<string>, seq<string>) -> ExecResult

  /** runCommand: trimmed stdout on success; on failure an error carrying the run error and stderr. */
  function RunCommand(r: ExecResult): (res: Result<string>)
    ensures res.Ok? <==> r.err.None?
    ensures res.Ok? ==> res.value == TrimSpace(r.stdout)
    ensures res.Err? ==> r.err.value <= res.error && |r.stderr| <= |res.error| && res.error[|res.error| - |r.stderr|..] == r.stderr
  {
    if r.err.Some? then Err(r.err.value + ": " + r.stderr) else Ok(TrimSpace(r.stdout))
  }
}
