/**
 * The env command: the environment report (platform, the six package managers, the
 * environment variables the tools name, the five prerequisites) and its summary.
 */
module EnvCmd {
  import opened Wrappers
  import Lists
  import Config
  import Detector
  import PM = PackageManagers

  datatype PlatformInfo = PlatformInfo(os: string, arch: string, isWSL: bool, display: string)
  datatype ManagerInfo = ManagerInfo(name: string, available: bool)
  /** An environment variable, whether it is set, and the first tool that names it. */
  datatype EnvVarStatus = EnvVarStatus(name: string, isSet: bool, tool: string)
  datatype PrerequisiteInfo = PrerequisiteInfo(name: string, available: bool)

  datatype EnvReport = EnvReport(
    platform: PlatformInfo,
    managers: seq<ManagerInfo>,
    envVars: seq<EnvVarStatus>,
    prerequisites: seq<PrerequisiteInfo>)

  /** The package managers the report lists, in order. */
  const ReportManagers: seq<PM.Manager> := [PM.WinGet, PM.Homebrew, PM.Apt, PM.Pacman, PM.Npm, PM.Pip]

  /** The prerequisites the report lists: display name and the executable looked up on PATH. */
  const Prerequisites: seq<(string, string)> :=
    [("Node.js", "node"), ("npm", "npm"), ("Python", "python"), ("pip", "pip"), ("Git", "git")]

  // ---------------------------------------------------------------- environment variables

  /** Tool i names v, and no tool before it does. */
  predicate FirstNamedBy(tools: seq<Config.ToolDefinition>, v: string, i: int) {
    0 <= i < |tools| && v in tools[i].envVars && forall j :: 0 <= j < i ==> v !in tools[j].envVars
  }

  /** The names of some variable records. */
  function NamesOf(vars: seq<EnvVarStatus>): set<string> {
    set k | 0 <= k < |vars| :: vars[k].name
  }

  /** No name occurs twice. */
  predicate DistinctNames(vars: seq<EnvVarStatus>) {
    forall a, b :: 0 <= a < b < |vars| ==> vars[a].name != vars[b].name
  }

  /** Appending a record adds its name. */
  lemma NamesOfSnoc(vars: seq<EnvVarStatus>, x: EnvVarStatus)
    ensures NamesOf(vars + [x]) == NamesOf(vars) + {x.name}
  {
    var after := vars + [x];
    assert after[|vars|] == x;
    assert forall k :: 0 <= k < |vars| ==> after[k] == vars[k];
  }

  /**
   * Each record k names a variable first named by tool owners[k] (a tool before n),
   * carries that tool's name and says whether the variable is set; no name repeats.
   */
  predicate Claims(tools: seq<Config.ToolDefinition>, n: nat, vars: seq<EnvVarStatus>, owners: seq<nat>,
                   getenv: string -> string) {
    |owners| == |vars| && DistinctNames(vars)
    && (forall k :: 0 <= k < |vars| ==>
          owners[k] < n && FirstNamedBy(tools, vars[k].name, owners[k]) && vars[k].tool == tools[owners[k]].name
          && (vars[k].isSet <==> getenv(vars[k].name) != ""))
    && (forall a, b :: 0 <= a < b < |owners| ==> owners[a] <= owners[b])
  }

  /** Every variable named by a tool before i is in checked. */
  predicate Covers(tools: seq<Config.ToolDefinition>, i: nat, checked: set<string>) {
    forall i', v :: 0 <= i' < i && i' < |tools| && v in tools[i'].envVars ==> v in checked
  }

  /** Claims by tools before n are claims by tools before n + 1. */
  lemma ClaimsWiden(tools: seq<Config.ToolDefinition>, n: nat, vars: seq<EnvVarStatus>, owners: seq<nat>,
                    getenv: string -> string)
    requires Claims(tools, n, vars, owners, getenv)
    ensures Claims(tools, n + 1, vars, owners, getenv)
  {
  }

  /** Claiming a variable no record names yet, for the first tool that names it. */
  lemma ClaimsSnoc(tools: seq<Config.ToolDefinition>, i: nat, vars: seq<EnvVarStatus>, owners: seq<nat>,
                   getenv: string -> string, v: string)
    requires Claims(tools, i + 1, vars, owners, getenv) && v !in NamesOf(vars) && FirstNamedBy(tools, v, i)
    ensures var x := EnvVarStatus(v, getenv(v) != "", tools[i].name);
      Claims(tools, i + 1, vars + [x], owners + [i], getenv) && NamesOf(vars + [x]) == NamesOf(vars) + {v}
  {
    var x := EnvVarStatus(v, getenv(v) != "", tools[i].name);
    NamesOfSnoc(vars, x);
    DistinctSnoc(vars, x);
    var after := vars + [x];
    var owned := owners + [i];
    forall k | 0 <= k < |after|
      ensures owned[k] < i + 1 && FirstNamedBy(tools, after[k].name, owned[k])
      ensures after[k].tool == tools[owned[k]].name && (after[k].isSet <==> getenv(after[k].name) != "")
    {
      if k < |vars| {
        assert after[k] == vars[k] && owned[k] == owners[k];
      }
    }
    forall a, b | 0 <= a < b < |owned|
      ensures owned[a] <= owned[b]
    {
      assert owned[a] == owners[a];
      if b < |owners| {
        assert owned[b] == owners[b];
      }
    }
  }

  /** Appending a record with a new name keeps the names distinct. */
  lemma DistinctSnoc(vars: seq<EnvVarStatus>, x: EnvVarStatus)
    requires DistinctNames(vars) && x.name !in NamesOf(vars)
    ensures DistinctNames(vars + [x])
  {
    var after := vars + [x];
    forall a, b | 0 <= a < b < |after|
      ensures after[a].name != after[b].name
    {
      assert after[a] == vars[a];
      if b == |vars| {
        assert vars[a].name in NamesOf(vars);
      } else {
        assert after[b] == vars[b];
      }
    }
  }

  /**
   * The variable loop of buildEnvReport: every variable any tool names is listed once,
   * attributed to the first tool in config order that names it, and is set exactly
   * when its value is non-empty.
   */
  method CollectEnvVars(tools: seq<Config.ToolDefinition>, getenv: string -> string) returns (vars: seq<EnvVarStatus>)
    ensures DistinctNames(vars)
    ensures forall i, v :: 0 <= i < |tools| && v in tools[i].envVars ==> v in NamesOf(vars)
    ensures forall k :: 0 <= k < |vars| ==>
      exists i :: FirstNamedBy(tools, vars[k].name, i) && vars[k].tool == tools[i].name
    ensures forall k :: 0 <= k < |vars| ==> (vars[k].isSet <==> getenv(vars[k].name) != "")
    ensures forall a, b, i, i' ::
      0 <= a < b < |vars| && FirstNamedBy(tools, vars[a].name, i) && FirstNamedBy(tools, vars[b].name, i') ==> i <= i'
  {
    var checked: set<string> := {};
    vars := [];
    ghost var owners: seq<nat> := [];
    for i := 0 to |tools|
      invariant checked == NamesOf(vars) && Claims(tools, i, vars, owners, getenv) && Covers(tools, i, checked)
    {
      var names := tools[i].envVars;
      ClaimsWiden(tools, i, vars, owners, getenv);
      for j := 0 to |names|
        invariant checked == NamesOf(vars) && Claims(tools, i + 1, vars, owners, getenv) && Covers(tools, i, checked)
        invariant forall j' :: 0 <= j' < j ==> names[j'] in checked
      {
        var v := names[j];
        if v in checked {
          continue;
        }
        assert FirstNamedBy(tools, v, i);
        ClaimsSnoc(tools, i, vars, owners, getenv, v);
        checked := checked + {v};
        vars := vars + [EnvVarStatus(v, getenv(v) != "", tools[i].name)];
        owners := owners + [i];
      }
      assert Covers(tools, i + 1, checked) by {
        forall i', v | 0 <= i' < i + 1 && v in tools[i'].envVars ensures v in checked {
          if i' == i {
            var j' :| 0 <= j' < |names| && names[j'] == v;
          }
        }
      }
    }
    ClaimsMean(tools, |tools|, vars, owners, getenv);
  }

  /** What the loop's claims promise without the ghost owners: attribution and order. */
  lemma ClaimsMean(tools: seq<Config.ToolDefinition>, n: nat, vars: seq<EnvVarStatus>, owners: seq<nat>,
                   getenv: string -> string)
    requires Claims(tools, n, vars, owners, getenv)
    ensures forall k :: 0 <= k < |vars| ==>
      exists i :: FirstNamedBy(tools, vars[k].name, i) && vars[k].tool == tools[i].name
    ensures forall a, b, i, i' ::
      0 <= a < b < |vars| && FirstNamedBy(tools, vars[a].name, i) && FirstNamedBy(tools, vars[b].name, i') ==> i <= i'
  {
    forall k | 0 <= k < |vars|
      ensures exists i :: FirstNamedBy(tools, vars[k].name, i) && vars[k].tool == tools[i].name
    {
      assert FirstNamedBy(tools, vars[k].name, owners[k]);
    }
    forall a, b, i, i' | 0 <= a < b < |vars| && FirstNamedBy(tools, vars[a].name, i)
                         && FirstNamedBy(tools, vars[b].name, i')
      ensures i <= i'
    {
      assert FirstNamedBy(tools, vars[a].name, owners[a]) && FirstNamedBy(tools, vars[b].name, owners[b]);
      assert i == owners[a] && i' == owners[b];
    }
  }

  // ---------------------------------------------------------------- the report

  /**
   * buildEnvReport: the platform record, the six managers with their availability, the
   * variables (as CollectEnvVars lists them) and the five prerequisites with whether their
   * executable is on PATH.
   */
  method BuildEnvReport(goos: string, goarch: string, onPath: set<string>, tools: seq<Config.ToolDefinition>,
                        getenv: string -> string) returns (report: EnvReport)
    ensures report.platform.os == Detector.OSValue(Detector.OSOf(goos))
    ensures report.platform.arch == Detector.ArchValue(Detector.ArchOf(goarch))
    ensures report.platform.isWSL == (goos == "linux" && Detector.IsWSL(goos))
    ensures report.platform.isWSL ==> Detector.IsLinux(goos)
    ensures report.platform.display ==
      Detector.String(Detector.Platform(Detector.OSOf(goos), Detector.ArchOf(goarch), goos, report.platform.isWSL))
    ensures |report.managers| == |ReportManagers|
    ensures forall k :: 0 <= k < |ReportManagers| ==>
      report.managers[k] == ManagerInfo(PM.Name(ReportManagers[k]), PM.IsAvailable(ReportManagers[k], goos, onPath))
    ensures |report.prerequisites| == |Prerequisites|
    ensures forall k :: 0 <= k < |Prerequisites| ==>
      report.prerequisites[k] == PrerequisiteInfo(Prerequisites[k].0, Prerequisites[k].1 in onPath)
    ensures DistinctNames(report.envVars)
    ensures forall i, v :: 0 <= i < |tools| && v in tools[i].envVars ==> v in NamesOf(report.envVars)
    ensures forall k :: 0 <= k < |report.envVars| ==>
      exists i :: FirstNamedBy(tools, report.envVars[k].name, i) && report.envVars[k].tool == tools[i].name
    ensures forall k :: 0 <= k < |report.envVars| ==> (report.envVars[k].isSet <==> getenv(report.envVars[k].name) != "")
    ensures forall a, b, i, i' ::
      (0 <= a < b < |report.envVars| && FirstNamedBy(tools, report.envVars[a].name, i)
       && FirstNamedBy(tools, report.envVars[b].name, i')) ==> i <= i'
  {
    var plat := Detector.Current(goos, goarch);
    var info := PlatformInfo(Detector.OSValue(plat.os), Detector.ArchValue(plat.arch), plat.isWSL, Detector.String(plat));
    var managers: seq<ManagerInfo> := [];
    for k := 0 to |ReportManagers|
      invariant |managers| == k
      invariant forall k' :: 0 <= k' < k ==>
        managers[k'] == ManagerInfo(PM.Name(ReportManagers[k']), PM.IsAvailable(ReportManagers[k'], goos, onPath))
    {
      managers := managers + [ManagerInfo(PM.Name(ReportManagers[k]), PM.IsAvailable(ReportManagers[k], goos, onPath))];
    }
    var vars := CollectEnvVars(tools, getenv);
    var prereqs: seq<PrerequisiteInfo> := [];
    for k := 0 to |Prerequisites|
      invariant |prereqs| == k
      invariant forall k' :: 0 <= k' < k ==> prereqs[k'] == PrerequisiteInfo(Prerequisites[k'].0, Prerequisites[k'].1 in onPath)
    {
      prereqs := prereqs + [PrerequisiteInfo(Prerequisites[k].0, Prerequisites[k].1 in onPath)];
    }
    report := EnvReport(info, managers, vars, prereqs);
    forall k | 0 <= k < |vars|
      ensures exists i :: FirstNamedBy(tools, report.envVars[k].name, i) && report.envVars[k].tool == tools[i].name
    {
      var i :| FirstNamedBy(tools, vars[k].name, i) && vars[k].tool == tools[i].name;
    }
  }

  /** The manager list shows the display names in the fixed order. */
  lemma ManagerNames()
    ensures |ReportManagers| == 6
    ensures [PM.Name(ReportManagers[0]), PM.Name(ReportManagers[1]), PM.Name(ReportManagers[2]),
             PM.Name(ReportManagers[3]), PM.Name(ReportManagers[4]), PM.Name(ReportManagers[5])]
         == ["WinGet", "Homebrew", "apt", "pacman", "npm", "pip"]
  {
  }

  // ---------------------------------------------------------------- the summary

  /** A prerequisite that was not found. */
  function Missing(p: PrerequisiteInfo): bool {
    !p.available
  }

  /** A variable that is not set. */
  function Unset(v: EnvVarStatus): bool {
    !v.isSet
  }

  /** The summary of displayEnvReport: the two missing counts and whether all looks good. */
  method Summarize(report: EnvReport) returns (missingPrereqs: nat, missingEnvVars: nat, looksGood: bool)
    ensures missingPrereqs == Lists.Count(report.prerequisites, Missing)
    ensures missingEnvVars == Lists.Count(report.envVars, Unset)
    ensures looksGood <==> missingPrereqs == 0 && missingEnvVars == 0
  {
    missingPrereqs := 0;
    for i := 0 to |report.prerequisites|
      invariant missingPrereqs == Lists.Count(report.prerequisites[..i], Missing)
    {
      Lists.CountStep(report.prerequisites, i, Missing);
      if !report.prerequisites[i].available {
        missingPrereqs := missingPrereqs + 1;
      }
    }
    assert report.prerequisites[..|report.prerequisites|] == report.prerequisites;
    missingEnvVars := 0;
    for i := 0 to |report.envVars|
      invariant missingEnvVars == Lists.Count(report.envVars[..i], Unset)
    {
      Lists.CountStep(report.envVars, i, Unset);
      if !report.envVars[i].isSet {
        missingEnvVars := missingEnvVars + 1;
      }
    }
    assert report.envVars[..|report.envVars|] == report.envVars;
    looksGood := !(missingPrereqs > 0 || missingEnvVars > 0);
  }

  /** The environment looks good exactly when every prerequisite is found and every variable is set. */
  lemma LooksGoodIffComplete(report: EnvReport)
    ensures (Lists.Count(report.prerequisites, Missing) == 0 && Lists.Count(report.envVars, Unset) == 0)
      <==> (forall i :: 0 <= i < |report.prerequisites| ==> report.prerequisites[i].available)
           && (forall i :: 0 <= i < |report.envVars| ==> report.envVars[i].isSet)
  {
    Lists.CountZero(report.prerequisites, Missing);
    Lists.CountZero(report.envVars, Unset);
  }
}
