/**
 * The update command: the tool key it acts on, the checks before a single update, and
 * the summary of a batch update, which puts every result in exactly one of four classes.
 */
module UpdateCmd {
  import opened Wrappers
  import opened Text
  import Lists
  import Config
  import TM = ToolManager
  import Installer
  import Updater

  /** The tool key: "all" without an argument, else the argument lower-cased (at most one is accepted). */
  function UpdateKey(args: seq<string>): string
    requires |args| <= 1
  {
    if args == [] then "all" else ToLower(args[0])
  }

  /** The batch update is chosen with no argument or with "all" in any letter case. */
  lemma UpdateKeyAll(args: seq<string>)
    requires |args| <= 1
    ensures UpdateKey(args) == "all" <==> args == [] || EqualFold(args[0], "all")
  {
    assert ToLower("all") == "all";
  }

  /** The four classes of the batch summary. */
  datatype Class = Updated | UpToDate | Failed | NotInstalled

  /** The class of one batch result: a "not installed" error first, then success, up to date or not. */
  function Classify(r: Updater.UpdateResult): Class {
    if r.error.Some? && Contains(r.error.value, "not installed") then NotInstalled
    else if r.success then (if r.wasUpToDate then UpToDate else Updated)
    else Failed
  }

  /**
   * Both not-installed errors the updater produces, the batch's own and the single
   * update's, are counted as not installed.
   */
  lemma NotInstalledErrorsClassified(e: string)
    ensures Classify(Updater.Failure("not installed")) == NotInstalled
    ensures Classify(Updater.Failure("tool not installed: " + e)) == NotInstalled
  {
    ContainsAfter([], "not installed", []);
    assert [] + "not installed" + [] == "not installed";
    ContainsAfter("tool ", "not installed", ": " + e);
    assert "tool " + "not installed" + (": " + e) == "tool not installed: " + e;
  }

  /** The four counters of the summary. */
  datatype Tally = Tally(updated: nat, upToDate: nat, failed: nat, notInstalled: nat)

  /** The tally with one more result of class c. */
  function Bump(t: Tally, c: Class): Tally {
    match c
    case Updated => t.(updated := t.updated + 1)
    case UpToDate => t.(upToDate := t.upToDate + 1)
    case Failed => t.(failed := t.failed + 1)
    case NotInstalled => t.(notInstalled := t.notInstalled + 1)
  }

  /** How many of the results under keys fall in each class, counting the keys in some order. */
  ghost function TallyIn(results: map<string, Updater.UpdateResult>, keys: set<string>): Tally
    requires keys <= results.Keys
    decreases keys
  {
    if keys == {} then Tally(0, 0, 0, 0)
    else
      var k := Lists.Pick(keys);
      Bump(TallyIn(results, keys - {k}), Classify(results[k]))
  }

  /** Any result of keys may be counted last: the tally does not depend on the order the keys are taken in. */
  lemma {:induction false} TallyInRemove(results: map<string, Updater.UpdateResult>, keys: set<string>, k: string)
    requires keys <= results.Keys && k in keys
    ensures TallyIn(results, keys) == Bump(TallyIn(results, keys - {k}), Classify(results[k]))
    decreases |keys|
  {
    var j := Lists.Pick(keys);
    if j != k {
      TallyInRemove(results, keys - {j}, k);
      TallyInRemove(results, keys - {k}, j);
      assert keys - {j} - {k} == keys - {k} - {j};
    }
  }

  /** Each counter of the tally is the number of results under keys in its own class. */
  lemma {:induction false} TallyCountsClasses(results: map<string, Updater.UpdateResult>, keys: set<string>)
    requires keys <= results.Keys
    ensures TallyIn(results, keys) == Tally(Lists.CountBy(results, keys, Classify, Updated),
                                            Lists.CountBy(results, keys, Classify, UpToDate),
                                            Lists.CountBy(results, keys, Classify, Failed),
                                            Lists.CountBy(results, keys, Classify, NotInstalled))
    decreases |keys|
  {
    if keys != {} {
      var k := Lists.Pick(keys);
      TallyCountsClasses(results, keys - {k});
      Lists.CountByRemove(results, keys, k, Classify, Updated);
      Lists.CountByRemove(results, keys, k, Classify, UpToDate);
      Lists.CountByRemove(results, keys, k, Classify, Failed);
      Lists.CountByRemove(results, keys, k, Classify, NotInstalled);
    }
  }

  /** How many of all the results fall in each class. */
  ghost function TallyOf(results: map<string, Updater.UpdateResult>): Tally {
    TallyIn(results, results.Keys)
  }

  /** The four counters added up. */
  function Total(t: Tally): nat {
    t.updated + t.upToDate + t.failed + t.notInstalled
  }

  /**
   * The counting loop of runUpdateAll, over the results in any order: every result is
   * counted once, in its own class, so the counters add up to the number of results.
   */
  method CountResults(results: map<string, Updater.UpdateResult>) returns (tally: Tally)
    ensures tally == TallyOf(results)
    ensures Total(tally) == |results|
  {
    var updated, upToDate, failed, notInstalled := 0, 0, 0, 0;
    ghost var total := TallyOf(results);
    var remaining := results.Keys;
    while remaining != {}
      invariant remaining <= results.Keys
      invariant updated + TallyIn(results, remaining).updated == total.updated
      invariant upToDate + TallyIn(results, remaining).upToDate == total.upToDate
      invariant failed + TallyIn(results, remaining).failed == total.failed
      invariant notInstalled + TallyIn(results, remaining).notInstalled == total.notInstalled
      invariant updated + upToDate + failed + notInstalled + |remaining| == |results.Keys|
      decreases |remaining|
    {
      var key :| key in remaining;
      TallyInRemove(results, remaining, key);
      var r := results[key];
      if r.error.Some? && Contains(r.error.value, "not installed") {
        notInstalled := notInstalled + 1;
      } else if r.success {
        if r.wasUpToDate {
          upToDate := upToDate + 1;
        } else {
          updated := updated + 1;
        }
      } else {
        failed := failed + 1;
      }
      remaining := remaining - {key};
    }
    tally := Tally(updated, upToDate, failed, notInstalled);
    assert |results.Keys| == |results|;
  }

  /** runUpdateAll: updates every tool, then counts the results. */
  method RunUpdateAll(m: TM.Manager, all: seq<Config.ToolDefinition>, host: TM.Host, hist: seq<string>)
    returns (tally: Tally, ran: seq<string>)
    ensures var run := Updater.UpdateAllRun(m, all, host, hist);
      tally == TallyOf(run.result) && ran == run.ran
      && Total(tally) == |run.result|
  {
    var results;
    results, ran := Updater.UpdateAll(m, all, host, hist);
    tally := CountResults(results);
  }

  /** When no tool is installed, the batch counts every tool as not installed and nothing else. */
  lemma NoneInstalledTally(m: TM.Manager, all: seq<Config.ToolDefinition>, host: TM.Host, hist: seq<string>)
    requires forall i :: 0 <= i < |all| ==> TM.GetInstalledVersion(all[i], host, hist).Err?
    ensures var results := Updater.UpdateAllRun(m, all, host, hist).result;
      TallyOf(results) == Tally(0, 0, 0, |results|)
  {
    var results := Updater.UpdateAllRun(m, all, host, hist).result;
    Updater.UpdateAllNoneInstalled(m, all, host, hist);
    NotInstalledErrorsClassified("");
    UniformTally(results);
  }

  /** A batch whose every result is the "not installed" record counts all of them as not installed. */
  lemma UniformTally(results: map<string, Updater.UpdateResult>)
    requires forall k :: k in results ==> Classify(results[k]) == NotInstalled
    ensures TallyOf(results) == Tally(0, 0, 0, |results|)
  {
    TallyCountsClasses(results, results.Keys);
    Lists.CountByUniform(results, results.Keys, Classify, NotInstalled, Updated);
    Lists.CountByUniform(results, results.Keys, Classify, NotInstalled, UpToDate);
    Lists.CountByUniform(results, results.Keys, Classify, NotInstalled, Failed);
    assert |results.Keys| == |results|;
  }

  /** What runUpdate reports. */
  datatype Outcome =
    | UpdatedAll(tally: Tally)
    | UnknownTool(key: string)
    | NotInstalledTool(name: string)
    | UpdatedOne(result: Updater.UpdateResult)

  /** runUpdate: the batch for "all"; else unknown tool, not installed, or Update. */
  ghost function RunUpdate(args: seq<string>, tools: map<string, Config.ToolDefinition>, all: seq<Config.ToolDefinition>,
                     m: TM.Manager, host: TM.Host, hist: seq<string>): Installer.Step<Outcome>
    requires |args| <= 1
  {
    var key := UpdateKey(args);
    if key == "all" then
      var r := Updater.UpdateAllRun(m, all, host, hist);
      Installer.Step(UpdatedAll(TallyOf(r.result)), r.ran)
    else if key !in tools then Installer.Step(UnknownTool(key), [])
    else if TM.GetInstalledVersion(tools[key], host, hist).Err? then Installer.Step(NotInstalledTool(tools[key].name), [])
    else
      var r := Updater.UpdateRun(m, tools[key], host, hist);
      Installer.Step(UpdatedOne(r.result), r.ran)
  }

  /** A single update happens only for a known, installed tool; without an argument the batch runs. */
  lemma RunUpdateGuards(args: seq<string>, tools: map<string, Config.ToolDefinition>, all: seq<Config.ToolDefinition>,
                        m: TM.Manager, host: TM.Host, hist: seq<string>)
    requires |args| <= 1
    ensures var s := RunUpdate(args, tools, all, m, host, hist);
      var key := UpdateKey(args);
      (args == [] ==> s.result.UpdatedAll?)
      && (s.result.UpdatedOne? <==> key != "all" && key in tools && TM.GetInstalledVersion(tools[key], host, hist).Ok?)
      && (s.result.UpdatedOne? ==> Installer.Step(s.result.result, s.ran) == Updater.UpdateRun(m, tools[key], host, hist))
      && (s.ran != [] ==> s.result.UpdatedAll? || s.result.UpdatedOne?)
  {
  }
}
