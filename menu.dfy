/**
 * The interactive menu and the two small prompts of the terminal UI. The terminal is a
 * sequence of read results, one per line the user types (or a read error); printing is
 * left out.
 */
module Menus {
  import opened Wrappers
  import opened Text

  /**
   * One entry of a menu. The action is modelled by the value it returns when invoked
   * (true leaves the menu); None is an entry without an action.
   */
  datatype MenuItem = MenuItem(key: string, caption: string, description: string, action: Option<bool>)

  /** What the menu does with one line of input. */
  datatype Reaction =
    | Ignored                           // read error or blank line
    | Invalid(input: string)            // no key matches: an error is shown
    | NoAction(item: nat)               // the matching entry has no action
    | Ran(item: nat, exit: bool)        // the matching entry's action ran and returned exit

  /** What a run of Display did: whether it returned, how many lines it read, whose actions ran, the errors shown. */
  datatype MenuTrace = MenuTrace(exited: bool, consumed: nat, invoked: seq<nat>, errors: seq<string>)

  /** The first entry at or after j whose key equals the input up to case. */
  function SelectFrom(items: seq<MenuItem>, input: string, j: nat): (r: Option<nat>)
    requires j <= |items|
    ensures r.Some? ==> j <= r.value < |items|
    decreases |items| - j
  {
    if j == |items| then None
    else if EqualFold(items[j].key, input) then Some(j)
    else SelectFrom(items, input, j + 1)
  }

  /** The entry a trimmed input selects: the first whose key matches ignoring case. */
  function Select(items: seq<MenuItem>, input: string): (r: Option<nat>)
    ensures r.Some? ==> r.value < |items|
  {
    SelectFrom(items, input, 0)
  }

  /** SelectFrom finds the first matching key at or after j, and None means no key from j on matches. */
  lemma {:induction false} SelectFromIsFirst(items: seq<MenuItem>, input: string, j: nat)
    requires j <= |items|
    ensures var r := SelectFrom(items, input, j);
      (r.Some? ==> (EqualFold(items[r.value].key, input)
        && forall m :: j <= m < r.value ==> !EqualFold(items[m].key, input))) &&
      (r.None? ==> forall m :: j <= m < |items| ==> !EqualFold(items[m].key, input))
    decreases |items| - j
  {
    if j < |items| && !EqualFold(items[j].key, input) {
      SelectFromIsFirst(items, input, j + 1);
    }
  }

  /** Select finds the first entry whose key matches ignoring case; None means no key matches. */
  lemma SelectIsFirst(items: seq<MenuItem>, input: string)
    ensures var r := Select(items, input);
      (r.Some? ==> (EqualFold(items[r.value].key, input)
        && forall m :: 0 <= m < r.value ==> !EqualFold(items[m].key, input))) &&
      (r.None? ==> forall m :: 0 <= m < |items| ==> !EqualFold(items[m].key, input))
  {
    SelectFromIsFirst(items, input, 0);
  }

  /** The handling of one line by the menu loop. */
  function React(items: seq<MenuItem>, read: Result<string>): (r: Reaction)
    ensures r.Ran? || r.NoAction? ==> r.item < |items|
    ensures r.Ran? ==> items[r.item].action == Some(r.exit)
  {
    if read.Err? then Ignored
    else
      var input := TrimSpace(read.value);
      if input == "" then Ignored
      else
        match Select(items, input)
        case None => Invalid(input)
        case Some(j) =>
          match items[j].action
          case None => NoAction(j)
          case Some(b) => Ran(j, b)
  }

  /**
   * An entry runs only when the trimmed line matches its key ignoring case and no earlier
   * key does; an error is shown only when no key matches; only blank lines and read
   * errors are skipped.
   */
  lemma ReactSelects(items: seq<MenuItem>, read: Result<string>)
    ensures var r := React(items, read);
      (r.Ran? || r.NoAction? ==> read.Ok? && Select(items, TrimSpace(read.value)) == Some(r.item)) &&
      (r.NoAction? ==> items[r.item].action == None) &&
      (r.Invalid? ==> (read.Ok? && r.input == TrimSpace(read.value) && r.input != "" &&
        forall m :: 0 <= m < |items| ==> !EqualFold(items[m].key, r.input))) &&
      (r == Ignored <==> read.Err? || AllSpace(read.value))
  {
    if read.Ok? {
      SelectIsFirst(items, TrimSpace(read.value));
    }
  }

  /** React, case by case, as the menu loop takes the line apart. */
  lemma ReactCases(items: seq<MenuItem>, read: Result<string>)
    ensures read.Err? ==> React(items, read) == Ignored
    ensures read.Ok? && TrimSpace(read.value) == "" ==> React(items, read) == Ignored
    ensures read.Ok? && TrimSpace(read.value) != "" && Select(items, TrimSpace(read.value)) == None ==>
      React(items, read) == Invalid(TrimSpace(read.value))
    ensures read.Ok? && TrimSpace(read.value) != "" && Select(items, TrimSpace(read.value)).Some? ==>
      var j := Select(items, TrimSpace(read.value)).value;
      React(items, read) == if items[j].action.None? then NoAction(j) else Ran(j, items[j].action.value)
  {
  }

  /** Whether a reaction leaves the menu. */
  predicate Exits(r: Reaction) {
    r.Ran? && r.exit
  }

  /** The message shown for an input that matches no key. */
  function InvalidOption(input: string): string {
    "Invalid option: " + input
  }

  /** The reaction to each line, in order. */
  function Reactions(items: seq<MenuItem>, inputs: seq<Result<string>>): (rs: seq<Reaction>)
    ensures |rs| == |inputs| && forall k :: 0 <= k < |inputs| ==> rs[k] == React(items, inputs[k])
  {
    seq(|inputs|, k requires 0 <= k < |inputs| => React(items, inputs[k]))
  }

  /**
   * The menu loop from reaction i on, with the actions run and errors shown so far: it
   * returns at the first reaction whose action returns true.
   */
  function Replay(rs: seq<Reaction>, i: nat, invoked: seq<nat>, errors: seq<string>): (t: MenuTrace)
    requires i <= |rs|
    ensures invoked <= t.invoked && errors <= t.errors && i <= t.consumed <= |rs|
    decreases |rs| - i
  {
    if i == |rs| then MenuTrace(false, i, invoked, errors)
    else
      match rs[i]
      case Ran(j, exit) =>
        if exit then MenuTrace(true, i + 1, invoked + [j], errors)
        else Replay(rs, i + 1, invoked + [j], errors)
      case Invalid(input) => Replay(rs, i + 1, invoked, errors + [InvalidOption(input)])
      case _ => Replay(rs, i + 1, invoked, errors)
  }

  /** One step of Replay, for each kind of reaction. */
  lemma ReplayStep(rs: seq<Reaction>, i: nat, invoked: seq<nat>, errors: seq<string>)
    requires i < |rs|
    ensures rs[i].Ignored? || rs[i].NoAction? ==>
      Replay(rs, i, invoked, errors) == Replay(rs, i + 1, invoked, errors)
    ensures rs[i].Invalid? ==>
      Replay(rs, i, invoked, errors) == Replay(rs, i + 1, invoked, errors + [InvalidOption(rs[i].input)])
    ensures rs[i].Ran? && !rs[i].exit ==>
      Replay(rs, i, invoked, errors) == Replay(rs, i + 1, invoked + [rs[i].item], errors)
    ensures rs[i].Ran? && rs[i].exit ==>
      Replay(rs, i, invoked, errors) == MenuTrace(true, i + 1, invoked + [rs[i].item], errors)
  {
  }

  /** What Display does with the given lines. */
  function DisplayRun(items: seq<MenuItem>, inputs: seq<Result<string>>): MenuTrace {
    Replay(Reactions(items, inputs), 0, [], [])
  }

  /** A titled list of entries; ShowBack records that a back entry was added. */
  class Menu {
    var title: string
    var items: seq<MenuItem>
    var showBack: bool

    /** NewMenu: an empty menu with the given title. */
    constructor (title: string)
      ensures this.title == title && items == [] && !showBack
    {
      this.title := title;
      items := [];
      showBack := false;
    }

    /** AddItem: appends one entry. */
    method AddItem(key: string, caption: string, description: string, action: Option<bool>)
      modifies this
      ensures items == old(items) + [MenuItem(key, caption, description, action)]
      ensures title == old(title) && showBack == old(showBack)
    {
      items := items + [MenuItem(key, caption, description, action)];
    }

    /** AddBackOption: sets ShowBack and appends the entry "0" whose action leaves the menu. */
    method AddBackOption(caption: string)
      modifies this
      ensures showBack
      ensures items == old(items) + [MenuItem("0", caption, "", Some(true))]
      ensures title == old(title)
    {
      showBack := true;
      AddItem("0", caption, "", Some(true));
    }

    /** The search of Display: the first entry whose key matches the input ignoring case. */
    method FindItem(input: string) returns (found: bool, j: nat)
      ensures found <==> Select(items, input).Some?
      ensures found ==> Select(items, input) == Some(j)
    {
      found := false;
      j := 0;
      while j < |items|
        invariant j <= |items|
        invariant SelectFrom(items, input, j) == Select(items, input)
        decreases |items| - j
      {
        if EqualFold(items[j].key, input) {
          found := true;
          return;
        }
        j := j + 1;
      }
    }

    /**
     * Display: reads lines until an entry's action returns true. A read error or a
     * blank line is skipped; an unknown key shows an error; the first entry whose key
     * matches ignoring case is run.
     */
    method Display(inputs: seq<Result<string>>) returns (t: MenuTrace)
      ensures t == DisplayRun(items, inputs)
    {
      ghost var rs := Reactions(items, inputs);
      ghost var run := Replay(rs, 0, [], []);
      assert run == DisplayRun(items, inputs);
      var invoked: seq<nat> := [];
      var errors: seq<string> := [];
      var i := 0;
      while i < |inputs|
        invariant i <= |inputs|
        invariant Replay(rs, i, invoked, errors) == run
        decreases |inputs| - i
      {
        var read := inputs[i];
        ReactCases(items, read);
        assert rs[i] == React(items, read);
        ReplayStep(rs, i, invoked, errors);
        i := i + 1;
        if read.Err? {
          continue;
        }
        var input := TrimSpace(read.value);
        if input == "" {
          continue;
        }
        var found, j := FindItem(input);
        if !found {
          errors := errors + [InvalidOption(input)];
        } else if items[j].action.Some? {
          invoked := invoked + [j];
          if items[j].action.value {
            t := MenuTrace(true, i, invoked, errors);
            return;
          }
        }
      }
      t := MenuTrace(false, i, invoked, errors);
    }
  }

  /**
   * The menu returns exactly when some line's action returns true, and then at the first
   * such line; otherwise it has read every line.
   */
  lemma {:induction false} ReplayExitsAtFirstExit(rs: seq<Reaction>, i: nat, invoked: seq<nat>, errors: seq<string>)
    requires i <= |rs|
    ensures var t := Replay(rs, i, invoked, errors);
      (t.exited ==> i < t.consumed && Exits(rs[t.consumed - 1])) &&
      (!t.exited ==> t.consumed == |rs|) &&
      forall m :: i <= m < t.consumed - (if t.exited then 1 else 0) ==> !Exits(rs[m])
    decreases |rs| - i
  {
    if i < |rs| {
      match rs[i]
      case Ran(j, exit) =>
        if !exit {
          ReplayExitsAtFirstExit(rs, i + 1, invoked + [j], errors);
        }
      case Invalid(input) =>
        ReplayExitsAtFirstExit(rs, i + 1, invoked, errors + [InvalidOption(input)]);
      case NoAction(_) =>
        ReplayExitsAtFirstExit(rs, i + 1, invoked, errors);
      case Ignored =>
        ReplayExitsAtFirstExit(rs, i + 1, invoked, errors);
    }
  }

  /** Display returns right after a line whose action returns true, or after reading every line. */
  lemma DisplayStopsAtExit(items: seq<MenuItem>, inputs: seq<Result<string>>)
    ensures var t := DisplayRun(items, inputs);
      (t.exited ==> 0 < t.consumed && Exits(React(items, inputs[t.consumed - 1]))) &&
      (!t.exited ==> t.consumed == |inputs|)
  {
    var rs := Reactions(items, inputs);
    var t := Replay(rs, 0, [], []);
    assert DisplayRun(items, inputs) == t;
    ReplayExitsAtFirstExit(rs, 0, [], []);
    if t.exited {
      var k := t.consumed - 1;
      assert Exits(rs[k]) && rs[k] == React(items, inputs[k]);
    }
  }

  /** No line before the one Display returns after has an action returning true. */
  lemma DisplayRunsToFirstExit(items: seq<MenuItem>, inputs: seq<Result<string>>)
    ensures var t := DisplayRun(items, inputs);
      forall m :: 0 <= m < t.consumed - (if t.exited then 1 else 0) ==> !Exits(React(items, inputs[m]))
  {
    var rs := Reactions(items, inputs);
    ReplayExitsAtFirstExit(rs, 0, [], []);
    var t := Replay(rs, 0, [], []);
    assert DisplayRun(items, inputs) == t;
    forall m | 0 <= m < t.consumed - (if t.exited then 1 else 0)
      ensures !Exits(React(items, inputs[m]))
    {
      assert rs[m] == React(items, inputs[m]);
    }
  }

  /** With no entry whose action returns true, the menu never returns on its own. */
  lemma NoExitEntryNeverReturns(items: seq<MenuItem>, inputs: seq<Result<string>>)
    requires forall j :: 0 <= j < |items| ==> items[j].action != Some(true)
    ensures !DisplayRun(items, inputs).exited
  {
    DisplayStopsAtExit(items, inputs);
  }

  /** An entry selected by its key: the first entry whose key matches wins. */
  lemma {:induction false} SelectAppend(items: seq<MenuItem>, item: MenuItem, input: string, j: nat)
    requires j <= |items|
    requires forall m :: j <= m < |items| ==> !EqualFold(items[m].key, input)
    requires EqualFold(item.key, input)
    ensures SelectFrom(items + [item], input, j) == Some(|items|)
    decreases |items| - j
  {
    if j < |items| {
      assert (items + [item])[j] == items[j];
      SelectAppend(items, item, input, j + 1);
    } else {
      assert (items + [item])[j] == item;
    }
  }

  /** After AddBackOption, typing 0 (with any surrounding white space) leaves the menu, unless an earlier entry has key 0. */
  lemma BackOptionExits(items: seq<MenuItem>, caption: string, line: string)
    requires TrimSpace(line) == "0"
    requires forall m :: 0 <= m < |items| ==> !EqualFold(items[m].key, "0")
    ensures React(items + [MenuItem("0", caption, "", Some(true))], Ok(line)) == Ran(|items|, true)
  {
    SelectAppend(items, MenuItem("0", caption, "", Some(true)), "0", 0);
  }

  // ---------------------------------------------------------------- prompts

  /** PromptConfirm: true only for the answers y and yes, in any case and with surrounding white space. */
  function PromptConfirm(read: Result<string>): (yes: bool)
    ensures yes ==> read.Ok?
  {
    if read.Err? then false
    else
      var input := TrimSpace(ToLower(read.value));
      input == "y" || input == "yes"
  }

  /** Lower-casing a string drops the first letter of its lower-cased form exactly when it drops the first letter. */
  lemma ToLowerTail(s: string)
    requires s != []
    ensures ToLower(s)[1..] == ToLower(s[1..])
  {
  }

  /** Lower-casing keeps the last letter off exactly as it keeps it off the string. */
  lemma ToLowerInit(s: string)
    requires s != []
    ensures ToLower(s)[..|s| - 1] == ToLower(s[..|s| - 1])
  {
  }

  /** Lower-casing never turns a letter into white space or back. */
  lemma LowerCharSpace(c: char)
    ensures IsSpace(LowerChar(c)) == IsSpace(c)
  {
  }

  lemma {:induction false} TrimLeftLower(s: string)
    ensures TrimLeft(ToLower(s)) == ToLower(TrimLeft(s))
    decreases |s|
  {
    if |s| > 0 {
      LowerCharSpace(s[0]);
      if IsSpace(s[0]) {
        ToLowerTail(s);
        TrimLeftLower(s[1..]);
      }
    }
  }

  lemma {:induction false} TrimRightLower(s: string)
    ensures TrimRight(ToLower(s)) == ToLower(TrimRight(s))
    decreases |s|
  {
    if |s| > 0 {
      LowerCharSpace(s[|s| - 1]);
      if IsSpace(s[|s| - 1]) {
        ToLowerInit(s);
        TrimRightLower(s[..|s| - 1]);
      }
    }
  }

  /** Trimming and lower-casing commute. */
  lemma TrimSpaceLower(s: string)
    ensures TrimSpace(ToLower(s)) == ToLower(TrimSpace(s))
  {
    TrimLeftLower(s);
    TrimRightLower(TrimLeft(s));
  }

  /** PromptConfirm accepts exactly the lines that, trimmed, equal y or yes ignoring case. */
  lemma ConfirmMeansYes(s: string)
    ensures PromptConfirm(Ok(s)) <==> EqualFold(TrimSpace(s), "y") || EqualFold(TrimSpace(s), "yes")
  {
    TrimSpaceLower(s);
    assert ToLower("y") == "y";
    assert ToLower("yes") == "yes";
  }

  /**
   * PromptSelect: the zero-based index of the chosen option, or -1 when reading fails,
   * the input is not a number, is out of range, or is 0 (cancel).
   */
  function PromptSelect(read: Result<string>, count: nat): (r: int)
    ensures -1 <= r < count
    ensures r >= 0 ==> read.Ok? && Atoi(TrimSpace(read.value)) == Some(r + 1)
    ensures read.Ok? && Atoi(TrimSpace(read.value)).Some? && 1 <= Atoi(TrimSpace(read.value)).value <= count ==>
      r == Atoi(TrimSpace(read.value)).value - 1
  {
    if read.Err? then -1
    else
      match Atoi(TrimSpace(read.value))
      case None => -1
      case Some(num) => if num < 0 || num > count then -1 else num - 1
  }

  /** A line of digits whose value is at most count selects that option (1-based); 0 cancels. */
  lemma SelectDigits(s: string, count: nat)
    requires IsDigits(s) && DigitsValue(s) <= count
    ensures PromptSelect(Ok(s), count) == DigitsValue(s) - 1
  {
    TrimSpaceNoop(s);
    assert IsDigit(s[0]);
  }

  /** Typing option k (1-based) selects index k - 1; typing 0 cancels. */
  lemma SelectNumber(k: nat, count: nat)
    requires k <= count
    ensures PromptSelect(Ok(NatToString(k)), count) == k - 1
  {
    NatToStringRoundTrip(k);
    SelectDigits(NatToString(k), count);
  }
}
