/**
 * The prompt-mode command line: reading a line and splitting it into a lower-cased
 * command name and its arguments.
 */
module Prompt {
  import opened Wrappers
  import opened Text

  /**
   * PromptCommand: the line read from the terminal with surrounding white space removed,
   * or "" when reading failed.
   */
  function PromptCommand(read: Result<string>): (line: string)
    ensures read.Err? ==> line == ""
    ensures line == "" || (!IsSpace(line[0]) && !IsSpace(line[|line| - 1]))
    ensures line == "" <==> read.Err? || AllSpace(read.value)
  {
    if read.Err? then "" else TrimSpace(read.value)
  }

  /**
   * ParseCommand: the first white-space-separated field, lower-cased, and the remaining
   * fields in order; ("", []) for blank input.
   */
  function ParseCommand(input: string): (r: (string, seq<string>))
    ensures r.0 == "" <==> AllSpace(input)
    ensures r.0 == "" ==> r.1 == []
    ensures NoSpace(r.0) && forall k :: 0 <= k < |r.0| ==> !('A' <= r.0[k] <= 'Z')
    ensures forall k :: 0 <= k < |r.1| ==> r.1[k] != "" && NoSpace(r.1[k])
  {
    ParseTrimmed(TrimSpace(input))
  }

  /** ParseCommand on a line already stripped of surrounding white space. */
  function ParseTrimmed(t: string): (r: (string, seq<string>))
    ensures r.0 == "" <==> AllSpace(t)
    ensures r.0 == "" ==> r.1 == []
    ensures NoSpace(r.0) && forall k :: 0 <= k < |r.0| ==> !('A' <= r.0[k] <= 'Z')
    ensures forall k :: 0 <= k < |r.1| ==> r.1[k] != "" && NoSpace(r.1[k])
  {
    if t == "" then ("", [])
    else
      var parts := Fields(t);
      if |parts| == 0 then ("", [])
      else
        var cmd := ToLower(parts[0]);
        ToLowerWord(parts[0]);
        (cmd, if |parts| > 1 then parts[1..] else [])
  }

  /** Reading a line and parsing it is parsing the line. */
  lemma PromptThenParse(s: string)
    ensures ParseCommand(PromptCommand(Ok(s))) == ParseCommand(s)
  {
    var t := TrimSpace(s);
    assert PromptCommand(Ok(s)) == t;
    TrimSpaceNoop(t);
    calc {
      ParseCommand(t);
      ParseTrimmed(TrimSpace(t));
      ParseTrimmed(t);
      ParseCommand(s);
    }
  }

  /** A join of words starts with the first word's first letter and ends with the last word's last letter. */
  lemma {:induction false} JoinEnds(ws: seq<string>)
    requires ws != [] && forall k :: 0 <= k < |ws| ==> ws[k] != ""
    ensures var j := Join(ws, ' ');
      |j| > 0 && j[0] == ws[0][0] && j[|j| - 1] == ws[|ws| - 1][|ws[|ws| - 1]| - 1]
  {
    if |ws| > 1 {
      var tail := ws[1..];
      assert forall k :: 0 <= k < |tail| ==> tail[k] == ws[k + 1];
      JoinEnds(tail);
      var rest := Join(tail, ' ');
      var j := ws[0] + [' '] + rest;
      assert Join(ws, ' ') == j;
      assert j[0] == ws[0][0];
      assert j[|j| - 1] == rest[|rest| - 1];
      assert tail[|tail| - 1] == ws[|ws| - 1];
    }
  }

  /** A join of several parts: the first part, the separator, then the join of the others. */
  lemma JoinCons(ws: seq<string>, sep: char)
    requires |ws| > 1
    ensures var s := Join(ws, sep); var n := |ws[0]|;
      n < |s| && s[..n] == ws[0] && s[n] == sep && s[n + 1..] == Join(ws[1..], sep)
  {
    var s := Join(ws, sep);
    var n := |ws[0]|;
    assert s == ws[0] + [sep] + Join(ws[1..], sep);
  }

  /** The first word of a string whose first n letters are not white space and are followed by nothing or by white space is those n letters. */
  lemma {:induction false} WordOfPrefix(s: string, n: nat)
    requires n <= |s| && NoSpace(s[..n])
    requires n == |s| || IsSpace(s[n])
    ensures Word(s) == s[..n]
  {
    if n > 0 {
      assert s[..n][0] == s[0];
      assert s[1..][..n - 1] == s[1..n];
      WordOfPrefix(s[1..], n - 1);
      assert s[..n] == [s[0]] + s[1..n];
    }
  }

  /** The fields of a string that starts with a word of n letters: that word, then the fields of the rest. */
  lemma FieldsOfWord(s: string, n: nat)
    requires 0 < n <= |s| && NoSpace(s[..n])
    requires n == |s| || IsSpace(s[n])
    ensures Fields(s) == [s[..n]] + Fields(s[n..])
  {
    assert !IsSpace(s[..n][0]);
    assert TrimLeft(s) == s;
    WordOfPrefix(s, n);
  }

  /** Leading white space does not change the fields. */
  lemma FieldsSkipSpace(s: string, i: nat)
    requires i < |s| && IsSpace(s[i])
    ensures Fields(s[i..]) == Fields(s[i + 1..])
  {
    assert s[i..][1..] == s[i + 1..];
    assert TrimLeft(s[i..]) == TrimLeft(s[i + 1..]);
  }

  /** A non-empty sequence is its head followed by its tail. */
  lemma ConsTail<T>(xs: seq<T>)
    requires xs != []
    ensures [xs[0]] + xs[1..] == xs
  {
  }

  /** Non-empty words without white space, as Fields produces them. */
  predicate Words(ws: seq<string>) {
    forall k :: 0 <= k < |ws| ==> ws[k] != "" && NoSpace(ws[k])
  }

  /** Splitting a space-separated join of words into fields gives back the words. */
  lemma {:induction false} FieldsJoin(ws: seq<string>)
    requires ws != [] && Words(ws)
    ensures Fields(Join(ws, ' ')) == ws
  {
    if |ws| == 1 {
      FieldsOfOneWord(ws[0]);
    } else {
      assert Words(ws[1..]) by {
        forall k | 0 <= k < |ws| - 1 ensures ws[1..][k] != "" && NoSpace(ws[1..][k]) {
          assert ws[1..][k] == ws[k + 1];
        }
      }
      FieldsJoin(ws[1..]);
      FieldsJoinCons(ws);
    }
  }

  /** The fields of a single word are that word. */
  lemma FieldsOfOneWord(w: string)
    requires w != "" && NoSpace(w)
    ensures Fields(Join([w], ' ')) == [w]
  {
    var s := Join([w], ' ');
    assert s == w;
    assert s[..|w|] == w && s[|w|..] == [];
    FieldsOfWord(s, |w|);
    assert Fields([]) == [];
  }

  /** The inductive step of FieldsJoin: a first word before a join whose fields are the other words. */
  lemma FieldsJoinCons(ws: seq<string>)
    requires |ws| > 1 && ws[0] != "" && NoSpace(ws[0])
    requires Fields(Join(ws[1..], ' ')) == ws[1..]
    ensures Fields(Join(ws, ' ')) == ws
  {
    var s := Join(ws, ' ');
    var n := |ws[0]|;
    JoinCons(ws, ' ');
    FieldsOfWord(s, n);
    FieldsSkipSpace(s, n);
    assert Fields(s) == [ws[0]] + ws[1..];
    ConsTail(ws);
  }

  /** Parsing words joined by single spaces gives the first word lower-cased and the others as they are. */
  lemma ParseWords(ws: seq<string>)
    requires ws != [] && Words(ws)
    ensures ParseCommand(Join(ws, ' ')) == (ToLower(ws[0]), ws[1..])
  {
    var s := Join(ws, ' ');
    JoinEnds(ws);
    TrimSpaceNoop(s);
    FieldsJoin(ws);
    assert ParseCommand(s) == ParseTrimmed(s);
    assert |ws| == 1 ==> ws[1..] == [];
  }
}
