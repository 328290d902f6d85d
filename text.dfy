/**
 * The parts of Go's `strings` and `strconv` packages that the core relies on, over
 * Dafny strings (sequences of code points). Case mapping is ASCII only.
 */
module Text {
  import opened Wrappers

  // ---------------------------------------------------------------- white space

  /** unicode.IsSpace: \t \n \v \f \r, space, U+0085, U+00A0 and the other White_Space code points. */
  predicate IsSpace(c: char) {
    var n := c as int;
    (9 <= n <= 13) || n == 32 || n == 0x85 || n == 0xA0 || n == 0x1680
    || (0x2000 <= n <= 0x200A) || n == 0x2028 || n == 0x2029 || n == 0x202F
    || n == 0x205F || n == 0x3000
  }

  predicate NoSpace(s: string) {
    forall k :: 0 <= k < |s| ==> !IsSpace(s[k])
  }

  /** Every character of s is white space (stated recursively, so that it unfolds one step at a time). */
  predicate AllSpace(s: string)
    decreases |s|
  {
    s == [] || (IsSpace(s[0]) && AllSpace(s[1..]))
  }

  /** Each character of an all-white-space string is white space. */
  lemma {:induction false} AllSpaceAt(s: string, k: nat)
    requires AllSpace(s) && k < |s|
    ensures IsSpace(s[k])
  {
    if k > 0 {
      AllSpaceAt(s[1..], k - 1);
    }
  }

  /** Two all-white-space strings joined are all white space. */
  lemma {:induction false} AllSpaceConcat(a: string, b: string)
    requires AllSpace(a) && AllSpace(b)
    ensures AllSpace(a + b)
    decreases |a|
  {
    if a != [] {
      assert (a + b)[0] == a[0] && (a + b)[1..] == a[1..] + b;
      AllSpaceConcat(a[1..], b);
    } else {
      assert a + b == b;
    }
  }

  /** strings.TrimLeftFunc(s, unicode.IsSpace): drops the leading white space. */
  function TrimLeft(s: string): (r: string)
    ensures |r| <= |s|
  {
    if |s| > 0 && IsSpace(s[0]) then TrimLeft(s[1..]) else s
  }

  /** TrimLeft drops exactly the leading white space. */
  lemma {:induction false} TrimLeftTrims(s: string)
    ensures TrimmedLeft(s, TrimLeft(s))
    decreases |s|
  {
    if |s| > 0 && IsSpace(s[0]) {
      TrimLeftTrims(s[1..]);
      TrimmedLeftCons(s, TrimLeft(s[1..]));
    } else {
      assert s[..0] == [] && s[0..] == s;
    }
  }

  /** r is s without its leading white space: a suffix of s after only white space, not starting with any. */
  predicate TrimmedLeft(s: string, r: string) {
    |r| <= |s| && r == s[|s| - |r|..] && AllSpace(s[..|s| - |r|]) && (r == [] || !IsSpace(r[0]))
  }

  /** Trimming after a leading white-space character trims the whole string. */
  lemma TrimmedLeftCons(s: string, r: string)
    requires |s| > 0 && IsSpace(s[0]) && TrimmedLeft(s[1..], r)
    ensures TrimmedLeft(s, r)
  {
    var t, n := s[1..], |s| - |r|;
    assert t[n - 1..] == s[n..];
    assert s[..n][1..] == t[..n - 1];
  }

  /** strings.TrimRightFunc(s, unicode.IsSpace): drops the trailing white space. */
  function TrimRight(s: string): (r: string)
    ensures |r| <= |s|
  {
    if |s| > 0 && IsSpace(s[|s| - 1]) then TrimRight(s[..|s| - 1]) else s
  }

  /** TrimRight drops exactly the trailing white space. */
  lemma {:induction false} TrimRightTrims(s: string)
    ensures TrimmedRight(s, TrimRight(s))
    decreases |s|
  {
    if |s| > 0 && IsSpace(s[|s| - 1]) {
      TrimRightTrims(s[..|s| - 1]);
      TrimmedRightSnoc(s, TrimRight(s[..|s| - 1]));
    } else {
      assert s[|s|..] == [] && s[..|s|] == s;
    }
  }

  /** r is s without its trailing white space: a prefix of s before only white space, not ending in any. */
  predicate TrimmedRight(s: string, r: string) {
    |r| <= |s| && r == s[..|r|] && AllSpace(s[|r|..]) && (r == [] || !IsSpace(r[|r| - 1]))
  }

  /** Trimming before a trailing white-space character trims the whole string. */
  lemma TrimmedRightSnoc(s: string, r: string)
    requires |s| > 0 && IsSpace(s[|s| - 1]) && TrimmedRight(s[..|s| - 1], r)
    ensures TrimmedRight(s, r)
  {
    var t := s[..|s| - 1];
    assert t[..|r|] == s[..|r|];
    assert s[|r|..] == t[|r|..] + [s[|s| - 1]];
    assert AllSpace([s[|s| - 1]]);
    AllSpaceConcat(t[|r|..], [s[|s| - 1]]);
  }

  /** strings.TrimSpace. */
  function TrimSpace(s: string): (r: string)
    ensures |r| <= |s|
    ensures r == [] || (!IsSpace(r[0]) && !IsSpace(r[|r| - 1]))
    ensures r == [] <==> AllSpace(s)
  {
    var t := TrimLeft(s);
    var r := TrimRight(t);
    TrimLeftTrims(s);
    TrimRightTrims(t);
    TrimmedBoth(s, t, r);
    r
  }

  /** Trimming the left and then the right leaves nothing exactly when s is all white space. */
  lemma TrimmedBoth(s: string, t: string, r: string)
    requires TrimmedLeft(s, t) && TrimmedRight(t, r)
    ensures r != [] ==> r[0] == t[0]
    ensures r == [] <==> AllSpace(s)
  {
    TrimmedLeftEmpty(s, t);
  }

  /** Trimming the left leaves nothing exactly when s is all white space. */
  lemma TrimmedLeftEmpty(s: string, t: string)
    requires TrimmedLeft(s, t)
    ensures t == [] <==> AllSpace(s)
  {
    if t != [] {
      assert t[0] == s[|s| - |t|];
      if AllSpace(s) {
        AllSpaceAt(s, |s| - |t|);
      }
    } else {
      assert s[..|s|] == s;
    }
  }

  /** A string whose ends are not white space is its own TrimSpace. */
  lemma TrimSpaceNoop(s: string)
    requires s == [] || (!IsSpace(s[0]) && !IsSpace(s[|s| - 1]))
    ensures TrimSpace(s) == s
  {
    assert TrimLeft(s) == s;
    assert TrimRight(s) == s;
  }

  // ---------------------------------------------------------------- case

  /** unicode.ToLower restricted to ASCII letters. */
  function LowerChar(c: char): char {
    if 'A' <= c <= 'Z' then (c as int + 32) as char else c
  }

  /** strings.ToLower restricted to ASCII letters. */
  function ToLower(s: string): (r: string)
    ensures |r| == |s|
    ensures forall k :: 0 <= k < |s| ==> r[k] == LowerChar(s[k])
  {
    seq(|s|, k requires 0 <= k < |s| => LowerChar(s[k]))
  }

  /** Lower-casing keeps a word free of white space and leaves no upper-case letter in it. */
  lemma ToLowerWord(w: string)
    requires NoSpace(w)
    ensures NoSpace(ToLower(w))
    ensures forall k :: 0 <= k < |w| ==> !('A' <= ToLower(w)[k] <= 'Z')
  {
    var r := ToLower(w);
    forall k | 0 <= k < |r| ensures !IsSpace(r[k]) && !('A' <= r[k] <= 'Z') {
      assert r[k] == LowerChar(w[k]);
    }
  }

  /** strings.EqualFold restricted to ASCII letters. */
  predicate EqualFold(a: string, b: string) {
    ToLower(a) == ToLower(b)
  }

  // ---------------------------------------------------------------- prefixes and search

  /** strings.HasPrefix. */
  predicate HasPrefix(s: string, prefix: string) {
    prefix <= s
  }

  /** strings.TrimPrefix: removes one leading copy of prefix, if there is one. */
  function TrimPrefix(s: string, prefix: string): string {
    if prefix <= s then s[|prefix|..] else s
  }

  /** strings.Contains. */
  predicate Contains(s: string, sub: string)
    decreases |s|
  {
    sub <= s || (|s| > 0 && Contains(s[1..], sub))
  }

  /** A string contains whatever occurs in it after some prefix. */
  lemma {:induction false} ContainsAfter(pre: string, sub: string, rest: string)
    ensures Contains(pre + sub + rest, sub)
    decreases |pre|
  {
    var s := pre + sub + rest;
    if pre == [] {
      assert s[..|sub|] == sub;
    } else {
      assert s[1..] == pre[1..] + sub + rest;
      ContainsAfter(pre[1..], sub, rest);
    }
  }

  /** The index of the first occurrence of c in s. */
  function IndexOf(s: string, c: char): (i: nat)
    requires c in s
    ensures i < |s| && s[i] == c && c !in s[..i]
  {
    if s[0] == c then 0
    else
      var j := IndexOf(s[1..], c);
      assert s[..1 + j] == [s[0]] + s[1..][..j];
      1 + j
  }

  lemma {:induction false} IndexOfIsFirst(s: string, c: char, i: nat)
    requires i < |s| && s[i] == c && c !in s[..i]
    ensures IndexOf(s, c) == i
  {
    if i > 0 {
      assert s[0] in s[..i];
      assert s[1..][..i - 1] == s[1..i];
      assert s[1..i] <= s[..i] || forall x :: x in s[1..i] ==> x in s[..i];
      IndexOfIsFirst(s[1..], c, i - 1);
    }
  }

  // ---------------------------------------------------------------- splitting

  /** strings.Split with a one-character separator. */
  function Split(s: string, sep: char): (parts: seq<string>)
    ensures |parts| >= 1
    ensures forall k :: 0 <= k < |parts| ==> sep !in parts[k]
    decreases |s|
  {
    if sep !in s then [s]
    else
      var i := IndexOf(s, sep);
      [s[..i]] + Split(s[i + 1..], sep)
  }

  /** strings.Join with a one-character separator. */
  function Join(parts: seq<string>, sep: char): string
  {
    if parts == [] then ""
    else if |parts| == 1 then parts[0]
    else parts[0] + [sep] + Join(parts[1..], sep)
  }

  /** Joining the pieces of a split gives back the original string. */
  lemma {:induction false} JoinSplit(s: string, sep: char)
    ensures Join(Split(s, sep), sep) == s
    decreases |s|
  {
    if sep in s {
      var i := IndexOf(s, sep);
      var head, tail := s[..i], s[i + 1..];
      var rest := Split(tail, sep);
      calc {
        Join(Split(s, sep), sep);
        Join([head] + rest, sep);
        { JoinCons(head, rest, sep); }
        head + [sep] + Join(rest, sep);
        { JoinSplit(tail, sep); }
        head + [sep] + tail;
      }
      assert s == head + [sep] + tail;
    }
  }

  /** Join of a head before a non-empty rest: the head, the separator, then the rest joined. */
  lemma JoinCons(head: string, rest: seq<string>, sep: char)
    requires |rest| >= 1
    ensures Join([head] + rest, sep) == head + [sep] + Join(rest, sep)
  {
    var parts := [head] + rest;
    assert |parts| > 1 && parts[0] == head && parts[1..] == rest;
  }

  /** Splitting a join of separator-free pieces gives back the pieces. */
  lemma {:induction false} SplitJoin(parts: seq<string>, sep: char)
    requires |parts| >= 1
    requires forall k :: 0 <= k < |parts| ==> sep !in parts[k]
    ensures Split(Join(parts, sep), sep) == parts
  {
    if |parts| > 1 {
      var s := Join(parts, sep);
      var n := |parts[0]|;
      assert s[..n] == parts[0];
      assert s[n] == sep;
      IndexOfIsFirst(s, sep, n);
      assert s[n + 1..] == Join(parts[1..], sep);
      assert Split(s, sep) == [parts[0]] + Split(Join(parts[1..], sep), sep);
      SplitJoin(parts[1..], sep);
      assert parts == [parts[0]] + parts[1..];
    }
  }

  /** The longest prefix of s without white space. */
  function Word(s: string): (w: string)
    ensures w <= s && NoSpace(w)
    ensures |w| == |s| || IsSpace(s[|w|])
    ensures |s| > 0 && !IsSpace(s[0]) ==> |w| > 0
  {
    if |s| > 0 && !IsSpace(s[0]) then [s[0]] + Word(s[1..]) else []
  }

  lemma FieldsCons(w: string, rest: seq<string>)
    requires w != [] && NoSpace(w)
    requires forall k :: 0 <= k < |rest| ==> rest[k] != [] && NoSpace(rest[k])
    ensures forall k :: 0 <= k < |[w] + rest| ==> ([w] + rest)[k] != [] && NoSpace(([w] + rest)[k])
  {
  }

  /** strings.Fields: the maximal runs of non-space characters, in order. */
  function Fields(s: string): (fs: seq<string>)
    ensures forall k :: 0 <= k < |fs| ==> fs[k] != [] && NoSpace(fs[k])
    ensures fs == [] <==> AllSpace(s)
    decreases |s|
  {
    var t := TrimLeft(s);
    TrimLeftTrims(s);
    TrimmedLeftEmpty(s, t);
    if t == [] then []
    else
      var w := Word(t);
      assert w != [] && NoSpace(w);
      var rest := Fields(t[|w|..]);
      FieldsCons(w, rest);
      [w] + rest
  }

  // ---------------------------------------------------------------- numbers

  predicate IsDigit(c: char) {
    '0' <= c <= '9'
  }

  /** A non-empty run of decimal digits. */
  predicate IsDigits(s: string) {
    |s| > 0 && forall k :: 0 <= k < |s| ==> IsDigit(s[k])
  }

  /** The value of a string of decimal digits. */
  function DigitsValue(s: string): nat
    requires forall k :: 0 <= k < |s| ==> IsDigit(s[k])
  {
    if s == [] then 0
    else
      var last := s[|s| - 1];
      assert IsDigit(last);
      DigitsValue(s[..|s| - 1]) * 10 + (last as int - '0' as int)
  }

  function DigitChar(d: nat): char
    requires d < 10
  {
    ('0' as int + d) as char
  }

  /** strconv.Itoa for non-negative values. */
  function NatToString(n: nat): (s: string)
    ensures IsDigits(s)
  {
    if n < 10 then [DigitChar(n)] else NatToString(n / 10) + [DigitChar(n % 10)]
  }

  /** Printing a number in decimal and reading it back gives the number. */
  lemma {:induction false} NatToStringRoundTrip(n: nat)
    ensures DigitsValue(NatToString(n)) == n
  {
    if n >= 10 {
      var s := NatToString(n);
      assert s[..|s| - 1] == NatToString(n / 10);
      NatToStringRoundTrip(n / 10);
    }
  }

  /**
   * strconv.Atoi: an optional sign followed by one or more decimal digits; None for
   * anything else. The 64-bit range check is not modelled.
   */
  function Atoi(s: string): (r: Option<int>)
    ensures r.Some? <==> IsDigits(s) || (|s| > 0 && (s[0] == '+' || s[0] == '-') && IsDigits(s[1..]))
    ensures IsDigits(s) ==> r == Some(DigitsValue(s))
    ensures |s| > 0 && s[0] == '+' && IsDigits(s[1..]) ==> r == Some(DigitsValue(s[1..]))
    ensures |s| > 0 && s[0] == '-' && IsDigits(s[1..]) ==> r == Some(-(DigitsValue(s[1..]) as int))
  {
    if |s| > 0 && (s[0] == '+' || s[0] == '-') then
      if IsDigits(s[1..]) then
        var v: int := DigitsValue(s[1..]);
        Some(if s[0] == '-' then -v else v)
      else None
    else if IsDigits(s) then Some(DigitsValue(s))
    else None
  }
}
