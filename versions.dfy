/**
 * Version comparison: the numeric core (major.minor.patch) of a semantic version,
 * ordered field by field as section 11 of Semantic Versioning 2.0.0 prescribes.
 */
module Versions {
  import opened Wrappers
  import opened Text

  datatype Version = Version(major: nat, minor: nat, patch: nat)

  /** Precedence of numeric cores: the first differing field decides. */
  predicate Less(a: Version, b: Version) {
    a.major < b.major
    || (a.major == b.major && a.minor < b.minor)
    || (a.major == b.major && a.minor == b.minor && a.patch < b.patch)
  }

  /** The version library's error for a string that is not a version. */
  const InvalidSemVer := "Invalid Semantic Version"

  /** The value of field i, or 0 when the version text has fewer fields. */
  function FieldOr0(fields: seq<string>, i: nat): nat
    requires forall k :: 0 <= k < |fields| ==> IsDigits(fields[k])
  {
    if i < |fields| then
      assert IsDigits(fields[i]);
      DigitsValue(fields[i])
    else 0
  }

  /**
   * The version library's parser on the numeric core: an optional 'v', then one to three
   * dot-separated runs of digits; missing minor and patch fields are 0.
   */
  function Parse(s: string): (r: Result<Version>)
    ensures r.Err? ==> r.error == InvalidSemVer
  {
    ParseFields(Split(TrimPrefix(s, "v"), '.'))
  }

  /** The dot-separated fields of a version text: one to three runs of digits. */
  function ParseFields(fields: seq<string>): (r: Result<Version>)
    ensures r.Err? ==> r.error == InvalidSemVer
  {
    if 1 <= |fields| <= 3 && forall k :: 0 <= k < |fields| ==> IsDigits(fields[k]) then
      Ok(Version(FieldOr0(fields, 0), FieldOr0(fields, 1), FieldOr0(fields, 2)))
    else
      Err(InvalidSemVer)
  }

  /** The canonical text of a version. */
  function Format(v: Version): string {
    NatToString(v.major) + "." + NatToString(v.minor) + "." + NatToString(v.patch)
  }

  /** Reading back the canonical text of a version gives the version. */
  lemma ParseFormat(v: Version)
    ensures Parse(Format(v)) == Ok(v)
  {
    NatToStringRoundTrip(v.major);
    NatToStringRoundTrip(v.minor);
    NatToStringRoundTrip(v.patch);
    ParseDotted(NatToString(v.major), NatToString(v.minor), NatToString(v.patch));
  }

  /** A text d1.d2.d3 of three digit runs parses as the version (d1, d2, d3). */
  lemma ParseDotted(d1: string, d2: string, d3: string)
    requires IsDigits(d1) && IsDigits(d2) && IsDigits(d3)
    ensures Parse(d1 + "." + d2 + "." + d3) == Ok(Version(DigitsValue(d1), DigitsValue(d2), DigitsValue(d3)))
  {
    DottedPieces(d1, d2, d3);
    ThreeFields(d1, d2, d3);
  }

  /** Three runs of digits are the version they spell. */
  lemma ThreeFields(d1: string, d2: string, d3: string)
    requires IsDigits(d1) && IsDigits(d2) && IsDigits(d3)
    ensures ParseFields([d1, d2, d3]) == Ok(Version(DigitsValue(d1), DigitsValue(d2), DigitsValue(d3)))
  {
    var fields := [d1, d2, d3];
    assert forall k :: 0 <= k < |fields| ==> IsDigits(fields[k]);
    assert FieldOr0(fields, 0) == DigitsValue(d1) && FieldOr0(fields, 1) == DigitsValue(d2)
      && FieldOr0(fields, 2) == DigitsValue(d3);
  }

  /** Such a text has no leading 'v' and splits into its three runs. */
  lemma DottedPieces(d1: string, d2: string, d3: string)
    requires IsDigits(d1) && IsDigits(d2) && IsDigits(d3)
    ensures var s := d1 + "." + d2 + "." + d3;
      TrimPrefix(s, "v") == s && Split(s, '.') == [d1, d2, d3]
  {
    var s := d1 + "." + d2 + "." + d3;
    var parts := [d1, d2, d3];
    assert Join(parts[1..][1..], '.') == d3;
    assert Join(parts[1..], '.') == d2 + "." + d3;
    assert Join(parts, '.') == s;
    assert forall k :: 0 <= k < |parts| ==> IsDigits(parts[k]);
    SplitJoin(parts, '.');
    assert s[0] == d1[0];
  }

  /** One leading 'v' is ignored by the parser. */
  lemma VPrefixIgnored(s: string)
    ensures Parse("v" + s) == Parse(TrimPrefix(s, "v")) || (s != [] && s[0] == 'v')
  {
    assert TrimPrefix("v" + s, "v") == s;
  }

  /**
   * CompareVersions: strips one leading 'v' from each side, parses both (the installed
   * one first) and reports whether latest is strictly newer than installed.
   */
  function CompareVersions(installed: string, latest: string): (r: Result<bool>)
    ensures r.Err? <==> Parse(TrimPrefix(installed, "v")).Err? || Parse(TrimPrefix(latest, "v")).Err?
    ensures Parse(TrimPrefix(installed, "v")).Err? ==> r == Err("invalid installed version: " + InvalidSemVer)
    ensures Parse(TrimPrefix(installed, "v")).Ok? && Parse(TrimPrefix(latest, "v")).Err?
      ==> r == Err("invalid latest version: " + InvalidSemVer)
  {
    var i := TrimPrefix(installed, "v");
    var l := TrimPrefix(latest, "v");
    match Parse(i)
    case Err(e) => Err("invalid installed version: " + e)
    case Ok(iv) =>
      match Parse(l)
      case Err(e) => Err("invalid latest version: " + e)
      case Ok(lv) => Ok(Less(iv, lv))
  }

  /** When both sides parse, an update is reported exactly when latest has higher precedence than installed. */
  lemma CompareMeansLess(installed: string, latest: string)
    requires Parse(TrimPrefix(installed, "v")).Ok? && Parse(TrimPrefix(latest, "v")).Ok?
    ensures CompareVersions(installed, latest)
      == Ok(Less(Parse(TrimPrefix(installed, "v")).value, Parse(TrimPrefix(latest, "v")).value))
  {
  }

  /** No version is newer than itself. */
  lemma CompareSelf(x: string)
    requires CompareVersions(x, x).Ok?
    ensures CompareVersions(x, x) == Ok(false)
  {
  }

  /** An update in one direction means none in the other. */
  lemma CompareAntisymmetric(a: string, b: string)
    requires CompareVersions(a, b) == Ok(true)
    ensures CompareVersions(b, a) == Ok(false)
  {
  }

  /** Reported updates chain. */
  lemma CompareTransitive(a: string, b: string, c: string)
    requires CompareVersions(a, b) == Ok(true) && CompareVersions(b, c) == Ok(true)
    ensures CompareVersions(a, c) == Ok(true)
  {
  }

  /** Two versions are either equal or one of them is newer. */
  lemma LessTotal(a: Version, b: Version)
    ensures a == b || Less(a, b) || Less(b, a)
  {
  }

  /** A missing patch field counts as 0: "x.y" and "x.y.0" parse to the same version. */
  lemma {:induction false} MissingPatchIsZero(s: string)
    requires Parse(s).Ok? && |Split(TrimPrefix(s, "v"), '.')| == 2
    ensures Parse(s + ".0") == Parse(s)
  {
    var fields := Split(TrimPrefix(s, "v"), '.');
    SplitDotZero(s);
    ZeroField();
    var fields' := fields + ["0"];
    assert fields'[0] == fields[0] && fields'[1] == fields[1] && fields'[2] == "0";
    assert forall k :: 0 <= k < |fields'| ==> IsDigits(fields'[k]);
    assert FieldOr0(fields', 2) == 0;
  }

  /** Appending ".0" to a version text appends the field "0" to its pieces. */
  lemma SplitDotZero(s: string)
    ensures Split(TrimPrefix(s + ".0", "v"), '.') == Split(TrimPrefix(s, "v"), '.') + ["0"]
  {
    var t := TrimPrefix(s, "v");
    var u := s + ".0";
    if "v" <= s {
      assert u[1..] == s[1..] + ".0";
    } else {
      assert u[0] != 'v';
    }
    assert TrimPrefix(u, "v") == t + ".0";
    assert t + ".0" == t + ['.'] + "0";
    SplitAppend(t, '.', "0");
  }

  /** "0" is a run of digits worth 0. */
  lemma ZeroField()
    ensures IsDigits("0") && DigitsValue("0") == 0
  {
    assert "0"[..0] == "";
  }

  /** Splitting s, a separator and a separator-free x gives the pieces of s followed by x. */
  lemma {:induction false} SplitAppend(s: string, sep: char, x: string)
    requires sep !in x
    ensures Split(s + [sep] + x, sep) == Split(s, sep) + [x]
    decreases |s|
  {
    var u := s + [sep] + x;
    if sep in s {
      var i := IndexOf(s, sep);
      assert u[..i] == s[..i];
      IndexOfIsFirst(u, sep, i);
      var tail := s[i + 1..];
      assert u[i + 1..] == tail + [sep] + x;
      calc {
        Split(u, sep);
        [s[..i]] + Split(tail + [sep] + x, sep);
        { SplitAppend(tail, sep, x); }
        [s[..i]] + (Split(tail, sep) + [x]);
        ([s[..i]] + Split(tail, sep)) + [x];
        Split(s, sep) + [x];
      }
    } else {
      assert u[..|s|] == s;
      IndexOfIsFirst(u, sep, |s|);
      assert u[|s| + 1..] == x;
      calc {
        Split(u, sep);
        [s] + Split(x, sep);
        [s] + [x];
        Split(s, sep) + [x];
      }
    }
  }

  lemma {:induction false} FormatExamples()
    ensures Format(Version(1, 2, 3)) == "1.2.3"
    ensures Format(Version(1, 3, 0)) == "1.3.0"
    ensures Format(Version(2, 0, 0)) == "2.0.0"
    ensures Format(Version(1, 9, 9)) == "1.9.9"
  {
  }

  lemma {:induction false} ParseExamples()
    ensures Parse("1.2.3") == Ok(Version(1, 2, 3))
    ensures Parse("1.3.0") == Ok(Version(1, 3, 0))
    ensures Parse("2.0.0") == Ok(Version(2, 0, 0))
    ensures Parse("1.9.9") == Ok(Version(1, 9, 9))
  {
    FormatExamples();
    ParseFormat(Version(1, 2, 3));
    ParseFormat(Version(1, 3, 0));
    ParseFormat(Version(2, 0, 0));
    ParseFormat(Version(1, 9, 9));
  }

  lemma {:induction false} ParseUnknown()
    ensures Parse("unknown").Err?
  {
    assert "unknown"[0] != 'v' && !("v" <= "unknown");
    assert TrimPrefix("unknown", "v") == "unknown";
    assert '.' !in "unknown";
    assert Split("unknown", '.') == ["unknown"];
    assert !IsDigit("unknown"[0]);
  }

  /** Equal versions report no update. */
  lemma {:induction false} CompareExampleEqual()
    ensures CompareVersions("1.2.3", "1.2.3") == Ok(false)
  {
    ParseExamples();
    assert TrimPrefix("1.2.3", "v") == "1.2.3";
    CompareMeansLess("1.2.3", "1.2.3");
  }

  /** A newer minor release is an update. */
  lemma {:induction false} CompareExampleNewer()
    ensures CompareVersions("1.2.3", "1.3.0") == Ok(true)
  {
    ParseExamples();
    assert TrimPrefix("1.2.3", "v") == "1.2.3";
    assert TrimPrefix("1.3.0", "v") == "1.3.0";
    CompareMeansLess("1.2.3", "1.3.0");
  }

  /** An installed version newer than the latest one is not an update. */
  lemma {:induction false} CompareExampleOlder()
    ensures CompareVersions("2.0.0", "1.9.9") == Ok(false)
  {
    ParseExamples();
    assert TrimPrefix("2.0.0", "v") == "2.0.0";
    assert TrimPrefix("1.9.9", "v") == "1.9.9";
    CompareMeansLess("2.0.0", "1.9.9");
  }

  /** A leading 'v' on one side makes no difference. */
  lemma {:induction false} CompareExampleVPrefix()
    ensures CompareVersions("v1.2.3", "1.2.3") == Ok(false)
  {
    ParseExamples();
    assert TrimPrefix("v1.2.3", "v") == "1.2.3";
    assert TrimPrefix("1.2.3", "v") == "1.2.3";
    CompareMeansLess("v1.2.3", "1.2.3");
  }

  /** A latest version that is not a version is an error, never an update. */
  lemma {:induction false} CompareExampleInvalid()
    ensures CompareVersions("1.2.3", "unknown") == Err("invalid latest version: " + InvalidSemVer)
  {
    ParseExamples();
    ParseUnknown();
    assert TrimPrefix("1.2.3", "v") == "1.2.3";
    assert TrimPrefix("unknown", "v") == "unknown";
  }
}
