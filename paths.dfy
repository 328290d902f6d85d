/**
 * The per-OS directory table and the PATH search. A file-system path is a sequence of
 * segments: filepath.Join(a, b, c) is [a, b, c], and filepath.Clean is a parameter.
 */
module Paths {
  import opened Wrappers
  import opened Text
  import opened Detector

  type FilePath = seq<string>

  datatype Dirs = Dirs(home: string, configDir: FilePath, cacheDir: FilePath, binDir: FilePath, dataDir: FilePath)

  /** d is home joined with at least one further segment. */
  predicate Under(d: FilePath, home: string) {
    |d| >= 2 && d[0] == home
  }

  /**
   * GetPaths: the four agenthelper directories for the OS, below the user's home
   * directory; a failed home-directory lookup is passed on.
   */
  method GetPaths(home: Result<string>, goos: string) returns (res: Result<Dirs>)
    ensures home.Err? ==> res == Err(home.error)
    ensures home.Ok? ==> res.Ok? && res.value.home == home.value
    ensures res.Ok? ==> var p := res.value;
      Under(p.configDir, p.home) && Under(p.cacheDir, p.home) && Under(p.binDir, p.home) && Under(p.dataDir, p.home)
    ensures res.Ok? ==> var p := res.value;
      p.configDir != p.cacheDir && p.configDir != p.binDir && p.configDir != p.dataDir
      && p.cacheDir != p.binDir && p.cacheDir != p.dataDir && p.binDir != p.dataDir
    ensures res.Ok? && IsWindows(goos) ==> var p := res.value;
      p.configDir[1] == "AppData" && p.cacheDir[1] == "AppData" && p.binDir[1] == "AppData" && p.dataDir[1] == "AppData"
      && p.cacheDir == p.dataDir + ["cache"]
    ensures res.Ok? && !IsWindows(goos) ==> var p := res.value;
      p.configDir == [p.home, ".config", "agenthelper"] && p.binDir == [p.home, ".local", "bin"]
    ensures res.Ok? && IsDarwin(goos) ==> var p := res.value;
      p.cacheDir[1] == "Library" && p.dataDir[1] == "Library"
  {
    if home.Err? {
      return Err(home.error);
    }
    var h := home.value;
    var p := Dirs(h, [], [], [], []);
    match OSOf(goos) {
      case Windows =>
        p := p.(configDir := [h, "AppData", "Roaming", "agenthelper"]);
        p := p.(cacheDir := [h, "AppData", "Local", "agenthelper", "cache"]);
        p := p.(dataDir := [h, "AppData", "Local", "agenthelper"]);
        p := p.(binDir := [h, "AppData", "Local", "Programs", "agenthelper"]);
      case Darwin =>
        p := p.(configDir := [h, ".config", "agenthelper"]);
        p := p.(cacheDir := [h, "Library", "Caches", "agenthelper"]);
        p := p.(dataDir := [h, "Library", "Application Support", "agenthelper"]);
        p := p.(binDir := [h, ".local", "bin"]);
      case _ =>
        p := p.(configDir := [h, ".config", "agenthelper"]);
        p := p.(cacheDir := [h, ".cache", "agenthelper"]);
        p := p.(dataDir := [h, ".local", "share", "agenthelper"]);
        p := p.(binDir := [h, ".local", "bin"]);
    }
    return Ok(p);
  }

  /** filepath.ListSeparator. */
  function ListSeparator(goos: string): char {
    if IsWindows(goos) then ';' else ':'
  }

  /**
   * The pieces of a Windows PATH before the quotes are removed: cut at every ';' outside
   * double quotes. inQuotes says whether s starts inside a quoted stretch.
   */
  function SplitOutsideQuotes(s: string, inQuotes: bool): (pieces: seq<string>)
    ensures |pieces| >= 1
    decreases |s|
  {
    if s == [] then [""]
    else if s[0] == ';' && !inQuotes then [""] + SplitOutsideQuotes(s[1..], inQuotes)
    else
      var rest := SplitOutsideQuotes(s[1..], if s[0] == '"' then !inQuotes else inQuotes);
      [[s[0]] + rest[0]] + rest[1..]
  }

  /** strings.ReplaceAll(s, `"`, ``): the text with every double quote deleted. */
  function RemoveQuotes(s: string): (r: string)
    ensures forall c :: c in r <==> c in s && c != '"'
    ensures '"' !in s ==> r == s
    decreases |s|
  {
    if s == [] then ""
    else
      assert s == [s[0]] + s[1..];
      (if s[0] == '"' then "" else [s[0]]) + RemoveQuotes(s[1..])
  }

  /**
   * filepath.SplitList: nothing for an empty list. On Windows the list is cut at each ';'
   * outside double quotes and the quotes are then deleted from every entry; elsewhere it
   * is cut at every ':'.
   */
  function SplitList(pathVar: string, goos: string): (entries: seq<string>)
  {
    if pathVar == "" then []
    else if IsWindows(goos) then
      var pieces := SplitOutsideQuotes(pathVar, false);
      seq(|pieces|, k requires 0 <= k < |pieces| => RemoveQuotes(pieces[k]))
    else Split(pathVar, ListSeparator(goos))
  }

  /** Putting a character in front of the first piece puts it in front of the join. */
  lemma JoinPrepend(c: char, rest: seq<string>, sep: char)
    requires |rest| >= 1
    ensures Join([[c] + rest[0]] + rest[1..], sep) == [c] + Join(rest, sep)
  {
    if |rest| > 1 {
      assert rest == [rest[0]] + rest[1..];
      JoinCons(rest[0], rest[1..], sep);
      JoinCons([c] + rest[0], rest[1..], sep);
    }
  }

  /** Joining the pieces of SplitOutsideQuotes with ';' gives the text back. */
  lemma {:induction false} JoinOutsideQuotes(s: string, inQuotes: bool)
    ensures Join(SplitOutsideQuotes(s, inQuotes), ';') == s
    decreases |s|
  {
    if s != [] {
      var c, tail := s[0], s[1..];
      assert s == [c] + tail;
      if c == ';' && !inQuotes {
        var rest := SplitOutsideQuotes(tail, inQuotes);
        calc {
          Join(SplitOutsideQuotes(s, inQuotes), ';');
          Join([""] + rest, ';');
          { JoinCons("", rest, ';'); }
          "" + [';'] + Join(rest, ';');
          { JoinOutsideQuotes(tail, inQuotes); }
          [c] + tail;
        }
      } else {
        var q := if c == '"' then !inQuotes else inQuotes;
        var rest := SplitOutsideQuotes(tail, q);
        calc {
          Join(SplitOutsideQuotes(s, inQuotes), ';');
          Join([[c] + rest[0]] + rest[1..], ';');
          { JoinPrepend(c, rest, ';'); }
          [c] + Join(rest, ';');
          { JoinOutsideQuotes(tail, q); }
          [c] + tail;
        }
      }
    }
  }

  /** Without double quotes every ';' splits: no piece holds a ';' or a '"'. */
  lemma {:induction false} PlainPieces(s: string)
    requires '"' !in s
    ensures forall k :: 0 <= k < |SplitOutsideQuotes(s, false)| ==>
      ';' !in SplitOutsideQuotes(s, false)[k] && '"' !in SplitOutsideQuotes(s, false)[k]
    decreases |s|
  {
    if s != [] {
      assert s[0] != '"' && '"' !in s[1..];
      PlainPieces(s[1..]);
    }
  }

  /**
   * On Windows the entries are the quote-free pieces of the list, which join back to the
   * list; a list without double quotes is cut at every ';' as strings.Split cuts it.
   */
  lemma {:induction false} WindowsSplitList(pathVar: string, goos: string)
    requires IsWindows(goos) && pathVar != ""
    ensures var pieces := SplitOutsideQuotes(pathVar, false);
      Join(pieces, ';') == pathVar
      && |SplitList(pathVar, goos)| == |pieces|
      && (forall k :: 0 <= k < |pieces| ==> SplitList(pathVar, goos)[k] == RemoveQuotes(pieces[k]))
    ensures '"' !in pathVar ==> SplitList(pathVar, goos) == Split(pathVar, ';')
  {
    var pieces := SplitOutsideQuotes(pathVar, false);
    JoinOutsideQuotes(pathVar, false);
    if '"' !in pathVar {
      PlainPieces(pathVar);
      var entries := SplitList(pathVar, goos);
      assert entries == pieces by {
        forall k | 0 <= k < |pieces| ensures entries[k] == pieces[k] {
          assert '"' !in pieces[k];
        }
      }
      SplitJoin(pieces, ';');
    }
  }

  /**
   * GetEnvPath: the PATH value cut by filepath.SplitList; nothing for an empty PATH.
   * On Windows no entry holds a double quote. Unless the PATH holds a double quote on
   * Windows, joining the entries back gives the PATH value and no entry holds a separator.
   */
  function GetEnvPath(pathVar: string, goos: string): (entries: seq<string>)
    ensures pathVar == "" <==> entries == []
    ensures IsWindows(goos) ==> forall k :: 0 <= k < |entries| ==> '"' !in entries[k]
    ensures pathVar != "" && (!IsWindows(goos) || '"' !in pathVar) ==>
      Join(entries, ListSeparator(goos)) == pathVar
      && forall k :: 0 <= k < |entries| ==> ListSeparator(goos) !in entries[k]
  {
    if pathVar == "" then []
    else if IsWindows(goos) then
      WindowsSplitList(pathVar, goos);
      JoinSplit(pathVar, ';');
      SplitList(pathVar, goos)
    else
      JoinSplit(pathVar, ListSeparator(goos));
      SplitList(pathVar, goos)
  }

  /** A ';' outside quotes in front of a text ends a piece. */
  lemma CutCons(tail: string)
    ensures SplitOutsideQuotes([';'] + tail, false) == [""] + SplitOutsideQuotes(tail, false)
  {
    assert ([';'] + tail)[1..] == tail;
  }

  /** Any other first character joins the first piece; next is the quote state after it. */
  lemma KeepCons(c: char, tail: string, inQuotes: bool, next: bool)
    requires !(c == ';' && !inQuotes)
    requires next == if c == '"' then !inQuotes else inQuotes
    ensures var rest := SplitOutsideQuotes(tail, next);
      SplitOutsideQuotes([c] + tail, inQuotes) == [[c] + rest[0]] + rest[1..]
  {
    assert ([c] + tail)[1..] == tail;
  }

  /** Inside quotes, text without a '"' and its closing quote stay with the piece that follows. */
  lemma {:induction false} InsideQuotes(x: string, tail: string)
    requires '"' !in x
    ensures var rest := SplitOutsideQuotes(tail, false);
      SplitOutsideQuotes(x + ['"'] + tail, true) == [x + ['"'] + rest[0]] + rest[1..]
    decreases |x|
  {
    var rest := SplitOutsideQuotes(tail, false);
    if x == [] {
      assert x + ['"'] + tail == ['"'] + tail;
      KeepCons('"', tail, true, false);
    } else {
      var c, x' := x[0], x[1..];
      var inner := SplitOutsideQuotes(x' + ['"'] + tail, true);
      assert x + ['"'] + tail == [c] + (x' + ['"'] + tail);
      assert inner == [x' + ['"'] + rest[0]] + rest[1..] by {
        assert '"' !in x';
        InsideQuotes(x', tail);
      }
      KeepCons(c, x' + ['"'] + tail, true, true);
      assert [c] + (x' + ['"'] + rest[0]) == x + ['"'] + rest[0];
    }
  }

  /** Text without ';' or '"' stays with the piece that follows. */
  lemma {:induction false} PlainPrefix(a: string, tail: string)
    requires ';' !in a && '"' !in a
    ensures var rest := SplitOutsideQuotes(tail, false);
      SplitOutsideQuotes(a + tail, false) == [a + rest[0]] + rest[1..]
    decreases |a|
  {
    var rest := SplitOutsideQuotes(tail, false);
    if a == [] {
      assert a + tail == tail && a + rest[0] == rest[0];
      assert rest == [rest[0]] + rest[1..];
    } else {
      var c, a' := a[0], a[1..];
      var inner := SplitOutsideQuotes(a' + tail, false);
      assert a + tail == [c] + (a' + tail);
      assert inner == [a' + rest[0]] + rest[1..] by {
        assert ';' !in a' && '"' !in a';
        PlainPrefix(a', tail);
      }
      KeepCons(c, a' + tail, false, false);
      assert [c] + (a' + rest[0]) == a + rest[0];
    }
  }

  /** Deleting quotes from a concatenation deletes them from each part. */
  lemma {:induction false} RemoveQuotesConcat(a: string, b: string)
    ensures RemoveQuotes(a + b) == RemoveQuotes(a) + RemoveQuotes(b)
    decreases |a|
  {
    if a == [] {
      assert a + b == b;
    } else {
      assert (a + b)[0] == a[0] && (a + b)[1..] == a[1..] + b;
      RemoveQuotesConcat(a[1..], b);
    }
  }

  /** A directory in double quotes loses exactly its quotes. */
  lemma {:induction false} RemoveEnclosingQuotes(x: string)
    requires '"' !in x
    ensures RemoveQuotes(['"'] + x + ['"']) == x
  {
    RemoveQuotesConcat(['"'] + x, ['"']);
    RemoveQuotesConcat(['"'], x);
    assert RemoveQuotes(['"']) == [] by {
      assert ['"'][1..] == [];
    }
  }

  /** A plain entry after a separator: an empty piece, then the entry. */
  lemma SeparatorThenPlain(b: string)
    requires ';' !in b && '"' !in b
    ensures SplitOutsideQuotes([';'] + b, false) == ["", b]
  {
    assert SplitOutsideQuotes(b, false) == [b] by {
      PlainPrefix(b, "");
      assert b + "" == b;
    }
    CutCons(b);
  }

  /** A quoted entry, a separator and a plain entry: two pieces. */
  lemma QuotedThenPlain(x: string, b: string)
    requires '"' !in x && ';' !in b && '"' !in b
    ensures SplitOutsideQuotes((['"'] + x + ['"']) + ([';'] + b), false) == [['"'] + x + ['"'], b]
  {
    var tail := [';'] + b;
    var closed := x + ['"'];
    var inner := SplitOutsideQuotes(closed + tail, true);
    assert inner == [closed, b] by {
      SeparatorThenPlain(b);
      InsideQuotes(x, tail);
      assert closed + "" == closed;
    }
    KeepCons('"', closed + tail, false, true);
    assert (['"'] + x + ['"']) + tail == ['"'] + (closed + tail);
    assert ['"'] + closed == ['"'] + x + ['"'];
  }

  /** The pieces of a plain entry, a quoted one and a plain one, before the quotes are removed. */
  lemma PiecesAroundQuoted(a: string, x: string, b: string)
    requires ';' !in a && '"' !in a && '"' !in x && ';' !in b && '"' !in b
    ensures SplitOutsideQuotes(a + ([';'] + ((['"'] + x + ['"']) + ([';'] + b))), false)
            == [a, ['"'] + x + ['"'], b]
  {
    var tail := (['"'] + x + ['"']) + ([';'] + b);
    assert SplitOutsideQuotes([';'] + tail, false) == ["", ['"'] + x + ['"'], b] by {
      QuotedThenPlain(x, b);
      CutCons(tail);
    }
    PlainPrefix(a, [';'] + tail);
    assert a + "" == a;
  }

  /**
   * A quoted entry between two plain ones stays whole on Windows, ';' included, and its
   * quotes are dropped.
   */
  lemma {:induction false} QuotedEntryKept(a: string, x: string, b: string)
    requires ';' !in a && '"' !in a && '"' !in x && ';' !in b && '"' !in b
    ensures SplitList(a + [';', '"'] + x + ['"', ';'] + b, "windows") == [a, x, b]
  {
    var s := a + [';', '"'] + x + ['"', ';'] + b;
    assert s == a + ([';'] + ((['"'] + x + ['"']) + ([';'] + b)));
    PiecesAroundQuoted(a, x, b);
    RemoveEnclosingQuotes(x);
    var entries := SplitList(s, "windows");
    assert |entries| == 3;
    assert entries[0] == a && entries[1] == x && entries[2] == b;
  }

  /** On Windows a PATH that is one quoted directory gives that directory without its quotes. */
  lemma {:induction false} QuotedDirectory(dir: string)
    requires '"' !in dir
    ensures GetEnvPath(['"'] + dir + ['"'], "windows") == [dir]
  {
    var closed := dir + ['"'];
    var s := ['"'] + closed;
    assert SplitOutsideQuotes(closed, true) == [closed] by {
      assert closed + "" == closed;
      InsideQuotes(dir, "");
      assert SplitOutsideQuotes("", false) == [""];
    }
    KeepCons('"', closed, false, true);
    assert SplitOutsideQuotes(s, false) == [s];
    assert s == ['"'] + dir + ['"'];
    RemoveEnclosingQuotes(dir);
  }

  /** IsInPath: some PATH entry equals dir once both are cleaned. */
  method IsInPath(dir: string, pathVar: string, goos: string, clean: string -> string) returns (found: bool)
    ensures found <==> exists k :: 0 <= k < |GetEnvPath(pathVar, goos)| && clean(GetEnvPath(pathVar, goos)[k]) == clean(dir)
  {
    var entries := GetEnvPath(pathVar, goos);
    var i := 0;
    while i < |entries|
      invariant 0 <= i <= |entries|
      invariant forall k :: 0 <= k < i ==> clean(entries[k]) != clean(dir)
    {
      if clean(entries[i]) == clean(dir) {
        return true;
      }
      i := i + 1;
    }
    return false;
  }

  predicate IsPathSeparator(c: char, goos: string) {
    c == '/' || (IsWindows(goos) && c == '\\')
  }

  /** filepath.Ext: the suffix from the last '.' of the final path element, or "" if it has none. */
  function Ext(path: string, goos: string): (ext: string)
    ensures ext == [] || (ext[0] == '.' && |ext| <= |path| && ext == path[|path| - |ext|..])
    ensures ext != [] ==> forall k :: 1 <= k < |ext| ==> ext[k] != '.' && !IsPathSeparator(ext[k], goos)
    ensures ext == [] ==> forall k :: 0 <= k < |path| && path[k] == '.' ==>
      exists m :: k < m < |path| && IsPathSeparator(path[m], goos)
  {
    ExtFrom(path, |path|, goos)
  }

  /** Ext, with the characters from n on already scanned. */
  function ExtFrom(path: string, n: nat, goos: string): (ext: string)
    requires n <= |path|
    requires forall k :: n <= k < |path| ==> path[k] != '.' && !IsPathSeparator(path[k], goos)
    ensures ext == [] || (ext[0] == '.' && |ext| <= |path| && ext == path[|path| - |ext|..])
    ensures ext != [] ==> forall k :: 1 <= k < |ext| ==> ext[k] != '.' && !IsPathSeparator(ext[k], goos)
    ensures ext == [] ==> forall k :: 0 <= k < |path| && path[k] == '.' ==>
      exists m :: k < m < |path| && IsPathSeparator(path[m], goos)
  {
    if n == 0 then ""
    else if IsPathSeparator(path[n - 1], goos) then
      assert forall k :: 0 <= k < |path| && path[k] == '.' ==> k < n - 1 && IsPathSeparator(path[n - 1], goos);
      ""
    else if path[n - 1] == '.' then path[n - 1..]
    else ExtFrom(path, n - 1, goos)
  }

  /** The file name searched for: on Windows a name without extension gets ".exe". */
  function ExecutableName(name: string, goos: string): (file: string)
    ensures !IsWindows(goos) ==> file == name
    ensures IsWindows(goos) && Ext(name, goos) != "" ==> file == name
    ensures IsWindows(goos) && Ext(name, goos) == "" ==> file == name + ".exe"
  {
    if IsWindows(goos) && Ext(name, goos) == "" then name + ".exe" else name
  }

  /** After adding ".exe" the name has that extension. */
  lemma {:induction false} ExtOfExe(name: string, goos: string)
    ensures Ext(name + ".exe", goos) == ".exe"
  {
    var s := name + ".exe";
    var n := |s|;
    assert s[n - 1] == 'e' && s[n - 2] == 'x' && s[n - 3] == 'e' && s[n - 4] == '.';
    assert s[n - 4..] == ".exe";
    assert ExtFrom(s, n - 3, goos) == ".exe";
    assert ExtFrom(s, n - 2, goos) == ".exe";
    assert ExtFrom(s, n - 1, goos) == ".exe";
  }

  /** Looking up an executable name a second time changes nothing. */
  lemma {:induction false} ExecutableNameIdempotent(name: string, goos: string)
    ensures ExecutableName(ExecutableName(name, goos), goos) == ExecutableName(name, goos)
  {
    if IsWindows(goos) && Ext(name, goos) == "" {
      ExtOfExe(name, goos);
    }
  }

  /** The text of os.ErrNotExist. */
  const ErrNotExist := "file does not exist"

  /** GetExecutablePath: dir/name for the first PATH entry, in order, where that file exists. */
  method GetExecutablePath(name: string, goos: string, pathVar: string, fileExists: FilePath -> bool)
    returns (res: Result<FilePath>)
    ensures var entries := GetEnvPath(pathVar, goos);
      res.Ok? ==> (exists k :: 0 <= k < |entries| && res.value == [entries[k], ExecutableName(name, goos)]
                              && fileExists(res.value)
                              && (forall k' :: 0 <= k' < k ==> !fileExists([entries[k'], ExecutableName(name, goos)])))
    ensures var entries := GetEnvPath(pathVar, goos);
      res.Err? <==> forall k :: 0 <= k < |entries| ==> !fileExists([entries[k], ExecutableName(name, goos)])
    ensures res.Err? ==> res.error == ErrNotExist
  {
    var file := name;
    if IsWindows(goos) && Ext(name, goos) == "" {
      file := name + ".exe";
    }
    assert file == ExecutableName(name, goos);
    res := SearchPath(GetEnvPath(pathVar, goos), file, fileExists);
  }

  /** The PATH loop of GetExecutablePath: dir/file for the first entry where it exists, in order. */
  method SearchPath(entries: seq<string>, file: string, fileExists: FilePath -> bool) returns (res: Result<FilePath>)
    ensures res.Ok? ==> (exists k :: 0 <= k < |entries| && res.value == [entries[k], file] && fileExists(res.value)
                                    && (forall k' :: 0 <= k' < k ==> !fileExists([entries[k'], file])))
    ensures res.Err? <==> forall k :: 0 <= k < |entries| ==> !fileExists([entries[k], file])
    ensures res.Err? ==> res.error == ErrNotExist
  {
    var i := 0;
    while i < |entries|
      invariant 0 <= i <= |entries|
      invariant forall k :: 0 <= k < i ==> !fileExists([entries[k], file])
    {
      var fullPath := [entries[i], file];
      if fileExists(fullPath) {
        return Ok(fullPath);
      }
      i := i + 1;
    }
    return Err(ErrNotExist);
  }
}
