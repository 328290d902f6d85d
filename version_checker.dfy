/**
 * Where the latest release of a tool is looked up, how each registry's reply becomes a
 * version string, and how a version is picked out of a tool's own version report.
 * HTTP transfer and JSON decoding are parameters: a Web value answers GET requests and
 * extracts a named field from a JSON body.
 */
module VersionChecker {
  import opened Wrappers
  import opened Text
  import Versions
  import Config

  /** The reply to one GET: a transport error, or a status code and the body (or the error reading it). */
  datatype HttpReply = TransportError(msg: string) | Response(status: nat, body: Result<string>)

  /** The network and the JSON decoder: get(url), and field(body, name) for a dotted field name. */
  datatype Web = Web(get: string -> HttpReply, field: (string, string) -> Result<string>)

  /** How one registry names itself in the three error messages. */
  datatype Endpoint = Endpoint(fetchWhat: string, who: string, parseWhat: string)

  const NpmEndpoint := Endpoint("npm version", "npm registry", "npm response")
  const GitHubEndpoint := Endpoint("GitHub version", "GitHub API", "GitHub response")
  const PyPIEndpoint := Endpoint("PyPI version", "PyPI", "PyPI response")
  const VSCodeEndpoint := Endpoint("VS Code version", "VS Code update API", "VS Code response")
  const CursorEndpoint := Endpoint("Cursor version", "Cursor API", "")

  const CursorURL := "https://download.todesktop.com/230313mzl4w4u92/latest.yml"

  /** The body of a reply, provided it arrived with status 200 and could be read. */
  function ReadBody(reply: HttpReply, ep: Endpoint): (r: Result<string>)
    ensures r.Ok? <==> reply.Response? && reply.status == 200 && reply.body.Ok?
    ensures r.Ok? ==> r.value == reply.body.value
    ensures reply.Response? && reply.status != 200 ==> r == Err(ep.who + " returned status " + NatToString(reply.status))
  {
    match reply
    case TransportError(msg) => Err("failed to fetch " + ep.fetchWhat + ": " + msg)
    case Response(status, body) =>
      if status != 200 then Err(ep.who + " returned status " + NatToString(status))
      else if body.Err? then Err("failed to read response: " + body.error)
      else Ok(body.value)
  }

  /** A JSON field of a 200 reply's body. */
  function ReadField(reply: HttpReply, ep: Endpoint, web: Web, name: string): (r: Result<string>)
    ensures r.Ok? ==> ReadBody(reply, ep).Ok? && web.field(ReadBody(reply, ep).value, name) == r
    ensures ReadBody(reply, ep).Err? ==> r == ReadBody(reply, ep)
  {
    match ReadBody(reply, ep)
    case Err(e) => Err(e)
    case Ok(body) =>
      match web.field(body, name)
      case Err(e) => Err("failed to parse " + ep.parseWhat + ": " + e)
      case Ok(v) => Ok(v)
  }

  function NpmURL(pkg: string): string { "https://registry.npmjs.org/" + pkg }
  function GitHubURL(owner: string, repo: string): string { "https://api.github.com/repos/" + owner + "/" + repo + "/releases/latest" }
  function PyPIURL(pkg: string): string { "https://pypi.org/pypi/" + pkg + "/json" }
  function VSCodeURL(channel: string): string { "https://update.code.visualstudio.com/api/update/win32-x64-user/" + channel + "/latest" }

  /** getLatestNpmVersion: dist-tags.latest of the registry document, verbatim. */
  function NpmVersion(pkg: string, web: Web): Result<string> {
    ReadField(web.get(NpmURL(pkg)), NpmEndpoint, web, "dist-tags.latest")
  }

  /** getLatestGitHubVersion: tag_name of the latest release without one leading 'v'. */
  function GitHubVersion(owner: string, repo: string, web: Web): (r: Result<string>)
    ensures var tag := ReadField(web.get(GitHubURL(owner, repo)), GitHubEndpoint, web, "tag_name");
      r.Ok? <==> tag.Ok?
    ensures var tag := ReadField(web.get(GitHubURL(owner, repo)), GitHubEndpoint, web, "tag_name");
      r.Ok? ==> (HasPrefix(tag.value, "v") ==> "v" + r.value == tag.value)
                && (!HasPrefix(tag.value, "v") ==> r.value == tag.value)
  {
    match ReadField(web.get(GitHubURL(owner, repo)), GitHubEndpoint, web, "tag_name")
    case Err(e) => Err(e)
    case Ok(tag) => Ok(TrimPrefix(tag, "v"))
  }

  /** getLatestPyPIVersion: info.version of the package document, verbatim. */
  function PyPIVersion(pkg: string, web: Web): Result<string> {
    ReadField(web.get(PyPIURL(pkg)), PyPIEndpoint, web, "info.version")
  }

  /** The update channel, "stable" when none is configured. */
  function VSCodeChannel(channel: string): (c: string)
    ensures c != ""
    ensures channel != "" ==> c == channel
  {
    if channel == "" then "stable" else channel
  }

  /** getLatestVSCodeVersion: productVersion up to its first '-'. */
  function VSCodeVersion(channel: string, web: Web): (r: Result<string>)
    ensures var pv := ReadField(web.get(VSCodeURL(VSCodeChannel(channel))), VSCodeEndpoint, web, "productVersion");
      r.Ok? <==> pv.Ok?
    ensures var pv := ReadField(web.get(VSCodeURL(VSCodeChannel(channel))), VSCodeEndpoint, web, "productVersion");
      r.Ok? ==> '-' !in r.value && r.value <= pv.value && (r.value == pv.value || pv.value[|r.value|] == '-')
  {
    match ReadField(web.get(VSCodeURL(VSCodeChannel(channel))), VSCodeEndpoint, web, "productVersion")
    case Err(e) => Err(e)
    case Ok(pv) =>
      JoinSplit(pv, '-');
      Ok(Split(pv, '-')[0])
  }

  /** The version a manifest line declares, if its trimmed form starts with "version:". */
  function LineVersion(line: string): Option<string> {
    var t := TrimSpace(line);
    if HasPrefix(t, "version:") then Some(TrimSpace(TrimPrefix(t, "version:"))) else None
  }

  /** The first f(x) that is Some, for x in xs in order. */
  function FirstSome<T, U>(xs: seq<T>, f: T -> Option<U>): Option<U> {
    if xs == [] then None
    else if f(xs[0]).Some? then f(xs[0])
    else FirstSome(xs[1..], f)
  }

  /** FirstSome is None exactly when every f(x) is, and otherwise the value of the first x with a value. */
  lemma {:induction false} FirstSomeIsFirst<T, U>(xs: seq<T>, f: T -> Option<U>)
    ensures FirstSome(xs, f).None? <==> forall i :: 0 <= i < |xs| ==> f(xs[i]).None?
    ensures FirstSome(xs, f).Some? ==>
      (exists i :: 0 <= i < |xs| && f(xs[i]) == FirstSome(xs, f) && (forall j :: 0 <= j < i ==> f(xs[j]).None?))
  {
    if xs != [] && f(xs[0]).None? {
      var rest := xs[1..];
      FirstSomeIsFirst(rest, f);
      if FirstSome(rest, f).Some? {
        var i :| 0 <= i < |rest| && f(rest[i]) == FirstSome(rest, f) && (forall j :: 0 <= j < i ==> f(rest[j]).None?);
        assert xs[i + 1] == rest[i];
        forall j | 0 <= j < i + 1
          ensures f(xs[j]).None?
        {
          if j > 0 {
            assert xs[j] == rest[j - 1];
          }
        }
      } else {
        forall i | 0 <= i < |xs|
          ensures f(xs[i]).None?
        {
          if i > 0 {
            assert xs[i] == rest[i - 1];
          }
        }
      }
    }
  }

  /** The version declared by the first manifest line that declares one. */
  function ManifestVersion(lines: seq<string>): Option<string> {
    FirstSome(lines, LineVersion)
  }

  /** getLatestCursorVersion as a value: the version line of the release manifest. */
  function CursorVersion(web: Web): Result<string> {
    match ReadBody(web.get(CursorURL), CursorEndpoint)
    case Err(e) => Err(e)
    case Ok(body) =>
      match ManifestVersion(Split(body, '\n'))
      case None => Err("could not find version in Cursor response")
      case Some(v) => Ok(v)
  }

  /** getLatestCursorVersion: scans the manifest's lines for the first "version:" line. */
  method GetLatestCursorVersion(web: Web) returns (r: Result<string>)
    ensures r == CursorVersion(web)
  {
    var body := ReadBody(web.get(CursorURL), CursorEndpoint);
    if body.Err? {
      return Err(body.error);
    }
    var lines := Split(body.value, '\n');
    var i := 0;
    while i < |lines|
      invariant 0 <= i <= |lines|
      invariant FirstSome(lines[i..], LineVersion) == ManifestVersion(lines)
    {
      var line := TrimSpace(lines[i]);
      if HasPrefix(line, "version:") {
        var version := TrimPrefix(line, "version:");
        assert lines[i..][0] == lines[i];
        return Ok(TrimSpace(version));
      }
      assert lines[i..][1..] == lines[i + 1..];
      i := i + 1;
    }
    assert lines[i..] == [];
    return Err("could not find version in Cursor response");
  }

  /** A manifest declares a version exactly when one of its lines does, and the first such line decides. */
  lemma ManifestVersionFirst(lines: seq<string>)
    ensures ManifestVersion(lines).None? <==> forall i :: 0 <= i < |lines| ==> LineVersion(lines[i]).None?
    ensures ManifestVersion(lines).Some? ==>
      exists i :: 0 <= i < |lines| && LineVersion(lines[i]) == ManifestVersion(lines)
                  && (forall j :: 0 <= j < i ==> LineVersion(lines[j]).None?)
  {
    var f := LineVersion;
    FirstSomeIsFirst(lines, f);
    if ManifestVersion(lines).Some? {
      var i :| 0 <= i < |lines| && f(lines[i]) == FirstSome(lines, f) && (forall j :: 0 <= j < i ==> f(lines[j]).None?);
      assert LineVersion(lines[i]) == ManifestVersion(lines);
    } else {
      assert forall i :: 0 <= i < |lines| ==> f(lines[i]).None?;
    }
  }

  /** A Cursor version comes from a readable 200 reply whose manifest declares it. */
  lemma CursorVersionFromManifest(web: Web)
    requires CursorVersion(web).Ok?
    ensures ReadBody(web.get(CursorURL), CursorEndpoint).Ok?
    ensures ManifestVersion(Split(ReadBody(web.get(CursorURL), CursorEndpoint).value, '\n')) == Some(CursorVersion(web).value)
  {
  }

  /** The source types with a lookup. */
  predicate KnownSource(kind: string) {
    kind in {"npm", "github", "pypi", "vscode-update", "cursor-todesktop"}
  }

  /** The one URL a known source fetches. */
  function SourceURL(src: Config.VersionSource): string
    requires KnownSource(src.kind)
  {
    match src.kind
    case "npm" => NpmURL(src.package)
    case "github" => GitHubURL(src.owner, src.repo)
    case "pypi" => PyPIURL(src.package)
    case "vscode-update" => VSCodeURL(VSCodeChannel(src.channel))
    case _ => CursorURL
  }

  /** GetLatestVersion as a value: the lookup selected by the tool's version source type. */
  function LatestVersion(tool: Config.ToolDefinition, web: Web): Result<string> {
    var src := tool.versionSource;
    match src.kind
    case "npm" => NpmVersion(src.package, web)
    case "github" => GitHubVersion(src.owner, src.repo, web)
    case "pypi" => PyPIVersion(src.package, web)
    case "vscode-update" => VSCodeVersion(src.channel, web)
    case "cursor-todesktop" => CursorVersion(web)
    case _ => Err("unknown version source type: " + src.kind)
  }

  /** GetLatestVersion: dispatches on the version source type. */
  method GetLatestVersion(tool: Config.ToolDefinition, web: Web) returns (r: Result<string>)
    ensures r == LatestVersion(tool, web)
  {
    var src := tool.versionSource;
    match src.kind {
      case "npm" => r := NpmVersion(src.package, web);
      case "github" => r := GitHubVersion(src.owner, src.repo, web);
      case "pypi" => r := PyPIVersion(src.package, web);
      case "vscode-update" => r := VSCodeVersion(src.channel, web);
      case "cursor-todesktop" => r := GetLatestCursorVersion(web);
      case _ => r := Err("unknown version source type: " + src.kind);
    }
  }

  /** An unknown source type is an error whatever the network would have answered. */
  lemma UnknownSourceFetchesNothing(tool: Config.ToolDefinition, web: Web, web': Web)
    requires !KnownSource(tool.versionSource.kind)
    ensures LatestVersion(tool, web) == LatestVersion(tool, web')
    ensures LatestVersion(tool, web) == Err("unknown version source type: " + tool.versionSource.kind)
  {
  }

  /** A version is only ever taken from a readable reply with status 200 from the source's URL. */
  lemma VersionNeedsOkReply(tool: Config.ToolDefinition, web: Web)
    requires LatestVersion(tool, web).Ok?
    ensures KnownSource(tool.versionSource.kind)
    ensures var reply := web.get(SourceURL(tool.versionSource));
      reply.Response? && reply.status == 200 && reply.body.Ok?
  {
    var src := tool.versionSource;
    if src.kind == "cursor-todesktop" {
      assert ReadBody(web.get(CursorURL), CursorEndpoint).Ok?;
    } else if src.kind == "npm" {
      assert ReadBody(web.get(NpmURL(src.package)), NpmEndpoint).Ok?;
    } else if src.kind == "pypi" {
      assert ReadBody(web.get(PyPIURL(src.package)), PyPIEndpoint).Ok?;
    }
  }

  /** npm and PyPI report the registry's field exactly as decoded. */
  lemma RegistryVersionsVerbatim(pkg: string, web: Web)
    ensures var reply := web.get(NpmURL(pkg));
      reply.Response? && reply.status == 200 && reply.body.Ok? && web.field(reply.body.value, "dist-tags.latest").Ok?
      ==> NpmVersion(pkg, web) == web.field(reply.body.value, "dist-tags.latest")
    ensures var reply := web.get(PyPIURL(pkg));
      reply.Response? && reply.status == 200 && reply.body.Ok? && web.field(reply.body.value, "info.version").Ok?
      ==> PyPIVersion(pkg, web) == web.field(reply.body.value, "info.version")
  {
  }

  // ---------------------------------------------------------------- ExtractVersion

  /** What the regexp engine yields: the pattern did not compile, or FindStringSubmatch's slice (empty: no match). */
  datatype RegexOutcome = BadPattern | Submatches(m: seq<string>)

  /** The regexp engine: compile a pattern and match it against a text. */
  type Regex = (string, string) -> RegexOutcome

  const DefaultPattern := @"(\d+\.\d+\.\d+)"

  /**
   * ExtractVersion: with the default pattern when none is configured, the first capture
   * group if the pattern has one, else the whole match, else "".
   */
  function ExtractVersion(output: string, pattern: string, regex: Regex): (v: string)
    ensures var p := if pattern == "" then DefaultPattern else pattern;
      match regex(p, output)
      case BadPattern => v == ""
      case Submatches(m) => (|m| > 1 ==> v == m[1]) && (|m| == 1 ==> v == m[0]) && (m == [] ==> v == "")
  {
    var p := if pattern == "" then DefaultPattern else pattern;
    match regex(p, output)
    case BadPattern => ""
    case Submatches(m) => if |m| > 1 then m[1] else if |m| > 0 then m[0] else ""
  }

  /** The end of the run of digits that starts at i. */
  function DigitRunEnd(s: string, i: nat): (j: nat)
    requires i <= |s|
    ensures i <= j <= |s|
    ensures forall k :: i <= k < j ==> IsDigit(s[k])
    ensures j == |s| || !IsDigit(s[j])
    decreases |s| - i
  {
    if i < |s| && IsDigit(s[i]) then DigitRunEnd(s, i + 1) else i
  }

  /** Where a match of \d+\.\d+\.\d+ that starts at i ends (greedy, as the regexp engine matches it). */
  function MatchEnd(s: string, i: nat): Option<nat>
    requires i <= |s|
  {
    var a := DigitRunEnd(s, i);
    if a > i && a < |s| && s[a] == '.' then
      var b := DigitRunEnd(s, a + 1);
      if b > a + 1 && b < |s| && s[b] == '.' then
        var c := DigitRunEnd(s, b + 1);
        if c > b + 1 then Some(c) else None
      else None
    else None
  }

  /** The leftmost match of the default pattern at or after i. */
  function FindDefault(s: string, i: nat): (r: Option<string>)
    requires i <= |s|
    decreases |s| - i
  {
    if i == |s| then None
    else match MatchEnd(s, i)
      case Some(e) => Some(s[i..e])
      case None => FindDefault(s, i + 1)
  }

  /** The regexp engine treats the default pattern as the leftmost greedy scan above. */
  predicate DefaultPatternAgrees(regex: Regex, output: string) {
    regex(DefaultPattern, output)
      == match FindDefault(output, 0)
         case Some(v) => Submatches([v, v])
         case None => Submatches([])
  }

  /** Whatever the default pattern finds is a version the comparison accepts. */
  lemma {:induction false} DefaultMatchParses(s: string, i: nat)
    requires i <= |s| && FindDefault(s, i).Some?
    ensures Versions.Parse(FindDefault(s, i).value).Ok?
    decreases |s| - i
  {
    if MatchEnd(s, i).Some? {
      var a := DigitRunEnd(s, i);
      var b := DigitRunEnd(s, a + 1);
      var c := DigitRunEnd(s, b + 1);
      DigitRunIsDigits(s, i);
      DigitRunIsDigits(s, a + 1);
      DigitRunIsDigits(s, b + 1);
      var d1, d2, d3 := s[i..a], s[a + 1..b], s[b + 1..c];
      assert FindDefault(s, i).value == s[i..c];
      assert s[i..c] == d1 + "." + d2 + "." + d3;
      Versions.ParseDotted(d1, d2, d3);
    } else {
      DefaultMatchParses(s, i + 1);
    }
  }

  /** A run of digits is a digit string, non-empty when it does not end where it starts. */
  lemma DigitRunIsDigits(s: string, i: nat)
    requires i <= |s|
    ensures DigitRunEnd(s, i) > i ==> IsDigits(s[i..DigitRunEnd(s, i)])
  {
    var j := DigitRunEnd(s, i);
    assert forall k :: 0 <= k < j - i ==> s[i..j][k] == s[i + k];
  }

  /**
   * With the default pattern, ExtractVersion returns the leftmost dotted triple of the
   * output, and that is always a version the comparison accepts.
   */
  lemma DefaultExtraction(output: string, regex: Regex)
    requires DefaultPatternAgrees(regex, output)
    ensures FindDefault(output, 0).Some? ==> ExtractVersion(output, "", regex) == FindDefault(output, 0).value
    ensures FindDefault(output, 0).None? ==> ExtractVersion(output, "", regex) == ""
    ensures ExtractVersion(output, "", regex) != "" ==> Versions.Parse(ExtractVersion(output, "", regex)).Ok?
  {
    if FindDefault(output, 0).Some? {
      DefaultMatchParses(output, 0);
    }
  }

  /** A typical version report: the build number after the version is not picked up. */
  lemma {:induction false} DefaultExtractionExample()
    ensures FindDefault("go 2.5.0 (9)", 0) == Some("2.5.0")
  {
    var s := "go 2.5.0 (9)";
    assert DigitRunEnd(s, 3) == 4 && DigitRunEnd(s, 5) == 6 && DigitRunEnd(s, 7) == 8;
    assert MatchEnd(s, 3) == Some(8);
    assert FindDefault(s, 3) == Some(s[3..8]);
    assert DigitRunEnd(s, 2) == 2 && MatchEnd(s, 2).None?;
    assert FindDefault(s, 2) == FindDefault(s, 3);
    assert DigitRunEnd(s, 1) == 1 && MatchEnd(s, 1).None?;
    assert FindDefault(s, 1) == FindDefault(s, 2);
    assert DigitRunEnd(s, 0) == 0 && MatchEnd(s, 0).None?;
    assert FindDefault(s, 0) == FindDefault(s, 1);
    assert s[3..8] == "2.5.0";
  }
}
