/**
 * The status command: the JSON projection of the status records, the status label of
 * the table, and the table rows, with JSON output taking the place of the table.
 */
module StatusCmd {
  import opened Wrappers
  import Config
  import Detector
  import TM = ToolManager
  import Interactive

  /** One tool in the JSON output. */
  datatype ToolStatusOutput = ToolStatusOutput(
    key: string,
    name: string,
    installed: bool,
    installedVer: string,
    latestVer: string,
    hasUpdate: bool,
    installMethods: seq<string>,
    command: string)

  /** The JSON output: the platform string and one entry per tool. */
  datatype StatusOutput = StatusOutput(platform: string, tools: seq<ToolStatusOutput>)

  /** The JSON entry of one status record. */
  function Project(s: TM.ToolStatus): ToolStatusOutput {
    ToolStatusOutput(s.tool.key, s.tool.name, s.isInstalled, s.installedVer, s.latestVer,
                     s.hasUpdate, TM.Names(s.installMethods), s.tool.command)
  }

  /** outputJSON: fills one slot per status, slot i from status i (encoding to text is not modelled). */
  method OutputJSON(platform: Detector.Platform, statuses: seq<TM.ToolStatus>) returns (output: StatusOutput)
    ensures output.platform == Detector.String(platform)
    ensures |output.tools| == |statuses|
    ensures forall i :: 0 <= i < |statuses| ==> output.tools[i] == Project(statuses[i])
  {
    var slots := new ToolStatusOutput[|statuses|];
    for i := 0 to |statuses|
      invariant forall k :: 0 <= k < i ==> slots[k] == Project(statuses[k])
    {
      slots[i] := Project(statuses[i]);
    }
    output := StatusOutput(Detector.String(platform), slots[..]);
  }

  /**
   * For the statuses of a config's tools, entry i of the JSON output names tool i, says
   * installed exactly when its version probe succeeds, and reports an update only for an
   * installed tool with a known latest version.
   */
  lemma JSONEntries(m: TM.Manager, tools: seq<Config.ToolDefinition>, host: TM.Host, hist: seq<string>, i: nat)
    requires i < |tools|
    ensures var e := Project(TM.Status(m, tools[i], host, hist));
      e.key == tools[i].key && e.name == tools[i].name && e.command == tools[i].command
      && (e.installed <==> TM.GetInstalledVersion(tools[i], host, hist).Ok?)
      && (e.hasUpdate ==> e.installed && e.installedVer != "" && e.latestVer != "")
  {
    TM.StatusFields(m, tools[i], host, hist);
    TM.StatusCoherent(m, tools[i], host, hist);
  }

  /** getStatusSymbol without colours: the symbol and the words of the status column. */
  function StatusLabel(s: TM.ToolStatus): string {
    if !s.isInstalled then "✗ Not installed"
    else if s.hasUpdate then "! Update available"
    else "✓ Up to date"
  }

  /**
   * The table's label and the compact view's symbol put every status in the same class:
   * not installed whatever HasUpdate says, else update available, else up to date.
   */
  lemma LabelMatchesCompactSymbol(s: TM.ToolStatus)
    ensures StatusLabel(s) == ["✓ Up to date", "! Update available", "✗ Not installed"][Interactive.StatusPriority(s)]
    ensures (StatusLabel(s) == "✗ Not installed") <==> (Interactive.CompactSymbol(s) == Interactive.ErrorMark)
    ensures (StatusLabel(s) == "! Update available") <==> (Interactive.CompactSymbol(s) == Interactive.UpdateMark)
  {
  }

  /** One row of the status table: name, status, installed, latest, command. */
  datatype TableRow = TableRow(name: string, status: string, installed: string, latest: string, command: string)

  /** The row of one status. */
  function TableRowOf(s: TM.ToolStatus): TableRow {
    TableRow(s.tool.name, StatusLabel(s),
             if s.isInstalled then s.installedVer else "-",
             if s.latestVer != "" then s.latestVer else "-",
             s.tool.command)
  }

  /** The table and the compact view show the same installed, latest and command columns. */
  lemma TableAgreesWithCompact(s: TM.ToolStatus)
    ensures var row := TableRowOf(s); var compact := Interactive.CompactRowOf(s);
      row.installed == compact.current && row.latest == compact.latest
      && row.command == compact.runWith && row.name == compact.name
  {
  }

  /** displayStatusTable: one row per status, in order (rendering is not modelled). */
  method DisplayStatusTable(statuses: seq<TM.ToolStatus>) returns (rows: seq<TableRow>)
    ensures |rows| == |statuses|
    ensures forall i :: 0 <= i < |statuses| ==> rows[i] == TableRowOf(statuses[i])
  {
    rows := [];
    for i := 0 to |statuses|
      invariant |rows| == i
      invariant forall k :: 0 <= k < i ==> rows[k] == TableRowOf(statuses[k])
    {
      rows := rows + [TableRowOf(statuses[i])];
    }
  }

  /** What runStatus shows: the JSON document, or the table. */
  datatype Report = Json(output: StatusOutput) | Table(rows: seq<TableRow>)

  /** runStatus: the statuses of all tools, as JSON when that output is selected, otherwise as the table only. */
  method RunStatus(json: bool, platform: Detector.Platform, m: TM.Manager, tools: seq<Config.ToolDefinition>,
                   host: TM.Host, hist: seq<string>) returns (report: Report)
    ensures report.Json? <==> json
    ensures json ==> (report.output.platform == Detector.String(platform) && |report.output.tools| == |tools|
      && forall i :: 0 <= i < |tools| ==> report.output.tools[i] == Project(TM.Status(m, tools[i], host, hist)))
    ensures !json ==> (|report.rows| == |tools|
      && forall i :: 0 <= i < |tools| ==> report.rows[i] == TableRowOf(TM.Status(m, tools[i], host, hist)))
  {
    var statuses := TM.GetAllToolStatus(m, tools, host, hist);
    if json {
      var output := OutputJSON(platform, statuses);
      return Json(output);
    }
    var rows := DisplayStatusTable(statuses);
    report := Table(rows);
  }
}
