/**
 * Tool definitions and the registry that loads them: the first readable config file
 * wins, the embedded defaults are the fallback, and a key index is built from the list.
 */
module Config {
  import opened Wrappers
  import Paths

  /** Where the latest version of a tool is looked up. */
  datatype VersionSource = VersionSource(kind: string, package: string, owner: string, repo: string, channel: string)

  /** Per-manager install (or uninstall) commands for one OS; "" means none. */
  datatype InstallSpec = InstallSpec(
    winget: string, npm: string, brew: string, apt: string, pacman: string, pip: string, script: string)

  datatype ToolDefinition = ToolDefinition(
    key: string,
    name: string,
    command: string,
    subcommand: string,
    versionCmd: string,
    versionPattern: string,
    versionSource: VersionSource,
    install: map<string, InstallSpec>,
    uninstall: map<string, InstallSpec>,
    envVars: seq<string>,
    description: string)

  /**
   * What the YAML decoder produces from a document: the tools it decoded (possibly only
   * part of them) and its error, if it gave one.
   */
  datatype ParseOutcome = ParseOutcome(tools: seq<ToolDefinition>, err: Option<string>)

  /** The external config files, in the order they are tried. */
  function ConfigPaths(home: Result<string>): (paths: seq<Paths.FilePath>)
    ensures |paths| == (if home.Ok? then 3 else 2)
    ensures paths[0] == ["tools.yaml"] && paths[1] == ["config", "tools.yaml"]
    ensures home.Ok? ==> paths[2] == [home.value, ".agenthelper", "tools.yaml"]
  {
    [["tools.yaml"], ["config", "tools.yaml"]]
    + (if home.Ok? then [[home.value, ".agenthelper", "tools.yaml"]] else [])
  }

  /** The contents of the first file in paths that reads successfully, if any. */
  function FirstReadable(paths: seq<Paths.FilePath>, readFile: Paths.FilePath -> Option<string>): (data: Option<string>)
    ensures data.None? <==> forall i :: 0 <= i < |paths| ==> readFile(paths[i]).None?
    ensures data.Some? ==> exists i :: 0 <= i < |paths| && readFile(paths[i]) == data
                                     && (forall j :: 0 <= j < i ==> readFile(paths[j]).None?)
  {
    if paths == [] then None
    else if readFile(paths[0]).Some? then readFile(paths[0])
    else
      var rest := FirstReadable(paths[1..], readFile);
      assert forall i :: 0 <= i < |paths| - 1 ==> paths[1..][i] == paths[i + 1];
      rest
  }

  /** The key index of a tool list: each key maps to the last tool that has it. */
  function BuildToolsMap(tools: seq<ToolDefinition>): map<string, ToolDefinition>
  {
    if tools == [] then map[]
    else BuildToolsMap(tools[..|tools| - 1])[tools[|tools| - 1].key := tools[|tools| - 1]]
  }

  /** The index has exactly the keys of the list, and each key leads to a tool with that key. */
  lemma {:induction false} ToolsMapKeys(tools: seq<ToolDefinition>)
    ensures forall k :: k in BuildToolsMap(tools) <==> exists i :: 0 <= i < |tools| && tools[i].key == k
    ensures forall k :: k in BuildToolsMap(tools) ==> BuildToolsMap(tools)[k].key == k
  {
    if tools != [] {
      var init := tools[..|tools| - 1];
      ToolsMapKeys(init);
      forall k | (exists i :: 0 <= i < |tools| && tools[i].key == k)
        ensures k in BuildToolsMap(tools)
      {
        var i :| 0 <= i < |tools| && tools[i].key == k;
        if i < |tools| - 1 {
          assert init[i] == tools[i];
        }
      }
      forall k | k in BuildToolsMap(tools)
        ensures exists i :: 0 <= i < |tools| && tools[i].key == k
      {
        if k != tools[|tools| - 1].key {
          assert k in BuildToolsMap(init);
          var i :| 0 <= i < |init| && init[i].key == k;
          assert tools[i] == init[i];
        }
      }
    }
  }

  /** For duplicate keys the last definition in the list wins. */
  lemma {:induction false} ToolsMapLastWins(tools: seq<ToolDefinition>, i: nat)
    requires i < |tools|
    requires forall j :: i < j < |tools| ==> tools[j].key != tools[i].key
    ensures tools[i].key in BuildToolsMap(tools) && BuildToolsMap(tools)[tools[i].key] == tools[i]
  {
    if i < |tools| - 1 {
      var init := tools[..|tools| - 1];
      assert init[i] == tools[i];
      ToolsMapLastWins(init, i);
    }
  }

  /** The config-file loop of LoadToolDefinitions: the contents of the first path that can be read. */
  method ReadFirstConfig(configPaths: seq<Paths.FilePath>, readFile: Paths.FilePath -> Option<string>)
    returns (configData: Option<string>)
    ensures configData == FirstReadable(configPaths, readFile)
  {
    configData := None;
    var i := 0;
    while i < |configPaths|
      invariant 0 <= i <= |configPaths|
      invariant configData.None?
      invariant FirstReadable(configPaths[i..], readFile) == FirstReadable(configPaths, readFile)
    {
      var data := readFile(configPaths[i]);
      if data.Some? {
        configData := data;
        return;
      }
      assert configPaths[i..][1..] == configPaths[i + 1..];
      i := i + 1;
    }
    assert configPaths[i..] == [];
  }

  /** The index loop of LoadToolDefinitions: each tool under its key, later entries winning. */
  method IndexTools(tools: seq<ToolDefinition>) returns (index: map<string, ToolDefinition>)
    ensures index == BuildToolsMap(tools)
  {
    index := map[];
    var j := 0;
    while j < |tools|
      invariant 0 <= j <= |tools|
      invariant index == BuildToolsMap(tools[..j])
    {
      assert tools[..j + 1][..j] == tools[..j];
      index := index[tools[j].key := tools[j]];
      j := j + 1;
    }
    assert tools[..j] == tools;
  }

  /** The loaded configuration: the Go globals AppConfig and ToolsMap. */
  class ToolRegistry {
    /** AppConfig: None until a load has decoded a document. */
    var appConfig: Option<seq<ToolDefinition>>
    /** ToolsMap: the key index built by the last successful load. */
    var toolsMap: map<string, ToolDefinition>

    /** Every key leads to a tool with that key. */
    predicate Valid()
      reads this
    {
      forall k :: k in toolsMap ==> toolsMap[k].key == k
    }

    constructor()
      ensures appConfig == None && toolsMap == map[]
      ensures Valid()
    {
      appConfig := None;
      toolsMap := map[];
    }

    /**
     * LoadToolDefinitions: reads the first readable config file (or the embedded
     * defaults), decodes it into AppConfig, and on success rebuilds ToolsMap.
     */
    method LoadToolDefinitions(
      home: Result<string>,
      readFile: Paths.FilePath -> Option<string>,
      embedded: Result<string>,
      parse: string -> ParseOutcome)
      returns (err: Option<string>)
      modifies this
      requires Valid()
      ensures Valid()
      ensures var data := FirstReadable(ConfigPaths(home), readFile);
        if data.None? && embedded.Err? then
          err == Some("failed to load embedded config: " + embedded.error)
          && appConfig == old(appConfig) && toolsMap == old(toolsMap)
        else
          var outcome := parse(if data.Some? then data.value else embedded.value);
          appConfig == Some(outcome.tools)
          && (outcome.err.Some? ==> err == Some("failed to parse config: " + outcome.err.value)
                                    && toolsMap == old(toolsMap))
          && (outcome.err.None? ==> err.None? && toolsMap == BuildToolsMap(outcome.tools))
    {
      var configData := ReadFirstConfig(ConfigPaths(home), readFile);
      if configData.None? {
        if embedded.Err? {
          return Some("failed to load embedded config: " + embedded.error);
        }
        configData := Some(embedded.value);
      }

      var outcome := parse(configData.value);
      appConfig := Some(outcome.tools);
      if outcome.err.Some? {
        return Some("failed to parse config: " + outcome.err.value);
      }

      var tools := outcome.tools;
      var index := IndexTools(tools);
      toolsMap := index;
      ToolsMapKeys(tools);
      return None;
    }

    /** GetTool: the tool with that key, if the index has one. */
    function GetTool(key: string): (r: Option<ToolDefinition>)
      reads this
      ensures r.Some? <==> key in toolsMap
      ensures r.Some? && Valid() ==> r.value.key == key
    {
      if key in toolsMap then Some(toolsMap[key]) else None
    }

    /** GetAllTools: nothing before a load, otherwise the decoded tools in document order. */
    function GetAllTools(): (tools: seq<ToolDefinition>)
      reads this
      ensures appConfig.None? ==> tools == []
      ensures appConfig.Some? ==> tools == appConfig.value
    {
      if appConfig.None? then [] else appConfig.value
    }
  }
}
