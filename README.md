# agenthelper core, modelled in Dafny

agenthelper is a command-line helper that installs, updates, repairs and reports on
coding-agent tools (Claude Code, aider, Cursor, VS Code and others) across Windows, macOS and
Linux. Each tool is described by a configuration record: its key and name, the shell
command that prints its version, a pattern to extract that version, where to look up the
latest release, and per-OS install and uninstall commands for each package manager.

This project models the core of that program and proves properties of the model:

- **platform detection** (`detector.dfy`, `paths.dfy`): OS and architecture classification,
  the platform display string, per-OS application directories, PATH splitting (with the quote rule of `filepath.SplitList` on Windows) and
  executable lookup;
- **package managers** (`packagemanager.dfy`): the availability rule of each manager,
  detection order, lookup by name, shell selection and command results;
- **configuration** (`config.dfy`): the candidate config files, first-readable-wins loading
  and the key index, as a `ToolRegistry` class whose fields are the loaded state;
- **versions** (`versions.dfy`, `version_checker.dfy`): the numeric version comparison,
  the latest-version lookup per source type and its response post-processing, and version
  extraction from command output;
- **tool status and selection** (`tool_manager.dfy`): the installed-version probe, the
  status record, the available install methods and the best install method per OS;
- **orchestration** (`installer.dfy`, `updater.dfy`): install, install-all, uninstall,
  update and update-all as result records plus the list of state-changing commands run;
- **terminal input** (`prompt.dfy`, `menu.dfy`): command parsing, the menu loop (a `Menu`
  class), confirmation and numbered selection;
- **commands** (`interactive.dfy`, `install_cmd.dfy`, `update_cmd.dfy`, `status_cmd.dfy`,
  `repair_cmd.dfy`, `env_cmd.dfy`): prompt-mode dispatch and handlers, the in-place status
  sort, the JSON and table status views, batch summaries, repair sequencing and the
  environment report.

`text.dfy` (Go's `strings`/`strconv` helpers the core relies on), `lists.dfy` (filtering
and order-independent counting over maps) and `wrappers.dfy` (`Option`, `Result`) are
support modules.

Everything the program asks of the outside world is a parameter. `ToolManager.Host`
bundles the GOOS value, the set of executables on PATH, the shell (`exec`: the reply to a
command given the state-changing commands run before it), the web (`get`: the reply to a
URL, and `field`: a decoded JSON field) and the regular-expression engine. Every install,
update and uninstall returns, next to its result record, the commands it ran, so "runs no
command" is stated as `ran == []`, and a re-probe after a command sees that command in the
host's history. Version probes do not change the host, so a status sweep sees one host
state, as the concurrent sweep in the program does.

Where the program was written twice (`internal/…` and `agenthelper-go/internal/…`), the
file named in the table below is the one modelled.

What the program does not do, or does differently from what a reader might expect:

- The installed-version probe runs the version command directly; it does not first look
  the executable up on PATH.
- Uninstall picks exactly one method (winget on Windows, then brew, npm, pip) and runs only
  that one, instead of trying every declared method.
- The GitHub lookup sends no bearer token.
- Install has no forced mode and no recovery step that searches installation directories.
- The latest version is looked up for every tool, installed or not.
- `install --method` does not check that the requested manager is available; it only
  requires that some install method exists and that the spec has a command for it.

## Model

| member | source | states |
|---|---|---|
| Detector.OSOf | internal/platform/detector.go:42-52 | the OS is Windows, Darwin or Linux exactly for the GOOS values "windows", "darwin", "linux" (and its value is that GOOS), Unknown for every other value |
| Detector.ArchOf | internal/platform/detector.go:54-63 | the architecture is AMD64, ARM64 or I386 exactly for "amd64", "arm64", "386", UnknownArch otherwise |
| Detector.IsWSLNever | internal/platform/detector.go:84-99 | with both WSL probes stubbed to false, no GOOS is ever classified as WSL |
| Detector.Current | internal/platform/detector.go:37-66 | the record keeps the raw GOOS, carries OSOf(goos) and ArchOf(goarch), and is flagged WSL only on Linux and only when the WSL check holds |
| Detector.AtMostOneOS | internal/platform/detector.go:69-81 | at most one of IsWindows, IsDarwin, IsLinux holds, and each agrees with the OS classification |
| Detector.OSName | internal/platform/detector.go:103-115 | the OS display name ("Windows", "macOS", "Linux", "Linux (WSL)" or the raw value) never contains the '/' that String puts after it |
| Detector.StringSplits | internal/platform/detector.go:102-118 | String cut at '/' gives exactly the OS display name and the architecture value |
| Detector.StringDetermines | internal/platform/detector.go:102-118 | two platforms with the same String have the same OS and architecture, and on Linux the same WSL flag |
| Detector.GetOSKey | internal/platform/detector.go:121-123 | the key is one of "windows", "darwin", "linux", "unknown" and names the platform's OS back, so an unknown OS gets "unknown" |
| Paths.GetPaths | internal/platform/paths.go:18-47 | a failed home lookup is passed on; otherwise all four directories are home joined with more segments and pairwise distinct; on Windows all lie under home/AppData and the cache dir is the data dir plus "cache"; elsewhere the config dir is home/.config/agenthelper and the bin dir home/.local/bin; on macOS cache and data lie under home/Library |
| Paths.GetEnvPath | internal/platform/paths.go:61-67 | an empty PATH gives no entries (and only it does); on Windows no entry holds a double quote; unless the PATH holds a double quote on Windows, joining the entries with the list separator gives PATH back and no entry contains the separator |
| Paths.RemoveQuotes | internal/platform/paths.go:66 | the quote deletion of filepath.SplitList on Windows: exactly the characters other than '"' remain, and quote-free text is unchanged |
| Paths.JoinOutsideQuotes | internal/platform/paths.go:66 | the Windows pieces of filepath.SplitList, cut only at separators outside double quotes, join back with ';' to the PATH |
| Paths.PlainPieces | internal/platform/paths.go:66 | without double quotes every ';' cuts: no Windows piece holds a ';' or a '"' |
| Paths.WindowsSplitList | internal/platform/paths.go:66 | on Windows the entries are the quote-free pieces, which join back to the PATH; a PATH without double quotes is cut exactly as strings.Split cuts it at ';' |
| Paths.InsideQuotes | internal/platform/paths.go:66 | inside double quotes a ';' does not cut: the quoted text and its closing quote stay with the piece that follows |
| Paths.QuotedEntryKept | internal/platform/paths.go:66 | on Windows a quoted entry between two plain ones stays one entry, ';' included, without its quotes (a;"b;c";d gives a, b;c, d) |
| Paths.QuotedDirectory | internal/platform/paths.go:61-67 | on Windows a PATH that is one quoted directory gives exactly that directory without the quotes |
| Paths.IsInPath | internal/platform/paths.go:70-77 | true exactly when some PATH entry, cleaned, equals the cleaned directory |
| Paths.Ext | internal/platform/paths.go:82 | the extension is empty or a suffix of the path that starts with '.' and holds no other '.' and no path separator; it is empty only when every '.' of the path lies before a path separator, i.e. the final element has no '.' |
| Paths.ExtFrom | internal/platform/paths.go:82 | scanning backwards from a position, the extension found is empty or a "."-led suffix holding no other "." and no path separator, and it is empty only when every "." of the path is followed by a path separator |
| Paths.ExecutableName | internal/platform/paths.go:81-84 | ".exe" is appended only on Windows and only to a name whose extension is empty |
| Paths.ExtOfExe | internal/platform/paths.go:82-84 | a name with ".exe" appended has the extension ".exe" |
| Paths.ExecutableNameIdempotent | internal/platform/paths.go:81-84 | applying the ".exe" rule twice gives the same name as applying it once |
| Paths.GetExecutablePath | internal/platform/paths.go:80-95 | on success, dir/name for the first PATH entry, in order, where the file exists; an error exactly when it exists under no entry, and then os.ErrNotExist |
| Paths.SearchPath | internal/platform/paths.go:87-94 | the PATH loop returns the first entry, in order, holding the file, and fails with os.ErrNotExist exactly when none does |
| Config.ConfigPaths | internal/config/config.go:69-77 | the candidates are tools.yaml, config/tools.yaml, then home/.agenthelper/tools.yaml only when the home directory is known |
| Config.FirstReadable | internal/config/config.go:79-84 | nothing exactly when no candidate reads; otherwise the contents of a readable candidate all of whose predecessors fail to read |
| Config.ToolsMapKeys | internal/config/config.go:101-105 | the index holds exactly the keys of the tool list, and each key leads to a tool with that key |
| Config.ToolsMapLastWins | internal/config/config.go:102-105 | a tool with no later tool of the same key is the one its key leads to: for duplicate keys the last definition wins |
| Config.ReadFirstConfig | internal/config/config.go:79-84 | the loop with its break yields the first readable candidate's contents (FirstReadable) |
| Config.IndexTools | internal/config/config.go:101-105 | the map-filling loop builds the key index of the whole list |
| Config.ToolRegistry.constructor | internal/config/config.go:56-61 | before any load there is no configuration and the key index is empty |
| Config.ToolRegistry.LoadToolDefinitions | internal/config/config.go:64-108 | with no readable file and no embedded document it fails with "failed to load embedded config" and changes nothing; otherwise AppConfig is the decoded document (the external file's if any, else the embedded one); a decode error gives "failed to parse config" and keeps the old index; otherwise the index is rebuilt from the tools and every key leads to its tool |
| Config.ToolRegistry.GetTool | internal/config/config.go:111-114 | a tool exactly for keys in the index, and it has that key |
| Config.ToolRegistry.GetAllTools | internal/config/config.go:117-122 | nothing before a load, afterwards the decoded tools in document order |
| PackageManagers.DetectPackageManagers | agenthelper-go/internal/platform/packagemanager.go:273-307 | the result is the available managers among the OS's candidates in the order the program considers them (AvailableAmong of Candidates) |
| PackageManagers.DetectOSSpecific | agenthelper-go/internal/platform/packagemanager.go:276-296 | the OS switch yields the available managers among WinGet (Windows), Homebrew (macOS) or Homebrew, apt, pacman (Linux), in that order |
| PackageManagers.AvailableAmongPair | agenthelper-go/internal/platform/packagemanager.go:298-304 | the two cross-platform checks keep npm then pip, each only when available |
| PackageManagers.AvailableAmongConcat | agenthelper-go/internal/platform/packagemanager.go:276-304 | filtering the OS-specific candidates and then the cross-platform ones is filtering their concatenation |
| PackageManagers.AvailableAmongMembers | agenthelper-go/internal/platform/packagemanager.go:273-307 | a manager is kept exactly when it is a candidate and available |
| PackageManagers.AvailableAmongOrdered | agenthelper-go/internal/platform/packagemanager.go:273-307 | filtering keeps the candidates' detection order, so no manager appears twice |
| PackageManagers.DetectedAreAvailable | agenthelper-go/internal/platform/packagemanager.go:273-307 | the detected list holds exactly the available managers, each once, OS-specific ones first, then npm, then pip |
| PackageManagers.CandidatesRanked | agenthelper-go/internal/platform/packagemanager.go:277-304 | on every OS the candidates are in strictly increasing detection order |
| PackageManagers.CandidatesCoverAvailable | agenthelper-go/internal/platform/packagemanager.go:93-95 | every available manager is a candidate on that OS: WinGet only on Windows, Homebrew only on macOS or Linux, apt and pacman only on Linux (the rules of lines 93-95, 125-127, 157-159, 189-191), npm and pip (pip or pip3 on PATH, lines 221-223, 253-255) everywhere |
| PackageManagers.GetPackageManagerByName | agenthelper-go/internal/platform/packagemanager.go:310-328 | no manager exactly for lower-cased names outside winget, brew, homebrew, apt, pacman, npm, pip; otherwise the manager whose executable is the lower-cased name, or Homebrew for "homebrew" |
| PackageManagers.ToLowerOfLower | agenthelper-go/internal/platform/packagemanager.go:311 | lower-casing a string without upper-case ASCII letters leaves it unchanged |
| PackageManagers.ByNameRoundTrip | agenthelper-go/internal/platform/packagemanager.go:310-328 | every manager is found again both from its executable name and from its display name |
| PackageManagers.NameLowered | agenthelper-go/internal/platform/packagemanager.go:311-316 | each display name lower-cases to the executable name, except Homebrew's, which lower-cases to the "homebrew" alias |
| PackageManagers.ByNameCaseInsensitive | agenthelper-go/internal/platform/packagemanager.go:311 | names equal up to ASCII case select the same manager |
| PackageManagers.ShellCommand | agenthelper-go/internal/platform/packagemanager.go:29-34 | the command runs as `cmd /C command` on Windows and `sh -c command` elsewhere |
| PackageManagers.RunCommand | agenthelper-go/internal/platform/packagemanager.go:40-45 | success exactly when the command ran without error, giving trimmed stdout; on failure the error starts with the run error and ends with stderr |
| Versions.Parse | internal/manager/tool_manager.go:131-139 | a version string is rejected only with the library's "invalid semantic version" error |
| Versions.ParseFields | internal/manager/tool_manager.go:131-139 | a list of dotted fields is rejected only with the "invalid semantic version" error |
| Versions.ParseFormat | internal/manager/tool_manager.go:131-141 | parsing the dotted rendering of any version gives that version back |
| Versions.ParseDotted | internal/manager/tool_manager.go:131-139 | three digit strings joined by '.' parse to the version of their numeric values |
| Versions.ThreeFields | internal/manager/tool_manager.go:131-139 | three digit fields give the version of their numeric values |
| Versions.DottedPieces | internal/manager/tool_manager.go:128-131 | a dotted numeric string has no 'v' to strip and splits at '.' into its three pieces |
| Versions.VPrefixIgnored | internal/manager/tool_manager.go:128-131 | a 'v' put in front of a version that does not already start with 'v' changes nothing about how it parses |
| Versions.CompareVersions | internal/manager/tool_manager.go:128-141 | after stripping one leading 'v' from each side it fails exactly when either side fails to parse, reporting the installed side first ("invalid installed version: …"), then the latest side ("invalid latest version: …") |
| Versions.CompareMeansLess | internal/manager/tool_manager.go:141 | when both sides parse, the answer is true exactly when the latest version is greater, comparing major, minor, patch in turn |
| Versions.CompareSelf | internal/manager/tool_manager.go:141 | a version is never an update of itself |
| Versions.CompareAntisymmetric | internal/manager/tool_manager.go:141 | if b is an update of a, then a is not an update of b |
| Versions.CompareTransitive | internal/manager/tool_manager.go:141 | an update of an update is an update |
| Versions.LessTotal | internal/manager/tool_manager.go:141 | any two versions are equal or one of them is the greater |
| Versions.MissingPatchIsZero | internal/manager/tool_manager.go:131-139 | a two-field version parses like the same version with ".0" added |
| Versions.SplitDotZero | internal/manager/tool_manager.go:128-131 | appending ".0" adds exactly the field "0" to the split fields |
| Versions.ZeroField | internal/manager/tool_manager.go:131-139 | "0" is a digit field whose value is zero |
| Versions.SplitAppend | internal/manager/tool_manager.go:131-139 | splitting s, a separator and a separator-free x gives the pieces of s followed by x |
| Versions.FormatExamples | internal/manager/tool_manager.go:131-141 | the versions 1.2.3, 1.3.0, 2.0.0 and 1.9.9 render as those dotted strings |
| Versions.ParseExamples | internal/manager/tool_manager.go:131-139 | "1.2.3", "1.3.0", "2.0.0" and "1.9.9" parse to those versions |
| Versions.ParseUnknown | internal/manager/tool_manager.go:131-139 | "unknown" does not parse |
| Versions.CompareExampleEqual | internal/manager/tool_manager.go:141 | 1.2.3 against 1.2.3 reports no update |
| Versions.CompareExampleNewer | internal/manager/tool_manager.go:141 | 1.2.3 against 1.3.0 reports an update |
| Versions.CompareExampleOlder | internal/manager/tool_manager.go:141 | 2.0.0 against 1.9.9 reports no update |
| Versions.CompareExampleVPrefix | internal/manager/tool_manager.go:128-141 | "v1.2.3" against "1.2.3" reports no update |
| Versions.CompareExampleInvalid | internal/manager/tool_manager.go:136-139 | a latest version of "unknown" gives the "invalid latest version" error |
| VersionChecker.ReadBody | internal/manager/version_checker.go:55-68 | a body is read exactly when the request got a reply with status 200 and a readable body; any other status gives "<service> returned status <code>" instead of a version |
| VersionChecker.ReadField | internal/manager/version_checker.go:65-75 | a decoded field is returned only from a readable 200 reply, and a failed read is passed on unchanged |
| VersionChecker.GitHubVersion | internal/manager/version_checker.go:84-115 | succeeds exactly when tag_name could be read, and the result is tag_name with its leading 'v' removed when it has one, and tag_name unchanged when it has none |
| VersionChecker.VSCodeChannel | internal/manager/version_checker.go:179-181 | an empty channel becomes a non-empty default ("stable"), any other channel is kept |
| VersionChecker.VSCodeVersion | internal/manager/version_checker.go:178-206 | succeeds exactly when productVersion could be read, and the result is productVersion up to (not including) its first '-' |
| VersionChecker.FirstSomeIsFirst | internal/manager/version_checker.go:229-237 | the line scan finds nothing exactly when no line qualifies, and otherwise returns what the first qualifying line gives |
| VersionChecker.GetLatestCursorVersion | internal/manager/version_checker.go:209-238 | the loop over the manifest lines returns the trimmed text after "version:" on the first line whose trimmed form starts with it, "could not find version in Cursor response" when none does, and the fetch error before that |
| VersionChecker.ManifestVersionFirst | internal/manager/version_checker.go:228-237 | the manifest yields no version exactly when no line carries "version:", else the version of the first line that does |
| VersionChecker.CursorVersionFromManifest | internal/manager/version_checker.go:218-235 | a Cursor version comes only from a readable 200 reply whose manifest lines carry it |
| VersionChecker.GetLatestVersion | internal/manager/version_checker.go:28-43 | dispatches on the source type to the npm, GitHub, PyPI, VS Code or Cursor lookup and fails with "unknown version source type: <type>" otherwise |
| VersionChecker.UnknownSourceFetchesNothing | internal/manager/version_checker.go:40-41 | for an unrecognised source type the result is the same error whatever the network would answer, so nothing is fetched |
| VersionChecker.VersionNeedsOkReply | internal/manager/version_checker.go:61-63 | every latest version comes from a recognised source whose request got a readable reply with status 200 |
| VersionChecker.RegistryVersionsVerbatim | internal/manager/version_checker.go:75 | npm's dist-tags.latest and PyPI's info.version (line 148) are returned as decoded, unaltered |
| VersionChecker.ExtractVersion | internal/manager/version_checker.go:152-170 | an empty pattern is replaced by the default `(\d+\.\d+\.\d+)`; an invalid pattern gives ""; otherwise the first capture group if there is one, else the whole match, else "" |
| VersionChecker.DigitRunEnd | internal/manager/version_checker.go:154 | the scan for `\d+` stops at the end of the maximal run of digits starting at the given position |
| VersionChecker.DefaultMatchParses | internal/manager/version_checker.go:154 | whatever the default pattern's scanner finds is a version that parses |
| VersionChecker.DigitRunIsDigits | internal/manager/version_checker.go:154 | a non-empty run found by the scan is all digits |
| VersionChecker.DefaultExtraction | internal/manager/version_checker.go:153-169 | with the default pattern, extraction returns the leftmost dotted triple of digit runs, "" when there is none, and any non-empty result parses as a version |
| VersionChecker.DefaultExtractionExample | internal/manager/version_checker.go:154 | in "go 2.5.0 (9)" the default pattern finds "2.5.0" |
| ToolManager.NewManager | internal/manager/tool_manager.go:33-38 | the manager holds the detected platform and exactly the package managers detection finds available on that OS |
| ToolManager.GetInstalledVersion | internal/manager/tool_manager.go:95-122 | an empty version command fails with "no version command defined"; a failing command fails with "command failed: …"; a success is non-empty and is the version extracted from stdout, or from stderr when stdout is empty |
| ToolManager.StderrOnlyWhenStdoutEmpty | internal/manager/tool_manager.go:111-114 | when stdout is non-empty, stderr has no influence on the probe's result |
| ToolManager.NoVersionIsError | internal/manager/tool_manager.go:116-119 | a command that succeeds but yields no extractable version fails with "could not extract version from output" |
| ToolManager.MethodName | internal/manager/tool_manager.go:157-186 | every install method has a non-empty name |
| ToolManager.Names | internal/manager/tool_manager.go:157-186 | the method names, one per method, position by position |
| ToolManager.GetAvailableInstallMethods | internal/manager/tool_manager.go:145-190 | no methods when the OS key has no install spec; otherwise the offered methods in the fixed order winget, brew, apt, pacman, npm, pip, script |
| ToolManager.AddSystemMethods | internal/manager/tool_manager.go:155-174 | the first four appends add winget (Windows only), brew, apt, pacman, each only with a spec command and an available manager |
| ToolManager.AddPortableMethods | internal/manager/tool_manager.go:175-187 | the last appends add npm and pip when their spec command is set and the manager is available, and script whenever a script is set |
| ToolManager.OfferedMethodsShape | internal/manager/tool_manager.go:145-190 | the offered list holds exactly the offered methods, each with a non-empty spec command, in strictly increasing priority rank, hence without duplicates |
| ToolManager.OfferedMembers | internal/manager/tool_manager.go:155-187 | a method is in the list exactly when its spec command is set and its manager is available (winget also only on Windows; script needs no manager) |
| ToolManager.OfferedRanked | internal/manager/tool_manager.go:155-187 | the list is in the order of the append chain |
| ToolManager.ThroughPipRanked | internal/manager/tool_manager.go:155-184 | the appends up to pip are ordered and all rank before script |
| ToolManager.ThroughNpmRanked | internal/manager/tool_manager.go:155-179 | the appends up to npm are ordered and all rank before pip |
| ToolManager.ThroughPacmanRanked | internal/manager/tool_manager.go:155-174 | the appends up to pacman are ordered and all rank before npm |
| ToolManager.ThroughAptRanked | internal/manager/tool_manager.go:155-169 | the appends up to apt are ordered and all rank before pacman |
| ToolManager.RankedAppendOpt | internal/manager/tool_manager.go:155-187 | appending one conditional method of higher rank keeps the list ordered |
| ToolManager.FirstOffered | internal/manager/tool_manager.go:200-252 | nothing exactly when no method of the list is offered; otherwise an offered method of the list together with its spec command |
| ToolManager.GetBestInstallMethod | internal/manager/tool_manager.go:193-252 | ("","") when the OS key has no spec; otherwise an offered method of the OS's priority list with its non-empty spec command |
| ToolManager.BestInSpec | internal/manager/tool_manager.go:200-252 | the chosen method is offered, belongs to the OS's priority list, and comes with its non-empty spec command |
| ToolManager.BestFallback | internal/manager/tool_manager.go:235-252 | the cross-platform fallbacks only ever choose npm, pip or script, offered, with their spec command |
| ToolManager.FallbackOrder | internal/manager/tool_manager.go:235-252 | the fallbacks are tried in the order npm, pip, script |
| ToolManager.BestIsFirstOffered | internal/manager/tool_manager.go:193-252 | the best method is the first offered one in OS priority order: winget on Windows; brew on macOS; apt, brew, pacman on Linux; then npm, pip, script |
| ToolManager.BestInSpecIsFirstOffered | internal/manager/tool_manager.go:200-252 | the early-return chain equals taking the first offered method of the OS's priority list |
| ToolManager.BestOnWindows | internal/manager/tool_manager.go:201-207 | on Windows winget is tried before the fallbacks |
| ToolManager.BestOnDarwin | internal/manager/tool_manager.go:209-215 | on macOS brew is tried before the fallbacks |
| ToolManager.BestOnLinux | internal/manager/tool_manager.go:217-233 | on Linux apt, brew, pacman are tried in that order before the fallbacks |
| ToolManager.LinuxOrder | internal/manager/tool_manager.go:217-233 | the Linux chain returns apt, else brew, else pacman, else whatever follows |
| ToolManager.BestElsewhere | internal/manager/tool_manager.go:235-252 | on any other OS only the fallbacks are tried |
| ToolManager.FirstOfferedCons | internal/manager/tool_manager.go:200-252 | each step of the chain returns its method and spec command if offered, and otherwise moves on |
| ToolManager.OfferedIsPrioritised | internal/manager/tool_manager.go:193-252 | every method the OS can offer is in its priority list, so the priority chain misses none |
| ToolManager.BestIsOffered | internal/manager/tool_manager.go:145-252 | the best method is one of the available install methods |
| ToolManager.NoBestIffNoneOffered | internal/manager/tool_manager.go:145-252 | with a spec for the OS, there is no best method exactly when no install method is available |
| ToolManager.StatusFields | internal/manager/tool_manager.go:46-74 | IsInstalled exactly when the installed probe succeeds, InstalledVer is then its version and otherwise ""; LatestVer is set exactly when the lookup returns a non-empty version; HasUpdate exactly when installed, the latest is known and CompareVersions says true |
| ToolManager.StatusCoherent | internal/manager/tool_manager.go:52-67 | every status is installed exactly when it carries an installed version, and reports an update only when both versions parse and the latest is greater |
| ToolManager.CompareErrorNoUpdate | internal/manager/tool_manager.go:64-67 | a comparison error leaves HasUpdate false |
| ToolManager.GetToolStatus | internal/manager/tool_manager.go:46-74 | the record filled field by field is the status of that tool |
| ToolManager.GetAllToolStatus | internal/manager/tool_manager.go:77-92 | one status per tool, and slot i holds the status of tool i |
| Installer.InstallWithMethodReports | internal/manager/installer.go:34-70 | the method is always recorded; success exactly when the command succeeds and the re-probe finds a version, and then the output names that version and there is no error; on failure the output is stdout, or stderr when stdout is empty; a failed command gives "installation failed: …", a failed re-probe "installation completed but tool not found: …" |
| Installer.InstallWithMethod | internal/manager/installer.go:34-70 | the result filled field by field is the one InstallWithMethodReports describes, and exactly the given command is run |
| Installer.InstallUsesBest | internal/manager/installer.go:21-31 | with no best method the result is a failure with an error and no command runs; otherwise exactly the best method's command runs and its name is recorded |
| Installer.Install | internal/manager/installer.go:21-31 | installing runs the best method through InstallWithMethod, or reports that no method is available on this platform |
| Installer.PreferredCommandByName | internal/manager/installer.go:94-105 | a preferred method is looked up only for winget, brew, npm, pip and apt, giving that method's spec command; pacman and script give no command |
| Installer.RunAllKeys | internal/manager/installer.go:77-114 | the batch has an entry exactly for the keys of the tools |
| Installer.RunAllUniform | internal/manager/installer.go:77-114 | when every tool's entry is the same and runs nothing, the batch runs nothing and every entry is that value |
| Installer.InstallAll | internal/manager/installer.go:73-117 | the loop fills the results map with each tool's entry in config order, a later tool with the same key replacing an earlier one, and runs the entries' commands in that order |
| Installer.InstallAllKeys | internal/manager/installer.go:77-114 | InstallAll produces one entry per tool key |
| Installer.InstallAllInstalled | internal/manager/installer.go:80-87 | when every tool is already installed, nothing runs and every entry is success with output "Already installed" |
| Installer.InstallAllEntryChoice | internal/manager/installer.go:80-113 | an installed tool is skipped; otherwise a non-empty preferred command for the OS is run under the preferred name; otherwise the tool goes through Install |
| Installer.FirstDefined | internal/manager/installer.go:136-148 | nothing exactly when no method of the list has a command; otherwise a method of the list with its non-empty command |
| Installer.UninstallChoiceIsFirstDefined | internal/manager/installer.go:136-148 | the if-else chain picks the first method with a command in the order winget (Windows only), brew, npm, pip, and never apt, pacman or script |
| Installer.FirstDefinedCons | internal/manager/installer.go:136-148 | each branch takes its method when the command is set and otherwise defers to the rest |
| Installer.UninstallReports | internal/manager/installer.go:120-178 | no spec for the OS fails without running anything; no command fails with "no uninstall command found for …" without running anything; otherwise exactly the chosen command runs, its method is recorded, and success means it ran without error |
| Installer.Uninstall | internal/manager/installer.go:120-178 | the result filled field by field is the one UninstallReports describes |
| Updater.ReplaceWingetInstallWithUpgrade | agenthelper-go/internal/manager/updater.go:140-146 | as written: a command that does not start with "winget" (or has at most 6 characters) is returned unchanged; otherwise its first 14 characters become "winget upgrade", which is only defined from length 14 on, and the length is kept |
| Updater.ShortWingetCommandPassesGuard | agenthelper-go/internal/manager/updater.go:142-143 | "winget -v" passes the guard yet is shorter than 14 characters, so the slice at index 14 is out of range |
| Updater.UpgradeCommand | agenthelper-go/internal/manager/updater.go:140-146 | corrected: "winget install" at the front is replaced by "winget upgrade" and the rest is kept; any other command is returned unchanged; the length never changes |
| Updater.UpgradeAgreesWithAsWritten | agenthelper-go/internal/manager/updater.go:140-146 | on every command that starts with "winget install" the corrected rewrite equals the code as written |
| Updater.UpgradeIdempotent | agenthelper-go/internal/manager/updater.go:140-146 | rewriting an already rewritten command changes nothing |
| Updater.UpgradeExample | agenthelper-go/internal/manager/updater.go:143 | "winget install --id GitHub.cli" becomes "winget upgrade --id GitHub.cli" |
| Updater.UpdateNeedsInstalled | agenthelper-go/internal/manager/updater.go:28-34 | a tool whose probe fails gives failure with "tool not installed: …" and runs no command |
| Updater.UpdateShortCircuit | agenthelper-go/internal/manager/updater.go:46-52 | when the latest version is known and the comparison says no update, the result is success, up to date, keeps the old version and runs nothing |
| Updater.UpdateProceedsWhenUnsure | agenthelper-go/internal/manager/updater.go:38-47 | a failed latest lookup or a comparison error does not stop the update: with a method available, exactly one command runs |
| Updater.UpdateNeedsMethod | agenthelper-go/internal/manager/updater.go:56-62 | with no install method nothing runs, and the only possible success is the up-to-date short cut |
| Updater.UpdateUsesWingetUpgrade | agenthelper-go/internal/manager/updater.go:72-78 | on Windows with winget chosen, the command run is the corrected upgrade form of the spec's winget command, which is the program's own rewrite whenever that command starts with "winget install" |
| Updater.UpdateSuccessVerified | agenthelper-go/internal/manager/updater.go:86-113 | once a command runs, it is the only one; success exactly when it ran without error and the re-probe found a version, which becomes the new version; WasUpToDate then holds exactly when old and new versions are equal; the error is set exactly on failure |
| Updater.Update | agenthelper-go/internal/manager/updater.go:24-114 | the result set step by step and the commands run are those UpdateRun describes (with the corrected winget rewrite, see Findings) |
| Updater.UpdateByBestMethod | agenthelper-go/internal/manager/updater.go:56-113 | the best-method stage fails with "no update method available for …" when there is none and otherwise runs the (possibly rewritten) command |
| Updater.WingetUpgrade | agenthelper-go/internal/manager/updater.go:72-78 | the command is replaced by the corrected upgrade form (see Findings) exactly on Windows, for winget, when the spec has a winget command |
| Updater.RunUpdateCommand | agenthelper-go/internal/manager/updater.go:80-113 | running the command and re-probing gives "update failed: …", "update completed but could not verify: …", or success with the up-to-date or "Successfully updated" output |
| Updater.UpdateAll | agenthelper-go/internal/manager/updater.go:117-137 | the loop fills the results map with each tool's entry in config order and runs the entries' commands in that order |
| Updater.UpdateAllKeys | agenthelper-go/internal/manager/updater.go:121-134 | UpdateAll produces one entry per tool key |
| Updater.UpdateAllNoneInstalled | agenthelper-go/internal/manager/updater.go:124-131 | when no tool is installed, nothing runs and every entry is a failure with error "not installed" |
| Menus.SelectFrom | internal/ui/menu.go:88-98 | a selection found from position j on is an item index at or after j |
| Menus.Select | internal/ui/menu.go:88-98 | a selected item is an index of the menu |
| Menus.SelectFromIsFirst | internal/ui/menu.go:88-98 | the search from j picks the first item whose key equals the input ignoring case, and finds nothing exactly when no key from j on matches |
| Menus.SelectIsFirst | internal/ui/menu.go:88-98 | the selected item is the first one whose key matches the input case-insensitively; nothing is selected exactly when no key matches |
| Menus.React | internal/ui/menu.go:76-102 | a reaction that runs or skips an item names a menu index, and a run reports that item's action result |
| Menus.ReactSelects | internal/ui/menu.go:76-102 | an item is acted on only when it is the match for the trimmed line; an item without an action does nothing; "Invalid option" is reported only for a non-empty trimmed line that matches no key; a read error or blank line is ignored, and only those |
| Menus.ReactCases | internal/ui/menu.go:76-102 | read error: ignored; blank line: ignored; no key matches: invalid option with the trimmed input; otherwise the first matching item is run if it has an action |
| Menus.Reactions | internal/ui/menu.go:55-103 | one reaction per input line, in order |
| Menus.Replay | internal/ui/menu.go:55-103 | the loop only adds to the invoked items and error messages, and consumes input from where it is up to the end |
| Menus.ReplayStep | internal/ui/menu.go:76-102 | one pass of the loop: ignored and action-less lines change nothing; an unknown option adds "Invalid option: <input>"; an action returning false is recorded and the loop goes on; an action returning true is recorded and the menu returns |
| Menus.Menu.constructor | internal/ui/menu.go:27-33 | a new menu has the title, no items and no back option |
| Menus.Menu.AddItem | internal/ui/menu.go:36-43 | the item is appended at the end; title and back flag are unchanged |
| Menus.Menu.AddBackOption | internal/ui/menu.go:46-49 | the back flag is set and an item with key "0" whose action exits is appended |
| Menus.Menu.FindItem | internal/ui/menu.go:87-98 | the loop with its break finds exactly the item Select finds |
| Menus.Menu.Display | internal/ui/menu.go:52-104 | the display loop's invoked actions, error messages, consumed input and exit agree with DisplayRun over the same input lines |
| Menus.ReplayExitsAtFirstExit | internal/ui/menu.go:92-94 | the loop returns right after the first exiting action and at no earlier line; without one it reads all input |
| Menus.DisplayStopsAtExit | internal/ui/menu.go:92-94 | when the menu returns, the last line consumed selected an exiting action; otherwise every line was consumed |
| Menus.DisplayRunsToFirstExit | internal/ui/menu.go:92-94 | no line before the one the menu returns on selects an exiting action |
| Menus.NoExitEntryNeverReturns | internal/ui/menu.go:55-103 | a menu none of whose actions returns true never returns |
| Menus.SelectAppend | internal/ui/menu.go:88-98 | an appended item is selected when it matches and no earlier item does |
| Menus.BackOptionExits | internal/ui/menu.go:46-49 | entering "0" (surrounded by any spaces) in a menu with a back option and no other "0" key exits through the back item |
| Menus.PromptConfirm | internal/ui/menu.go:107-118 | a read error is never a confirmation |
| Menus.ToLowerTail | internal/ui/menu.go:116 | lower-casing commutes with dropping the first character |
| Menus.ToLowerInit | internal/ui/menu.go:116 | lower-casing commutes with dropping the last character |
| Menus.LowerCharSpace | internal/ui/menu.go:116 | lower-casing a character never changes whether it is white space |
| Menus.TrimLeftLower | internal/ui/menu.go:116 | trimming leading space commutes with lower-casing |
| Menus.TrimRightLower | internal/ui/menu.go:116 | trimming trailing space commutes with lower-casing |
| Menus.TrimSpaceLower | internal/ui/menu.go:116 | trimming and lower-casing may be done in either order |
| Menus.ConfirmMeansYes | internal/ui/menu.go:111-117 | a line confirms exactly when, trimmed, it is "y" or "yes" in any letter case |
| Menus.PromptSelect | internal/ui/menu.go:121-148 | the answer is -1 (cancel or invalid) or an option index; an index means the trimmed line reads as that index plus one; any number from 1 to the option count selects the option before it |
| Menus.SelectDigits | internal/ui/menu.go:141-147 | a digit string whose value is at most the option count selects that value minus one, so "0" cancels |
| Menus.SelectNumber | internal/ui/menu.go:129-147 | typing the number shown next to an option, or 0, gives its index, or -1 |
| Prompt.PromptCommand | internal/ui/prompt.go:17-27 | a read error gives ""; the result has no space at either end; it is empty exactly when the read failed or the line was blank |
| Prompt.ParseCommand | internal/ui/prompt.go:30-47 | the command is empty exactly when the input is blank, and then there are no arguments; the command is one lower-case word; every argument is a non-empty word without white space |
| Prompt.ParseTrimmed | internal/ui/prompt.go:36-46 | after trimming: the same guarantees as ParseCommand for the fields of the trimmed input |
| Prompt.PromptThenParse | internal/ui/prompt.go:17-47 | parsing the prompt's trimmed line gives the same command and arguments as parsing the raw line |
| Prompt.JoinEnds | internal/ui/prompt.go:36 | words joined by spaces start with the first word's first letter and end with the last word's last letter |
| Prompt.JoinCons | internal/ui/prompt.go:36 | a joined line is the first word, a separator, and the join of the rest |
| Prompt.WordOfPrefix | internal/ui/prompt.go:36 | a space-free prefix ended by space or the end of input is the first word |
| Prompt.FieldsOfWord | internal/ui/prompt.go:36 | the fields of a line starting with a word are that word followed by the fields of the rest |
| Prompt.FieldsSkipSpace | internal/ui/prompt.go:36 | a leading space does not change the fields |
| Prompt.FieldsJoin | internal/ui/prompt.go:36 | splitting words joined by single spaces into fields gives the words back |
| Prompt.FieldsOfOneWord | internal/ui/prompt.go:36 | a single word is its own only field |
| Prompt.FieldsJoinCons | internal/ui/prompt.go:36 | the fields of a joined list are its first word followed by the fields of the rest |
| Prompt.ParseWords | internal/ui/prompt.go:30-47 | a line of words separated by single spaces parses to the first word lower-cased as the command and the remaining words as the arguments |
| Interactive.StatusPriority | internal/commands/interactive.go:124-132 | the sort priority is one of 0 (OK), 1 (update) and 2 (missing) |
| Interactive.SymbolMatchesPriority | internal/commands/interactive.go:124-142 | the compact symbol is success, update or error exactly as the priority is 0, 1 or 2, and priority 2 means not installed |
| Interactive.Swap | internal/commands/interactive.go:84-86 | exchanging two slots of the status slice leaves the same statuses |
| Interactive.SortByPriority | internal/commands/interactive.go:84-86 | the statuses are reordered in place so that OK comes before update before missing, and no status is lost or added |
| Interactive.BandedLow | internal/commands/interactive.go:84-86 | moving an OK status to the end of the OK band keeps the three bands |
| Interactive.BandedMiddle | internal/commands/interactive.go:84-86 | an update status already in place extends the update band |
| Interactive.BandedHigh | internal/commands/interactive.go:84-86 | moving a missing status to the front of the missing band keeps the three bands |
| Interactive.RegionsSorted | internal/commands/interactive.go:84-86 | once the unsorted region is empty the bands are in priority order |
| Interactive.CompactRowOf | internal/commands/interactive.go:90-108 | a row carries the compact symbol, the tool name and the tool's run command |
| Interactive.CompactRowColumns | internal/commands/interactive.go:92-101 | the installed column is "-" exactly when the probe failed (or the version itself is "-"), and otherwise the probed version; the latest column is "-" exactly when no latest version is known |
| Interactive.DisplayCompactStatus | internal/commands/interactive.go:80-121 | the slice is sorted by priority in place as a permutation, and then there is one row per status, in the sorted order |
| Interactive.ClassifyIsAliasLookup | internal/commands/interactive.go:45-64 | the command switch is a lookup of the name without its leading '/' in the alias table (help/h/?, status/s, install/i, update/u, repair/r, run, env/e, exit/quit/q), anything else being unknown |
| Interactive.SlashIsOptional | internal/commands/interactive.go:44-45 | a command means the same with or without one leading '/' |
| Interactive.LineOfWords | internal/commands/interactive.go:37-45 | a line of words is dispatched on its lower-cased first word with the other words as arguments |
| Interactive.LineCommands | internal/commands/interactive.go:36-45 | one classified command (or none for a blank line) per input line, in order |
| Interactive.PromptReplay | internal/commands/interactive.go:36-66 | the loop only adds to the dispatched commands, never dispatches exit, and consumes input up to the end at most |
| Interactive.PromptReplayExits | internal/commands/interactive.go:60-62 | the loop returns right after the first exit command and at no earlier line; without one it reads all input |
| Interactive.PromptReplayStep | internal/commands/interactive.go:36-66 | one pass of the loop: a blank line is skipped, exit returns, any other command is dispatched and the loop continues |
| Interactive.RunPromptMode | internal/commands/interactive.go:17-67 | the read-parse-dispatch loop produces the trace PromptReplay describes |
| Interactive.PromptModeExits | internal/commands/interactive.go:36-66 | prompt mode ends only on a line whose command is exit, or when input runs out; exit itself is never dispatched to a handler |
| Interactive.ReplayFromStart | internal/commands/interactive.go:36-66 | from the first line, the loop exits on an exit line or reads everything, and dispatches no exit |
| Interactive.HandleInstallGuards | internal/commands/interactive.go:144-175 | install is attempted exactly for a known tool key whose probe fails, then it is Install of that tool; a missing argument, an unknown key or an installed tool runs nothing |
| Interactive.HandleUpdateGuards | internal/commands/interactive.go:177-228 | without arguments it is UpdateAll; with one it updates exactly a known, installed tool; a missing or unknown tool runs nothing |
| Interactive.HandleRepairGuards | internal/commands/interactive.go:230-270 | repair happens exactly for a known, installed tool whose confirmation is answered yes; then it runs the uninstall commands followed by the install commands, with the uninstall result ignored |
| Interactive.HandleRun | internal/commands/interactive.go:272-297 | usage exactly without an argument; unknown tool (with the key) exactly for a key not in the config; not installed (with the tool's name) exactly for a known tool whose probe fails; started exactly for a known tool whose probe succeeds, with the tool's command |
| Interactive.ShowEnvReport | internal/commands/interactive.go:299-340 | four manager lines (WinGet, Homebrew, npm, pip) with their availability, then five prerequisite lines (node, npm, python, pip, git), each marked as found on PATH or not; before them the detected OS and architecture values |
| UpdateCmd.UpdateKeyAll | internal/commands/update.go:39-47 | the whole set is updated exactly when no argument is given or the argument is "all" in any letter case |
| UpdateCmd.NotInstalledErrorsClassified | internal/commands/update.go:95-98 | both the batch's "not installed" entries and a single update's "tool not installed: …" error count as not installed |
| UpdateCmd.TallyInRemove | internal/commands/update.go:88-112 | the tally of a set of results is the tally without any one of them, bumped by that one's class, so map order does not matter |
| UpdateCmd.TallyCountsClasses | internal/commands/update.go:88-112 | each counter of the tally is the number of results in its class |
| UpdateCmd.CountResults | internal/commands/update.go:83-112 | the loop over the results map, in whatever order it runs, yields the class counts, and the four counters add up to the number of results |
| UpdateCmd.RunUpdateAll | internal/commands/update.go:79-117 | the summary counts classify the UpdateAll results and add up to their number; the commands run are UpdateAll's |
| UpdateCmd.NoneInstalledTally | internal/commands/update.go:95-98 | when no tool is installed the summary is 0 updated, 0 up to date, 0 failed and all not installed |
| UpdateCmd.UniformTally | internal/commands/update.go:88-112 | results all of one class are all counted in that class |
| UpdateCmd.RunUpdateGuards | internal/commands/update.go:36-77 | no argument updates all; a single update happens exactly for a known tool key whose probe succeeds and is Update of that tool; an unknown or missing tool runs nothing |
| InstallCmd.CountResults | agenthelper-go/internal/commands/install.go:118-139 | the loop over the results map counts successes and failures, whatever the map order, and the two add up to the number of results |
| InstallCmd.RunInstallAll | agenthelper-go/internal/commands/install.go:114-143 | the summary counts InstallAll's results, successes plus failures equal their number, and the commands run are InstallAll's |
| InstallCmd.AllInstalledSummary | agenthelper-go/internal/commands/install.go:114-143 | when every tool is already installed nothing runs and the summary is all succeeded, none failed |
| InstallCmd.RunInstallGuards | agenthelper-go/internal/commands/install.go:43-112 | only "all" or a known, not yet installed tool runs anything; with --method the request needs some best method, a spec for the OS, a method among winget, brew, npm, pip, apt and a non-empty command, which is the one command run; without it the install is Install of that tool |
| InstallCmd.GetToolKeys | agenthelper-go/internal/commands/install.go:145-153 | one more key than tools, "all" first, then the tool keys in config order |
| StatusCmd.OutputJSON | agenthelper-go/internal/commands/status.go:74-96 | the output names the platform string and has one entry per status, entry i copying the fields of status i |
| StatusCmd.JSONEntries | agenthelper-go/internal/commands/status.go:80-91 | each entry carries its tool's key, name and command, says installed exactly when the probe succeeds, and reports an update only with both versions present |
| StatusCmd.LabelMatchesCompactSymbol | agenthelper-go/internal/commands/status.go:135-143 | "Not installed" whenever not installed, whatever HasUpdate says; else "Update available" when there is an update; else "Up to date"; these agree with the prompt mode's compact symbols |
| StatusCmd.TableAgreesWithCompact | agenthelper-go/internal/commands/status.go:101-122 | the table's installed, latest, command and name columns are those of the prompt mode's compact row, so "-" stands for a missing version in both |
| StatusCmd.DisplayStatusTable | agenthelper-go/internal/commands/status.go:98-133 | one row per status, in order, with "-" for a missing installed or latest version |
| StatusCmd.RunStatus | agenthelper-go/internal/commands/status.go:45-72 | with JSON selected only the JSON output is produced, with one entry per tool; otherwise only the table, with one row per tool |
| RepairCmd.RunRepair | agenthelper-go/internal/commands/repair.go:37-81 | the step sequence produces the outcome and the commands RepairRun describes |
| RepairCmd.RepairSteps | agenthelper-go/internal/commands/repair.go:41-70 | an unknown tool runs nothing; otherwise the uninstall commands run and then the install commands, whatever the uninstall result; the repair fails exactly when the install fails, with its error |
| RepairCmd.RepairVerifiedAfterInstall | agenthelper-go/internal/commands/repair.go:72-80 | the completion message needs a successful install, and the verifying probe then always finds a version, since it asks the same host the install's own re-probe asked |
| RepairCmd.KeysOf | agenthelper-go/internal/commands/repair.go:87-90 | one key per tool, in order |
| RepairCmd.GetInstalledToolKeys | agenthelper-go/internal/commands/repair.go:83-93 | the keys, in config order, of exactly the tools whose probe succeeds |
| RepairCmd.InstalledKeysMembers | agenthelper-go/internal/commands/repair.go:83-93 | a key is offered exactly when some tool with that key is installed |
| EnvCmd.NamesOfSnoc | agenthelper-go/internal/commands/env.go:116-121 | appending a variable adds exactly its name to the checked names |
| EnvCmd.ClaimsWiden | agenthelper-go/internal/commands/env.go:111-123 | what holds of the variables after some tools still holds after the next one is reached |
| EnvCmd.ClaimsSnoc | agenthelper-go/internal/commands/env.go:113-121 | appending a not yet checked variable, first named by the current tool, keeps the names distinct, each attributed to the first tool naming it |
| EnvCmd.DistinctSnoc | agenthelper-go/internal/commands/env.go:113-121 | appending an unseen name keeps the names distinct |
| EnvCmd.CollectEnvVars | agenthelper-go/internal/commands/env.go:109-123 | every variable any tool lists appears exactly once, attributed to the first tool in config order that lists it, and IsSet exactly when its value is non-empty; the variables come in the order of their first tools |
| EnvCmd.BuildEnvReport | agenthelper-go/internal/commands/env.go:78-146 | the platform fields come from detection: the OS and architecture values, the WSL flag as detection sets it (only on Linux) and the display string of the detected platform; six manager entries in fixed order with their availability; five prerequisites in fixed order, each available exactly when its command is on PATH; the de-duplicated variables of CollectEnvVars, in the order of their first tools |
| EnvCmd.ManagerNames | agenthelper-go/internal/commands/env.go:90-107 | the manager entries are named WinGet, Homebrew, apt, pacman, npm, pip in that order |
| EnvCmd.Summarize | agenthelper-go/internal/commands/env.go:207-232 | the missing counts are the number of unavailable prerequisites and unset variables, and "Environment looks good!" exactly when both are zero |
| EnvCmd.LooksGoodIffComplete | agenthelper-go/internal/commands/env.go:222-232 | both counts are zero exactly when every prerequisite is available and every variable is set |
| Lists.FilterMembers | agenthelper-go/internal/platform/packagemanager.go:273-307 | a kept element is one of the candidates that passes the test, and every such candidate is kept |
| Lists.FilterRanked | agenthelper-go/internal/platform/packagemanager.go:273-307 | keeping some candidates preserves their order |
| Lists.FilterSubset | agenthelper-go/internal/commands/repair.go:87-91 | everything kept was a candidate and passed the test |
| Lists.RankedDistinct | agenthelper-go/internal/platform/packagemanager.go:273-307 | a strictly ordered list has no duplicates |
| Lists.FilterConcat | agenthelper-go/internal/platform/packagemanager.go:276-304 | filtering two lists one after the other is filtering their concatenation |
| Lists.FilterSnoc | agenthelper-go/internal/commands/repair.go:87-91 | one more loop step appends the element exactly when it passes |
| Lists.FilterStep | agenthelper-go/internal/commands/repair.go:87-91 | the filter of a longer prefix extends the filter of the shorter one by the next element when it passes |
| Lists.Pick | internal/commands/update.go:88 | an element of a non-empty key set, standing for whichever key Go's map traversal yields |
| Lists.CountByRemove | internal/commands/update.go:88-112 | counting a key set equals counting it without one key plus that key's hit, so the count does not depend on map order |
| Lists.CountByUniform | agenthelper-go/internal/commands/install.go:121-139 | keys that all fall in one class count fully in that class and not at all in another |
| Lists.CountStep | agenthelper-go/internal/commands/env.go:208-220 | counting one more element adds one exactly when it passes |
| Lists.CountZero | agenthelper-go/internal/commands/env.go:222 | the count is zero exactly when no element passes |
| Text.TrimSpace | internal/ui/prompt.go:26 | strings.TrimSpace: the result is no longer than the input, has no white space at either end, and is empty exactly when the input is all white space |
| Text.TrimLeftTrims | internal/ui/prompt.go:26 | the leading trim removes exactly a white-space prefix and stops at a non-space character |
| Text.TrimRightTrims | internal/ui/prompt.go:26 | the trailing trim removes exactly a white-space suffix and stops at a non-space character |
| Text.TrimSpaceNoop | internal/ui/prompt.go:31 | trimming text without white space at its ends changes nothing, so ParseCommand's second trim is harmless |
| Text.ToLower | internal/ui/prompt.go:41 | strings.ToLower on ASCII: same length, each character lower-cased |
| Text.ToLowerWord | internal/ui/prompt.go:41 | lower-casing a word keeps it free of white space and leaves no upper-case letter |
| Text.IndexOf | internal/manager/version_checker.go:228 | the position of the first occurrence of the separator, where strings.Split cuts |
| Text.IndexOfIsFirst | internal/manager/version_checker.go:228 | a position holding the character with no earlier occurrence is the one found |
| Text.Split | internal/manager/version_checker.go:228 | strings.Split: at least one piece, and no piece contains the separator |
| Text.JoinSplit | internal/manager/version_checker.go:228 | joining the pieces with the separator gives the input back |
| Text.SplitJoin | internal/manager/version_checker.go:228 | splitting separator-free pieces joined by the separator gives the pieces back |
| Text.Word | internal/ui/prompt.go:36 | the first word is a space-free prefix ending at white space or the end, non-empty when the input starts with a non-space |
| Text.Fields | internal/ui/prompt.go:36 | strings.Fields: non-empty, space-free fields, none exactly when the input is all white space |
| Text.NatToString | internal/ui/menu.go:129 | the decimal rendering of a number is a non-empty digit string |
| Text.NatToStringRoundTrip | internal/ui/menu.go:129 | the decimal rendering of a number reads back as that number |
| Text.Atoi | internal/ui/menu.go:142 | strconv.Atoi: text converts exactly when it is digits with an optional leading '+' or '-'; the digits give their value, negated after '-' |

## Left out

- HTTP transport, `io.ReadAll` and `encoding/json` in the version checker: the network is the `Web` parameter (`get` answers a URL with a transport error or a status and body; `field` decodes one JSON field). Only the status check and the post-processing of the decoded field are modelled; the request timeout and the `Accept` header are not.
- Process execution (`exec.Command`, `cmd.Run`, `exec.LookPath`): the shell is the `exec` parameter and "on PATH" is the `onPath` set. The bounded wait and the suppression of console windows (`exec_windows.go`, `exec_unix.go`) are not modelled.
- VersionChecker.ExtractVersion: the regular-expression engine is the `regex` parameter. Only the default pattern `(\d+\.\d+\.\d+)` is given a scanner of its own (`FindDefault`), and `DefaultExtraction` holds for engines that agree with that scanner.
- Versions.Parse: covers the numeric core only. That is an optional `v` and one to three dot-separated digit runs, with missing fields read as 0. The semver library also accepts pre-release and build-metadata suffixes and orders pre-releases; the model rejects them. Overflow of 64-bit fields is not modelled.
- Text.Atoi: the 64-bit range check of `strconv.Atoi` is not modelled.
- Text.ToLower: folds ASCII letters only. Go's `strings.ToLower` and `strings.EqualFold` also fold non-ASCII letters, so `Menus.Select` and the case-insensitive lookups are modelled for ASCII keys.
- ToolManager.GetAllToolStatus: the goroutines and the `WaitGroup` are modelled as sequential slot filling. Each goroutine writes only its own slot and probes do not change the host, so the result is the same.
- Interactive.SortByPriority: `sort.Slice` is replaced by an in-place three-way partition. The contract states what `sort.Slice` promises: sorted by priority and a permutation. The order within one priority band, which `sort.Slice` leaves unspecified, is not modelled.
- UpdateCmd.CountResults, InstallCmd.CountResults: Go's map traversal order is random. The loops pick an arbitrary remaining key and are specified by order-independent counts (`Lists.CountBy`, `UpdateCmd.TallyOf`), so those specifications are ghost. The per-key printed lines are not modelled.
- UpdateCmd.RunUpdate, InstallCmd.RunInstall, InstallCmd.Summary: ghost specifications of the command handlers, because they are stated through those order-independent counts.
- Menus.Menu.Display, Interactive.RunPromptMode: the input stream is a finite sequence of read results. A loop that would wait forever for more input ends when the sequence runs out, and the trace says it did not exit.
- Menus.Menu.Display: item actions are `Option<bool>`, the value the action would return (none for an item without an action). What an action does besides returning that value is not modelled.
- The Ctrl+C handler in prompt mode (a goroutine on a signal channel that calls `os.Exit`) is not modelled.
- The spinner (`spinner.go`) is not modelled. It depends on timing, a mutex and a channel.
- Terminal rendering is not modelled: colours, tables, banners, the legend and the help text. Rows and reports are modelled as data; the strings printed around them are not.
- YAML decoding, `embed`, cobra argument checks and viper flags are not modelled. Decoding is a parameter of `Config.ToolRegistry.LoadToolDefinitions`. The `--json` and `--method` flags are parameters. The handlers take the argument counts cobra enforces (`ExactArgs(1)`, `MaximumNArgs(1)`) as preconditions.
- Updater.Update: on Windows with winget it runs the corrected rewrite `Updater.UpgradeCommand` instead of the program's `replaceWingetInstallWithUpgrade` (see Findings). The two agree on every winget command that starts with "winget install". For any other winget command the program panics (7 to 13 characters) or overwrites the first 14 characters ("winget.exe install --id X" becomes "winget upgradetall --id X"); the model runs such a command unchanged.
- Updater.UpdateUsesWingetUpgrade: states the corrected rewrite, as Updater.Update runs it; it equals the program's rewrite only when the spec's winget command starts with "winget install".
- Updater.WingetUpgrade: computes the corrected rewrite, for the same reason as Updater.Update.
- Updater.UpdateByBestMethod, Updater.UpdateAll: run the command of Updater.WingetUpgrade, so they inherit the corrected rewrite.
- `root.go` and `version.go` are not modelled.
- `internal/commands/run.go` and the `runToolDirect` call are not modelled. Launching a tool with inherited stdio and `os.Exit` is process control. `Interactive.HandleRun` stops at the decision to start the tool's command.
- Paths: `filepath.Join` is modelled as a list of path segments, `filepath.Clean` as a parameter, and `os.Stat` as an existence predicate.
- Paths: `EnsureDirectories` is not modelled. It only creates directories on the file system.
- Detector: the two WSL probes are stubs in the program that answer false, and they are modelled as such. So no platform is ever reported as WSL (`Detector.IsWSLNever`).
- Windows console set-up (`init_windows.go`) is not modelled.

## Findings

| source | as written | input that shows it | evidently intended | confidence | as-written member | corrected member |
|---|---|---|---|---|---|---|
| agenthelper-go/internal/manager/updater.go:140-146 | any command longer than 6 characters that starts with "winget" is cut at index 14 and prefixed with "winget upgrade"; commands of 7 to 13 characters index out of range and panic, and a winget command that does not start with "winget install" has its first 14 characters overwritten | "winget -v" (9 characters) passes the guard, and the slice from index 14 is out of range | replace a leading "winget install" by "winget upgrade" and leave every other command unchanged | not executed | Updater.ShortWingetCommandPassesGuard (with Updater.ReplaceWingetInstallWithUpgrade, whose precondition excludes the panicking lengths) | Updater.UpgradeCommand (with Updater.UpgradeAgreesWithAsWritten and Updater.UpgradeIdempotent); Updater.Update uses it |
