# KSEC: verified models of its stateful core

This project models the parts of KSEC whose behaviour is more than argument plumbing, and proves what they keep over
every input, every run or every interruption. Each module has the same three layers: specification functions on plain
values, the operations (methods with loops, classes with fields where the program updates state) proved equal to those
functions, and lemmas about the functions.

| module | what it models |
|---|---|
| `Drift`, `ChangeService` | the recursive document diff, its rendered report, baselines, scans and the asset inventory |
| `Migrations` | the migration runner in autocommit mode: killed or failing at any statement, and retried |
| `Entropy` | the byte histogram and Shannon entropy, rounded to four places |
| `ConfigEdit`, `ConfigRead` | the line editor for the `[safety]` table, and what a TOML reader finds in the file before and after an edit |
| `ConfigMerge` | the layered merge behind the configuration |
| `StableSort`, `Timeline` | Python's `sorted`, and the activity history merged from three sources cut to a limit |
| `Adapters`, `Plugins`, `ToolSelection` | the adapter registry, the plugin lifecycle over registry rows, and the choice of a provider by tool name |
| `Ip`, `Scope`, `Hosts`, `Authorization` | networks, target matching, the written forms of a host, and the deny-overrides decision |
| `Normalization`, `Ingestion` | canonical addresses and names, and the deduplicating asset store fed from parsed entities |
| `KillChain` | adversary exercises: order of steps, policy decisions, jobs and the verdict |
| `Evidence` | evidence, its chain of custody, and the compliance snapshots that verify all of it |
| `Cases` | case status, findings and notes against the timeline of events |
| `Common`, `Text`, `Json` | options, string order and Python string operations, documents |

`dafny verify dfyconfig.toml` checks everything.

## Where the code and its own description differ

- `src/ksec/db/migrations.py:49-51` says that all DDL uses IF NOT EXISTS. `migrations/011_window_rules.sql` and
  `migrations/014_timebound_workflow_versioning.sql` use ALTER TABLE ADD COLUMN. An interrupted installation completes
  on retry if and only if no ADD COLUMN was committed after the last version row (`ResumesIff`), that is, if and only
  if the first pending file adds no column that is already there (`ResumesIffUnblocked`); otherwise every later
  attempt fails without changing anything (`StuckForever`, `WindowRulesCanGetStuck`).
- `_toggle_config` promises an edit of the `[safety]` table, no duplicate tables, and other keys preserved verbatim.
  - It ends the table only at a line that ends in `]`, so a header such as `[audit] # keep` is taken for a line of the
    safety table. `ReadAfterWriteIff` says exactly when a reader of the file finds the new value in the safety table,
    `LostToggle` gives a file where it does not, and `OtherTablesIff` says exactly when all other tables read as before.
  - No duplicate tables: exactly when safety, if the file declares it at all, is declared by a plain `[safety]` header
    (`NoDuplicateTableIff`). A header with a comment (`CommentedHeaderIsOverlooked`), an assignment such as
    `safety.lab_mode = false` before the first header (`RootedIsDeclaredTwice`), and `[[safety]]`
    (`ArrayIsDeclaredTwice`) are overlooked, and the edited file is then refused by every TOML reader.
  - Verbatim, as text: exactly when every line ends with a line feed and no other line break occurs (`TextFrameIff`).
- `_normalize_target` reduces a URL and `host:port` to the host, and leaves an IPv6 literal in brackets with a port as
  it is written. The forms of a host are one target exactly for names and IPv4 addresses, and URLs also for the literals
  that `urlsplit` accepts (`FormsReduceIff`, `PortFormDecisionIff`, `UrlDecisionIff`). So a network rule reaches an
  IPv6 address as it stands and in a URL, and not in brackets with a port (`DenyMissesPortForm`).
- The configuration merge is not associative when a middle layer puts a scalar between two tables
  (`ScalarBetweenTables`); `AssociativeIff` gives the exact condition. The module text of the loader names the
  precedence without the profile, which stands between the file and the overrides (`LoadPrecedence`).
- The activity history is exact when the audit log's ids and timestamps agree (`HistoryShowsNewest`); when they do
  not, `CutAuditExactIff` says exactly when it still is, and `LateAuditIsMissed` gives two rows for which it is not.
- Plugins: the registry invariant breaks exactly when a plugin is enabled by a manifest in its directory that names a
  plugin that is not enabled and adds a capability (`StepInvIff`, `MisnamedManifestBreaksInv`); an uninstalled plugin
  can never be installed again (`UninstallIsFinal`). The execution gate asks about the capability, not about the
  adapter: `DispatchIff` says exactly when a job is given an adapter of a plugin that may not run, which takes a job
  that names a tool; `LeftoverIff` says which runs come to that, and `LeftoverReached` gives one.
- `src/ksec/plugins/manager.py:16` says that untrusted plugins are never loaded. Enabling asks for the trust level of
  the manifest, not of the registry row: `StepTrustIff` and `ReachableTrustIff` say exactly when every loaded plugin is
  trusted, `UntrustedIsLoaded` gives a run in which one is not.
- `src/ksec/adapters/registry.py:3-6` says that any built-in provider can be selected by its tool name. An alternate
  one is, exactly as long as no adapter loaded since the start took that name (`AlternateSelectedIff`, `NameTaken`).
- Kill-chain order: steps are ordered by the stored tactic, the outcomes report the resolved one. The reported phases
  ascend exactly when no tactic learnt later is out of place (`ReportedPhasesAscendIff`). In a live verdict any final
  job state other than failed and blocked counts as completed (`LiveVerdictIff`).

## Model

| member | source | states |
|---|---|---|
| Drift.DiffThenPatch | src/ksec/change/service.py:212-242 | applying the drift items of two documents to the first gives exactly the second, for all document trees |
| Drift.InvertedPatchRestores | src/ksec/change/service.py:212-242 | applying the inverted items to the second document gives back the first |
| Drift.PatchKeys | src/ksec/change/service.py:220-235 | the loop over the sorted keys changes just the keys visited, and gives them their new values |
| Drift.CleanIffEqual | src/ksec/change/service.py:102-104 | the drift list is empty if and only if the two snapshots are equal |
| Drift.DiffSwap | src/ksec/change/service.py:220-242 | comparing the other way round swaps added with removed and before with after, item by item and in the same order |
| Drift.DiffOrdered | src/ksec/change/service.py:220-242 | item paths ascend strictly and none is a prefix of another, and what each item says about both documents is true |
| Drift.RenderInjective | src/ksec/change/service.py:224 | dotted paths of non-empty, dot-free keys identify the key list |
| Drift.OtherKeysCollide | src/ksec/change/service.py:224 | every key that is empty or contains a dot occurs in a path that renders like a different one, so the condition on keys cannot be relaxed |
| Drift.DottedKeysHideDrift | src/ksec/change/service.py:220-242 | the rendering of whole drift lists is not injective either: two lists of documents with a dotted key, which no scan compares |
| Drift.ReportDeterminesDrift | src/ksec/change/service.py:212-242 | for any two pairs of tables whose keys are plain at every depth, equal stored reports mean equal drift |
| Drift.ReportIsTrue | src/ksec/change/service.py:220-242 | every line of a report is true of the two documents: at some path written as the line's, the first holds its `before` and the second its `after`, or only one of them holds its value |
| Drift.SameOrderAsJson | src/ksec/change/service.py:216-222 | on keys made of letters a to z and underscores, the order of the JSON texts that the docstring names is the order of the keys that the code uses |
| ChangeService.SnapshotKeys | src/ksec/change/service.py:140-210 | every snapshot of every scope is a table with only such keys at every depth |
| ChangeService.ReportsIdentifyDrift | src/ksec/change/service.py:92-122 | two comparisons of stored documents with snapshots, of any scopes, that have the same report found the same drift |
| ChangeService.ScanReportsIdentify | src/ksec/change/service.py:92-122 | two recorded scans with the same stored report, of any baselines at any times, found the same drift |
| ChangeService.DriftReport.Walk | src/ksec/change/service.py:220-239 | the nested walk appends exactly the rendered items of the diff to the shared list |
| ChangeService.AssetsSnapshot | src/ksec/change/service.py:149-170 | the grouping loop yields, for each asset type that occurs, the entries of that type in row order |
| ChangeService.GroupedEqualIff | src/ksec/change/service.py:149-170 | two grouped inventories are equal if and only if every type lists the same entries |
| ChangeService.InventoryCleanIff | src/ksec/change/service.py:149-170 | an inventory comparison reports nothing exactly when the entries of every type are equal |
| ChangeService.EntriesAre | src/ksec/change/service.py:149-170 | the entries of a type are the target and criticality of each row of that type that the scope's target selects: of one engagement for an all-digit target, of all otherwise |
| ChangeService.SnapshotsAgreeIff | src/ksec/change/service.py:140-210 | two snapshots of a scope are equal if and only if nothing differs that it is about: for assets the (target, criticality) lists of every type, for findings and jobs all fields of all rows in order, else the eight row counts |
| ChangeService.Service.TakeSnapshot | src/ksec/change/service.py:140-147 | the snapshot of each scope, an all-digit target selecting one engagement's assets |
| ChangeService.Service.CreateBaseline | src/ksec/change/service.py:48-69 | refuses unknown scopes and blank names without any change; else stores the snapshot of the present state under a fresh id and nothing else changes |
| ChangeService.Service.RemoveBaseline | src/ksec/change/service.py:81-88 | removes exactly that baseline and the scans that name it, and says whether it existed |
| ChangeService.Service.Scan | src/ksec/change/service.py:92-122 | records one scan; it is clean if and only if nothing that the scope is about differs between the moment of the baseline and now; its report is the rendered diff, every line of it is true of the two documents, and it identifies the drift |
| Migrations.MigrationRunner.CurrentVersion | src/ksec/db/migrations.py:29-31 | the largest recorded version, 0 for an empty table |
| Migrations.MigrationRunner.ExecuteScript | src/ksec/db/migrations.py:49-52 | a script commits statement by statement until done, refused or killed |
| Migrations.StatementEffects | src/ksec/db/migrations.py:49-52 | a statement is refused only for a missing table or an added column that is already there; an accepted one removes nothing and adds just the table, column or index that it names |
| Migrations.MigrationRunner.Apply | src/ksec/db/migrations.py:37-60 | one attempt, killed after any number of commits, ends in the database the step semantics gives and, when it completes, returns the names that were pending |
| Migrations.PositionOf | src/ksec/db/migrations.py:29-35 | wherever a fresh installation stops, the recorded versions are those of a prefix of the files and exactly the rest is pending |
| Migrations.AttemptMovesForward | src/ksec/db/migrations.py:37-60 | an attempt leaves a point of the fresh installation that is never an earlier one; if it cannot resume it leaves the database as it was |
| Migrations.HistoryIsConsistent | src/ksec/db/migrations.py:29-60 | after any history of attempts, stopped anywhere, the recorded versions are a prefix of the files in order |
| Migrations.ResumesIff | src/ksec/db/migrations.py:37-60 | an undisturbed attempt completes if and only if no ADD COLUMN was committed since the last version row; it then leaves the freshly installed database, all versions, and nothing pending |
| Migrations.ResumableIffUnblocked | src/ksec/db/migrations.py:33-60 | at any point of an installation, no ADD COLUMN of the interrupted script is committed if and only if none of the first pending file names a column that is already there |
| Migrations.ResumesIffUnblocked | src/ksec/db/migrations.py:37-60 | for every database that attempts can leave, an undisturbed attempt completes if and only if the first pending file adds no column that is already there |
| Migrations.StuckForever | src/ksec/db/migrations.py:37-60 | otherwise no later history of attempts changes the database |
| Migrations.IfAbsentScriptsAlwaysResume | src/ksec/db/migrations.py:49-52 | where the comment is true, after any history the next undisturbed attempt completes and every later one applies nothing |
| Migrations.WindowRulesCanGetStuck | migrations/011_window_rules.sql:7-8 | this script, killed between its two statements, is refused for ever |
| Entropy.ShannonEntropy | src/ksec/malware/service.py:46-59 | both loops compute the rounded entropy of the multiset of bytes; the order of the bytes does not matter |
| Entropy.CountsAddUp | src/ksec/malware/service.py:50-52 | the 256 counts sum to the length |
| Entropy.EntropyBounds | src/ksec/malware/service.py:46-59 | 0 <= H <= 8; H = 0 exactly for one byte value; H = 8 exactly when all 256 values are equally frequent |
| Entropy.RoundedBounds | src/ksec/malware/service.py:59 | rounding to four places stays within 0 and 8, and gives 0 exactly up to 1/20000 |
| Entropy.ReportedZero | src/ksec/malware/service.py:59 | for data of any size the reported entropy is 0 if and only if the entropy is at most 1/20000 bit, and so for constant data |
| Entropy.ReportedZeroIff | src/ksec/malware/service.py:46-59 | one byte value occurs if and only if the reported entropy is 0 and no value is rarer than one byte in 256 KiB, which in data of at most that size none is |
| Entropy.RareByteIsRoundedAway | src/ksec/malware/service.py:59 | with a rarer value this fails: 1 MiB with one odd byte has positive entropy, reported as 0 |
| ConfigEdit.LocateSpan | src/ksec/cli/mode.py:45-57 | the loop finds the first plain safety header and the next header after it, or the end |
| ConfigEdit.RewriteSpan | src/ksec/cli/mode.py:58-65 | the loop rewrites every line of the key within the span and keeps all others |
| ConfigEdit.RewriteKeyLine | src/ksec/cli/mode.py:44-62 | a rewritten line still sets that key, reads as the new value, and forgets the previous value |
| ConfigEdit.ToggleConfig | src/ksec/cli/mode.py:38-76 | the edited line list is the one the specification gives, in all three cases |
| ConfigEdit.ModeSet | src/ksec/cli/mode.py:105-120 | accepts lab, safe and read-only and writes the text with lab_mode, safe_mode or read_only edited |
| ConfigRead.ModeReadsBack | src/ksec/cli/mode.py:38-120 | from the switch name and the text of the file: a reader of the written text finds the new value under the switch's key, under exactly the condition of the read after write |
| ConfigRead.ReadAfterWriteIff | src/ksec/cli/mode.py:42-76 | a reader finds the new value in the safety table if and only if safety is declared by one plain header or, where the editor sees none, not at all; no table stands at the key; and in the editor's span before the first other table the key is set once, or is not mentioned and there is no other table |
| ConfigRead.OtherTablesIff | src/ksec/cli/mode.py:42-76 | every other table reads as before, for every bare key, if and only if no table starts within the span, or the key occurs in the span and every table that starts there and has it already has the new value |
| ConfigRead.OtherKeysRead | src/ksec/cli/mode.py:42-76 | every bare key other than the edited one stands on the same lines, and reads as before, in every table of the file |
| ConfigRead.EditsCommuteEverywhere | src/ksec/cli/mode.py:42-76 | edits of two different keys commute for every bare key of every table |
| ConfigRead.SettingLost | src/ksec/cli/mode.py:46-70 | if a table starts within the span and the key is set nowhere in it, the last such table receives the setting and the safety table stays without it |
| ConfigRead.LostToggle | src/ksec/cli/mode.py:46-70 | a three-line file for which this happens |
| ConfigEdit.ReadAfterWrite | src/ksec/cli/mode.py:42-76 | afterwards every line of the editor's span that sets the key has the new value, and there is one |
| ConfigEdit.EditFrame | src/ksec/cli/mode.py:42-76 | lines before and after the table are untouched, the table's other lines are the same in the same order; without a table, a blank line after a last line that is not blank, the header and the setting are appended |
| ConfigEdit.OtherKeysKept | src/ksec/cli/mode.py:42-76 | the first line of the span for every other bare key has the same value as before |
| ConfigEdit.EditsCommute | src/ksec/cli/mode.py:42-76 | edits of two keys commute on the lines of the span, for every bare key, and leave the same lines outside it |
| ConfigEdit.LastWriteWins | src/ksec/cli/mode.py:46-76 | writing twice gives line for line what the second write alone gives |
| ConfigEdit.SplitJoin | src/ksec/cli/mode.py:31-76 | splitting the written text gives back the lines |
| ConfigEdit.TextLastWriteWins | src/ksec/cli/mode.py:31-76 | last write wins on the file text, also when the file did not exist |
| ConfigEdit.SplitIsLosslessIff | src/ksec/cli/mode.py:31-76 | splitting a text and writing the lines gives the text back if and only if every line ends with a line feed and there is no other line break |
| ConfigEdit.TextFrameIff | src/ksec/cli/mode.py:31-76 | the written text is the old text with only the table's part edited, or the new table appended, if and only if the old text is of that form |
| ConfigEdit.TablesAfterEdit | src/ksec/cli/mode.py:46-75 | the number of [safety] headers, plain or with blanks and comments, grows by one exactly when no plain one was found |
| ConfigRead.DeclaredAfterEdit | src/ksec/cli/mode.py:46-75 | so does the number of declarations of safety: those headers, an array of that name, and assignments to it before the first header |
| ConfigRead.NoDuplicateTableIff | src/ksec/cli/mode.py:39-75 | from at most one declaration, at most one remains if and only if the declaration there was is a plain header |
| ConfigRead.RootedIsDeclaredTwice | src/ksec/cli/mode.py:46-75 | a file that sets safety.lab_mode before any header gets a second declaration and is refused |
| ConfigRead.ArrayIsDeclaredTwice | src/ksec/cli/mode.py:46-75 | so does a file with an array of that name |
| ConfigEdit.CommentedHeaderIsOverlooked | src/ksec/cli/mode.py:46-50 | a header with a comment gets a second table |
| ConfigMerge.DeepMerge | src/ksec/config/loader.py:57-64 | the recursive loop computes the merge |
| ConfigMerge.MergeNothing | src/ksec/config/loader.py:57-64 | the empty layer is neutral on both sides |
| ConfigMerge.MergeAbsorbs | src/ksec/config/loader.py:57-64 | merging a layer a second time changes nothing |
| ConfigMerge.CoveredIff | src/ksec/config/loader.py:57-64 | merging a layer over another gives just the upper one if and only if it redefines every key of every table the two share |
| ConfigMerge.AssociativeIff | src/ksec/config/loader.py:57-64 | three layers merge associatively if and only if, wherever the outer two hold a table, the middle one holds a table or nothing, or the upper one redefines all of the lower |
| ConfigMerge.ScalarBetweenTables | src/ksec/config/loader.py:57-64 | a scalar between two tables breaks associativity |
| ConfigMerge.MergeLeaf | src/ksec/config/loader.py:57-64 | a leaf comes from the upper layer exactly where that layer has a value or a scalar on the way |
| ConfigMerge.HighestLayerWins | src/ksec/config/loader.py:88-121 | for any number of layers every leaf comes from the highest layer that decides its path |
| ConfigMerge.Load | src/ksec/config/loader.py:88-153 | the loaded document is defaults, file, selected profile and overrides merged in that order; a file that cannot be read or parsed and an unknown profile are the only errors |
| ConfigMerge.ProfileIsAt | src/ksec/config/loader.py:112-120 | the selected profile is the table that the merged document holds at profiles.<name>, if it is one |
| ConfigMerge.LoadPrecedence | src/ksec/config/loader.py:97-153 | overrides before profile before file before defaults, leaf by leaf |
| StableSort.StableSortLoop | src/ksec/cli/history.py:66 | the sorting loop computes the stable sort |
| StableSort.SortSorts | src/ksec/cli/history.py:66 | the result is sorted and a permutation |
| StableSort.SortStable | src/ksec/cli/history.py:66 | equivalent elements keep their order |
| StableSort.CutSource | src/ksec/cli/history.py:16-67 | cutting a sorted source to k before sorting leaves the first k of the sorted whole unchanged, for any total preorder |
| Timeline.History | src/ksec/cli/history.py:11-67 | the shown list is the cut of the stable newest-first sort of the three cut sources, a failing source counting as empty; with newest-first tables it is the cut of the sort of all rows. For a positive limit that many events are shown, or all there are; later moments come first; each event shows moment, subject, target and details of a row of its kind |
| Timeline.CutSourcesShowTheSame | src/ksec/cli/history.py:16-67 | with newest-first sources, cutting each loses nothing: same list, ties included, for positive and negative limits |
| Timeline.HistoryShowsNewest | src/ksec/cli/history.py:16-67 | the same for the rows of the three tables as they are mapped to events |
| Timeline.FirstDropped | src/ksec/cli/history.py:16-67 | the first k of a merge ignore the dropped events if and only if the k-th one goes ahead of the newest dropped |
| Timeline.CutAuditExactIff | src/ksec/audit/service.py:74-76 | with the audit log fetched by id but not sorted by time, the view is exact if and only if n runs, jobs and fetched audit events go ahead of every one not fetched |
| Timeline.LateAuditIsMissed | src/ksec/audit/service.py:74-76 | two audit rows with ids against their times, of which the view shows the older |
| Adapters.AdapterRegistry.constructor | src/ksec/adapters/registry.py:83-93 | the registry starts with the built-in adapters |
| Adapters.AddBuiltinsKeepsFirst | src/ksec/adapters/registry.py:83-93 | the preferred built-in of a capability is the first listed one, without owner |
| Adapters.AdapterRegistry.Register | src/ksec/adapters/registry.py:105-109 | sets adapter, tool entry and owner of one capability, nothing else |
| Adapters.AdapterRegistry.Unregister | src/ksec/adapters/registry.py:111-113 | removes adapter and owner but leaves the tool entry |
| Plugins.PluginManager.Discover | src/ksec/plugins/manager.py:139-208 | exactly the plugins on the path get rows; an existing row keeps its status, a new one is enabled only if first met in a bundled directory and else installed; trust and permissions are those of the last manifest on the path |
| Plugins.PluginManager.LoadPlugin | src/ksec/plugins/manager.py:231-266 | the plugin gets exactly the free capabilities that its loadable adapters provide, no other slot changes, and the result reports whether all of them loaded |
| Plugins.PluginManager.LoadEnabled | src/ksec/plugins/manager.py:212-229 | what is new belongs to plugins whose row is enabled, trusted and permitted; all that such plugins on the path provide is registered; nothing registered changes |
| Plugins.PluginManager.Install | src/ksec/plugins/manager.py:270-350 | succeeds if and only if the plugin has no row, is not on the path and its directory is free; the row is enabled only with approval and a trusted manifest; adapters are registered only if it may run |
| Plugins.PluginManager.SetStatus | src/ksec/plugins/manager.py:352-388 | exactly which calls succeed; the row's status changes and nothing else of the rows; enabling gives the free capabilities of the manifest, any other status takes the plugin's away |
| Plugins.PluginManager.Uninstall | src/ksec/plugins/manager.py:390-408 | succeeds if and only if the plugin is known, not uninstalled and not bundled; its capabilities are taken away and its row is uninstalled |
| Plugins.PluginManager.UnregisterPlugin | src/ksec/plugins/manager.py:410-415 | removes exactly the capabilities the plugin owns |
| Plugins.LoadDescsAdds | src/ksec/plugins/manager.py:231-257 | loading never shadows a provided capability, and adds exactly the free ones the plugin provides, as its own |
| Plugins.SetStatusInvIff | src/ksec/plugins/manager.py:352-388 | a change of status keeps the registry invariant unless it enables a plugin by an executable manifest that names another plugin, one that is not enabled, and adds a free capability; then it breaks it |
| Plugins.MisnamedManifestBreaksInv | src/ksec/plugins/manager.py:356-383 | a registry of one plugin for which it does |
| Plugins.StepInvIff | src/ksec/plugins/manager.py:139-415 | every operation keeps the invariant, with that one exception, which breaks it |
| Plugins.RunKeepsInv | src/ksec/plugins/manager.py:139-415 | the invariant holds all along a run if and only if no operation of it is the exception |
| Plugins.ReachableInv | src/ksec/plugins/manager.py:212-415 | from start-up over any rows, if and only if no operation is the exception, all along the run: adapters and owners have the same keys, each adapter sits under its capability, built-ins stay preferred and unowned, every owner is enabled |
| Plugins.WellNamedRun | src/ksec/plugins/manager.py:356-383 | runs in which every manifest in a plugin's directory names that plugin are free of the exception |
| Plugins.ApprovalIsNeeded | src/ksec/plugins/manager.py:154-208 | from start-up over rows without a plugin, over every run that meets it in no bundled directory, approves no installation of it and enables nothing by its name: its row is never enabled and it owns no capability |
| Plugins.GateIff | src/ksec/plugins/manager.py:419-446 | a registered capability may run if and only if it is built in or its owner's row is enabled, of executable trust and declares tool.execute |
| Plugins.ToggleRestores | src/ksec/plugins/manager.py:352-388 | disabling removes exactly the plugin's capabilities, enabling again gives it exactly those it provides and that are free or were its own, and no other slot changes |
| Plugins.DispatchIff | src/ksec/scheduler/service.py:403-418 | after every run from start-up, a job is given an adapter of a plugin that may not run if and only if it names a tool whose entry is such an adapter for its capability, and the capability has no owner or one that may run; a job that names no tool never is |
| Plugins.LeftoverReached | src/ksec/plugins/manager.py:352-415 | a run from start-up after which such an entry exists |
| ToolSelection.LeftoverIff | src/ksec/plugins/manager.py:231-415 | which runs from start-up end with such an entry: those in which the last adapter loaded under the name since the last restart is for the capability and from a plugin that may not run any more, while the capability has no owner or one that may |
| ToolSelection.LoadingLeavesNone | src/ksec/plugins/manager.py:212-229 | runs that only load enabled plugins, with restarts in between, end with none |
| Plugins.RunTagged | src/ksec/adapters/registry.py:82-113 | over every run, a preferred adapter comes from the owner of its capability and a tool entry carries the tool's name |
| Plugins.NamedToolOutlivesDisable | src/ksec/adapters/registry.py:95-113 | after disabling, the capability has no default adapter and no owner, and exactly the jobs that name a tool with an entry for it are still given that entry |
| Plugins.StepTrustIff | src/ksec/plugins/manager.py:139-415 | every operation keeps all loaded plugins trusted in their rows, if and only if no reread manifest of a loaded plugin has lost its trust and no plugin is enabled whose manifest's plugin lacks trust in its row and which adds a capability |
| Plugins.ReachableTrustIff | src/ksec/plugins/manager.py:9-16 | the same all along every run from start-up, whatever the manifests |
| Plugins.UntrustedIsLoaded | src/ksec/plugins/manager.py:274-383 | a plugin installed as untrusted and then enabled is loaded, and only the gate keeps it from running |
| ToolSelection.Selection | src/ksec/adapters/registry.py:95-109 | after every run from start-up, a tool name selects for a built-in capability the tool's own adapter, if it is for that capability and no adapter loaded since the last restart took the name, and the preferred one otherwise |
| ToolSelection.AlternateSelectedIff | src/ksec/adapters/registry.py:3-6 | an alternate built-in provider is selected by its tool name if and only if no adapter loaded since the last restart took that name |
| ToolSelection.NameTaken | src/ksec/adapters/registry.py:95-109 | a plugin that does |
| Plugins.UninstallIsFinal | src/ksec/plugins/manager.py:291-402 | over every run an uninstalled plugin stays so, and every new installation of it is refused |
| Plugins.UninstalledOwnsNothing | src/ksec/plugins/manager.py:390-408 | over every run free of the exception above it owns no capability |
| Ip.MaskedIsInterval | src/ksec/authorization/service.py:83-86 | equal after masking means lying in the address interval |
| Ip.SameHighBits | src/ksec/authorization/service.py:83-86 | equal quotients by a power of two means equal high bits |
| Ip.ContainsIffPrefixBits | src/ksec/authorization/service.py:83-86 | an address is in a network if and only if its prefix bits are the network's |
| Ip.SubnetIff | src/ksec/authorization/service.py:83-86 | all matches of one network are matches of another exactly when it is a longer prefix inside the other |
| Scope.SuffixIsLabels | src/ksec/authorization/service.py:89-91 | the text test with the leading dot is the suffix relation on dot-separated labels, for all strings |
| Scope.NameMatchIff | src/ksec/authorization/service.py:64-91 | a name pattern matches a target if and only if its labels are a suffix of the target's |
| Scope.DottedMatchIff | src/ksec/authorization/service.py:80-90 | the two dotted forms match the proper subdomains and nothing else |
| Scope.MatchTransitive | src/ksec/authorization/service.py:64-91 | name matching is transitive |
| Scope.NetworkMatchIff | src/ksec/authorization/service.py:83-86 | a network pattern matches an address if and only if it lies in the interval of the same family |
| Scope.BareHost | src/ksec/authorization/service.py:43-61 | a bare name or IPv4 address reduces to its lower-case form |
| Scope.HostPort | src/ksec/authorization/service.py:57-60 | a name or IPv4 address with a port reduces to itself without it |
| Scope.UrlForm | src/ksec/authorization/service.py:50-56 | a URL on a name or IPv4 address reduces to it, with or without a port, for any path, query or fragment |
| Scope.TargetFormsAgree | src/ksec/authorization/service.py:43-91 | for names and IPv4 addresses, bare host, host with port and URL match exactly the same patterns |
| Hosts.BareForm | src/ksec/authorization/service.py:43-61 | every bare host, IPv6 addresses included, reduces to its lower-case form |
| Hosts.BracketsStay | src/ksec/authorization/service.py:57-61 | an IPv6 literal in brackets, with or without a port, stays as it is written |
| Hosts.LiteralUrl | src/ksec/authorization/service.py:50-56 | a URL on an IPv6 literal reduces to the address if its brackets are accepted, and else stays |
| Hosts.UserUrl | src/ksec/authorization/service.py:50-56 | user information in front of the host does not matter: such a URL reduces to the host |
| Hosts.FormsReduceIff | src/ksec/authorization/service.py:43-61 | for every host: the form with a port is the bare host's target if and only if it is no literal, a URL if and only if it is no literal or an accepted one |
| Hosts.PortFormMatchesIff | src/ksec/authorization/service.py:43-91 | the form with a port matches the same patterns as the bare host if and only if it is no literal |
| Hosts.UrlMatchesIff | src/ksec/authorization/service.py:43-91 | a URL matches the same patterns as the bare host if and only if it is no literal or an accepted one |
| Hosts.NetworkMissesPortForm | src/ksec/authorization/service.py:43-91 | a network that holds an IPv6 address matches it bare and in a URL, and not in brackets with a port |
| Authorization.AuthorizationService.CreateEngagement | src/ksec/authorization/service.py:132-167 | refuses blank names and unreadable times without change; else adds one engagement under a fresh id |
| Authorization.AuthorizationService.AddAuthorization | src/ksec/authorization/service.py:205-231 | refuses other effects and unknown engagements without change; else appends one rule |
| Authorization.AuthorizationService.FirstApplying | src/ksec/authorization/service.py:256-271 | a rule loop finds the first rule of that effect that applies, if any does |
| Authorization.AuthorizationService.IsTargetAuthorized | src/ksec/authorization/service.py:240-275 | unknown engagements are refused; so are those whose start is still to come, as not yet valid, and else those whose end is past, as expired, both end points being inside; in all other cases the answer is yes if and only if some allow rule of this engagement for the action matches and no deny rule of it does; each refusal names its reason |
| Authorization.DecisionMonotone | src/ksec/authorization/service.py:240-275 | more allows and fewer denies never withdraw an authorization |
| Authorization.DecisionIsSetBased | src/ksec/authorization/service.py:240-275 | order and repetition of rules do not matter |
| Authorization.OtherEngagementsDoNotMatter | src/ksec/authorization/service.py:255-275 | rules of other engagements may change in any way without changing the decision |
| Authorization.PortFormDecisionIff | src/ksec/authorization/service.py:43-275 | for every open engagement: whatever the rules, the form with a port is decided like the bare host, if and only if the host is no IPv6 literal |
| Authorization.UrlDecisionIff | src/ksec/authorization/service.py:43-275 | the same of URLs, if and only if the host is no IPv6 literal or an accepted one |
| Authorization.DenyMissesPortForm | src/ksec/authorization/service.py:43-275 | everything allowed and one IPv6 network denied: an address of it is refused bare and in a URL, and in scope in brackets with a port |
| Authorization.DenyCoversSubdomains | src/ksec/authorization/service.py:64-275 | a deny on a name, for every action or for the one asked about, refuses all its subdomains, whatever the allows |
| Normalization.OctetIsCanonical | src/ksec/normalization/service.py:15-20 | an accepted octet is below 256 and is the decimal text of its value |
| Normalization.DottedIsCanonical | src/ksec/normalization/service.py:15-20 | an accepted dotted quad is its own canonical text |
| Normalization.Ip4Idempotent | src/ksec/normalization/service.py:15-20 | normalizing an address only strips it, and doing so again changes nothing |
| Normalization.DomainShape | src/ksec/normalization/service.py:12-37 | an accepted domain is lower-case, has no colon or white space, and ends in a letter |
| Normalization.DomainIdempotent | src/ksec/normalization/service.py:33-37 | normalizing a domain twice is normalizing it once |
| Normalization.VariantsAgree | src/ksec/normalization/service.py:33-37 | white space around a name, dots behind it and capitals do not matter |
| Normalization.QuadParses | src/ksec/normalization/service.py:15-20 | four octets with dots between are accepted as the address they spell |
| Normalization.QuadNetwork | src/ksec/authorization/service.py:83-86 | an address alone is a network of one address, and with a number up to 32 behind a slash a network of that prefix length |
| Normalization.FormsDisjoint | src/ksec/normalization/service.py:15-37 | no address and domain share a store key |
| Ingestion.AssetService.Register | src/ksec/assets/service.py:36-75 | three refusals without change; an existing key keeps its asset untouched, a new one is appended; keys stay unique |
| Ingestion.AssetService.IngestEntities | src/ksec/correlation/service.py:18-74 | old assets stay; every address and every name that an entity carries and that is well formed has an asset, which is returned, and if its key was free that asset is new, of type ip or domain, with the source; nothing else is added or returned |
| Ingestion.IngestedIsFiled | src/ksec/correlation/service.py:28-74 | registering the observations in order does exactly that |
| Ingestion.IngestKeeps | src/ksec/assets/service.py:47-75 | existing assets are never altered or moved, and keys stay unique |
| Ingestion.TypeAfter | src/ksec/correlation/service.py:28-74 | what type a key has afterwards, for every key of every engagement |
| Ingestion.ObservationsConsistent | src/ksec/correlation/service.py:28-74 | no key is observed under two types |
| Ingestion.SameObservationsSameTypes | src/ksec/correlation/service.py:28-74 | equal observation sets give equal key-to-type maps |
| Ingestion.OrderAndRepetitionDoNotMatter | src/ksec/correlation/service.py:28-74 | from any store, permuting or repeating the entities gives the same key-to-type map |
| Ingestion.IngestAgain | src/ksec/correlation/service.py:28-74 | ingesting again adds nothing, for any observations |
| KillChain.ChainOrder | src/ksec/adversary/service.py:92-115 | chain order is a stable permutation of the stored order with ascending phase index |
| KillChain.ChainIndexIs | src/ksec/adversary/service.py:92-115 | a tactic has the index of the phase it spells, in any case and with white space around it; what spells no phase comes last |
| KillChain.ReportedPhasesAscendIff | src/ksec/adversary/service.py:322-360 | the phases reported with the outcomes ascend if and only if no step stored without a tactic resolves to a phase that precedes one run before it |
| KillChain.LateTacticBreaksTheOrder | src/ksec/adversary/service.py:337-360 | two steps for which they do not |
| KillChain.Exercise.Plan | src/ksec/adversary/service.py:326-421 | every stored row ends with its own policy decision and, if it is submitted, with a job of its capability and that job's final state in lower case, else planned in a dry run and blocked in a live one; a dry run submits nothing and ends planned; a live run is failed if and only if some row has no job or one that ends failed or blocked, and else completed; an empty exercise is refused without change |
| KillChain.Exercise.RunSteps | src/ksec/adversary/service.py:343-395 | the same of the outcomes, step by step in order, with each step's row updated |
| KillChain.PlanFacts | src/ksec/adversary/service.py:337-409 | the rows, jobs and verdict of an exercise in either order of execution |
| KillChain.OneOutcomePerStep | src/ksec/adversary/service.py:344-395 | exactly one outcome a step, with its own decision, a job exactly for the steps that submit, and the final state of that job |
| KillChain.JobsAreConsecutive | src/ksec/adversary/service.py:369-379 | a step's job is the one submitted for it: jobs are numbered without gaps in execution order |
| KillChain.JobsPerAllowedStep | src/ksec/adversary/service.py:367-381 | a dry run submits nothing, a live run with a scheduler submits one job for each allowed step, in order |
| KillChain.LiveVerdictIff | src/ksec/adversary/service.py:397-405 | a live run has failed if and only if some step is not submitted or its job ends failed or blocked; otherwise it is completed |
| KillChain.RowsHoldOutcomes | src/ksec/adversary/service.py:382-394 | the row of an outcome takes over its decision, state and job, and nothing else, if no other outcome has its id |
| KillChain.RowsSettled | src/ksec/adversary/service.py:337-395 | with distinct ids and in either order, every stored row has exactly one outcome and ends with its own policy decision and that outcome's state and job |
| Evidence.EvidenceService.Add | src/ksec/evidence/service.py:51-91 | appends one item with the digest of its content and one CAPTURED event with collector and tool, or their defaults |
| Evidence.EvidenceService.Verify | src/ksec/evidence/service.py:107-131 | true exactly for a known item whose content still has the stored digest; records the verdict as verified or integrity failure, or nothing for an unknown id |
| Evidence.EvidenceService.RecordCustody | src/ksec/evidence/service.py:133-164 | appends one event, its action in capitals, or nothing for an unknown id |
| Evidence.EvidenceService.CustodyLog | src/ksec/evidence/service.py:166-184 | the item's events, oldest first |
| Evidence.EvidenceService.CheckIntegrity | src/ksec/grc/service.py:66-78 | verifies every item once; PASS if and only if there are items and all are intact |
| Evidence.EvidenceService.Snapshot | src/ksec/grc/service.py:139-166 | verifies everything, then stores the report as new evidence |
| Evidence.CustodyOnlyGrows | src/ksec/evidence/service.py:63-184 | over every run of collections, verifications, recorded events, compliance checks and snapshots, content changed behind the service included, each log starts with its capture and only grows, and unknown ids have none |
| Evidence.FromTheBeginning | src/ksec/evidence/service.py:63-184 | after every run from the empty store each log starts with its capture |
| Evidence.VerifyDetectsTampering | src/ksec/evidence/service.py:107-131 | after any run an item verifies if and only if its present content has the digest of the collected one; untouched items always do |
| Evidence.SnapshotAccounting | src/ksec/grc/service.py:139-157 | k snapshots over n items add k*n + k(k-1)/2 VERIFIED and k CAPTURED events |
| Cases.CaseService.CreateCase | src/ksec/cases/service.py:55-91 | refuses blank titles and unknown severities without change; else an open case and its created event |
| Cases.CaseService.LinkFinding | src/ksec/cases/service.py:101-121 | links a finding that exists to a known case and records it, else changes nothing |
| Cases.CaseService.SetCaseStatus | src/ksec/cases/service.py:130-154 | sets a valid status on a known case and records it, else changes nothing |
| Cases.CaseService.ReopenCase | src/ksec/cases/service.py:159-185 | opens a known case and records the reason |
| Cases.CaseService.WriteNote | src/ksec/cases/service.py:187-214 | appends a stripped, non-blank note and its event |
| Cases.CaseService.RecordEvent | src/ksec/cases/service.py:249-254 | appends one event |
| Cases.StepAgrees | src/ksec/cases/service.py:55-254 | every operation, accepted or rejected, keeps every case in agreement with its timeline |
| Cases.StateIsLogReplay | src/ksec/cases/service.py:55-254 | over every run, whatever findings exist when, the status is the fold of the timeline, the linked findings are those of its events, and the notes match the note events one for one in order |
| Cases.FromTheBeginning | src/ksec/cases/service.py:55-254 | the same from an empty database |
| Cases.LogsOnlyGrow | src/ksec/cases/service.py:187-254 | notes, events and links are never removed or overwritten |

## Left out

- Scheduler, workflow engine, policy engine, risk engine, SOC pipeline, SIEM, sessions: not modelled; policy decisions and final job states are functions given to `KillChain`.
- Command line printing, `cmd_graph`, dashboard and REST server: presentation only.
- Tool adapters' command lines, output parsers and the parser registry: scraping of other programs' text; a plugin's parsers only load or fail.
- Subprocesses, package installation, backups, environment fingerprints, notifications: input and output.
- Cryptography: the digest is an arbitrary function.
- Learning content, framework tables, explanations: static data.
- Imports of plugin modules and directory digests: an adapter either loads, always as the same object, or fails, as its manifest entry says.
- The file system under the plugin directories: what is on disk is an argument of each operation, so copying and deleting directories is not followed from one operation to the next.
- Floating point: entropy is over the reals and `math.log2` is any function with the laws of the logarithm to base 2 (product law, log2 2 = 1, tangent bound); rounding is to four decimals, half to even. Python's `True == 1` is not an equality of documents.
- Unicode case mapping and Unicode digits: `lower` and `isdigit` are the ASCII ones.
- IPv6 text, and which authorities `urlsplit` accepts of those with brackets or with characters outside ASCII: parameters; IPv6 numbers and networks are modelled. Of the IPv6 parsers it is assumed that the text of an address has a colon, and that a text which starts with a bracket or has two slashes is neither an address nor a network. The results on host, port and URL forms are about ASCII hosts: names, IPv4 addresses, and IPv6 literals, which have two colons or more.
- TOML syntax beyond lines: quoted keys, multi-line strings and arrays are not recognised by the line editor, and not by the reader in `ConfigRead`, which takes every line whose first visible character is `[` for a header and knows a table by the number of its header. Of the ways in which a reader refuses a file it follows those that concern safety and the edited key.
- Newline translation when a file is read: `ConfigEdit` starts from the text as read, in which `\r\n` is already `\n`.
- ISO timestamps: parsing is a parameter, the current time an argument.
- JSON storage of snapshots: documents are kept as values, not as text.
- Audit rows, and updated_at columns: written by most operations, read by none that is modelled.
- Profile and exercise creation and technique coverage: insertions and tallies; exercises start from stored steps.
- A scheduler that raises in the middle of an exercise: steps always reach a final state.
- Compliance checks other than evidence integrity, and the per-control tallies: conditions on one row count each.
- Coercion of configuration fields: the merged document is the result.
- Deleting engagements, cases, findings and evidence: no modelled operation does it.
- Order of rows with equal SQL sort keys: rows arrive as sequences.
- Cases.StateIsLogReplay: the note event carries no text, so notes and note events are matched by number, order and author.
- Cases.CaseService.RecordEvent: what an event says is kept as data rather than as the English sentence stored in its details column.
- Migrations.MigrationRunner.ExecuteScript: only the statement forms that the migrations use are modelled, and a table is its set of columns.
