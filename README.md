# krew update: index sync and update report

This project models the core of `krew update`, from `cmd/krew/cmd/update.go`:

- **The sync loop** (`ensureIndexesUpdated`). It updates the local copy of every configured plugin index. A failure does not stop the loop, which goes on to the next index. It records the names of the failed indexes and the first error. It then prints a confirmation line. If the default index had plugins before the update, it reloads that index and the install receipts and prints an update report. It returns one error that wraps the first failure and lists every failed index, unless the pre-update list was empty, or reloading the index or reading the receipts failed.
- **The update report** (`showUpdatedPlugins`). It indexes the pre-update plugin list by name; a later entry overwrites an earlier one. It then walks the post-update list in order:
  - an entry whose name is not in that index is *new*;
  - an entry that is known, installed and at a different version is an *upgrade*.
  
  Each non-empty group is printed as one section.
- **The section formatter** (`showFormattedPluginsInfo`). It writes a `  <header>:` line, then one `    * <item>` line per item.

Each Go function is a Dafny method with the same loops, in the same order, with the same branches. `showUpdatedPlugins` is split over four methods, one per loop: `Diff.ShowUpdatedPlugins` builds the index by name, `Diff.SortPosUpdate` sorts the post-update list, and `Diff.ShowNewPlugins` and `Diff.ShowUpgrades` build the two sections. Each method is proved equal to a specification function. The lemmas below then state the properties of those functions.

## How the surroundings are modelled

- **Written output.** Output written to an `io.Writer` or to standard error is returned as a sequence of newline-terminated lines. The bytes written are the concatenation of those lines. The methods therefore change no state.
- **Index updates.** `gitutil.EnsureUpdated` on an index is the function parameter `sync: Index -> Option<Error>`. It gives the outcome of updating that index's local copy. The indexes the loop tries to update are returned in the order tried, so that the attempts themselves can be stated.
- **Loaded inputs.** These are given as inputs: `indexoperations.ListIndexes`, the second `indexscanner.LoadPluginListFromFS` and `installation.GetInstalledPluginReceipts`. Each is a `Result`: a value or the error returned.
- **The pre-update load.** The first load of the default index is only a list. The source discards that call's error.
- **Plugins and receipts.** A plugin is reduced to its name and `spec.version`, and a receipt likewise.
- **Go map lookup.** Indexing a Go map with an absent key yields the zero value. `Diff.Lookup` models this with `Plugin("", "")`. The upgrades loop only looks up names that are present.
- **Error messages.** They follow `errors.Wrap`: the wrapping message, `": "`, then the cause's message. For the failed-index error the wrapping message is `failed to update the following indexes: ` followed by the names joined with `", "` and a newline.

## Behaviour worth noting

- **Failures when there was no pre-update list.** When the pre-update list is empty, `ensureIndexesUpdated` returns nil right after the confirmation (`update.go:131-133`), before the failed-indexes error is built. So a first-ever update in which every index failed still returns nil. `Sync.EnsureIndexesUpdated` states exactly that.
- **Identical snapshots with duplicate names.** An update that changed nothing reports nothing only when names are unique. With `post == pre == [a@1, a@2]` and `a` installed, the entry `a@1` is compared with the last `a` (`a@2`). This produces the line `a 2 -> 1`. `Diff.IdenticalSnapshotsNoReport` therefore requires unique names. `Diff.NoChangeNoReport` states the general condition.
- **A reload or receipts error hides the failed indexes.** When reloading the default index after the update fails (`update.go:136-138`) or reading the receipts fails (`update.go:141-143`), that error is returned. The failed-indexes error is never built, so indexes that failed to update go unreported. `Sync.EnsureIndexesUpdated` states both cases: each returns `[Confirmation]` with `PostLoadFailed` or `ReceiptsLoadFailed`, whatever `FailedNames` holds.

## Model

| member | source | states |
|---|---|---|
| Format.PluginsInfo | cmd/krew/cmd/update.go:51-60 | a section is exactly one `"  <header>:\n"` line followed by one `"    * <item>\n"` line per item, in item order |
| Format.ShowFormattedPluginsInfo | cmd/krew/cmd/update.go:51-60 | the buffer filled line by line in the loop is exactly that section |
| Diff.IndexByName | cmd/krew/cmd/update.go:66-69 | the old index holds every name of the pre-update list and nothing else: each key maps to an entry of the list with that name |
| Diff.IndexByNameLastWins | cmd/krew/cmd/update.go:66-69 | where a name repeats in the pre-update list, the old index keeps its last occurrence |
| Diff.NewPlugins | cmd/krew/cmd/update.go:71-76 | a post-update entry is new exactly when its name is absent from the old index; being installed plays no part |
| Diff.Upgrades | cmd/krew/cmd/update.go:71-85 | a post-update entry is an upgrade exactly when its name is in the old index, it is installed, and its version differs from the old one |
| Diff.SortPosUpdate | cmd/krew/cmd/update.go:71-85 | the loop over the post-update list (new check first, then installed, then version) yields exactly the new entries and the upgrades |
| Diff.Names | cmd/krew/cmd/update.go:88-91 | the new section lists the new plugins' names, one per plugin, in order |
| Diff.UpgradeItems | cmd/krew/cmd/update.go:97-101 | each upgrade item is `name old -> new`, with the old version taken from the old index |
| Diff.NewSection | cmd/krew/cmd/update.go:87-94 | with no new plugins nothing is written; otherwise the header `New plugins available` and one bullet per new name, in order |
| Diff.UpgradeSection | cmd/krew/cmd/update.go:96-104 | with no upgrades nothing is written; otherwise the header `Upgrades available for installed plugins` and one `name old -> new` bullet per upgrade, in order |
| Diff.ShowNewPlugins | cmd/krew/cmd/update.go:87-94 | the names loop plus the formatter write exactly the new section |
| Diff.ShowUpgrades | cmd/krew/cmd/update.go:96-104 | the `name old -> new` loop plus the formatter write exactly the upgrades section |
| Diff.ShowUpdatedPlugins | cmd/krew/cmd/update.go:62-105 | the report written is the new section followed by the upgrades section, computed from the pre-update list indexed by name |
| Diff.NewPluginReported | cmd/krew/cmd/update.go:71-76 | a post-update plugin whose name is in no pre-update entry is always listed under "New plugins available", which opens the report, whatever is installed |
| Diff.UpgradeReportedIff | cmd/krew/cmd/update.go:72-84 | a plugin present in both lists is never new; it is an upgrade if and only if it is installed and its version changed; when it is not installed no upgrade of that name is listed |
| Diff.UpgradeUsesLastOccurrence | cmd/krew/cmd/update.go:66-100 | an installed plugin whose last pre-update entry has another version is listed as an upgrade, and its bullet `name old -> new`, which takes `old` from that last entry, stands in the upgrades section |
| Diff.ReportEmptyIff | cmd/krew/cmd/update.go:71-104 | nothing is written if and only if every post-update entry is known before and every installed one kept its version |
| Diff.NoChangeNoReport | cmd/krew/cmd/update.go:71-104 | if the two lists give every post-update name the same version, nothing is written, whatever is installed |
| Diff.IdenticalSnapshotsNoReport | cmd/krew/cmd/update.go:62-104 | an update that changed nothing (same list before and after, unique names) writes nothing |
| Diff.ListsFollowPostOrder | cmd/krew/cmd/update.go:71-85 | both lists keep the post-update order; each qualifying entry appears as often as in the post-update list, and nothing else appears |
| Diff.ExampleLists | cmd/krew/cmd/update.go:62-85 | for any names `foo` and `bar` and any versions `v1` and `v2` (the names distinct, the versions distinct): before `foo@v1`, after `foo@v2, bar@v1`, with `foo` installed, `bar` is new and `foo@v2` is an upgrade |
| Diff.ExampleReport | cmd/krew/cmd/update.go:62-105 | the report of that scenario is exactly four lines: `New plugins available`, `* bar`, `Upgrades available for installed plugins`, `* foo v1 -> v2` |
| Sync.FailingIndexes | cmd/krew/cmd/update.go:117-126 | an index is among the failing ones exactly when it is configured and its update returned an error |
| Sync.FirstError | cmd/krew/cmd/update.go:123-125 | the kept error is absent exactly when no update failed; otherwise it is the error of the first index that failed |
| Sync.WrapIndexesFailed | cmd/krew/cmd/update.go:152 | wrapping no error gives no error; wrapping an error gives the failed-indexes error |
| Sync.InstalledMap | cmd/krew/cmd/update.go:144-147 | the installed map holds exactly the receipts' names, each mapped to the version of one receipt with that name |
| Sync.EnsureIndexesUpdated | cmd/krew/cmd/update.go:107-153 | every configured index is tried, in configuration order, whatever happened to the earlier ones; a listing error tries nothing, prints nothing and returns that error wrapped; otherwise the confirmation is always printed first; an empty pre-update list returns nil; a post-update load or receipt read error returns that error wrapped; otherwise the report follows the confirmation and the result wraps the first sync error with the failed names |
| Sync.FailedNamesExact | cmd/krew/cmd/update.go:115-127 | `failed` holds a name if and only if an index with that name failed, wherever it stands after other failures |
| Sync.FailingIndexesInOrder | cmd/krew/cmd/update.go:117-126 | the failed indexes keep configuration order, each failing index counted as often as it is configured |
| Sync.NoErrorIffNoFailures | cmd/krew/cmd/update.go:152 | the wrapped result is nil if and only if no index failed |
| Sync.MessageListsFailed | cmd/krew/cmd/update.go:152 | the error message contains every failed index name verbatim, at its place in the comma-separated list |
| Sync.OneOfTwoFails | cmd/krew/cmd/update.go:115-127 | with index A updating and index B failing, the failed list is exactly `[B]`, A's name is not in it, and the error kept is B's |

## Left out

- **Command wiring.** The cobra `updateCmd` definition and the `init` registration are framework wiring over a global command tree.
- **`cmd/krew/cmd/system.go`, the migration dispatcher.** The `receipts-upgrade` and `index-upgrade` commands and their environment-switch registration are left out. So are the receipts and index migrations and their completion markers. `receiptsmigration` and `indexmigration` are not part of this model. The only link to this core is that `receipts-upgrade` runs `ensureIndexesUpdated` first.
- **Path-safety validation of plugin and index names.** It lives in code that is not part of this model.
- **Fetching, scanning and listing.** Git fetching, filesystem scanning, receipt reading, index listing and path derivation (`paths.IndexPath` and friends) are I/O. They are inputs or the `sync` oracle.
- **Logging.** The `klog` diagnostics (`V(1).Infof` before each index, `Warningf` on each failure) are logging and are not part of the output modelled.
- **Oracle purity.** `sync` is a pure function of the index. What an update does to the local copy is not modelled, only its outcome. An index configured twice therefore gets the same outcome both times, which a real network need not give.
- **Error chaining.** `pkg/errors` keeps a cause chain and a stack trace. Only the message text and the wrapped first cause are modelled.
