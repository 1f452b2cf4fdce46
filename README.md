# Influx backlink bookkeeping, modelled in Dafny

Influx is an Obsidian plugin that shows, under a note, a summary of every other
note that links to it. This project models the plugin's bookkeeping core:

- **The plugin object** (`ObsidianInflux`, module `Plugin`, file `plugin.dfy`).
  It holds the registry from component id to callback. It broadcasts vault
  events to the callbacks when live update is on and the event carries a note.
  It also toggles the sort order, merges stored settings over the defaults at
  load time, and guards the bulk preview refresh with a busy flag.
- **The influx of one focal note** (`InfluxFile`, module `InfluxFiles`,
  file `influx_file.dfy`). On every rebuild it re-queries the backlinks and drops
  the note's own path and every source the inclusion policy rejects. It then
  builds one `InlinkingFile` per kept source and replaces the old list wholesale.
  `shouldUpdate` tells whether a modified note is a backlink source, and
  rendering is skipped when the note is not shown.

Supporting modules:

- `Vault` (`vault.dfy`) holds the host application as values. An `Api` value of
  uninterpreted functions stands for the `ApiAdapter`: `getBacklinks`,
  `getFileByPath`, `isIncludableSource`, the show/collapse policies, rendering,
  and `InlinkingFile.makeSummary`. A method that queries the vault takes the
  `Api` as it is at that moment, so two calls can see different backlinks.
- `Settings` (`settings.dfy`) holds the settings record, `DEFAULT_SETTINGS`, the
  `Object.assign` merge and the toggle.
- `InfluxLists` (`influx_list.dfy`) holds the specification functions of a
  rebuild: `KeptPaths`, `Resolve`, `Build`, `Built` and `InfluxList`.
- `Seqs` (`seqs.dfy`) holds generic facts about distinct sequences,
  subsequences and multisets.

The effects of the plugin on the outside world are recorded in log fields of
`ObsidianInflux`: `invocations` for callbacks called, `saved` for data written
by `saveData`, and `previewRefreshes` for leaves handed to `updateInfluxInPreview`.
The JavaScript object `componentCallbacks` is a `map` plus an `order` sequence.
`order` holds the map's keys in insertion order, which is the order in which
`Object.values` lists them.

The asynchronous `updateInfluxInAllPreviews` is split at its `await`.
`StartUpdateInfluxInAllPreviews` is the synchronous part: it checks and raises
the flag and starts the refreshes. `FinishUpdateInfluxInAllPreviews` is the
`finally` block, which runs only once `Promise.all` has settled. Another call
can run between the two, and `OverlappingBulkRefreshes` shows that such a call
is dropped. How each leaf's refresh ends is `PreviewRefresh`: resolved,
rejected, or pending for good, and `UpdateInfluxInAllPreviews` lowers the flag
only when the batch settles (see "## Findings").

The `Promise.all` fan-out of `makeInfluxList` is a loop, `SummarizeAll`. Each
step picks an arbitrary remaining note, because the source pushes each
`InlinkingFile` when its summary resolves, in completion order. The result is
therefore proved to be a permutation of the enumeration-order list
`InfluxList`, not equal to it.

Behaviour of the code that is easy to miss:

- A `save-settings` notification, sent after `toggleSortOrder`, carries no note.
  It therefore reaches no callback (`src/main.tsx:100`, `src/main.tsx:121`),
  so no callback learns of a settings change through `triggerUpdates`.
- `inlinkingFiles` is in completion order, not enumeration order
  (`src/InfluxFile.tsx:65`).
- A rejected summary fails the whole rebuild, and the old list stays. No
  failing source is skipped (`src/InfluxFile.tsx:62-70`).
- A callback that throws is not isolated from the others (`src/main.tsx:123`).
- Unresolvable paths are not skipped (`src/InfluxFile.tsx:58`).
- `saveSettingsByParams` writes the given settings but does not store them in
  `this.data` (`src/main.tsx:98-101`).

## Model

| member | source | states |
|---|---|---|
| `Plugin.ObsidianInflux.constructor` | src/main.tsx:64-68 | onload starts with no callbacks, `updating` false, the stylesheet built once and `data` from `loadDataInitially` |
| `Plugin.ObsidianInflux.RegisterInfluxComponent` | src/main.tsx:106-110 | an absent id is added with its callback at the end of the key order, and nothing else changes; a present id leaves everything unchanged, so the first registration wins; the registry invariant is kept |
| `Plugin.ObsidianInflux.DeregisterInfluxComponent` | src/main.tsx:112-116 | the id is removed if present and nothing happens otherwise; the other ids keep their callbacks and their relative order |
| `Plugin.RemoveIdSpec` | src/main.tsx:112-116 | removing an id from the key order keeps it duplicate-free, removes exactly that id, keeps the others in order, and changes nothing when the id is absent |
| `Plugin.RemoveIdMembers` | src/main.tsx:112-116 | after deregistration an id is in the key order exactly when it was there before and is not the removed id |
| `Plugin.RemoveIdDistinct` | src/main.tsx:112-116 | deregistration keeps the key order free of duplicates |
| `Plugin.RegisterThenDeregister` | src/main.tsx:106-116 | registering a new id and then deregistering it restores both the map and the key order |
| `Plugin.ObsidianInflux.TriggerUpdates` | src/main.tsx:119-127 | with live update on and a note (a TFile, not a folder) supplied, the stylesheet is rebuilt and each registered callback is called once with (op, note, stylesheet), in key order; otherwise nothing changes, so an event without a note never reaches a callback |
| `Plugin.BroadcastReachesEachOnce` | src/main.tsx:123 | one broadcast makes exactly as many calls as there are registered ids; each registered id is called exactly once, with its own callback and the event's op, note and stylesheet |
| `Plugin.ObsidianInflux.SaveSettingsByParams` | src/main.tsx:98-101 | the data with the given settings is written, the in-memory data is left as it is, and the following no-note notification calls no callback and keeps the stylesheet |
| `Plugin.ObsidianInflux.ToggleSortOrder` | src/main.tsx:92-96 | the sorting principle flips and no other setting changes; the new data is saved once; no callback is called |
| `Settings.Toggled` | src/main.tsx:93 | the new sorting principle differs from the old one, so with two values NEWEST_FIRST and OLDEST_FIRST swap |
| `Settings.WithToggledOrder` | src/main.tsx:93-94 | the toggled settings differ from the old ones in the sorting principle and agree with them on every other key |
| `Settings.ToggleOrderTwice` | src/main.tsx:92-96 | toggling twice gives back the original settings |
| `Settings.Assign` | src/main.tsx:86 | `Object.assign({}, defaults, stored)`: each key present in the stored settings takes the stored value, and every other key keeps the default |
| `Settings.LoadDataInitially` | src/main.tsx:83-89 | each key takes its stored value if the data file has settings holding that key, and its `DEFAULT_SETTINGS` value otherwise |
| `Settings.Persisted` | src/main.tsx:99 | the data written by saveData holds every settings key with its current value |
| `Settings.LoadAfterSave` | src/main.tsx:83-89 | loading what saveData wrote gives back the same data |
| `Settings.LoadWithoutStoredSettings` | src/main.tsx:30-45 | with no data file, or one without settings, the loaded settings are exactly `DEFAULT_SETTINGS` |
| `Plugin.PreviewLeavesMembers` | src/main.tsx:136-142 | the collected leaves are exactly the root leaves whose view mode type is `preview` |
| `Plugin.CollectPreviewLeaves` | src/main.tsx:134-142 | the `iterateRootLeaves` loop collects the preview leaves in iteration order |
| `Plugin.ObsidianInflux.StartUpdateInfluxInAllPreviews` | src/main.tsx:134-151 | when a refresh is in flight, the call is dropped and starts nothing; otherwise the flag is raised and every preview leaf is handed to the refresh once, in order; in both cases the flag is up until the `finally` runs |
| `Plugin.ObsidianInflux.FinishUpdateInfluxInAllPreviews` | src/main.tsx:156-158 | the `finally`, reached once `Promise.all` has settled, lowers the flag whether the refreshes resolved or rejected |
| `Plugin.ObsidianInflux.UpdateInfluxInAllPreviews` | src/main.tsx:129-160 | with no interleaving, a call made while busy changes nothing; otherwise all preview leaves are refreshed, and the flag ends down exactly when `Promise.all` over their refreshes settles |
| `Plugin.PreviewRefresh` | src/main.tsx:162-200 | a missing preview section rejects the refresh; otherwise a missing path or a rejected rebuild leaves it pending for good; otherwise it resolves |
| `Plugin.AllSettles` | src/main.tsx:151 | `Promise.all` rejects on any rejection and resolves when all resolve, so it settles whenever no refresh is pending; settled with no rejection means every refresh resolved |
| `Plugin.PendingRefreshBlocksBatch` | src/main.tsx:151 | when every leaf has a preview section, one pending refresh keeps the whole `Promise.all` pending |
| `Plugin.LeafWithoutPathNeverSettles` | src/main.tsx:178-180 | a batch of one preview leaf without a file never settles |
| `Plugin.StuckRefreshDropsLaterCalls` | src/main.tsx:144-158 | after a bulk refresh whose batch never settles, the flag stays up and every later call is dropped without refreshing anything |
| `Plugin.SettledPreviewRefresh` | src/main.tsx:162-200 | every way out of the executor settles the promise: it resolves exactly when there is a preview section, a path and a rebuild that succeeds, and rejects otherwise |
| `Plugin.SettledRefreshAgrees` | src/main.tsx:162-182 | the intended refresh agrees with the refresh as written wherever that one settles, and turns each pending case into a rejection |
| `Plugin.SettledRefreshesAlwaysSettle` | src/main.tsx:151 | with the intended refresh, `Promise.all` settles for every batch |
| `Plugin.ObsidianInflux.UpdateInfluxInAllPreviewsSettled` | src/main.tsx:129-160 | with the intended refresh, a call made while idle refreshes every preview leaf and always ends with the flag down |
| `Plugin.OverlappingBulkRefreshes` | src/main.tsx:144-158 | a second bulk refresh started while the first awaits is dropped and refreshes nothing; once the first settles, a new call runs again |
| `InfluxFiles.InfluxFile.constructor` | src/InfluxFile.tsx:20-34 | the focal note, its metadata, backlinks, show and collapsed flags come from the vault for that path, the uuid is the minted one, and `inlinkingFiles` and `components` are empty |
| `InfluxFiles.InfluxFile.ShouldUpdate` | src/InfluxFile.tsx:37-41 | backlinks are first re-queried; the answer is true exactly when the note's path is a key of the fresh backlinks |
| `InfluxFiles.OneEntryPerSource` | src/InfluxFile.tsx:50-55 | each kept source occurs exactly once among the kept paths, however many references it holds, and a path that is not a kept source never occurs |
| `InfluxFiles.KeptSourceTriggersUpdate` | src/InfluxFile.tsx:37-55 | every source kept by a rebuild is a backlink key, so its modification makes `shouldUpdate` answer true |
| `InfluxFiles.CollectValidPaths` | src/InfluxFile.tsx:48-55 | the `validPaths` loop yields exactly `KeptPaths` of the backlink keys in enumeration order |
| `InfluxFiles.SummarizeAll` | src/InfluxFile.tsx:61-66 | the fan-out succeeds exactly when every summary resolves, and then the collected InlinkingFiles are a permutation of one per note in enumeration order |
| `InfluxFiles.InfluxFile.MakeInfluxList` | src/InfluxFile.tsx:44-71 | backlinks are re-queried first; the rebuild succeeds exactly when `InfluxList` exists, and then `inlinkingFiles` is replaced wholesale by a permutation of it; on failure `inlinkingFiles` is unchanged |
| `InfluxFiles.RebuildTwice` | src/InfluxFile.tsx:44-71 | two rebuilds against the same vault both succeed or both fail; on success they publish multiset-equal lists, on failure the list from before both stays |
| `InfluxFiles.InfluxFile.RenderAllMarkdownBlocks` | src/InfluxFile.tsx:90-100 | when the note is not shown, `components` is unchanged and nothing is returned; otherwise `components` becomes the rendering of `inlinkingFiles` and is returned |
| `Vault.Keys` | src/InfluxFile.tsx:37-55 | the keys of the backlink Map are one per entry, none twice, and exactly the entries' sources |
| `InfluxLists.KeptPathsMembers` | src/InfluxFile.tsx:50-55 | a path is kept exactly when it is a backlink key, differs from the focal path and is includable |
| `InfluxLists.FocalNeverKept` | src/InfluxFile.tsx:52 | the focal note's own path is never kept |
| `InfluxLists.KeptPathsInOrder` | src/InfluxFile.tsx:50-55 | the kept paths keep the keys' enumeration order: they form a subsequence of the keys |
| `InfluxLists.KeptPathsOncePerKey` | src/InfluxFile.tsx:50-55 | with distinct keys, a kept path occurs exactly once, and any other path never occurs |
| `InfluxLists.NarrowingKeepsSubsequence` | src/InfluxFile.tsx:52-54 | a narrower inclusion policy keeps a subsequence of what a wider one keeps, so it never keeps more |
| `InfluxLists.AllBuiltPermutation` | src/InfluxFile.tsx:62-66 | whether every summary resolves does not depend on the order in which the units complete |
| `InfluxLists.BuiltPermutation` | src/InfluxFile.tsx:62-66 | the InlinkingFiles collected in any completion order are a permutation of the enumeration-order list |
| `InfluxLists.BuiltAppend` | src/InfluxFile.tsx:62-66 | one more resolved summary appends its InlinkingFile to the list, and a rejected one makes the whole fan-out fail |
| `InfluxLists.InfluxListShape` | src/InfluxFile.tsx:44-70 | the published list has, at each position, the InlinkingFile of the kept path at that position with its summary; it is empty when no source is kept |

## Left out

- DOM and React work are not modelled: the body of `updateInfluxInPreview` after the rebuild, `removeInfluxFromPreview`, `createRoot` and render calls. A refresh of a preview leaf is recorded, and only how its promise ends is modelled.
- The event wiring in `onload` (`registerEvent`, `registerEditorExtension`, `addSettingTab`) is not modelled. It only routes vault events to `TriggerUpdates` with the op it names.
- `loadData` and `saveData` are not modelled as I/O. The stored data is a constructor parameter, and a write is an entry of the `saved` log.
- The stored data file is assumed well-typed. Keys with values of the wrong type, and extra keys that `Object.assign` would also copy, are not modelled.
- `listLimit` and `fontSize` are JavaScript numbers; they are modelled as integers.
- The `ApiAdapter` internals are uninterpreted functions of the `Api` value: the regular expressions of `isIncludableSource`, `getBacklinks`, `getFileByPath`, the show and collapse policies, and rendering. So are `InlinkingFile.makeSummary`, `createStyleSheet` (a `freshSheet` parameter) and `uuidv4` (an `id` constructor parameter).
- `getFileByPath` is total in the model. A path that no longer resolves is not modelled separately; its effect shows only if `makeSummary` rejects.
- `renderAllMarkdownBlocks` of the `ApiAdapter` never rejects in the model.
- Plugin.ObsidianInflux.UpdateInfluxInAllPreviews: `PreviewRefresh` assumes that `new InfluxFile`, `renderAllMarkdownBlocks` and the DOM steps after the rebuild (`src/main.tsx:181-199`) do not throw once a preview section and a path exist; a throw there would, like a rejected rebuild, leave the promise pending, since the executor is async (`src/main.tsx:164`). Pending is taken to be permanent: the model does not follow a refresh that settles later.
- Real concurrency is not modelled. Only the interleaving at the `await` of `updateInfluxInAllPreviews` and the completion order of the `makeInfluxList` fan-out are kept.
- Plugin.ObsidianInflux.TriggerUpdates: the callbacks' own effects, and an exception thrown by one callback (which would stop the remaining calls), are not modelled; each call is only recorded.
- Plugin.ObsidianInflux.TriggerUpdates: the key order is plain insertion order. JavaScript lists integer-like keys first; component ids are assumed to be `InfluxFile.uuid` values, which are never integer-like. No call of `registerInfluxComponent` is part of this model.
- Plugin.ObsidianInflux.RegisterInfluxComponent: the test `id in this.componentCallbacks` (`src/main.tsx:107`) is map membership. In JavaScript it also finds inherited `Object.prototype` keys such as `toString` or `__proto__`, so registering such an id would do nothing; component ids are assumed to be `InfluxFile.uuid` values, which never coincide with those names.
- InfluxFiles.InfluxFile.MakeInfluxList: after a rejection, summaries still in flight keep pushing into a list that is then discarded. The model only states that `inlinkingFiles` keeps its old value.
- `shouldUpdate` reads the backlinks with `Object.keys(backlinks.data)`, while `makeInfluxList` iterates `backlinks.data` as Map entries. With a real Map, `Object.keys` returns no keys. Both are modelled as reading the same ordered key sequence.
- The commented-out earlier `makeInfluxList` and the `console.log` calls are not modelled.
- The `api` and `influx` fields of `InfluxFile` are not modelled. The first is replaced by the `Api` parameter of each method; the second is not read by any modelled method.

## Findings

| source | as written | input that shows it | evidently intended | confidence | as-written member | corrected member |
|---|---|---|---|---|---|---|
| src/main.tsx:151-182 | `updateInfluxInPreview` returns from its async executor without settling when the leaf has no file path (`:178-180`), and a rejected `makeInfluxList` (`:182`) throws inside the async executor, which does not reject the outer promise; `Promise.all` then never settles, the `finally` never lowers `updating`, and every later bulk refresh returns at `:144-146` | one preview leaf whose view has no file (or whose note has a summary that rejects) | every refresh settles, so the `catch` at `:153` absorbs the failure and the `finally` always lowers the flag | high (not executed) | `Plugin.StuckRefreshDropsLaterCalls`, `Plugin.LeafWithoutPathNeverSettles` | `Plugin.SettledPreviewRefresh`, `Plugin.SettledRefreshesAlwaysSettle`, `Plugin.ObsidianInflux.UpdateInfluxInAllPreviewsSettled` |
