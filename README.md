# DiscorchDeleter core, modelled in Dafny

DiscorchDeleter is a userscript that bulk-deletes a user's Discord messages from an
exported channel map (channel id → message ids, display name, server name, channel
type). This project models its core and proves what that core promises:

- **The settings store** (`AppSettingsStore`, module `Stores`). This is the userscript
  key/value storage as a `map<Key, Value>` field. It models the falsy-value fallback of
  `getValue`, the minimized toggle, the deletion statistics counter, the de-duplicated
  "already deleted" list, the setters and `clearAllKeys`.
- **The deletion engine** (`DeletionStore`, module `Stores`). This is a class with the
  permission cache and the running flag. It models `calculatePermission(s)`, the
  in-place splice `removeMessageFromMap`, the outcome classifier `deleteMessage` with
  its 429 retry, `stopDeletion`, and the sequential worker loop of `startDeletion`.
- **`formatTime`** (module `FormatTime`). This turns milliseconds into
  "1 day, 2 hours, 3 minutes, 4 seconds".
- **The computations of the control panel** (module `UiLogic`):
  - `formatChannelType` and the counts and ETA of `generateImportStatus`;
  - the import validators `isChannel` / `isValidChannelMap`, over a parsed JSON tree;
  - the interval input's correction and warnings;
  - the progress clamp of `updateStatus` and the line format of `addLogEntry`.

Supporting modules:

- `Wrappers` holds `Option`.
- `JsText` holds the JavaScript string built-ins the code relies on: `String(n)`,
  `parseInt(s, 10)`, `split`, `join` and ASCII `toLowerCase`.
- `Types` holds `Channel`, the `ChannelMap` (entries in iteration order, unique ids) and
  string-keyed counters.
- `Json` holds the parsed value tree.

Remote and browser services are parameters:

- The Discord REST delete is `server: nat -> Script`. Request number `i` receives the
  answers `server(i)`: zero or more 429s, then one settled answer.
- The view-permission check is `canView: string -> bool`.
- The user's stop button is `stopAt: Option<nat>`, the first item boundary at which
  `isRunning` has been cleared.

The working copy of the map is a value, so the caller's map is never changed. This is
what the deep clone at `src/utils/stores.ts:304` ensures.

### Where the code and its design description disagree (the model follows the code)

- **Permission cache.** The cache is described as valid for one run, with
  direct-message channels always accessible. In the code:
  - the cache is never cleared;
  - only a cached `true` short-circuits; a cached `false` is asked again;
  - every channel, whatever its type, goes through the permission check.
  `PermissionSticky` and `CalculatePermission` state this behaviour.
- **Generic failures.** An unclassified failure is described as leaving the item
  eligible for the next run. In the code, any request whose answer is `false` removes
  the id from the working copy (`src/utils/stores.ts:351-353`). A completed run saves
  that copy as the new input, so the id is gone from it, though it is not on the deleted
  list. `SubmitItem` states the removal for every outcome.
- **Channel owner and counted type.** When an id is listed by several channels, they
  can differ:
  - the request goes to the last channel listing it (the `messageToChannelMap` reduce);
  - the removal, and so the channel type counted in the statistics, uses the first
    channel listing it.
  `Owners`, `RequestsFit` and `RemoveMessageShape` state each side. Each request
  records the removal it caused (`Request.removed`), and `StatsAfterByType` counts the
  type of that removal.

## Model

| member | source | states |
|---|---|---|
| Stores.WithMarked | src/utils/stores.ts:124-130 | after marking, the id is on the list, the old list is a prefix, no other id is added or removed, and a list already holding the id is unchanged |
| Stores.MarkedOnce | src/utils/stores.ts:124-135 | marking is idempotent; on a duplicate-free list the result stays duplicate-free and holds the id exactly once |
| Stores.BumpStats | src/utils/stores.ts:107-111 | one more deletion raises the total by exactly 1 and keeps "total == sum of per-type counts" |
| Stores.BumpStatsByType | src/utils/stores.ts:107-111 | the count under the channel type rises by 1, counting from 0 when absent; every other type's count is unchanged |
| Stores.AppSettingsStore.constructor | src/utils/stores.ts:39-48 | a fresh store holds no keys; this is the storage of a first install, since storage that already holds keys is not modelled by the constructor |
| Stores.AppSettingsStore.ToggleMinimized | src/utils/stores.ts:58-70 | returns and stores the negation of the current minimized state; nothing else changes |
| Stores.AppSettingsStore.SetMinimized | src/utils/stores.ts:62-64 | writes exactly the minimized key |
| Stores.AppSettingsStore.SetJsonContent | src/utils/stores.ts:76-78 | writes exactly the channel-map text key |
| Stores.AppSettingsStore.SetInterval | src/utils/stores.ts:84-86 | writes exactly the interval key |
| Stores.AppSettingsStore.SetInputMethod | src/utils/stores.ts:92-94 | writes exactly the input-method key |
| Stores.AppSettingsStore.SetDeletionStats | src/utils/stores.ts:103-105 | writes exactly the statistics key |
| Stores.AppSettingsStore.UpdateDeletionStats | src/utils/stores.ts:107-112 | the stored statistics become the old ones with one more deletion under the type; only that key changes |
| Stores.AppSettingsStore.SetDeletedMessages | src/utils/stores.ts:120-122 | writes exactly the deleted-list key |
| Stores.AppSettingsStore.MarkMessageAsDeleted | src/utils/stores.ts:124-135 | the deleted list becomes the marked list, the id then reads as deleted, and the store changes only if the id was new |
| Stores.AppSettingsStore.ClearAllKeys | src/utils/stores.ts:137-144 | every key is removed |
| Stores.FalsyReadsAsDefault | src/utils/stores.ts:50-52 | a stored `false` or empty string reads as the default |
| Stores.EmptyIntervalReadsDefault | src/utils/stores.ts:80-82 | a missing or empty interval reads as 1500 |
| Stores.StoredIntervalReadsBack | src/utils/stores.ts:80-86 | an interval stored as the text of a count reads back as that count |
| Stores.ClearedReadsDefaults | src/utils/stores.ts:137-144 | after clearing, every getter returns its default (not minimized, "", 1500, "file", zero statistics, empty list) |
| Stores.PermissionSticky | src/utils/stores.ts:170-180 | after one check, a later check of the same channel is true iff the first was true or the later permission check says true |
| Stores.DeletionStore.constructor | src/utils/stores.ts:147-155 | a fresh engine has an empty cache and is not running |
| Stores.DeletionStore.CalculatePermission | src/utils/stores.ts:170-180 | a cached `true` is returned without asking; otherwise the check's answer is returned and cached under the channel |
| Stores.DeletionStore.CalculatePermissions | src/utils/stores.ts:187-189 | returns an answer for exactly the map's channel ids, each the cached-permission answer, and the cache gains exactly those answers |
| Stores.DeletionStore.StopDeletion | src/utils/stores.ts:212-217 | the engine is no longer running |
| Stores.RemoveMessageIds | src/utils/stores.ts:197-207 | removal takes exactly one occurrence of the id out of the map's ids, or none when no channel lists it |
| Stores.Spliced | src/utils/stores.ts:200-202 | splicing out the id found by `indexOf` leaves a list one shorter that keeps the other ids in order and loses exactly one occurrence of the id |
| Stores.RemoveMessageShape | src/utils/stores.ts:197-207 | only the first channel listing the id changes, and its list becomes the old one with the id spliced out; every channel keeps its id, name, server and type; the answer names that channel and its type, or is null exactly when no channel lists the id, and then the map is unchanged |
| Stores.DeletionStore.RemoveMessageFromMap | src/utils/stores.ts:197-207 | the loop's result and answer are those of the removal function above |
| Stores.DeletionStore.DeleteMessage | src/utils/stores.ts:226-270 | answers true iff the settled answer is a success; success, 404 and 403 mark the id deleted, any other failure changes nothing; the ghost wait is `retry_after * 1000` summed over the 429s |
| Stores.DeletionStore.SubmitItem | src/utils/stores.ts:341-353 | the working copy and the answer are those of the removal function, whatever the outcome; the deleted list grows by the id iff the outcome marks it; the statistics gain one deletion under the removed channel's type iff the message was deleted and a channel listed it; only the run's keys change |
| Stores.DeletionStore.CountDeletion | src/utils/stores.ts:343-350 | the statistics gain one deletion under the given type exactly when counted and are unchanged otherwise; the deleted list is unchanged and only the run's keys change |
| Stores.DeletionStore.RemoveEach | src/utils/stores.ts:377-379 | the result is the map with each already-deleted id removed in turn by the removal function, so one occurrence of each leaves the working copy's ids |
| Stores.RemoveAllIds | src/utils/stores.ts:377-379 | removing ids in turn takes exactly one occurrence of each out of the map's ids |
| Stores.RemoveAllShape | src/utils/stores.ts:197-207 | removing ids in turn keeps every channel, its id, name, server and type, and leaves each channel's list a subsequence of the old one |
| Stores.QueueFacts | src/utils/stores.ts:293-306 | an id is queued iff a permitted channel lists it and it is not on the deleted list; queue and skipped ids together are part of the map's ids |
| Stores.PermittedIdsMembers | src/utils/stores.ts:293-295 | an id is among the permitted ids iff some channel with a `true` permission lists it |
| Stores.DeletionStore.ProcessQueue | src/utils/stores.ts:328-375 | the loop stops at the first boundary where the stop signal has come, and is still running iff it walked the whole queue; its requests are the reference requests of the walked prefix, the working copy is the map with their ids removed in turn, and the deleted list and statistics follow those requests |
| Stores.DeletionStore.ProcessItem | src/utils/stores.ts:329-339 | a stop signal at this boundary clears the running flag and leaves the loop with nothing changed; otherwise item `k` is walked and the walked prefix grows by one |
| Stores.DeletionStore.Advance | src/utils/stores.ts:331-353 | an id on the deleted list, from before the run or marked earlier in it, is skipped without a request and nothing else changes; any other id is requested of its owner channel, is removed from the working copy by the removal function, which finds it, and the request is appended; the reference requests and the settings' tracking extend by that item |
| Stores.TracksSubmit | src/utils/stores.ts:341-353 | one more submitted request keeps the deleted list, the total and the store in step with the run's requests |
| Stores.DeletionStore.StartDeletion | src/utils/stores.ts:276-389 | a call while running changes nothing. Otherwise:<br>- the requests are exactly the reference requests of the walked queue prefix: each permitted, not-yet-deleted id, in channel then list order, of its owner channel, unless an earlier request of the run marked it;<br>- the deleted list grows by exactly the ids that success, 404 or 403 marked;<br>- the statistics are the old ones with one deletion per success under the type of the channel it left, so the total rises by the successes;<br>- the skipped count is the already-deleted ids plus those skipped in the loop;<br>- the working copy is the map with the requested and then the already-deleted ids removed in turn;<br>- it is saved only when the run was not stopped;<br>- the engine is not running at the end. |
| Stores.DeletionStore.FinishRun | src/utils/stores.ts:377-388 | the already-deleted ids are removed in turn from the working copy, which is saved exactly when the run was not stopped; the deleted list and statistics are untouched |
| Stores.DeletionStore.SaveUnlessStopped | src/utils/stores.ts:381-389 | the run counts as stopped iff the running flag was cleared before or at the final boundary; only a run not stopped saves the working copy, and nothing else in the store changes |
| Stores.ExpectedCovers | src/utils/stores.ts:328-353 | every walked id that was not on the deleted list before the run is requested at least once, whatever repeats the queue holds |
| Stores.ExpectedDistinct | src/utils/stores.ts:328-353 | for a queue without repeats and without already-deleted ids, the requested ids are exactly the walked ids, in order |
| Stores.StatsAfterTotal | src/utils/stores.ts:107-111 | after a run's requests, the total has risen by exactly the number of successes |
| Stores.StatsAfterConsistent | src/utils/stores.ts:107-111 | a run keeps "total == sum of per-type counts" |
| Stores.StatsAfterByType | src/utils/stores.ts:343-350 | after a run, each channel type's count has risen by exactly the successes whose removal left a channel of that type |
| FormatTime.Breakdown | src/utils/formatTime.ts:9-17 | hours < 24, minutes < 60, seconds < 60, and days·86400 + hours·3600 + minutes·60 + seconds == ⌊ms/1000⌋ |
| FormatTime.BreakdownUnique | src/utils/formatTime.ts:9-17 | the normalised breakdown is the only normal one with that number of seconds |
| FormatTime.FormatTime | src/utils/formatTime.ts:1-26 | negative input gives "N/A", 0 gives "Instantly", a positive input gives text starting with a digit (never empty) |
| FormatTime.PartsCounts | src/utils/formatTime.ts:19-23 | each part carries its unit's count, positive except for a lone "0 seconds" |
| FormatTime.PartsOrdered | src/utils/formatTime.ts:19-23 | parts come in the order days, hours, minutes, seconds, none twice |
| FormatTime.PartsPresence | src/utils/formatTime.ts:20-23 | a unit appears iff its count is positive, except that seconds also appear when nothing else does |
| FormatTime.PartsTotal | src/utils/formatTime.ts:9-23 | the parts together stand for the whole number of seconds |
| FormatTime.UnderOneSecond | src/utils/formatTime.ts:23 | for 0 < ms < 1000 the text is "0 seconds" |
| FormatTime.RenderPlural | src/utils/formatTime.ts:20-23 | a part ends in "s" iff its count is not 1 |
| FormatTime.RenderReadsBack | src/utils/formatTime.ts:20-23 | a rendered part holds no comma, and `parseInt` and its unit word read back the same count and unit |
| FormatTime.JoinedPartsReadBack | src/utils/formatTime.ts:25 | the ", "-joined parts split at commas read back as the same parts |
| FormatTime.FormatTimeReadsBack | src/utils/formatTime.ts:1-26 | the text of a positive input reads back as exactly ⌊ms/1000⌋ seconds |
| JsText.NatToString | src/ui-logic.ts:551 | `String(n)` is non-empty decimal digits with no leading zero |
| JsText.DigitsValueOfNatToString | src/ui-logic.ts:551 | the digits of `String(n)` denote `n` |
| JsText.NatToStringInjective | src/ui-logic.ts:551 | different counts render differently |
| JsText.TrimStart | src/utils/stores.ts:81 | leading whitespace is dropped and the rest starts with a non-space |
| JsText.ParseIntOfNatToString | src/utils/stores.ts:81 | `parseInt` reads back a rendered count, whatever non-digit text follows |
| JsText.ParseIntOfNegative | src/ui-logic.ts:119 | `parseInt` reads back a negative number |
| JsText.ParseIntSkipsWhitespace | src/ui-logic.ts:119 | leading whitespace does not change what `parseInt` reads |
| JsText.ParseIntWithoutDigits | src/ui-logic.ts:119-124 | text with no digit is NaN |
| JsText.Split | src/ui-logic.ts:34 | `split` gives at least one piece and no piece holds the separator |
| JsText.JoinSplit | src/ui-logic.ts:34-36 | joining the pieces with the separator gives the text back |
| JsText.SplitCount | src/ui-logic.ts:34 | there is one more piece than occurrences of the separator |
| JsText.ToLowerFacts | src/ui-logic.ts:33 | lower-casing leaves no upper-case ASCII letter, keeps every other character, is undone letter by letter by upper-casing, and is idempotent |
| Types.UniqueIdsPairwise | src/ui-logic.ts:101-113 | the recursive uniqueness of channel ids is pairwise distinctness |
| Types.SameIdsUnique | src/utils/stores.ts:197-207 | entries with the same ids position by position are unique alike |
| Types.BumpGet | src/utils/stores.ts:110 | `c[k] = (c[k] \|\| 0) + d` raises the count under `k` by `d` and leaves every other count alone |
| Types.BumpTotal | src/utils/stores.ts:110 | the same update raises the sum of the counts by `d` |
| Types.BumpKeys | src/utils/stores.ts:110 | the keys gain `k` only, stay unique, and the length grows only for a new key |
| UiLogic.FormatChannelTypeChars | src/ui-logic.ts:31-37 | the label has the input's length; underscores become spaces, the first letter of each word is upper-cased, every other letter is lower-cased |
| UiLogic.FormatChannelTypeWords | src/ui-logic.ts:31-37 | the label holds no underscore and has one word per underscore-separated segment |
| UiLogic.LowerKeepsUnderscores | src/ui-logic.ts:33-34 | lower-casing keeps every underscore |
| UiLogic.GenerateImportStatus | src/ui-logic.ts:39-50 | the total is the number of message ids; the per-type counts have exactly the map's channel types, each the messages of that type, and sum to the total; the ETA is `formatTime(total * interval)` |
| UiLogic.DecodeIdsSome | src/ui-logic.ts:86 | the ids decode iff every item is a string |
| UiLogic.DecodeIdsOfStrings | src/ui-logic.ts:86 | string items decode to the same ids |
| UiLogic.IsChannelDecodes | src/ui-logic.ts:84-99 | `isChannel` accepts iff the value decodes as a channel (an object with string-array `messageIds`, string `displayName`, absent, null or string `serverName`, string `channelType`) |
| UiLogic.DecodeEncodeChannel | src/ui-logic.ts:84-99 | every channel, written as JSON, passes `isChannel` and decodes back to itself |
| UiLogic.DecodeEntriesSome | src/ui-logic.ts:104-111 | the members decode iff every member's value passes `isChannel` |
| UiLogic.ValidChannelMapDecodes | src/ui-logic.ts:101-113 | `isValidChannelMap` accepts an object iff all its members decode, and then the channel ids are unique |
| UiLogic.DecodeEncodeChannelMap | src/ui-logic.ts:101-113 | every channel map, written as JSON, is valid and decodes back to itself |
| UiLogic.EntriesRoundTrip | src/ui-logic.ts:101-113 | decoding an encoded list of entries gives the entries back |
| UiLogic.ValidChannelMapShapes | src/ui-logic.ts:101-103 | anything but an object (null, an array, a string, a number, a boolean) is rejected, and the empty object is accepted |
| UiLogic.CorrectedInterval | src/ui-logic.ts:119-130 | the corrected interval lies in [750, 600000]: NaN → 1500, below 750 → 750, above 600000 → 600000, others unchanged |
| UiLogic.CorrectedTextParses | src/ui-logic.ts:119-130 | the corrected input text parses to the corrected interval |
| UiLogic.CorrectionIdempotent | src/ui-logic.ts:115-131 | correcting twice is correcting once |
| UiLogic.CorrectionRaisesSmall | src/ui-logic.ts:125-126 | "200" is corrected to "750" |
| UiLogic.CorrectionLowersLarge | src/ui-logic.ts:127-128 | "10000000" is corrected to "600000" |
| UiLogic.CorrectionDefaultsNaN | src/ui-logic.ts:119-124 | "fast" is corrected to "1500" |
| UiLogic.IntervalWarning | src/ui-logic.ts:133-162 | NaN shows "Please enter a valid number."; the risk warning appears iff 750 ≤ v < 1500; the long-wait warning iff v > 30000; with no warning the text is empty and hidden |
| UiLogic.IntervalField.constructor | src/ui-logic.ts:115-131 | the field holds the given text and an empty, hidden warning |
| UiLogic.IntervalField.UpdateIntervalWarnings | src/ui-logic.ts:133-162 | the warning element shows the warning of the parsed input |
| UiLogic.IntervalField.CorrectValue | src/ui-logic.ts:119-130 | the input becomes the corrected text |
| UiLogic.IntervalField.ValidateAndCorrectInterval | src/ui-logic.ts:115-131 | the input becomes the corrected text, which parses to an interval in [750, 600000]; the warning then matches it and is never the invalid-number text |
| UiLogic.ClampProgress | src/ui-logic.ts:551-552 | progress is clamped to [0, 100] and unchanged inside it |
| UiLogic.ProgressWidthReadsBack | src/ui-logic.ts:551-553 | the bar width is the clamped progress followed by "%" |
| UiLogic.StatusPanel.constructor | src/ui-logic.ts:542-560 | every element starts empty and hidden |
| UiLogic.StatusPanel.UpdateStatus | src/ui-logic.ts:542-560 | the message replaces the status; a given progress sets the clamped width, and an omitted one keeps the width; a non-empty ETA replaces the ETA line; the log is untouched |
| UiLogic.LevelNamedRoundTrip | src/ui-logic.ts:562 | each level's tag names that level |
| UiLogic.TagOfLine | src/ui-logic.ts:564 | the tag of a line is the text between its `[` and the first `]` |
| UiLogic.LogLineReadsBack | src/ui-logic.ts:564 | a log line names its level |
| UiLogic.LogLineShape | src/ui-logic.ts:564 | a log line starts with `[LEVEL] message` and ends with a newline |
| UiLogic.LogLineDetails | src/ui-logic.ts:564 | a truthy details value is appended after ": ", and a missing or empty one adds nothing |
| UiLogic.StatusPanel.AddLogEntry | src/ui-logic.ts:562-569 | exactly one formatted line is appended to the log, which is shown |

## Left out

- DOM wiring, HTML building and styling are not modelled. The model keeps only the
  values the code writes into page elements. The early returns taken when an element is
  missing are not modelled either: the fields of `IntervalField` and `StatusPanel` always
  exist.
- The log and status calls inside `startDeletion`, `deleteMessage` and `stopDeletion`
  are not modelled, nor are the per-item progress and ETA updates. They only display;
  their formats are modelled on their own (`LogLine`, `ProgressWidth`).
- `generateImportStatus`'s HTML lists, and the previous-statistics section it reads from
  the store, are not modelled. Only the counts, the total and the ETA are.
- `async`/`await`, timers and `wait` are not modelled. The loop is sequential. The wait
  between items is left out. The 429 wait appears only as a ghost sum of milliseconds.
- Channel ids that are array indices (such as "42") are not modelled.
  `Object.entries` lists such keys first, in numeric order, and `isValidChannelMap`
  accepts them. The model takes every map in insertion order, so for such a map the
  queue order and the first channel holding an id can differ from the code's.
- Stores.DeletionStore.StartDeletion: `stopAt` may name any boundary, including
  boundary 0 and a boundary right after a skipped item. In the code no `await` comes
  before those boundaries, so no stop can arrive there. The model allows more stop
  points than the code can produce, and its contracts hold for all of them.
- Stops are seen only at item boundaries. The stop button is sampled where the code
  reads `isRunning`: before each item, and once more after the loop. A stop pressed
  during a request takes effect at the next boundary, as in the code.
- Stores.DeletionStore.DeleteMessage: a server that answers 429 forever is not modelled.
  Each request's answers end in one settled answer, so the recursion terminates.
- The remote delete, the permission check and the Tampermonkey storage calls are
  parameters or a map field, not implementations.
- Floating point is replaced by integers:
  - `retry_after` is a whole number of seconds;
  - intervals and durations are integers;
  - the progress percentage given to `updateStatus` is an integer.
- FormatTime.FormatTime: takes an integer count of milliseconds. Fractional input and
  `Infinity` are not modelled.
- `JSON.parse` and `JSON.stringify` are represented, not implemented:
  - the validators take the already-parsed tree;
  - the saved working copy is stored as the value `Exported(map)`, standing for its
    non-empty JSON text.
- JsText.ToLower: only ASCII letters change case. Unicode case mapping is not modelled.
- The `hasOwnProperty` checks and prototype-inherited members are not modelled, since
  parsed JSON has only own members. An `obj.hasOwnProperty` that JSON shadows with a
  member of that name is not modelled either.
- JsText.NatToString and JsText.ParseInt: exact on unbounded integers. Above 2^53 the
  source's numbers lose precision; that is not modelled.
- The getters' typing of stored values is not checked. A stored value of the wrong kind
  reads as the default (`GetDeletionStats`, `GetDeletedMessages`) or as NaN
  (`GetInterval`). `Valid()` states that the setters never store such a value.
- The `instance` singletons are not modelled. They are ordinary objects passed as
  parameters.
- `isDeletionRunning` is not modelled separately. It is the `isRunning` field, read
  directly.
- `src/utils/waiter.ts`, `src/utils/safePromise.ts`, `src/index.ts` and
  `src/preload.ts` are not part of this model.
