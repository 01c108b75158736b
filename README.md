# Journal26 state store, modelled in Dafny

Journal26 is a single-page 2026 journal: per-day tasks, habit check-offs,
notes and a mood rating, a user-ordered list of habit definitions, a display
name, and JSON backup export and import. All of its logic lives in the `App`
component of `src/App.jsx`. This project models the state store inside that
component and proves properties of the model:

- the sparse map from date key to day entry, its read-with-default and the
  shallow merge every mutation goes through;
- the habit toggle and the task add, toggle (with its stable re-sort) and
  delete;
- the habit-definition list operations: adjacent swap, add or edit, delete;
- the backup document: the record the export builds, and the per-field shape
  checks the import applies;
- the start-up load of the four browser-storage keys, the persistence
  effects gated on the loaded flag, and the stale-backup test;
- the two integer mood bandings (calendar cell and rating button).

Modules, one per file:

| file | module | contents |
|---|---|---|
| `json.dfy` | `Json` | parsed JSON values, JavaScript truthiness, property access, decimal rendering of `Date.now()` ids, arrays seen as index-keyed objects |
| `seqs.dfy` | `Seqs` | `Array.prototype.filter` and its counting and order facts |
| `text.dfy` | `Text` | the `!s.trim()` blank test over the ECMAScript white-space set |
| `entries.dfy` | `Entries` | day entries, merge, habit toggle, task operations, the in-place stable sort of `toggleTask` |
| `habits.dfy` | `Habits` | habit definitions, the starter set, `moveHabit`, `saveHabit`, the delete filter |
| `backup.dfy` | `Backup` | encoding to and lenient decoding from JSON values, the export record, the import field checks |
| `persistence.dfy` | `Persistence` | storage keys, load fallbacks, the stale-backup test |
| `mood.dfy` | `Mood` | calendar and button colour bands |
| `store.dfy` | `Store` | the key-value store and the `JournalStore` class holding the component's state, with one method per action |

`JournalStore` has the fields `data`, `userHabits`, `userName`,
`lastBackupDate`, `showBackupWarning` and `isLoaded`. Each action method
states its whole new state in terms of the pure functions in the other
modules. `Load` establishes the invariant `Synced()`, and every action method
requires and keeps it: once the store is loaded, the three persisted keys hold
the current entries, habits and profile. Every method states exactly what it writes to the key-value store.
While `isLoaded` is false the three gated keys are never written.

Browser facilities are parameters:

- `JSON.stringify`, `JSON.parse` (with `None` for a parse that throws) and
  `new Date(text).getTime()` are function-valued constants of the store.
- `Date.now()` readings and `toISOString()` texts are method arguments.
- The answer of `window.confirm` is a boolean argument.

Toggling a task re-sorts the list stably. `toggleTask` first maps the list
to a new one in which the matching tasks are replaced by flipped copies, then
sorts that new list in place, incomplete tasks first. With
`[A(false), B(true), C(false)]`, toggling A gives `[C, A, B]`: the newly
completed task keeps its place ahead of the complete tasks that followed it
(`Entries.ToggleTaskExample`).

## Model

| member | source | states |
|---|---|---|
| Entries.ReadAbsent | src/App.jsx:155-163 | a date with no entry reads as tasks `[]`, habits `{}`, notes `''`, no mood, gratitude `''`; the map itself is not touched |
| Entries.CurrentEntry | src/App.jsx:155-163 | the stored entry of the date, or the default record when there is none; its properties are stated by `ReadAbsent` and `ReadAfterMerge` |
| Entries.Merge | src/App.jsx:169 | `{ ...prev[d], ...updates }`; its properties are stated by `MergeReplacesNamedFields` and `MergeTwice` |
| Entries.MergeInto | src/App.jsx:166-178 | a merge adds the date as a key and leaves every other date's entry as it was |
| Entries.MergeReplacesNamedFields | src/App.jsx:169 | the fields the patch names replace the base record's; every other field is kept |
| Entries.ReadAfterMerge | src/App.jsx:166-178 | after a merge the date reads as its stored (or empty) record with the patch applied; other dates read as before |
| Entries.MergeIntoAbsent | src/App.jsx:176 | merging into an absent date stores the patch alone, so unnamed fields stay missing rather than defaulting |
| Entries.MergeTwice | src/App.jsx:166-178 | two successive merges equal one merge of the two patches combined, so merges of different fields keep both |
| Entries.MoodThenNotes | src/App.jsx:166-171 | setting the mood and then the notes of a day keeps both |
| Entries.ToggledHabits | src/App.jsx:187-193 | the flag at the id becomes the negation of its truthiness (absent becomes true); other flags are kept |
| Entries.ToggleHabitEffect | src/App.jsx:186-194 | the toggle (also the summary cell at lines 446-450) changes only that date, only its `habits` field, negates the flag and keeps the other flags |
| Entries.ToggleHabitTwice | src/App.jsx:186-194 | toggling twice restores a recorded flag; an unrecorded one ends up recorded as false |
| Entries.ToggleHabit | src/App.jsx:186-194 | the habit toggle on the entry map; its properties are stated by `ToggleHabitEffect` and `ToggleHabitTwice` |
| Entries.AddTaskEffect | src/App.jsx:234-240 | blank text leaves the map unchanged; otherwise the list grows by one, the new untrimmed task `{now, text, false}` sits in front, the old tasks follow in order, other fields and dates are kept |
| Entries.AddTask | src/App.jsx:234-240 | the task addition on the entry map; its properties are stated by `AddTaskEffect` |
| Entries.RemoveTask | src/App.jsx:256-261 | the result has no task with the id, holds every other task with its multiplicity, and is a subsequence of the input |
| Entries.DeleteTask | src/App.jsx:256-261 | the task deletion on the entry map, storing `RemoveTask` of the day's list |
| Entries.FlipTask | src/App.jsx:244-246 | the mapped list has the same length as the stored one |
| Entries.CompareTasks | src/App.jsx:247-250 | the sort comparator; `SortedByCompletion` is stated in its terms and `PartitionIsSorted`, `SortedSplits` and `StableSortIsUnique` are about it |
| Entries.PartitionIsPermutation | src/App.jsx:247-250 | the stable partition is a permutation of its input |
| Entries.PartitionIsSorted | src/App.jsx:247-250 | no pair in the stable partition is out of order for the comparator |
| Entries.PartitionIsStable | src/App.jsx:247-250 | each completion group keeps the relative order it had in the input |
| Entries.SortedSplits | src/App.jsx:247-250 | a list sorted by the comparator is its incomplete tasks followed by its complete ones |
| Entries.StableSortIsUnique | src/App.jsx:247-250 | any sorted list with the same two groups as the input is the stable partition, so the comparator sort has one stable result |
| Entries.PartitionSnoc | src/App.jsx:247-250 | the stable partition of a list extended by one task places it at the end of its group |
| Entries.InsertStep | src/App.jsx:247-250 | moving a new element left past the neighbours that compare greater yields the stable partition of the extended list |
| Entries.InsertIncomplete | src/App.jsx:247-250 | an incomplete task stopped after the last incomplete one lands between the incomplete and the complete group |
| Entries.InsertLeft | src/App.jsx:247-250 | one insertion pass moves the element left past exactly the neighbours that compare greater, shifting them right by one and leaving the rest alone |
| Entries.SortTasks | src/App.jsx:247-250 | the in-place sort leaves the array holding the stable partition of its old contents |
| Entries.ToggleTaskEffect | src/App.jsx:242-254 | the stored list is a permutation of the mapped list, exactly the matching ids flipped, incomplete before complete, each group in mapped order |
| Entries.ToggleTaskExample | src/App.jsx:242-254 | `[A(false), B(true), C(false)]` with A toggled becomes `[C, A(true), B]` |
| Entries.ToggleTask | src/App.jsx:242-254 | the task toggle on the entry map; its properties are stated by `ToggleTaskEffect`, `ToggleTaskExample` and `ToggleTaskTwice`, and `Store.JournalStore.ToggleTask` is proved equal to it |
| Entries.FlipTaskTwice | src/App.jsx:244-246 | flipping the same id twice gives the list back |
| Entries.FlipTaskCount | src/App.jsx:244-246 | a flipped list holds a task as often as the original held its flipped counterpart |
| Entries.FlipTaskPermutation | src/App.jsx:244-246 | lists holding the same tasks still hold the same tasks after the flip, whatever their order |
| Entries.ToggleTaskTwice | src/App.jsx:242-254 | toggling the same task twice gives every task of the day its old completion value back; only the order may change |
| Seqs.Filter | src/App.jsx:259 | the filter result is no longer than the input and every element passes the test |
| Seqs.FilterCounts | src/App.jsx:274 | filtering keeps every passing element with all its occurrences and nothing else |
| Seqs.FilterIsSubsequence | src/App.jsx:274 | filtering keeps order |
| Text.TrimStart | src/App.jsx:213 | the result is a suffix of the input with only white space before it and no white space at its start |
| Text.BlankIffAllWhiteSpace | src/App.jsx:235 | the blank test holds exactly when every character is ECMAScript white space or a line terminator |
| Json.IsTruthyObject | src/App.jsx:85 | `x && typeof x === 'object'` holds exactly for objects and arrays |
| Json.NatToString | src/App.jsx:226 | `Date.now().toString()` is a non-empty string of decimal digits |
| Json.NatToStringInjective | src/App.jsx:226 | different clock readings give different ids |
| Json.IndexKeyedAt | src/App.jsx:322 | an array accepted as `data` holds each element under its index string |
| Json.IndexKeyedKeys | src/App.jsx:322 | such an array has no keys besides its index strings |
| Habits.Moved | src/App.jsx:196-204 | `moveHabit` always returns a permutation of the same length |
| Habits.MoveUpSwaps | src/App.jsx:198-199 | 'up' with index above 0 swaps the element with its predecessor and touches nothing else |
| Habits.MoveDownSwaps | src/App.jsx:200-201 | 'down' below the last index swaps the element with its successor and touches nothing else |
| Habits.MoveAtBoundaryIsNoop | src/App.jsx:196-204 | 'up' at the first index, 'down' at the last, or any other direction returns the list unchanged |
| Habits.MoveUpThenDown | src/App.jsx:196-204 | moving up and then back down restores the list |
| Habits.SaveHabitBlankIsNoop | src/App.jsx:213 | a whitespace-only name changes nothing |
| Habits.SaveHabitEdit | src/App.jsx:215-223 | edit mode keeps every position and id and sets name and icon, as typed, exactly on the matching ids |
| Habits.SaveHabitAdd | src/App.jsx:224-228 | add mode prepends one definition with the clock id, the untrimmed name and the icon or the sparkles fallback, and keeps the rest in order |
| Habits.SaveHabit | src/App.jsx:212-232 | add or edit; its properties are stated by `SaveHabitBlankIsNoop`, `SaveHabitEdit` and `SaveHabitAdd` |
| Habits.AddedIdIsNotAStarterId | src/App.jsx:226 | an added habit's id never equals one of the starter ids `h1`..`h5` of lines 33-39 |
| Habits.RemoveHabit | src/App.jsx:274 | the result has no definition with the id, holds every other one with its multiplicity, in order |
| Backup.EncodeTasks | src/App.jsx:284 | a task list encodes to a JSON list of the same length |
| Backup.EncodeHabits | src/App.jsx:285 | the habit list encodes to a JSON array of the same length |
| Backup.TasksRoundTrip | src/App.jsx:284 | decoding an encoded task list gives it back |
| Backup.FlagsRoundTrip | src/App.jsx:284 | decoding encoded habit flags gives them back |
| Backup.EncodedEntryMembers | src/App.jsx:284 | an encoded entry holds a member exactly for each present field, with that field's encoding |
| Backup.EntryRoundTrip | src/App.jsx:284 | decoding an encoded entry gives it back, with exactly its present fields |
| Backup.DataRoundTrip | src/App.jsx:322 | an encoded entry map passes the `data` shape check and decodes to itself |
| Backup.HabitsRoundTrip | src/App.jsx:323 | an encoded habit list decodes to itself |
| Backup.ExportRecord | src/App.jsx:281-287 | the export document; `ExportImportRoundTrip` states that importing it restores the state |
| Backup.ImportFields | src/App.jsx:320-324 | the import field checks; their properties are stated by `ImportDecidesEachField`, `ImportWithMalformedHabits` and `ExportImportRoundTrip` |
| Backup.ImportDecidesEachField | src/App.jsx:320-324 | for any non-null document, `data` is adopted exactly when it is an object or an array, `habits` exactly when it is an array, the name exactly when `profile.name` is truthy, each independently |
| Backup.ImportWithMalformedHabits | src/App.jsx:322-323 | a document with good `data` and a `habits` member of any non-array value (string, number, boolean, `null` or object) replaces the entries and keeps habits and name |
| Backup.ExportImportRoundTrip | src/App.jsx:281-324 | importing an export restores entries, habits and a truthy name; an empty name is not adopted |
| Persistence.LoadBackupDate | src/App.jsx:103-107 | a timestamp is read only from a saved, valid date text |
| Persistence.Saved | src/App.jsx:77-82 | `getItem(key)` followed by `if (saved)`: a missing key and an empty text are skipped; used by every load function |
| Persistence.LoadData | src/App.jsx:82-87 | the entry-map load; its properties are stated by `ReloadData`, `BadKeyKeepsValue` and `GoodKeyReplacesValue` |
| Persistence.LoadHabits | src/App.jsx:89-94 | the habit-list load; its properties are stated by `ReloadHabits`, `BadKeyKeepsValue` and `GoodKeyReplacesValue` |
| Persistence.LoadName | src/App.jsx:96-101 | the profile load; its properties are stated by `ReloadName`, `BadKeyKeepsValue` and `GoodKeyReplacesValue` |
| Persistence.StaleBackupBoundary | src/App.jsx:103-117 | the warning is due with no timestamp or when `now - t > 604800000`, strictly; exactly seven days is not stale |
| Persistence.StaleBackup | src/App.jsx:108-109 | the stale test; its properties are stated by `StaleBackupBoundary` and `StaleBackupMonotone` |
| Persistence.StaleBackupMonotone | src/App.jsx:108-111 | a stale backup stays stale as time passes |
| Persistence.ReloadData | src/App.jsx:82-87 | loading the text the persistence effect wrote restores the entry map |
| Persistence.ReloadHabits | src/App.jsx:89-94 | loading the saved habit text restores the list |
| Persistence.ReloadName | src/App.jsx:96-101 | loading the saved profile restores a truthy name and yields "Admin" for an empty one |
| Persistence.BadKeyKeepsValue | src/App.jsx:82-101 | a key that does not parse, or parses to the wrong shape (anything but an object or array for the entries, anything but an array for the habits, `null` for the profile), leaves its value as it was |
| Persistence.GoodKeyReplacesValue | src/App.jsx:82-101 | a key that parses to the right shape is adopted whatever the current value, so the skips above are the only ones |
| Mood.CalendarBand | src/App.jsx:365-370 | no colour for an absent, null or 0 mood; 8 and up high, 5 to 7 middle, the rest low |
| Mood.ButtonBand | src/App.jsx:659-666 | a button is coloured only when it is the stored mood; up to 4 low, 5 to 7 middle, 8 and up high |
| Mood.BandsAgree | src/App.jsx:365-370 | the two bandings agree on every non-zero rating |
| Store.KeyValueStore.constructor | src/App.jsx:77-80 | the store starts with the given items |
| Store.KeyValueStore.SetItem | src/App.jsx:125 | `setItem` replaces exactly one key's value |
| Store.JournalStore.constructor | src/App.jsx:53-58 | empty entries, starter habits, name "Admin", no backup date, no warning, not loaded |
| Store.JournalStore.PersistData | src/App.jsx:123-127 | the entry map is written to its key only when loaded |
| Store.JournalStore.PersistHabits | src/App.jsx:129-133 | the habit list is written to its key only when loaded |
| Store.JournalStore.PersistProfile | src/App.jsx:135-139 | `{name}` is written to the profile key only when loaded |
| Store.JournalStore.SetData | src/App.jsx:123-127 | `setData` followed by its effect: the map is replaced, only the data key is written, and only when loaded |
| Store.JournalStore.SetUserHabits | src/App.jsx:129-133 | `setUserHabits` followed by its effect: the list is replaced, only the habits key is written, and only when loaded |
| Store.JournalStore.SetUserName | src/App.jsx:135-139 | `setUserName` followed by its effect: the name is replaced, only the profile key is written, and only when loaded |
| Store.JournalStore.Load | src/App.jsx:76-120 | each of the four keys is read with its own fallback; the warning is raised for a missing, invalid or over-seven-days timestamp; the store ends loaded and synced, having written the three gated keys |
| Store.JournalStore.ReadSaved | src/App.jsx:77-117 | each saved key is adopted through its own fallback, before the flag is raised |
| Store.JournalStore.CheckBackupDate | src/App.jsx:103-117 | a valid saved date is adopted; the warning is raised for a missing, invalid or stale one; nothing else changes |
| Store.JournalStore.UpdateDayData | src/App.jsx:166-178 | the entry map becomes the merge; nothing else changes; only the data key is written, and only when loaded |
| Store.JournalStore.ToggleHabit | src/App.jsx:186-194 | the entry map becomes the habit toggle of the date; the rest of the state is kept |
| Store.JournalStore.AddTask | src/App.jsx:234-240 | the entry map becomes the task addition; blank text writes nothing |
| Store.JournalStore.ToggleTask | src/App.jsx:242-254 | the entry map stores the flipped list after its in-place stable sort |
| Store.JournalStore.DeleteTask | src/App.jsx:256-261 | the entry map stores the list without the id's tasks |
| Store.JournalStore.MoveHabit | src/App.jsx:196-204 | the swap done on a copied array yields the moved list; only the habits key is written |
| Store.JournalStore.SaveHabit | src/App.jsx:212-232 | the list becomes the add or edit result; a blank name writes nothing |
| Store.JournalStore.DeleteHabit | src/App.jsx:272-276 | once confirmed, the matching ids go; `data` is never touched; unconfirmed writes nothing |
| Store.JournalStore.SetProfileName | src/App.jsx:897 | the typed name is stored verbatim and persisted when loaded |
| Store.JournalStore.DismissBackupWarning | src/App.jsx:533 | the banner's close button clears the warning and nothing else |
| Store.JournalStore.Export | src/App.jsx:279-308 | the document is `{version: 1, generated, data, habits, profile: {name}}`; the backup time is recorded and written ungated; the warning is cleared |
| Store.JournalStore.ImportBackup | src/App.jsx:319-331 | a parse failure or a null document changes nothing; otherwise each field is adopted or kept as the checks decide, and the adopted keys are persisted when loaded |
| Store.JournalStore.AdoptData | src/App.jsx:322 | the entry map is replaced only when the check passed; a skipped field writes nothing |
| Store.JournalStore.AdoptHabits | src/App.jsx:323 | the habit list is replaced only when the check passed; a skipped field writes nothing |
| Store.JournalStore.AdoptName | src/App.jsx:324 | the name is replaced only when the check passed; a skipped field writes nothing |

## Left out

- JSX rendering, CSS, icons and the avatar URL: presentation only.
- `localStorage` itself is the `KeyValueStore` class. `FileReader`, `Blob`, the object URL and the download link are left out; the import starts from what `JSON.parse` returned.
- `JSON.parse` and `JSON.stringify` text handling are function parameters. The three reload lemmas (`ReloadData`, `ReloadHabits`, `ReloadName`) assume that parsing undoes stringifying.
- Object member order is not kept: JSON objects are maps.
- The export's pretty-printing is not modelled; the export returns the document value before `JSON.stringify(backup, null, 2)`.
- Numbers are integers. Task ids, moods and timestamps are whole numbers in every path the journal writes. A fractional or non-finite number in an imported file is not representable.
- A stored mood of `null` and a missing mood are the same `None`. Every reader treats them alike.
- Decoding of loaded or imported JSON is lenient. A task, habit definition or entry field of the wrong type is dropped. In the source, such a value is kept as it is and used later. The typed store cannot hold it. Members the decoders do not know are dropped too. `DecodeTask`, `DecodeHabit` and `DecodeEntryFields` keep only the fields of the stored shape. The source's spreads (lines 169, 176, 219 and 245) carry any other member through merges, re-persisting and export. Habit flags are read by truthiness (`DecodeFlags`), so a stored `{"h1": 1}` is written back as `{"h1": true}`. The same goes for whole entries. A falsy entry (`null`, `0`, `""`, `false`) loses its date key. A truthy entry that is not an object becomes the empty record `{}`. Reads and merges of that date behave as in the source, because `null || default` and `{ ...null }` act like a missing entry. But the next text written to storage or exported differs: the source would write the value back (for example `"d": null`), while the model omits the date or writes `{}`.
- An array accepted as `data` becomes the map keyed by its index strings. That is what spread and property lookup see. Its array-ness is not kept.
- `window.confirm` and `alert` are a boolean argument and an `ImportOutcome` result.
- The status messages and their 3-second timer are not modelled: timer-driven UI.
- Date keys are opaque strings. `toISOString`, `changeDay` and `getDaysInMonth` are not modelled: JavaScript `Date` and time-zone behaviour.
- `Date.now()` and the two `new Date().toISOString()` readings are arguments. The export records the clock value it is given.
- Store.JournalStore.Export: Always succeeds. The body of `handleExport` (src/App.jsx:280-305) has two kinds of failure point. A failure in `Blob`, the object URL or the download link (lines 290-298) reaches the catch branch before anything is recorded: the backup date and the warning stay as they were. A failure in the `setItem` of the backup time at line 301 (a storage quota error, or storage being disabled) comes after `setLastBackupDate(now)` at line 300: the new backup date is kept in memory and the warning stays set. Neither catch path is modelled. The model always records the date, writes the key and clears the warning.
- Store.KeyValueStore.SetItem: never fails. In the source, `localStorage.setItem` can throw, for instance on a storage quota error. That affects the three gated writes at lines 125, 131 and 137, and the backup-time write at line 301. A throw at lines 125-137 would leave state and storage out of step, and `Synced()` would not hold. The model does not capture that.
- The `progress` percentage is left out: floating point.
- Form and view state (`habitNameInput`, `habitIconInput`, `editingHabitId`, `view`, `showSettingsModal`) are arguments or left out. `saveHabit`'s resetting of the form fields is UI state.
- `gratitude` is carried, merged, encoded and decoded, but no action writes it.
- Store.JournalStore.MoveHabit: requires an index within the list, as the settings list passes its own row index. An out-of-range index in the source would insert `undefined` entries.
- Store.JournalStore.ReadSaved: uses the load functions of `Persistence` for the three parsed keys instead of spelling out their branches a second time.
