/** The journal state store: the state the `App` component holds through its
    setters, the actions that change it, the start-up load, and the
    persistence effects that copy each changed key to the key-value store
    once loading is done. */
module Store {
  import opened Json
  import opened Text
  import opened Entries
  import opened Habits
  import opened Backup
  import opened Persistence

  /** The browser's `localStorage`: text values under text keys. */
  class KeyValueStore {
    var items: map<string, string>

    constructor (items: map<string, string>)
      ensures this.items == items
    {
      this.items := items;
    }

    method SetItem(key: string, value: string)
      modifies this
      ensures items == old(items)[key := value]
    {
      items := items[key := value];
    }
  }

  /** What an import reports: the alert for an unreadable file, or the
      success notice. */
  datatype ImportOutcome = InvalidFile | Restored

  class JournalStore {
    const kv: KeyValueStore
    /** `JSON.stringify`, `JSON.parse` (`None` when it throws) and
        `new Date(text).getTime()` (`None` for an invalid date). */
    const stringify: Json -> string
    const parse: string -> Option<Json>
    const parseDate: string -> Option<int>

    var data: DataMap
    var userHabits: seq<HabitDef>
    var userName: Json
    var lastBackupDate: Option<int>
    var showBackupWarning: bool
    var isLoaded: bool

    /** Once loaded, the three persisted keys hold the current entry map,
        habit list and profile. */
    ghost predicate Synced()
      reads this, kv
    {
      isLoaded ==>
        && DataKey in kv.items && kv.items[DataKey] == stringify(EncodeData(data))
        && HabitsKey in kv.items && kv.items[HabitsKey] == stringify(EncodeHabits(userHabits))
        && ProfileKey in kv.items && kv.items[ProfileKey] == stringify(EncodeProfile(userName))
    }

    /** The state before the load effect has run. */
    constructor (kv: KeyValueStore, stringify: Json -> string, parse: string -> Option<Json>, parseDate: string -> Option<int>)
      ensures this.kv == kv && this.stringify == stringify && this.parse == parse && this.parseDate == parseDate
      ensures data == map[] && userHabits == DefaultHabits() && userName == Str("Admin")
      ensures lastBackupDate.None? && !showBackupWarning && !isLoaded
      ensures Synced()
    {
      this.kv := kv;
      this.stringify := stringify;
      this.parse := parse;
      this.parseDate := parseDate;
      data := map[];
      userHabits := DefaultHabits();
      userName := Str("Admin");
      lastBackupDate := None;
      showBackupWarning := false;
      isLoaded := false;
    }

    // ------------------------------------------------------ persistence

    /** The effect on `[data, isLoaded]`. */
    method PersistData()
      modifies kv
      ensures kv.items == if isLoaded then old(kv.items)[DataKey := stringify(EncodeData(data))] else old(kv.items)
    {
      if isLoaded {
        kv.SetItem(DataKey, stringify(EncodeData(data)));
      }
    }

    /** The effect on `[userHabits, isLoaded]`. */
    method PersistHabits()
      modifies kv
      ensures kv.items == if isLoaded then old(kv.items)[HabitsKey := stringify(EncodeHabits(userHabits))] else old(kv.items)
    {
      if isLoaded {
        kv.SetItem(HabitsKey, stringify(EncodeHabits(userHabits)));
      }
    }

    /** The effect on `[userName, isLoaded]`. */
    method PersistProfile()
      modifies kv
      ensures kv.items == if isLoaded then old(kv.items)[ProfileKey := stringify(EncodeProfile(userName))] else old(kv.items)
    {
      if isLoaded {
        kv.SetItem(ProfileKey, stringify(EncodeProfile(userName)));
      }
    }

    /** `setData(d)` followed by its persistence effect. */
    method SetData(d: DataMap)
      requires Synced()
      modifies this, kv
      ensures data == d
      ensures userHabits == old(userHabits) && userName == old(userName) && isLoaded == old(isLoaded)
      ensures lastBackupDate == old(lastBackupDate) && showBackupWarning == old(showBackupWarning)
      ensures Synced()
      ensures kv.items == if isLoaded then old(kv.items)[DataKey := stringify(EncodeData(d))] else old(kv.items)
    {
      data := d;
      PersistData();
    }

    /** `setUserHabits(hs)` followed by its persistence effect. */
    method SetUserHabits(hs: seq<HabitDef>)
      requires Synced()
      modifies this, kv
      ensures userHabits == hs
      ensures data == old(data) && userName == old(userName) && isLoaded == old(isLoaded)
      ensures lastBackupDate == old(lastBackupDate) && showBackupWarning == old(showBackupWarning)
      ensures Synced()
      ensures kv.items == if isLoaded then old(kv.items)[HabitsKey := stringify(EncodeHabits(hs))] else old(kv.items)
    {
      userHabits := hs;
      PersistHabits();
    }

    /** `setUserName(name)` followed by its persistence effect. */
    method SetUserName(name: Json)
      requires Synced()
      modifies this, kv
      ensures userName == name
      ensures data == old(data) && userHabits == old(userHabits) && isLoaded == old(isLoaded)
      ensures lastBackupDate == old(lastBackupDate) && showBackupWarning == old(showBackupWarning)
      ensures Synced()
      ensures kv.items == if isLoaded then old(kv.items)[ProfileKey := stringify(EncodeProfile(name))] else old(kv.items)
    {
      userName := name;
      PersistProfile();
    }

    /** The initial-load effect: each key is read and adopted on its own, the
        stale-backup test runs once against `now`, and the flag is raised.
        Raising it fires the three persistence effects, which write the
        loaded values back. */
    method Load(now: int)
      requires !isLoaded
      modifies this, kv
      ensures data == LoadData(Saved(old(kv.items), DataKey), parse, old(data))
      ensures userHabits == LoadHabits(Saved(old(kv.items), HabitsKey), parse, old(userHabits))
      ensures userName == LoadName(Saved(old(kv.items), ProfileKey), parse, old(userName))
      ensures var t := LoadBackupDate(Saved(old(kv.items), BackupKey), parseDate);
        && lastBackupDate == (if t.Some? then t else old(lastBackupDate))
        && showBackupWarning == (old(showBackupWarning) || StaleBackup(t, now))
      ensures isLoaded && Synced()
      ensures kv.items == old(kv.items)
        [DataKey := stringify(EncodeData(data))]
        [HabitsKey := stringify(EncodeHabits(userHabits))]
        [ProfileKey := stringify(EncodeProfile(userName))]
    {
      ReadSaved(kv.items, now);
      isLoaded := true;
      PersistData();
      PersistHabits();
      PersistProfile();
    }

    /** The reads of the load effect, before the flag is raised. */
    method ReadSaved(items: map<string, string>, now: int)
      modifies this
      ensures data == LoadData(Saved(items, DataKey), parse, old(data))
      ensures userHabits == LoadHabits(Saved(items, HabitsKey), parse, old(userHabits))
      ensures userName == LoadName(Saved(items, ProfileKey), parse, old(userName))
      ensures var t := LoadBackupDate(Saved(items, BackupKey), parseDate);
        && lastBackupDate == (if t.Some? then t else old(lastBackupDate))
        && showBackupWarning == (old(showBackupWarning) || StaleBackup(t, now))
      ensures isLoaded == old(isLoaded)
    {
      var savedData := Saved(items, DataKey);
      var savedHabits := Saved(items, HabitsKey);
      var savedProfile := Saved(items, ProfileKey);
      var savedBackupDate := Saved(items, BackupKey);

      data := LoadData(savedData, parse, data);
      userHabits := LoadHabits(savedHabits, parse, userHabits);
      userName := LoadName(savedProfile, parse, userName);
      CheckBackupDate(savedBackupDate, now);
    }

    /** The timestamp part of the load: a valid saved date is adopted, and
        the warning is raised when it is missing, invalid or stale. */
    method CheckBackupDate(savedBackupDate: Option<string>, now: int)
      modifies this
      ensures var t := LoadBackupDate(savedBackupDate, parseDate);
        && lastBackupDate == (if t.Some? then t else old(lastBackupDate))
        && showBackupWarning == (old(showBackupWarning) || StaleBackup(t, now))
      ensures data == old(data) && userHabits == old(userHabits) && userName == old(userName)
      ensures isLoaded == old(isLoaded)
    {
      if savedBackupDate.Some? {
        var d := parseDate(savedBackupDate.value);
        if d.Some? {
          lastBackupDate := d;
          if now - d.value > SevenDaysMs {
            showBackupWarning := true;
          }
        } else {
          showBackupWarning := true;
        }
      } else {
        showBackupWarning := true;
      }
    }

    // ---------------------------------------------------------- entries

    /** `updateEntry(patch)` on the current date, and `updateDayData(date,
        patch)`: the mood buttons, the notes fields and the task and habit
        actions below all go through it. */
    method UpdateDayData(date: string, patch: Entry)
      requires Synced()
      modifies this, kv
      ensures data == MergeInto(old(data), date, patch)
      ensures userHabits == old(userHabits) && userName == old(userName) && isLoaded == old(isLoaded)
      ensures lastBackupDate == old(lastBackupDate) && showBackupWarning == old(showBackupWarning)
      ensures Synced()
      ensures kv.items == if isLoaded then old(kv.items)[DataKey := stringify(EncodeData(data))] else old(kv.items)
    {
      SetData(MergeInto(data, date, patch));
    }

    method ToggleHabit(date: string, habitId: string)
      requires Synced()
      modifies this, kv
      ensures data == Entries.ToggleHabit(old(data), date, habitId)
      ensures userHabits == old(userHabits) && userName == old(userName) && isLoaded == old(isLoaded)
      ensures lastBackupDate == old(lastBackupDate) && showBackupWarning == old(showBackupWarning)
      ensures Synced()
      ensures kv.items == if isLoaded then old(kv.items)[DataKey := stringify(EncodeData(data))] else old(kv.items)
    {
      var currentHabits := HabitsOf(CurrentEntry(data, date));
      UpdateDayData(date, HabitsPatch(ToggledHabits(currentHabits, habitId)));
    }

    /** `addTask(text)`, with `now` the `Date.now()` reading. */
    method AddTask(date: string, text: string, now: int)
      requires Synced()
      modifies this, kv
      ensures data == Entries.AddTask(old(data), date, text, now)
      ensures userHabits == old(userHabits) && userName == old(userName) && isLoaded == old(isLoaded)
      ensures lastBackupDate == old(lastBackupDate) && showBackupWarning == old(showBackupWarning)
      ensures Synced()
      ensures IsBlank(text) ==> kv.items == old(kv.items)
      ensures !IsBlank(text) ==>
        kv.items == if isLoaded then old(kv.items)[DataKey := stringify(EncodeData(data))] else old(kv.items)
    {
      if IsBlank(text) {
        return;
      }
      var currentTasks := TasksOf(CurrentEntry(data, date));
      UpdateDayData(date, TasksPatch([Task(now, text, false)] + currentTasks));
    }

    /** `toggleTask(id)`: flip on a mapped copy, sort that copy in place,
        store it. */
    method ToggleTask(date: string, taskId: int)
      requires Synced()
      modifies this, kv
      ensures data == Entries.ToggleTask(old(data), date, taskId)
      ensures userHabits == old(userHabits) && userName == old(userName) && isLoaded == old(isLoaded)
      ensures lastBackupDate == old(lastBackupDate) && showBackupWarning == old(showBackupWarning)
      ensures Synced()
      ensures kv.items == if isLoaded then old(kv.items)[DataKey := stringify(EncodeData(data))] else old(kv.items)
    {
      var currentTasks := TasksOf(CurrentEntry(data, date));
      var mapped := FlipTask(currentTasks, taskId);
      var updatedTasks := new Task[|mapped|](k requires 0 <= k < |mapped| => mapped[k]);
      assert updatedTasks[..] == mapped;
      SortTasks(updatedTasks);
      UpdateDayData(date, TasksPatch(updatedTasks[..]));
    }

    method DeleteTask(date: string, taskId: int)
      requires Synced()
      modifies this, kv
      ensures data == Entries.DeleteTask(old(data), date, taskId)
      ensures userHabits == old(userHabits) && userName == old(userName) && isLoaded == old(isLoaded)
      ensures lastBackupDate == old(lastBackupDate) && showBackupWarning == old(showBackupWarning)
      ensures Synced()
      ensures kv.items == if isLoaded then old(kv.items)[DataKey := stringify(EncodeData(data))] else old(kv.items)
    {
      var currentTasks := TasksOf(CurrentEntry(data, date));
      UpdateDayData(date, TasksPatch(RemoveTask(currentTasks, taskId)));
    }

    // ----------------------------------------------------------- habits

    /** `moveHabit(index, direction)`: swap on a copied array. The settings
        list passes the row index, so it is in range. */
    method MoveHabit(index: nat, direction: string)
      requires Synced() && index < |userHabits|
      modifies this, kv
      ensures userHabits == Moved(old(userHabits), index, direction)
      ensures data == old(data) && userName == old(userName) && isLoaded == old(isLoaded)
      ensures lastBackupDate == old(lastBackupDate) && showBackupWarning == old(showBackupWarning)
      ensures Synced()
      ensures kv.items == if isLoaded then old(kv.items)[HabitsKey := stringify(EncodeHabits(userHabits))] else old(kv.items)
    {
      var current := userHabits;
      var newHabits := new HabitDef[|current|](k requires 0 <= k < |current| => current[k]);
      if direction == "up" && index > 0 {
        newHabits[index], newHabits[index - 1] := newHabits[index - 1], newHabits[index];
      } else if direction == "down" && index < newHabits.Length - 1 {
        newHabits[index], newHabits[index + 1] := newHabits[index + 1], newHabits[index];
      }
      SetUserHabits(newHabits[..]);
    }

    /** `saveHabit()`, with the form's name, icon and edited id passed in and
        `now` the `Date.now()` reading. */
    method SaveHabit(name: string, icon: string, editingId: Option<string>, now: nat)
      requires Synced()
      modifies this, kv
      ensures userHabits == Habits.SaveHabit(old(userHabits), name, icon, editingId, now)
      ensures data == old(data) && userName == old(userName) && isLoaded == old(isLoaded)
      ensures lastBackupDate == old(lastBackupDate) && showBackupWarning == old(showBackupWarning)
      ensures Synced()
      ensures IsBlank(name) ==> kv.items == old(kv.items)
      ensures !IsBlank(name) ==>
        kv.items == if isLoaded then old(kv.items)[HabitsKey := stringify(EncodeHabits(userHabits))] else old(kv.items)
    {
      var updated := Habits.SaveHabit(userHabits, name, icon, editingId, now);
      if IsBlank(name) {
        SaveHabitBlankIsNoop(userHabits, name, icon, editingId, now);
      } else {
        SetUserHabits(updated);
      }
    }

    /** `deleteHabitSafe(id)`, with the answer to the confirmation dialog
        passed in. Past completion flags under the id stay in `data`. */
    method DeleteHabit(habitId: string, confirmed: bool)
      requires Synced()
      modifies this, kv
      ensures userHabits == if confirmed then RemoveHabit(old(userHabits), habitId) else old(userHabits)
      ensures data == old(data) && userName == old(userName) && isLoaded == old(isLoaded)
      ensures lastBackupDate == old(lastBackupDate) && showBackupWarning == old(showBackupWarning)
      ensures Synced()
      ensures !confirmed ==> kv.items == old(kv.items)
      ensures confirmed ==>
        kv.items == if isLoaded then old(kv.items)[HabitsKey := stringify(EncodeHabits(userHabits))] else old(kv.items)
    {
      if confirmed {
        SetUserHabits(RemoveHabit(userHabits, habitId));
      }
    }

    // ------------------------------------------------ profile and backup

    /** The display-name field: stored verbatim, empty allowed. */
    method SetProfileName(name: string)
      requires Synced()
      modifies this, kv
      ensures userName == Str(name)
      ensures data == old(data) && userHabits == old(userHabits) && isLoaded == old(isLoaded)
      ensures lastBackupDate == old(lastBackupDate) && showBackupWarning == old(showBackupWarning)
      ensures Synced()
      ensures kv.items == if isLoaded then old(kv.items)[ProfileKey := stringify(EncodeProfile(userName))] else old(kv.items)
    {
      SetUserName(Str(name));
    }

    /** The close button of the stale-backup banner. */
    method DismissBackupWarning()
      requires Synced()
      modifies this
      ensures !showBackupWarning
      ensures data == old(data) && userHabits == old(userHabits) && userName == old(userName)
      ensures isLoaded == old(isLoaded) && lastBackupDate == old(lastBackupDate)
      ensures Synced()
    {
      showBackupWarning := false;
    }

    /** `handleExport()`: the document handed to the download, and the
        recorded backup time. `generated` and `nowIso` are the two
        `toISOString()` readings, `nowMs` the second one's clock value. The
        timestamp write is not behind the loaded flag. */
    method Export(generated: string, nowMs: int, nowIso: string) returns (backup: Json)
      requires Synced()
      modifies this, kv
      ensures backup == ExportRecord(data, userHabits, userName, generated)
      ensures lastBackupDate == Some(nowMs) && !showBackupWarning
      ensures data == old(data) && userHabits == old(userHabits) && userName == old(userName)
      ensures isLoaded == old(isLoaded)
      ensures kv.items == old(kv.items)[BackupKey := nowIso]
      ensures Synced()
    {
      backup := ExportRecord(data, userHabits, userName, generated);
      lastBackupDate := Some(nowMs);
      kv.SetItem(BackupKey, nowIso);
      showBackupWarning := false;
    }

    /** The reader callback of `handleFileChange`, given what `JSON.parse`
        made of the file (`None` when it threw). */
    method ImportBackup(parsed: Option<Json>) returns (outcome: ImportOutcome)
      requires Synced()
      modifies this, kv
      ensures outcome == InvalidFile <==> parsed.None? || ImportFields(parsed.value).None?
      ensures outcome == InvalidFile ==>
        && data == old(data) && userHabits == old(userHabits) && userName == old(userName)
        && kv.items == old(kv.items)
      ensures outcome == Restored ==>
        var a := ImportFields(parsed.value).value;
        && data == a.data.GetOr(old(data))
        && userHabits == a.habits.GetOr(old(userHabits))
        && userName == a.name.GetOr(old(userName))
      ensures isLoaded == old(isLoaded)
      ensures lastBackupDate == old(lastBackupDate) && showBackupWarning == old(showBackupWarning)
      ensures Synced()
      ensures !isLoaded ==> kv.items == old(kv.items)
      ensures isLoaded ==> kv.items == old(kv.items)
        [DataKey := stringify(EncodeData(data))]
        [HabitsKey := stringify(EncodeHabits(userHabits))]
        [ProfileKey := stringify(EncodeProfile(userName))]
    {
      if parsed.None? {
        return InvalidFile;
      }
      var fields := ImportFields(parsed.value);
      if fields.None? {
        return InvalidFile;
      }
      var a := fields.value;
      AdoptData(a.data);
      AdoptHabits(a.habits);
      AdoptName(a.name);
      return Restored;
    }

    /** `if (check) setData(value)` of the import. When nothing is adopted
        the key already holds the current value. */
    method AdoptData(d: Option<DataMap>)
      requires Synced()
      modifies this, kv
      ensures data == d.GetOr(old(data))
      ensures userHabits == old(userHabits) && userName == old(userName) && isLoaded == old(isLoaded)
      ensures lastBackupDate == old(lastBackupDate) && showBackupWarning == old(showBackupWarning)
      ensures Synced()
      ensures d.None? ==> kv.items == old(kv.items)
      ensures kv.items == if isLoaded then old(kv.items)[DataKey := stringify(EncodeData(data))] else old(kv.items)
    {
      if d.Some? {
        SetData(d.value);
      } else {
        assert isLoaded ==> kv.items == kv.items[DataKey := stringify(EncodeData(data))];
      }
    }

    method AdoptHabits(hs: Option<seq<HabitDef>>)
      requires Synced()
      modifies this, kv
      ensures userHabits == hs.GetOr(old(userHabits))
      ensures data == old(data) && userName == old(userName) && isLoaded == old(isLoaded)
      ensures lastBackupDate == old(lastBackupDate) && showBackupWarning == old(showBackupWarning)
      ensures Synced()
      ensures hs.None? ==> kv.items == old(kv.items)
      ensures kv.items == if isLoaded then old(kv.items)[HabitsKey := stringify(EncodeHabits(userHabits))] else old(kv.items)
    {
      if hs.Some? {
        SetUserHabits(hs.value);
      } else {
        assert isLoaded ==> kv.items == kv.items[HabitsKey := stringify(EncodeHabits(userHabits))];
      }
    }

    method AdoptName(name: Option<Json>)
      requires Synced()
      modifies this, kv
      ensures userName == name.GetOr(old(userName))
      ensures data == old(data) && userHabits == old(userHabits) && isLoaded == old(isLoaded)
      ensures lastBackupDate == old(lastBackupDate) && showBackupWarning == old(showBackupWarning)
      ensures Synced()
      ensures name.None? ==> kv.items == old(kv.items)
      ensures kv.items == if isLoaded then old(kv.items)[ProfileKey := stringify(EncodeProfile(userName))] else old(kv.items)
    {
      if name.Some? {
        SetUserName(name.value);
      } else {
        assert isLoaded ==> kv.items == kv.items[ProfileKey := stringify(EncodeProfile(userName))];
      }
    }
  }
}
