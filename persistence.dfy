/** The start-up load: four keys of the browser's key-value store, each
    read on its own with its own fallback, and the stale-backup test. The
    text codecs (`JSON.parse`, `new Date(text)`) are parameters. */
module Persistence {
  import opened Json
  import opened Entries
  import opened Habits
  import opened Backup

  const DataKey: string := "journal_2026_data"
  const HabitsKey: string := "journal_2026_habits"
  const ProfileKey: string := "journal_2026_profile"
  const BackupKey: string := "journal_2026_last_backup"

  /** Seven days in milliseconds. */
  const SevenDaysMs: int := 7 * 24 * 60 * 60 * 1000

  /** `localStorage.getItem(key)` followed by `if (saved)`: a missing key and
      an empty string are both skipped. */
  function Saved(items: map<string, string>, key: string): Option<string> {
    if key in items && items[key] != "" then Some(items[key]) else None
  }

  /** The entry map after loading: a saved text that parses to a truthy
      object (arrays included) replaces it; anything else keeps it. */
  function LoadData(saved: Option<string>, parse: string -> Option<Json>, current: DataMap): DataMap {
    if saved.Some? && parse(saved.value).Some? && IsTruthyObject(parse(saved.value).value)
    then DecodeData(parse(saved.value).value)
    else current
  }

  /** The habit list after loading: only a saved array replaces it. */
  function LoadHabits(saved: Option<string>, parse: string -> Option<Json>, current: seq<HabitDef>): seq<HabitDef> {
    if saved.Some? && parse(saved.value).Some? && parse(saved.value).value.Arr?
    then DecodeHabits(parse(saved.value).value.items)
    else current
  }

  /** The name after loading: `parsed.name || 'Admin'`. A parse failure, or
      a saved `null` (reading `.name` of it throws), keeps the current name. */
  function LoadName(saved: Option<string>, parse: string -> Option<Json>, current: Json): Json {
    if saved.Some? && parse(saved.value).Some? && !parse(saved.value).value.Null? then
      var v := Get(parse(saved.value).value, "name");
      if TruthyProp(v) then v.value else Str("Admin")
    else current
  }

  /** The stale-backup test: no valid timestamp, or one strictly more than
      seven days before `now` (integer milliseconds). */
  predicate StaleBackup(lastBackup: Option<int>, now: int) {
    lastBackup.None? || now - lastBackup.value > SevenDaysMs
  }

  /** The timestamp read at load: the saved text, when present and valid. */
  function LoadBackupDate(saved: Option<string>, parseDate: string -> Option<int>): (r: Option<int>)
    ensures r.Some? ==> saved.Some? && parseDate(saved.value) == r
  {
    if saved.Some? then parseDate(saved.value) else None
  }

  /** The warning is raised for a missing or invalid timestamp and for one
      older than 604 800 000 ms; exactly seven days raises none. */
  lemma {:induction false} StaleBackupBoundary(t: int)
    ensures StaleBackup(None, t)
    ensures !StaleBackup(Some(t), t + 604800000)
    ensures StaleBackup(Some(t), t + 604800001)
    ensures forall now :: StaleBackup(Some(t), now) <==> now > t + 604800000
  {
  }

  /** Once stale, a backup stays stale as time passes. */
  lemma {:induction false} StaleBackupMonotone(t: Option<int>, now: int, later: int)
    requires now <= later && StaleBackup(t, now)
    ensures StaleBackup(t, later)
  {
  }

  /** Reloading the text the store wrote for its entry map gives the map
      back, given that parsing undoes stringifying. */
  lemma {:induction false} ReloadData(data: DataMap, text: string, parse: string -> Option<Json>, current: DataMap)
    requires text != "" && parse(text) == Some(EncodeData(data))
    ensures LoadData(Some(text), parse, current) == data
  {
    DataRoundTrip(data);
  }

  lemma {:induction false} ReloadHabits(habits: seq<HabitDef>, text: string, parse: string -> Option<Json>, current: seq<HabitDef>)
    requires text != "" && parse(text) == Some(EncodeHabits(habits))
    ensures LoadHabits(Some(text), parse, current) == habits
  {
    HabitsRoundTrip(habits);
  }

  /** Reloading the profile key restores a truthy name; a name cleared to
      `""` comes back as "Admin". */
  lemma {:induction false} ReloadName(name: Json, text: string, parse: string -> Option<Json>, current: Json)
    requires text != "" && parse(text) == Some(EncodeProfile(name))
    ensures LoadName(Some(text), parse, current) == if Truthy(name) then name else Str("Admin")
  {
  }

  /** A saved key that does not parse, or parses to a value of the wrong
      shape, is skipped: the value it would have replaced stays. For the
      entry map that is anything but an object or an array, for the habit
      list anything but an array, for the profile a `null`. */
  lemma {:induction false} BadKeyKeepsValue(text: string, parse: string -> Option<Json>, d: DataMap, h: seq<HabitDef>, n: Json)
    ensures (parse(text).None? || !IsTruthyObject(parse(text).value)) ==> LoadData(Some(text), parse, d) == d
    ensures (parse(text).None? || !parse(text).value.Arr?) ==> LoadHabits(Some(text), parse, h) == h
    ensures (parse(text).None? || parse(text).value.Null?) ==> LoadName(Some(text), parse, n) == n
  {
  }

  /** A saved key that parses to the right shape is adopted, whatever the
      current value: the three skips above are the only ones. */
  lemma {:induction false} GoodKeyReplacesValue(text: string, parse: string -> Option<Json>, d: DataMap, d2: DataMap, h: seq<HabitDef>, h2: seq<HabitDef>, n: Json, n2: Json)
    requires parse(text).Some?
    ensures IsTruthyObject(parse(text).value) ==> LoadData(Some(text), parse, d) == LoadData(Some(text), parse, d2)
    ensures parse(text).value.Arr? ==> LoadHabits(Some(text), parse, h) == LoadHabits(Some(text), parse, h2)
    ensures !parse(text).value.Null? ==> LoadName(Some(text), parse, n) == LoadName(Some(text), parse, n2)
  {
  }
}
