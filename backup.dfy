/** The backup document: the shape `handleExport` writes, the per-field
    shape checks `handleFileChange` applies, and the decoding of parsed JSON
    into the store's typed values (also used when the persisted keys are
    loaded at start-up). */
module Backup {
  import opened Json
  import opened Entries
  import opened Habits

  // ---------------------------------------------------------------- encoding

  function EncodeTask(t: Task): Json {
    Obj(map["id" := Num(t.id), "text" := Str(t.text), "completed" := Bool(t.completed)])
  }

  function EncodeTasks(ts: seq<Task>): (r: seq<Json>)
    ensures |r| == |ts|
  {
    seq(|ts|, k requires 0 <= k < |ts| => EncodeTask(ts[k]))
  }

  function EncodeFlags(h: map<string, bool>): Json {
    Obj(map k | k in h :: Bool(h[k]))
  }

  /** An entry as an object holding exactly the fields it has. */
  function EncodeEntry(e: Entry): Json {
    var m0: map<string, Json> := map[];
    var m1 := if e.tasks.Some? then m0["tasks" := Arr(EncodeTasks(e.tasks.value))] else m0;
    var m2 := if e.habits.Some? then m1["habits" := EncodeFlags(e.habits.value)] else m1;
    var m3 := if e.notes.Some? then m2["notes" := Str(e.notes.value)] else m2;
    var m4 := if e.mood.Some? then m3["mood" := Num(e.mood.value)] else m3;
    var m5 := if e.gratitude.Some? then m4["gratitude" := Str(e.gratitude.value)] else m4;
    Obj(m5)
  }

  function EncodeData(data: DataMap): Json {
    Obj(map d | d in data :: EncodeEntry(data[d]))
  }

  function EncodeHabit(h: HabitDef): Json {
    Obj(map["id" := Str(h.id), "name" := Str(h.name), "icon" := Str(h.icon)])
  }

  function EncodeHabits(hs: seq<HabitDef>): (r: Json)
    ensures r.Arr? && |r.items| == |hs|
  {
    Arr(seq(|hs|, k requires 0 <= k < |hs| => EncodeHabit(hs[k])))
  }

  /** The profile key's value and the backup's `profile` member. */
  function EncodeProfile(name: Json): Json {
    Obj(map["name" := name])
  }

  /** `{ version: 1, generated, data, habits, profile: { name } }` */
  function ExportRecord(data: DataMap, habits: seq<HabitDef>, name: Json, generated: string): Json {
    Obj(map[
      "version" := Num(1),
      "generated" := Str(generated),
      "data" := EncodeData(data),
      "habits" := EncodeHabits(habits),
      "profile" := EncodeProfile(name)])
  }

  // ---------------------------------------------------------------- decoding

  function DecodeTask(j: Json): Option<Task> {
    if j.Obj? && "id" in j.fields && "text" in j.fields && "completed" in j.fields
       && j.fields["id"].Num? && j.fields["text"].Str? && j.fields["completed"].Bool?
    then Some(Task(j.fields["id"].n, j.fields["text"].s, j.fields["completed"].b))
    else None
  }

  /** The tasks of a list that have the stored shape, in order. */
  function DecodeTasks(items: seq<Json>): seq<Task>
    decreases |items|
  {
    if |items| == 0 then []
    else
      var rest := DecodeTasks(items[1..]);
      match DecodeTask(items[0])
      case Some(t) => [t] + rest
      case None => rest
  }

  /** Completion flags are read by truthiness wherever they are used. */
  function DecodeFlags(m: map<string, Json>): map<string, bool> {
    map k | k in m :: Truthy(m[k])
  }

  function DecodeEntryFields(m: map<string, Json>): Entry {
    Entry(
      if "tasks" in m && m["tasks"].Arr? then Some(DecodeTasks(m["tasks"].items)) else None,
      if "habits" in m && m["habits"].Obj? then Some(DecodeFlags(m["habits"].fields)) else None,
      if "notes" in m && m["notes"].Str? then Some(m["notes"].s) else None,
      if "mood" in m && m["mood"].Num? then Some(m["mood"].n) else None,
      if "gratitude" in m && m["gratitude"].Str? then Some(m["gratitude"].s) else None)
  }

  /** A falsy entry reads as absent (`data[d] || default`); a truthy value
      that is not an object has none of the entry fields. */
  function DecodeEntry(j: Json): Option<Entry> {
    if !Truthy(j) then None
    else if j.Obj? then Some(DecodeEntryFields(j.fields))
    else Some(EmptyEntry())
  }

  function DecodeEntries(m: map<string, Json>): DataMap {
    map d | d in m && DecodeEntry(m[d]).Some? :: DecodeEntry(m[d]).value
  }

  /** An accepted `data` value: an object, or an array, which behaves as
      the object keyed by its indices. */
  function DecodeData(j: Json): DataMap
    requires IsTruthyObject(j)
  {
    if j.Obj? then DecodeEntries(j.fields) else DecodeEntries(IndexKeyed(j.items))
  }

  function DecodeHabit(j: Json): Option<HabitDef> {
    if j.Obj? && "id" in j.fields && "name" in j.fields && "icon" in j.fields
       && j.fields["id"].Str? && j.fields["name"].Str? && j.fields["icon"].Str?
    then Some(HabitDef(j.fields["id"].s, j.fields["name"].s, j.fields["icon"].s))
    else None
  }

  function DecodeHabits(items: seq<Json>): seq<HabitDef>
    decreases |items|
  {
    if |items| == 0 then []
    else
      var rest := DecodeHabits(items[1..]);
      match DecodeHabit(items[0])
      case Some(h) => [h] + rest
      case None => rest
  }

  // -------------------------------------------------------------- round trips

  lemma {:induction false} TasksRoundTrip(ts: seq<Task>)
    ensures DecodeTasks(EncodeTasks(ts)) == ts
    decreases |ts|
  {
    if |ts| > 0 {
      assert EncodeTasks(ts)[1..] == EncodeTasks(ts[1..]);
      TasksRoundTrip(ts[1..]);
      assert ts == [ts[0]] + ts[1..];
    }
  }

  lemma {:induction false} FlagsRoundTrip(h: map<string, bool>)
    ensures DecodeFlags(EncodeFlags(h).fields) == h
  {
    var r := DecodeFlags(EncodeFlags(h).fields);
    assert r.Keys == h.Keys;
    assert forall k :: k in h ==> r[k] == h[k];
  }

  /** The encoded entry holds a member exactly for each present field. */
  lemma {:induction false} EncodedEntryMembers(e: Entry)
    ensures var m := EncodeEntry(e).fields;
      && ("tasks" in m <==> e.tasks.Some?) && (e.tasks.Some? ==> m["tasks"] == Arr(EncodeTasks(e.tasks.value)))
      && ("habits" in m <==> e.habits.Some?) && (e.habits.Some? ==> m["habits"] == EncodeFlags(e.habits.value))
      && ("notes" in m <==> e.notes.Some?) && (e.notes.Some? ==> m["notes"] == Str(e.notes.value))
      && ("mood" in m <==> e.mood.Some?) && (e.mood.Some? ==> m["mood"] == Num(e.mood.value))
      && ("gratitude" in m <==> e.gratitude.Some?) && (e.gratitude.Some? ==> m["gratitude"] == Str(e.gratitude.value))
  {
  }

  lemma {:induction false} EntryRoundTrip(e: Entry)
    ensures DecodeEntry(EncodeEntry(e)) == Some(e)
  {
    EncodedEntryMembers(e);
    if e.tasks.Some? { TasksRoundTrip(e.tasks.value); }
    if e.habits.Some? { FlagsRoundTrip(e.habits.value); }
  }

  /** Decoding an encoded entry map gives it back. */
  lemma {:induction false} DataRoundTrip(data: DataMap)
    ensures IsTruthyObject(EncodeData(data))
    ensures DecodeData(EncodeData(data)) == data
  {
    var r := DecodeData(EncodeData(data));
    forall d | d in data ensures DecodeEntry(EncodeEntry(data[d])) == Some(data[d]) {
      EntryRoundTrip(data[d]);
    }
    assert r.Keys == data.Keys;
  }

  /** Decoding an encoded habit list gives it back. */
  lemma {:induction false} HabitsRoundTrip(hs: seq<HabitDef>)
    ensures DecodeHabits(EncodeHabits(hs).items) == hs
    decreases |hs|
  {
    if |hs| > 0 {
      assert EncodeHabits(hs).items[1..] == EncodeHabits(hs[1..]).items;
      HabitsRoundTrip(hs[1..]);
      assert hs == [hs[0]] + hs[1..];
    }
  }

  // ------------------------------------------------------------------ import

  /** What an import adopts: each field independently, `None` where the
      old value is kept. */
  datatype Adopted = Adopted(data: Option<DataMap>, habits: Option<seq<HabitDef>>, name: Option<Json>)

  /** The field checks of `handleFileChange` on a parsed document. `None`
      when reading `backup.data` throws, which happens only for `null`. */
  function ImportFields(backup: Json): Option<Adopted> {
    if backup.Null? then None
    else
      var d := Get(backup, "data");
      var h := Get(backup, "habits");
      var p := Get(backup, "profile");
      Some(Adopted(
        if d.Some? && IsTruthyObject(d.value) then Some(DecodeData(d.value)) else None,
        if TruthyProp(h) && h.value.Arr? then Some(DecodeHabits(h.value.items)) else None,
        if TruthyProp(p) && TruthyProp(Get(p.value, "name")) then Some(Get(p.value, "name").value) else None))
  }

  /** Each field is decided on its own: `data` is adopted exactly when it is
      a truthy object (arrays included), `habits` exactly when it is an
      array, the name exactly when `profile.name` is truthy. */
  lemma {:induction false} ImportDecidesEachField(backup: Json)
    requires !backup.Null?
    ensures ImportFields(backup).Some?
    ensures var a := ImportFields(backup).value;
      && (a.data.Some? <==> backup.Obj? && "data" in backup.fields && IsTruthyObject(backup.fields["data"]))
      && (a.habits.Some? <==> backup.Obj? && "habits" in backup.fields && backup.fields["habits"].Arr?)
      && (a.name.Some? <==>
            backup.Obj? && "profile" in backup.fields && backup.fields["profile"].Obj?
            && "name" in backup.fields["profile"].fields && Truthy(backup.fields["profile"].fields["name"]))
      && (a.name.Some? ==> a.name.value == backup.fields["profile"].fields["name"])
  {
  }

  /** A document whose `data` is fine but whose `habits` is not a list
      replaces the entries and keeps the habit list. */
  lemma {:induction false} ImportWithMalformedHabits(data: DataMap, habits: Json)
    requires !habits.Arr?
    ensures var a := ImportFields(Obj(map["data" := EncodeData(data), "habits" := habits])).value;
      a.data == Some(data) && a.habits.None? && a.name.None?
  {
    DataRoundTrip(data);
  }

  /** Re-importing an export restores the entries, the habit list and a
      truthy name; a falsy name (`""`) is not adopted. */
  lemma {:induction false} ExportImportRoundTrip(data: DataMap, habits: seq<HabitDef>, name: Json, generated: string)
    ensures ImportFields(ExportRecord(data, habits, name, generated))
         == Some(Adopted(Some(data), Some(habits), if Truthy(name) then Some(name) else None))
  {
    DataRoundTrip(data);
    HabitsRoundTrip(habits);
  }
}
