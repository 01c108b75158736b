/** The global, user-ordered list of habit definitions and the list
    operations the settings dialog performs on it. */
module Habits {
  import opened Json
  import opened Seqs
  import opened Text

  datatype HabitDef = HabitDef(id: string, name: string, icon: string)

  /** The icon a new habit gets when none was chosen. */
  const FallbackIcon: string := "\U{2728}"

  /** The starter set used until a saved list is loaded. */
  function DefaultHabits(): seq<HabitDef> {
    [ HabitDef("h1", "Book Reading", "\U{1F4D6}"),
      HabitDef("h2", "Exercise", "\U{1F4AA}"),
      HabitDef("h3", "Meditation", "\U{1F9D8}"),
      HabitDef("h4", "No Reels", "\U{1F4F1}"),
      HabitDef("h5", "No Added Sugar", "\U{1F957}") ]
  }

  // ------------------------------------------------------------- moveHabit

  /** `moveHabit(index, direction)`: on a copy, 'up' swaps with the previous
      element and 'down' with the next one, when there is one; anything else
      leaves the copy as it was. */
  function Moved(s: seq<HabitDef>, index: nat, direction: string): (r: seq<HabitDef>)
    requires index < |s|
    ensures |r| == |s|
    ensures multiset(r) == multiset(s)
  {
    if direction == "up" && index > 0 then
      s[index := s[index - 1]][index - 1 := s[index]]
    else if direction == "down" && index < |s| - 1 then
      s[index := s[index + 1]][index + 1 := s[index]]
    else s
  }

  /** Moving up swaps the element with its predecessor and touches nothing
      else. */
  lemma {:induction false} MoveUpSwaps(s: seq<HabitDef>, index: nat)
    requires 0 < index < |s|
    ensures var r := Moved(s, index, "up");
      && r[index - 1] == s[index] && r[index] == s[index - 1]
      && forall k :: 0 <= k < |s| && k != index && k != index - 1 ==> r[k] == s[k]
  {
  }

  /** Moving down swaps the element with its successor and touches nothing
      else. */
  lemma {:induction false} MoveDownSwaps(s: seq<HabitDef>, index: nat)
    requires index < |s| - 1
    ensures var r := Moved(s, index, "down");
      && r[index + 1] == s[index] && r[index] == s[index + 1]
      && forall k :: 0 <= k < |s| && k != index && k != index + 1 ==> r[k] == s[k]
  {
  }

  /** The first element cannot move up, the last cannot move down, and any
      other direction does nothing. */
  lemma {:induction false} MoveAtBoundaryIsNoop(s: seq<HabitDef>, index: nat, direction: string)
    requires index < |s|
    requires (direction == "up" && index == 0)
          || (direction == "down" && index == |s| - 1)
          || (direction != "up" && direction != "down")
    ensures Moved(s, index, direction) == s
  {
  }

  /** Moving an element up and then moving it back down restores the list. */
  lemma {:induction false} MoveUpThenDown(s: seq<HabitDef>, index: nat)
    requires 0 < index < |s|
    ensures Moved(Moved(s, index, "up"), index - 1, "down") == s
  {
    var u := Moved(s, index, "up");
    MoveUpSwaps(s, index);
    MoveDownSwaps(u, index - 1);
    var r := Moved(u, index - 1, "down");
    assert |r| == |s|;
    forall k | 0 <= k < |s|
      ensures r[k] == s[k]
    {
      if k != index && k != index - 1 {
        assert r[k] == u[k];
      }
    }
  }

  // ------------------------------------------------------------- saveHabit

  /** `saveHabit`. A blank name changes nothing. With a (truthy) id being
      edited, every definition carrying that id gets the name and icon as
      typed, even an empty icon. Otherwise a new definition, id
      `Date.now().toString()`, goes in front; an empty icon falls back to
      the sparkles glyph. Blankness is judged on the trimmed name; the name is
      stored as typed. */
  function SaveHabit(habits: seq<HabitDef>, name: string, icon: string, editingId: Option<string>, now: nat): seq<HabitDef> {
    if IsBlank(name) then habits
    else if editingId.Some? && editingId.value != "" then
      seq(|habits|, k requires 0 <= k < |habits| =>
        if habits[k].id == editingId.value then habits[k].(name := name, icon := icon) else habits[k])
    else
      [HabitDef(NatToString(now), name, if icon == "" then FallbackIcon else icon)] + habits
  }

  lemma {:induction false} SaveHabitBlankIsNoop(habits: seq<HabitDef>, name: string, icon: string, editingId: Option<string>, now: nat)
    requires IsBlank(name)
    ensures SaveHabit(habits, name, icon, editingId, now) == habits
  {
  }

  /** Editing keeps every position and every id; only the matching entries
      change, and only in name and icon. */
  lemma {:induction false} SaveHabitEdit(habits: seq<HabitDef>, name: string, icon: string, id: string, now: nat)
    requires !IsBlank(name) && id != ""
    ensures var r := SaveHabit(habits, name, icon, Some(id), now);
      && |r| == |habits|
      && (forall k :: 0 <= k < |r| ==> r[k].id == habits[k].id)
      && (forall k :: 0 <= k < |r| && habits[k].id == id ==> r[k].name == name && r[k].icon == icon)
      && (forall k :: 0 <= k < |r| && habits[k].id != id ==> r[k] == habits[k])
  {
  }

  /** Adding puts one new definition in front and keeps the rest in order. */
  lemma {:induction false} SaveHabitAdd(habits: seq<HabitDef>, name: string, icon: string, editingId: Option<string>, now: nat)
    requires !IsBlank(name)
    requires editingId.None? || editingId.value == ""
    ensures var r := SaveHabit(habits, name, icon, editingId, now);
      && |r| == |habits| + 1
      && r[1..] == habits
      && r[0].id == NatToString(now)
      && r[0].name == name
      && r[0].icon == (if icon == "" then FallbackIcon else icon)
  {
  }

  /** The id of an added habit is all digits, so it never equals one of the
      starter ids. */
  lemma {:induction false} AddedIdIsNotAStarterId(now: nat, k: nat)
    requires k < |DefaultHabits()|
    ensures NatToString(now) != DefaultHabits()[k].id
  {
    var s, d := NatToString(now), DefaultHabits()[k].id;
    assert d[0] == 'h';
    assert IsDigit(s[0]);
  }

  // ------------------------------------------------------- deleteHabitSafe

  /** `habits.filter(h => h.id !== id)`: exactly the definitions with another
      id, in their order. */
  function RemoveHabit(habits: seq<HabitDef>, id: string): (r: seq<HabitDef>)
    ensures forall k :: 0 <= k < |r| ==> r[k].id != id
    ensures forall h :: multiset(r)[h] == if h.id != id then multiset(habits)[h] else 0
    ensures IsSubsequence(r, habits)
  {
    var keep := (h: HabitDef) => h.id != id;
    FilterCounts(habits, keep);
    FilterIsSubsequence(habits, keep);
    Filter(habits, keep)
  }
}
