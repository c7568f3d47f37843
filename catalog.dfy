/** The record edits behind the training and exercise screens. Each handler in
    the app loads the whole list, changes one record in place (or filters or
    appends), and saves the list back; the record-level changes are here, the
    load/save around them is in `Storage.Store`. */
module Catalog {
  import opened Common
  import opened JsString
  import opened Records

  // ---- trainings ----

  /** `if (!t.exerciseIds.includes(addId)) t.exerciseIds.push(addId)`. */
  function WithExercise(t: Training, addId: string): (r: Training)
    ensures r.id == t.id && r.title == t.title
    ensures addId in r.exerciseIds
    ensures addId in t.exerciseIds ==> r == t
    ensures addId !in t.exerciseIds ==> r.exerciseIds == t.exerciseIds + [addId]
  {
    if addId in t.exerciseIds then t else t.(exerciseIds := t.exerciseIds + [addId])
  }

  /** Adding never introduces a duplicate, so a plan without duplicates keeps
      that convention. */
  lemma WithExerciseKeepsNoDuplicates(t: Training, addId: string)
    requires NoDuplicates(t.exerciseIds)
    ensures NoDuplicates(WithExercise(t, addId).exerciseIds)
  {
    var s := WithExercise(t, addId).exerciseIds;
    if addId !in t.exerciseIds {
      forall i, j | 0 <= i < j < |s| ensures s[i] != s[j] {
        if j == |s| - 1 {
          assert s[i] == t.exerciseIds[i];
        }
      }
    }
  }

  /** Adding the same exercise a second time changes nothing. */
  lemma WithExerciseIdempotent(t: Training, addId: string)
    ensures WithExercise(WithExercise(t, addId), addId) == WithExercise(t, addId)
  {
  }

  /** `t.title = titleInput.value.trim() || t.title`. */
  function Retitled(t: Training, titleInput: string): (r: Training)
    ensures r.id == t.id && r.exerciseIds == t.exerciseIds
    ensures Blank(titleInput) ==> r == t
    ensures !Blank(titleInput) ==> r.title == Trim(titleInput)
  {
    t.(title := TrimmedOr(titleInput, t.title))
  }

  /** `trainings.filter(x => x.id !== id)`. */
  function WithoutTraining(ts: seq<Training>, id: string): (r: seq<Training>)
    ensures |r| <= |ts|
    ensures forall t | t in r :: t in ts && t.id != id
    ensures forall t | t in ts && t.id != id :: t in r
    ensures (forall t | t in ts :: t.id != id) ==> r == ts
  {
    if ts == [] then []
    else
      var rest := WithoutTraining(ts[1..], id);
      assert forall t | t in ts[1..] :: t in ts;
      assert forall t | t in ts :: t == ts[0] || t in ts[1..];
      if ts[0].id == id then rest
      else
        assert ts == [ts[0]] + ts[1..];
        [ts[0]] + rest
  }

  /** The filter keeps the relative order of what it keeps: filtering a
      concatenation is the concatenation of the filtered parts. */
  lemma {:induction false} WithoutTrainingDistributes(a: seq<Training>, b: seq<Training>, id: string)
    ensures WithoutTraining(a + b, id) == WithoutTraining(a, id) + WithoutTraining(b, id)
  {
    if a == [] {
      assert a + b == b;
    } else {
      assert (a + b)[1..] == a[1..] + b;
      WithoutTrainingDistributes(a[1..], b, id);
    }
  }

  /** Deleting twice is deleting once. */
  lemma WithoutTrainingIdempotent(ts: seq<Training>, id: string)
    ensures WithoutTraining(WithoutTraining(ts, id), id) == WithoutTraining(ts, id)
  {
  }

  /** The record the create button appends: id `"tr_" + Date.now()`, the
      trimmed title, no exercises yet. */
  function NewTraining(nowMs: int, title: string): (r: Training)
    ensures r.title == title && r.exerciseIds == []
    ensures r.id == "tr_" + IntToString(nowMs)
  {
    Training("tr_" + IntToString(nowMs), title, [])
  }

  // ---- exercises ----

  /** `ex.name = name || ex.name; ex.class = cls` with `name` the trimmed input. */
  function Edited(ex: Exercise, nameInput: string, cls: string): (r: Exercise)
    ensures r.id == ex.id && r.mode == ex.mode && r.archived == ex.archived
    ensures r.cls == cls
    ensures Blank(nameInput) ==> r.name == ex.name
    ensures !Blank(nameInput) ==> r.name == Trim(nameInput)
  {
    ex.(name := TrimmedOr(nameInput, ex.name), cls := cls)
  }

  /** `ex.archived = !ex.archived`. */
  function ArchiveToggled(ex: Exercise): (r: Exercise)
    ensures r.id == ex.id && r.name == ex.name && r.cls == ex.cls && r.mode == ex.mode
    ensures r.archived != ex.archived
  {
    ex.(archived := !ex.archived)
  }

  /** Toggling twice restores the exercise. */
  lemma ArchiveToggledTwice(ex: Exercise)
    ensures ArchiveToggled(ArchiveToggled(ex)) == ex
  {
  }

  /** The record the create button appends: id `"ex_" + Date.now()`, mode
      `custom`, not archived. */
  function NewExercise(nowMs: int, name: string, cls: string): (r: Exercise)
    ensures r.id == "ex_" + IntToString(nowMs)
    ensures r.name == name && r.cls == cls && r.mode == "custom" && !r.archived
  {
    Exercise("ex_" + IntToString(nowMs), name, cls, "custom", false)
  }
}
