/** The persisted entities of the training log, as the app stores them. Class,
    mode and difficulty are kept as the free strings the app writes and reads
    (the exercise form offers Push/Pull/Legs/Core; the difficulty buttons carry
    Easy/OK/Hard), since nothing in the app enforces them. */
module Records {
  import opened Common

  /** `{id, name, class, mode, archived}`; `class` is spelled `cls` here. */
  datatype Exercise = Exercise(id: string, name: string, cls: string, mode: string, archived: bool)

  /** A training plan: a title and an ordered list of exercise ids. */
  datatype Training = Training(id: string, title: string, exerciseIds: seq<string>)

  /** The four rotation slots. A slot missing from the stored object (for
      instance when the rotation falls back to `{}`) is None (`undefined`). */
  datatype Rotation = Rotation(t1: Option<string>, t2: Option<string>, t3: Option<string>, t4: Option<string>)

  /** One saved result of an exercise. */
  datatype Log = Log(id: string, date: string, trainingId: string, exerciseId: string, load: string, difficulty: string)

  /** The seed marker `{version, createdAt}`; fields absent from `{}` are None. */
  datatype Meta = Meta(version: Option<int>, createdAt: Option<string>)

  const EmptyRotation := Rotation(None, None, None, None)
  const EmptyMeta := Meta(None, None)

  function TrainingIds(ts: seq<Training>): (r: seq<string>)
    ensures |r| == |ts| && forall i | 0 <= i < |ts| :: r[i] == ts[i].id
  {
    seq(|ts|, i requires 0 <= i < |ts| => ts[i].id)
  }

  function ExerciseIds(exs: seq<Exercise>): (r: seq<string>)
    ensures |r| == |exs| && forall i | 0 <= i < |exs| :: r[i] == exs[i].id
  {
    seq(|exs|, i requires 0 <= i < |exs| => exs[i].id)
  }

  /** `trainings.find(x => x.id === id)`; an undefined id (None) matches nothing. */
  function FindTraining(ts: seq<Training>, id: Option<string>): (r: Option<Training>)
    ensures r.None? <==> (id.None? || id.value !in TrainingIds(ts))
    ensures r.Some? ==> exists i | 0 <= i < |ts| :: ts[i] == r.value && ts[i].id == id.value
                         && forall j | 0 <= j < i :: ts[j].id != id.value
  {
    if id.None? then None
    else match FirstIndexOf(TrainingIds(ts), id.value)
      case None => None
      case Some(i) =>
        assert forall j | 0 <= j < i :: TrainingIds(ts)[j] in TrainingIds(ts)[..i];
        Some(ts[i])
  }

  /** `getExercise(id)`: `exercises.find(e => e.id === id)`. */
  function FindExercise(exs: seq<Exercise>, id: string): (r: Option<Exercise>)
    ensures r.None? <==> id !in ExerciseIds(exs)
    ensures r.Some? ==> exists i | 0 <= i < |exs| :: exs[i] == r.value && exs[i].id == id
                         && forall j | 0 <= j < i :: exs[j].id != id
  {
    match FirstIndexOf(ExerciseIds(exs), id)
    case None => None
    case Some(i) =>
      assert forall j | 0 <= j < i :: ExerciseIds(exs)[j] in ExerciseIds(exs)[..i];
      Some(exs[i])
  }
}
