/** The training session: starting a plan, opening one of its exercises, the
    save-and-next handler that logs a result and takes the exercise off the
    queue, and ending the session. Clock readings (`Date.now()` and
    `new Date().toISOString()`) are parameters. */
module Session {
  import opened Common
  import opened JsString
  import opened Records
  import opened Storage
  import opened LogQuery
  import opened Difficulty

  /** One row of the session summary: `{name, load, difficulty}`. */
  datatype ResultRow = ResultRow(name: string, load: string, difficulty: string)

  /** `const idx = queue.indexOf(x); if (idx >= 0) queue.splice(idx, 1)`: the
      first occurrence of `x` goes, everything else stays in order. */
  function RemoveFirst(q: seq<string>, x: string): (r: seq<string>)
    ensures x !in q ==> r == q
    ensures x in q ==> |r| == |q| - 1 && multiset(r) == multiset(q) - multiset{x}
    ensures x in q ==> exists i | 0 <= i < |q| :: q[i] == x && x !in q[..i] && r == q[..i] + q[i + 1..]
  {
    match FirstIndexOf(q, x)
    case None => q
    case Some(i) =>
      assert q == q[..i] + [x] + q[i + 1..];
      q[..i] + q[i + 1..]
  }

  /** A save empties the queue, so the summary appears, exactly when the
      queue held nothing but that one exercise (or was already empty). */
  lemma RemoveFirstEmpties(q: seq<string>, x: string)
    ensures RemoveFirst(q, x) == [] <==> (q == [] || q == [x])
  {
    if x in q && |q| == 1 {
      assert q[0] == x;
    }
  }

  /** The queue after the exercises of `order` are saved one after another. */
  function RemoveAll(q: seq<string>, order: seq<string>): seq<string>
    decreases |order|
  {
    if order == [] then q else RemoveAll(RemoveFirst(q, order[0]), order[1..])
  }

  /** Saving every queued exercise once, in whatever order, leaves the
      queue empty: the session reaches "all done". */
  lemma {:induction false} DrainQueue(q: seq<string>, order: seq<string>)
    requires multiset(order) == multiset(q)
    ensures RemoveAll(q, order) == []
    decreases |order|
  {
    if order == [] {
      assert |multiset(q)| == 0;
    } else {
      var x := order[0];
      assert order == [x] + order[1..];
      assert multiset(order) == multiset{x} + multiset(order[1..]);
      assert x in multiset(q);
      DrainQueue(RemoveFirst(q, x), order[1..]);
    }
  }

  /** Saving an exercise and opening it again proposes what was saved: the
      new log is the exercise's latest, its trimmed load fills the input
      again and saving it once more stores the same load, and the row reads
      back its difficulty when a button carries it ("OK" otherwise). */
  lemma ReopenProposesLastSave(logs: seq<Log>, log: Log, values: seq<string>, loadInput: string)
    requires log.load == Trim(loadInput)
    ensures Latest(logs + [log], log.exerciseId) == Some(log)
    ensures Trim(log.load) == log.load
    ensures SelectedValue(values, Preselected(values, log.difficulty))
      == if log.difficulty != "" && log.difficulty in values then log.difficulty else "OK"
  {
    LatestAfterAppend(logs, log, log.exerciseId);
    TrimIdempotent(loadInput);
    PreselectReadsBack(values, log.difficulty);
  }

  /** `state.session`: the plan being trained, its remaining exercises and
      the summary rows so far. */
  class TrainingSession {
    const trainingId: string
    var exerciseQueue: seq<string>
    /** Set up empty and never filled by the app. */
    const done: seq<string>
    const startedAt: string
    var results: seq<ResultRow>

    constructor (trainingId: string, queue: seq<string>, startedAt: string)
      ensures this.trainingId == trainingId && exerciseQueue == queue
      ensures done == [] && this.startedAt == startedAt && results == []
    {
      this.trainingId := trainingId;
      exerciseQueue := queue;
      done := [];
      this.startedAt := startedAt;
      results := [];
    }

    /** "All done": `exerciseQueue.length === 0`. */
    predicate AllDone()
      reads this
      ensures AllDone() <==> forall x :: x !in exerciseQueue
    {
      assert exerciseQueue != [] ==> exerciseQueue[0] in exerciseQueue;
      |exerciseQueue| == 0
    }
  }

  /** The app's global `state`, with the store and the difficulty row it
      works on and the form fields its handlers read. */
  class App {
    const store: Store
    const row: DifficultyRow
    var session: TrainingSession?
    var currentExerciseId: Option<string>
    /** The exercise screen's heading. */
    var exerciseTitle: string
    /** The load input field's text. */
    var loadInput: string
    var restStartTs: Option<int>
    var restTimerRunning: bool

    ghost predicate Valid() {
      row.Valid()
    }

    constructor (store: Store, row: DifficultyRow)
      requires row.Valid()
      ensures Valid() && this.store == store && this.row == row
      ensures session == null && currentExerciseId == None && exerciseTitle == ""
      ensures loadInput == "" && restStartTs == None && !restTimerRunning
    {
      this.store := store;
      this.row := row;
      session := null;
      currentExerciseId := None;
      exerciseTitle := "";
      loadInput := "";
      restStartTs := None;
      restTimerRunning := false;
    }

    /** `startRestTimer()`: the rest timer restarts from `nowMs`. */
    method StartRestTimer(nowMs: int)
      modifies this
      ensures restStartTs == Some(nowMs) && restTimerRunning
      ensures session == old(session) && currentExerciseId == old(currentExerciseId)
      ensures exerciseTitle == old(exerciseTitle) && loadInput == old(loadInput)
    {
      restStartTs := Some(nowMs);
      restTimerRunning := true;
    }

    /** `startSession(trainingId)`. An id that names no stored training is
        reported and changes nothing; otherwise a new session gets a copy of
        the plan's exercise ids, in order, and the rest timer starts. The
        handler's own `restStartTs = Date.now()` is overwritten at once by
        `startRestTimer`, so only that last reading, `nowMs`, remains. */
    method StartSession(trainingId: Option<string>, nowMs: int, nowIso: string) returns (found: bool)
      modifies this
      ensures var t := FindTraining(LoadedTrainings(store.Data()), trainingId);
        && (found <==> t.Some?)
        && (!found ==> unchanged(this))
        && (found ==>
             && session != null && fresh(session)
             && session.trainingId == trainingId.value && session.trainingId == t.value.id
             && session.exerciseQueue == t.value.exerciseIds
             && session.done == [] && session.results == [] && session.startedAt == nowIso
             && restStartTs == Some(nowMs) && restTimerRunning
             && currentExerciseId == old(currentExerciseId)
             && exerciseTitle == old(exerciseTitle) && loadInput == old(loadInput))
    {
      var t := FindTraining(LoadJSON(store.trainings, []), trainingId);
      if t.None? {
        return false;
      }
      session := new TrainingSession(trainingId.value, t.value.exerciseIds, nowIso);
      StartRestTimer(nowMs);
      found := true;
    }

    /** `openExercise(exId)`: the heading shows the exercise's name ("Übung"
        for an unknown id), and the load input and the difficulty row are
        filled from the exercise's latest log (empty and unselected when
        there is none). */
    method OpenExercise(exId: string)
      requires Valid()
      modifies this, row.selected
      ensures currentExerciseId == Some(exId)
      ensures exerciseTitle == match FindExercise(LoadedExercises(store.Data()), exId)
        case Some(ex) => ex.name
        case None => "\U{00DC}bung"
      ensures var last := Latest(LoadedLogs(store.Data()), exId);
        && loadInput == (if last.Some? then last.value.load else "")
        && row.selected[..] == Preselected(row.values, if last.Some? then last.value.difficulty else "")
      ensures session == old(session) && restStartTs == old(restStartTs)
      ensures restTimerRunning == old(restTimerRunning)
    {
      currentExerciseId := Some(exId);
      var ex := FindExercise(LoadJSON(store.exercises, []), exId);
      exerciseTitle := if ex.Some? then ex.value.name else "\U{00DC}bung";
      var last := LastLogForExercise(store, exId);
      LastForIsLatest(LoadedLogs(store.Data()), exId, last);
      loadInput := if last.Some? then last.value.load else "";
      row.Preselect(if last.Some? then last.value.difficulty else "");
    }

    /** The save-and-next handler. One log is appended with the session's
        training, the current exercise, the trimmed load and the row's
        difficulty ("OK" when none is selected); the first occurrence of the
        exercise leaves the queue (none, when it is no longer there); the
        summary gains one row; the rest timer restarts. The handler reads the
        clock three times: `logMs` for the log id, `nowIso` for its date and
        `timerMs` when the rest timer restarts. */
    method SaveAndNext(logMs: int, nowIso: string, timerMs: int)
      requires Valid() && session != null && currentExerciseId.Some?
      modifies this, session, store
      ensures session == old(session) && currentExerciseId == old(currentExerciseId)
      ensures exerciseTitle == old(exerciseTitle) && loadInput == old(loadInput)
      ensures restStartTs == Some(timerMs) && restTimerRunning
      ensures session.AllDone() <==> (old(session.exerciseQueue) == [] || old(session.exerciseQueue) == [currentExerciseId.value])
      ensures var exId := currentExerciseId.value;
        var load := Trim(loadInput);
        var difficulty := SelectedValue(row.values, row.selected[..]);
        && store.Data() == old(store.Data()).(logs := Saved(LoadedLogs(old(store.Data()))
             + [Log("log_" + IntToString(logMs), nowIso, session.trainingId, exId, load, difficulty)]))
        && session.exerciseQueue == RemoveFirst(old(session.exerciseQueue), exId)
        && session.results == old(session.results) + [ResultRow(
             match FindExercise(LoadedExercises(store.Data()), exId) case Some(ex) => ex.name case None => exId,
             load, difficulty)]
    {
      var s := session;
      var exId := currentExerciseId.value;
      var load := Trim(loadInput);
      var difficulty := row.Read();
      store.AppendLog(Log("log_" + IntToString(logMs), nowIso, s.trainingId, exId, load, difficulty));
      RemoveFirstEmpties(s.exerciseQueue, exId);
      s.exerciseQueue := RemoveFirst(s.exerciseQueue, exId);
      var ex := FindExercise(LoadJSON(store.exercises, []), exId);
      var name := if ex.Some? then ex.value.name else exId;
      s.results := s.results + [ResultRow(name, load, difficulty)];
      StartRestTimer(timerMs);
    }

    /** The end-session button: the session is dropped and the rest timer
        stopped. */
    method EndSession()
      modifies this
      ensures session == null && !restTimerRunning
      ensures currentExerciseId == old(currentExerciseId) && restStartTs == old(restStartTs)
      ensures exerciseTitle == old(exerciseTitle) && loadInput == old(loadInput)
    {
      session := null;
      restTimerRunning := false;
    }
  }
}
