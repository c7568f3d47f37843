/** The persisted store: five localStorage keys, each holding one JSON document
    (exercises, trainings, rotation, logs, meta). The text behind a key is not
    modelled; an entry records what `JSON.parse` makes of it. */
module Storage {
  import opened Common
  import opened JsString
  import opened Records
  import opened Catalog
  import opened Seed

  /** The outcome of `JSON.parse` on some text: it throws, it yields `null`, or
      it yields a value. */
  datatype Parsed<+T> = Malformed | Null | Value(value: T)

  /** One localStorage key: `getItem` returns null (Absent) or a text, given
      here by what parsing it yields. */
  datatype Entry<+T> = Absent | Text(parsed: Parsed<T>)

  /** `saveJSON(k, v)`: the key then holds text that parses back to `v`. */
  function Saved<T>(v: T): Entry<T> {
    Text(Value(v))
  }

  /** `loadJSON(k, fallback)`: the stored value, or `fallback` when the key is
      missing, its text does not parse, or it parses to `null` (`JSON.parse(null)`
      is `null`, and `?? fallback` replaces it). */
  function LoadJSON<T>(e: Entry<T>, fallback: T): (r: T)
    ensures (e.Text? && e.parsed.Value?) ==> r == e.parsed.value
    ensures (e.Absent? || e.parsed.Malformed? || e.parsed.Null?) ==> r == fallback
  {
    match e
    case Text(Value(v)) => v
    case _ => fallback
  }

  lemma LoadSaved<T>(v: T, fallback: T)
    ensures LoadJSON(Saved(v), fallback) == v
  {
  }

  /** The contents of all five keys. */
  datatype StoreData = StoreData(
    exercises: Entry<seq<Exercise>>,
    trainings: Entry<seq<Training>>,
    rotation: Entry<Rotation>,
    logs: Entry<seq<Log>>,
    meta: Entry<Meta>)

  /** The five documents as the app reads them, with the fallbacks it passes. */
  datatype Snapshot = Snapshot(
    exercises: seq<Exercise>,
    trainings: seq<Training>,
    rotation: Rotation,
    logs: seq<Log>,
    meta: Meta)

  function LoadedExercises(d: StoreData): seq<Exercise> { LoadJSON(d.exercises, []) }
  function LoadedTrainings(d: StoreData): seq<Training> { LoadJSON(d.trainings, []) }
  function LoadedRotation(d: StoreData): Rotation { LoadJSON(d.rotation, EmptyRotation) }
  function LoadedLogs(d: StoreData): seq<Log> { LoadJSON(d.logs, []) }
  function LoadedMeta(d: StoreData): Meta { LoadJSON(d.meta, EmptyMeta) }

  // ---- ensureDefaults ----

  /** `meta.version === 1`: the seed has already been written. */
  predicate IsSeeded(d: StoreData) {
    LoadedMeta(d).version == Some(1)
  }

  /** What `ensureDefaults` leaves behind: nothing changes once the seed marker
      is present; otherwise all five keys are overwritten with the seed data, an
      empty log, and the marker `{version: 1, createdAt}`. */
  function Seeded(d: StoreData, createdAt: string): (r: StoreData)
    ensures IsSeeded(r)
    ensures IsSeeded(d) ==> r == d
    ensures !IsSeeded(d) ==> Export(r) == Snapshot(SeedExercises, SeedTrainings, SeedRotation, [], Meta(Some(1), Some(createdAt)))
  {
    if IsSeeded(d) then d
    else StoreData(Saved(SeedExercises), Saved(SeedTrainings), Saved(SeedRotation), Saved([]),
                   Saved(Meta(Some(1), Some(createdAt))))
  }

  /** Running `ensureDefaults` again, at any later time, changes nothing. */
  lemma SeededIdempotent(d: StoreData, first: string, later: string)
    ensures Seeded(Seeded(d, first), later) == Seeded(d, first)
  {
  }

  // ---- export / import ----

  /** The export document: the five keys as loaded, with `[]` or `{}` where a
      key is missing or unreadable. */
  function Export(d: StoreData): (r: Snapshot)
    ensures r.exercises == LoadedExercises(d) && r.trainings == LoadedTrainings(d)
    ensures r.rotation == LoadedRotation(d) && r.logs == LoadedLogs(d) && r.meta == LoadedMeta(d)
  {
    Snapshot(LoadedExercises(d), LoadedTrainings(d), LoadedRotation(d), LoadedLogs(d), LoadedMeta(d))
  }

  /** A parsed import document: a key is Some when the document has it with a
      truthy value (`if (data.exercises) …`); a missing key or a falsy value
      (`null`, `false`, `0`, `""`) is None. */
  datatype ImportDoc = ImportDoc(
    exercises: Option<seq<Exercise>>,
    trainings: Option<seq<Training>>,
    rotation: Option<Rotation>,
    logs: Option<seq<Log>>,
    meta: Option<Meta>)

  function Replace<T>(e: Entry<T>, v: Option<T>): Entry<T> {
    if v.Some? then Saved(v.value) else e
  }

  /** The store after a successful import: each present key is saved, each
      absent key left as it was. */
  function Imported(d: StoreData, doc: ImportDoc): (r: StoreData)
    ensures doc.exercises.Some? ==> LoadedExercises(r) == doc.exercises.value
    ensures doc.exercises.None? ==> r.exercises == d.exercises
    ensures doc.trainings.Some? ==> LoadedTrainings(r) == doc.trainings.value
    ensures doc.trainings.None? ==> r.trainings == d.trainings
    ensures doc.rotation.Some? ==> LoadedRotation(r) == doc.rotation.value
    ensures doc.rotation.None? ==> r.rotation == d.rotation
    ensures doc.logs.Some? ==> LoadedLogs(r) == doc.logs.value
    ensures doc.logs.None? ==> r.logs == d.logs
    ensures doc.meta.Some? ==> LoadedMeta(r) == doc.meta.value
    ensures doc.meta.None? ==> r.meta == d.meta
  {
    StoreData(Replace(d.exercises, doc.exercises), Replace(d.trainings, doc.trainings),
              Replace(d.rotation, doc.rotation), Replace(d.logs, doc.logs), Replace(d.meta, doc.meta))
  }

  /** An export file read back for import: arrays and objects are truthy, so
      all five keys are present. */
  function AsImport(s: Snapshot): ImportDoc {
    ImportDoc(Some(s.exercises), Some(s.trainings), Some(s.rotation), Some(s.logs), Some(s.meta))
  }

  /** Importing an export, into any store, makes the next export equal to it. */
  lemma ExportImportRoundTrip(source: StoreData, target: StoreData)
    ensures Export(Imported(target, AsImport(Export(source)))) == Export(source)
  {
  }

  /** A document with no usable key changes nothing. */
  lemma ImportNothing(d: StoreData)
    ensures Imported(d, ImportDoc(None, None, None, None, None)) == d
  {
  }

  // ---- the store itself ----

  class Store {
    var exercises: Entry<seq<Exercise>>
    var trainings: Entry<seq<Training>>
    var rotation: Entry<Rotation>
    var logs: Entry<seq<Log>>
    var meta: Entry<Meta>

    constructor (d: StoreData)
      ensures Data() == d
    {
      exercises, trainings, rotation, logs, meta := d.exercises, d.trainings, d.rotation, d.logs, d.meta;
    }

    function Data(): StoreData
      reads this
    {
      StoreData(exercises, trainings, rotation, logs, meta)
    }

    /** `ensureDefaults()`; `createdAt` is `new Date().toISOString()`. */
    method EnsureDefaults(createdAt: string)
      modifies this
      ensures Data() == Seeded(old(Data()), createdAt)
    {
      var m := LoadJSON(meta, EmptyMeta);
      if m.version == Some(1) {
        return;
      }
      exercises := Saved(SeedExercises);
      trainings := Saved(SeedTrainings);
      rotation := Saved(SeedRotation);
      logs := Saved([]);
      meta := Saved(Meta(Some(1), Some(createdAt)));
    }

    /** The import reader's `onload`: `parsed` is `JSON.parse` of the file text.
        A parse error, or a document that is `null` (reading a key of it
        throws), is reported and writes nothing. */
    method Import(parsed: Parsed<ImportDoc>) returns (ok: bool)
      modifies this
      ensures ok <==> parsed.Value?
      ensures ok ==> Data() == Imported(old(Data()), parsed.value)
      ensures !ok ==> Data() == old(Data())
    {
      if !parsed.Value? {
        return false;
      }
      var doc := parsed.value;
      if doc.exercises.Some? { exercises := Saved(doc.exercises.value); }
      if doc.trainings.Some? { trainings := Saved(doc.trainings.value); }
      if doc.rotation.Some? { rotation := Saved(doc.rotation.value); }
      if doc.logs.Some? { logs := Saved(doc.logs.value); }
      if doc.meta.Some? { meta := Saved(doc.meta.value); }
      ok := true;
    }

    /** The rotation screen's save button: the four selected training ids. */
    method SaveRotation(t1: string, t2: string, t3: string, t4: string)
      modifies this
      ensures Data() == old(Data()).(rotation := Saved(Rotation(Some(t1), Some(t2), Some(t3), Some(t4))))
    {
      rotation := Saved(Rotation(Some(t1), Some(t2), Some(t3), Some(t4)));
    }

    /** The training list's "add exercise" select. An empty choice returns
        early; a training id that is no longer stored makes the handler throw
        before it saves (`ok` false, nothing written). Otherwise the first
        training with that id gets the exercise appended unless it already lists
        it, and the list is saved. */
    method AddExerciseToTraining(id: string, addId: string) returns (ok: bool)
      modifies this
      ensures var ts := LoadedTrainings(old(Data()));
        match FirstIndexOf(TrainingIds(ts), id)
        case None => !ok && Data() == old(Data())
        case Some(k) =>
          if addId == "" then !ok && Data() == old(Data())
          else ok && Data() == old(Data()).(trainings := Saved(ts[k := WithExercise(ts[k], addId)]))
    {
      if addId == "" {
        assert Data() == old(Data());
        return false;
      }
      var ts := LoadJSON(trainings, []);
      var k := FirstIndexOf(TrainingIds(ts), id);
      if k.None? {
        return false;
      }
      var t := ts[k.value];
      if addId !in t.exerciseIds {
        t := t.(exerciseIds := t.exerciseIds + [addId]);
      }
      ts := ts[k.value := t];
      trainings := Saved(ts);
      ok := true;
    }

    /** The training list's save button: the first training with that id gets
        the trimmed title, or keeps its old one when the input is blank. */
    method SaveTrainingTitle(id: string, titleInput: string) returns (ok: bool)
      modifies this
      ensures var ts := LoadedTrainings(old(Data()));
        match FirstIndexOf(TrainingIds(ts), id)
        case None => !ok && Data() == old(Data())
        case Some(k) => ok && Data() == old(Data()).(trainings := Saved(ts[k := Retitled(ts[k], titleInput)]))
    {
      var ts := LoadJSON(trainings, []);
      var k := FirstIndexOf(TrainingIds(ts), id);
      if k.None? {
        return false;
      }
      var t := ts[k.value];
      t := t.(title := TrimmedOr(titleInput, t.title));
      ts := ts[k.value := t];
      trainings := Saved(ts);
      ok := true;
    }

    /** The training list's delete button, after the user's confirmation:
        every training with that id goes, the rest stay in order. */
    method DeleteTraining(id: string, confirmed: bool)
      modifies this
      ensures !confirmed ==> Data() == old(Data())
      ensures confirmed ==> Data() == old(Data()).(trainings := Saved(WithoutTraining(LoadedTrainings(old(Data())), id)))
    {
      if !confirmed {
        return;
      }
      var ts := LoadJSON(trainings, []);
      trainings := Saved(WithoutTraining(ts, id));
    }

    /** The create-training button: a blank title is refused; otherwise a new
        training is appended. */
    method CreateTraining(titleInput: string, nowMs: int) returns (ok: bool)
      modifies this
      ensures ok <==> !Blank(titleInput)
      ensures !ok ==> Data() == old(Data())
      ensures ok ==> Data() == old(Data()).(trainings :=
        Saved(LoadedTrainings(old(Data())) + [NewTraining(nowMs, Trim(titleInput))]))
    {
      var title := Trim(titleInput);
      if title == "" {
        return false;
      }
      var ts := LoadJSON(trainings, []);
      ts := ts + [Training("tr_" + IntToString(nowMs), title, [])];
      trainings := Saved(ts);
      ok := true;
    }

    /** The exercise list's save button: new name (blank keeps the old one)
        and class for the first exercise with that id. */
    method SaveExercise(id: string, nameInput: string, cls: string) returns (ok: bool)
      modifies this
      ensures var exs := LoadedExercises(old(Data()));
        match FirstIndexOf(ExerciseIds(exs), id)
        case None => !ok && Data() == old(Data())
        case Some(k) => ok && Data() == old(Data()).(exercises := Saved(exs[k := Edited(exs[k], nameInput, cls)]))
    {
      var exs := LoadJSON(exercises, []);
      var k := FirstIndexOf(ExerciseIds(exs), id);
      if k.None? {
        return false;
      }
      var ex := exs[k.value];
      ex := ex.(name := TrimmedOr(nameInput, ex.name));
      ex := ex.(cls := cls);
      exs := exs[k.value := ex];
      exercises := Saved(exs);
      ok := true;
    }

    /** The exercise list's archive button: flips `archived` of the first
        exercise with that id. */
    method ToggleArchived(id: string) returns (ok: bool)
      modifies this
      ensures var exs := LoadedExercises(old(Data()));
        match FirstIndexOf(ExerciseIds(exs), id)
        case None => !ok && Data() == old(Data())
        case Some(k) => ok && Data() == old(Data()).(exercises := Saved(exs[k := ArchiveToggled(exs[k])]))
    {
      var exs := LoadJSON(exercises, []);
      var k := FirstIndexOf(ExerciseIds(exs), id);
      if k.None? {
        return false;
      }
      var ex := exs[k.value];
      ex := ex.(archived := !ex.archived);
      exs := exs[k.value := ex];
      exercises := Saved(exs);
      ok := true;
    }

    /** The create-exercise button: a blank name is refused; otherwise a new
        custom exercise is appended. */
    method CreateExercise(nameInput: string, cls: string, nowMs: int) returns (ok: bool)
      modifies this
      ensures ok <==> !Blank(nameInput)
      ensures !ok ==> Data() == old(Data())
      ensures ok ==> Data() == old(Data()).(exercises :=
        Saved(LoadedExercises(old(Data())) + [NewExercise(nowMs, Trim(nameInput), cls)]))
    {
      var name := Trim(nameInput);
      if name == "" {
        return false;
      }
      var exs := LoadJSON(exercises, []);
      exs := exs + [Exercise("ex_" + IntToString(nowMs), name, cls, "custom", false)];
      exercises := Saved(exs);
      ok := true;
    }

    /** `logs.push(log); saveJSON(LS_KEYS.LOGS, logs)` on the freshly loaded list. */
    method AppendLog(log: Log)
      modifies this
      ensures Data() == old(Data()).(logs := Saved(LoadedLogs(old(Data())) + [log]))
    {
      var ls := LoadJSON(logs, []);
      ls := ls + [log];
      logs := Saved(ls);
    }
  }
}
