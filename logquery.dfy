/** Queries over the saved logs: the history of one exercise (the filter step of
    the history chart) and `lastLogForExercise`, which pre-fills the exercise
    screen with the most recent load and difficulty. */
module LogQuery {
  import opened Common
  import opened Records
  import opened Storage

  /** `logs.filter(l => l.exerciseId === exId)`, in log order. */
  function HistoryFor(logs: seq<Log>, exId: string): (r: seq<Log>)
    ensures forall l | l in r :: l in logs && l.exerciseId == exId
    ensures forall i | 0 <= i < |logs| && logs[i].exerciseId == exId :: logs[i] in r
    ensures |r| <= |logs|
  {
    if logs == [] then []
    else
      var init := logs[..|logs| - 1];
      var last := logs[|logs| - 1];
      var h := HistoryFor(init, exId);
      assert forall i | 0 <= i < |logs| - 1 :: logs[i] == init[i];
      assert forall l | l in init :: l in logs;
      if last.exerciseId == exId then h + [last] else h
  }

  /** The history of one log is that log when it is for the exercise, and
      nothing otherwise. */
  lemma HistoryForSingle(l: Log, exId: string)
    ensures HistoryFor([l], exId) == if l.exerciseId == exId then [l] else []
  {
    assert [l][..0] == [];
  }

  /** The filter keeps the order of the logs: the history of a concatenation
      is the concatenation of the histories. */
  lemma {:induction false} HistoryForAppend(a: seq<Log>, b: seq<Log>, exId: string)
    ensures HistoryFor(a + b, exId) == HistoryFor(a, exId) + HistoryFor(b, exId)
    decreases |b|
  {
    if b == [] {
      assert a + b == a;
    } else {
      var b' := b[..|b| - 1];
      assert (a + b)[..|a + b| - 1] == a + b';
      assert (a + b)[|a + b| - 1] == b[|b| - 1];
      HistoryForAppend(a, b', exId);
    }
  }

  /** Trailing logs of other exercises do not change the history. */
  lemma {:induction false} HistoryIgnoresOtherTail(logs: seq<Log>, n: nat, exId: string)
    requires n <= |logs|
    requires forall j | n <= j < |logs| :: logs[j].exerciseId != exId
    ensures HistoryFor(logs, exId) == HistoryFor(logs[..n], exId)
    decreases |logs| - n
  {
    if n < |logs| {
      var init := logs[..|logs| - 1];
      assert init[..n] == logs[..n];
      HistoryIgnoresOtherTail(init, n, exId);
    } else {
      assert logs[..n] == logs;
    }
  }

  /** The last match of the scan is the last entry of the history. */
  lemma LatestInHistory(logs: seq<Log>, i: nat, exId: string)
    requires i < |logs| && logs[i].exerciseId == exId
    requires forall j | i < j < |logs| :: logs[j].exerciseId != exId
    ensures var h := HistoryFor(logs, exId); h != [] && h[|h| - 1] == logs[i]
  {
    HistoryIgnoresOtherTail(logs, i + 1, exId);
    var pre := logs[..i + 1];
    assert pre[..|pre| - 1] == logs[..i];
    assert pre[|pre| - 1] == logs[i];
  }

  /** `r` is what `lastLogForExercise` promises for `logs`: None exactly when
      no log is for `exId`, otherwise the latest such log, which is also the
      last entry of that exercise's history. */
  predicate IsLastFor(logs: seq<Log>, exId: string, r: Option<Log>) {
    && (r.None? <==> forall k | 0 <= k < |logs| :: logs[k].exerciseId != exId)
    && (r.Some? ==> exists k | 0 <= k < |logs| ::
         logs[k] == r.value && logs[k].exerciseId == exId
         && forall j | k < j < |logs| :: logs[j].exerciseId != exId)
    && var h := HistoryFor(logs, exId);
       (h == [] <==> r.None?) && (r.Some? ==> r.value == h[|h| - 1])
  }

  /** The latest log of `exId`: the last entry of its history. */
  function Latest(logs: seq<Log>, exId: string): Option<Log> {
    var h := HistoryFor(logs, exId);
    if h == [] then None else Some(h[|h| - 1])
  }

  /** What the scan promises names exactly one result. */
  lemma LastForIsLatest(logs: seq<Log>, exId: string, r: Option<Log>)
    requires IsLastFor(logs, exId, r)
    ensures r == Latest(logs, exId)
  {
  }

  /** A newly appended log is the latest of its exercise and leaves the
      latest log of every other exercise as it was. */
  lemma LatestAfterAppend(logs: seq<Log>, log: Log, exId: string)
    ensures Latest(logs + [log], exId) == if log.exerciseId == exId then Some(log) else Latest(logs, exId)
  {
    var all := logs + [log];
    assert all[..|all| - 1] == logs;
  }

  /** What a backward scan that stopped at `i` (or ran off the front, `i` =
      -1) reports, stated over the whole log list. */
  lemma ScanResult(logs: seq<Log>, exId: string, i: int, r: Option<Log>)
    requires -1 <= i < |logs|
    requires forall j | i < j < |logs| :: logs[j].exerciseId != exId
    requires i >= 0 ==> logs[i].exerciseId == exId && r == Some(logs[i])
    requires i < 0 ==> r == None
    ensures IsLastFor(logs, exId, r)
  {
    if i >= 0 {
      LatestInHistory(logs, i, exId);
    } else {
      HistoryIgnoresOtherTail(logs, 0, exId);
      assert logs[..0] == [];
    }
  }

  /** `lastLogForExercise(exId)`: scans the stored logs from the end and
      returns the first one for that exercise, or None (`null`). */
  method LastLogForExercise(store: Store, exId: string) returns (r: Option<Log>)
    ensures IsLastFor(LoadedLogs(store.Data()), exId, r)
  {
    var logs := LoadJSON(store.logs, []);
    assert logs == LoadedLogs(store.Data());
    var i := |logs| - 1;
    while i >= 0
      invariant -1 <= i < |logs|
      invariant forall j | i < j < |logs| :: logs[j].exerciseId != exId
    {
      if logs[i].exerciseId == exId {
        ScanResult(logs, exId, i, Some(logs[i]));
        return Some(logs[i]);
      }
      i := i - 1;
    }
    ScanResult(logs, exId, i, None);
    return None;
  }
}
