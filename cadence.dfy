/** `startExerciseTimer`: the scripted exercise run (a 3-second countdown, then
    ten repetitions of five seconds up and five seconds down) as the sequence of
    things it does: screen updates, beeps, one-second waits and finally showing
    the save button. */
module Cadence {
  import opened JsString

  datatype Tone = Hi | Lo
  /** The timer's text elements: `#countdown`, `#repCounter`, `#phaseNumber`, `#repPhase`. */
  datatype Target = CountdownText | RepCounter | PhaseNumber | PhaseText
  /** The `up`/`down` class on the phase number. */
  datatype Direction = Up | Down

  /** The fixed texts of the run. */
  datatype Caption = Bereit | Dash | GoSign | Hoch | Runter | Fertig | DoneSign

  /** What is written into a text element: a number (`String(n)`), the
      repetition counter (`${rep} / 10`), or a fixed caption. */
  datatype Text = Num(n: int) | RepOfTen(rep: int) | Caption(c: Caption)

  datatype Event =
    | ShowTimer                          // timer panel shown, save button hidden
    | Display(target: Target, text: Text)
    | Mark(dir: Direction)
    | Beep(tone: Tone)                   // `playBeep`, only when sound is on
    | Wait(ms: nat)                      // `await wait(ms)`
    | RevealSave                         // the save-and-next button appears

  /** The fixed shape of a run: a countdown from 3, ten repetitions, five
      numbers each way. */
  const CountdownStart: nat := 3
  const Repetitions: nat := 10
  const Steps: nat := 5

  function CaptionText(c: Caption): string {
    match c
    case Bereit => "Bereit \U{2026}"
    case Dash => "\U{2013}"
    case GoSign => "GO"
    case Hoch => "Hoch"
    case Runter => "Runter"
    case Fertig => "Fertig!"
    case DoneSign => "Done"
  }

  /** The characters a text element shows. */
  function Render(t: Text): string {
    match t
    case Num(n) => IntToString(n)
    case RepOfTen(rep) => IntToString(rep) + " / 10"
    case Caption(c) => CaptionText(c)
  }

  /** `playBeep(which)`: nothing at all when the sound box is unchecked. */
  function Cue(tone: Tone, withSound: bool): (r: seq<Event>)
    ensures |r| == (if withSound then 1 else 0)
    ensures withSound ==> r[0] == Beep(tone)
  {
    if withSound then [Beep(tone)] else []
  }

  function CountdownTick(c: int): seq<Event> {
    [Display(CountdownText, Num(c)), Display(PhaseText, Caption(Bereit)), Display(PhaseNumber, Caption(Dash)), Wait(1000)]
  }

  /** The first `n` countdown ticks: 3, 2, ..., down to CountdownStart-n+1. */
  function CountdownTicks(n: nat): seq<Event> {
    if n == 0 then [] else CountdownTicks(n - 1) + CountdownTick(CountdownStart - n + 1)
  }

  function NumberTick(i: int): seq<Event> {
    [Display(PhaseNumber, Num(i)), Wait(1000)]
  }

  /** The rising numbers shown when the loop reaches `i`: 1, 2, ..., i-1. */
  function UpTo(i: nat): seq<Event> {
    if i <= 1 then [] else UpTo(i - 1) + NumberTick(i - 1)
  }

  /** The first `n` falling numbers: 5, 4, ..., down to Steps-n+1. */
  function DownTicks(n: nat): seq<Event> {
    if n == 0 then [] else DownTicks(n - 1) + NumberTick(Steps - n + 1)
  }

  function RepHead(rep: nat, withSound: bool): seq<Event> {
    [Display(RepCounter, RepOfTen(rep)), Display(PhaseText, Caption(Hoch)), Mark(Up)] + Cue(Hi, withSound)
  }

  function RepMiddle(withSound: bool): seq<Event> {
    [Display(PhaseText, Caption(Runter)), Mark(Down)] + Cue(Lo, withSound)
  }

  /** One repetition: counter, "up" with a high beep and 1..5, then "down"
      with a low beep and 5..1. */
  function RepBlock(rep: nat, withSound: bool): seq<Event> {
    RepHead(rep, withSound) + UpTo(Steps + 1) + RepMiddle(withSound) + DownTicks(Steps)
  }

  /** The repetitions done when the loop reaches `rep`: 1, 2, ..., rep-1. */
  function RepsBefore(rep: nat, withSound: bool): seq<Event> {
    if rep <= 1 then [] else RepsBefore(rep - 1, withSound) + RepBlock(rep - 1, withSound)
  }

  const Go := [Display(CountdownText, Caption(GoSign))]
  const Finish := [Display(CountdownText, Caption(Fertig)), Display(PhaseText, Caption(DoneSign)), RevealSave]

  /** The whole run, start to finish. There is no beep at "GO", and nothing
      stops a run once started. */
  function CadenceTrace(withSound: bool): seq<Event> {
    [ShowTimer] + CountdownTicks(CountdownStart) + Go + RepsBefore(Repetitions + 1, withSound) + Finish
  }

  /** `startExerciseTimer()`, its `await wait(1000)` steps recorded as `Wait`
      events. `withSound` is the state of the sound checkbox. */
  method StartExerciseTimer(withSound: bool) returns (trace: seq<Event>)
    ensures trace == CadenceTrace(withSound)
  {
    trace := [ShowTimer];
    var ticks := Countdown();
    trace := trace + ticks + Go;
    var reps := RepetitionLoop(withSound);
    trace := trace + reps + Finish;
  }

  /** The loop over the ten repetitions. */
  method RepetitionLoop(withSound: bool) returns (reps: seq<Event>)
    ensures reps == RepsBefore(Repetitions + 1, withSound)
  {
    reps := [];
    var rep := 1;
    while rep <= 10
      invariant 1 <= rep <= 11
      invariant reps == RepsBefore(rep, withSound)
    {
      var block := Repetition(rep, withSound);
      reps := reps + block;
      rep := rep + 1;
    }
  }

  /** The countdown loop: 3, 2, 1, each shown for a second next to the
      "ready" text. */
  method Countdown() returns (ticks: seq<Event>)
    ensures ticks == CountdownTicks(CountdownStart)
  {
    ticks := [];
    var c := 3;
    while c >= 1
      invariant 0 <= c <= 3
      invariant ticks == CountdownTicks(CountdownStart - c)
    {
      ticks := ticks + CountdownTick(c);
      c := c - 1;
    }
  }

  /** The body of the repetition loop: what repetition `rep` of ten shows,
      plays and waits for. */
  method Repetition(rep: nat, withSound: bool) returns (block: seq<Event>)
    ensures block == RepBlock(rep, withSound)
  {
    block := [Display(RepCounter, RepOfTen(rep))];

    block := block + [Display(PhaseText, Caption(Hoch)), Mark(Up)];
    if withSound { block := block + [Beep(Hi)]; }
    assert block == RepHead(rep, withSound);
    var up := RisingNumbers();
    block := block + up;
    ghost var upper := block;

    var mid := [Display(PhaseText, Caption(Runter)), Mark(Down)];
    if withSound { mid := mid + [Beep(Lo)]; }
    assert mid == RepMiddle(withSound);
    block := block + mid;
    var down := FallingNumbers();
    block := block + down;
    assert block == upper + RepMiddle(withSound) + DownTicks(Steps);
  }

  /** The "up" loop: 1 to 5, a second each. */
  method RisingNumbers() returns (up: seq<Event>)
    ensures up == UpTo(Steps + 1)
  {
    up := [];
    var i := 1;
    while i <= 5
      invariant 1 <= i <= 6
      invariant up == UpTo(i)
    {
      up := up + NumberTick(i);
      i := i + 1;
    }
  }

  /** The "down" loop: 5 to 1, a second each. */
  method FallingNumbers() returns (down: seq<Event>)
    ensures down == DownTicks(Steps)
  {
    down := [];
    var i := 5;
    while i >= 1
      invariant 0 <= i <= 5
      invariant down == DownTicks(Steps - i)
    {
      down := down + NumberTick(i);
      i := i - 1;
    }
  }

  // ---- what the trace shows ----

  /** Ways of looking at a run: as heard with the sound box unchecked (no
      beeps), as its cues only (beeps and phase numbers), as the occurrences
      of one event, and as what is written into the countdown element. */
  datatype View = SoundOff | CuesOnly | Only(e: Event) | CountdownOnly

  predicate Shows(v: View, e: Event) {
    match v
    case SoundOff => !e.Beep?
    case CuesOnly => IsCue(e)
    case Only(x) => e == x
    case CountdownOnly => e.Display? && e.target == CountdownText
  }

  /** The events of `t` that view `v` shows, in order. */
  function Filter(t: seq<Event>, v: View): seq<Event> {
    if t == [] then []
    else Filter(t[..|t| - 1], v) + (if Shows(v, t[|t| - 1]) then [t[|t| - 1]] else [])
  }

  lemma {:induction false} FilterAppend(a: seq<Event>, b: seq<Event>, v: View)
    ensures Filter(a + b, v) == Filter(a, v) + Filter(b, v)
    decreases |b|
  {
    if b == [] {
      assert a + b == a;
    } else {
      assert (a + b)[..|a + b| - 1] == a + b[..|b| - 1];
      FilterAppend(a, b[..|b| - 1], v);
    }
  }

  lemma {:induction false} FilterKeepsAll(t: seq<Event>, v: View)
    requires forall k | 0 <= k < |t| :: Shows(v, t[k])
    ensures Filter(t, v) == t
    decreases |t|
  {
    if t != [] {
      var init := t[..|t| - 1];
      FilterKeepsAll(init, v);
      assert init + [t[|t| - 1]] == t;
    }
  }

  lemma {:induction false} FilterDropsAll(t: seq<Event>, v: View)
    requires forall k | 0 <= k < |t| :: !Shows(v, t[k])
    ensures Filter(t, v) == []
    decreases |t|
  {
    if t != [] {
      FilterDropsAll(t[..|t| - 1], v);
    }
  }

  /** A beep, or a number on the phase display: the cues a trainee follows. */
  predicate IsCue(e: Event) { e.Beep? || (e.Display? && e.target == PhaseNumber && e.text.Num?) }

  function Show(n: int): Event { Display(PhaseNumber, Num(n)) }

  const Ups: seq<Event> := [Show(1), Show(2), Show(3), Show(4), Show(5)]
  const Downs: seq<Event> := [Show(5), Show(4), Show(3), Show(2), Show(1)]
  /** The cues of one repetition: high beep, 1 to 5, low beep, 5 to 1. */
  const RepCues: seq<Event> := [Beep(Hi)] + Ups + [Beep(Lo)] + Downs

  function Repeat(s: seq<Event>, n: nat): seq<Event> {
    if n == 0 then [] else Repeat(s, n - 1) + s
  }

  // Sound off: the parts of a run without beeps are left as they are.

  lemma {:induction false} SilentCountdown(n: nat)
    ensures Filter(CountdownTicks(n), SoundOff) == CountdownTicks(n)
  {
    if n > 0 {
      var tick := CountdownTick(CountdownStart - n + 1);
      SilentCountdown(n - 1);
      FilterAppend(CountdownTicks(n - 1), tick, SoundOff);
      FilterKeepsAll(tick, SoundOff);
    }
  }

  lemma {:induction false} SilentUpTo(i: nat)
    ensures Filter(UpTo(i), SoundOff) == UpTo(i)
  {
    if i > 1 {
      SilentUpTo(i - 1);
      FilterAppend(UpTo(i - 1), NumberTick(i - 1), SoundOff);
      FilterKeepsAll(NumberTick(i - 1), SoundOff);
    }
  }

  lemma {:induction false} SilentDownTicks(n: nat)
    ensures Filter(DownTicks(n), SoundOff) == DownTicks(n)
  {
    if n > 0 {
      SilentDownTicks(n - 1);
      FilterAppend(DownTicks(n - 1), NumberTick(Steps - n + 1), SoundOff);
      FilterKeepsAll(NumberTick(Steps - n + 1), SoundOff);
    }
  }

  lemma SilentHead(rep: nat)
    ensures Filter(RepHead(rep, true), SoundOff) == RepHead(rep, false)
  {
    var h := RepHead(rep, false);
    assert RepHead(rep, true) == h + [Beep(Hi)];
    FilterAppend(h, [Beep(Hi)], SoundOff);
    FilterKeepsAll(h, SoundOff);
    FilterDropsAll([Beep(Hi)], SoundOff);
  }

  lemma SilentMiddle()
    ensures Filter(RepMiddle(true), SoundOff) == RepMiddle(false)
  {
    var m := RepMiddle(false);
    assert RepMiddle(true) == m + [Beep(Lo)];
    FilterAppend(m, [Beep(Lo)], SoundOff);
    FilterKeepsAll(m, SoundOff);
    FilterDropsAll([Beep(Lo)], SoundOff);
  }

  lemma SilentRepBlock(rep: nat)
    ensures Filter(RepBlock(rep, true), SoundOff) == RepBlock(rep, false)
  {
    var head, up, mid, down := RepHead(rep, true), UpTo(Steps + 1), RepMiddle(true), DownTicks(Steps);
    FilterAppend(head + up + mid, down, SoundOff);
    FilterAppend(head + up, mid, SoundOff);
    FilterAppend(head, up, SoundOff);
    SilentUpTo(Steps + 1);
    SilentDownTicks(Steps);
    SilentHead(rep);
    SilentMiddle();
  }

  lemma {:induction false} SilentRepsBefore(rep: nat)
    ensures Filter(RepsBefore(rep, true), SoundOff) == RepsBefore(rep, false)
  {
    if rep > 1 {
      SilentRepsBefore(rep - 1);
      FilterAppend(RepsBefore(rep - 1, true), RepBlock(rep - 1, true), SoundOff);
      SilentRepBlock(rep - 1);
    }
  }

  /** The parts of a run around the repetitions hold no beep. */
  lemma SilentFrame(loud: seq<Event>, quiet: seq<Event>)
    requires Filter(loud, SoundOff) == quiet
    ensures Filter([ShowTimer] + CountdownTicks(CountdownStart) + Go + loud + Finish, SoundOff)
         == [ShowTimer] + CountdownTicks(CountdownStart) + Go + quiet + Finish
  {
    var pre := [ShowTimer] + CountdownTicks(CountdownStart) + Go;
    assert Filter(pre, SoundOff) == pre by {
      var start, ticks := [ShowTimer], CountdownTicks(CountdownStart);
      FilterAppend(start, ticks, SoundOff);
      FilterKeepsAll(start, SoundOff);
      SilentCountdown(CountdownStart);
      FilterAppend(start + ticks, Go, SoundOff);
      FilterKeepsAll(Go, SoundOff);
    }
    FilterKeepsAll(Finish, SoundOff);
    FilterFrame(pre, loud, Finish, SoundOff);
  }

  /** A view that keeps all of `pre` and `post` filters only the middle. */
  lemma FilterFrame(pre: seq<Event>, mid: seq<Event>, post: seq<Event>, v: View)
    requires Filter(pre, v) == pre && Filter(post, v) == post
    ensures Filter(pre + mid + post, v) == pre + Filter(mid, v) + post
  {
    FilterAppend(pre, mid, v);
    FilterAppend(pre + mid, post, v);
  }

  /** With the sound box unchecked, a run is the same run with every beep left out. */
  lemma SoundOffDropsBeeps()
    ensures CadenceTrace(false) == Filter(CadenceTrace(true), SoundOff)
  {
    SilentRepsBefore(Repetitions + 1);
    SilentFrame(RepsBefore(Repetitions + 1, true), RepsBefore(Repetitions + 1, false));
  }

  // Cues: every repetition gives the same beeps and numbers, in the same order.

  lemma TickCue(n: int)
    ensures Filter(NumberTick(n), CuesOnly) == [Show(n)]
  {
    FilterAppend([Show(n)], [Wait(1000)], CuesOnly);
    FilterKeepsAll([Show(n)], CuesOnly);
    FilterDropsAll([Wait(1000)], CuesOnly);
  }

  lemma {:induction false} CountdownNoCues(n: nat)
    ensures Filter(CountdownTicks(n), CuesOnly) == []
  {
    if n > 0 {
      CountdownNoCues(n - 1);
      FilterAppend(CountdownTicks(n - 1), CountdownTick(CountdownStart - n + 1), CuesOnly);
      FilterDropsAll(CountdownTick(CountdownStart - n + 1), CuesOnly);
    }
  }

  lemma {:induction false} UpToCues(i: nat)
    requires 1 <= i <= Steps + 1
    ensures Filter(UpTo(i), CuesOnly) == Ups[..i - 1]
  {
    if i > 1 {
      UpToCues(i - 1);
      FilterAppend(UpTo(i - 1), NumberTick(i - 1), CuesOnly);
      TickCue(i - 1);
      assert Ups[..i - 1] == Ups[..i - 2] + [Show(i - 1)];
    }
  }

  lemma {:induction false} DownTicksCues(n: nat)
    requires n <= Steps
    ensures Filter(DownTicks(n), CuesOnly) == Downs[..n]
  {
    if n > 0 {
      DownTicksCues(n - 1);
      FilterAppend(DownTicks(n - 1), NumberTick(Steps - n + 1), CuesOnly);
      TickCue(Steps - n + 1);
      assert Downs[..n] == Downs[..n - 1] + [Show(Steps - n + 1)];
    }
  }

  lemma HeadCues(rep: nat)
    ensures Filter(RepHead(rep, true), CuesOnly) == [Beep(Hi)]
  {
    var h := RepHead(rep, false);
    assert RepHead(rep, true) == h + [Beep(Hi)];
    FilterAppend(h, [Beep(Hi)], CuesOnly);
    FilterDropsAll(h, CuesOnly);
    FilterKeepsAll([Beep(Hi)], CuesOnly);
  }

  lemma MiddleCues()
    ensures Filter(RepMiddle(true), CuesOnly) == [Beep(Lo)]
  {
    var m := RepMiddle(false);
    assert RepMiddle(true) == m + [Beep(Lo)];
    FilterAppend(m, [Beep(Lo)], CuesOnly);
    FilterDropsAll(m, CuesOnly);
    FilterKeepsAll([Beep(Lo)], CuesOnly);
  }

  lemma RepBlockCues(rep: nat)
    ensures Filter(RepBlock(rep, true), CuesOnly) == RepCues
  {
    var head, up, mid, down := RepHead(rep, true), UpTo(Steps + 1), RepMiddle(true), DownTicks(Steps);
    HeadCues(rep);
    MiddleCues();
    assert Filter(up, CuesOnly) == Ups by {
      UpToCues(Steps + 1);
      assert Ups[..Steps] == Ups;
    }
    assert Filter(down, CuesOnly) == Downs by {
      DownTicksCues(Steps);
      assert Downs[..Steps] == Downs;
    }
    FilterAppend(head + up + mid, down, CuesOnly);
    FilterAppend(head + up, mid, CuesOnly);
    FilterAppend(head, up, CuesOnly);
  }

  lemma {:induction false} RepsBeforeCues(rep: nat)
    requires rep >= 1
    ensures Filter(RepsBefore(rep, true), CuesOnly) == Repeat(RepCues, rep - 1)
  {
    if rep > 1 {
      RepsBeforeCues(rep - 1);
      FilterAppend(RepsBefore(rep - 1, true), RepBlock(rep - 1, true), CuesOnly);
      RepBlockCues(rep - 1);
    }
  }

  lemma CueFrame(reps: seq<Event>)
    ensures Filter([ShowTimer] + CountdownTicks(CountdownStart) + Go + reps + Finish, CuesOnly)
         == Filter(reps, CuesOnly)
  {
    var start, ticks := [ShowTimer], CountdownTicks(CountdownStart);
    var pre := start + ticks + Go;
    assert Filter(start + ticks, CuesOnly) == [] by {
      FilterAppend(start, ticks, CuesOnly);
      FilterDropsAll(start, CuesOnly);
      CountdownNoCues(CountdownStart);
    }
    assert Filter(pre, CuesOnly) == [] by {
      FilterAppend(start + ticks, Go, CuesOnly);
      FilterDropsAll(Go, CuesOnly);
    }
    assert Filter(pre + reps, CuesOnly) == Filter(reps, CuesOnly) by {
      FilterAppend(pre, reps, CuesOnly);
    }
    FilterAppend(pre + reps, Finish, CuesOnly);
    FilterDropsAll(Finish, CuesOnly);
  }

  /** With sound, the cues of a whole run are the cues of one repetition ten
      times over: no beep and no number during the countdown or at "GO". */
  lemma RunCues()
    ensures Filter(CadenceTrace(true), CuesOnly) == Repeat(RepCues, Repetitions)
  {
    RepsBeforeCues(Repetitions + 1);
    CueFrame(RepsBefore(Repetitions + 1, true));
  }

  // Counts: 103 one-second waits, and the save button only at the very end.

  /** How often `e` occurs in `t`. */
  function Count(t: seq<Event>, e: Event): nat {
    if t == [] then 0 else Count(t[..|t| - 1], e) + (if t[|t| - 1] == e then 1 else 0)
  }

  lemma {:induction false} CountAppend(a: seq<Event>, b: seq<Event>, e: Event)
    ensures Count(a + b, e) == Count(a, e) + Count(b, e)
    decreases |b|
  {
    if b == [] {
      assert a + b == a;
    } else {
      assert (a + b)[..|a + b| - 1] == a + b[..|b| - 1];
      CountAppend(a, b[..|b| - 1], e);
    }
  }

  lemma {:induction false} CountAbsent(t: seq<Event>, e: Event)
    requires forall k | 0 <= k < |t| :: t[k] != e
    ensures Count(t, e) == 0
    decreases |t|
  {
    if t != [] {
      CountAbsent(t[..|t| - 1], e);
    }
  }

  lemma CountSingle(x: Event, e: Event)
    ensures Count([x], e) == if x == e then 1 else 0
  {
    assert [x][..0] == [];
  }

  /** The two events counted over a run: the one-second wait and the reveal. */
  predicate Tallied(e: Event) { e == Wait(1000) || e == RevealSave }

  /** One tick of any of the loops waits once and reveals nothing. */
  lemma TickCount(t: seq<Event>, e: Event)
    requires Tallied(e)
    requires |t| >= 1 && t[|t| - 1] == Wait(1000)
    requires forall k | 0 <= k < |t| - 1 :: !Tallied(t[k])
    ensures Count(t, e) == if e == Wait(1000) then 1 else 0
  {
    CountAbsent(t[..|t| - 1], e);
  }

  /** Neither waits nor the save button among events that are not tallied. */
  lemma NoCount(t: seq<Event>, e: Event)
    requires Tallied(e)
    requires forall k | 0 <= k < |t| :: !Tallied(t[k])
    ensures Count(t, e) == 0
  {
    CountAbsent(t, e);
  }

  lemma {:induction false} CountdownCount(n: nat, e: Event)
    requires Tallied(e)
    ensures Count(CountdownTicks(n), e) == if e == Wait(1000) then n else 0
  {
    if n > 0 {
      CountdownCount(n - 1, e);
      var tick := CountdownTick(CountdownStart - n + 1);
      CountAppend(CountdownTicks(n - 1), tick, e);
      TickCount(tick, e);
    }
  }

  lemma {:induction false} UpToCount(i: nat, e: Event)
    requires Tallied(e) && i >= 1
    ensures Count(UpTo(i), e) == if e == Wait(1000) then i - 1 else 0
  {
    if i > 1 {
      UpToCount(i - 1, e);
      CountAppend(UpTo(i - 1), NumberTick(i - 1), e);
      TickCount(NumberTick(i - 1), e);
    }
  }

  lemma {:induction false} DownTicksCount(n: nat, e: Event)
    requires Tallied(e)
    ensures Count(DownTicks(n), e) == if e == Wait(1000) then n else 0
  {
    if n > 0 {
      DownTicksCount(n - 1, e);
      var tick := NumberTick(Steps - n + 1);
      CountAppend(DownTicks(n - 1), tick, e);
      TickCount(tick, e);
    }
  }

  lemma RepBlockSplit(rep: nat, withSound: bool, e: Event)
    ensures Count(RepBlock(rep, withSound), e)
         == Count(RepHead(rep, withSound), e) + Count(UpTo(Steps + 1), e)
          + Count(RepMiddle(withSound), e) + Count(DownTicks(Steps), e)
  {
    var head, up, mid, down := RepHead(rep, withSound), UpTo(Steps + 1), RepMiddle(withSound), DownTicks(Steps);
    CountAppend(head + up + mid, down, e);
    CountAppend(head + up, mid, e);
    CountAppend(head, up, e);
  }

  lemma RepBlockCount(rep: nat, withSound: bool, e: Event)
    requires Tallied(e)
    ensures Count(RepBlock(rep, withSound), e) == if e == Wait(1000) then 2 * Steps else 0
  {
    RepBlockSplit(rep, withSound, e);
    UpToCount(Steps + 1, e);
    DownTicksCount(Steps, e);
    NoCount(RepHead(rep, withSound), e);
    NoCount(RepMiddle(withSound), e);
  }

  lemma {:induction false} RepsBeforeCount(rep: nat, withSound: bool, e: Event)
    requires Tallied(e) && rep >= 1
    ensures Count(RepsBefore(rep, withSound), e) == if e == Wait(1000) then 10 * (rep - 1) else 0
  {
    if rep > 1 {
      RepsBeforeCount(rep - 1, withSound, e);
      RepBlockCount(rep - 1, withSound, e);
      CountAppend(RepsBefore(rep - 1, withSound), RepBlock(rep - 1, withSound), e);
    }
  }

  lemma RunCountSplit(withSound: bool, e: Event)
    ensures Count(CadenceTrace(withSound), e)
         == Count([ShowTimer], e) + Count(CountdownTicks(CountdownStart), e) + Count(Go, e)
          + Count(RepsBefore(Repetitions + 1, withSound), e) + Count(Finish, e)
  {
    var start, ticks := [ShowTimer], CountdownTicks(CountdownStart);
    var reps := RepsBefore(Repetitions + 1, withSound);
    CountAppend(start + ticks + Go + reps, Finish, e);
    CountAppend(start + ticks + Go, reps, e);
    CountAppend(start + ticks, Go, e);
    CountAppend(start, ticks, e);
  }

  /** The events around the repetitions: no wait, and one reveal at the end. */
  lemma FrameCount(e: Event)
    requires Tallied(e)
    ensures Count([ShowTimer], e) == 0 && Count(Go, e) == 0
    ensures Count(Finish, e) == if e == RevealSave then 1 else 0
  {
    NoCount([ShowTimer], e);
    NoCount(Go, e);
    assert Finish[..|Finish| - 1] == Finish[..2];
    NoCount(Finish[..2], e);
  }

  lemma RunCount(withSound: bool, e: Event)
    requires Tallied(e)
    ensures Count(CadenceTrace(withSound), e) == if e == Wait(1000) then 103 else 1
  {
    CountdownCount(CountdownStart, e);
    RepsBeforeCount(Repetitions + 1, withSound, e);
    FrameCount(e);
    RunCountSplit(withSound, e);
  }

  /** A run waits 103 seconds in one-second steps: 3 of countdown and 100 of
      repetitions. */
  lemma RunWaits(withSound: bool)
    ensures Count(CadenceTrace(withSound), Wait(1000)) == 103
  {
    RunCount(withSound, Wait(1000));
  }

  /** The last thing a run does is reveal the save button. */
  lemma RunEndsWithReveal(withSound: bool)
    ensures var t := CadenceTrace(withSound); t[|t| - 1] == RevealSave
  {
    var t := CadenceTrace(withSound);
    var body := [ShowTimer] + CountdownTicks(CountdownStart) + Go + RepsBefore(Repetitions + 1, withSound);
    assert t == body + Finish;
    assert t[|t| - 1] == Finish[2];
  }

  /** A run reveals the save button exactly once (so only at the end). */
  lemma RunRevealsSaveOnce(withSound: bool)
    ensures Count(CadenceTrace(withSound), RevealSave) == 1
  {
    RunCount(withSound, RevealSave);
  }

  /** Counting in a view: an event the view shows is counted as before, one
      it hides is gone. */
  lemma {:induction false} CountInView(t: seq<Event>, v: View, e: Event)
    ensures Count(Filter(t, v), e) == if Shows(v, e) then Count(t, e) else 0
    decreases |t|
  {
    if t != [] {
      var init, last := t[..|t| - 1], t[|t| - 1];
      assert t == init + [last];
      CountInView(init, v, e);
      CountAppend(init, [last], e);
      CountSingle(last, e);
      if Shows(v, last) {
        assert Filter(t, v) == Filter(init, v) + [last];
        CountAppend(Filter(init, v), [last], e);
      } else {
        assert Filter(t, v) == Filter(init, v);
      }
    }
  }

  lemma {:induction false} RepeatCount(s: seq<Event>, n: nat, e: Event)
    ensures Count(Repeat(s, n), e) == n * Count(s, e)
  {
    if n > 0 {
      RepeatCount(s, n - 1, e);
      CountAppend(Repeat(s, n - 1), s, e);
      var c := Count(s, e);
      assert (n - 1) * c + c == n * c;
    }
  }

  /** Each repetition's cues hold one beep of each tone. */
  lemma RepCuesBeep(tone: Tone)
    ensures Count(RepCues, Beep(tone)) == 1
  {
    var e := Beep(tone);
    CountAppend([Beep(Hi)] + Ups + [Beep(Lo)], Downs, e);
    CountAppend([Beep(Hi)] + Ups, [Beep(Lo)], e);
    CountAppend([Beep(Hi)], Ups, e);
    CountAbsent(Ups, e);
    CountAbsent(Downs, e);
    CountSingle(Beep(Hi), e);
    CountSingle(Beep(Lo), e);
  }

  /** A run beeps high ten times and low ten times with sound on, never without. */
  lemma RunBeeps(withSound: bool)
    ensures Count(CadenceTrace(withSound), Beep(Hi)) == if withSound then Repetitions else 0
    ensures Count(CadenceTrace(withSound), Beep(Lo)) == if withSound then Repetitions else 0
  {
    if withSound {
      RunCues();
      RepCuesBeep(Hi);
      RepCuesBeep(Lo);
      CountInView(CadenceTrace(true), CuesOnly, Beep(Hi));
      CountInView(CadenceTrace(true), CuesOnly, Beep(Lo));
      RepeatCount(RepCues, Repetitions, Beep(Hi));
      RepeatCount(RepCues, Repetitions, Beep(Lo));
    } else {
      SoundOffDropsBeeps();
      CountInView(CadenceTrace(true), SoundOff, Beep(Hi));
      CountInView(CadenceTrace(true), SoundOff, Beep(Lo));
    }
  }

  // The countdown element: 3, 2, 1, "GO", and "Fertig!" at the end.

  /** The countdown ticks come in the order 3, 2, 1. */
  lemma CountdownOrder()
    ensures CountdownTicks(CountdownStart) == CountdownTick(3) + CountdownTick(2) + CountdownTick(1)
  {
    assert CountdownTicks(1) == CountdownTick(3);
    assert CountdownTicks(2) == CountdownTick(3) + CountdownTick(2);
  }

  function Banner(x: Text): Event { Display(CountdownText, x) }

  /** Nothing in `t` is written into the countdown element. */
  predicate NoBanner(t: seq<Event>) {
    forall k | 0 <= k < |t| :: !Shows(CountdownOnly, t[k])
  }

  lemma NoBannerAppend(a: seq<Event>, b: seq<Event>)
    requires NoBanner(a) && NoBanner(b)
    ensures NoBanner(a + b)
  {
    forall k | 0 <= k < |a + b| ensures !Shows(CountdownOnly, (a + b)[k]) {
      if k < |a| { assert (a + b)[k] == a[k]; } else { assert (a + b)[k] == b[k - |a|]; }
    }
  }

  lemma {:induction false} NoBannerUpTo(i: nat)
    ensures NoBanner(UpTo(i))
  {
    if i > 1 {
      NoBannerUpTo(i - 1);
      NoBannerAppend(UpTo(i - 1), NumberTick(i - 1));
    }
  }

  lemma {:induction false} NoBannerDownTicks(n: nat)
    ensures NoBanner(DownTicks(n))
  {
    if n > 0 {
      NoBannerDownTicks(n - 1);
      NoBannerAppend(DownTicks(n - 1), NumberTick(Steps - n + 1));
    }
  }

  lemma NoBannerRepBlock(rep: nat, withSound: bool)
    ensures NoBanner(RepBlock(rep, withSound))
  {
    var head, up, mid, down := RepHead(rep, withSound), UpTo(Steps + 1), RepMiddle(withSound), DownTicks(Steps);
    NoBannerUpTo(Steps + 1);
    NoBannerDownTicks(Steps);
    assert NoBanner(head);
    assert NoBanner(mid);
    NoBannerAppend(head, up);
    NoBannerAppend(head + up, mid);
    NoBannerAppend(head + up + mid, down);
  }

  /** The repetitions never write into the countdown element. */
  lemma {:induction false} NoBannerRepsBefore(rep: nat, withSound: bool)
    ensures Filter(RepsBefore(rep, withSound), CountdownOnly) == []
  {
    if rep > 1 {
      NoBannerRepsBefore(rep - 1, withSound);
      FilterAppend(RepsBefore(rep - 1, withSound), RepBlock(rep - 1, withSound), CountdownOnly);
      NoBannerRepBlock(rep - 1, withSound);
      FilterDropsAll(RepBlock(rep - 1, withSound), CountdownOnly);
    }
  }

  /** Each countdown tick writes its number into the countdown element. */
  lemma TickBanner(c: int)
    ensures Filter(CountdownTick(c), CountdownOnly) == [Banner(Num(c))]
  {
    var t := CountdownTick(c);
    assert t == [t[0]] + t[1..];
    FilterAppend([t[0]], t[1..], CountdownOnly);
    FilterKeepsAll([t[0]], CountdownOnly);
    FilterDropsAll(t[1..], CountdownOnly);
  }

  lemma CountdownBanners()
    ensures Filter(CountdownTicks(CountdownStart), CountdownOnly) == [Banner(Num(3)), Banner(Num(2)), Banner(Num(1))]
  {
    CountdownOrder();
    FilterAppend(CountdownTick(3) + CountdownTick(2), CountdownTick(1), CountdownOnly);
    FilterAppend(CountdownTick(3), CountdownTick(2), CountdownOnly);
    TickBanner(3);
    TickBanner(2);
    TickBanner(1);
  }

  lemma FinishBanner()
    ensures Filter(Finish, CountdownOnly) == [Banner(Caption(Fertig))]
  {
    assert Finish == [Finish[0]] + Finish[1..];
    FilterAppend([Finish[0]], Finish[1..], CountdownOnly);
    FilterKeepsAll([Finish[0]], CountdownOnly);
    FilterDropsAll(Finish[1..], CountdownOnly);
  }

  /** The countdown element of a run is written five times: 3, 2, 1, "GO"
      and, once the repetitions are over, "Fertig!". */
  lemma RunBanners(withSound: bool)
    ensures Filter(CadenceTrace(withSound), CountdownOnly)
         == [Banner(Num(3)), Banner(Num(2)), Banner(Num(1)), Banner(Caption(GoSign)), Banner(Caption(Fertig))]
  {
    var pre, reps := [ShowTimer] + CountdownTicks(CountdownStart) + Go, RepsBefore(Repetitions + 1, withSound);
    PreludeBanners();
    assert Filter(pre + reps, CountdownOnly) == Filter(pre, CountdownOnly) by {
      FilterAppend(pre, reps, CountdownOnly);
      NoBannerRepsBefore(Repetitions + 1, withSound);
    }
    FilterAppend(pre + reps, Finish, CountdownOnly);
    FinishBanner();
  }

  /** Before the repetitions: 3, 2, 1 and "GO". */
  lemma PreludeBanners()
    ensures Filter([ShowTimer] + CountdownTicks(CountdownStart) + Go, CountdownOnly)
         == [Banner(Num(3)), Banner(Num(2)), Banner(Num(1)), Banner(Caption(GoSign))]
  {
    var start, ticks := [ShowTimer], CountdownTicks(CountdownStart);
    assert Filter(start + ticks, CountdownOnly) == [Banner(Num(3)), Banner(Num(2)), Banner(Num(1))] by {
      FilterAppend(start, ticks, CountdownOnly);
      FilterDropsAll(start, CountdownOnly);
      CountdownBanners();
    }
    FilterAppend(start + ticks, Go, CountdownOnly);
    FilterKeepsAll(Go, CountdownOnly);
  }

  /** The characters the element shows for each of those writes. */
  lemma BannerTexts()
    ensures Render(Num(3)) == "3" && Render(Num(2)) == "2" && Render(Num(1)) == "1"
    ensures Render(Caption(GoSign)) == "GO" && Render(Caption(Fertig)) == "Fertig!"
  {
    assert NatToString(3) == "3";
    assert NatToString(2) == "2";
    assert NatToString(1) == "1";
  }
}
