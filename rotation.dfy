/** `todayTrainingIdByDate`: which of the four rotation slots is today's
    training, decided by the day of the month alone. */
module RotationRule {
  import opened Common
  import opened Records
  import opened Storage

  datatype Slot = T1 | T2 | T3 | T4

  /** The fixed bands, tested in the app's order; everything that is not in
      1..21 (22 to 31, but also any out-of-range number) falls to the fourth. */
  function SlotOf(day: int): Slot {
    if 1 <= day <= 7 then T1
    else if 8 <= day <= 14 then T2
    else if 15 <= day <= 21 then T3
    else T4
  }

  /** The bands as a relation, independently of the order of tests. */
  predicate InBand(day: int, s: Slot) {
    match s
    case T1 => 1 <= day <= 7
    case T2 => 8 <= day <= 14
    case T3 => 15 <= day <= 21
    case T4 => day < 1 || day > 21
  }

  /** Exactly one slot contains each day, and it is the one chosen. */
  lemma SlotOfIsTheBand(day: int, s: Slot)
    ensures InBand(day, s) <==> SlotOf(day) == s
  {
  }

  function SlotId(rot: Rotation, s: Slot): Option<string> {
    match s
    case T1 => rot.t1
    case T2 => rot.t2
    case T3 => rot.t3
    case T4 => rot.t4
  }

  /** `todayTrainingIdByDate(date)` with `day` = `date.getDate()`: the id in
      the day's slot of the stored rotation, None (`undefined`) when that slot
      is missing or the rotation falls back to `{}`. */
  function TodayTrainingIdByDate(day: int, rotation: Entry<Rotation>): (r: Option<string>)
    ensures (1 <= day <= 7) ==> r == LoadJSON(rotation, EmptyRotation).t1
    ensures (8 <= day <= 14) ==> r == LoadJSON(rotation, EmptyRotation).t2
    ensures (15 <= day <= 21) ==> r == LoadJSON(rotation, EmptyRotation).t3
    ensures (day < 1 || day > 21) ==> r == LoadJSON(rotation, EmptyRotation).t4
  {
    SlotId(LoadJSON(rotation, EmptyRotation), SlotOf(day))
  }

  /** With an unreadable or missing rotation no training is chosen. */
  lemma NoRotationNoTraining(day: int, rotation: Entry<Rotation>)
    requires !(rotation.Text? && rotation.parsed.Value?)
    ensures TodayTrainingIdByDate(day, rotation).None?
  {
  }

  /** After the rotation screen saves four ids, each band resolves to its id. */
  lemma SavedRotationResolves(day: int, t1: string, t2: string, t3: string, t4: string)
    ensures var r := TodayTrainingIdByDate(day, Saved(Rotation(Some(t1), Some(t2), Some(t3), Some(t4))));
      r == Some(match SlotOf(day) case T1 => t1 case T2 => t2 case T3 => t3 case T4 => t4)
  {
  }

  /** The example of a rotation A, B, C, D on the tenth of a month: B. */
  lemma TenthResolvesToSecond()
    ensures TodayTrainingIdByDate(10, Saved(Rotation(Some("A"), Some("B"), Some("C"), Some("D")))) == Some("B")
  {
  }
}
