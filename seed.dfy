/** The default data `ensureDefaults` writes on first start: sixteen exercises,
    four trainings and the rotation that cycles through them. */
module Seed {
  import opened Common
  import opened Records

  const SeedExercises: seq<Exercise> := [
    Exercise("ex_chest_press", "Chest Press", "Push", "machine", false),
    Exercise("ex_shoulder_press", "Shoulder Press", "Push", "machine", false),
    Exercise("ex_pushups", "Push-Ups", "Push", "bodyweight", false),
    Exercise("ex_band_chest_fly", "Band Chest Fly", "Push", "band", false),

    Exercise("ex_lat_pulldown", "Lat Pulldown", "Pull", "machine", false),
    Exercise("ex_seated_row", "Seated Row", "Pull", "machine", false),
    Exercise("ex_inverted_rows_table", "Inverted Rows (Tisch)", "Pull", "bodyweight", false),
    Exercise("ex_band_rows", "Band Rows", "Pull", "band", false),

    Exercise("ex_leg_press", "Leg Press", "Legs", "machine", false),
    Exercise("ex_leg_curl", "Leg Curl", "Legs", "machine", false),
    Exercise("ex_bulgarian_split_squat", "Bulgarian Split Squat", "Legs", "bodyweight", false),
    Exercise("ex_band_hip_thrust", "Band Hip Thrust", "Legs", "band", false),

    Exercise("ex_ab_crunch_machine", "Ab Crunch Machine", "Core", "machine", false),
    Exercise("ex_rotary_torso", "Rotary Torso", "Core", "machine", false),
    Exercise("ex_band_woodchopper", "Band Woodchopper", "Core", "band", false),
    Exercise("ex_leg_raises_floor", "Leg Raises (liegend)", "Core", "bodyweight", false)
  ]

  const SeedTrainings: seq<Training> := [
    Training("tr_gym1", "Gym 1 \U{2013} Push & Legs",
      ["ex_chest_press", "ex_shoulder_press", "ex_leg_press", "ex_leg_curl"]),
    Training("tr_bbw1", "B&BW 1 \U{2013} Pull & Core",
      ["ex_inverted_rows_table", "ex_band_rows", "ex_band_woodchopper", "ex_leg_raises_floor"]),
    Training("tr_gym2", "Gym 2 \U{2013} Pull & Core",
      ["ex_lat_pulldown", "ex_seated_row", "ex_ab_crunch_machine", "ex_rotary_torso"]),
    Training("tr_bbw2", "B&BW 2 \U{2013} Push & Legs",
      ["ex_pushups", "ex_band_chest_fly", "ex_bulgarian_split_squat", "ex_band_hip_thrust"])
  ]

  /** Days 1-7, 8-14, 15-21 and 22 onwards. */
  const SeedRotation := Rotation(Some("tr_gym1"), Some("tr_bbw1"), Some("tr_gym2"), Some("tr_bbw2"))

  /** Every rotation slot names a seeded training. */
  lemma SeedRotationResolves()
    ensures forall s | s in [SeedRotation.t1, SeedRotation.t2, SeedRotation.t3, SeedRotation.t4] ::
      s.Some? && s.value in TrainingIds(SeedTrainings)
  {
    assert TrainingIds(SeedTrainings) == ["tr_gym1", "tr_bbw1", "tr_gym2", "tr_bbw2"];
  }

  /** Every seeded training lists only seeded exercises. */
  lemma SeedTrainingsUseSeedExercises()
    ensures forall t | t in SeedTrainings :: forall x | x in t.exerciseIds :: x in ExerciseIds(SeedExercises)
  {
    var ids := ExerciseIds(SeedExercises);
    assert ids == ["ex_chest_press", "ex_shoulder_press", "ex_pushups", "ex_band_chest_fly",
      "ex_lat_pulldown", "ex_seated_row", "ex_inverted_rows_table", "ex_band_rows",
      "ex_leg_press", "ex_leg_curl", "ex_bulgarian_split_squat", "ex_band_hip_thrust",
      "ex_ab_crunch_machine", "ex_rotary_torso", "ex_band_woodchopper", "ex_leg_raises_floor"];
  }

  /** No seeded training lists an exercise twice. */
  lemma SeedTrainingsNoDuplicates()
    ensures forall t | t in SeedTrainings :: NoDuplicates(t.exerciseIds)
  {
  }
}
