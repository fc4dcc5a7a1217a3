/** Reference data of the client (constants.tsx): the evolution table and the mock training plans. */
module Constants {
  import opened Types

  /** Narrative metadata of one evolution stage. */
  datatype Stage = Stage(url: string, name: string, desc: string)

  /** The sparse evolution table, keyed by the lowest level of each stage. */
  const EvolutionStages: map<int, Stage> := map[
    1 := Stage("https://images.unsplash.com/photo-1553284965-83fd3e82fa5a?q=80&w=800",
               "Das Fohlen", "Der Anfang einer Legende."),
    11 := Stage("https://images.unsplash.com/photo-1598971861713-54ad16a7e718?q=80&w=800",
                "Der Aufsteiger", "Erste Fasern werden sichtbar."),
    21 := Stage("https://images.unsplash.com/photo-1517836357463-d25dfeac3438?q=80&w=800",
                "Der Athlet", "Stahlharte Disziplin zahlt sich aus."),
    31 := Stage("https://images.unsplash.com/photo-1581009146145-b5ef050c2e1e?q=80&w=800",
                "Das Power-Pony", "Dein Fundament steht."),
    41 := Stage("https://images.unsplash.com/photo-1534438327276-14e5300c3a48?q=80&w=800",
                "Der Kraftprotz", "Die Masse kommt."),
    51 := Stage("https://images.unsplash.com/photo-1541534741688-6078c64b5ec5?q=80&w=800",
                "Der Zerstörer", "Gewichte erzittern vor dir."),
    61 := Stage("https://images.unsplash.com/photo-1605296867304-46d5465a13f1?q=80&w=800",
                "Das Stall-Monster", "Du bist kaum noch zu halten."),
    71 := Stage("https://images.unsplash.com/photo-1526506118085-60ce8714f8c5?q=80&w=800",
                "Der Mystiker", "Das Horn glüht vor Energie."),
    81 := Stage("https://images.unsplash.com/photo-1571019613454-1cb2f99b2d8b?q=80&w=800",
                "Der Halbgott", "Du beherrschst den Stall."),
    91 := Stage("https://images.unsplash.com/photo-1597452485669-2c7bb5fef90d?q=80&w=800",
                "IRON UNICORN", "Die ultimative Legende.")
  ]

  /** A stage key of the form 10*k + 1 for k in [0, 9]. */
  predicate IsStageKey(t: int)
  {
    1 <= t <= 91 && t % 10 == 1
  }

  /** Every key of the table is one of 1, 11, ..., 91. */
  lemma EvolutionStageKeysAreStageKeys()
    ensures forall t :: t in EvolutionStages ==> IsStageKey(t)
  {
  }

  /** Each of 1, 11, ..., 91 is a key of the table; so threshold 1, the fallback, is present. */
  lemma StageKeysAreEvolutionStageKeys()
    ensures forall t :: IsStageKey(t) ==> t in EvolutionStages
  {
    forall t | IsStageKey(t) ensures t in EvolutionStages {
      var k := (t - 1) / 10;
      assert t == 10 * k + 1 && 0 <= k < 10;
    }
  }

  /** The table has exactly ten thresholds. */
  lemma EvolutionStageCount()
    ensures |EvolutionStages| == 10
  {
    var keys: set<int> := {};
    var k := 0;
    while k < 10
      invariant 0 <= k <= 10
      invariant keys == set j | 0 <= j < k :: 10 * j + 1
      invariant |keys| == k
    {
      assert 10 * k + 1 !in keys;
      keys := keys + {10 * k + 1};
      k := k + 1;
    }
    EvolutionStageKeysAreStageKeys();
    StageKeysAreEvolutionStageKeys();
    forall t ensures t in keys <==> t in EvolutionStages {
      if IsStageKey(t) {
        assert t == 10 * ((t - 1) / 10) + 1;
      }
    }
    assert keys == EvolutionStages.Keys;
  }

  /** Every stage has a non-empty image url, name and description. */
  lemma EvolutionStagesNonEmpty()
    ensures forall t :: t in EvolutionStages ==>
      EvolutionStages[t].url != "" && EvolutionStages[t].name != "" && EvolutionStages[t].desc != ""
  {
  }

  /** The mock exercise entry as written: no session annotations. */
  function MockExercise(id: string, name: string, sets: int, reps: string, hint: string): Exercise
  {
    Exercise(id, name, sets, reps, hint, None, None, None, None)
  }

  const MockExercises: seq<Exercise> := [
    MockExercise("1", "Kniebeugen (Squats)", 4, "8-10", "Letzte Rep gerade noch möglich"),
    MockExercise("2", "Bankdrücken", 3, "10", "Konzentrische Phase kontrolliert"),
    MockExercise("3", "Kreuzheben", 5, "5", "Kraftfokus, Technik vor Gewicht")
  ]

  const MockPlans: seq<TrainingPlan> := [
    TrainingPlan("basic-strength", "Basic Strength", 6, Strength,
      "Fundament für massive Kraft. Erstellt von Profi-Powerliftern.",
      [WorkoutDay(1, "Lower Body A", MockExercises), WorkoutDay(2, "Upper Body A", MockExercises)]),
    TrainingPlan("hypertrophy-max", "Hypertrophy Pro", 12, Hypertrophy,
      "Maximaler Muskelaufbau mit Volumen-Fokus.",
      [WorkoutDay(1, "Chest & Back", MockExercises), WorkoutDay(2, "Legs & Core", MockExercises)])
  ]

  /** The mock exercises have pairwise distinct ids, positive set counts and no session annotations. */
  lemma MockExercisesWellFormed()
    ensures |MockExercises| == 3
    ensures forall i, j :: 0 <= i < j < |MockExercises| ==> MockExercises[i].id != MockExercises[j].id
    ensures forall e :: e in MockExercises ==> e.sets > 0 && e.completed.None? && e.difficulty.None?
  {
  }

  /** Two plans with distinct ids, one of each focus, each with days numbered 1 and 2 holding exercises. */
  lemma MockPlansWellFormed()
    ensures |MockPlans| == 2
    ensures MockPlans[0].id != MockPlans[1].id
    ensures MockPlans[0].focus == Strength && MockPlans[1].focus == Hypertrophy
    ensures forall p :: p in MockPlans ==>
      |p.days| == 2 && p.days[0].day == 1 && p.days[1].day == 2 &&
      p.days[0].exercises == MockExercises && p.days[1].exercises == MockExercises
  {
  }
}
