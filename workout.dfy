/**
 * The workout checklist (components/WorkoutView.tsx): the exercises of the chosen day, each
 * ticked off and rated by id, and the finish button that is enabled once every exercise is
 * done and then awards the workout's xp.
 */
module WorkoutChecklist {
  import opened Types
  import opened Constants

  /** The xp a finished workout passes on: `onFinish(75)`. */
  const FinishXp := 75

  /** `dayOverride || MOCK_PLANS[0].days[0]`: a chosen day, else the first day of the first plan. */
  function CurrentDay(dayOverride: Option<WorkoutDay>): (d: WorkoutDay)
    ensures dayOverride.Some? ==> d == dayOverride.value
    ensures dayOverride.None? ==> d == MockPlans[0].days[0] && d.day == 1 && d.exercises == MockExercises
  {
    if dayOverride.Some? then dayOverride.value else MockPlans[0].days[0]
  }

  /** An exercise counts as done when `completed` is truthy. */
  predicate IsDone(e: Exercise)
  {
    TruthyFlag(e.completed)
  }

  /** `day.exercises.map(ex => ({...ex, completed: false}))`. */
  function InitialExercises(day: WorkoutDay): (xs: seq<Exercise>)
    ensures |xs| == |day.exercises|
    ensures forall i :: 0 <= i < |xs| ==> xs[i] == day.exercises[i].(completed := Some(false))
  {
    seq(|day.exercises|, i requires 0 <= i < |day.exercises| => day.exercises[i].(completed := Some(false)))
  }

  /** `{...ex, completed: !ex.completed}`: an absent flag becomes `true`. */
  function Toggled(e: Exercise): Exercise
  {
    e.(completed := Some(!IsDone(e)))
  }

  /** `prev.map(ex => ex.id === id ? Toggled(ex) : ex)`. */
  function Toggle(xs: seq<Exercise>, id: string): (r: seq<Exercise>)
    ensures |r| == |xs|
    ensures forall i :: 0 <= i < |xs| ==> r[i] == if xs[i].id == id then Toggled(xs[i]) else xs[i]
  {
    if xs == [] then [] else [if xs[0].id == id then Toggled(xs[0]) else xs[0]] + Toggle(xs[1..], id)
  }

  /** `prev.map(ex => ex.id === id ? {...ex, difficulty} : ex)`. */
  function SetDifficulty(xs: seq<Exercise>, id: string, difficulty: Option<Difficulty>): (r: seq<Exercise>)
    ensures |r| == |xs|
    ensures forall i :: 0 <= i < |xs| ==> r[i] == if xs[i].id == id then xs[i].(difficulty := difficulty) else xs[i]
  {
    if xs == [] then []
    else [if xs[0].id == id then xs[0].(difficulty := difficulty) else xs[0]] + SetDifficulty(xs[1..], id, difficulty)
  }

  /** `exercises.filter(e => e.completed).length`. */
  function CompletedCount(xs: seq<Exercise>): (n: nat)
    ensures n <= |xs|
    ensures n == |xs| <==> forall i :: 0 <= i < |xs| ==> IsDone(xs[i])
    ensures n == 0 <==> forall i :: 0 <= i < |xs| ==> !IsDone(xs[i])
  {
    if xs == [] then 0
    else
      assert forall i :: 1 <= i < |xs| ==> xs[i] == xs[1..][i - 1];
      (if IsDone(xs[0]) then 1 else 0) + CompletedCount(xs[1..])
  }

  /** The finish button is enabled unless `completedCount < exercises.length`. */
  predicate CanFinish(xs: seq<Exercise>)
  {
    !(CompletedCount(xs) < |xs|)
  }

  /** Finishing is possible exactly when every exercise is done. */
  lemma CanFinishIffAllDone(xs: seq<Exercise>)
    ensures CanFinish(xs) <==> CompletedCount(xs) == |xs|
    ensures CanFinish(xs) <==> forall i :: 0 <= i < |xs| ==> IsDone(xs[i])
  {
  }

  /** A fresh checklist has every flag present and false: nothing done, finishable only when empty. */
  lemma InitialExercisesNothingDone(day: WorkoutDay)
    ensures forall e :: e in InitialExercises(day) ==> e.completed == Some(false)
    ensures CompletedCount(InitialExercises(day)) == 0
    ensures CanFinish(InitialExercises(day)) <==> |day.exercises| == 0
  {
  }

  /** One exercise toggled twice has its done flag back, and is itself back when the flag was present. */
  lemma ToggledTwice(e: Exercise)
    ensures IsDone(Toggled(Toggled(e))) == IsDone(e)
    ensures e.completed.Some? ==> Toggled(Toggled(e)) == e
  {
    if e.completed.Some? {
      assert e.completed == Some(IsDone(e));
    }
  }

  /** Toggling twice restores every done flag, and restores the list itself when every flag was present. */
  lemma {:induction false} ToggleTwice(xs: seq<Exercise>, id: string)
    ensures |Toggle(Toggle(xs, id), id)| == |xs|
    ensures forall i :: 0 <= i < |xs| ==> IsDone(Toggle(Toggle(xs, id), id)[i]) == IsDone(xs[i])
    ensures (forall i :: 0 <= i < |xs| ==> xs[i].completed.Some?) ==> Toggle(Toggle(xs, id), id) == xs
  {
    var once := Toggle(xs, id);
    var r := Toggle(once, id);
    forall i | 0 <= i < |xs|
      ensures IsDone(r[i]) == IsDone(xs[i])
      ensures xs[i].completed.Some? ==> r[i] == xs[i]
    {
      ToggledTwice(xs[i]);
      var e := once[i];
      assert r[i] == if e.id == id then Toggled(e) else e;
    }
  }

  predicate UniqueExerciseIds(xs: seq<Exercise>)
  {
    forall i, j :: 0 <= i < j < |xs| ==> xs[i].id != xs[j].id
  }

  /** With distinct ids, toggling exercise k moves the completed count by exactly one. */
  lemma {:induction false} ToggleMovesCountByOne(xs: seq<Exercise>, k: nat)
    requires k < |xs| && UniqueExerciseIds(xs)
    ensures CompletedCount(Toggle(xs, xs[k].id)) == CompletedCount(xs) + (if IsDone(xs[k]) then -1 else 1)
  {
    var id := xs[k].id;
    var r := Toggle(xs, id);
    assert r[1..] == Toggle(xs[1..], id);
    if k == 0 {
      assert Toggle(xs[1..], id) == xs[1..];
    } else {
      ToggleMovesCountByOne(xs[1..], k - 1);
    }
  }

  /** Rating an exercise changes no done flag, hence not the completed count. */
  lemma DifficultyKeepsProgress(xs: seq<Exercise>, id: string, difficulty: Option<Difficulty>)
    ensures forall i :: 0 <= i < |xs| ==> SetDifficulty(xs, id, difficulty)[i].completed == xs[i].completed
    ensures CompletedCount(SetDifficulty(xs, id, difficulty)) == CompletedCount(xs)
  {
    var r := SetDifficulty(xs, id, difficulty);
    CompletedCountPointwise(xs, r);
  }

  /** Two lists with the same done flags have the same completed count. */
  lemma {:induction false} CompletedCountPointwise(a: seq<Exercise>, b: seq<Exercise>)
    requires |a| == |b| && forall i :: 0 <= i < |a| ==> IsDone(a[i]) == IsDone(b[i])
    ensures CompletedCount(a) == CompletedCount(b)
  {
    if a != [] {
      CompletedCountPointwise(a[1..], b[1..]);
    }
  }

  /** The state of one WorkoutView: the day, its checklist and the finishing splash flag. */
  class WorkoutSession {
    const currentDay: WorkoutDay
    var exercises: seq<Exercise>
    var isFinishing: bool

    constructor (dayOverride: Option<WorkoutDay>)
      ensures currentDay == CurrentDay(dayOverride)
      ensures exercises == InitialExercises(currentDay)
      ensures !isFinishing
    {
      currentDay := CurrentDay(dayOverride);
      exercises := InitialExercises(CurrentDay(dayOverride));
      isFinishing := false;
    }

    method ToggleExercise(id: string)
      modifies this
      ensures exercises == Toggle(old(exercises), id)
      ensures isFinishing == old(isFinishing)
    {
      exercises := Toggle(exercises, id);
    }

    method HandleDifficulty(id: string, difficulty: Option<Difficulty>)
      modifies this
      ensures exercises == SetDifficulty(old(exercises), id, difficulty)
      ensures isFinishing == old(isFinishing)
    {
      exercises := SetDifficulty(exercises, id, difficulty);
    }

    /**
     * A press on the finish button. A disabled button does nothing; an enabled one shows the
     * splash and hands the workout's xp to the parent, returned here.
     */
    method PressFinish() returns (xpGained: Option<int>)
      modifies this
      ensures exercises == old(exercises)
      ensures CanFinish(old(exercises)) ==> isFinishing && xpGained == Some(FinishXp)
      ensures !CanFinish(old(exercises)) ==> isFinishing == old(isFinishing) && xpGained == None
    {
      if CompletedCount(exercises) < |exercises| {
        return None;
      }
      isFinishing := true;
      xpGained := Some(75);
    }
  }
}
