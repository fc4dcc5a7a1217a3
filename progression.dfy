/**
 * The progression engine of the client (App.tsx): the default profile and the transitions
 * that onboarding, completing a challenge, finishing a workout and merging a partial update
 * apply to the single `UserStats` record. Each transition is specified by a function on the
 * record, and the `StatsStore` class holds the record and updates it step by step as the
 * component does.
 */
module Progression {
  import opened Types
  import opened Gemini

  // ---------------------------------------------------------------------------
  // Level formula and evolution bumps

  /** The constant added to `floor(xp / 100)`: a strong start begins ten levels up. */
  function LevelOffset(isStrongStart: bool): int
  {
    if isStrongStart then 10 else 1
  }

  /**
   * `Math.floor(xp / 100) + (isStrongStart ? 10 : 1)`; Dafny's `/` on int with a positive
   * divisor rounds toward negative infinity, as `Math.floor` does. The level is not capped.
   */
  function LevelFor(xp: int, isStrongStart: bool): (level: int)
    ensures xp >= 0 ==> level >= LevelOffset(isStrongStart)
    ensures 0 <= xp < 100 ==> level == LevelOffset(isStrongStart)
  {
    xp / 100 + LevelOffset(isStrongStart)
  }

  /** The formula is non-decreasing in xp, and gains exactly one level per 100 xp. */
  lemma LevelForMonotone(a: int, b: int, isStrongStart: bool)
    requires a <= b
    ensures LevelFor(a, isStrongStart) <= LevelFor(b, isStrongStart)
    ensures LevelFor(a + 100, isStrongStart) == LevelFor(a, isStrongStart) + 1
  {
  }

  /** At zero xp the formula gives exactly the level that onboarding assigns. */
  lemma LevelForAtZero(isStrongStart: bool)
    ensures LevelFor(0, isStrongStart) == OnboardingLevel(isStrongStart)
  {
  }

  /** `Math.min(100, value + delta)`. */
  function AddCapped(value: int, delta: int): (r: int)
    ensures r <= 100
    ensures r == value + delta || r == 100
    ensures 0 <= value <= 100 && delta >= 0 ==> value <= r
  {
    if value + delta > 100 then 100 else value + delta
  }

  predicate PartInRange(v: int)
  {
    0 <= v <= 100
  }

  predicate EvolutionInRange(e: EvolutionParts)
  {
    PartInRange(e.chest) && PartInRange(e.arms) && PartInRange(e.legs) && PartInRange(e.horn)
  }

  /** Every part is at least what it was. */
  predicate EvolutionAtLeast(e: EvolutionParts, before: EvolutionParts)
  {
    e.chest >= before.chest && e.arms >= before.arms && e.legs >= before.legs && e.horn >= before.horn
  }

  function BumpEvolution(e: EvolutionParts, chest: nat, arms: nat, legs: nat, horn: nat): (r: EvolutionParts)
    ensures EvolutionInRange(e) ==> EvolutionInRange(r) && EvolutionAtLeast(r, e)
  {
    EvolutionParts(AddCapped(e.chest, chest), AddCapped(e.arms, arms), AddCapped(e.legs, legs), AddCapped(e.horn, horn))
  }

  /** The bump of a completed challenge: +5 chest, arms and legs, +10 horn. */
  function ChallengeBump(e: EvolutionParts): EvolutionParts
  {
    BumpEvolution(e, 5, 5, 5, 10)
  }

  /** The bump of a finished workout: +2 chest, +2 arms, +3 legs, +1 horn. */
  function WorkoutBump(e: EvolutionParts): EvolutionParts
  {
    BumpEvolution(e, 2, 2, 3, 1)
  }

  /** A part after `n` capped bumps of `delta`. */
  function AddCappedTimes(value: int, delta: nat, n: nat): int
  {
    if n == 0 then value else AddCapped(AddCappedTimes(value, delta, n - 1), delta)
  }

  /** Repeated bumps saturate at 100 instead of overshooting: n bumps add n * delta, capped. */
  lemma {:induction false} AddCappedTimesSaturates(value: int, delta: nat, n: nat)
    requires PartInRange(value)
    ensures AddCappedTimes(value, delta, n) == if value + n * delta > 100 then 100 else value + n * delta
  {
    if n > 0 {
      AddCappedTimesSaturates(value, delta, n - 1);
    }
  }

  // ---------------------------------------------------------------------------
  // Challenges: `find` by id and the completing `map`

  /** The index of the first challenge with the id, as `Array.prototype.find` scans. */
  function FirstIndexOf(cs: seq<Challenge>, id: string): (r: Option<nat>)
    ensures r.Some? ==> r.value < |cs| && cs[r.value].id == id
    ensures r.Some? ==> forall j :: 0 <= j < r.value ==> cs[j].id != id
    ensures r.None? <==> forall j :: 0 <= j < |cs| ==> cs[j].id != id
  {
    if cs == [] then None
    else if cs[0].id == id then Some(0)
    else
      match FirstIndexOf(cs[1..], id)
      case None => None
      case Some(i) => Some(i + 1)
  }

  /** `challenges.find(c => c.id === id)`. */
  function FindChallenge(cs: seq<Challenge>, id: string): Option<Challenge>
  {
    match FirstIndexOf(cs, id)
    case None => None
    case Some(i) => Some(cs[i])
  }

  /** `challenges.map(c => c.id === id ? {...c, completed: true} : c)`. */
  function MarkCompleted(cs: seq<Challenge>, id: string): (r: seq<Challenge>)
    ensures |r| == |cs|
    ensures forall i :: 0 <= i < |cs| ==>
      r[i] == if cs[i].id == id then cs[i].(completed := true) else cs[i]
  {
    if cs == [] then [] else
      [if cs[0].id == id then cs[0].(completed := true) else cs[0]] + MarkCompleted(cs[1..], id)
  }

  /** The lookup only sees ids, so it finds the same position after any id-preserving rewrite. */
  lemma {:induction false} FirstIndexOfSameIds(a: seq<Challenge>, b: seq<Challenge>, id: string)
    requires |a| == |b|
    requires forall i :: 0 <= i < |a| ==> a[i].id == b[i].id
    ensures FirstIndexOf(a, id) == FirstIndexOf(b, id)
  {
    if a != [] {
      FirstIndexOfSameIds(a[1..], b[1..], id);
    }
  }

  /** After completing `id`, looking `id` up finds the same challenge, now completed. */
  lemma FindAfterMark(cs: seq<Challenge>, id: string)
    requires FindChallenge(cs, id).Some?
    ensures FindChallenge(MarkCompleted(cs, id), id) == Some(FindChallenge(cs, id).value.(completed := true))
  {
    FirstIndexOfSameIds(cs, MarkCompleted(cs, id), id);
  }

  /** Marking keeps ids, rewards and completed flags, so no reward can turn negative. */
  lemma MarkCompletedKeeps(cs: seq<Challenge>, id: string)
    ensures CompletionKept(cs, MarkCompleted(cs, id))
    ensures RewardsNonNegative(cs) ==> RewardsNonNegative(MarkCompleted(cs, id))
  {
    var r := MarkCompleted(cs, id);
    if RewardsNonNegative(cs) {
      forall c | c in r ensures c.xpReward >= 0 {
        var i :| 0 <= i < |r| && r[i] == c;
        assert cs[i] in cs;
      }
    }
  }

  /** No challenge goes from completed back to open. */
  predicate CompletionKept(before: seq<Challenge>, after: seq<Challenge>)
  {
    |after| == |before| &&
    forall i :: 0 <= i < |before| ==>
      after[i].id == before[i].id && after[i].xpReward == before[i].xpReward &&
      (before[i].completed ==> after[i].completed)
  }

  predicate RewardsNonNegative(cs: seq<Challenge>)
  {
    forall c :: c in cs ==> c.xpReward >= 0
  }

  predicate UniqueIds(cs: seq<Challenge>)
  {
    forall i, j :: 0 <= i < j < |cs| ==> cs[i].id != cs[j].id
  }

  // ---------------------------------------------------------------------------
  // The default profile

  const DefaultChallenges: seq<Challenge> := [
    Challenge("c1", "Erstes Training", "Schließe dein erstes Workout ab.", 50, false, Consistency),
    Challenge("c2", "Double Trouble", "Trainiere 2 Tage hintereinander.", 100, false, Streak),
    Challenge("c3", "Heavy Hitter", "Logge ein Gewicht > Körpergewicht.", 150, false, Lift)
  ]

  const BaseEvolution := EvolutionParts(10, 10, 10, 5)

  const StrongStartEvolution := EvolutionParts(40, 40, 45, 10)

  /** The profile used when nothing is saved. It has no `gender` and no `avatarUrl`. */
  function DefaultStats(): UserStats
  {
    UserStats(None, 1, 0, 0, 0, None, Lifts(0, 0, 0, 0), BaseEvolution, false, false, DefaultChallenges)
  }

  /** The record invariants the transitions keep: xp, level and evolution in range, rewards non-negative. */
  predicate Wellformed(s: UserStats)
  {
    s.xp >= 0 &&
    1 <= s.level <= LevelFor(s.xp, s.isStrongStart) &&
    EvolutionInRange(s.evolution) &&
    RewardsNonNegative(s.challenges)
  }

  /** The default profile is well formed, its level agrees with the formula, and its three challenges are open. */
  lemma DefaultStatsWellformed()
    ensures Wellformed(DefaultStats())
    ensures DefaultStats().level == LevelFor(DefaultStats().xp, DefaultStats().isStrongStart)
    ensures UniqueIds(DefaultStats().challenges) && |DefaultStats().challenges| == 3
    ensures forall c :: c in DefaultStats().challenges ==> !c.completed
    ensures DefaultStats().gender.None? && DefaultStats().avatarUrl.None? && !DefaultStats().onboardingComplete
  {
  }

  // ---------------------------------------------------------------------------
  // Avatar updates inside the transitions

  /** `if (url) stats.avatarUrl = url`: only a truthy generator result replaces the avatar. */
  function AvatarAfter(current: Option<string>, generated: Option<string>): (r: Option<string>)
    ensures TruthyText(generated) ==> r == generated
    ensures !TruthyText(generated) ==> r == current
  {
    if TruthyText(generated) then generated else current
  }

  /** The avatar after a transition asks the generator for `level`: always that level's static path. */
  lemma AvatarAfterGenerate(current: Option<string>, level: int)
    ensures AvatarAfter(current, GenerateUnicornAvatar(level)) == Some(StaticEvolutionImage(level))
  {
  }

  // ---------------------------------------------------------------------------
  // handleOnboardingComplete

  /** The bounds of the onboarding form: body weight 30 to 300, each lift 0 to 500. */
  predicate OnboardingInputInRange(lifts: Lifts)
  {
    30 <= lifts.bodyweight <= 300 &&
    0 <= lifts.squat <= 500 && 0 <= lifts.bench <= 500 && 0 <= lifts.deadlift <= 500
  }

  function OnboardingLevel(isStrongStart: bool): int
  {
    if isStrongStart then 10 else 1
  }

  function OnboardingEvolution(isStrongStart: bool): EvolutionParts
  {
    if isStrongStart then StrongStartEvolution else BaseEvolution
  }

  /** The record after onboarding with the given lifts. */
  function Onboarded(s: UserStats, lifts: Lifts): UserStats
    requires OnboardingInputInRange(lifts)
  {
    var strong := lifts.squat >= lifts.bodyweight;
    s.(lifts := lifts, onboardingComplete := true, isStrongStart := strong,
       level := OnboardingLevel(strong), evolution := OnboardingEvolution(strong),
       avatarUrl := AvatarAfter(s.avatarUrl, GenerateUnicornAvatar(OnboardingLevel(strong))))
  }

  /** What onboarding sets, and that xp, streak, workouts and challenges are left as they were. */
  lemma OnboardedEffect(s: UserStats, lifts: Lifts)
    requires OnboardingInputInRange(lifts)
    ensures var r := Onboarded(s, lifts);
      && (r.isStrongStart <==> lifts.squat >= lifts.bodyweight)
      && r.level == (if r.isStrongStart then 10 else 1)
      && r.evolution == (if r.isStrongStart then EvolutionParts(40, 40, 45, 10) else EvolutionParts(10, 10, 10, 5))
      && r.onboardingComplete && r.lifts == lifts
      && r.xp == s.xp && r.streak == s.streak && r.totalWorkouts == s.totalWorkouts
      && r.challenges == s.challenges && r.gender == s.gender
      && r.avatarUrl == Some(StaticEvolutionImage(r.level))
  {
  }

  /** Onboarding a record with non-negative xp and rewards yields a well-formed record. */
  lemma OnboardedWellformed(s: UserStats, lifts: Lifts)
    requires OnboardingInputInRange(lifts)
    requires s.xp >= 0 && RewardsNonNegative(s.challenges)
    ensures Wellformed(Onboarded(s, lifts))
    ensures s.xp == 0 ==> Onboarded(s, lifts).level == LevelFor(0, Onboarded(s, lifts).isStrongStart)
  {
  }

  // ---------------------------------------------------------------------------
  // handleUpdateStats: `{...prev, ...patch}`

  /** A `Partial<UserStats>`: each field either absent (None) or given. */
  datatype StatsPatch = StatsPatch(
    gender: Option<Option<Gender>>,
    level: Option<int>,
    xp: Option<int>,
    streak: Option<nat>,
    totalWorkouts: Option<nat>,
    avatarUrl: Option<Option<string>>,
    lifts: Option<Lifts>,
    evolution: Option<EvolutionParts>,
    isStrongStart: Option<bool>,
    onboardingComplete: Option<bool>,
    challenges: Option<seq<Challenge>>)

  const EmptyPatch := StatsPatch(None, None, None, None, None, None, None, None, None, None, None)

  /** The patch the dashboard sends with a new avatar: `{ avatarUrl: url }`. */
  function AvatarPatch(url: string): StatsPatch
  {
    EmptyPatch.(avatarUrl := Some(Some(url)))
  }

  function Pick<T>(given: Option<T>, kept: T): T
  {
    if given.Some? then given.value else kept
  }

  /** The shallow merge: a field given in the patch replaces the old one, any other is kept. */
  function Merge(s: UserStats, p: StatsPatch): UserStats
  {
    UserStats(
      Pick(p.gender, s.gender), Pick(p.level, s.level), Pick(p.xp, s.xp), Pick(p.streak, s.streak),
      Pick(p.totalWorkouts, s.totalWorkouts), Pick(p.avatarUrl, s.avatarUrl), Pick(p.lifts, s.lifts),
      Pick(p.evolution, s.evolution), Pick(p.isStrongStart, s.isStrongStart),
      Pick(p.onboardingComplete, s.onboardingComplete), Pick(p.challenges, s.challenges))
  }

  /** The patch that spreads `p` and then `q`: `{...p, ...q}`. */
  function ThenPatch(p: StatsPatch, q: StatsPatch): StatsPatch
  {
    StatsPatch(
      if q.gender.Some? then q.gender else p.gender,
      if q.level.Some? then q.level else p.level,
      if q.xp.Some? then q.xp else p.xp,
      if q.streak.Some? then q.streak else p.streak,
      if q.totalWorkouts.Some? then q.totalWorkouts else p.totalWorkouts,
      if q.avatarUrl.Some? then q.avatarUrl else p.avatarUrl,
      if q.lifts.Some? then q.lifts else p.lifts,
      if q.evolution.Some? then q.evolution else p.evolution,
      if q.isStrongStart.Some? then q.isStrongStart else p.isStrongStart,
      if q.onboardingComplete.Some? then q.onboardingComplete else p.onboardingComplete,
      if q.challenges.Some? then q.challenges else p.challenges)
  }

  /** The merge is the identity on an empty patch, idempotent, and two merges are one merge of the combined patch. */
  lemma MergeLaws(s: UserStats, p: StatsPatch, q: StatsPatch)
    ensures Merge(s, EmptyPatch) == s
    ensures Merge(Merge(s, p), p) == Merge(s, p)
    ensures Merge(Merge(s, p), q) == Merge(s, ThenPatch(p, q))
  {
  }

  /** An avatar patch changes the avatar only, so it keeps the record well formed. */
  lemma AvatarPatchKeepsRest(s: UserStats, url: string)
    ensures Merge(s, AvatarPatch(url)) == s.(avatarUrl := Some(url))
    ensures Wellformed(s) ==> Wellformed(Merge(s, AvatarPatch(url)))
  {
  }

  // ---------------------------------------------------------------------------
  // handleCompleteChallenge

  /** The record after the user completes challenge `id`; a missing or completed challenge changes nothing. */
  function CompletedChallenge(s: UserStats, id: string): UserStats
  {
    match FindChallenge(s.challenges, id)
    case None => s
    case Some(c) =>
      if c.completed then s
      else
        var xp := s.xp + c.xpReward;
        var level := LevelFor(xp, s.isStrongStart);
        s.(challenges := MarkCompleted(s.challenges, id), xp := xp, evolution := ChallengeBump(s.evolution),
           level := level, avatarUrl := AvatarAfter(s.avatarUrl, GenerateUnicornAvatar(level)))
  }

  /** Completing a challenge that is missing, or whose first match is already completed, is a no-op. */
  lemma CompleteChallengeNoOp(s: UserStats, id: string)
    requires FindChallenge(s.challenges, id).None? || FindChallenge(s.challenges, id).value.completed
    ensures CompletedChallenge(s, id) == s
  {
  }

  /** Completing an open challenge marks it (and nothing else), adds its reward and recomputes the level. */
  lemma CompleteChallengeEffect(s: UserStats, id: string)
    requires FindChallenge(s.challenges, id).Some? && !FindChallenge(s.challenges, id).value.completed
    ensures var r := CompletedChallenge(s, id);
      && |r.challenges| == |s.challenges|
      && (forall i :: 0 <= i < |s.challenges| ==>
            r.challenges[i] == if s.challenges[i].id == id then s.challenges[i].(completed := true) else s.challenges[i])
      && r.xp == s.xp + FindChallenge(s.challenges, id).value.xpReward
      && r.level == LevelFor(r.xp, s.isStrongStart)
      && r.evolution == ChallengeBump(s.evolution)
      && r.avatarUrl == Some(StaticEvolutionImage(r.level))
      && r.streak == s.streak && r.totalWorkouts == s.totalWorkouts && r.lifts == s.lifts
      && r.isStrongStart == s.isStrongStart && r.onboardingComplete == s.onboardingComplete
      && r.gender == s.gender
      && FindChallenge(r.challenges, id).value.completed
  {
    FindAfterMark(s.challenges, id);
  }

  /** Completion is idempotent: the second completion of the same id changes nothing, so xp is granted once. */
  lemma {:induction false} CompleteChallengeIdempotent(s: UserStats, id: string)
    ensures CompletedChallenge(CompletedChallenge(s, id), id) == CompletedChallenge(s, id)
  {
    var found := FindChallenge(s.challenges, id);
    if found.Some? && !found.value.completed {
      FindAfterMark(s.challenges, id);
    }
  }

  /** Completing a challenge keeps the record well formed and never lowers xp or level. */
  lemma CompleteChallengeWellformed(s: UserStats, id: string)
    requires Wellformed(s)
    ensures var r := CompletedChallenge(s, id);
      Wellformed(r) && r.xp >= s.xp && r.level >= s.level && CompletionKept(s.challenges, r.challenges)
      && EvolutionAtLeast(r.evolution, s.evolution)
  {
    var found := FindChallenge(s.challenges, id);
    if found.Some? && !found.value.completed {
      var i := FirstIndexOf(s.challenges, id).value;
      assert s.challenges[i] in s.challenges;
      var xp := s.xp + found.value.xpReward;
      LevelForMonotone(s.xp, xp, s.isStrongStart);
      MarkCompletedKeeps(s.challenges, id);
    }
  }

  // ---------------------------------------------------------------------------
  // handleFinishWorkout

  /** The reward of the automatic first-workout challenge: c1's, when this is the first workout and c1 is open. */
  function FirstWorkoutReward(s: UserStats): int
  {
    if s.totalWorkouts == 0 && FindChallenge(s.challenges, "c1").Some? && !FindChallenge(s.challenges, "c1").value.completed
    then FindChallenge(s.challenges, "c1").value.xpReward
    else 0
  }

  /** `newLevel > stats.level || totalWorkouts % 3 === 0`: when a finished workout refreshes the avatar. */
  predicate WorkoutRefreshesAvatar(s: UserStats, xpGained: int)
  {
    LevelFor(s.xp + xpGained, s.isStrongStart) > s.level || (s.totalWorkouts + 1) % 3 == 0
  }

  /** The record right after the workout is counted: xp, level, counters and evolution. */
  function WorkoutCounted(s: UserStats, xpGained: int): UserStats
  {
    var newXp := s.xp + xpGained;
    s.(xp := newXp, level := LevelFor(newXp, s.isStrongStart), totalWorkouts := s.totalWorkouts + 1,
       streak := s.streak + 1, evolution := WorkoutBump(s.evolution))
  }

  /** On the first workout an open c1 is marked completed and its reward added to xp; the level is left alone. */
  function WithFirstWorkoutBonus(u: UserStats): UserStats
  {
    if u.totalWorkouts == 1 && FindChallenge(u.challenges, "c1").Some? && !FindChallenge(u.challenges, "c1").value.completed
    then u.(challenges := MarkCompleted(u.challenges, "c1"), xp := u.xp + FindChallenge(u.challenges, "c1").value.xpReward)
    else u
  }

  /**
   * The record after a finished workout worth `xpGained`. The level is computed from the
   * workout's xp before the first-workout bonus is added, as the component does.
   */
  function FinishedWorkout(s: UserStats, xpGained: int): UserStats
  {
    var bonused := WithFirstWorkoutBonus(WorkoutCounted(s, xpGained));
    if WorkoutRefreshesAvatar(s, xpGained)
    then bonused.(avatarUrl := AvatarAfter(bonused.avatarUrl, GenerateUnicornAvatar(bonused.level)))
    else bonused
  }

  /** The counters, xp, level and evolution after a finished workout; the avatar is refreshed exactly when due. */
  lemma FinishWorkoutEffect(s: UserStats, xpGained: int)
    ensures var r := FinishedWorkout(s, xpGained);
      && r.xp == s.xp + xpGained + FirstWorkoutReward(s)
      && r.level == LevelFor(s.xp + xpGained, s.isStrongStart)
      && r.totalWorkouts == s.totalWorkouts + 1
      && r.streak == s.streak + 1
      && r.evolution == WorkoutBump(s.evolution)
      && r.lifts == s.lifts && r.isStrongStart == s.isStrongStart && r.onboardingComplete == s.onboardingComplete
      && r.gender == s.gender
      && r.avatarUrl == (if WorkoutRefreshesAvatar(s, xpGained)
                         then Some(StaticEvolutionImage(r.level)) else s.avatarUrl)
  {
  }

  /** On the first workout an open c1 is completed and paid; otherwise the challenges are untouched. */
  lemma FinishWorkoutChallenges(s: UserStats, xpGained: int)
    ensures var r := FinishedWorkout(s, xpGained);
      if s.totalWorkouts == 0 && FindChallenge(s.challenges, "c1").Some? && !FindChallenge(s.challenges, "c1").value.completed
      then r.challenges == MarkCompleted(s.challenges, "c1") && FindChallenge(r.challenges, "c1").value.completed
      else r.challenges == s.challenges
  {
    if s.totalWorkouts == 0 && FindChallenge(s.challenges, "c1").Some? && !FindChallenge(s.challenges, "c1").value.completed {
      FindAfterMark(s.challenges, "c1");
    }
  }

  /** A finished workout with non-negative xp keeps the record well formed and never lowers xp or level. */
  lemma FinishWorkoutWellformed(s: UserStats, xpGained: int)
    requires Wellformed(s) && xpGained >= 0
    ensures var r := FinishedWorkout(s, xpGained);
      Wellformed(r) && r.xp >= s.xp && r.level >= s.level && CompletionKept(s.challenges, r.challenges)
      && EvolutionAtLeast(r.evolution, s.evolution)
  {
    var u := WorkoutCounted(s, xpGained);
    LevelForMonotone(s.xp, u.xp, s.isStrongStart);
    FirstWorkoutBonusWellformed(u);
  }

  /** The first-workout bonus keeps a record well formed, adds no negative xp and re-opens nothing. */
  lemma FirstWorkoutBonusWellformed(u: UserStats)
    requires Wellformed(u)
    ensures var b := WithFirstWorkoutBonus(u);
      Wellformed(b) && b.xp >= u.xp && b.level == u.level && b.evolution == u.evolution &&
      CompletionKept(u.challenges, b.challenges)
  {
    var b := WithFirstWorkoutBonus(u);
    if b != u {
      var i := FirstIndexOf(u.challenges, "c1").value;
      assert u.challenges[i] in u.challenges;
      LevelForMonotone(u.xp, b.xp, u.isStrongStart);
      MarkCompletedKeeps(u.challenges, "c1");
    }
  }

  /**
   * The level trails the formula after the first workout: from a fresh non-strong profile a
   * 75-xp workout plus the 50-xp bonus gives 125 xp but leaves the level at 1, not 2.
   */
  lemma FirstWorkoutLevelLags()
    ensures var s := Onboarded(DefaultStats(), Lifts(80, 60, 50, 100));
      var r := FinishedWorkout(s, 75);
      r.xp == 125 && r.level == 1 && LevelFor(r.xp, r.isStrongStart) == 2
  {
    var s := Onboarded(DefaultStats(), Lifts(80, 60, 50, 100));
    assert FindChallenge(s.challenges, "c1") == Some(DefaultChallenges[0]);
  }

  // ---------------------------------------------------------------------------
  // Sequences of transitions

  /** A user action that changes the stats after onboarding. */
  datatype Action = FinishWorkout(xpGained: int) | CompleteChallenge(id: string) | SetAvatar(url: string)

  function Apply(s: UserStats, a: Action): UserStats
  {
    match a
    case FinishWorkout(g) => FinishedWorkout(s, g)
    case CompleteChallenge(id) => CompletedChallenge(s, id)
    case SetAvatar(url) => Merge(s, AvatarPatch(url))
  }

  function Run(s: UserStats, actions: seq<Action>): UserStats
    decreases |actions|
  {
    if actions == [] then s else Run(Apply(s, actions[0]), actions[1..])
  }

  predicate GainsNonNegative(actions: seq<Action>)
  {
    forall a :: a in actions && a.FinishWorkout? ==> a.xpGained >= 0
  }

  /** Over any run of these actions, xp and level never decrease, and no challenge is re-opened. */
  lemma {:induction false} RunMonotone(s: UserStats, actions: seq<Action>)
    requires Wellformed(s) && GainsNonNegative(actions)
    decreases |actions|
    ensures var r := Run(s, actions);
      Wellformed(r) && r.xp >= s.xp && r.level >= s.level && CompletionKept(s.challenges, r.challenges)
      && EvolutionAtLeast(r.evolution, s.evolution)
  {
    if actions != [] {
      var next := Apply(s, actions[0]);
      match actions[0] {
        case FinishWorkout(g) => FinishWorkoutWellformed(s, g);
        case CompleteChallenge(id) => CompleteChallengeWellformed(s, id);
        case SetAvatar(url) => AvatarPatchKeepsRest(s, url);
      }
      assert forall a :: a in actions[1..] ==> a in actions;
      RunMonotone(next, actions[1..]);
    }
  }

  // ---------------------------------------------------------------------------
  // The component's state slot

  /** The `stats` state of the App component. */
  class StatsStore {
    var stats: UserStats

    /** Nothing saved: start from the default profile. */
    constructor ()
      ensures stats == DefaultStats()
    {
      stats := DefaultStats();
    }

    method OnboardingComplete(lifts: Lifts)
      requires OnboardingInputInRange(lifts)
      modifies this
      ensures stats == Onboarded(old(stats), lifts)
    {
      var isStrong := lifts.squat >= lifts.bodyweight;
      var newStats := stats.(lifts := lifts, onboardingComplete := true, isStrongStart := isStrong,
                             level := if isStrong then 10 else 1,
                             evolution := if isStrong then EvolutionParts(40, 40, 45, 10) else EvolutionParts(10, 10, 10, 5));
      var avatarUrl := GenerateUnicornAvatar(newStats.level);
      if TruthyText(avatarUrl) {
        newStats := newStats.(avatarUrl := avatarUrl);
      }
      stats := newStats;
    }

    method UpdateStats(patch: StatsPatch)
      modifies this
      ensures stats == Merge(old(stats), patch)
    {
      stats := Merge(stats, patch);
    }

    /** `handleCompleteChallenge`: a missing or completed challenge is ignored; otherwise pay it and re-level. */
    method CompleteChallenge(challengeId: string)
      modifies this
      ensures stats == CompletedChallenge(old(stats), challengeId)
    {
      var challenge := FindChallenge(stats.challenges, challengeId);
      if challenge.None? || challenge.value.completed {
        return;
      }
      PayChallenge(challengeId, challenge.value.xpReward);
      RecalculateLevel();
      RefreshAvatarIfDue(true);
    }

    /** Mark the challenge completed, add its reward and apply the challenge bump. */
    method PayChallenge(challengeId: string, xpReward: int)
      modifies this
      ensures stats == old(stats).(challenges := MarkCompleted(old(stats).challenges, challengeId),
                                   xp := old(stats).xp + xpReward, evolution := ChallengeBump(old(stats).evolution))
    {
      stats := stats.(challenges := MarkCompleted(stats.challenges, challengeId),
                      xp := stats.xp + xpReward, evolution := ChallengeBump(stats.evolution));
    }

    /** `updatedStats.level = Math.floor(updatedStats.xp / 100) + (isStrongStart ? 10 : 1)`. */
    method RecalculateLevel()
      modifies this
      ensures stats == old(stats).(level := LevelFor(old(stats).xp, old(stats).isStrongStart))
    {
      stats := stats.(level := stats.xp / 100 + (if stats.isStrongStart then 10 else 1));
    }

    /** `handleFinishWorkout`: count the workout, pay the first-workout bonus, then refresh the avatar when due. */
    method FinishWorkout(xpGained: int)
      modifies this
      ensures stats == FinishedWorkout(old(stats), xpGained)
    {
      var oldLevel := stats.level;
      var newLevel := CountWorkout(xpGained);
      GrantFirstWorkoutBonus();
      RefreshAvatarIfDue(newLevel > oldLevel || stats.totalWorkouts % 3 == 0);
    }

    /** The new xp, level, counters and evolution of a finished workout; returns the new level. */
    method CountWorkout(xpGained: int) returns (newLevel: int)
      modifies this
      ensures stats == WorkoutCounted(old(stats), xpGained)
      ensures newLevel == stats.level
    {
      var newXp := stats.xp + xpGained;
      newLevel := newXp / 100 + (if stats.isStrongStart then 10 else 1);
      stats := stats.(xp := newXp, level := newLevel, totalWorkouts := stats.totalWorkouts + 1,
                      streak := stats.streak + 1, evolution := WorkoutBump(stats.evolution));
    }

    /** On the first workout an open c1 is marked completed and its reward added to xp. */
    method GrantFirstWorkoutBonus()
      modifies this
      ensures stats == WithFirstWorkoutBonus(old(stats))
    {
      if stats.totalWorkouts == 1 {
        var c1 := FindChallenge(stats.challenges, "c1");
        if c1.Some? && !c1.value.completed {
          stats := stats.(challenges := MarkCompleted(stats.challenges, "c1"), xp := stats.xp + c1.value.xpReward);
        }
      }
    }

    /** When due, the generator is asked for the current level and a truthy result becomes the avatar. */
    method RefreshAvatarIfDue(due: bool)
      modifies this
      ensures stats == if due then old(stats).(avatarUrl := AvatarAfter(old(stats).avatarUrl, GenerateUnicornAvatar(old(stats).level)))
                       else old(stats)
    {
      if due {
        var newUrl := GenerateUnicornAvatar(stats.level);
        if TruthyText(newUrl) {
          stats := stats.(avatarUrl := newUrl);
        }
      }
    }
  }
}
