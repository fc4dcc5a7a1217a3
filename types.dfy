/** The records and enumerations of the Iron Unicorn client (types.ts). */
module Types {

  /** A TypeScript value that may be `undefined`: an optional field (`x?: T`) or a missing lookup. */
  datatype Option<+T> = None | Some(value: T)

  /** JavaScript truthiness of an optional string: `undefined` and `""` are falsy. */
  predicate TruthyText(v: Option<string>)
  {
    v.Some? && v.value != ""
  }

  /** JavaScript truthiness of an optional boolean: only `true` is truthy. */
  predicate TruthyFlag(v: Option<bool>)
  {
    v.Some? && v.value
  }

  /** The three self-assessment buttons of a finished exercise. */
  datatype Difficulty = TooEasy | JustRight | TooHard

  function DifficultyValue(d: Difficulty): (s: string)
    ensures s in {"too_easy", "just_right", "too_hard"}
  {
    match d
    case TooEasy => "too_easy"
    case JustRight => "just_right"
    case TooHard => "too_hard"
  }

  /** One exercise of a workout day; `completed` and `difficulty` are per-session annotations. */
  datatype Exercise = Exercise(
    id: string,
    name: string,
    sets: int,
    reps: string,
    weightHint: string,
    completed: Option<bool>,
    actualWeight: Option<int>,
    actualReps: Option<int>,
    difficulty: Option<Difficulty>)

  datatype WorkoutDay = WorkoutDay(day: int, name: string, exercises: seq<Exercise>)

  datatype Focus = Strength | Hypertrophy

  /** A training plan; it carries no strength requirement. */
  datatype TrainingPlan = TrainingPlan(
    id: string,
    title: string,
    durationWeeks: int,
    focus: Focus,
    description: string,
    days: seq<WorkoutDay>)

  /** Body weight and the three main lifts, in kilograms. */
  datatype Lifts = Lifts(bodyweight: int, squat: int, bench: int, deadlift: int)

  /** Cosmetic per-body-part progress, in percent. */
  datatype EvolutionParts = EvolutionParts(chest: int, arms: int, legs: int, horn: int)

  datatype ChallengeType = Streak | Lift | Consistency

  function ChallengeTypeValue(t: ChallengeType): (s: string)
    ensures s in {"streak", "lift", "consistency"}
  {
    match t
    case Streak => "streak"
    case Lift => "lift"
    case Consistency => "consistency"
  }

  datatype Challenge = Challenge(
    id: string,
    title: string,
    description: string,
    xpReward: int,
    completed: bool,
    kind: ChallengeType)

  datatype Gender = Male | Female

  /**
   * The single user's save state. `gender` is declared required in the type, but the
   * default profile has no such key and no transition sets it, so at run time it is
   * absent; it is optional here. `avatarUrl` is optional in the type itself.
   */
  datatype UserStats = UserStats(
    gender: Option<Gender>,
    level: int,
    xp: int,
    streak: nat,
    totalWorkouts: nat,
    avatarUrl: Option<string>,
    lifts: Lifts,
    evolution: EvolutionParts,
    isStrongStart: bool,
    onboardingComplete: bool,
    challenges: seq<Challenge>)

  datatype AppRoute = Landing | Onboarding | Dashboard | Workout | Level100 | Challenges

  /** The string value of each member of the `AppRoute` enum. */
  function RouteValue(r: AppRoute): string
  {
    match r
    case Landing => "landing"
    case Onboarding => "onboarding"
    case Dashboard => "dashboard"
    case Workout => "workout"
    case Level100 => "level100"
    case Challenges => "challenges"
  }

  const AllRoutes: seq<AppRoute> := [Landing, Onboarding, Dashboard, Workout, Level100, Challenges]

  /** The enum has exactly six members, and their string values are pairwise distinct. */
  lemma RoutesAreSixDistinctValues()
    ensures |AllRoutes| == 6
    ensures forall r: AppRoute :: r in AllRoutes
    ensures forall i, j :: 0 <= i < j < |AllRoutes| ==> RouteValue(AllRoutes[i]) != RouteValue(AllRoutes[j])
  {
    forall r: AppRoute ensures r in AllRoutes {
      match r
      case Landing => assert AllRoutes[0] == r;
      case Onboarding => assert AllRoutes[1] == r;
      case Dashboard => assert AllRoutes[2] == r;
      case Workout => assert AllRoutes[3] == r;
      case Level100 => assert AllRoutes[4] == r;
      case Challenges => assert AllRoutes[5] == r;
    }
  }

  /** Distinct difficulties have distinct string values. */
  lemma DifficultyValuesDistinct(a: Difficulty, b: Difficulty)
    ensures DifficultyValue(a) == DifficultyValue(b) <==> a == b
  {
  }

  /** Distinct challenge kinds have distinct string values. */
  lemma ChallengeTypeValuesDistinct(a: ChallengeType, b: ChallengeType)
    ensures ChallengeTypeValue(a) == ChallengeTypeValue(b) <==> a == b
  {
  }
}
