/**
 * The logic of the dashboard (components/Dashboard.tsx): the next milestone shown beside the
 * level, the avatar refresh with its loading flag, the refresh on mount, and the challenge
 * click guard. The dashboard writes to the profile only through the store's update handlers.
 */
module DashboardLogic {
  import opened Types
  import opened Gemini
  import opened Progression

  // ---------------------------------------------------------------------------
  // nextEvolutionLevel

  /** The milestone levels the dashboard can show. */
  const Milestones: seq<int> := [10, 25, 50, 75, 100]

  /** The upper ends of the first four level brackets: (.., 1], (1, 10], (10, 25], (25, 50]. */
  const BracketEnds: seq<int> := [1, 10, 25, 50]

  /** The milestone shown for a level: a step function with steps at 1, 10, 25 and 50. */
  function NextEvolutionLevel(level: int): (n: int)
    ensures n in Milestones
    ensures level < 100 ==> n > level
    ensures level > 50 ==> n == 100
  {
    if level <= 1 then 10 else if level <= 10 then 25 else if level <= 25 then 50 else if level <= 50 then 75 else 100
  }

  /** How many bracket ends lie strictly below the level: the index of the level's bracket. */
  function EndsBelow(ends: seq<int>, level: int): (k: nat)
    ensures k <= |ends|
  {
    if ends == [] then 0 else (if ends[0] < level then 1 else 0) + EndsBelow(ends[1..], level)
  }

  /** A second reading of the step function: the k-th milestone, k being the level's bracket. */
  lemma NextEvolutionLevelByBracket(level: int)
    ensures NextEvolutionLevel(level) == Milestones[EndsBelow(BracketEnds, level)]
  {
    var below := (if 1 < level then 1 else 0) + (if 10 < level then 1 else 0) +
                 (if 25 < level then 1 else 0) + (if 50 < level then 1 else 0);
    assert [50][1..] == [];
    assert [25, 50][1..] == [50];
    assert [10, 25, 50][1..] == [25, 50];
    assert BracketEnds[1..] == [10, 25, 50];
    assert EndsBelow([50], level) == (if 50 < level then 1 else 0);
    assert EndsBelow([25, 50], level) == (if 25 < level then 1 else 0) + EndsBelow([50], level);
    assert EndsBelow([10, 25, 50], level) == (if 10 < level then 1 else 0) + EndsBelow([25, 50], level);
    assert EndsBelow(BracketEnds, level) == below;
  }

  /** A higher level never shows a lower milestone. */
  lemma NextEvolutionLevelMonotone(a: int, b: int)
    requires a <= b
    ensures NextEvolutionLevel(a) <= NextEvolutionLevel(b)
  {
  }

  // ---------------------------------------------------------------------------
  // The challenge click guard

  /** `!c.completed && onCompleteChallenge(c.id)`: the id handed to the handler, if any. */
  function ChallengeClick(c: Challenge): (fired: Option<string>)
    ensures fired.Some? <==> !c.completed
    ensures fired.Some? ==> fired.value == c.id
  {
    if c.completed then None else Some(c.id)
  }

  /** The profile after a click on a listed challenge. */
  function AfterClick(s: UserStats, c: Challenge): UserStats
  {
    match ChallengeClick(c)
    case None => s
    case Some(id) => CompletedChallenge(s, id)
  }

  /**
   * With distinct ids, a click on a listed challenge does what the completion handler alone
   * would do: the click guard and the handler's own guard agree, and a completed challenge's
   * click changes nothing.
   */
  lemma ClickAgreesWithHandler(s: UserStats, c: Challenge)
    requires UniqueIds(s.challenges) && c in s.challenges
    ensures AfterClick(s, c) == CompletedChallenge(s, c.id)
    ensures c.completed ==> AfterClick(s, c) == s
  {
    var i :| 0 <= i < |s.challenges| && s.challenges[i] == c;
    var found := FirstIndexOf(s.challenges, c.id);
    assert found == Some(i);
    if c.completed {
      CompleteChallengeNoOp(s, c.id);
    }
  }

  // ---------------------------------------------------------------------------
  // The refresh on mount

  /** `!stats.avatarUrl && stats.onboardingComplete`. */
  predicate RefreshOnMount(s: UserStats)
  {
    !TruthyText(s.avatarUrl) && s.onboardingComplete
  }

  /**
   * The mount refresh never fires for the default profile, nor after onboarding, which
   * always stores the generated (non-empty) image path.
   */
  lemma MountRefreshNotNeeded(lifts: Lifts)
    requires OnboardingInputInRange(lifts)
    ensures !RefreshOnMount(DefaultStats())
    ensures forall s: UserStats :: !RefreshOnMount(Onboarded(s, lifts))
  {
    forall s: UserStats ensures !RefreshOnMount(Onboarded(s, lifts)) {
      OnboardedEffect(s, lifts);
    }
  }

  // ---------------------------------------------------------------------------
  // refreshAvatar

  /** How the awaited generator call ended: with a value, or by throwing. */
  datatype GeneratorOutcome = Returned(url: Option<string>) | Threw

  /** The avatar card of one mounted dashboard, writing to the profile store. */
  class AvatarPanel {
    const store: StatsStore
    var avatarLoading: bool
    /** How many times the key status was looked up: on every mount, and after a refresh without a picture. */
    var keyStatusChecks: nat

    constructor (store: StatsStore)
      ensures this.store == store
      ensures !avatarLoading && keyStatusChecks == 0
    {
      this.store := store;
      avatarLoading := false;
      keyStatusChecks := 0;
    }

    /** The part of refreshAvatar before the await: bail out while loading, else raise the flag. */
    method BeginRefresh() returns (started: bool)
      modifies this
      ensures started <==> !old(avatarLoading)
      ensures avatarLoading
      ensures keyStatusChecks == old(keyStatusChecks)
    {
      if avatarLoading {
        return false;
      }
      avatarLoading := true;
      started := true;
    }

    /**
     * The part after the await: a truthy url goes to the store as an avatar patch, a falsy one
     * triggers a key-status check, a throw is swallowed, and in every case the flag drops.
     */
    method EndRefresh(outcome: GeneratorOutcome)
      requires avatarLoading
      modifies this, store
      ensures !avatarLoading
      ensures outcome.Returned? && TruthyText(outcome.url) ==>
        store.stats == Merge(old(store.stats), AvatarPatch(outcome.url.value))
      ensures !(outcome.Returned? && TruthyText(outcome.url)) ==> store.stats == old(store.stats)
      ensures keyStatusChecks == old(keyStatusChecks) + (if outcome.Returned? && !TruthyText(outcome.url) then 1 else 0)
    {
      if outcome.Returned? {
        if TruthyText(outcome.url) {
          store.UpdateStats(AvatarPatch(outcome.url.value));
        } else {
          keyStatusChecks := keyStatusChecks + 1;
        }
      }
      avatarLoading := false;
    }

    /**
     * A whole refresh with the generator as it is: a refresh already under way makes this one do
     * nothing; otherwise the level's image path becomes the avatar and nothing else changes.
     */
    method RefreshAvatar() returns (started: bool)
      modifies this, store
      ensures started <==> !old(avatarLoading)
      ensures !started ==> avatarLoading && store.stats == old(store.stats)
      ensures started ==> !avatarLoading
      ensures started ==> store.stats == old(store.stats).(avatarUrl := Some(StaticEvolutionImage(old(store.stats).level)))
      ensures keyStatusChecks == old(keyStatusChecks)
    {
      started := BeginRefresh();
      if !started {
        return;
      }
      var url := GenerateUnicornAvatar(store.stats.level);
      EndRefresh(Returned(url));
      AvatarPatchKeepsRest(old(store.stats), url.value);
    }

    /**
     * The mount effect: the key status is always looked up, and the avatar is refreshed only for an
     * onboarded profile without a picture.
     */
    method Mount() returns (refreshed: bool)
      modifies this, store
      ensures keyStatusChecks == old(keyStatusChecks) + 1
      ensures refreshed <==> RefreshOnMount(old(store.stats)) && !old(avatarLoading)
      ensures refreshed ==> !avatarLoading
      ensures refreshed ==> store.stats == old(store.stats).(avatarUrl := Some(StaticEvolutionImage(old(store.stats).level)))
      ensures RefreshOnMount(old(store.stats)) && old(avatarLoading) ==> avatarLoading && store.stats == old(store.stats)
      ensures !RefreshOnMount(old(store.stats)) ==> store.stats == old(store.stats) && avatarLoading == old(avatarLoading)
    {
      keyStatusChecks := keyStatusChecks + 1;
      refreshed := false;
      if RefreshOnMount(store.stats) {
        refreshed := RefreshAvatar();
      }
    }
  }
}
