/**
 * Avatar resolution (services/geminiService.ts): the static per-level image path, the
 * evolution-stage lookup and the avatar generator, which now only wraps the static path.
 */
module Gemini {
  import opened Types
  import opened Constants

  /** Public storage folder holding one uploaded image per level. */
  const StorageUrl := "https://rsnkmyqbzvwbghfqyjui.supabase.co/storage/v1/object/public/unicorns"

  /** Everything of an image path that precedes the level number. */
  const LevelPrefix := StorageUrl + "/level_"

  const PngSuffix := ".png"

  // ---------------------------------------------------------------------------
  // Decimal rendering of a level, as a template string renders an integer

  predicate IsDigit(c: char)
  {
    '0' <= c <= '9'
  }

  predicate AllDigits(s: string)
  {
    forall i :: 0 <= i < |s| ==> IsDigit(s[i])
  }

  function DigitChar(d: nat): (c: char)
    requires d < 10
    ensures IsDigit(c) && (c as int) - ('0' as int) == d
  {
    ('0' as int + d) as char
  }

  /** The shortest decimal numeral of n. */
  function NatToString(n: nat): (s: string)
    ensures |s| >= 1 && AllDigits(s)
    ensures s[0] == '0' ==> n == 0
  {
    if n < 10 then [DigitChar(n)] else NatToString(n / 10) + [DigitChar(n % 10)]
  }

  /** The value of a decimal numeral; the inverse of NatToString. */
  function DecimalValue(s: string): nat
    requires AllDigits(s)
  {
    if s == [] then 0
    else DecimalValue(s[..|s| - 1]) * 10 + ((s[|s| - 1] as int) - ('0' as int))
  }

  /** Reading back the rendered numeral gives the number. */
  lemma {:induction false} DecimalRoundTrip(n: nat)
    ensures DecimalValue(NatToString(n)) == n
  {
    var s := NatToString(n);
    if n >= 10 {
      DecimalRoundTrip(n / 10);
      assert s[..|s| - 1] == NatToString(n / 10);
    }
  }

  /** Distinct numbers are rendered as distinct numerals. */
  lemma NatToStringInjective(a: nat, b: nat)
    ensures NatToString(a) == NatToString(b) ==> a == b
  {
    DecimalRoundTrip(a);
    DecimalRoundTrip(b);
  }

  // ---------------------------------------------------------------------------
  // getStaticEvolutionImage

  /** `Math.max(1, Math.min(100, level))`. */
  function ClampLevel(level: int): (c: int)
    ensures 1 <= c <= 100
    ensures 1 <= level <= 100 ==> c == level
    ensures level < 1 ==> c == 1
    ensures level > 100 ==> c == 100
  {
    if level > 100 then 100 else if level < 1 then 1 else level
  }

  /** The path of the uploaded image for a level, the level clamped to [1, 100]. */
  function StaticEvolutionImage(level: int): (url: string)
    ensures |url| > |LevelPrefix| + |PngSuffix|
    ensures url[..|LevelPrefix|] == LevelPrefix
    ensures url[|url| - |PngSuffix|..] == PngSuffix
    ensures AllDigits(url[|LevelPrefix|..|url| - |PngSuffix|])
    ensures DecimalValue(url[|LevelPrefix|..|url| - |PngSuffix|]) == ClampLevel(level)
    ensures url[|LevelPrefix|] != '0'
  {
    var numeral := NatToString(ClampLevel(level));
    DecimalRoundTrip(ClampLevel(level));
    var url := LevelPrefix + numeral + PngSuffix;
    assert url[|LevelPrefix|..|url| - |PngSuffix|] == numeral;
    url
  }

  /** Clamping first changes nothing: the function clamps on its own. */
  lemma StaticImageClampIdempotent(level: int)
    ensures StaticEvolutionImage(ClampLevel(level)) == StaticEvolutionImage(level)
  {
  }

  /** Every level up to 1 shows image 1 and every level from 100 on shows image 100. */
  lemma StaticImageSaturates(level: int)
    ensures level <= 1 ==> StaticEvolutionImage(level) == LevelPrefix + "1" + PngSuffix
    ensures level >= 100 ==> StaticEvolutionImage(level) == LevelPrefix + "100" + PngSuffix
  {
    if level >= 100 {
      assert NatToString(100) == "100";
    }
  }

  /** Within [1, 100] distinct levels have distinct image paths. */
  lemma StaticImageInjective(a: int, b: int)
    requires 1 <= a <= 100 && 1 <= b <= 100
    ensures StaticEvolutionImage(a) == StaticEvolutionImage(b) ==> a == b
  {
    var ua, ub := StaticEvolutionImage(a), StaticEvolutionImage(b);
    if ua == ub {
      assert ua[|LevelPrefix|..|ua| - |PngSuffix|] == ub[|LevelPrefix|..|ub| - |PngSuffix|];
    }
  }

  // ---------------------------------------------------------------------------
  // getEvolutionInfo

  predicate StrictlyDecreasing(s: seq<int>)
  {
    forall i, j :: 0 <= i < j < |s| ==> s[i] > s[j]
  }

  /** The keys of the evolution table in descending order (`Object.keys(...).map(Number).sort(desc)`). */
  const ThresholdLevels: seq<int> := [91, 81, 71, 61, 51, 41, 31, 21, 11, 1]

  /** ThresholdLevels lists exactly the table's keys, strictly descending, ten apart. */
  lemma ThresholdLevelsAreSortedKeys()
    ensures StrictlyDecreasing(ThresholdLevels)
    ensures forall t :: t in ThresholdLevels <==> t in EvolutionStages
    ensures forall i :: 0 <= i < |ThresholdLevels| - 1 ==> ThresholdLevels[i] == ThresholdLevels[i + 1] + 10
  {
    EvolutionStageKeysAreStageKeys();
    StageKeysAreEvolutionStageKeys();
    forall t | IsStageKey(t) ensures t in ThresholdLevels {
      var k := (t - 1) / 10;
      assert t == 10 * k + 1 && 0 <= k < 10;
      assert ThresholdLevels[9 - k] == t;
    }
  }

  /** The `for` loop with early return: the first threshold, in the given order, that the level reaches. */
  function FirstReached(thresholds: seq<int>, level: int): (r: Option<int>)
    requires StrictlyDecreasing(thresholds)
    ensures r.Some? ==> r.value in thresholds && r.value <= level
    ensures r.Some? ==> forall t :: t in thresholds && t <= level ==> t <= r.value
    ensures r.None? <==> forall t :: t in thresholds ==> t > level
  {
    if thresholds == [] then None
    else if level >= thresholds[0] then Some(thresholds[0])
    else
      assert forall t :: t in thresholds ==> t == thresholds[0] || t in thresholds[1..];
      FirstReached(thresholds[1..], level)
  }

  /** The key of the stage that getEvolutionInfo returns. */
  function EvolutionThreshold(level: int): (t: int)
    ensures t in EvolutionStages
    ensures level >= 1 ==> t <= level && forall k :: k in EvolutionStages && k <= level ==> k <= t
    ensures level < 1 ==> t == 1
  {
    ThresholdLevelsAreSortedKeys();
    assert ThresholdLevels[9] == 1;
    match FirstReached(ThresholdLevels, level)
    case Some(t) => t
    case None => 1
  }

  /** The stage of the greatest threshold at most the level; stage 1 when no threshold is reached. */
  function GetEvolutionInfo(level: int): (s: Stage)
    ensures s == EvolutionStages[EvolutionThreshold(level)]
    ensures level < 1 ==> s == EvolutionStages[1]
  {
    match FirstReached(ThresholdLevels, level)
    case Some(t) => EvolutionStages[t]
    case None => EvolutionStages[1]
  }

  /** A closed form: level L in [1, 100] belongs to the stage keyed 10 * ((L - 1) / 10) + 1, capped at 91. */
  lemma EvolutionThresholdClosedForm(level: int)
    requires level >= 1
    ensures EvolutionThreshold(level) == if level > 91 then 91 else 10 * ((level - 1) / 10) + 1
  {
    var t := EvolutionThreshold(level);
    var expected := if level > 91 then 91 else 10 * ((level - 1) / 10) + 1;
    EvolutionStageKeysAreStageKeys();
    StageKeysAreEvolutionStageKeys();
    StageKeyBracket(level);
    assert expected in EvolutionStages;
    assert IsStageKey(t);
  }

  /** The greatest stage key at most a level L >= 1: 10 * ((L - 1) / 10) + 1, capped at 91. */
  lemma StageKeyBracket(level: int)
    requires level >= 1
    ensures var expected := if level > 91 then 91 else 10 * ((level - 1) / 10) + 1;
      IsStageKey(expected) && expected <= level &&
      forall t :: IsStageKey(t) && t <= level ==> t <= expected
  {
    if level <= 91 {
      var k := (level - 1) / 10;
      forall t | IsStageKey(t) && t <= level ensures t <= 10 * k + 1 {
        var j := (t - 1) / 10;
        assert t == 10 * j + 1;
      }
    }
  }

  /** A higher level never falls back to a lower stage. */
  lemma EvolutionThresholdMonotone(a: int, b: int)
    requires a <= b
    ensures EvolutionThreshold(a) <= EvolutionThreshold(b)
  {
    EvolutionStageKeysAreStageKeys();
  }

  // ---------------------------------------------------------------------------
  // generateUnicornAvatar

  /** The generator is now total: it always yields the (non-empty) static path of the level. */
  function GenerateUnicornAvatar(level: int): (r: Option<string>)
    ensures r.Some? && TruthyText(r)
    ensures r.value == StaticEvolutionImage(level)
  {
    Some(StaticEvolutionImage(level))
  }
}
