/** utils/confidence.py: the additive confidence score over seven report
    signals, in hundredths (0.25 is 25). Every weight is a whole number of
    hundredths, so `round(min(score, 1.0), 2)` is exact here. */
module Confidence {
  import opened Probe
  import opened Schema

  /** The weights, in the order `calculate_confidence` tests the signals:
      user id, Twitter presence, consistent timeline, username variants,
      unchanged avatar, external URL, emails. */
  const Weights: seq<nat> := [25, 20, 10, 5, 10, 10, 10]

  /** Which of the seven signals `r` carries, in the order of `Weights`.
      Each is Python truthiness of the field, except the avatar signal,
      which needs `avatar_changed` to be exactly `False`. */
  function Signals(r: Report): (flags: seq<bool>)
    ensures |flags| == |Weights|
  {
    [ r.userId != "",
      TwitterExists(r.platforms),
      r.timelineConsistency == "consistent",
      r.usernameVariants != [],
      r.avatarChanged == Some(false),
      r.profile.externalUrl != "",
      r.emails != [] ]
  }

  /** The sum of the weights whose flag is set. */
  function WeightedSum(flags: seq<bool>, weights: seq<nat>): nat
    requires |flags| == |weights|
    decreases |flags|
  {
    if flags == [] then 0
    else (if flags[0] then weights[0] else 0) + WeightedSum(flags[1..], weights[1..])
  }

  function Total(weights: seq<nat>): nat
    decreases |weights|
  {
    if weights == [] then 0 else weights[0] + Total(weights[1..])
  }

  /** The score the report earns: the weights of the signals present. */
  function Score(r: Report): nat
  {
    WeightedSum(Signals(r), Weights)
  }

  /** `calculate_confidence`: bump an accumulator once per signal present,
      then clamp to 1.0. */
  method CalculateConfidence(r: Report) returns (confidence: int)
    ensures confidence == Score(r)
    ensures 0 <= confidence <= 100
  {
    var score := 0;
    if r.userId != "" {
      score := score + 25;
    }
    if TwitterExists(r.platforms) {
      score := score + 20;
    }
    if r.timelineConsistency == "consistent" {
      score := score + 10;
    }
    if r.usernameVariants != [] {
      score := score + 5;
    }
    if r.avatarChanged == Some(false) {
      score := score + 10;
    }
    if r.profile.externalUrl != "" {
      score := score + 10;
    }
    if r.emails != [] {
      score := score + 10;
    }
    ScoreIsSumOfPresentWeights(r);
    ScoreAtMostNinety(r);
    confidence := if score < 100 then score else 100;
  }

  /** Seven flags against the seven weights, term by term. */
  lemma SumOfSeven(a: bool, b: bool, c: bool, d: bool, e: bool, f: bool, g: bool)
    ensures WeightedSum([a, b, c, d, e, f, g], Weights) ==
      (if a then 25 else 0) + (if b then 20 else 0) + (if c then 10 else 0) + (if d then 5 else 0)
      + (if e then 10 else 0) + (if f then 10 else 0) + (if g then 10 else 0)
  {
    var w := Weights;
    assert WeightedSum([g], w[6..]) == (if g then 10 else 0);
    assert WeightedSum([f, g], w[5..]) == (if f then 10 else 0) + WeightedSum([g], w[6..]);
    assert WeightedSum([e, f, g], w[4..]) == (if e then 10 else 0) + WeightedSum([f, g], w[5..]);
    assert WeightedSum([d, e, f, g], w[3..]) == (if d then 5 else 0) + WeightedSum([e, f, g], w[4..]);
    assert WeightedSum([c, d, e, f, g], w[2..]) == (if c then 10 else 0) + WeightedSum([d, e, f, g], w[3..]);
    assert WeightedSum([b, c, d, e, f, g], w[1..]) == (if b then 20 else 0) + WeightedSum([c, d, e, f, g], w[2..]);
  }

  /** The score spelled out signal by signal, as the source adds it up. */
  lemma ScoreIsSumOfPresentWeights(r: Report)
    ensures Score(r) ==
      (if r.userId != "" then 25 else 0)
      + (if TwitterExists(r.platforms) then 20 else 0)
      + (if r.timelineConsistency == "consistent" then 10 else 0)
      + (if r.usernameVariants != [] then 5 else 0)
      + (if r.avatarChanged == Some(false) then 10 else 0)
      + (if r.profile.externalUrl != "" then 10 else 0)
      + (if r.emails != [] then 10 else 0)
  {
    SumOfSeven(r.userId != "", TwitterExists(r.platforms), r.timelineConsistency == "consistent",
               r.usernameVariants != [], r.avatarChanged == Some(false), r.profile.externalUrl != "",
               r.emails != []);
  }

  lemma {:induction false} WeightedSumBounded(flags: seq<bool>, weights: seq<nat>)
    requires |flags| == |weights|
    ensures WeightedSum(flags, weights) <= Total(weights)
    decreases |flags|
  {
    if flags != [] {
      WeightedSumBounded(flags[1..], weights[1..]);
    }
  }

  /** The seven weights add up to 0.90, so the clamp to 1.0 never binds. */
  lemma ScoreAtMostNinety(r: Report)
    ensures Score(r) <= 90
  {
    WeightedSumBounded(Signals(r), Weights);
    assert Weights[1..][1..][1..][1..][1..][1..][1..] == [];
  }

  /** Turning one signal on adds exactly its weight. */
  lemma {:induction false} SwitchOn(flags: seq<bool>, weights: seq<nat>, i: int)
    requires |flags| == |weights| && 0 <= i < |flags|
    ensures WeightedSum(flags[i := true], weights) == WeightedSum(flags[i := false], weights) + weights[i]
    decreases |flags|
  {
    if i > 0 {
      SwitchOn(flags[1..], weights[1..], i - 1);
      assert flags[i := true][1..] == flags[1..][i - 1 := true];
      assert flags[i := false][1..] == flags[1..][i - 1 := false];
    } else {
      assert flags[i := true][1..] == flags[i := false][1..];
    }
  }

  /** More signals never lower the sum. */
  lemma {:induction false} WeightedSumMonotone(f: seq<bool>, g: seq<bool>, weights: seq<nat>)
    requires |f| == |g| == |weights|
    requires forall i :: 0 <= i < |f| && f[i] ==> g[i]
    ensures WeightedSum(f, weights) <= WeightedSum(g, weights)
    decreases |f|
  {
    if f != [] {
      WeightedSumMonotone(f[1..], g[1..], weights[1..]);
    }
  }

  /** A report that carries every signal another one carries scores at
      least as much. */
  lemma ScoreMonotone(r1: Report, r2: Report)
    requires forall i :: 0 <= i < |Weights| && Signals(r1)[i] ==> Signals(r2)[i]
    ensures Score(r1) <= Score(r2)
  {
    WeightedSumMonotone(Signals(r1), Signals(r2), Weights);
  }

  /** Switching any one of the seven signals on adds exactly its weight, so
      it never lowers the score. */
  lemma SignalAddsItsWeight(r1: Report, r2: Report, i: int)
    requires 0 <= i < |Weights|
    requires !Signals(r1)[i] && Signals(r2)[i]
    requires forall j :: 0 <= j < |Weights| && j != i ==> Signals(r1)[j] == Signals(r2)[j]
    ensures Score(r2) == Score(r1) + Weights[i]
  {
    var f1, f2 := Signals(r1), Signals(r2);
    assert f1 == f1[i := false] && f1[i := true] == f2;
    SwitchOn(f1, Weights, i);
  }

  /** The avatar term fires only for an explicit `False`: a missing key or
      `True` earns nothing, `False` earns 0.10. */
  lemma AvatarTermNeedsExplicitFalse(r: Report)
    ensures Score(r.(avatarChanged := None)) == Score(r.(avatarChanged := Some(true)))
    ensures Score(r.(avatarChanged := Some(false))) == Score(r.(avatarChanged := None)) + 10
  {
    SignalAddsItsWeight(r.(avatarChanged := None), r.(avatarChanged := Some(false)), 4);
  }

  /** Fields other than the seven tested ones do not affect the score. */
  lemma ScoreReadsOnlySevenFields(r1: Report, r2: Report)
    requires r1.userId == r2.userId && r1.platforms == r2.platforms
    requires r1.timelineConsistency == r2.timelineConsistency
    requires r1.usernameVariants == r2.usernameVariants
    requires r1.avatarChanged == r2.avatarChanged
    requires r1.profile.externalUrl == r2.profile.externalUrl && r1.emails == r2.emails
    ensures Score(r1) == Score(r2)
  {
  }

  /** None of the seven fields `calculate_confidence` reads holds a value
      that earns weight. */
  predicate NoSignal(r: Report)
  {
    && r.userId == "" && !TwitterExists(r.platforms)
    && r.timelineConsistency != "consistent" && r.usernameVariants == []
    && r.avatarChanged != Some(false) && r.profile.externalUrl == "" && r.emails == []
  }

  /** Falsy values add nothing: a report with none of the signals scores 0. */
  lemma NoSignalScoresZero(r: Report)
    requires NoSignal(r)
    ensures Score(r) == 0
  {
    ScoreIsSumOfPresentWeights(r);
  }
}
