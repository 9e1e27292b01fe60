/** The rule-based fraud score of the model service, computed with rounding errors. */
module Scoring {

  type FeatureMap = map<string, string>

  const MODEL_VERSION := "rules-v1"
  const BASE_HUNDREDTHS: nat := 5

  /** A bound on the error of one constant, addition or multiplication; seven of them,
      scaled by 100, and one more stay below half a hundredth of a score. */
  const EPSILON: real := 0.0007

  datatype Rule = PolicyStatus | CoverageType | AddressValidity

  datatype Explanation = Because(rule: Rule, hundredths: nat) | NoRiskFactors

  /** A missing key reads as the empty string. */
  function Lookup(features: FeatureMap, key: string): string {
    if key in features then features[key] else ""
  }

  predicate ParsesTrue(s: string) {
    s == "1" || s == "t" || s == "T" || s == "TRUE" || s == "true" || s == "True"
  }

  /** The hundredths a rule adds; zero when it is not triggered. */
  function Weight(rule: Rule, features: FeatureMap): nat {
    match rule
    case PolicyStatus =>
      var status := Lookup(features, "policy_status");
      if status == "active" then 0 else if status == "lapsed" then 15 else if status == "cancelled" then 25 else 30
    case CoverageType => if Lookup(features, "policy_coverage_type") == "" then 5 else 0
    case AddressValidity => if ParsesTrue(Lookup(features, "address_valid")) then 0 else 10
  }

  /** The explanation of a rule, if it is triggered. */
  function Reason(rule: Rule, features: FeatureMap): seq<Explanation> {
    if Weight(rule, features) > 0 then [Because(rule, Weight(rule, features))] else []
  }

  function Reasons(features: FeatureMap): seq<Explanation> {
    Reason(PolicyStatus, features) + Reason(CoverageType, features) + Reason(AddressValidity, features)
  }

  /** The exact score: the base plus the weights of the triggered rules. */
  function Hundredths(features: FeatureMap): nat {
    BASE_HUNDREDTHS
    + Weight(PolicyStatus, features) + Weight(CoverageType, features) + Weight(AddressValidity, features)
  }

  function ScoreValue(features: FeatureMap): real { Hundredths(features) as real / 100.0 }

  function Sum(explanations: seq<Explanation>): nat {
    if explanations == [] then 0
    else
      Sum(explanations[..|explanations| - 1])
      + match explanations[|explanations| - 1] case Because(_, w) => w case NoRiskFactors => 0
  }

  /** Half away from zero. */
  function Round(x: real): int {
    if x >= 0.0 then (x + 0.5).Floor else -((-x + 0.5).Floor)
  }

  function Min(a: real, b: real): real { if a <= b then a else b }

  predicate Small(noise: nat -> real, i: nat) {
    -EPSILON <= noise(i) <= EPSILON
  }

  /** The table of points: five to start with, up to thirty for the policy status, five for a
      missing coverage type and ten for an address not known to be valid, with an explanation
      of each in that order. */
  predicate Tabled(features: FeatureMap, score: real, explanations: seq<Explanation>) {
    var status := if "policy_status" in features then features["policy_status"] else "";
    var covered := "policy_coverage_type" in features && features["policy_coverage_type"] != "";
    var valid := "address_valid" in features && features["address_valid"] in ["1", "t", "T", "TRUE", "true", "True"];
    && PointsFor(status, covered, valid, score)
    && explanations ==
       if status == "active" && covered && valid then [NoRiskFactors]
       else
         (if status == "active" then [] else if status == "lapsed" then [Because(PolicyStatus, 15)]
          else if status == "cancelled" then [Because(PolicyStatus, 25)] else [Because(PolicyStatus, 30)])
         + (if covered then [] else [Because(CoverageType, 5)])
         + (if valid then [] else [Because(AddressValidity, 10)])
  }

  predicate PointsFor(status: string, covered: bool, valid: bool, score: real) {
    score * 100.0 ==
    5.0
    + (if status == "active" then 0.0 else if status == "lapsed" then 15.0
       else if status == "cancelled" then 25.0 else 30.0)
    + (if covered then 0.0 else 5.0)
    + (if valid then 0.0 else 10.0)
  }

  lemma {:induction false} ScoreIsTabled(features: FeatureMap)
    ensures Tabled(features, ScoreValue(features),
                   if Reasons(features) == [] then [NoRiskFactors] else Reasons(features))
  {
  }

  /** The score, where the i-th constant, sum or product is off by `noise(i)`. Rounding to
      hundredths absorbs every such drift: the result is exactly the base plus the weights of
      the triggered rules, and the clamp to 1 changes nothing. */
  method Score(features: FeatureMap, noise: nat -> real) returns (score: real, explanations: seq<Explanation>)
    requires forall i :: Small(noise, i)
    ensures score == ScoreValue(features)
    ensures explanations == if Reasons(features) == [] then [NoRiskFactors] else Reasons(features)
    ensures Tabled(features, score, explanations)
  {
    assert Small(noise, 0) && Small(noise, 1) && Small(noise, 2) && Small(noise, 3);
    assert Small(noise, 4) && Small(noise, 5) && Small(noise, 6) && Small(noise, 7);
    score := 0.05 + noise(0);
    explanations := [];

    var status := Lookup(features, "policy_status");
    if status == "active" {
    } else if status == "lapsed" {
      score := score + (0.15 + noise(1)) + noise(2);
      explanations := explanations + [Because(PolicyStatus, 15)];
    } else if status == "cancelled" {
      score := score + (0.25 + noise(1)) + noise(2);
      explanations := explanations + [Because(PolicyStatus, 25)];
    } else {
      score := score + (0.30 + noise(1)) + noise(2);
      explanations := explanations + [Because(PolicyStatus, 30)];
    }
    assert Near(score, 5 + Weight(PolicyStatus, features), 3);
    assert explanations == Reason(PolicyStatus, features);

    if Lookup(features, "policy_coverage_type") == "" {
      score := score + (0.05 + noise(3)) + noise(4);
      explanations := explanations + [Because(CoverageType, 5)];
    }
    assert Near(score, 5 + Weight(PolicyStatus, features) + Weight(CoverageType, features), 5);
    assert explanations == Reason(PolicyStatus, features) + Reason(CoverageType, features);

    if !ParsesTrue(Lookup(features, "address_valid")) {
      score := score + (0.10 + noise(5)) + noise(6);
      explanations := explanations + [Because(AddressValidity, 10)];
    }
    assert Near(score, Hundredths(features), 7);

    RoundingAbsorbs(score, noise(7), Hundredths(features));
    score := Min(1.0, Round(score * 100.0 + noise(7)) as real / 100.0);
    ScoreInRange(features);

    if |explanations| == 0 {
      explanations := [NoRiskFactors];
    }
    ScoreIsTabled(features);
  }

  /** `x` is `hundredths` up to `errors` small errors. */
  predicate Near(x: real, hundredths: nat, errors: nat) {
    var exact := hundredths as real / 100.0;
    exact - errors as real * EPSILON <= x <= exact + errors as real * EPSILON
  }

  lemma {:induction false} RoundingAbsorbs(x: real, last: real, hundredths: nat)
    requires Near(x, hundredths, 7) && -EPSILON <= last <= EPSILON && hundredths >= 1
    ensures Round(x * 100.0 + last) == hundredths
  {
    var y := x * 100.0 + last;
    assert hundredths as real - 0.5 < y < hundredths as real + 0.5;
  }

  /** The score lies between 0.05 and 0.50, so the clamp never changes it. */
  lemma {:induction false} ScoreInRange(features: FeatureMap)
    ensures 5 <= Hundredths(features) <= 50
    ensures Min(1.0, ScoreValue(features)) == ScoreValue(features)
  {
  }

  lemma {:induction false} SumAppend(a: seq<Explanation>, b: seq<Explanation>)
    ensures Sum(a + b) == Sum(a) + Sum(b)
  {
    if b == [] {
      assert a + b == a;
    } else {
      assert (a + b)[..|a + b| - 1] == a + b[..|b| - 1];
      SumAppend(a, b[..|b| - 1]);
    }
  }

  lemma {:induction false} ReasonSum(rule: Rule, features: FeatureMap)
    ensures Sum(Reason(rule, features)) == Weight(rule, features)
  {
    assert [Because(rule, Weight(rule, features))][..0] == [];
  }

  /** The weights in the explanations add up to the score minus the base. */
  lemma {:induction false} ExplanationsAccountForScore(features: FeatureMap)
    ensures Sum(Reasons(features)) + BASE_HUNDREDTHS == Hundredths(features)
  {
    var a, b, c := Reason(PolicyStatus, features), Reason(CoverageType, features), Reason(AddressValidity, features);
    ReasonSum(PolicyStatus, features);
    ReasonSum(CoverageType, features);
    ReasonSum(AddressValidity, features);
    SumAppend(a, b);
    SumAppend(a + b, c);
  }

  /** There is exactly one explanation for each rule that adds something. */
  lemma {:induction false} OneReasonPerTriggeredRule(features: FeatureMap)
    ensures forall rule :: Weight(rule, features) > 0 <==> Because(rule, Weight(rule, features)) in Reasons(features)
    ensures forall i, j :: 0 <= i < j < |Reasons(features)| ==> Reasons(features)[i].rule != Reasons(features)[j].rule
  {
    var a, b, c := Reason(PolicyStatus, features), Reason(CoverageType, features), Reason(AddressValidity, features);
    assert forall r :: r in a + b + c <==> r in a || r in b || r in c;
    assert forall rule ::
        Weight(rule, features) > 0 <==> Because(rule, Weight(rule, features)) in Reason(rule, features);
  }

  /** How risky the policy status is. */
  function StatusRank(status: string): nat {
    if status == "active" then 0 else if status == "lapsed" then 1 else if status == "cancelled" then 2 else 3
  }

  predicate NoRiskier(a: FeatureMap, b: FeatureMap) {
    && StatusRank(Lookup(a, "policy_status")) <= StatusRank(Lookup(b, "policy_status"))
    && (Lookup(a, "policy_coverage_type") == "" ==> Lookup(b, "policy_coverage_type") == "")
    && (ParsesTrue(Lookup(b, "address_valid")) ==> ParsesTrue(Lookup(a, "address_valid")))
  }

  /** The score is monotone in the risk order, strictly so unless the two maps are equally
      risky; equal ranks on the three keys mean equal scores, whatever the other features. */
  lemma {:induction false} ScoreIsMonotone(a: FeatureMap, b: FeatureMap)
    requires NoRiskier(a, b)
    ensures ScoreValue(a) <= ScoreValue(b)
    ensures ScoreValue(a) == ScoreValue(b) <==> NoRiskier(b, a)
  {
  }
}
