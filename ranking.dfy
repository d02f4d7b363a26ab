/**
 * The ranking-point total shown under the ranking-points section
 * (`totalRankingPoints`, src/App.tsx:456-464): a weighted count of five flags
 * of the form state.
 */
module Ranking {
  import opened Wrappers
  import opened Schema
  import opened JsObjects

  /** JavaScript truthiness of a property read (`if (formData.x)`); absent is `undefined`, falsy. */
  function Truthy(v: Option<Value>): (t: bool)
    ensures !t <==> v.None? || v == Some(BoolValue(false)) || v == Some(NumValue(0)) || v == Some(StrValue(""))
  {
    match v
    case None => false
    case Some(BoolValue(b)) => b
    case Some(NumValue(n)) => n != 0
    case Some(StrValue(s)) => s != ""
  }

  datatype Weight = Weight(code: string, points: nat)

  /** Each ranking-point flag and the points it is worth. */
  const RankingWeights: seq<Weight> :=
    [Weight("autoRP", 1), Weight("coralRP", 1), Weight("bargeRP", 1), Weight("winRP", 3), Weight("tieRP", 1)]

  /** The points of the flags of `weights` that are set in `form`. */
  function WeightedFlags(form: JsObject<Value>, weights: seq<Weight>): (r: nat)
    ensures r <= TotalWeight(weights)
    decreases |weights|
  {
    if weights == [] then 0
    else (if Truthy(form.Get(weights[0].code)) then weights[0].points else 0) + WeightedFlags(form, weights[1..])
  }

  /** The sum of all the weights: what `WeightedFlags` reaches with every flag set. */
  function TotalWeight(weights: seq<Weight>): nat
    decreases |weights|
  {
    if weights == [] then 0 else weights[0].points + TotalWeight(weights[1..])
  }

  /** The ranking-point total of a form. */
  function RankingPoints(form: JsObject<Value>): (r: nat)
    ensures r <= 7
    ensures Truthy(form.Get("winRP")) ==> r >= 3
  {
    assert TotalWeight(RankingWeights) == 7;
    WeightedFlags(form, RankingWeights)
  }

  /** The memoised computation as the source writes it: one `if` per flag, accumulating into `total`. */
  method TotalRankingPoints(formData: JsObject<Value>) returns (total: int)
    ensures total == RankingPoints(formData)
  {
    RankingPointsTerms(formData);
    total := 0;
    if Truthy(formData.Get("autoRP")) { total := total + 1; }
    if Truthy(formData.Get("coralRP")) { total := total + 1; }
    if Truthy(formData.Get("bargeRP")) { total := total + 1; }
    if Truthy(formData.Get("winRP")) { total := total + 3; }
    if Truthy(formData.Get("tieRP")) { total := total + 1; }
  }

  /** The total written out flag by flag, in the order of the source's `if`s. */
  lemma RankingPointsTerms(form: JsObject<Value>)
    ensures RankingPoints(form) ==
              (if Truthy(form.Get("autoRP")) then 1 else 0)
              + (if Truthy(form.Get("coralRP")) then 1 else 0)
              + (if Truthy(form.Get("bargeRP")) then 1 else 0)
              + (if Truthy(form.Get("winRP")) then 3 else 0)
              + (if Truthy(form.Get("tieRP")) then 1 else 0)
  {
    var w := RankingWeights;
    assert w[1..] == [w[1], w[2], w[3], w[4]];
    assert w[1..][1..] == [w[2], w[3], w[4]];
    assert w[1..][1..][1..] == [w[3], w[4]];
    assert w[1..][1..][1..][1..] == [w[4]];
    assert w[1..][1..][1..][1..][1..] == [];
  }

  /** The weighted count lies between 0 and the sum of the weights, and reaches that sum exactly with every flag set. */
  lemma {:induction false} WeightedFlagsBounds(form: JsObject<Value>, weights: seq<Weight>)
    ensures 0 <= WeightedFlags(form, weights) <= TotalWeight(weights)
    ensures (forall i :: 0 <= i < |weights| ==> Truthy(form.Get(weights[i].code))) ==>
              WeightedFlags(form, weights) == TotalWeight(weights)
    ensures (forall i :: 0 <= i < |weights| ==> !Truthy(form.Get(weights[i].code))) ==>
              WeightedFlags(form, weights) == 0
    decreases |weights|
  {
    if weights != [] {
      WeightedFlagsBounds(form, weights[1..]);
      assert forall i :: 0 <= i < |weights[1..]| ==> weights[1..][i] == weights[i + 1];
    }
  }

  /** The total is at most 7, which it reaches with all five flags set; it is 0 with none set. */
  lemma RankingPointsBounds(form: JsObject<Value>)
    ensures 0 <= RankingPoints(form) <= 7
    ensures (forall i :: 0 <= i < |RankingWeights| ==> Truthy(form.Get(RankingWeights[i].code))) ==>
              RankingPoints(form) == 7
    ensures (forall i :: 0 <= i < |RankingWeights| ==> !Truthy(form.Get(RankingWeights[i].code))) ==>
              RankingPoints(form) == 0
  {
    WeightedFlagsBounds(form, RankingWeights);
    assert TotalWeight(RankingWeights) == 7;
  }

  /** With only `winRP` set among the five flags, the total is 3. */
  lemma WinOnlyIsThree(form: JsObject<Value>)
    requires Truthy(form.Get("winRP"))
    requires !Truthy(form.Get("autoRP")) && !Truthy(form.Get("coralRP"))
    requires !Truthy(form.Get("bargeRP")) && !Truthy(form.Get("tieRP"))
    ensures RankingPoints(form) == 3
  {
  }

  /**
   * The total exceeds 6 exactly when all five flags are set, `winRP` and
   * `tieRP` together among them, which the form does not prevent; the section
   * header nevertheless shows "/ 6" (src/App.tsx:731).
   */
  lemma AboveSixNeedsAllFlags(form: JsObject<Value>)
    ensures RankingPoints(form) > 6 <==> Truthy(form.Get("winRP")) && Truthy(form.Get("tieRP")) &&
                                         Truthy(form.Get("autoRP")) && Truthy(form.Get("coralRP")) &&
                                         Truthy(form.Get("bargeRP"))
  {
  }

  /** With every flag stored as `false`, the total is 0. */
  lemma NoFlagSetIsZero(form: JsObject<Value>)
    requires form.Get("autoRP") == Some(BoolValue(false)) && form.Get("coralRP") == Some(BoolValue(false))
    requires form.Get("bargeRP") == Some(BoolValue(false)) && form.Get("winRP") == Some(BoolValue(false))
    requires form.Get("tieRP") == Some(BoolValue(false))
    ensures RankingPoints(form) == 0
  {
  }
}
