/**
 * The dashboard's body-mass-index card: the formula over the stored profile, the four categories with
 * their colours, and the marker position on a 0-40 scale. Numbers are exact reals.
 */
module BmiMeter {
  import opened Wrappers

  /** `weight / (height / 100)²` with weight in kilograms and height in centimetres; nothing is computed
      when either is missing or zero (both are falsy). */
  function ComputeBmi(weight: Option<real>, height: Option<real>): (r: Option<real>)
    ensures r.None? <==> weight.None? || height.None? || weight.value == 0.0 || height.value == 0.0
    ensures r.Some? ==> r.value * ((height.value / 100.0) * (height.value / 100.0)) == weight.value
  {
    if weight.None? || height.None? || weight.value == 0.0 || height.value == 0.0 then None
    else
      var metres := height.value / 100.0;
      Some(weight.value / (metres * metres))
  }

  const Underweight := "Underweight"
  const NormalWeight := "Normal weight"
  const Overweight := "Overweight"
  const Obese := "Obese"

  /** The categories from lightest to heaviest. */
  const Categories: seq<string> := [Underweight, NormalWeight, Overweight, Obese]

  /** `getBMICategory`: below 18.5, below 25, below 30, or anything else. */
  function Category(bmi: real): (c: string)
    ensures c in Categories
    ensures c == Underweight <==> bmi < 18.5
    ensures c == NormalWeight <==> 18.5 <= bmi < 25.0
    ensures c == Overweight <==> 25.0 <= bmi < 30.0
    ensures c == Obese <==> 30.0 <= bmi
  {
    if bmi < 18.5 then Underweight
    else if bmi < 25.0 then NormalWeight
    else if bmi < 30.0 then Overweight
    else Obese
  }

  /** A category's place in `Categories`. */
  function Rank(c: string): (k: nat)
    requires c in Categories
    ensures k < |Categories| && Categories[k] == c
  {
    if c == Underweight then 0 else if c == NormalWeight then 1 else if c == Overweight then 2 else 3
  }

  /** A larger index never yields an earlier category. */
  lemma CategoryMonotone(a: real, b: real)
    requires a <= b
    ensures Rank(Category(a)) <= Rank(Category(b))
  {
  }

  const Gray := "from-gray-500 to-gray-600"

  /** `getBMIColor`: one gradient per category, gray for any other string. */
  function Color(category: string): (g: string)
    ensures g == Gray <==> category !in Categories
    ensures category == Underweight ==> g == "from-blue-500 to-blue-600"
    ensures category == NormalWeight ==> g == "from-green-500 to-green-600"
    ensures category == Overweight ==> g == "from-orange-500 to-orange-600"
    ensures category == Obese ==> g == "from-red-500 to-red-600"
  {
    if category == Underweight then "from-blue-500 to-blue-600"
    else if category == NormalWeight then "from-green-500 to-green-600"
    else if category == Overweight then "from-orange-500 to-orange-600"
    else if category == Obese then "from-red-500 to-red-600"
    else Gray
  }

  /** Distinct categories get distinct colours, and a computed category is never shown in gray. */
  lemma ColorsDistinct(bmi: real, c: string, d: string)
    requires c in Categories && d in Categories && c != d
    ensures Color(c) != Color(d)
    ensures Color(Category(bmi)) != Gray
  {
  }

  /** `getMeterPosition`: `(bmi / 40) * 100` clamped to [0, 100]. */
  function MeterPosition(bmi: real): (p: real)
    ensures 0.0 <= p <= 100.0
    ensures 0.0 <= bmi <= 40.0 ==> p * 40.0 == bmi * 100.0
    ensures bmi < 0.0 ==> p == 0.0
    ensures bmi > 40.0 ==> p == 100.0
  {
    var scaled := (bmi / 40.0) * 100.0;
    if scaled < 0.0 then 0.0 else if scaled > 100.0 then 100.0 else scaled
  }

  /** The marker never moves left as the index grows. */
  lemma MeterMonotone(a: real, b: real)
    requires a <= b
    ensures MeterPosition(a) <= MeterPosition(b)
  {
  }
}
