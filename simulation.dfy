/** The financial-impact projection behind the simulation chart
    (`updateSimChart` in web-app/script.js), lifted out of its DOM reads.
    Numbers are exact rationals (`real`): every division is by 10, by 100 or
    by a positive integer, so no IEEE-754 rounding is modelled. */
module Simulation {
  import opened Wrappers
  import opened Text

  /** The fixed projection years, in chart order. */
  const Years: seq<int> := [2025, 2030, 2035, 2040, 2045, 2050]

  /** Value used when the carbon-price slider is absent from the page. */
  const DefaultCarbonPrice: int := 140
  /** Value used when the scenario selector is absent from the page. */
  const DefaultScenario: string := "1.5℃"

  const LabelMiddle: string := " / 炭素価格 $"
  const LabelSuffix: string := " 時の利益影響"

  /** What `updateSimChart` reads from the page: the carbon price, the
      scenario text, the value of every Scope 3 reduction slider, and the
      number of active category items. */
  datatype Params = Params(carbonPrice: int, scenario: string, reductions: seq<int>, activeCount: nat)

  datatype Point = Point(year: int, impact: real)

  /** The chart's new dataset: one point per projection year, and its label. */
  datatype Projection = Projection(points: seq<Point>, datasetLabel: string)

  /** Gathers the parameters, falling back to the defaults for a missing
      slider or selector. */
  function ReadParams(priceSlider: Option<int>, scenarioSelect: Option<string>,
                      reductions: seq<int>, activeCount: nat): (p: Params)
    ensures p.carbonPrice == (if priceSlider.Some? then priceSlider.value else DefaultCarbonPrice)
    ensures p.scenario == (if scenarioSelect.Some? then scenarioSelect.value else DefaultScenario)
    ensures p.reductions == reductions && p.activeCount == activeCount
  {
    Params(match priceSlider case Some(v) => v case None => DefaultCarbonPrice,
           match scenarioSelect case Some(s) => s case None => DefaultScenario,
           reductions, activeCount)
  }

  /** The left-to-right `reduce` that adds up the slider values. */
  function Sum(xs: seq<int>): int
  {
    if xs == [] then 0 else Sum(xs[..|xs| - 1]) + xs[|xs| - 1]
  }

  /** Every slider value lies in the range the slider allows. */
  predicate InPercentRange(xs: seq<int>)
  {
    forall k :: 0 <= k < |xs| ==> 0 <= xs[k] <= 100
  }

  lemma {:induction false} SumBounds(xs: seq<int>)
    requires InPercentRange(xs)
    ensures 0 <= Sum(xs) <= 100 * |xs|
  {
    if xs != [] {
      SumBounds(xs[..|xs| - 1]);
    }
  }

  /** Base impact of a scenario: the "1.5℃" test is made first, then
      "2.0℃"; any other scenario gets the mildest value. */
  function BaseImpact(scenario: string): int
  {
    if Includes(scenario, "1.5℃") then -50
    else if Includes(scenario, "2.0℃") then -30
    else -10
  }

  lemma BaseImpactByScenario(scenario: string)
    ensures Occurs(scenario, "1.5℃") ==> BaseImpact(scenario) == -50
    ensures !Occurs(scenario, "1.5℃") && Occurs(scenario, "2.0℃") ==> BaseImpact(scenario) == -30
    ensures !Occurs(scenario, "1.5℃") && !Occurs(scenario, "2.0℃") ==> BaseImpact(scenario) == -10
  {
    IncludesIffOccurs(scenario, "1.5℃");
    IncludesIffOccurs(scenario, "2.0℃");
  }

  function CarbonWeight(carbonPrice: int): real
  {
    carbonPrice as real / 100.0
  }

  /** `activeCount * 100 || 1`: a zero product is falsy, so it is replaced by 1. */
  function Denominator(activeCount: nat): (d: int)
    ensures d >= 1
    ensures activeCount >= 1 ==> d == activeCount * 100
    ensures activeCount == 0 ==> d == 1
  {
    if activeCount * 100 != 0 then activeCount * 100 else 1
  }

  function ReductionWeight(reductionSum: int, activeCount: nat): real
  {
    1.0 - (reductionSum as real / Denominator(activeCount) as real) * 0.5
  }

  /** Reductions of at most 100% each over at most the active categories
      damp the impact by at most one half. */
  lemma ReductionWeightBounds(reductionSum: int, activeCount: nat)
    requires 0 <= reductionSum <= activeCount * 100
    ensures 0.5 <= ReductionWeight(reductionSum, activeCount) <= 1.0
  {
    var d := Denominator(activeCount) as real;
    var q := reductionSum as real / d;
    assert reductionSum as real <= d;
    assert q * d == reductionSum as real;
    assert (q - 1.0) * d == reductionSum as real - d <= 0.0;
    assert 0.0 <= q <= 1.0;
  }

  function YearFactor(i: nat): int
  {
    (i + 1) * 2
  }

  /** The projected impact for the year at position `i`, before rounding. */
  function RawImpact(p: Params, i: nat): real
  {
    BaseImpact(p.scenario) as real * YearFactor(i) as real * CarbonWeight(p.carbonPrice)
      * ReductionWeight(Sum(p.reductions), p.activeCount)
  }

  /** `Math.round(x)`: the nearest integer, halves going towards +infinity. */
  function JsRound(x: real): (r: int)
    ensures r as real - 0.5 <= x < r as real + 0.5
  {
    (x + 0.5).Floor
  }

  /** `Math.round(x * 10) / 10`. */
  function RoundTenth(x: real): real
  {
    JsRound(x * 10.0) as real / 10.0
  }

  function Label(scenario: string, carbonPrice: int): string
  {
    scenario + LabelMiddle + IntToDecimal(carbonPrice) + LabelSuffix
  }

  /** The whole calculation: one rounded point per projection year, labelled
      by scenario and carbon price. */
  function Project(p: Params): (r: Projection)
    ensures |r.points| == |Years|
    ensures forall i :: 0 <= i < |Years| ==> r.points[i].year == Years[i]
  {
    Projection(seq(|Years|, i requires 0 <= i < |Years| => Point(Years[i], RoundTenth(RawImpact(p, i)))),
               Label(p.scenario, p.carbonPrice))
  }

  // ---------------------------------------------------------------------
  // Properties of the projection

  /** The series always covers the six projection years in increasing order. */
  lemma ProjectionYears(p: Params)
    ensures |Project(p).points| == 6
    ensures forall i :: 0 <= i < 6 ==> Project(p).points[i].year == 2025 + 5 * i
    ensures forall i, j :: 0 <= i < j < 6 ==> Project(p).points[i].year < Project(p).points[j].year
  {
  }

  /** Before rounding, the year at position `i` weighs `i + 1` times the first. */
  lemma RawImpactLinearInYear(p: Params, i: nat)
    ensures RawImpact(p, i) == (i + 1) as real * RawImpact(p, 0)
  {
    var b := BaseImpact(p.scenario) as real;
    var c := CarbonWeight(p.carbonPrice);
    var w := ReductionWeight(Sum(p.reductions), p.activeCount);
    calc {
      RawImpact(p, i);
      b * ((i + 1) as real * 2.0) * c * w;
      (i + 1) as real * (b * 2.0 * c * w);
      (i + 1) as real * RawImpact(p, 0);
    }
  }

  /** Each value is the unrounded impact rounded half-up to a multiple of 0.1,
      and lies within 0.05 of it. */
  lemma ImpactIsRoundedToTenth(p: Params, i: nat)
    requires i < |Years|
    ensures var v := Project(p).points[i].impact;
            var raw := RawImpact(p, i);
            v * 10.0 == (raw * 10.0 + 0.5).Floor as real
            && raw - 0.05 < v <= raw + 0.05
  {
    var v := Project(p).points[i].impact;
    var raw := RawImpact(p, i);
    var r := JsRound(raw * 10.0);
    assert v == r as real / 10.0;
    assert v * 10.0 == r as real;
  }

  /** The inputs a well-behaved page produces: a non-negative carbon price and
      at most one slider per active category, each between 0 and 100. */
  predicate WellFormed(p: Params)
  {
    p.carbonPrice >= 0 && |p.reductions| <= p.activeCount && InPercentRange(p.reductions)
  }

  lemma WellFormedWeight(p: Params)
    requires WellFormed(p)
    ensures 0.5 <= ReductionWeight(Sum(p.reductions), p.activeCount) <= 1.0
  {
    SumBounds(p.reductions);
    ReductionWeightBounds(Sum(p.reductions), p.activeCount);
  }

  lemma JsRoundMonotone(x: real, y: real)
    requires x <= y
    ensures JsRound(x) <= JsRound(y)
  {
  }

  lemma RawImpactNonPositive(p: Params)
    requires WellFormed(p)
    ensures RawImpact(p, 0) <= 0.0
  {
    WellFormedWeight(p);
    var b := BaseImpact(p.scenario) as real;
    var c := CarbonWeight(p.carbonPrice);
    var w := ReductionWeight(Sum(p.reductions), p.activeCount);
    assert b * 2.0 <= 0.0;
    assert c >= 0.0;
    assert b * 2.0 * c <= 0.0;
    assert b * 2.0 * c * w <= 0.0;
  }

  /** On a well-formed page every projected value is a loss or zero, and the
      loss never shrinks from one year to the next. */
  lemma ImpactNonPositiveAndGrowing(p: Params)
    requires WellFormed(p)
    ensures forall i :: 0 <= i < 6 ==> Project(p).points[i].impact <= 0.0
    ensures forall i :: 0 <= i < 5 ==> Project(p).points[i + 1].impact <= Project(p).points[i].impact
  {
    RawImpactNonPositive(p);
    var r0 := RawImpact(p, 0);
    forall i | 0 <= i < 6
      ensures Project(p).points[i].impact <= 0.0
    {
      RawImpactLinearInYear(p, i);
      assert RawImpact(p, i) <= 0.0;
      JsRoundMonotone(RawImpact(p, i) * 10.0, 0.0);
    }
    forall i | 0 <= i < 5
      ensures Project(p).points[i + 1].impact <= Project(p).points[i].impact
    {
      RawImpactLinearInYear(p, i);
      RawImpactLinearInYear(p, i + 1);
      assert RawImpact(p, i + 1) == RawImpact(p, i) + r0;
      JsRoundMonotone(RawImpact(p, i + 1) * 10.0, RawImpact(p, i) * 10.0);
    }
  }

  /** Rounding keeps a gap of at least one unit. */
  lemma JsRoundSeparates(x: real, y: real)
    requires x + 1.0 <= y
    ensures JsRound(x) < JsRound(y)
  {
  }

  /** Raising the carbon price (in whole dollars) with everything else fixed
      strictly deepens the loss in every year, even after rounding. */
  lemma HigherCarbonPriceDeepensLoss(p: Params, higherPrice: int, i: nat)
    requires WellFormed(p) && p.carbonPrice < higherPrice && i < |Years|
    ensures Project(p.(carbonPrice := higherPrice)).points[i].impact < Project(p).points[i].impact
  {
    var q := p.(carbonPrice := higherPrice);
    WellFormedWeight(p);
    var b := BaseImpact(p.scenario) as real;
    var w := ReductionWeight(Sum(p.reductions), p.activeCount);
    var k := b * YearFactor(i) as real * w;
    assert b <= -10.0;
    assert YearFactor(i) as real >= 2.0;
    assert b * YearFactor(i) as real <= -20.0;
    assert k <= -10.0;
    var dp := (higherPrice - p.carbonPrice) as real;
    assert dp >= 1.0;
    assert RawImpact(p, i) * 10.0 == k * p.carbonPrice as real / 10.0;
    assert RawImpact(q, i) * 10.0 == k * higherPrice as real / 10.0;
    assert k * dp <= -10.0;
    assert RawImpact(q, i) * 10.0 + 1.0 <= RawImpact(p, i) * 10.0;
    JsRoundSeparates(RawImpact(q, i) * 10.0, RawImpact(p, i) * 10.0);
  }

  /** The label reads the scenario, the fixed middle text, the carbon price
      in decimal and the fixed suffix; the price can be read back from it. */
  lemma LabelLayout(scenario: string, carbonPrice: int)
    ensures var l := Label(scenario, carbonPrice);
            |l| > |scenario| + |LabelMiddle| + |LabelSuffix|
            && l[..|scenario| + |LabelMiddle|] == scenario + LabelMiddle
            && l[|l| - |LabelSuffix|..] == LabelSuffix
            && ParseDecimal(l[|scenario| + |LabelMiddle|..|l| - |LabelSuffix|]) == Some(carbonPrice)
  {
    var l := Label(scenario, carbonPrice);
    var m := IntToDecimal(carbonPrice);
    assert l == (scenario + LabelMiddle) + m + LabelSuffix;
    assert l[|scenario| + |LabelMiddle|..|l| - |LabelSuffix|] == m;
    IntDecimalRoundTrip(carbonPrice);
  }

  /** A whole number of units is left unchanged by rounding to a tenth. */
  lemma RoundTenthOfInteger(n: int)
    ensures RoundTenth(n as real) == n as real
  {
    assert JsRound(n as real * 10.0) == n * 10;
  }

  lemma DefaultRawImpact(i: nat)
    requires i < |Years|
    ensures RawImpact(ReadParams(None, None, [], 0), i) == (-140 * (i + 1)) as real
  {
    var p := ReadParams(None, None, [], 0);
    IncludesIffOccurs(p.scenario, "1.5℃");
    assert OccursAt(p.scenario, "1.5℃", 0);
    assert BaseImpact(p.scenario) == -50;
    assert ReductionWeight(Sum(p.reductions), p.activeCount) == 1.0;
  }

  lemma DefaultPoint(i: nat)
    requires i < |Years|
    ensures Project(ReadParams(None, None, [], 0)).points[i] == Point(Years[i], (-140 * (i + 1)) as real)
  {
    DefaultRawImpact(i);
    RoundTenthOfInteger(-140 * (i + 1));
  }

  lemma DefaultLabel()
    ensures Label(DefaultScenario, DefaultCarbonPrice) == "1.5℃ / 炭素価格 $140 時の利益影響"
  {
    assert NatToDecimal(14) == "14";
    assert IntToDecimal(140) == "140";
  }

  /** A page without slider or selector and without categories shows the
      1.5℃ scenario at $140: from -140 in 2025 down to -840 in 2050. */
  lemma DefaultProjection()
    ensures var r := Project(ReadParams(None, None, [], 0));
            r.points == [Point(2025, -140.0), Point(2030, -280.0), Point(2035, -420.0),
                         Point(2040, -560.0), Point(2045, -700.0), Point(2050, -840.0)]
            && r.datasetLabel == "1.5℃ / 炭素価格 $140 時の利益影響"
  {
    DefaultPoint(0);
    DefaultPoint(1);
    DefaultPoint(2);
    DefaultPoint(3);
    DefaultPoint(4);
    DefaultPoint(5);
    DefaultLabel();
  }

  /** Two categories reduced by 40% and 60% damp the impact by a quarter:
      the 2025 value becomes -105. */
  lemma TwoCategoryProjection()
    ensures Project(Params(140, "1.5℃", [40, 60], 2)).points[0].impact == -105.0
  {
    var p := Params(140, "1.5℃", [40, 60], 2);
    IncludesIffOccurs(p.scenario, "1.5℃");
    assert OccursAt(p.scenario, "1.5℃", 0);
    assert Sum(p.reductions) == 100;
    assert ReductionWeight(100, 2) == 0.75;
    assert RawImpact(p, 0) == -105.0;
  }
}
