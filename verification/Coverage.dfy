/**
 Composing thirteen measured edges into one coverage score, over exact rationals.
 A missing or malformed edge is refused.
 */
module Coverage {
  import opened Prelude

  datatype Edge = Edge(eligible: int, reached: int)

  /** The measured edges; each may be missing. */
  datatype Measurement = Measurement(
    columnToProperty: Option<Edge>, screenToJourney: Option<Edge>, hookToScreen: Option<Edge>,
    accessorToTest: Option<Edge>, accessorToHook: Option<Edge>, modelToOperation: Option<Edge>, modelToDto: Option<Edge>,
    requirementToModel: Option<Edge>, requirementToOperation: Option<Edge>, requirementToDto: Option<Edge>,
    requirementToTest: Option<Edge>, requirementToScreen: Option<Edge>, requirementToJourney: Option<Edge>)

  /** An unmeasurable rate is None. */
  type Rate = Option<real>

  datatype Rates = Rates(
    columnToProperty: Rate, screenToJourney: Rate, hookToScreen: Rate, accessorToTest: Rate, accessorToHook: Rate,
    modelToOperation: Rate, modelToDto: Rate, requirementToModel: Rate, requirementToOperation: Rate,
    requirementToDto: Rate, requirementToTest: Rate, requirementToScreen: Rate, requirementToJourney: Rate)

  datatype Wholeness = Wholeness(
    test: Rate, journey: Rate, property: Rate, dto: Rate, screen: Rate, hook: Rate, api: Rate, model: Rate)

  datatype Coverage = Coverage(score: Rate, wholeness: Wholeness, obligations: seq<Rate>)

  predicate ValidEdge(edge: Option<Edge>) {
    edge.Some? && 0 <= edge.value.reached <= edge.value.eligible
  }

  function RateOf(edge: Edge): Rate {
    if edge.eligible == 0 then None else Some(edge.reached as real / edge.eligible as real)
  }

  /** Multiplies along a chain; an unmeasurable factor stays unmeasurable. */
  function Serial(left: Rate, right: Rate): Rate {
    if left.None? || right.None? then None else Some(Product(left.value, right.value))
  }

  function Product(a: real, b: real): real {
    a * b
  }

  function Measured(values: seq<Rate>): seq<real> {
    if values == [] then []
    else Measured(values[..|values| - 1]) + (if Last(values).Some? then [Last(values).value] else [])
  }

  function SumReal(values: seq<real>): real {
    if values == [] then 0.0 else SumReal(values[..|values| - 1]) + values[|values| - 1]
  }

  /** Averages the measurable branches. */
  function Branch(values: seq<Rate>): Rate {
    var measured := Measured(values);
    if measured == [] then None else Some(Mean(SumReal(measured), |measured|))
  }

  function Mean(sum: real, count: nat): real
    requires count > 0
  {
    sum / count as real
  }

  predicate Valid(m: Measurement) {
    && ValidEdge(m.columnToProperty) && ValidEdge(m.screenToJourney) && ValidEdge(m.hookToScreen)
    && ValidEdge(m.accessorToTest) && ValidEdge(m.accessorToHook) && ValidEdge(m.modelToOperation) && ValidEdge(m.modelToDto)
    && ValidEdge(m.requirementToModel) && ValidEdge(m.requirementToOperation) && ValidEdge(m.requirementToDto)
    && ValidEdge(m.requirementToTest) && ValidEdge(m.requirementToScreen) && ValidEdge(m.requirementToJourney)
  }

  function RatesOf(m: Measurement): Rates
    requires Valid(m)
  {
    Rates(
      RateOf(m.columnToProperty.value), RateOf(m.screenToJourney.value), RateOf(m.hookToScreen.value),
      RateOf(m.accessorToTest.value), RateOf(m.accessorToHook.value), RateOf(m.modelToOperation.value),
      RateOf(m.modelToDto.value), RateOf(m.requirementToModel.value), RateOf(m.requirementToOperation.value),
      RateOf(m.requirementToDto.value), RateOf(m.requirementToTest.value), RateOf(m.requirementToScreen.value),
      RateOf(m.requirementToJourney.value))
  }

  function WholenessOf(r: Rates): Wholeness {
    var whole := Some(1.0);
    var hook := Serial(r.hookToScreen, r.screenToJourney);
    var api := Branch([Serial(r.accessorToTest, whole), Serial(r.accessorToHook, hook)]);
    var model := Branch([Serial(r.modelToOperation, api), Serial(r.modelToDto, r.columnToProperty)]);
    Wholeness(whole, whole, whole, r.columnToProperty, r.screenToJourney, hook, api, model)
  }

  function Obligations(r: Rates): seq<Rate> {
    var w := WholenessOf(r);
    [Serial(r.requirementToModel, w.model), Serial(r.requirementToOperation, w.api), Serial(r.requirementToDto, w.dto),
     Serial(r.requirementToTest, w.test), Serial(r.requirementToScreen, w.screen), Serial(r.requirementToJourney, w.journey)]
  }

  /** The composed coverage of a Plain codebase, or None where an edge is refused. */
  function Plain(m: Measurement): Option<Coverage> {
    if !Valid(m) then None
    else Some(Coverage(Branch(Obligations(RatesOf(m))), WholenessOf(RatesOf(m)), Obligations(RatesOf(m))))
  }

  // ----- order on rates -----

  /** Both unmeasurable, or both in [0,1] and the first no greater. */
  predicate Below(a: Rate, b: Rate) {
    (a.None? && b.None?) || (a.Some? && b.Some? && 0.0 <= a.value <= b.value <= 1.0)
  }

  lemma ProductOrder(a: real, b: real, c: real, d: real)
    requires 0.0 <= a <= c <= 1.0 && 0.0 <= b <= d <= 1.0
    ensures 0.0 <= Product(a, b) <= Product(c, d) <= 1.0
  {
    assert 0.0 * b <= a * b;
    assert a * b <= c * b;
    assert c * b <= c * d;
    assert c * d <= d;
  }

  lemma SerialOrder(a: Rate, b: Rate, c: Rate, d: Rate)
    requires Below(a, c) && Below(b, d)
    ensures Below(Serial(a, b), Serial(c, d))
  {
    if a.Some? && b.Some? { ProductOrder(a.value, b.value, c.value, d.value); }
  }

  predicate AllBelow(a: seq<Rate>, b: seq<Rate>) {
    |a| == |b| && forall i | 0 <= i < |a| :: Below(a[i], b[i])
  }

  lemma {:induction false} MeasuredOrder(a: seq<Rate>, b: seq<Rate>)
    requires AllBelow(a, b)
    ensures |Measured(a)| == |Measured(b)|
    ensures 0.0 <= SumReal(Measured(a)) <= SumReal(Measured(b)) <= |Measured(b)| as real
  {
    if a != [] {
      var n := |a| - 1;
      MeasuredOrder(a[..n], b[..n]);
      assert Below(a[n], b[n]);
      if a[n].Some? {
        assert (Measured(a[..n]) + [a[n].value])[..|Measured(a[..n])|] == Measured(a[..n]);
        assert (Measured(b[..n]) + [b[n].value])[..|Measured(b[..n])|] == Measured(b[..n]);
      } else {
        assert Measured(a[..n]) + [] == Measured(a[..n]) && Measured(b[..n]) + [] == Measured(b[..n]);
      }
    }
  }

  lemma MeanOrder(a: real, b: real, n: real)
    requires 0.0 <= a <= b <= n && n > 0.0
    ensures 0.0 <= a / n <= b / n <= 1.0
  {
  }

  lemma MeansOrder(a: real, b: real, count: nat)
    requires 0.0 <= a <= b <= count as real && count > 0
    ensures 0.0 <= Mean(a, count) <= Mean(b, count) <= 1.0
  {
    MeanOrder(a, b, count as real);
  }

  lemma BranchOrder(a: seq<Rate>, b: seq<Rate>)
    requires AllBelow(a, b)
    ensures Below(Branch(a), Branch(b))
  {
    MeasuredOrder(a, b);
    if Measured(a) != [] {
      MeansOrder(SumReal(Measured(a)), SumReal(Measured(b)), |Measured(a)|);
    }
  }

  predicate RatesBelow(a: Rates, b: Rates) {
    && Below(a.columnToProperty, b.columnToProperty) && Below(a.screenToJourney, b.screenToJourney)
    && Below(a.hookToScreen, b.hookToScreen) && Below(a.accessorToTest, b.accessorToTest)
    && Below(a.accessorToHook, b.accessorToHook) && Below(a.modelToOperation, b.modelToOperation)
    && Below(a.modelToDto, b.modelToDto) && Below(a.requirementToModel, b.requirementToModel)
    && Below(a.requirementToOperation, b.requirementToOperation) && Below(a.requirementToDto, b.requirementToDto)
    && Below(a.requirementToTest, b.requirementToTest) && Below(a.requirementToScreen, b.requirementToScreen)
    && Below(a.requirementToJourney, b.requirementToJourney)
  }

  predicate WholenessBelow(a: Wholeness, b: Wholeness) {
    && Below(a.test, b.test) && Below(a.journey, b.journey) && Below(a.property, b.property) && Below(a.dto, b.dto)
    && Below(a.screen, b.screen) && Below(a.hook, b.hook) && Below(a.api, b.api) && Below(a.model, b.model)
  }

  lemma PairOrder(a: Rate, b: Rate, c: Rate, d: Rate)
    requires Below(a, c) && Below(b, d)
    ensures Below(Branch([a, b]), Branch([c, d]))
  {
    BranchOrder([a, b], [c, d]);
  }

  lemma WholenessOrder(a: Rates, b: Rates)
    requires RatesBelow(a, b)
    ensures WholenessBelow(WholenessOf(a), WholenessOf(b))
  {
    var whole := Some(1.0);
    SerialOrder(a.hookToScreen, a.screenToJourney, b.hookToScreen, b.screenToJourney);
    var hookA, hookB := Serial(a.hookToScreen, a.screenToJourney), Serial(b.hookToScreen, b.screenToJourney);
    SerialOrder(a.accessorToTest, whole, b.accessorToTest, whole);
    SerialOrder(a.accessorToHook, hookA, b.accessorToHook, hookB);
    PairOrder(Serial(a.accessorToTest, whole), Serial(a.accessorToHook, hookA),
              Serial(b.accessorToTest, whole), Serial(b.accessorToHook, hookB));
    var apiA, apiB := WholenessOf(a).api, WholenessOf(b).api;
    SerialOrder(a.modelToOperation, apiA, b.modelToOperation, apiB);
    SerialOrder(a.modelToDto, a.columnToProperty, b.modelToDto, b.columnToProperty);
    PairOrder(Serial(a.modelToOperation, apiA), Serial(a.modelToDto, a.columnToProperty),
              Serial(b.modelToOperation, apiB), Serial(b.modelToDto, b.columnToProperty));
  }

  lemma ObligationsOrder(a: Rates, b: Rates)
    requires RatesBelow(a, b)
    ensures AllBelow(Obligations(a), Obligations(b))
  {
    WholenessOrder(a, b);
    var v, w := WholenessOf(a), WholenessOf(b);
    SerialOrder(a.requirementToModel, v.model, b.requirementToModel, w.model);
    SerialOrder(a.requirementToOperation, v.api, b.requirementToOperation, w.api);
    SerialOrder(a.requirementToDto, v.dto, b.requirementToDto, w.dto);
    SerialOrder(a.requirementToTest, v.test, b.requirementToTest, w.test);
    SerialOrder(a.requirementToScreen, v.screen, b.requirementToScreen, w.screen);
    SerialOrder(a.requirementToJourney, v.journey, b.requirementToJourney, w.journey);
  }

  /** The same populations, each reached at least as far. */
  predicate Improves(a: Option<Edge>, b: Option<Edge>) {
    ValidEdge(a) && ValidEdge(b) && a.value.eligible == b.value.eligible && a.value.reached <= b.value.reached
  }

  predicate Improved(a: Measurement, b: Measurement) {
    && Improves(a.columnToProperty, b.columnToProperty) && Improves(a.screenToJourney, b.screenToJourney)
    && Improves(a.hookToScreen, b.hookToScreen) && Improves(a.accessorToTest, b.accessorToTest)
    && Improves(a.accessorToHook, b.accessorToHook) && Improves(a.modelToOperation, b.modelToOperation)
    && Improves(a.modelToDto, b.modelToDto) && Improves(a.requirementToModel, b.requirementToModel)
    && Improves(a.requirementToOperation, b.requirementToOperation) && Improves(a.requirementToDto, b.requirementToDto)
    && Improves(a.requirementToTest, b.requirementToTest) && Improves(a.requirementToScreen, b.requirementToScreen)
    && Improves(a.requirementToJourney, b.requirementToJourney)
  }

  lemma RateOrder(a: Edge, b: Edge)
    requires 0 <= a.reached <= b.reached <= b.eligible == a.eligible
    ensures Below(RateOf(a), RateOf(b))
  {
    if a.eligible > 0 {
      MeanOrder(a.reached as real, b.reached as real, a.eligible as real);
    }
  }

  lemma RatesOrder(a: Measurement, b: Measurement)
    requires Improved(a, b)
    ensures Valid(a) && Valid(b) && RatesBelow(RatesOf(a), RatesOf(b))
  {
    RateOrder(a.columnToProperty.value, b.columnToProperty.value);
    RateOrder(a.screenToJourney.value, b.screenToJourney.value);
    RateOrder(a.hookToScreen.value, b.hookToScreen.value);
    RateOrder(a.accessorToTest.value, b.accessorToTest.value);
    RateOrder(a.accessorToHook.value, b.accessorToHook.value);
    RateOrder(a.modelToOperation.value, b.modelToOperation.value);
    RateOrder(a.modelToDto.value, b.modelToDto.value);
    RateOrder(a.requirementToModel.value, b.requirementToModel.value);
    RateOrder(a.requirementToOperation.value, b.requirementToOperation.value);
    RateOrder(a.requirementToDto.value, b.requirementToDto.value);
    RateOrder(a.requirementToTest.value, b.requirementToTest.value);
    RateOrder(a.requirementToScreen.value, b.requirementToScreen.value);
    RateOrder(a.requirementToJourney.value, b.requirementToJourney.value);
  }

  /**
   Reaching more never lowers anything: over the same populations the score and every
   wholeness value lie in [0,1] and grow with what is reached, and whether each can be
   measured depends on the populations alone.
   */
  lemma CoverageIsMonotone(a: Measurement, b: Measurement)
    requires Improved(a, b)
    ensures Plain(a).Some? && Plain(b).Some?
    ensures Below(Plain(a).value.score, Plain(b).value.score)
    ensures WholenessBelow(Plain(a).value.wholeness, Plain(b).value.wholeness)
    ensures AllBelow(Plain(a).value.obligations, Plain(b).value.obligations)
  {
    RatesOrder(a, b);
    WholenessOrder(RatesOf(a), RatesOf(b));
    ObligationsOrder(RatesOf(a), RatesOf(b));
    BranchOrder(Obligations(RatesOf(a)), Obligations(RatesOf(b)));
  }

  /** The score is unmeasurable exactly when no requirement has a population whose targets can be measured. */
  lemma ScoreMeasurable(m: Measurement)
    requires Valid(m)
    ensures Plain(m).value.score.None? <==>
      var r := RatesOf(m);
      && r.requirementToTest.None? && r.requirementToJourney.None?
      && (r.requirementToDto.None? || r.columnToProperty.None?)
      && (r.requirementToScreen.None? || r.screenToJourney.None?)
      && (r.requirementToOperation.None? || WholenessOf(r).api.None?)
      && (r.requirementToModel.None? || WholenessOf(r).model.None?)
    ensures WholenessOf(RatesOf(m)).api.None? <==>
      var r := RatesOf(m);
      r.accessorToTest.None? && (r.accessorToHook.None? || r.hookToScreen.None? || r.screenToJourney.None?)
    ensures WholenessOf(RatesOf(m)).model.None? <==>
      var r := RatesOf(m);
      (r.modelToOperation.None? || WholenessOf(r).api.None?) && (r.modelToDto.None? || r.columnToProperty.None?)
  {
    var r := RatesOf(m);
    var w := WholenessOf(r);
    var hook := Serial(r.hookToScreen, r.screenToJourney);
    NoneMeasured([Serial(r.accessorToTest, Some(1.0)), Serial(r.accessorToHook, hook)]);
    NoneMeasured([Serial(r.modelToOperation, w.api), Serial(r.modelToDto, r.columnToProperty)]);
    NoneMeasured(Obligations(r));
    var o := Obligations(r);
    assert (forall i | 0 <= i < 6 :: o[i].None?) <==>
      o[0].None? && o[1].None? && o[2].None? && o[3].None? && o[4].None? && o[5].None?;
  }

  lemma {:induction false} NoneMeasured(values: seq<Rate>)
    ensures Measured(values) == [] <==> forall i | 0 <= i < |values| :: values[i].None?
  {
    if values != [] {
      var front := values[..|values| - 1];
      NoneMeasured(front);
      assert forall i | 0 <= i < |front| :: front[i] == values[i];
      assert values[|values| - 1] == Last(values);
    }
  }

  // ----- what each value is -----

  /** The share of a population that was reached, where there is a population. */
  predicate IsShare(rate: Rate, edge: Edge) {
    if edge.eligible == 0 then rate.None?
    else rate.Some? && rate.value * edge.eligible as real == edge.reached as real
  }

  /** Two shares one after the other, each of which must be measurable. */
  predicate IsChain(rate: Rate, a: Rate, b: Rate) {
    if a.None? || b.None? then rate.None? else rate == Some(a.value * b.value)
  }

  /** The mean of those that are measurable. */
  predicate IsMean(rate: Rate, a: Rate, b: Rate) {
    if a.None? && b.None? then rate.None?
    else if a.None? then rate == b
    else if b.None? then rate == a
    else rate.Some? && rate.value + rate.value == a.value + b.value
  }

  lemma RateIsShare(edge: Edge)
    ensures IsShare(RateOf(edge), edge)
  {
  }

  lemma SerialIsChain(a: Rate, b: Rate)
    ensures IsChain(Serial(a, b), a, b)
  {
  }

  lemma Pair(a: Rate, b: Rate)
    ensures Measured([a, b]) == (if a.Some? then [a.value] else []) + (if b.Some? then [b.value] else [])
  {
    assert [a, b][..1] == [a] && [a][..0] == [];
    assert Measured([a]) == if a.Some? then [a.value] else [];
  }

  lemma MeanOfFew(a: real)
    ensures Mean(a, 1) == a && Mean(a, 2) + Mean(a, 2) == a
  {
  }

  lemma SumOfOne(a: real)
    ensures SumReal([a]) == a
  {
    assert [a][..0] == [];
  }

  lemma SumOfTwo(a: real, b: real)
    ensures SumReal([a, b]) == a + b
  {
    assert [a, b][..1] == [a];
    SumOfOne(a);
  }

  lemma BranchIsMean(a: Rate, b: Rate)
    ensures IsMean(Branch([a, b]), a, b)
  {
    Pair(a, b);
    if a.Some? && b.Some? {
      assert Measured([a, b]) == [a.value, b.value];
      SumOfTwo(a.value, b.value);
      MeanOfFew(a.value + b.value);
    } else if a.Some? || b.Some? {
      var only := if a.Some? then a.value else b.value;
      assert Measured([a, b]) == [only];
      SumOfOne(only);
      MeanOfFew(only);
    }
  }

  predicate SharesOf(m: Measurement, r: Rates)
    requires Valid(m)
  {
    && IsShare(r.columnToProperty, m.columnToProperty.value) && IsShare(r.screenToJourney, m.screenToJourney.value)
    && IsShare(r.hookToScreen, m.hookToScreen.value) && IsShare(r.accessorToTest, m.accessorToTest.value)
    && IsShare(r.accessorToHook, m.accessorToHook.value) && IsShare(r.modelToOperation, m.modelToOperation.value)
    && IsShare(r.modelToDto, m.modelToDto.value) && IsShare(r.requirementToModel, m.requirementToModel.value)
    && IsShare(r.requirementToOperation, m.requirementToOperation.value) && IsShare(r.requirementToDto, m.requirementToDto.value)
    && IsShare(r.requirementToTest, m.requirementToTest.value) && IsShare(r.requirementToScreen, m.requirementToScreen.value)
    && IsShare(r.requirementToJourney, m.requirementToJourney.value)
  }

  /** A test or a journey stands for itself; everything else is traced through what it leads to. */
  ghost predicate Traced(r: Rates, w: Wholeness) {
    && w.test == Some(1.0) && w.journey == Some(1.0) && w.property == Some(1.0)
    && w.dto == r.columnToProperty && w.screen == r.screenToJourney
    && IsChain(w.hook, r.hookToScreen, r.screenToJourney)
    && (exists byHook :: IsChain(byHook, r.accessorToHook, w.hook) && IsMean(w.api, r.accessorToTest, byHook))
    && exists byOperation, byDto ::
         IsChain(byOperation, r.modelToOperation, w.api) && IsChain(byDto, r.modelToDto, r.columnToProperty)
         && IsMean(w.model, byOperation, byDto)
  }

  /** How many values are measurable. */
  function KnownCount(values: seq<Rate>): nat {
    if values == [] then 0 else (if values[0].Some? then 1 else 0) + KnownCount(values[1..])
  }

  /** What they add up to. */
  function KnownSum(values: seq<Rate>): real {
    if values == [] then 0.0 else (if values[0].Some? then values[0].value else 0.0) + KnownSum(values[1..])
  }

  function Scaled(mean: real, count: nat): real {
    mean * count as real
  }

  /** The mean of the values that can be measured. */
  predicate IsMeanOf(mean: Rate, values: seq<Rate>) {
    if KnownCount(values) == 0 then mean.None?
    else mean.Some? && Scaled(mean.value, KnownCount(values)) == KnownSum(values)
  }

  lemma {:induction false} KnownLast(values: seq<Rate>, rate: Rate)
    ensures KnownCount(values + [rate]) == KnownCount(values) + (if rate.Some? then 1 else 0)
    ensures KnownSum(values + [rate]) == KnownSum(values) + (if rate.Some? then rate.value else 0.0)
  {
    if values == [] {
      assert [] + [rate] == [rate] && [rate][1..] == [];
    } else {
      assert (values + [rate])[1..] == values[1..] + [rate];
      KnownLast(values[1..], rate);
    }
  }

  lemma {:induction false} MeasuredIsKnown(values: seq<Rate>)
    ensures |Measured(values)| == KnownCount(values) && SumReal(Measured(values)) == KnownSum(values)
  {
    if values != [] {
      var front, last := values[..|values| - 1], Last(values);
      MeasuredIsKnown(front);
      KnownLast(front, last);
      assert front + [last] == values;
      if last.Some? {
        assert (Measured(front) + [last.value])[..|Measured(front)|] == Measured(front);
      } else {
        assert Measured(front) + [] == Measured(front);
      }
    }
  }

  lemma BranchIsMeanOf(values: seq<Rate>)
    ensures IsMeanOf(Branch(values), values)
  {
    MeasuredIsKnown(values);
    MeanTimesCount(KnownSum(values), KnownCount(values));
  }

  lemma MeanTimesCount(sum: real, count: nat)
    ensures count > 0 ==> Scaled(Mean(sum, count), count) == sum
  {
  }

  /**
   What a measured codebase's coverage is made of: each rate is its edge's reached
   share, each wholeness the chain or the mean of chains its kind is traced by,
   each obligation a requirement's share of a kind times that kind's wholeness, and
   the score the mean of the obligations that can be measured.
   */
  lemma CoverageIsComposed(m: Measurement)
    requires Valid(m)
    ensures Plain(m).Some?
    ensures var r, c := RatesOf(m), Plain(m).value;
      && SharesOf(m, r) && Traced(r, c.wholeness)
      && |c.obligations| == 6
      && IsChain(c.obligations[0], r.requirementToModel, c.wholeness.model)
      && IsChain(c.obligations[1], r.requirementToOperation, c.wholeness.api)
      && IsChain(c.obligations[2], r.requirementToDto, r.columnToProperty)
      && c.obligations[3] == r.requirementToTest
      && IsChain(c.obligations[4], r.requirementToScreen, r.screenToJourney)
      && c.obligations[5] == r.requirementToJourney
      && IsMeanOf(c.score, c.obligations)
  {
    var r := RatesOf(m);
    SharesHold(m);
    WholenessTraced(r);
    ObligationsChained(r);
    BranchIsMeanOf(Obligations(r));
  }

  lemma ObligationsChained(r: Rates)
    ensures var w, o := WholenessOf(r), Obligations(r);
      && |o| == 6 && IsChain(o[0], r.requirementToModel, w.model) && IsChain(o[1], r.requirementToOperation, w.api)
      && IsChain(o[2], r.requirementToDto, r.columnToProperty) && o[3] == r.requirementToTest
      && IsChain(o[4], r.requirementToScreen, r.screenToJourney) && o[5] == r.requirementToJourney
  {
    var w := WholenessOf(r);
    SerialIsChain(r.requirementToModel, w.model);
    SerialIsChain(r.requirementToOperation, w.api);
    SerialIsChain(r.requirementToDto, r.columnToProperty);
    SerialIsChain(r.requirementToScreen, r.screenToJourney);
    SerialWithWhole(r.requirementToTest);
    SerialWithWhole(r.requirementToJourney);
  }

  lemma SerialWithWhole(a: Rate)
    ensures Serial(a, Some(1.0)) == a
  {
  }

  lemma SharesHold(m: Measurement)
    requires Valid(m)
    ensures SharesOf(m, RatesOf(m))
  {
    RateIsShare(m.columnToProperty.value);
    RateIsShare(m.screenToJourney.value);
    RateIsShare(m.hookToScreen.value);
    RateIsShare(m.accessorToTest.value);
    RateIsShare(m.accessorToHook.value);
    RateIsShare(m.modelToOperation.value);
    RateIsShare(m.modelToDto.value);
    RateIsShare(m.requirementToModel.value);
    RateIsShare(m.requirementToOperation.value);
    RateIsShare(m.requirementToDto.value);
    RateIsShare(m.requirementToTest.value);
    RateIsShare(m.requirementToScreen.value);
    RateIsShare(m.requirementToJourney.value);
  }

  lemma WholenessTraced(r: Rates)
    ensures Traced(r, WholenessOf(r))
  {
    var w := WholenessOf(r);
    var byHook := Serial(r.accessorToHook, w.hook);
    var byOperation, byDto := Serial(r.modelToOperation, w.api), Serial(r.modelToDto, r.columnToProperty);
    SerialWithWhole(r.accessorToTest);
    SerialIsChain(r.hookToScreen, r.screenToJourney);
    SerialIsChain(r.accessorToHook, w.hook);
    SerialIsChain(r.modelToOperation, w.api);
    SerialIsChain(r.modelToDto, r.columnToProperty);
    BranchIsMean(r.accessorToTest, byHook);
    BranchIsMean(byOperation, byDto);
    assert IsChain(byHook, r.accessorToHook, w.hook) && IsMean(w.api, r.accessorToTest, byHook);
    assert IsChain(byOperation, r.modelToOperation, w.api) && IsChain(byDto, r.modelToDto, r.columnToProperty);
  }
}
