/**
 Pricing a run from its retained token updates: a walk that accepts the updates
 forming a chain from the initial usage and drops the rest. Amounts are exact
 reals; the original's final rounding is not modelled.
 */
module ApiCost {
  import opened Prelude
  import opened TokenUsage

  datatype TokenPrice = TokenPrice(input: real, cachedInput: real, cacheWriteInput: real, output: real)

  datatype ModelPrice = ModelPrice(short: TokenPrice, long: TokenPrice)

  datatype Model = Luna | Terra | Sol | OtherModel

  function PriceOf(model: Model): Option<ModelPrice> {
    match model
    case Luna => Some(ModelPrice(TokenPrice(0.1, 0.01, 0.125, 0.6), TokenPrice(0.2, 0.02, 0.25, 0.9)))
    case Terra => Some(ModelPrice(TokenPrice(1.0, 0.1, 1.25, 6.0), TokenPrice(2.0, 0.2, 2.5, 9.0)))
    case Sol => Some(ModelPrice(TokenPrice(5.0, 0.5, 6.25, 30.0), TokenPrice(10.0, 1.0, 12.5, 45.0)))
    case OtherModel => None
  }

  const LONG_CONTEXT: int := 272_000

  /** A parsed update; a line that is none reads as None. */
  datatype Update = Update(total: Usage, last: Usage)

  datatype Cost = Cost(amount: real, requests: nat, short: nat, long: nat, replayed: nat)

  /** The walk stops for good at an invalid request or once the expected usage is reached. */
  datatype Walk = Walk(observed: Usage, cost: Cost, invalid: bool, reached: bool)

  datatype Priced = Price(cost: Cost) | Unavailable | Refused

  function Times(tokens: int, price: real): real {
    tokens as real * price
  }

  /** The price of one request, in millionths. */
  function Charge(u: Usage, p: TokenPrice): real {
    Total(Times(u.input - u.cachedInput - u.cacheWriteInput, p.input), Times(u.cachedInput, p.cachedInput),
          Times(u.cacheWriteInput, p.cacheWriteInput), Times(u.output, p.output))
  }

  function Total(a: real, b: real, c: real, d: real): real {
    a + b + c + d
  }

  function RequestCost(u: Usage, p: TokenPrice): real {
    Charge(u, p) / 1_000_000.0
  }

  predicate ValidUsage(u: Usage) {
    && u.total == u.input + u.output
    && u.cachedInput + u.cacheWriteInput <= u.input
    && u.reasoningOutput <= u.output
  }

  predicate Long(u: Usage) {
    u.input >= LONG_CONTEXT
  }

  function Rate(u: Usage, prices: ModelPrice): TokenPrice {
    if Long(u) then prices.long else prices.short
  }

  function StartWalk(initial: Usage, expected: Usage): Walk {
    Walk(initial, Cost(0.0, 0, 0, 0, 0), false, initial == expected)
  }

  /** Whether the update carries the usage of exactly one request beyond what was observed. */
  predicate Steps(update: Update, observed: Usage) {
    && update.total != observed
    && NonNegative(Subtract(update.total, observed))
    && Subtract(update.total, observed) == update.last
  }

  predicate Stopped(w: Walk) {
    w.invalid || w.reached
  }

  function Take(w: Walk, line: Option<Update>, expected: Usage, prices: ModelPrice): Walk {
    if Stopped(w) || line.None? || line.value.total == w.observed then w
    else if !Steps(line.value, w.observed) then w.(cost := w.cost.(replayed := w.cost.replayed + 1))
    else
      var usage := line.value.last;
      if !ValidUsage(usage) then w.(invalid := true)
      else
        Walk(
          line.value.total,
          Cost(
            w.cost.amount + RequestCost(usage, Rate(usage, prices)), w.cost.requests + 1,
            w.cost.short + (if Long(usage) then 0 else 1), w.cost.long + (if Long(usage) then 1 else 0),
            w.cost.replayed),
          false, line.value.total == expected)
  }

  /** The walk over all lines, from the first. */
  function Walked(lines: seq<Option<Update>>, initial: Usage, expected: Usage, prices: ModelPrice): Walk {
    if lines == [] then StartWalk(initial, expected)
    else Take(Walked(lines[..|lines| - 1], initial, expected, prices), Last(lines), expected, prices)
  }

  function Settle(w: Walk, expected: Usage, strict: bool): Priced {
    if w.invalid || w.observed != expected then (if strict then Refused else Unavailable) else Price(w.cost)
  }

  /** Walks the lines once; nothing is returned for an unknown model, and missing logs are unavailable. */
  method Collect(
    lines: seq<Option<Update>>, logsExist: bool, model: Model, initial: Usage, expected: Usage, strict: bool)
    returns (priced: Priced)
    ensures PriceOf(model).None? ==> priced == Unavailable
    ensures PriceOf(model).Some? && !logsExist ==> priced == (if strict then Refused else Unavailable)
    ensures PriceOf(model).Some? && logsExist ==>
      priced == Settle(Walked(lines, initial, expected, PriceOf(model).value), expected, strict)
  {
    if PriceOf(model).None? { return Unavailable; }
    var prices := PriceOf(model).value;
    if !logsExist { return if strict then Refused else Unavailable; }
    var observed, amount, requests, short, long, replayed := initial, 0.0, 0, 0, 0, 0;
    var invalid, reached := false, initial == expected;
    var i := 0;
    while i < |lines|
      invariant i <= |lines|
      invariant Walked(lines[..i], initial, expected, prices)
             == Walk(observed, Cost(amount, requests, short, long, replayed), invalid, reached)
    {
      assert lines[..i + 1][..i] == lines[..i];
      var line := lines[i];
      i := i + 1;
      if invalid || reached || line.None? || line.value.total == observed { continue; }
      var usage := Subtract(line.value.total, observed);
      if !NonNegative(usage) || usage != line.value.last {
        replayed := replayed + 1;
        continue;
      }
      if !ValidUsage(usage) {
        invalid := true;
        continue;
      }
      observed := line.value.total;
      reached := observed == expected;
      amount := amount + RequestCost(usage, Rate(usage, prices));
      requests := requests + 1;
      if Long(usage) { long := long + 1; } else { short := short + 1; }
    }
    assert lines[..i] == lines;
    if invalid || observed != expected { return if strict then Refused else Unavailable; }
    priced := Price(Cost(amount, requests, short, long, replayed));
  }

  // ----- the accepted requests -----

  /** The usages the walk accepted, in order. */
  function Accepted(lines: seq<Option<Update>>, initial: Usage, expected: Usage, prices: ModelPrice): seq<Usage> {
    if lines == [] then []
    else
      var front := lines[..|lines| - 1];
      var before := Walked(front, initial, expected, prices);
      var rest := Accepted(front, initial, expected, prices);
      if !Stopped(before) && Last(lines).Some? && Steps(Last(lines).value, before.observed) && ValidUsage(Last(lines).value.last)
      then rest + [Last(lines).value.last] else rest
  }

  function Charged(usages: seq<Usage>, prices: ModelPrice): real {
    if usages == [] then 0.0
    else Charged(usages[..|usages| - 1], prices) + RequestCost(Last(usages), Rate(Last(usages), prices))
  }

  function LongCount(usages: seq<Usage>): nat {
    if usages == [] then 0 else LongCount(usages[..|usages| - 1]) + (if Long(Last(usages)) then 1 else 0)
  }

  lemma {:induction false} SumLast(usages: seq<Usage>, u: Usage, prices: ModelPrice)
    ensures SumUsage(usages + [u]) == Add(SumUsage(usages), u)
    ensures Charged(usages + [u], prices) == Charged(usages, prices) + RequestCost(u, Rate(u, prices))
    ensures LongCount(usages + [u]) == LongCount(usages) + (if Long(u) then 1 else 0)
  {
    assert (usages + [u])[..|usages|] == usages;
  }

  lemma StepAdds(update: Update, observed: Usage)
    requires Steps(update, observed)
    ensures Add(observed, update.last) == update.total && NonNegative(update.last)
  {
  }

  lemma AddAssociates(a: Usage, b: Usage, c: Usage)
    ensures Add(Add(a, b), c) == Add(a, Add(b, c))
  {
  }

  /**
   The accepted requests form a chain from the initial usage: their usages add up to
   what was observed in all six counters, and the amount and counts are theirs.
   */
  lemma {:induction false} AcceptedAddUp(lines: seq<Option<Update>>, initial: Usage, expected: Usage, prices: ModelPrice)
    ensures var w, accepted := Walked(lines, initial, expected, prices), Accepted(lines, initial, expected, prices);
      && Add(initial, SumUsage(accepted)) == w.observed
      && w.cost.amount == Charged(accepted, prices)
      && w.cost.requests == |accepted| && w.cost.long == LongCount(accepted) && w.cost.requests == w.cost.short + w.cost.long
      && (forall i | 0 <= i < |accepted| :: ValidUsage(accepted[i]) && NonNegative(accepted[i]))
      && (w.reached <==> w.observed == expected)
  {
    if lines != [] {
      var front := lines[..|lines| - 1];
      AcceptedAddUp(front, initial, expected, prices);
      if Last(lines).Some? {
        if Steps(Last(lines).value, Walked(front, initial, expected, prices).observed) {
          StepAdds(Last(lines).value, Walked(front, initial, expected, prices).observed);
        }
        AddAssociates(initial, SumUsage(Accepted(front, initial, expected, prices)), Last(lines).value.last);
        SumLast(Accepted(front, initial, expected, prices), Last(lines).value.last, prices);
      }
    }
  }

  // ----- the amount is between the two rates -----

  predicate Cheaper(a: TokenPrice, b: TokenPrice) {
    0.0 <= a.input <= b.input && 0.0 <= a.cachedInput <= b.cachedInput
    && 0.0 <= a.cacheWriteInput <= b.cacheWriteInput && 0.0 <= a.output <= b.output
  }

  lemma ShortIsCheaper(model: Model)
    requires PriceOf(model).Some?
    ensures Cheaper(PriceOf(model).value.short, PriceOf(model).value.long)
  {
  }

  lemma Scaled(n: int, a: real, b: real)
    requires n >= 0 && a <= b
    ensures Times(n, a) <= Times(n, b)
  {
  }

  lemma TotalOrder(a: real, b: real, c: real, d: real, e: real, f: real, g: real, h: real)
    requires a <= e && b <= f && c <= g && d <= h
    ensures Total(a, b, c, d) <= Total(e, f, g, h)
  {
  }

  lemma CheaperCharge(u: Usage, a: TokenPrice, b: TokenPrice)
    requires Cheaper(a, b) && ValidUsage(u) && NonNegative(u)
    ensures Charge(u, a) <= Charge(u, b)
  {
    var uncached := u.input - u.cachedInput - u.cacheWriteInput;
    Scaled(uncached, a.input, b.input);
    Scaled(u.cachedInput, a.cachedInput, b.cachedInput);
    Scaled(u.cacheWriteInput, a.cacheWriteInput, b.cacheWriteInput);
    Scaled(u.output, a.output, b.output);
    TotalOrder(
      Times(uncached, a.input), Times(u.cachedInput, a.cachedInput), Times(u.cacheWriteInput, a.cacheWriteInput), Times(u.output, a.output),
      Times(uncached, b.input), Times(u.cachedInput, b.cachedInput), Times(u.cacheWriteInput, b.cacheWriteInput), Times(u.output, b.output));
  }

  lemma CheaperCosts(u: Usage, a: TokenPrice, b: TokenPrice)
    requires Cheaper(a, b) && ValidUsage(u) && NonNegative(u)
    ensures RequestCost(u, a) <= RequestCost(u, b)
  {
    CheaperCharge(u, a, b);
    DividedOrder(Charge(u, a), Charge(u, b));
  }

  lemma DividedOrder(a: real, b: real)
    requires a <= b
    ensures a / 1_000_000.0 <= b / 1_000_000.0
  {
  }

  lemma CostAdds(a: Usage, b: Usage, p: TokenPrice)
    ensures RequestCost(Add(a, b), p) == RequestCost(a, p) + RequestCost(b, p)
  {
  }

  lemma {:induction false} ChargedBetween(usages: seq<Usage>, prices: ModelPrice)
    requires Cheaper(prices.short, prices.long)
    requires forall i | 0 <= i < |usages| :: ValidUsage(usages[i]) && NonNegative(usages[i])
    ensures RequestCost(SumUsage(usages), prices.short) <= Charged(usages, prices) <= RequestCost(SumUsage(usages), prices.long)
  {
    if usages != [] {
      var front, u := usages[..|usages| - 1], Last(usages);
      ChargedBetween(front, prices);
      CostAdds(SumUsage(front), u, prices.short);
      CostAdds(SumUsage(front), u, prices.long);
      CheaperCosts(u, prices.short, prices.long);
    }
  }

  /**
   A returned price is that of a chain from the initial to the expected usage, and
   lies between the short-rate and the long-rate price of their difference.
   */
  lemma PriceIsOfTheDifference(lines: seq<Option<Update>>, model: Model, initial: Usage, expected: Usage, strict: bool)
    requires PriceOf(model).Some?
    requires Settle(Walked(lines, initial, expected, PriceOf(model).value), expected, strict).Price?
    ensures var prices := PriceOf(model).value;
      var cost := Settle(Walked(lines, initial, expected, prices), expected, strict).cost;
      var accepted := Accepted(lines, initial, expected, prices);
      && SumUsage(accepted) == Subtract(expected, initial)
      && cost.requests == |accepted| == cost.short + cost.long
      && RequestCost(Subtract(expected, initial), prices.short) <= cost.amount
      && cost.amount <= RequestCost(Subtract(expected, initial), prices.long)
  {
    var prices := PriceOf(model).value;
    AcceptedAddUp(lines, initial, expected, prices);
    ShortIsCheaper(model);
    ChargedBetween(Accepted(lines, initial, expected, prices), prices);
  }

  // ----- each request at the rate its own context earns -----

  /** The requests below the long-context threshold. */
  function ShortOnes(usages: seq<Usage>): seq<Usage> {
    if usages == [] then []
    else ShortOnes(usages[..|usages| - 1]) + (if Last(usages).input < 272_000 then [Last(usages)] else [])
  }

  /** The requests that reach it. */
  function LongOnes(usages: seq<Usage>): seq<Usage> {
    if usages == [] then []
    else LongOnes(usages[..|usages| - 1]) + (if Last(usages).input >= 272_000 then [Last(usages)] else [])
  }

  lemma SumMore(usages: seq<Usage>, u: Usage, p: TokenPrice)
    ensures RequestCost(SumUsage(usages + [u]), p) == RequestCost(SumUsage(usages), p) + RequestCost(u, p)
  {
    assert (usages + [u])[..|usages|] == usages;
    CostAdds(SumUsage(usages), u, p);
  }

  lemma CostOfNothing(p: TokenPrice)
    ensures RequestCost(Zero(), p) == 0.0
  {
  }

  lemma {:induction false} ChargedSplits(usages: seq<Usage>, prices: ModelPrice)
    ensures Charged(usages, prices)
         == RequestCost(SumUsage(ShortOnes(usages)), prices.short) + RequestCost(SumUsage(LongOnes(usages)), prices.long)
    ensures LongCount(usages) == |LongOnes(usages)| && |usages| == |ShortOnes(usages)| + |LongOnes(usages)|
  {
    if usages == [] {
      CostOfNothing(prices.short);
      CostOfNothing(prices.long);
    } else {
      var front, u := usages[..|usages| - 1], Last(usages);
      ChargedSplits(front, prices);
      SumMore(ShortOnes(front), u, prices.short);
      SumMore(LongOnes(front), u, prices.long);
      assert ShortOnes(front) + [] == ShortOnes(front) && LongOnes(front) + [] == LongOnes(front);
    }
  }

  lemma {:induction false} AllShort(usages: seq<Usage>)
    requires forall i | 0 <= i < |usages| :: usages[i].input < 272_000
    ensures ShortOnes(usages) == usages && LongOnes(usages) == []
  {
    if usages != [] {
      AllShort(usages[..|usages| - 1]);
      assert usages == usages[..|usages| - 1] + [Last(usages)];
    }
  }

  lemma {:induction false} AllLong(usages: seq<Usage>)
    requires forall i | 0 <= i < |usages| :: usages[i].input >= 272_000
    ensures ShortOnes(usages) == [] && LongOnes(usages) == usages
  {
    if usages != [] {
      AllLong(usages[..|usages| - 1]);
      assert usages == usages[..|usages| - 1] + [Last(usages)];
    }
  }

  /**
   A returned price is the short-rate price of the requests below 272,000 input
   tokens together, plus the long-rate price of the others together, and counts
   each kind. Where all are of one kind it is one rate's price of the difference.
   */
  lemma PriceByContext(lines: seq<Option<Update>>, initial: Usage, expected: Usage, strict: bool, prices: ModelPrice)
    requires Settle(Walked(lines, initial, expected, prices), expected, strict).Price?
    ensures var cost := Settle(Walked(lines, initial, expected, prices), expected, strict).cost;
      var accepted := Accepted(lines, initial, expected, prices);
      var short, long := ShortOnes(accepted), LongOnes(accepted);
      && cost.amount == RequestCost(SumUsage(short), prices.short) + RequestCost(SumUsage(long), prices.long)
      && cost.short == |short| && cost.long == |long|
      && ((forall i | 0 <= i < |accepted| :: accepted[i].input < 272_000) ==>
            cost.amount == RequestCost(Subtract(expected, initial), prices.short))
      && ((forall i | 0 <= i < |accepted| :: accepted[i].input >= 272_000) ==>
            cost.amount == RequestCost(Subtract(expected, initial), prices.long))
  {
    var accepted := Accepted(lines, initial, expected, prices);
    AcceptedAddUp(lines, initial, expected, prices);
    ChargedSplits(accepted, prices);
    if forall i | 0 <= i < |accepted| :: accepted[i].input < 272_000 { AllShort(accepted); }
    if forall i | 0 <= i < |accepted| :: accepted[i].input >= 272_000 { AllLong(accepted); }
    CostOfNothing(prices.short);
    CostOfNothing(prices.long);
    assert SumUsage(accepted) == Subtract(expected, initial);
  }

  /** The price of one request that is the whole usage. */
  function Alone(u: Usage, model: Model): Priced
    requires PriceOf(model).Some?
  {
    Settle(Walked([Some(Update(u, u))], Zero(), u, PriceOf(model).value), u, true)
  }

  lemma AloneCosts(u: Usage, model: Model)
    requires PriceOf(model).Some? && ValidUsage(u) && NonNegative(u) && u != Zero()
    ensures u.input < 272_000 ==> Alone(u, model) == Price(Cost(RequestCost(u, PriceOf(model).value.short), 1, 1, 0, 0))
    ensures u.input >= 272_000 ==> Alone(u, model) == Price(Cost(RequestCost(u, PriceOf(model).value.long), 1, 0, 1, 0))
  {
    var lines, prices := [Some(Update(u, u))], PriceOf(model).value;
    assert lines[..|lines| - 1] == [] && Last(lines) == Some(Update(u, u));
    assert Walked([], Zero(), u, prices) == StartWalk(Zero(), u);
    assert Subtract(u, Zero()) == u && Steps(Update(u, u), Zero());
    var w := Walked(lines, Zero(), u, prices);
    assert w == Take(StartWalk(Zero(), u), Some(Update(u, u)), u, prices);
    assert w.cost.amount == 0.0 + RequestCost(u, Rate(u, prices));
  }

  /** A request of 100,000 input tokens, some cached and some written to the cache, and one of 300,000. */
  function ShortSample(): Usage { Usage(105_000, 100_000, 20_000, 10_000, 5_000, 0) }

  function LongSample(): Usage { Usage(301_000, 300_000, 20_000, 10_000, 1_000, 0) }

  lemma ShortSampleCosts(p: TokenPrice)
    ensures RequestCost(ShortSample(), p) == (70_000.0 * p.input + 20_000.0 * p.cachedInput + 10_000.0 * p.cacheWriteInput + 5_000.0 * p.output) / 1_000_000.0
  {
  }

  lemma LongSampleCosts(p: TokenPrice)
    ensures RequestCost(LongSample(), p) == (270_000.0 * p.input + 20_000.0 * p.cachedInput + 10_000.0 * p.cacheWriteInput + 1_000.0 * p.output) / 1_000_000.0
  {
  }

  /** What the published rates make of them, in dollars. */
  lemma SamplePrices(model: Model)
    requires model != OtherModel
    ensures var (short, long) :=
        match model { case Luna => (0.01145, 0.0578) case Terra => (0.1145, 0.578) case _ => (0.5725, 2.89) };
      && PriceOf(model).Some?
      && Alone(ShortSample(), model) == Price(Cost(short, 1, 1, 0, 0))
      && Alone(LongSample(), model) == Price(Cost(long, 1, 0, 1, 0))
  {
    AloneCosts(ShortSample(), model);
    AloneCosts(LongSample(), model);
    ShortSampleCosts(PriceOf(model).value.short);
    LongSampleCosts(PriceOf(model).value.long);
  }

  // ----- when a price is returned -----

  /** Where the counters stand behind the first `n` lines when the marked ones are taken. */
  function Standing(lines: seq<Option<Update>>, picks: seq<bool>, initial: Usage, n: nat): Usage
    requires n <= |lines| == |picks|
  {
    if n == 0 then initial
    else if picks[n - 1] && lines[n - 1].Some? then lines[n - 1].value.total
    else Standing(lines, picks, initial, n - 1)
  }

  /** The update goes beyond the counters by exactly the request it carries, and none of them falls. */
  predicate OneRequest(update: Update, before: Usage) {
    && update.total != before
    && update.total.total - before.total == update.last.total >= 0
    && update.total.input - before.input == update.last.input >= 0
    && update.total.cachedInput - before.cachedInput == update.last.cachedInput >= 0
    && update.total.cacheWriteInput - before.cacheWriteInput == update.last.cacheWriteInput >= 0
    && update.total.output - before.output == update.last.output >= 0
    && update.total.reasoningOutput - before.reasoningOutput == update.last.reasoningOutput >= 0
  }

  /** One request that adds up in itself. */
  predicate Sound(u: Usage) {
    u.input + u.output == u.total && u.cachedInput + u.cacheWriteInput <= u.input && u.reasoningOutput <= u.output
  }

  /** A line is marked exactly when it carries one request before the expected usage stands, and then adds up in itself. */
  predicate Explained(lines: seq<Option<Update>>, picks: seq<bool>, initial: Usage, expected: Usage, i: nat)
    requires i < |lines| == |picks|
  {
    var before := Standing(lines, picks, initial, i);
    && (picks[i] <==> before != expected && lines[i].Some? && OneRequest(lines[i].value, before))
    && (picks[i] ==> Sound(lines[i].value.last))
  }

  predicate Explains(lines: seq<Option<Update>>, picks: seq<bool>, initial: Usage, expected: Usage) {
    |picks| == |lines| && forall i | 0 <= i < |lines| :: Explained(lines, picks, initial, expected, i)
  }

  function Marked(picks: seq<bool>): nat {
    if picks == [] then 0 else Marked(picks[..|picks| - 1]) + (if Last(picks) then 1 else 0)
  }

  /** The updates that carry no one request although the expected usage does not stand yet. */
  function Dropped(lines: seq<Option<Update>>, picks: seq<bool>, initial: Usage, expected: Usage, n: nat): nat
    requires n <= |lines| == |picks|
  {
    if n == 0 then 0
    else
      var before := Standing(lines, picks, initial, n - 1);
      Dropped(lines, picks, initial, expected, n - 1) +
      (if before != expected && lines[n - 1].Some? && lines[n - 1].value.total != before && !picks[n - 1] then 1 else 0)
  }

  lemma OneRequestSteps(update: Update, before: Usage)
    ensures Steps(update, before) <==> OneRequest(update, before)
  {
  }

  lemma TakeMarked(w: Walk, line: Option<Update>, expected: Usage, prices: ModelPrice, pick: bool)
    requires !w.invalid && (w.reached <==> w.observed == expected)
    requires pick <==> w.observed != expected && line.Some? && OneRequest(line.value, w.observed)
    requires pick ==> Sound(line.value.last)
    ensures var after := Take(w, line, expected, prices);
      && !after.invalid && (after.reached <==> after.observed == expected)
      && after.observed == (if pick then line.value.total else w.observed)
      && after.cost.requests == w.cost.requests + (if pick then 1 else 0)
      && after.cost.replayed == w.cost.replayed +
           (if w.observed != expected && line.Some? && line.value.total != w.observed && !pick then 1 else 0)
  {
    if line.Some? {
      OneRequestSteps(line.value, w.observed);
    }
  }

  lemma WalkedNext(lines: seq<Option<Update>>, initial: Usage, expected: Usage, prices: ModelPrice, n: nat)
    requires n < |lines|
    ensures Walked(lines[..n + 1], initial, expected, prices) == Take(Walked(lines[..n], initial, expected, prices), lines[n], expected, prices)
  {
    assert lines[..n + 1][..n] == lines[..n] && Last(lines[..n + 1]) == lines[n];
  }

  /** The walk stands where the marks say. */
  predicate Follows(w: Walk, lines: seq<Option<Update>>, picks: seq<bool>, initial: Usage, expected: Usage, n: nat)
    requires n <= |lines| == |picks|
  {
    && !w.invalid && w.observed == Standing(lines, picks, initial, n) && (w.reached <==> w.observed == expected)
    && w.cost.requests == Marked(picks[..n]) && w.cost.replayed == Dropped(lines, picks, initial, expected, n)
  }

  lemma TakeFollows(w: Walk, lines: seq<Option<Update>>, picks: seq<bool>, initial: Usage, expected: Usage, prices: ModelPrice, n: nat)
    requires n < |lines| == |picks| && Explained(lines, picks, initial, expected, n)
    requires Follows(w, lines, picks, initial, expected, n)
    ensures Follows(Take(w, lines[n], expected, prices), lines, picks, initial, expected, n + 1)
  {
    assert picks[..n + 1][..n] == picks[..n] && Last(picks[..n + 1]) == picks[n];
    TakeMarked(w, lines[n], expected, prices, picks[n]);
  }

  /** Where the marks explain the lines, the walk took the marked ones and counted the dropped ones. */
  lemma {:induction false} ExplainedIsWalked(
    lines: seq<Option<Update>>, picks: seq<bool>, initial: Usage, expected: Usage, prices: ModelPrice, n: nat)
    requires Explains(lines, picks, initial, expected) && n <= |lines|
    ensures Follows(Walked(lines[..n], initial, expected, prices), lines, picks, initial, expected, n)
  {
    if n > 0 {
      ExplainedIsWalked(lines, picks, initial, expected, prices, n - 1);
      WalkedNext(lines, initial, expected, prices, n - 1);
      assert Explained(lines, picks, initial, expected, n - 1);
      TakeFollows(Walked(lines[..n - 1], initial, expected, prices), lines, picks, initial, expected, prices, n - 1);
    }
  }

  /** The lines the walk takes. */
  function Picks(lines: seq<Option<Update>>, initial: Usage, expected: Usage, prices: ModelPrice): (picks: seq<bool>)
    ensures |picks| == |lines|
  {
    if lines == [] then []
    else
      var before := Walked(lines[..|lines| - 1], initial, expected, prices);
      Picks(lines[..|lines| - 1], initial, expected, prices) +
      [!Stopped(before) && Last(lines).Some? && Steps(Last(lines).value, before.observed)]
  }

  lemma {:induction false} StandingOfPrefix(lines: seq<Option<Update>>, picks: seq<bool>, initial: Usage, m: nat, n: nat)
    requires n <= m <= |lines| == |picks|
    ensures Standing(lines, picks, initial, n) == Standing(lines[..m], picks[..m], initial, n)
  {
    if n > 0 {
      StandingOfPrefix(lines, picks, initial, m, n - 1);
    }
  }

  lemma ExplainedInPrefix(lines: seq<Option<Update>>, picks: seq<bool>, initial: Usage, expected: Usage, m: nat, i: nat)
    requires i < m <= |lines| == |picks|
    ensures Explained(lines[..m], picks[..m], initial, expected, i) <==> Explained(lines, picks, initial, expected, i)
  {
    StandingOfPrefix(lines, picks, initial, m, i);
  }

  lemma TakenIsExplained(w: Walk, lines: seq<Option<Update>>, picks: seq<bool>, initial: Usage, expected: Usage, prices: ModelPrice, n: nat)
    requires n < |lines| == |picks| && Follows(w, lines, picks, initial, expected, n)
    requires picks[n] <==> !Stopped(w) && lines[n].Some? && Steps(lines[n].value, w.observed)
    requires !Take(w, lines[n], expected, prices).invalid
    ensures Explained(lines, picks, initial, expected, n)
  {
    if lines[n].Some? {
      OneRequestSteps(lines[n].value, w.observed);
    }
  }

  /** A walk that met no invalid request is explained by the lines it took. */
  lemma {:induction false} WalkedIsExplained(lines: seq<Option<Update>>, initial: Usage, expected: Usage, prices: ModelPrice)
    requires !Walked(lines, initial, expected, prices).invalid
    ensures Explains(lines, Picks(lines, initial, expected, prices), initial, expected)
  {
    if lines != [] {
      var n, picks := |lines| - 1, Picks(lines, initial, expected, prices);
      var front := lines[..n];
      var w := Walked(front, initial, expected, prices);
      assert Walked(lines, initial, expected, prices) == Take(w, lines[n], expected, prices);
      WalkedIsExplained(front, initial, expected, prices);
      assert picks[..n] == Picks(front, initial, expected, prices) && front[..n] == front;
      ExplainedIsWalked(front, picks[..n], initial, expected, prices, n);
      FollowsInPrefix(w, lines, picks, initial, expected, n);
      TakenIsExplained(w, lines, picks, initial, expected, prices, n);
      forall i | 0 <= i < |lines| ensures Explained(lines, picks, initial, expected, i) {
        if i < n {
          ExplainedInPrefix(lines, picks, initial, expected, n, i);
        }
      }
    }
  }

  lemma FollowsInPrefix(w: Walk, lines: seq<Option<Update>>, picks: seq<bool>, initial: Usage, expected: Usage, n: nat)
    requires n <= |lines| == |picks| && Follows(w, lines[..n], picks[..n], initial, expected, n)
    ensures Follows(w, lines, picks, initial, expected, n)
  {
    StandingOfPrefix(lines, picks, initial, n, n);
    DroppedOfPrefix(lines, picks, initial, expected, n, n);
    assert picks[..n][..n] == picks[..n];
  }

  lemma {:induction false} DroppedOfPrefix(lines: seq<Option<Update>>, picks: seq<bool>, initial: Usage, expected: Usage, m: nat, n: nat)
    requires n <= m <= |lines| == |picks|
    ensures Dropped(lines, picks, initial, expected, n) == Dropped(lines[..m], picks[..m], initial, expected, n)
  {
    if n > 0 {
      DroppedOfPrefix(lines, picks, initial, expected, m, n - 1);
      StandingOfPrefix(lines, picks, initial, m, n - 1);
    }
  }

  /**
   A price is returned exactly when some marking of the lines explains them all and
   leads to the expected usage; the price is of that many requests and tells how
   many updates were dropped. Otherwise there is none, or an error if one was insisted on.
   */
  lemma PricedExactly(lines: seq<Option<Update>>, initial: Usage, expected: Usage, strict: bool, prices: ModelPrice)
    ensures var priced := Settle(Walked(lines, initial, expected, prices), expected, strict);
      && (priced.Price? <==>
           exists picks :: Explains(lines, picks, initial, expected) && Standing(lines, picks, initial, |lines|) == expected)
      && (!priced.Price? ==> (priced == if strict then Refused else Unavailable))
    ensures forall picks :: Explains(lines, picks, initial, expected) && Standing(lines, picks, initial, |lines|) == expected ==>
      var cost := Settle(Walked(lines, initial, expected, prices), expected, strict).cost;
      cost.requests == Marked(picks) && cost.replayed == Dropped(lines, picks, initial, expected, |lines|)
  {
    assert lines[..|lines|] == lines;
    forall picks | Explains(lines, picks, initial, expected)
      ensures var w := Walked(lines, initial, expected, prices);
        && !w.invalid && w.observed == Standing(lines, picks, initial, |lines|)
        && w.cost.requests == Marked(picks) && w.cost.replayed == Dropped(lines, picks, initial, expected, |lines|)
    {
      ExplainedIsWalked(lines, picks, initial, expected, prices, |lines|);
      assert picks[..|lines|] == picks;
    }
    if !Walked(lines, initial, expected, prices).invalid {
      WalkedIsExplained(lines, initial, expected, prices);
    }
  }

  // ----- rejected lines do not matter -----

  /** The lines a mask keeps. */
  function Kept(lines: seq<Option<Update>>, mask: seq<bool>): seq<Option<Update>>
    requires |mask| == |lines|
  {
    if lines == [] then []
    else Kept(lines[..|lines| - 1], mask[..|lines| - 1]) + (if Last(mask) then [Last(lines)] else [])
  }

  /** Whether the walk takes no request from line `i`, nor is stopped by it. */
  predicate Rejected(lines: seq<Option<Update>>, i: nat, initial: Usage, expected: Usage, prices: ModelPrice)
    requires i < |lines|
  {
    var before := Walked(lines[..i], initial, expected, prices);
    lines[i].None? || Stopped(before) || !Steps(lines[i].value, before.observed)
  }

  predicate ErasesRejected(lines: seq<Option<Update>>, mask: seq<bool>, initial: Usage, expected: Usage, prices: ModelPrice)
    requires |mask| == |lines|
  {
    forall i | 0 <= i < |lines| :: !mask[i] ==> Rejected(lines, i, initial, expected, prices)
  }

  /** Two walks that agree on everything but the number of dropped lines. */
  predicate SameWalk(a: Walk, b: Walk) {
    a == b.(cost := b.cost.(replayed := a.cost.replayed))
  }

  /** Erasing any set of rejected lines leaves the observed usage, the price and its verdict unchanged. */
  lemma {:induction false} ErasingRejected(
    lines: seq<Option<Update>>, mask: seq<bool>, initial: Usage, expected: Usage, prices: ModelPrice)
    requires |mask| == |lines| && ErasesRejected(lines, mask, initial, expected, prices)
    ensures SameWalk(Walked(Kept(lines, mask), initial, expected, prices), Walked(lines, initial, expected, prices))
  {
    if lines != [] {
      var front, shorter := lines[..|lines| - 1], mask[..|lines| - 1];
      forall i | 0 <= i < |front| ensures !shorter[i] ==> Rejected(front, i, initial, expected, prices) {
        assert front[..i] == lines[..i];
        assert !mask[i] ==> Rejected(lines, i, initial, expected, prices);
      }
      ErasingRejected(front, shorter, initial, expected, prices);
      var kept := Kept(front, shorter);
      if Last(mask) {
        assert (kept + [Last(lines)])[..|kept|] == kept;
      } else {
        assert Rejected(lines, |lines| - 1, initial, expected, prices);
        assert kept + [] == kept;
      }
    }
  }

  /** Nothing after the expected usage is priced. */
  lemma {:induction false} NothingAfterExpected(
    lines: seq<Option<Update>>, more: seq<Option<Update>>, initial: Usage, expected: Usage, prices: ModelPrice)
    requires Walked(lines, initial, expected, prices).observed == expected
    ensures Walked(lines + more, initial, expected, prices) == Walked(lines, initial, expected, prices)
    decreases |more|
  {
    AcceptedAddUp(lines, initial, expected, prices);
    if more == [] {
      assert lines + more == lines;
    } else {
      assert (lines + more)[..|lines + more| - 1] == lines + more[..|more| - 1];
      NothingAfterExpected(lines, more[..|more| - 1], initial, expected, prices);
    }
  }
}
