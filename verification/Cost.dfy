/** Cost projection, its printed form, and the decisions derived from it.
    Amounts are exact reals. */
module Cost {
  import opened Kube
  import opened Text

  /******* Projection *******/

  const SECONDS_IN_MONTH := 2592000.0

  function MonthlyTokens(tokens: int, uptime: real): real {
    if uptime <= 0.0 || tokens <= 0 then 0.0 else tokens as real / uptime * SECONDS_IN_MONTH
  }

  /** The exact projected cost. */
  function Projection(tokens: int, uptime: real, price: real): real {
    MonthlyTokens(tokens, uptime) * price
  }

  /** The tokens of 30 days at the rate so far, times the price; nothing without
      tokens or uptime. */
  lemma ProjectionIs(tokens: int, uptime: real, price: real)
    ensures tokens > 0 && uptime > 0.0 ==>
              Projection(tokens, uptime, price) * uptime == tokens as real * (30.0 * 24.0 * 3600.0) * price
    ensures tokens <= 0 || uptime <= 0.0 ==> Projection(tokens, uptime, price) == 0.0
  {
    if tokens > 0 && uptime > 0.0 {
      var rate := tokens as real / uptime;
      assert rate * uptime == tokens as real;
      assert Projection(tokens, uptime, price) == rate * 2592000.0 * price;
      Regroup(rate, uptime, 2592000.0, price);
    }
  }

  lemma Regroup(a: real, b: real, c: real, d: real)
    ensures a * c * d * b == a * b * c * d
  {
    assert a * c * d * b == a * c * (d * b) == a * (c * (b * d));
    assert c * (b * d) == b * c * d;
  }

  /** math.Round: to the nearest integer, halves away from zero. */
  function Round(x: real): int {
    if x >= 0.0 then (x + 0.5).Floor else -((-x + 0.5).Floor)
  }

  /** The reported cost, in cents. */
  function Cents(tokens: int, uptime: real, price: real): int {
    Round(Projection(tokens, uptime, price) * 100.0)
  }

  function Dollars(cents: int): real {
    cents as real / 100.0
  }

  /** `%.2f` of an amount of whole cents. */
  function PrintCents(cents: int): string {
    var n := if cents < 0 then -cents else cents;
    (if cents < 0 then "-" else "") + DecNat(n / 100) + "." + [DigitChar(n % 100 / 10), DigitChar(n % 10)]
  }

  const ACTION_NONE := "none"
  const ACTION_DOWNGRADED := "downgraded"
  const ACTION_PAUSED := "paused"
  const ACTION_SUSPENDED := "suspended"

  datatype CostPrediction = CostPrediction(cost: string, action: string, downgradeModel: string)

  function PredictCost(tokens: int, uptime: real, price: real, budget: real, downgradeModel: string): CostPrediction {
    var cents := Cents(tokens, uptime, price);
    var over := Dollars(cents) > budget && budget > 0.0;
    CostPrediction(
      PrintCents(cents),
      if !over then ACTION_NONE else if downgradeModel != "" then ACTION_DOWNGRADED else ACTION_PAUSED,
      if over then downgradeModel else "")
  }

  /** An action is due if the reported cost exceeds a positive budget; it is the
      downgrade if there is a model for it, which is then reported. */
  lemma PredictCostIs(tokens: int, uptime: real, price: real, budget: real, model: string)
    ensures var p := PredictCost(tokens, uptime, price, budget, model);
            var over := budget > 0.0 && Cents(tokens, uptime, price) as real > 100.0 * budget;
            && (p.action == "none" <==> !over)
            && (p.action == "downgraded" <==> over && model != "")
            && (p.action == "paused" <==> over && model == "")
            && p.downgradeModel == (if over then model else "")
            && p.cost == PrintCents(Cents(tokens, uptime, price))
  {
  }

  /******* Parsing *******/

  /** The first decimal point, or the length. */
  function DotIndex(s: string): (i: nat)
    ensures i <= |s|
  {
    if s == "" || s[0] == '.' then 0 else 1 + DotIndex(s[1..])
  }

  /** What digits after the decimal point denote. */
  function Fraction(s: string): real
    requires AllDigits(s)
  {
    NatValue(s) as real / Pow10(|s|) as real
  }

  /** strconv.ParseFloat on digits with a decimal point; there must be a digit before
      or after it. */
  function ParseUnsigned(s: string): Option<real> {
    var dot := DotIndex(s);
    var whole, frac := s[..dot], if dot < |s| then s[dot + 1..] else "";
    if whole + frac == "" || !AllDigits(whole) || !AllDigits(frac) then None
    else Some(NatValue(whole) as real + Fraction(frac))
  }

  function ParseFloat(s: string): Option<real> {
    if s != "" && s[0] == '-' then
      var value := ParseUnsigned(s[1..]);
      if value.Some? then Some(-value.value) else None
    else ParseUnsigned(s)
  }

  function ParseCostString(s: string): Option<real> {
    var value := ParseFloat(s);
    if s == "" || value.None? || value.value < 0.0 then None else value
  }

  /** The pattern that the resource definition demands of amounts: digits, and
      possibly a point and more digits. */
  predicate IsAmount(s: string) {
    var dot := DotIndex(s);
    && dot > 0 && AllDigits(s[..dot])
    && (dot < |s| ==> dot + 1 < |s| && AllDigits(s[dot + 1..]))
  }

  lemma {:induction false} DotIndexAfterDigits(a: string, b: string)
    requires AllDigits(a)
    ensures DotIndex(a + "." + b) == |a|
  {
    var s := a + "." + b;
    if a != "" {
      assert s[0] == a[0] && s[1..] == a[1..] + "." + b;
      assert AllDigits(a[1..]) by {
        assert forall i :: 0 <= i < |a[1..]| ==> a[1..][i] == a[i + 1];
      }
      DotIndexAfterDigits(a[1..], b);
    }
  }

  lemma {:induction false} DotIndexOfDigits(a: string)
    requires AllDigits(a)
    ensures DotIndex(a) == |a|
  {
    if a != "" {
      assert AllDigits(a[1..]) by {
        assert forall i :: 0 <= i < |a[1..]| ==> a[1..][i] == a[i + 1];
      }
      DotIndexOfDigits(a[1..]);
    }
  }

  lemma TwoDigits(n: nat)
    ensures var s := [DigitChar(n % 100 / 10), DigitChar(n % 10)];
            AllDigits(s) && Fraction(s) == (n % 100) as real / 100.0
  {
    var s := [DigitChar(n % 100 / 10), DigitChar(n % 10)];
    assert AllDigits(s);
    assert s[..1] == [s[0]] && s[..1][..0] == [];
    assert NatValue(s[..1]) == DigitValue(s[0]);
    assert n % 100 == n % 100 / 10 * 10 + n % 10;
    assert NatValue(s) == n % 100;
    assert Pow10(2) == 100;
  }

  /** The digits after the point count tenths, hundredths and so on. */
  lemma FractionIs(s: string)
    requires AllDigits(s)
    ensures Fraction(s) * Pow10(|s|) as real == NatValue(s) as real
  {
  }

  /** Amounts are digits with an optional fraction; a sign makes a number negative,
      and a cost must not be. */
  lemma ParseWhole(whole: string)
    requires AllDigits(whole) && whole != ""
    ensures ParseUnsigned(whole) == ParseFloat(whole) == ParseCostString(whole) == Some(NatValue(whole) as real)
    ensures IsAmount(whole)
  {
    ParseUnsignedWhole(whole);
    assert IsDigit(whole[0]);
    ParseNonNegative(whole, NatValue(whole) as real);
  }

  lemma FractionOfNothing()
    ensures Fraction("") == 0.0
  {
    assert NatValue("") == 0 && Pow10(0) == 1;
  }

  lemma ParseUnsignedWhole(whole: string)
    requires AllDigits(whole) && whole != ""
    ensures ParseUnsigned(whole) == Some(NatValue(whole) as real) && IsAmount(whole)
  {
    DotIndexOfDigits(whole);
    FractionOfNothing();
    assert whole[..|whole|] == whole && whole + "" == whole;
  }

  /** A point may stand first or last, but not alone; the resource definition wants
      digits on both sides. */
  lemma ParsePoint(whole: string, frac: string)
    requires AllDigits(whole) && AllDigits(frac)
    ensures ParseUnsigned(whole + "." + frac) ==
            if whole + frac == "" then None else Some(NatValue(whole) as real + Fraction(frac))
    ensures IsAmount(whole + "." + frac) <==> whole != "" && frac != ""
  {
    var s := whole + "." + frac;
    DotIndexAfterDigits(whole, frac);
    assert s[..|whole|] == whole && s[|whole| + 1..] == frac;
  }

  /** Nothing else is read: the text before the first point and the text after it
      must consist of digits. */
  lemma ParseRejects(s: string, i: nat)
    requires i < |s| && !IsDigit(s[i]) && (s[i] != '.' || exists j :: 0 <= j < i && s[j] == '.')
    ensures ParseUnsigned(s) == None && !IsAmount(s)
  {
    DotIndexIs(s);
    var dot := DotIndex(s);
    assert i < dot ==> s[..dot][i] == s[i];
    assert i > dot ==> s[dot + 1..][i - dot - 1] == s[i];
  }

  lemma {:induction false} DotIndexIs(s: string)
    ensures forall j :: 0 <= j < DotIndex(s) ==> s[j] != '.'
    ensures DotIndex(s) < |s| ==> s[DotIndex(s)] == '.'
  {
    if s != "" && s[0] != '.' {
      DotIndexIs(s[1..]);
      assert forall j :: 1 <= j < |s| ==> s[1..][j - 1] == s[j];
    }
  }

  lemma ParseNegative(s: string)
    ensures ParseFloat("-" + s) == (if ParseUnsigned(s).Some? then Some(-ParseUnsigned(s).value) else None)
    ensures ParseCostString("-" + s).Some? <==> ParseUnsigned(s).Some? && ParseUnsigned(s).value <= 0.0
    ensures ParseFloat("") == ParseCostString("") == None
  {
    assert ("-" + s)[1..] == s;
  }

  lemma PrintedSign(cents: int)
    requires cents > 0
    ensures PrintCents(-cents) == "-" + PrintCents(cents)
  {
  }

  lemma PrintedShape(cents: nat)
    ensures var s := PrintCents(cents);
            |s| >= 4 && s[|s| - 3] == '.' && IsDigit(s[|s| - 2]) && IsDigit(s[|s| - 1]) && s[..|s| - 3] == Dec(cents / 100)
  {
    DecNatRoundTrip(cents / 100);
  }

  /** What is printed parses back to exactly the rounded cost. */
  lemma PrintedCostParses(cents: nat)
    ensures ParseCostString(PrintCents(cents)) == Some(Dollars(cents))
  {
    var whole, frac := DecNat(cents / 100), [DigitChar(cents % 100 / 10), DigitChar(cents % 10)];
    DecNatRoundTrip(cents / 100);
    TwoDigits(cents);
    ParsePoint(whole, frac);
    CentsSplit(cents);
    assert PrintCents(cents) == whole + "." + frac;
    ParseNonNegative(PrintCents(cents), Dollars(cents));
  }

  lemma ParseNonNegative(s: string, amount: real)
    requires s != "" && IsDigit(s[0]) && ParseUnsigned(s) == Some(amount) && amount >= 0.0
    ensures ParseCostString(s) == Some(amount)
  {
  }

  lemma CentsSplit(cents: nat)
    ensures (cents / 100) as real + (cents % 100) as real / 100.0 == Dollars(cents)
  {
    assert cents == cents / 100 * 100 + cents % 100;
  }

  /******* Rounding *******/

  lemma RoundIsNear(x: real)
    ensures x - 0.5 <= Round(x) as real <= x + 0.5
    ensures x >= 0.0 ==> Round(x) >= 0
  {
  }

  /** Halves are rounded away from zero. */
  lemma RoundIs(n: nat, f: real)
    requires 0.0 <= f < 1.0
    ensures Round(n as real + f) == if f < 0.5 then n else n + 1
    ensures Round(-(n as real + f)) == -Round(n as real + f)
  {
  }

  lemma RoundMonotone(x: real, y: real)
    requires x <= y
    ensures Round(x) <= Round(y)
  {
    RoundIsNear(x);
    RoundIsNear(y);
  }

  lemma ProjectionNonNegative(tokens: int, uptime: real, price: real)
    requires price >= 0.0
    ensures Projection(tokens, uptime, price) >= 0.0
  {
    if uptime > 0.0 && tokens > 0 {
      QuotientPositive(tokens as real, uptime);
      ProductOrder(0.0, MonthlyTokens(tokens, uptime), price);
    }
  }

  lemma QuotientPositive(x: real, y: real)
    requires x > 0.0 && y > 0.0
    ensures x / y > 0.0
  {
  }

  lemma ProductOrder(x: real, y: real, z: real)
    requires x <= y && z >= 0.0
    ensures x * z <= y * z
  {
  }

  /** The reported cost is within half a cent of the exact projection, and its
      text is that of a non-negative amount that parses back to it. */
  lemma ReportedCostIsFaithful(tokens: int, uptime: real, price: real, budget: real, downgradeModel: string)
    requires price >= 0.0
    ensures var cost := Dollars(Cents(tokens, uptime, price));
            var exact := Projection(tokens, uptime, price);
            && exact - 0.005 <= cost <= exact + 0.005
            && ParseCostString(PredictCost(tokens, uptime, price, budget, downgradeModel).cost) == Some(cost)
  {
    ProjectionNonNegative(tokens, uptime, price);
    RoundIsNear(Projection(tokens, uptime, price) * 100.0);
    PrintedCostParses(Cents(tokens, uptime, price));
  }

  /** Under a positive budget no action means that the exact projection is at
      most half a cent over it, and any action that it is at most half a cent
      under it. */
  lemma NoActionMeansWithinBudget(tokens: int, uptime: real, price: real, budget: real, downgradeModel: string)
    requires budget > 0.0 && price >= 0.0
    ensures var exact := Projection(tokens, uptime, price);
            if PredictCost(tokens, uptime, price, budget, downgradeModel).action == ACTION_NONE
            then exact <= budget + 0.005 else exact >= budget - 0.005
  {
    ReportedCostIsFaithful(tokens, uptime, price, budget, downgradeModel);
  }

  /******* Monotonicity *******/

  lemma QuotientOrder(x: real, y: real, u: real, w: real)
    requires 0.0 <= x <= y && 0.0 < u <= w
    ensures x / w <= y / u
  {
    var q, r, p := y / u, y / w, x / w;
    assert q * u == y && r * w == y && p * w == x;
    ProductOrder(u, w, q);
    CancelOrder(p, q, w);
  }

  lemma CancelOrder(x: real, y: real, z: real)
    requires x * z <= y * z && z > 0.0
    ensures x <= y
  {
    assert x > y ==> (x - y) * z > 0.0;
  }

  lemma ProjectionMonotone(tokens: int, tokens': int, uptime: real, uptime': real, price: real, price': real)
    requires tokens <= tokens' && 0.0 <= price <= price'
    requires uptime == uptime' || 0.0 < uptime' <= uptime
    ensures Projection(tokens, uptime, price) <= Projection(tokens', uptime', price')
  {
    ProjectionNonNegative(tokens', uptime', price');
    if uptime > 0.0 && tokens > 0 {
      QuotientOrder(tokens as real, tokens' as real, uptime', uptime);
      var m, m' := MonthlyTokens(tokens, uptime), MonthlyTokens(tokens', uptime');
      ProductOrder(tokens as real / uptime, tokens' as real / uptime', SECONDS_IN_MONTH);
      QuotientPositive(tokens' as real, uptime');
      ProductOrder(m, m', price);
      ProductOrder(price, price', m');
    }
  }

  /** More tokens, a higher price or, with the same tokens, a shorter uptime never
      lower the reported cost. */
  lemma CostMonotone(tokens: int, tokens': int, uptime: real, uptime': real, price: real, price': real)
    requires tokens <= tokens' && 0.0 <= price <= price'
    requires uptime == uptime' || 0.0 < uptime' <= uptime
    ensures Cents(tokens, uptime, price) <= Cents(tokens', uptime', price')
  {
    ProjectionMonotone(tokens, tokens', uptime, uptime', price, price');
    RoundMonotone(Projection(tokens, uptime, price) * 100.0, Projection(tokens', uptime', price') * 100.0);
  }

  /******* Optimization modes *******/

  datatype CostDecision = CostDecision(
    cost: string,
    action: string,
    shouldSuspend: bool,
    spotAnnotations: map<string, string>,
    downgradeModel: string)

  const SPOT_ANNOTATIONS := map[
    "cloud.google.com/gke-spot" := "true",
    "karpenter.sh/capacity-type" := "spot",
    "agentk.io/spot-instance" := "true"]

  function Threshold(mode: string): real {
    if mode == "conservative" then 0.90 else if mode == "aggressive" then 0.70 else 0.80
  }

  function EvaluateRealTimeCost(tokens: int, uptime: real, price: real, maxCost: real, downgradeModel: string,
                                mode: string, suspendOnExhaust: bool, spotFallback: bool): CostDecision {
    var prediction := PredictCost(tokens, uptime, price, maxCost * Threshold(mode), downgradeModel);
    var suspend := suspendOnExhaust && prediction.action == ACTION_PAUSED;
    CostDecision(prediction.cost, if suspend then ACTION_SUSPENDED else prediction.action, suspend,
                 if spotFallback then SPOT_ANNOTATIONS else map[], prediction.downgradeModel)
  }

  /** Some action is due exactly if the reported cost exceeds the mode's share of a
      positive budget. */
  lemma ActsIff(tokens: int, uptime: real, price: real, maxCost: real, model: string, mode: string, suspend: bool, spot: bool)
    ensures EvaluateRealTimeCost(tokens, uptime, price, maxCost, model, mode, suspend, spot).action != ACTION_NONE <==>
            0.0 < maxCost * Threshold(mode) < Dollars(Cents(tokens, uptime, price))
  {
  }

  /** The shares of the budget, and what the decision reports besides. */
  lemma DecisionIs(tokens: int, uptime: real, price: real, maxCost: real, model: string, mode: string, suspend: bool, spot: bool)
    ensures var d := EvaluateRealTimeCost(tokens, uptime, price, maxCost, model, mode, suspend, spot);
            var share := if mode == "conservative" then 0.90 else if mode == "aggressive" then 0.70 else 0.80;
            var over := 0.0 < maxCost * share < Cents(tokens, uptime, price) as real / 100.0;
            && (d.action == "none" <==> !over)
            && (d.action == "downgraded" <==> over && model != "")
            && (d.action == "suspended" <==> over && model == "" && suspend)
            && (d.action == "paused" <==> over && model == "" && !suspend)
            && (d.shouldSuspend <==> d.action == "suspended")
            && d.downgradeModel == (if over then model else "")
            && d.cost == PrintCents(Cents(tokens, uptime, price))
            && d.spotAnnotations.Keys ==
               (if spot then {"cloud.google.com/gke-spot", "karpenter.sh/capacity-type", "agentk.io/spot-instance"} else {})
            && (spot ==> d.spotAnnotations["cloud.google.com/gke-spot"] == "true" &&
                         d.spotAnnotations["karpenter.sh/capacity-type"] == "spot" &&
                         d.spotAnnotations["agentk.io/spot-instance"] == "true")
  {
  }

  lemma StricterBudget(maxCost: real, t: real, t': real)
    requires 0.0 < t' <= t && maxCost * t > 0.0
    ensures 0.0 < maxCost * t' <= maxCost * t
  {
    if maxCost <= 0.0 {
      ProductOrder(maxCost, 0.0, t);
      assert false;
    }
    ProductOrder(t', t, maxCost);
    assert maxCost * t' > 0.0;
  }

  /** Acting never stops being due when tokens or the price grow, the uptime
      shrinks, or the mode becomes stricter: conservative, then auto (or any other
      text), then aggressive. */
  lemma DecisionsMonotone(tokens: int, tokens': int, uptime: real, uptime': real, price: real, price': real, maxCost: real,
                          model: string, model': string, mode: string, mode': string, suspend: bool, suspend': bool,
                          spot: bool, spot': bool)
    requires tokens <= tokens' && 0.0 <= price <= price'
    requires uptime == uptime' || 0.0 < uptime' <= uptime
    requires Threshold(mode') <= Threshold(mode)
    requires EvaluateRealTimeCost(tokens, uptime, price, maxCost, model, mode, suspend, spot).action != ACTION_NONE
    ensures EvaluateRealTimeCost(tokens', uptime', price', maxCost, model', mode', suspend', spot').action != ACTION_NONE
  {
    ActsIff(tokens, uptime, price, maxCost, model, mode, suspend, spot);
    CostMonotone(tokens, tokens', uptime, uptime', price, price');
    StricterBudget(maxCost, Threshold(mode), Threshold(mode'));
    ActsIff(tokens', uptime', price', maxCost, model', mode', suspend', spot');
  }

  /** For every input, even a negative price, the modes act in this order. */
  lemma ModesAreOrdered(tokens: int, uptime: real, price: real, maxCost: real, model: string, suspend: bool, spot: bool)
    ensures EvaluateRealTimeCost(tokens, uptime, price, maxCost, model, "conservative", suspend, spot).action != ACTION_NONE ==>
            EvaluateRealTimeCost(tokens, uptime, price, maxCost, model, "auto", suspend, spot).action != ACTION_NONE
    ensures EvaluateRealTimeCost(tokens, uptime, price, maxCost, model, "auto", suspend, spot).action != ACTION_NONE ==>
            EvaluateRealTimeCost(tokens, uptime, price, maxCost, model, "aggressive", suspend, spot).action != ACTION_NONE
  {
    if maxCost > 0.0 {
      assert maxCost * 0.70 <= maxCost * 0.80 <= maxCost * 0.90;
    } else {
      assert maxCost * 0.70 <= 0.0 && maxCost * 0.80 <= 0.0 && maxCost * 0.90 <= 0.0;
    }
  }

  /** Suspension is decided exactly when the effective budget is exceeded, no
      downgrade model is given and suspension is enabled. */
  lemma SuspendedIff(tokens: int, uptime: real, price: real, maxCost: real, model: string, mode: string, suspend: bool, spot: bool)
    ensures var d := EvaluateRealTimeCost(tokens, uptime, price, maxCost, model, mode, suspend, spot);
            && (d.action == ACTION_SUSPENDED <==>
                suspend && model == "" && 0.0 < maxCost * Threshold(mode) < Dollars(Cents(tokens, uptime, price)))
            && (d.shouldSuspend <==> d.action == ACTION_SUSPENDED)
            && (d.downgradeModel != "" <==> d.action == ACTION_DOWNGRADED)
  {
  }

  /** The documentation speaks of a fully exhausted budget; the code suspends at
      the mode's share of it. */
  lemma SuspendedBelowBudget()
    ensures Projection(85, SECONDS_IN_MONTH, 1.0) < 100.0
    ensures EvaluateRealTimeCost(85, SECONDS_IN_MONTH, 1.0, 100.0, "", "auto", true, false).action == ACTION_SUSPENDED
  {
    assert Projection(85, SECONDS_IN_MONTH, 1.0) == 85.0;
  }

  /** An empty mode means "auto", although the default of the resource is
      "conservative".  The two decide differently exactly if the reported cost
      lies between their shares of a positive budget. */
  lemma EmptyModeDiffersIff(tokens: int, uptime: real, price: real, maxCost: real, model: string, suspend: bool, spot: bool)
    ensures var empty := EvaluateRealTimeCost(tokens, uptime, price, maxCost, model, "", suspend, spot);
            && empty == EvaluateRealTimeCost(tokens, uptime, price, maxCost, model, "auto", suspend, spot)
            && (empty != EvaluateRealTimeCost(tokens, uptime, price, maxCost, model, "conservative", suspend, spot) <==>
                maxCost > 0.0 && maxCost * 0.80 < Dollars(Cents(tokens, uptime, price)) <= maxCost * 0.90)
  {
    assert maxCost > 0.0 ==> 0.0 < maxCost * 0.80 < maxCost * 0.90;
    assert maxCost <= 0.0 ==> maxCost * 0.80 <= 0.0 && maxCost * 0.90 <= 0.0;
  }

  lemma EmptyModeDiffers()
    ensures EvaluateRealTimeCost(85, SECONDS_IN_MONTH, 1.0, 100.0, "", "", false, false).action == ACTION_PAUSED
    ensures EvaluateRealTimeCost(85, SECONDS_IN_MONTH, 1.0, 100.0, "", "conservative", false, false).action == ACTION_NONE
  {
    assert Projection(85, SECONDS_IN_MONTH, 1.0) == 85.0;
  }
}
