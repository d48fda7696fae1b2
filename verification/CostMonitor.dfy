/** The background cost monitor and its cache of decisions. */
module CostMonitor {
  import opened Kube
  import opened Text
  import opened Cost

  datatype CostBudget = CostBudget(costPerToken: string, maxMonthlyCost: string, downgradeModel: string)

  datatype CostIntelligence = CostIntelligence(mode: string, suspendOnExhaust: bool, spotFallback: bool)

  /** A pod's annotations; the token count is one of them. */
  type Annotations = map<string, string>

  const TOKENS_ANNOTATION := "agentk.io/tokens-used"

  /** An Agent as a pass finds it: `pods` is None when listing its pods fails. */
  datatype Agent = Agent(
    key: Key,
    budget: Option<CostBudget>,
    intelligence: Option<CostIntelligence>,
    tokensUsed: int,
    uptime: real,
    pods: Option<seq<Annotations>>)

  /** Go's wrap-around int64. */
  function Wrap64(n: int): int {
    (n + 0x8000_0000_0000_0000) % 0x1_0000_0000_0000_0000 - 0x8000_0000_0000_0000
  }

  /** The int64 that differs by a multiple of 2^64. */
  lemma Wrap64Is(n: int)
    ensures -0x8000_0000_0000_0000 <= Wrap64(n) <= 0x7FFF_FFFF_FFFF_FFFF
    ensures (Wrap64(n) - n) % 0x1_0000_0000_0000_0000 == 0
  {
  }

  function PodTokens(annotations: Annotations): int {
    if TOKENS_ANNOTATION in annotations then
      var tokens := ParseInt64(annotations[TOKENS_ANNOTATION]);
      if tokens.Some? then tokens.value else 0
    else 0
  }

  function SumTokens(pods: seq<Annotations>): int {
    if pods == [] then 0 else SumTokens(pods[..|pods| - 1]) + PodTokens(pods[|pods| - 1])
  }

  /** A pod counts if it reports a number. */
  lemma SumTokensIs(pods: seq<Annotations>, pod: Annotations)
    ensures SumTokens([]) == 0
    ensures SumTokens(pods + [pod]) ==
            SumTokens(pods) +
            if "agentk.io/tokens-used" in pod && ParseInt64(pod["agentk.io/tokens-used"]).Some?
            then ParseInt64(pod["agentk.io/tokens-used"]).value else 0
  {
    assert (pods + [pod])[..|pods|] == pods;
  }

  /** The sum over all pods that report a count, as an int64. */
  method ReadTokensFromPods(pods: Option<seq<Annotations>>) returns (total: int)
    ensures total == if pods.None? then 0 else Wrap64(SumTokens(pods.value))
  {
    total := 0;
    if pods.None? {
      return;
    }
    for i := 0 to |pods.value|
      invariant total == Wrap64(SumTokens(pods.value[..i]))
    {
      assert pods.value[..i + 1][..i] == pods.value[..i];
      if TOKENS_ANNOTATION in pods.value[i] {
        var tokens := ParseInt64(pods.value[i][TOKENS_ANNOTATION]);
        if tokens.Some? {
          WrapSum(SumTokens(pods.value[..i]), tokens.value);
          total := Wrap64(total + tokens.value);
        }
      }
    }
    assert pods.value[..|pods.value|] == pods.value;
  }

  lemma WrapSum(a: int, b: int)
    ensures Wrap64(Wrap64(a) + b) == Wrap64(a + b)
  {
    var m := 0x1_0000_0000_0000_0000;
    var q := (a + 0x8000_0000_0000_0000) / m;
    assert Wrap64(a) == a - q * m;
    ModShift(a + b + 0x8000_0000_0000_0000, q);
  }

  lemma {:induction false} ModShift(x: int, q: int)
    ensures (x - q * 0x1_0000_0000_0000_0000) % 0x1_0000_0000_0000_0000 == x % 0x1_0000_0000_0000_0000
  {
  }

  /** The tokens a pass counts: those of the status, unless there are none. */
  function TokensOf(a: Agent): int {
    if a.tokensUsed != 0 || a.pods.None? then a.tokensUsed else Wrap64(SumTokens(a.pods.value))
  }

  /******* Amounts beyond the range of a float64 *******/

  /** 2^1024 - 2^970: from here on a number is rounded to an infinity. */
  const FLOAT_LIMIT := 179769313486231580793728971405303415079934132710037826936173778980444968292764750946649017977587207096330286416692887910946555547851940402630657488671505820681908902000708383676273854845817711531764475730270069855571366959622842914819860834936475292719074168444365510704342711559699508093042880177904174497792.0

  predicate InRange(x: real) {
    -FLOAT_LIMIT < x < FLOAT_LIMIT
  }

  datatype Amount = Finite(value: real) | Infinite(negative: bool)

  /** strconv.ParseFloat with its error ignored: zero for a malformed text, but an
      infinity for a number out of range. */
  function ParsedAmount(s: string): Amount {
    var x := ParseFloat(s);
    if x.None? then Finite(0.0) else if InRange(x.value) then Finite(x.value) else Infinite(x.value <= -FLOAT_LIMIT)
  }

  /** ParseCostString with its error ignored: zero in either case. */
  function CostAmount(s: string): real {
    var x := ParseCostString(s);
    if x.Some? && InRange(x.value) then x.value else 0.0
  }

  lemma AmountsAre(s: string)
    ensures var x := ParseFloat(s);
            && (x.None? ==> ParsedAmount(s) == Finite(0.0) && CostAmount(s) == 0.0)
            && (x.Some? && -FLOAT_LIMIT < x.value < FLOAT_LIMIT ==>
                  ParsedAmount(s) == Finite(x.value) && CostAmount(s) == if x.value >= 0.0 then x.value else 0.0)
            && (x.Some? && x.value >= FLOAT_LIMIT ==> ParsedAmount(s) == Infinite(false) && CostAmount(s) == 0.0)
            && (x.Some? && x.value <= -FLOAT_LIMIT ==> ParsedAmount(s) == Infinite(true) && CostAmount(s) == 0.0)
  {
  }

  /** EvaluateRealTimeCost when amounts may be infinite.  An infinite budget is never
      exceeded, and a negative one is none; an infinite price gives an infinite cost,
      or none at all when nothing is used, and "%.2f" prints these as texts. */
  function EvaluateAmounts(tokens: int, uptime: real, price: Amount, maxCost: Amount, downgradeModel: string,
                           mode: string, suspendOnExhaust: bool, spotFallback: bool): CostDecision {
    var budget := if maxCost.Finite? then maxCost.value else 0.0;
    if price.Finite? then
      EvaluateRealTimeCost(tokens, uptime, price.value, budget, downgradeModel, mode, suspendOnExhaust, spotFallback)
    else
      var used := MonthlyTokens(tokens, uptime) > 0.0;
      var over := used && !price.negative && budget * Threshold(mode) > 0.0;
      var action := if !over then ACTION_NONE else if downgradeModel != "" then ACTION_DOWNGRADED else ACTION_PAUSED;
      var suspend := suspendOnExhaust && action == ACTION_PAUSED;
      CostDecision(if !used then "NaN" else if price.negative then "-Inf" else "+Inf",
                   if suspend then ACTION_SUSPENDED else action, suspend,
                   if spotFallback then SPOT_ANNOTATIONS else map[], if over then downgradeModel else "")
  }

  /** What a pass decides for an agent with a budget. */
  function Decision(a: Agent): CostDecision
    requires a.budget.Some?
  {
    var b := a.budget.value;
    var i := if a.intelligence.Some? then a.intelligence.value else CostIntelligence("", false, false);
    EvaluateAmounts(TokensOf(a), a.uptime, ParsedAmount(b.costPerToken), ParsedAmount(b.maxMonthlyCost),
                    b.downgradeModel, if i.mode != "" then i.mode else "auto", i.suspendOnExhaust, i.spotFallback)
  }

  /** Status tokens come first and pods second; without cost intelligence there is
      neither suspension nor spot scheduling, and the mode is "auto". */
  lemma DecisionIs(a: Agent)
    requires a.budget.Some? && ParsedAmount(a.budget.value.costPerToken).Finite? && ParsedAmount(a.budget.value.maxMonthlyCost).Finite?
    ensures var b := a.budget.value;
            var tokens := if a.tokensUsed == 0 && a.pods.Some? then Wrap64(SumTokens(a.pods.value)) else a.tokensUsed;
            var price, maxCost := ParsedAmount(b.costPerToken).value, ParsedAmount(b.maxMonthlyCost).value;
            match a.intelligence
            case None =>
              Decision(a) == EvaluateRealTimeCost(tokens, a.uptime, price, maxCost, b.downgradeModel, "auto", false, false)
            case Some(i) =>
              Decision(a) == EvaluateRealTimeCost(tokens, a.uptime, price, maxCost, b.downgradeModel, i.mode,
                                                  i.suspendOnExhaust, i.spotFallback)
  {
  }

  /** An infinite price: whatever is used costs too much, unless there is no budget.
      A negative one costs less than any budget. */
  lemma InfinitePriceIs(tokens: int, uptime: real, negative: bool, maxCost: Amount, model: string, mode: string,
                        suspend: bool, spot: bool)
    ensures var d := EvaluateAmounts(tokens, uptime, Infinite(negative), maxCost, model, mode, suspend, spot);
            var used := tokens > 0 && uptime > 0.0;
            var over := used && !negative && maxCost.Finite? && maxCost.value > 0.0;
            && d.cost == (if !used then "NaN" else if negative then "-Inf" else "+Inf")
            && (d.action == "none" <==> !over)
            && (d.action == "downgraded" <==> over && model != "")
            && (d.action == "suspended" <==> over && model == "" && suspend)
            && (d.shouldSuspend <==> d.action == "suspended")
            && d.downgradeModel == (if over then model else "")
            && d.spotAnnotations == EvaluateRealTimeCost(tokens, uptime, 0.0, 0.0, model, mode, suspend, spot).spotAnnotations
  {
    UsedIff(tokens, uptime);
  }

  lemma UsedIff(tokens: int, uptime: real)
    ensures MonthlyTokens(tokens, uptime) > 0.0 <==> tokens > 0 && uptime > 0.0
  {
    if tokens > 0 && uptime > 0.0 {
      QuotientPositive(tokens as real, uptime);
    }
  }

  /** The body of the loop over the listed agents. */
  method Decide(a: Agent) returns (decision: CostDecision)
    requires a.budget.Some?
    ensures decision == Decision(a)
  {
    var tokensUsed := a.tokensUsed;
    if tokensUsed == 0 {
      tokensUsed := ReadTokensFromPods(a.pods);
    }
    var costPerToken := ParsedAmount(a.budget.value.costPerToken);
    var maxMonthlyCost := ParsedAmount(a.budget.value.maxMonthlyCost);
    var mode, suspendOnExhaust, spotFallback := "auto", false, false;
    if a.intelligence.Some? {
      if a.intelligence.value.mode != "" {
        mode := a.intelligence.value.mode;
      }
      suspendOnExhaust := a.intelligence.value.suspendOnExhaust;
      spotFallback := a.intelligence.value.spotFallback;
    }
    decision := EvaluateAmounts(tokensUsed, a.uptime, costPerToken, maxMonthlyCost,
                                a.budget.value.downgradeModel, mode, suspendOnExhaust, spotFallback);
  }

  /** The cache after a pass over a list of agents. */
  function AfterAgents(cache: map<Key, CostDecision>, agents: seq<Agent>): map<Key, CostDecision> {
    if agents == [] then cache
    else
      var before, last := AfterAgents(cache, agents[..|agents| - 1]), agents[|agents| - 1];
      if last.budget.Some? then before[last.key := Decision(last)] else before
  }

  /** A pass whose List call fails changes nothing. */
  function AfterPasses(passes: seq<Option<seq<Agent>>>): map<Key, CostDecision> {
    if passes == [] then map[]
    else
      var before, last := AfterPasses(passes[..|passes| - 1]), passes[|passes| - 1];
      if last.Some? then AfterAgents(before, last.value) else before
  }

  class Monitor {
    var cache: map<Key, CostDecision>
    /** The passes so far. */
    ghost var passes: seq<Option<seq<Agent>>>

    ghost predicate Valid()
      reads this
    {
      cache == AfterPasses(passes)
    }

    constructor ()
      ensures Valid() && passes == []
    {
      cache := map[];
      passes := [];
    }

    /** The decision of the latest pass that listed the agent with a budget. */
    method GetDecision(key: Key) returns (d: Option<CostDecision>)
      requires Valid()
      ensures match Latest(passes, key)
              case Some(a) => a.budget.Some? && d == Some(Decision(a))
              case None => d == None
    {
      CacheHoldsLatest(passes, key);
      d := if key in cache then Some(cache[key]) else None;
    }

    /** What a reconcile acts on: the monitor's decision, or else its own. */
    method DecisionFor(a: Agent) returns (d: CostDecision)
      requires Valid() && a.budget.Some? && a.intelligence.Some?
      ensures match Latest(passes, a.key)
              case Some(listed) => listed.budget.Some? && d == Decision(listed)
              case None => d == InlineDecision(a)
    {
      var cached := GetDecision(a.key);
      d := if cached.Some? then cached.value else InlineDecision(a);
    }

    method Evaluate(list: Option<seq<Agent>>)
      requires Valid()
      modifies this
      ensures Valid() && passes == old(passes) + [list]
    {
      passes := passes + [list];
      assert passes[..|passes| - 1] == old(passes);
      if list.None? {
        return;
      }
      var agents := list.value;
      for n := 0 to |agents|
        invariant cache == AfterAgents(old(cache), agents[..n])
        invariant passes == old(passes) + [list]
      {
        assert agents[..n + 1][..n] == agents[..n];
        var a := agents[n];
        if a.budget.None? {
          continue;
        }
        var decision := Decide(a);
        cache := cache[a.key := decision];
      }
      assert agents[..|agents|] == agents;
    }
  }

  /******* What the cache holds *******/

  /** The last entry for `key` with a budget in a list. */
  ghost function LatestIn(agents: seq<Agent>, key: Key): Option<Agent> {
    if agents == [] then None
    else
      var last := agents[|agents| - 1];
      if last.key == key && last.budget.Some? then Some(last) else LatestIn(agents[..|agents| - 1], key)
  }

  /** The listing of `key` in the latest successful pass that listed it with a
      budget. */
  ghost function Latest(passes: seq<Option<seq<Agent>>>, key: Key): Option<Agent> {
    if passes == [] then None
    else
      var last := passes[|passes| - 1];
      if last.Some? && LatestIn(last.value, key).Some? then LatestIn(last.value, key)
      else Latest(passes[..|passes| - 1], key)
  }

  ghost predicate HasDecisionOf(cache: map<Key, CostDecision>, key: Key, a: Agent) {
    key in cache && a.key == key && a.budget.Some? && cache[key] == Decision(a)
  }

  lemma {:induction false} PassEntry(cache: map<Key, CostDecision>, agents: seq<Agent>, key: Key)
    ensures var after := AfterAgents(cache, agents);
            match LatestIn(agents, key)
            case Some(a) => HasDecisionOf(after, key, a)
            case None => (key in after <==> key in cache) && (key in cache ==> after[key] == cache[key])
  {
    if agents != [] {
      PassEntry(cache, agents[..|agents| - 1], key);
    }
  }

  /** After any passes, failed ones included, there is an entry exactly for the
      agents that some pass listed with a budget, and it is the decision of the
      latest such listing. */
  lemma {:induction false} CacheHoldsLatest(passes: seq<Option<seq<Agent>>>, key: Key)
    ensures match Latest(passes, key)
            case Some(a) => HasDecisionOf(AfterPasses(passes), key, a)
            case None => key !in AfterPasses(passes)
  {
    if passes != [] {
      var init, last := passes[..|passes| - 1], passes[|passes| - 1];
      CacheHoldsLatest(init, key);
      if last.Some? {
        PassEntry(AfterPasses(init), last.value, key);
      }
    }
  }

  /******* The reconciler's own computation *******/

  /** What Reconcile computes when the cache has no entry. */
  function InlineDecision(a: Agent): CostDecision
    requires a.budget.Some? && a.intelligence.Some?
  {
    var b, i := a.budget.value, a.intelligence.value;
    EvaluateRealTimeCost(a.tokensUsed, a.uptime, CostAmount(b.costPerToken), CostAmount(b.maxMonthlyCost),
                         b.downgradeModel, i.mode, i.suspendOnExhaust, i.spotFallback)
  }

  /** Amounts that the resource definition admits are read alike. */
  lemma AmountsAgree(s: string)
    requires IsAmount(s)
    ensures ParseCostString(s) == ParseFloat(s)
  {
    var dot := DotIndex(s);
    assert AllDigits(s[..dot]) && s[..dot][0] == s[0];
    if dot < |s| {
      FractionNonNegative(s[dot + 1..]);
    }
  }

  lemma FractionNonNegative(s: string)
    requires AllDigits(s)
    ensures Fraction(s) >= 0.0
  {
  }

  /** For an admissible text both read the same number, unless it is out of range. */
  lemma AmountsDiffer(s: string)
    requires IsAmount(s)
    ensures ParsedAmount(s) == if ParsedAmount(s).Finite? then Finite(CostAmount(s)) else Infinite(false)
    ensures ParsedAmount(s).Infinite? ==> CostAmount(s) == 0.0
  {
    AmountsAgree(s);
  }

  lemma FreeCost(tokens: int, uptime: real)
    ensures PrintCents(Cents(tokens, uptime, 0.0)) == "0.00"
  {
    assert Projection(tokens, uptime, 0.0) == 0.0;
    assert DecNat(0) == "0";
  }

  /** The monitor and the fallback agree exactly if the price is in the range of a
      float64; the mode may be empty, and the budget may be out of range. */
  lemma MonitorAgreesIff(a: Agent)
    requires a.budget.Some? && a.intelligence.Some?
    requires IsAmount(a.budget.value.costPerToken) && IsAmount(a.budget.value.maxMonthlyCost)
    requires TokensOf(a) == a.tokensUsed
    ensures Decision(a) == InlineDecision(a) <==> ParsedAmount(a.budget.value.costPerToken).Finite?
  {
    AmountsDiffer(a.budget.value.costPerToken);
    AmountsDiffer(a.budget.value.maxMonthlyCost);
    if ParsedAmount(a.budget.value.costPerToken).Infinite? {
      FreeCost(a.tokensUsed, a.uptime);
      assert Decision(a).cost != "0.00" == InlineDecision(a).cost;
    }
  }
}
