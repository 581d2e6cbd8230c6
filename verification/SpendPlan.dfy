/**
 The static execution plan against the run it bounds.

 The plan multiplies pairs, calls and the per-call maximum, and a run starts only if no comparison's
 product exceeds its cap. The run then judges each pair with two threads that reserve and close money
 in a ledger of their own comparison, in any order, with any charge up to the reservation.
*/
module SpendPlan {
  import opened Options
  import opened SpendJournal
  import opened SpendLedger

  datatype Comparison = Comparison(id: string, repetitions: nat)

  datatype PlanItem = PlanItem(
    comparisonId: string,
    pairRuns: nat,
    agentCalls: nat,
    comparatorCalls: nat,
    agentExposure: Option<real>,
    comparatorExposure: real,
    combinedExposure: Option<real>,
    runCap: real)

  datatype Plan = Plan(
    items: seq<PlanItem>,
    pairRuns: nat,
    agentCalls: nat,
    comparatorCalls: nat,
    agentExposure: Option<real>,
    comparatorExposure: real,
    combinedExposure: Option<real>,
    totalCap: real)

  /** How the generator is billed: by subscription, per call, or in a way that is not supported. */
  datatype Billing = Subscription | Metered | Unsupported

  /** The price of an agent call: none under a subscription, 0 if a metered one has no maximum. */
  function AgentPrice(billing: Billing, maximum: Option<real>): Option<real>
  {
    if billing.Subscription? then None else if maximum.None? then Some(0.0) else maximum
  }

  function Plus(a: Option<real>, b: real): Option<real> { if a.None? then None else Some(a.value + b) }

  function PlanOne(c: Comparison, caseCount: nat, judged: bool, perCall: real, cap: real, agentPerCall: Option<real>)
    : PlanItem
  {
    var runs := c.repetitions * caseCount;
    var comparatorCalls := if judged then runs * 2 else 0;
    var agentExposure := if agentPerCall.None? then None else Some(Cost(runs * 2, agentPerCall.value));
    var comparatorExposure := Cost(comparatorCalls, perCall);
    PlanItem(c.id, runs, runs * 2, comparatorCalls, agentExposure, comparatorExposure,
             Plus(agentExposure, comparatorExposure), if judged then cap else 0.0)
  }

  /** `n` calls at `c` each, added one at a time: CostIsProduct is what the plan multiplies out. */
  function Cost(n: nat, c: real): real {
    if n == 0 then 0.0 else Cost(n - 1, c) + c
  }

  lemma {:induction false} CostIsProduct(n: nat, c: real)
    ensures Cost(n, c) == n as real * c
  {
    if n > 0 {
      CostIsProduct(n - 1, c);
      assert n as real * c == ((n - 1) as real + 1.0) * c == (n - 1) as real * c + c;
    }
  }

  lemma {:induction false} CostSum(m: nat, n: nat, c: real)
    ensures Cost(m + n, c) == Cost(m, c) + Cost(n, c)
  {
    if n > 0 { CostSum(m, n - 1, c); }
  }

  lemma {:induction false} CostMonotone(m: nat, n: nat, c: real)
    requires m <= n && c >= 0.0
    ensures Cost(m, c) <= Cost(n, c)
  {
    if m < n { CostMonotone(m, n - 1, c); }
  }

  function Times(n: nat, c: real): real { n as real * c }

  /** The numbers of one comparison, as products: its pairs, their calls, and the calls at their price. */
  predicate ItemIs(item: PlanItem, c: Comparison, caseCount: nat, judged: bool, perCall: real, cap: real,
                   billing: Billing, agentMaximum: Option<real>)
  {
    && item.comparisonId == c.id && item.pairRuns == c.repetitions * caseCount
    && item.agentCalls == 2 * item.pairRuns
    && (judged ==> item.comparatorCalls == 2 * item.pairRuns && item.runCap == cap)
    && (!judged ==> item.comparatorCalls == 0 && item.runCap == 0.0)
    && item.comparatorExposure == Times(item.comparatorCalls, perCall)
    && (billing.Subscription? ==> item.agentExposure.None? && item.combinedExposure.None?)
    && (billing.Metered? && agentMaximum.None? ==>
          item.agentExposure == Some(0.0) && item.combinedExposure == Some(item.comparatorExposure))
    && (billing.Metered? && agentMaximum.Some? ==>
          && item.agentExposure == Some(Times(item.agentCalls, agentMaximum.value))
          && item.combinedExposure == Some(item.agentExposure.value + item.comparatorExposure))
  }

  /** Two agent calls a pair, at most two comparator calls, and exposures that are calls at their price. */
  predicate Priced(item: PlanItem, judged: bool, perCall: real, agentPerCall: Option<real>)
  {
    && item.agentCalls == 2 * item.pairRuns
    && item.comparatorCalls == (if judged then 2 * item.pairRuns else 0)
    && item.comparatorExposure == Cost(item.comparatorCalls, perCall)
    && (agentPerCall.Some? ==> item.agentExposure == Some(Cost(item.agentCalls, agentPerCall.value)))
    && item.combinedExposure == Plus(item.agentExposure, item.comparatorExposure)
  }

  lemma PlanOneIsPriced(c: Comparison, caseCount: nat, judged: bool, perCall: real, cap: real,
          agentPerCall: Option<real>)
    ensures Priced(PlanOne(c, caseCount, judged, perCall, cap, agentPerCall), judged, perCall, agentPerCall)
  {
  }

  lemma CostIsTimes(n: nat, c: real)
    ensures Cost(n, c) == Times(n, c)
  {
    CostIsProduct(n, c);
  }

  lemma NothingTimes(n: nat)
    ensures Times(n, 0.0) == 0.0
  {
  }

  lemma PlanOneFields(c: Comparison, caseCount: nat, judged: bool, perCall: real, cap: real, agentPerCall: Option<real>)
    ensures var item := PlanOne(c, caseCount, judged, perCall, cap, agentPerCall);
            && item.comparisonId == c.id && item.pairRuns == c.repetitions * caseCount
            && item.runCap == (if judged then cap else 0.0) && (agentPerCall.None? <==> item.agentExposure.None?)
  {
  }

  lemma PlanOneIsItem(c: Comparison, caseCount: nat, judged: bool, perCall: real, cap: real, billing: Billing,
          agentMaximum: Option<real>)
    requires !billing.Unsupported? && (billing.Subscription? ==> agentMaximum.None?)
    ensures ItemIs(PlanOne(c, caseCount, judged, perCall, cap, AgentPrice(billing, agentMaximum)), c, caseCount, judged,
                   perCall, cap, billing, agentMaximum)
  {
    hide PlanOne, Cost, Times;
    var agentPerCall := AgentPrice(billing, agentMaximum);
    var item := PlanOne(c, caseCount, judged, perCall, cap, agentPerCall);
    PlanOneFields(c, caseCount, judged, perCall, cap, agentPerCall);
    PlanOneIsPriced(c, caseCount, judged, perCall, cap, agentPerCall);
    CostIsTimes(item.comparatorCalls, perCall);
    if agentPerCall.Some? { CostIsTimes(item.agentCalls, agentPerCall.value); }
    NothingTimes(item.agentCalls);
  }

  lemma NoCost(c: real)
    ensures Cost(0, c) == 0.0
  {
  }

  function SumRuns(items: seq<PlanItem>): nat {
    if items == [] then 0 else SumRuns(items[..|items| - 1]) + items[|items| - 1].pairRuns
  }

  function SumExposure(items: seq<PlanItem>): real {
    if items == [] then 0.0 else SumExposure(items[..|items| - 1]) + items[|items| - 1].comparatorExposure
  }

  function SumCombined(items: seq<PlanItem>): real
    requires forall i :: 0 <= i < |items| ==> items[i].combinedExposure.Some?
  {
    if items == [] then 0.0 else SumCombined(items[..|items| - 1]) + items[|items| - 1].combinedExposure.value
  }

  /** The sums over the comparisons. */
  method AddUp(items: seq<PlanItem>, judged: bool, perCall: real, agentPerCall: Option<real>)
    returns (runs: nat, agentCalls: nat, comparatorCalls: nat, agentExposure: real, comparatorExposure: real)
    requires forall i :: 0 <= i < |items| ==> Priced(items[i], judged, perCall, agentPerCall)
    requires agentPerCall.Some? ==> forall i :: 0 <= i < |items| ==> items[i].combinedExposure.Some?
    ensures runs == SumRuns(items) && agentCalls == 2 * runs && comparatorCalls == if judged then 2 * runs else 0
    ensures comparatorExposure == Cost(comparatorCalls, perCall)
    ensures agentPerCall.Some? ==> agentExposure == Cost(agentCalls, agentPerCall.value)
    ensures comparatorExposure == SumExposure(items)
    ensures agentPerCall.Some? ==> agentExposure + comparatorExposure == SumCombined(items)
  {
    hide Cost;
    runs, agentCalls, comparatorCalls, agentExposure, comparatorExposure := 0, 0, 0, 0.0, 0.0;
    NoCost(perCall);
    if agentPerCall.Some? { NoCost(agentPerCall.value); }
    for i := 0 to |items|
      invariant runs == SumRuns(items[..i]) && agentCalls == 2 * runs
      invariant comparatorCalls == if judged then 2 * runs else 0
      invariant comparatorExposure == Cost(comparatorCalls, perCall)
      invariant agentPerCall.Some? ==> agentExposure == Cost(agentCalls, agentPerCall.value)
      invariant comparatorExposure == SumExposure(items[..i])
      invariant agentPerCall.Some? ==> agentExposure + comparatorExposure == SumCombined(items[..i])
    {
      var item := items[i];
      assert Priced(item, judged, perCall, agentPerCall);
      assert items[..i + 1][..i] == items[..i];
      CostSum(comparatorCalls, item.comparatorCalls, perCall);
      if agentPerCall.Some? {
        CostSum(agentCalls, item.agentCalls, agentPerCall.value);
        agentExposure := agentExposure + item.agentExposure.value;
      }
      runs := runs + item.pairRuns;
      agentCalls := agentCalls + item.agentCalls;
      comparatorCalls := comparatorCalls + item.comparatorCalls;
      comparatorExposure := comparatorExposure + item.comparatorExposure;
    }
    assert items[..|items|] == items;
  }

  /**
   `_execution_plan` for a judged run (`judged`) or a run without comparator runtime. It refuses an
   unsupported billing basis and a subscription with a price. The totals are what the per-comparison
   numbers add up to: two agent calls a pair, at most two comparator calls, exposures that are calls at
   their price, and combined exposures that are the sum of both.
  */
  method ExecutionPlan(comparisons: seq<Comparison>, caseCount: nat, judged: bool, perCall: real, cap: real,
                       billing: Billing, agentMaximum: Option<real>) returns (plan: Option<Plan>)
    ensures plan.None? <==> billing.Unsupported? || (billing.Subscription? && agentMaximum.Some?)
    ensures plan.Some? ==> |plan.value.items| == |comparisons|
    ensures plan.Some? ==> forall i :: 0 <= i < |comparisons| ==>
              plan.value.items[i]
              == PlanOne(comparisons[i], caseCount, judged, perCall, cap, AgentPrice(billing, agentMaximum))
    ensures plan.Some? ==> forall i :: 0 <= i < |comparisons| ==>
              ItemIs(plan.value.items[i], comparisons[i], caseCount, judged, perCall, cap, billing, agentMaximum)
    ensures plan.Some? ==> plan.value.pairRuns == SumRuns(plan.value.items)
    ensures plan.Some? ==> plan.value.agentCalls == 2 * plan.value.pairRuns
    ensures plan.Some? ==> plan.value.comparatorCalls == if judged then 2 * plan.value.pairRuns else 0
    ensures plan.Some? ==> plan.value.comparatorExposure == plan.value.comparatorCalls as real * perCall
    ensures plan.Some? ==> (billing.Subscription? <==> plan.value.agentExposure.None?)
    ensures plan.Some? && billing.Metered? ==>
              var price := if agentMaximum.None? then 0.0 else agentMaximum.value;
              plan.value.agentExposure.value == plan.value.agentCalls as real * price
    ensures plan.Some? ==> plan.value.combinedExposure == Plus(plan.value.agentExposure, plan.value.comparatorExposure)
    ensures plan.Some? ==> plan.value.comparatorExposure == SumExposure(plan.value.items)
    ensures plan.Some? && billing.Metered? ==>
              && (forall i :: 0 <= i < |comparisons| ==> plan.value.items[i].combinedExposure.Some?)
              && plan.value.combinedExposure == Some(SumCombined(plan.value.items))
    ensures plan.Some? ==> plan.value.totalCap == |comparisons| as real * if judged then cap else 0.0
  {
    hide PlanOne, Cost, SumRuns, Priced, SumExposure, SumCombined, ItemIs;
    if billing.Unsupported? || (billing.Subscription? && agentMaximum.Some?) { return None; }
    var agentPerCall := AgentPrice(billing, agentMaximum);
    var items: seq<PlanItem> := [];
    for i := 0 to |comparisons|
      invariant |items| == i
      invariant forall k :: 0 <= k < i ==>
                  items[k] == PlanOne(comparisons[k], caseCount, judged, perCall, cap, agentPerCall)
      invariant forall k :: 0 <= k < i ==> Priced(items[k], judged, perCall, agentPerCall)
      invariant forall k :: 0 <= k < i ==>
                  ItemIs(items[k], comparisons[k], caseCount, judged, perCall, cap, billing, agentMaximum)
    {
      PlanOneIsItem(comparisons[i], caseCount, judged, perCall, cap, billing, agentMaximum);
      PlanOneIsPriced(comparisons[i], caseCount, judged, perCall, cap, agentPerCall);
      items := items + [PlanOne(comparisons[i], caseCount, judged, perCall, cap, agentPerCall)];
    }
    AllCombined(items, judged, perCall, agentPerCall);
    var runs, agentCalls, comparatorCalls, agent, comparator := AddUp(items, judged, perCall, agentPerCall);
    CostIsProduct(comparatorCalls, perCall);
    if agentPerCall.Some? { CostIsProduct(agentCalls, agentPerCall.value); }
    var agentExposure := if agentPerCall.None? then None else Some(agent);
    plan := Some(Plan(items, runs, agentCalls, comparatorCalls, agentExposure, comparator,
                      Plus(agentExposure, comparator), |comparisons| as real * if judged then cap else 0.0));
  }

  lemma AllCombined(items: seq<PlanItem>, judged: bool, perCall: real, agentPerCall: Option<real>)
    requires forall i :: 0 <= i < |items| ==> Priced(items[i], judged, perCall, agentPerCall)
    ensures agentPerCall.Some? ==> forall i :: 0 <= i < |items| ==> items[i].combinedExposure.Some?
  {
  }

  /** A plan that no comparison's cap refuses stays within the total cap that it declares. */
  lemma {:induction false} WithinCapsWithinTotal(items: seq<PlanItem>, cap: real)
    requires forall i :: 0 <= i < |items| ==> items[i].comparatorExposure <= items[i].runCap == cap
    ensures SumExposure(items) <= |items| as real * cap
    decreases |items|
  {
    if items != [] {
      var n := |items| - 1;
      WithinCapsWithinTotal(items[..n], cap);
      assert n as real * cap + cap == |items| as real * cap by { assert |items| as real == n as real + 1.0; }
    }
  }

  /** `_assert_comparator_plan_within_release_cap`: the ids over their cap, in order; none is acceptance. */
  method OverCap(plan: Plan) returns (over: seq<string>)
    ensures over == [] <==>
              forall i :: 0 <= i < |plan.items| ==> plan.items[i].comparatorExposure <= plan.items[i].runCap
    ensures forall id :: id in over <==>
              exists i :: 0 <= i < |plan.items| && plan.items[i].comparisonId == id
                          && plan.items[i].comparatorExposure > plan.items[i].runCap
  {
    over := [];
    for i := 0 to |plan.items|
      invariant over == [] <==> forall k :: 0 <= k < i ==> plan.items[k].comparatorExposure <= plan.items[k].runCap
      invariant forall id :: id in over <==>
                  exists k :: 0 <= k < i && plan.items[k].comparisonId == id
                              && plan.items[k].comparatorExposure > plan.items[k].runCap
    {
      if plan.items[i].comparatorExposure > plan.items[i].runCap {
        over := over + [plan.items[i].comparisonId];
      }
    }
  }

  // ---------- The run of one comparison ----------

  datatype Thread = Ready | Holding(id: AttemptId) | Done

  /** `refused` records a reservation that the ledger turned down. */
  datatype Judging = Judging(ledger: Ledger, started: nat, ab: Thread, ba: Thread, refused: bool)

  datatype Action =
    | StartPair
    | Skip(first: bool)
    | Reserving(first: bool, id: AttemptId, binding: Binding)
    | Reconciling(first: bool, actual: real)
    | Forfeiting(first: bool)

  function Begin(cap: real): Judging {
    Judging(New(cap), 0, Done, Done, false)
  }

  function Get(j: Judging, first: bool): Thread { if first then j.ab else j.ba }

  function Set(j: Judging, first: bool, t: Thread): Judging {
    if first then j.(ab := t) else j.(ba := t)
  }

  /**
   One step of either comparator thread, or the start of the next pair once both have ended. A step
   that is not enabled changes nothing; ids come from `uuid4`, so a reservation's id is new.
  */
  ghost function Step(pairRuns: nat, perCall: real, j: Judging, a: Action): Judging
  {
    match a
    case StartPair =>
      if j.started < pairRuns && j.ab == Done && j.ba == Done
      then j.(started := j.started + 1, ab := Ready, ba := Ready) else j
    case Skip(first) => if Get(j, first) == Ready then Set(j, first, Done) else j
    case Reserving(first, id, binding) =>
      var op := OpReserve(id, binding, perCall);
      if Get(j, first) != Ready || Replay(j.ledger.journal).None? || !Fresh(j.ledger, op) then j
      else if !Admits(j.ledger, op) then Set(j, first, Done).(refused := true)
      else Set(j, first, Holding(id)).(ledger := Apply(j.ledger, op))
    case Reconciling(first, actual) =>
      var t := Get(j, first);
      if !t.Holding? || !Admits(j.ledger, OpReconcile(t.id, actual)) then j
      else Set(j, first, Done).(ledger := Apply(j.ledger, OpReconcile(t.id, actual)))
    case Forfeiting(first) =>
      var t := Get(j, first);
      if !t.Holding? then j
      else Set(j, first, Done).(ledger := Apply(j.ledger, OpForfeit(t.id)))
  }

  ghost function Run(pairRuns: nat, perCall: real, j: Judging, actions: seq<Action>): Judging
    decreases |actions|
  {
    if actions == [] then j
    else Run(pairRuns, perCall, Step(pairRuns, perCall, j, actions[0]), actions[1..])
  }

  function ReadyCount(j: Judging): nat {
    (if j.ab == Ready then 1 else 0) + (if j.ba == Ready then 1 else 0)
  }

  /** The call slots used so far bound what is spent and reserved. */
  ghost predicate Bounded(pairRuns: nat, perCall: real, cap: real, j: Judging)
  {
    && Valid(j.ledger) && j.ledger.maximum == cap
    && j.started <= pairRuns
    && ReadyCount(j) <= 2 * j.started
    && j.ledger.spent + j.ledger.reserved <= Cost(2 * j.started - ReadyCount(j), perCall)
    && (j.ab.Holding? ==> j.ab.id in j.ledger.open && j.ledger.open[j.ab.id].reserved == perCall)
    && (j.ba.Holding? ==> j.ba.id in j.ledger.open && j.ledger.open[j.ba.id].reserved == perCall)
    && (j.ab.Holding? && j.ba.Holding? ==> j.ab.id != j.ba.id)
    && !j.refused
  }

  lemma ReserveEffect(l: Ledger, id: AttemptId, binding: Binding, amount: real)
    requires Valid(l) && Fresh(l, OpReserve(id, binding, amount)) && Admits(l, OpReserve(id, binding, amount))
    ensures var next := Apply(l, OpReserve(id, binding, amount));
            && Valid(next) && next.maximum == l.maximum
            && next.spent + next.reserved == l.spent + l.reserved + amount
            && id !in l.open && next.open == l.open[id := Attempt(amount, None, binding)]
  {
    ApplyKeepsValid(l, OpReserve(id, binding, amount));
  }

  lemma CloseEffect(l: Ledger, op: Operation)
    requires Valid(l) && (op.OpReconcile? || op.OpForfeit?) && Admits(l, op)
    ensures var next := Apply(l, op);
            && Valid(next) && next.maximum == l.maximum
            && next.spent + next.reserved <= l.spent + l.reserved
            && next.open == l.open - {op.id}
  {
    ApplyKeepsValid(l, op);
  }

  lemma WaitingKeepsBounded(pairRuns: nat, perCall: real, cap: real, j: Judging, a: Action)
    requires Bounded(pairRuns, perCall, cap, j) && perCall > 0.0 && (a.StartPair? || a.Skip?)
    ensures Bounded(pairRuns, perCall, cap, Step(pairRuns, perCall, j, a))
  {
    var next := Step(pairRuns, perCall, j, a);
    CostMonotone(2 * j.started - ReadyCount(j), 2 * next.started - ReadyCount(next), perCall);
    hide Valid, Cost;
  }

  lemma ReservingStepKeepsBounded(pairRuns: nat, perCall: real, cap: real, j: Judging, a: Action)
    requires Bounded(pairRuns, perCall, cap, j) && perCall > 0.0 && a.Reserving?
    requires Cost(2 * pairRuns, perCall) <= cap
    ensures Bounded(pairRuns, perCall, cap, Step(pairRuns, perCall, j, a))
  {
    if Get(j, a.first) == Ready && Fresh(j.ledger, OpReserve(a.id, a.binding, perCall)) {
      ReservingKeepsBounded(pairRuns, perCall, cap, j, a.first, a.id, a.binding);
    }
    hide Bounded, Admits, Apply, Cost;
  }

  lemma ClosingStepKeepsBounded(pairRuns: nat, perCall: real, cap: real, j: Judging, a: Action)
    requires Bounded(pairRuns, perCall, cap, j) && (a.Reconciling? || a.Forfeiting?)
    ensures Bounded(pairRuns, perCall, cap, Step(pairRuns, perCall, j, a))
  {
    var t := Get(j, a.first);
    if t.Holding? {
      var op := if a.Reconciling? then OpReconcile(t.id, a.actual) else OpForfeit(t.id);
      if Admits(j.ledger, op) { ClosingKeepsBounded(pairRuns, perCall, cap, j, a.first, op); }
      assert a.Forfeiting? ==> Admits(j.ledger, op);
    }
    hide Bounded, Admits, Apply, Cost;
  }

  lemma StepKeepsBounded(pairRuns: nat, perCall: real, cap: real, j: Judging, a: Action)
    requires Bounded(pairRuns, perCall, cap, j) && perCall > 0.0
    requires Cost(2 * pairRuns, perCall) <= cap
    ensures Bounded(pairRuns, perCall, cap, Step(pairRuns, perCall, j, a))
  {
    hide Bounded, Step;
    match a
    case StartPair => WaitingKeepsBounded(pairRuns, perCall, cap, j, a);
    case Skip(_) => WaitingKeepsBounded(pairRuns, perCall, cap, j, a);
    case Reserving(_, _, _) => ReservingStepKeepsBounded(pairRuns, perCall, cap, j, a);
    case Reconciling(_, _) => ClosingStepKeepsBounded(pairRuns, perCall, cap, j, a);
    case Forfeiting(_) => ClosingStepKeepsBounded(pairRuns, perCall, cap, j, a);
  }

  lemma ReservingKeepsBounded(pairRuns: nat, perCall: real, cap: real, j: Judging, first: bool, id: AttemptId,
          binding: Binding)
    requires Bounded(pairRuns, perCall, cap, j) && perCall > 0.0 && Get(j, first) == Ready
    requires Fresh(j.ledger, OpReserve(id, binding, perCall)) && Cost(2 * pairRuns, perCall) <= cap
    ensures Admits(j.ledger, OpReserve(id, binding, perCall))
    ensures Bounded(pairRuns, perCall, cap,
              Set(j, first, Holding(id)).(ledger := Apply(j.ledger, OpReserve(id, binding, perCall))))
  {
    CostMonotone(2 * j.started - ReadyCount(j) + 1, 2 * pairRuns, perCall);
    assert Admits(j.ledger, OpReserve(id, binding, perCall));
    ReserveEffect(j.ledger, id, binding, perCall);
    HoldingKeepsBounded(pairRuns, perCall, cap, j, first, id, binding,
                        Apply(j.ledger, OpReserve(id, binding, perCall)));
  }

  lemma HoldingKeepsBounded(pairRuns: nat, perCall: real, cap: real, j: Judging, first: bool, id: AttemptId,
                            binding: Binding, next: Ledger)
    requires Bounded(pairRuns, perCall, cap, j) && perCall > 0.0 && Get(j, first) == Ready
    requires Valid(next) && next.maximum == cap
    requires next.spent + next.reserved == j.ledger.spent + j.ledger.reserved + perCall
    requires id !in j.ledger.open && next.open == j.ledger.open[id := Attempt(perCall, None, binding)]
    ensures Bounded(pairRuns, perCall, cap, Set(j, first, Holding(id)).(ledger := next))
  {
  }

  lemma ClosingKeepsBounded(pairRuns: nat, perCall: real, cap: real, j: Judging, first: bool, op: Operation)
    requires Bounded(pairRuns, perCall, cap, j) && Get(j, first).Holding?
    requires (op.OpReconcile? || op.OpForfeit?) && op.id == Get(j, first).id && Admits(j.ledger, op)
    ensures Bounded(pairRuns, perCall, cap, Set(j, first, Done).(ledger := Apply(j.ledger, op)))
  {
    CloseEffect(j.ledger, op);
  }

  lemma {:induction false} RunKeepsBounded(pairRuns: nat, perCall: real, cap: real, j: Judging, actions: seq<Action>)
    requires Bounded(pairRuns, perCall, cap, j) && perCall > 0.0
    requires Cost(2 * pairRuns, perCall) <= cap
    ensures Bounded(pairRuns, perCall, cap, Run(pairRuns, perCall, j, actions))
    decreases |actions|
  {
    if actions != [] {
      StepKeepsBounded(pairRuns, perCall, cap, j, actions[0]);
      RunKeepsBounded(pairRuns, perCall, cap, Step(pairRuns, perCall, j, actions[0]), actions[1..]);
    }
  }

  // ---------- What a run spends ----------

  /** What a call that ends in this step costs: what it used, or its whole price when it is forfeited. */
  function Charged(perCall: real, j: Judging, a: Action): real
  {
    match a
    case Reconciling(first, actual) => if Get(j, first).Holding? && 0.0 <= actual <= perCall then actual else 0.0
    case Forfeiting(first) => if Get(j, first).Holding? then perCall else 0.0
    case _ => 0.0
  }

  ghost function TotalCharged(pairRuns: nat, perCall: real, j: Judging, actions: seq<Action>): real
    decreases |actions|
  {
    if actions == [] then 0.0
    else Charged(perCall, j, actions[0])
         + TotalCharged(pairRuns, perCall, Step(pairRuns, perCall, j, actions[0]), actions[1..])
  }

  /** The step brings the thread on: it starts, gives up, reserves for a new id, or ends the call it holds. */
  ghost predicate MovesOn(perCall: real, j: Judging, a: Action, next: Judging)
    requires Valid(j.ledger)
  {
    match a
    case StartPair => true
    case Skip(first) => Get(j, first) == Ready ==> next == Set(j, first, Done)
    case Reserving(first, id, binding) =>
      Get(j, first) == Ready && Fresh(j.ledger, OpReserve(id, binding, perCall)) ==> Get(next, first) == Holding(id)
    case Reconciling(first, actual) =>
      Get(j, first).Holding? && 0.0 <= actual <= perCall ==> Get(next, first) == Done
    case Forfeiting(first) => Get(j, first).Holding? ==> Get(next, first) == Done
  }

  lemma ReconcileSpends(l: Ledger, id: AttemptId, actual: real)
    requires Valid(l) && id in l.open && 0.0 <= actual <= l.open[id].reserved
    ensures Admits(l, OpReconcile(id, actual))
    ensures var next := Apply(l, OpReconcile(id, actual));
            next.spent == l.spent + actual && next.reserved == l.reserved - l.open[id].reserved
  {
  }

  lemma ReserveSpends(l: Ledger, id: AttemptId, binding: Binding, amount: real)
    requires Admits(l, OpReserve(id, binding, amount))
    ensures var next := Apply(l, OpReserve(id, binding, amount));
            next.spent == l.spent && next.reserved == l.reserved + amount
  {
  }

  lemma ForfeitSpends(l: Ledger, id: AttemptId)
    requires Valid(l) && id in l.open
    ensures Admits(l, OpForfeit(id))
    ensures var next := Apply(l, OpForfeit(id));
            next.spent == l.spent + l.open[id].reserved && next.reserved == l.reserved - l.open[id].reserved
  {
  }

  /** One price is held in reserve for each call that is going on. */
  ghost predicate Reserved(perCall: real, j: Judging)
  {
    j.ledger.reserved == if j.ab.Holding? && j.ba.Holding? then perCall + perCall
                         else if j.ab.Holding? || j.ba.Holding? then perCall else 0.0
  }

  lemma ReservingSpends(pairRuns: nat, perCall: real, cap: real, j: Judging, first: bool, id: AttemptId,
          binding: Binding)
    requires Bounded(pairRuns, perCall, cap, j) && perCall > 0.0 && Cost(2 * pairRuns, perCall) <= cap
    requires Reserved(perCall, j)
    ensures var a := Reserving(first, id, binding);
            var next := Step(pairRuns, perCall, j, a);
            next.ledger.spent == j.ledger.spent && Reserved(perCall, next) && MovesOn(perCall, j, a, next)
  {
    if Get(j, first) == Ready && Fresh(j.ledger, OpReserve(id, binding, perCall)) {
      ReservingKeepsBounded(pairRuns, perCall, cap, j, first, id, binding);
      ReserveSpends(j.ledger, id, binding, perCall);
    }
    hide Bounded, Fresh, Admits, Apply, Cost;
  }

  lemma ClosingSpends(pairRuns: nat, perCall: real, cap: real, j: Judging, a: Action)
    requires Bounded(pairRuns, perCall, cap, j) && perCall > 0.0 && (a.Reconciling? || a.Forfeiting?)
    requires Reserved(perCall, j)
    ensures var next := Step(pairRuns, perCall, j, a);
            && next.ledger.spent == j.ledger.spent + Charged(perCall, j, a) && Reserved(perCall, next)
            && MovesOn(perCall, j, a, next)
  {
    var t := Get(j, a.first);
    if t.Holding? {
      assert t.id in j.ledger.open && j.ledger.open[t.id].reserved == perCall;
      ForfeitSpends(j.ledger, t.id);
      if a.Reconciling? && 0.0 <= a.actual <= perCall { ReconcileSpends(j.ledger, t.id, a.actual); }
    }
    hide Bounded, Valid, Apply;
  }

  lemma StepSpends(pairRuns: nat, perCall: real, cap: real, j: Judging, a: Action)
    requires Bounded(pairRuns, perCall, cap, j) && perCall > 0.0 && Cost(2 * pairRuns, perCall) <= cap
    requires Reserved(perCall, j)
    ensures var next := Step(pairRuns, perCall, j, a);
            && next.ledger.spent == j.ledger.spent + Charged(perCall, j, a) && Reserved(perCall, next)
            && MovesOn(perCall, j, a, next)
  {
    match a
    case StartPair =>
    case Skip(first) =>
    case Reserving(first, id, binding) =>
      ReservingSpends(pairRuns, perCall, cap, j, first, id, binding);
    case Reconciling(first, actual) =>
      ClosingSpends(pairRuns, perCall, cap, j, a);
    case Forfeiting(first) =>
      ClosingSpends(pairRuns, perCall, cap, j, a);
  }

  /**
   Within the cap every interleaving spends exactly what its ended calls were charged, and holds exactly
   one price in reserve for each call that is going on.
  */
  lemma {:induction false} RunSpends(pairRuns: nat, perCall: real, cap: real, j: Judging, actions: seq<Action>)
    requires Bounded(pairRuns, perCall, cap, j) && perCall > 0.0 && Cost(2 * pairRuns, perCall) <= cap
    requires Reserved(perCall, j)
    ensures var last := Run(pairRuns, perCall, j, actions);
            && last.ledger.spent == j.ledger.spent + TotalCharged(pairRuns, perCall, j, actions)
            && Reserved(perCall, last)
    decreases |actions|
  {
    hide Bounded, Step, Charged, Cost, Reserved, MovesOn;
    if actions != [] {
      StepKeepsBounded(pairRuns, perCall, cap, j, actions[0]);
      StepSpends(pairRuns, perCall, cap, j, actions[0]);
      RunSpends(pairRuns, perCall, cap, Step(pairRuns, perCall, j, actions[0]), actions[1..]);
    }
  }

  // ---------- The plan check is exact ----------

  /** Judging `k` pairs and forfeiting every call: the most expensive run there is. */
  function Costliest(k: nat): seq<Action>
  {
    if k == 0 then [] else
      Costliest(k - 1) + CostliestPair(k)
  }

  lemma {:induction false} RunConcat(pairRuns: nat, perCall: real, j: Judging, xs: seq<Action>, ys: seq<Action>)
    ensures Run(pairRuns, perCall, j, xs + ys) == Run(pairRuns, perCall, Run(pairRuns, perCall, j, xs), ys)
    decreases |xs|
  {
    if xs == [] {
      assert xs + ys == ys;
    } else {
      assert (xs + ys)[1..] == xs[1..] + ys;
      RunConcat(pairRuns, perCall, Step(pairRuns, perCall, j, xs[0]), xs[1..], ys);
    }
  }

  /** A run between pairs that has spent `spent`, with all ids so far below `ids`. */
  ghost predicate Between(cap: real, j: Judging, pairs: nat, spent: real, ids: nat)
  {
    && Valid(j.ledger) && j.ledger.maximum == cap && j.ledger.open == map[]
    && j.ledger.reserved == 0.0 && j.ledger.spent == spent
    && j.started == pairs && j.ab == Done && j.ba == Done && !j.refused
    && forall id :: id in Replay(j.ledger.journal).value.Seen() ==> id < ids
  }

  /** One thread reserving and forfeiting. */
  ghost function ForfeitedCall(pairRuns: nat, perCall: real, j: Judging, first: bool, id: AttemptId): Judging
  {
    Step(pairRuns, perCall, Step(pairRuns, perCall, j, Reserving(first, id, Binding(0, 0))), Forfeiting(first))
  }

  /** The call is refused for lack of money, or it spends its full price. */
  lemma ForfeitedCallSpends(pairRuns: nat, perCall: real, j: Judging, first: bool, id: AttemptId)
    requires Valid(j.ledger) && perCall > 0.0 && Get(j, first) == Ready && j.ledger.open == map[]
    requires id !in Replay(j.ledger.journal).value.Seen()
    ensures var next := ForfeitedCall(pairRuns, perCall, j, first, id);
            if j.ledger.spent + j.ledger.reserved + perCall > j.ledger.maximum then next.refused else
            && Valid(next.ledger) && next.ledger.maximum == j.ledger.maximum && next.ledger.open == map[]
            && next.ledger.spent == j.ledger.spent + perCall && next.ledger.reserved == j.ledger.reserved
            && Replay(next.ledger.journal).value.Seen() == Replay(j.ledger.journal).value.Seen() + {id}
            && next == Set(j, first, Done).(ledger := next.ledger)
  {
    if j.ledger.spent + j.ledger.reserved + perCall <= j.ledger.maximum {
      ForfeitedBracket(j.ledger, id, perCall);
    }
  }

  lemma ForfeitedBracket(l: Ledger, id: AttemptId, perCall: real)
    requires Valid(l) && id !in Replay(l.journal).value.Seen() && perCall > 0.0 && l.open == map[]
    requires Admits(l, OpReserve(id, Binding(0, 0), perCall))
    ensures var held := Apply(l, OpReserve(id, Binding(0, 0), perCall));
            var next := Apply(held, OpForfeit(id));
            && Valid(next) && next == l.(spent := l.spent + perCall, journal := next.journal)
            && id in held.open
            && Replay(next.journal).value.Seen() == Replay(l.journal).value.Seen() + {id}
  {
    var held := Apply(l, OpReserve(id, Binding(0, 0), perCall));
    BracketEffect(l, id, Binding(0, 0), perCall, None);
    ReserveEffect(l, id, Binding(0, 0), perCall);
    CloseEffect(held, OpForfeit(id));
    ReplayAppend(l.journal, Reserve(id, Binding(0, 0), perCall));
    ReplayAppend(held.journal, Forfeit(id, Binding(0, 0), perCall));
  }

  lemma RefusedStays(pairRuns: nat, perCall: real, j: Judging, a: Action)
    requires j.refused
    ensures Step(pairRuns, perCall, j, a).refused
  {
  }

  lemma {:induction false} RefusedStaysAll(pairRuns: nat, perCall: real, j: Judging, actions: seq<Action>)
    requires j.refused
    ensures Run(pairRuns, perCall, j, actions).refused
    decreases |actions|
  {
    if actions != [] {
      RefusedStays(pairRuns, perCall, j, actions[0]);
      RefusedStaysAll(pairRuns, perCall, Step(pairRuns, perCall, j, actions[0]), actions[1..]);
    }
  }

  function CostliestPair(k: nat): seq<Action>
  {
    [StartPair, Reserving(true, 2 * k, Binding(0, 0)), Forfeiting(true),
     Reserving(false, 2 * k + 1, Binding(0, 0)), Forfeiting(false)]
  }

  lemma PairAsCalls(pairRuns: nat, perCall: real, j: Judging, k: nat)
    ensures Run(pairRuns, perCall, j, CostliestPair(k)) ==
      ForfeitedCall(pairRuns, perCall,
        ForfeitedCall(pairRuns, perCall, Step(pairRuns, perCall, j, StartPair), true, 2 * k), false, 2 * k + 1)
  {
    var a := CostliestPair(k);
    var j0 := Step(pairRuns, perCall, j, a[0]);
    var j1 := Step(pairRuns, perCall, j0, a[1]);
    var j2 := Step(pairRuns, perCall, j1, a[2]);
    var j3 := Step(pairRuns, perCall, j2, a[3]);
    assert a[1..][1..] == a[2..] && a[2..][1..] == a[3..] && a[3..][1..] == a[4..] && a[4..][1..] == [];
    assert Run(pairRuns, perCall, j, a) == Run(pairRuns, perCall, j0, a[1..]);
    assert Run(pairRuns, perCall, j0, a[1..]) == Run(pairRuns, perCall, j1, a[2..]);
    assert Run(pairRuns, perCall, j1, a[2..]) == Run(pairRuns, perCall, j2, a[3..]);
    assert Run(pairRuns, perCall, j2, a[3..]) == Run(pairRuns, perCall, j3, a[4..]);
    assert Run(pairRuns, perCall, j3, a[4..]) == Run(pairRuns, perCall, Step(pairRuns, perCall, j3, a[4]), []);
  }

  lemma {:induction false} CostliestSpends(pairRuns: nat, perCall: real, cap: real, k: nat)
    requires perCall > 0.0 && cap > 0.0 && k <= pairRuns
    ensures var j := Run(pairRuns, perCall, Begin(cap), Costliest(k));
            if Cost(2 * k, perCall) > cap then j.refused else Between(cap, j, k, Cost(2 * k, perCall), 2 * k + 2)
  {
    if k > 0 {
      CostliestSpends(pairRuns, perCall, cap, k - 1);
      var j := Run(pairRuns, perCall, Begin(cap), Costliest(k - 1));
      RunConcat(pairRuns, perCall, Begin(cap), Costliest(k - 1), CostliestPair(k));
      CostMonotone(2 * k - 2, 2 * k - 1, perCall);
      CostMonotone(2 * k - 1, 2 * k, perCall);
      if Cost(2 * k - 2, perCall) > cap {
        RefusedStaysAll(pairRuns, perCall, j, CostliestPair(k));
      } else {
        OneMorePair(pairRuns, perCall, cap, j, k);
      }
    }
  }

  lemma OneMorePair(pairRuns: nat, perCall: real, cap: real, j: Judging, k: nat)
    requires perCall > 0.0 && 0 < k <= pairRuns
    requires Between(cap, j, k - 1, Cost(2 * k - 2, perCall), 2 * k)
    ensures var next := Run(pairRuns, perCall, j, CostliestPair(k));
            if Cost(2 * k, perCall) > cap then next.refused else Between(cap, next, k, Cost(2 * k, perCall), 2 * k + 2)
  {
    PairAsCalls(pairRuns, perCall, j, k);
    var j0 := Step(pairRuns, perCall, j, StartPair);
    ForfeitedCallSpends(pairRuns, perCall, j0, true, 2 * k);
    var j1 := ForfeitedCall(pairRuns, perCall, j0, true, 2 * k);
    CostMonotone(2 * k - 1, 2 * k, perCall);
    if j1.refused {
      assert ForfeitedCall(pairRuns, perCall, j1, false, 2 * k + 1).refused by {
        RefusedStays(pairRuns, perCall, j1, Reserving(false, 2 * k + 1, Binding(0, 0)));
        RefusedStays(pairRuns, perCall, Step(pairRuns, perCall, j1, Reserving(false, 2 * k + 1, Binding(0, 0))),
                     Forfeiting(false));
      }
    } else {
      SecondCall(pairRuns, perCall, cap, j1, k);
    }
  }

  lemma SecondCall(pairRuns: nat, perCall: real, cap: real, j: Judging, k: nat)
    requires perCall > 0.0 && k > 0 && j.started == k && !j.refused && j.ab == Done && j.ba == Ready
    requires Valid(j.ledger) && j.ledger.maximum == cap && j.ledger.open == map[]
    requires j.ledger.reserved == 0.0 && j.ledger.spent == Cost(2 * k - 1, perCall)
    requires forall id :: id in Replay(j.ledger.journal).value.Seen() ==> id <= 2 * k
    ensures var next := ForfeitedCall(pairRuns, perCall, j, false, 2 * k + 1);
            if Cost(2 * k, perCall) > cap then next.refused else Between(cap, next, k, Cost(2 * k, perCall), 2 * k + 2)
  {
    hide ForfeitedCall, Replay;
    assert Valid(j.ledger);
    hide Valid;
    ForfeitedCallSpends(pairRuns, perCall, j, false, 2 * k + 1);
  }

  lemma BeginIsBounded(pairRuns: nat, perCall: real, cap: real)
    requires cap > 0.0
    ensures Bounded(pairRuns, perCall, cap, Begin(cap))
  {
    NewIsValid(cap);
  }

  /**
   The plan check is exact: a comparison's planned exposure is within its cap if and only if no
   interleaving of its comparator threads is ever refused money.
  */
  lemma PlanWithinCapIffNeverRefused(c: Comparison, caseCount: nat, perCall: real, cap: real,
          agentPerCall: Option<real>)
    requires perCall > 0.0 && cap > 0.0
    ensures var item := PlanOne(c, caseCount, true, perCall, cap, agentPerCall);
            item.comparatorExposure <= item.runCap
            <==> forall actions :: !Run(item.pairRuns, perCall, Begin(cap), actions).refused
  {
    var item := PlanOne(c, caseCount, true, perCall, cap, agentPerCall);
    var pairRuns := item.pairRuns;
    PlanOneFields(c, caseCount, true, perCall, cap, agentPerCall);
    PlanOneIsPriced(c, caseCount, true, perCall, cap, agentPerCall);
    BeginIsBounded(pairRuns, perCall, cap);
    hide PlanOne, Cost, Bounded, Run;
    if item.comparatorExposure <= item.runCap {
      forall actions
        ensures !Run(pairRuns, perCall, Begin(cap), actions).refused
      {
        RunKeepsBounded(pairRuns, perCall, cap, Begin(cap), actions);
      }
    } else {
      CostliestSpends(pairRuns, perCall, cap, pairRuns);
      assert Run(pairRuns, perCall, Begin(cap), Costliest(pairRuns)).refused;
    }
  }
}
