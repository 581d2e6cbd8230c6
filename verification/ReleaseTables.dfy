/**
 The tables `_aggregate` builds: the execution matrix, one outcome for each case under each comparison,
 and one cell for each comparison and skill.

 A pair is one repetition of one case under one comparison: two arms, and the winner between them.
 What the authority checks look at (adapter bindings, variant kinds) enters as flags. Costs, tokens and
 the report's counters are not part of this model.
*/
module ReleaseTables {
  import opened Options
  import opened SignTest

  datatype Winner = Treatment | Control | Tie | Tradeoff | Unqualified | Inconclusive
  datatype Arm = Arm(completed: bool, passed: bool, critical: map<string, bool>, models: Option<seq<string>>)
  datatype Pair = Pair(comparison: string, caseId: string, repetition: int, completed: bool, control: Arm,
          treatment: Arm,
                       winner: Winner, positionBias: bool, comparatorModels: seq<seq<string>>)
  datatype Case = Case(id: string, skill: string, split: string, critical: seq<string>)
  datatype Comparison = Comparison(id: string, control: string, treatment: string, repetitions: int, order: string)
  datatype PlanCase = PlanCase(id: string, tree: string, fingerprint: string, skill: string)
  datatype Suite = Suite(schema: int, objectiveOnly: bool, cases: seq<Case>, holdoutComparisons: Option<seq<string>>)
  datatype Selection = Selection(split: string, caseIds: seq<string>, seed: Option<int>, comparisonIds: seq<string>,
                                 verifierOnly: bool)
  datatype Authority = Authority(release: bool, generator: bool, providers: bool, variantKinds: bool)
  datatype Run = Run(pairs: seq<Pair>, suite: Suite, comparisons: seq<Comparison>, selection: Selection,
                     plan: Option<seq<PlanCase>>, authority: Authority)

  type Key = (string, string)
  type Triple = (string, string, int)

  const PROFILE: seq<Comparison> := [
    Comparison("candidate-vs-original", "original", "candidate", 3, "ab_ba"),
    Comparison("candidate-vs-no-skill", "no-skill", "candidate", 3, "ab_ba")]
  const MIN_HOLDOUT_CASES := 8
  const MAX_P := 0.05

  /** Manifest parsing refuses a suite whose cases or comparisons share an id. */
  predicate Parsed(run: Run)
  {
    forall c, d :: c in run.suite.cases && d in run.suite.cases && c.id == d.id ==> c == d
  }

  // ---------- What was asked for ----------

  function ReleaseIds(suite: Suite): Option<seq<string>>
  {
    if suite.schema >= 5 then suite.holdoutComparisons else Some([PROFILE[0].id, PROFILE[1].id])
  }

  predicate Chosen(c: Case, s: Selection)
  {
    (if s.split == "public" then c.split == "train" || c.split == "validation" || c.split == "public"
     else c.split == s.split)
    && (s.caseIds == [] || c.id in s.caseIds)
  }

  function SelectedCases(run: Run): set<Case> { set c | c in run.suite.cases && Chosen(c, run.selection) }

  function SelectedSkills(run: Run): set<string> { set c | c in SelectedCases(run) :: c.skill }

  /** comparison x case x repetition. */
  function Expected(run: Run): set<Triple>
  {
    set m, c, r | m in run.comparisons && c in SelectedCases(run) && 0 <= r < m.repetitions :: (m.id, c.id, r)
  }

  // ---------- Pairs ----------

  function TripleOf(p: Pair): Triple { (p.comparison, p.caseId, p.repetition) }

  function KeyOf(p: Pair): Key { (p.comparison, p.caseId) }

  function Triples(pairs: seq<Pair>): (r: seq<Triple>)
    ensures |r| == |pairs|
  {
    if pairs == [] then [] else Triples(pairs[..|pairs| - 1]) + [TripleOf(pairs[|pairs| - 1])]
  }

  function Keys(pairs: seq<Pair>): set<Key> { set p | p in pairs :: KeyOf(p) }

  function Of(pairs: seq<Pair>, k: Key): seq<Pair>
  {
    if pairs == [] then [] else
      var last := pairs[|pairs| - 1];
      Of(pairs[..|pairs| - 1], k) + if KeyOf(last) == k then [last] else []
  }

  function Repetitions(pairs: seq<Pair>): (r: seq<int>)
    ensures |r| == |pairs|
  {
    seq(|pairs|, i requires 0 <= i < |pairs| => pairs[i].repetition)
  }

  function Winners(pairs: seq<Pair>): (r: seq<Winner>)
    ensures |r| == |pairs|
  {
    seq(|pairs|, i requires 0 <= i < |pairs| => pairs[i].winner)
  }

  lemma {:induction false} OfTells(pairs: seq<Pair>, k: Key, p: Pair)
    ensures p in Of(pairs, k) <==> p in pairs && KeyOf(p) == k
  {
    if pairs != [] {
      OfTells(pairs[..|pairs| - 1], k, p);
      assert pairs == pairs[..|pairs| - 1] + [pairs[|pairs| - 1]];
    }
  }

  lemma {:induction false} TriplesTell(pairs: seq<Pair>, t: Triple)
    ensures t in Triples(pairs) <==> exists p :: p in pairs && TripleOf(p) == t
  {
    if pairs != [] {
      TriplesTell(pairs[..|pairs| - 1], t);
      assert pairs == pairs[..|pairs| - 1] + [pairs[|pairs| - 1]];
    }
  }

  /** A group's repetitions are the triples that carry its key. */
  lemma {:induction false} GroupCounts(pairs: seq<Pair>, k: Key, r: int)
    ensures multiset(Repetitions(Of(pairs, k)))[r] == multiset(Triples(pairs))[(k.0, k.1, r)]
  {
    if pairs != [] {
      var init, last := pairs[..|pairs| - 1], pairs[|pairs| - 1];
      GroupCounts(init, k, r);
      var before := Of(init, k);
      if KeyOf(last) == k {
        assert Repetitions(before + [last]) == Repetitions(before) + [last.repetition];
      } else {
        assert Of(pairs, k) == before;
      }
    }
  }

  // ---------- The execution matrix ----------

  predicate MatrixExact(observed: seq<Triple>, expected: set<Triple>)
  {
    var found := set t | t in observed;
    |observed| == |found| && found == expected
  }

  /** The length test and the set test together say: every expected triple once, and nothing else. */
  lemma MatrixExactIff(observed: seq<Triple>, expected: set<Triple>)
    ensures MatrixExact(observed, expected) <==> multiset(observed) == multiset(expected)
  {
    var found := set t | t in observed;
    var all, once := multiset(observed), multiset(found);
    assert |all| == |observed| && |once| == |found|;
    forall t
      ensures (t in found <==> t in all) && once[t] <= all[t]
    {
      assert t in found <==> t in observed;
    }
    if MatrixExact(observed, expected) {
      assert all == (all - once) + once;
      assert |all - once| == 0;
    }
    if all == multiset(expected) {
      forall t
        ensures t in found <==> t in expected
      {
        assert t in all <==> t in multiset(expected);
      }
      assert found == expected;
    }
  }

  // ---------- One case under one comparison ----------

  datatype Outcome = Outcome(comparison: string, caseId: string, fingerprint: string, skill: string, complete: bool,
                             treatmentStable: bool, criticalStable: bool, orderStable: bool, winner: Winner)

  function Insert(p: Pair, sorted: seq<Pair>): seq<Pair>
  {
    if sorted == [] || p.repetition < sorted[0].repetition then [p] + sorted else [sorted[0]] + Insert(p, sorted[1..])
  }

  /** Python's stable sort, by repetition. */
  function InOrder(group: seq<Pair>): seq<Pair>
  {
    if group == [] then [] else Insert(group[|group| - 1], InOrder(group[..|group| - 1]))
  }

  function Count(ws: seq<Winner>, w: Winner): nat
  {
    if ws == [] then 0 else Count(ws[1..], w) + if ws[0] == w then 1 else 0
  }

  predicate OnlyMajority(ws: seq<Winner>, w: Winner)
  {
    Count(ws, w) >= 2 && forall v: Winner :: v != w ==> Count(ws, v) < 2
  }

  /** The only winner with two votes, if there is just one. */
  function Verdict(ws: seq<Winner>): Winner
  {
    if OnlyMajority(ws, Treatment) then Treatment
    else if OnlyMajority(ws, Control) then Control
    else if OnlyMajority(ws, Tie) then Tie
    else if OnlyMajority(ws, Tradeoff) then Tradeoff
    else if OnlyMajority(ws, Unqualified) then Unqualified
    else Inconclusive
  }

  predicate CriticalHold(a: Arm, c: Case)
  {
    forall name :: name in c.critical ==> name in a.critical && a.critical[name]
  }

  function Summarise(group: seq<Pair>, repetitions: int, c: Case, comparison: string, fingerprint: string): Outcome
  {
    var complete := && |group| == repetitions == 3 && Repetitions(InOrder(group)) == [0, 1, 2]
                    && (forall p :: p in group ==> p.completed);
    var stable := complete && forall p :: p in group ==> p.treatment.completed && p.treatment.passed;
    var critical := stable && forall p :: p in group ==> CriticalHold(p.treatment, c);
    Outcome(comparison, c.id, fingerprint, c.skill, complete, stable, critical,
            complete && (forall p :: p in group ==> !p.positionBias),
            Verdict(if complete then Winners(InOrder(group)) else []))
  }

  lemma {:induction false} InsertKeepsRepetitions(p: Pair, s: seq<Pair>)
    ensures multiset(Repetitions(Insert(p, s))) == multiset(Repetitions(s)) + multiset{p.repetition}
  {
    if s == [] || p.repetition < s[0].repetition {
      Projected(p, s);
    } else {
      InsertKeepsRepetitions(p, s[1..]);
      assert s == [s[0]] + s[1..];
      Projected(s[0], s[1..]);
      Projected(s[0], Insert(p, s[1..]));
    }
  }

  lemma {:induction false} InsertKeepsWinners(p: Pair, s: seq<Pair>)
    ensures multiset(Winners(Insert(p, s))) == multiset(Winners(s)) + multiset{p.winner}
  {
    if s == [] || p.repetition < s[0].repetition {
      Projected(p, s);
    } else {
      InsertKeepsWinners(p, s[1..]);
      assert s == [s[0]] + s[1..];
      Projected(s[0], s[1..]);
      Projected(s[0], Insert(p, s[1..]));
    }
  }

  lemma {:induction false} InsertKeepsOrder(p: Pair, s: seq<Pair>)
    requires Ordered(s)
    ensures Ordered(Insert(p, s)) && |Insert(p, s)| == |s| + 1
    ensures s != [] ==> Insert(p, s)[0].repetition == p.repetition || Insert(p, s)[0] == s[0]
  {
    if s != [] && !(p.repetition < s[0].repetition) { InsertKeepsOrder(p, s[1..]); }
  }

  lemma Projected(p: Pair, s: seq<Pair>)
    ensures Repetitions([p] + s) == [p.repetition] + Repetitions(s)
    ensures Winners([p] + s) == [p.winner] + Winners(s)
    ensures Repetitions(s + [p]) == Repetitions(s) + [p.repetition]
    ensures Winners(s + [p]) == Winners(s) + [p.winner]
  {
  }

  predicate Ordered(s: seq<Pair>)
  {
    |s| > 1 ==> s[0].repetition <= s[1].repetition && Ordered(s[1..])
  }

  lemma {:induction false} InOrderSorts(group: seq<Pair>)
    ensures Ordered(InOrder(group)) && |InOrder(group)| == |group|
    ensures multiset(Repetitions(InOrder(group))) == multiset(Repetitions(group))
    ensures multiset(Winners(InOrder(group))) == multiset(Winners(group))
  {
    if group != [] {
      var init, last := group[..|group| - 1], group[|group| - 1];
      InOrderSorts(init);
      InsertKeepsOrder(last, InOrder(init));
      InsertKeepsRepetitions(last, InOrder(init));
      InsertKeepsWinners(last, InOrder(init));
      LastProjected(group);
    }
  }

  lemma LastProjected(group: seq<Pair>)
    requires group != []
    ensures var (init, last) := (group[..|group| - 1], group[|group| - 1]);
            && multiset(Repetitions(group)) == multiset(Repetitions(init)) + multiset{last.repetition}
            && multiset(Winners(group)) == multiset(Winners(init)) + multiset{last.winner}
  {
    assert group == group[..|group| - 1] + [group[|group| - 1]];
    Projected(group[|group| - 1], group[..|group| - 1]);
  }

  lemma ThreeInOrder(a: int, b: int, c: int)
    requires a <= b <= c && multiset{a, b, c} == multiset{0, 1, 2}
    ensures a == 0 && b == 1 && c == 2
  {
    assert 0 in multiset{a, b, c} && 1 in multiset{a, b, c} && 2 in multiset{a, b, c};
  }

  /** Sorting and comparing with [0, 1, 2] asks for each of the three repetitions once. */
  lemma SortedRepetitions(group: seq<Pair>)
    ensures Repetitions(InOrder(group)) == [0, 1, 2] <==> multiset(Repetitions(group)) == multiset{0, 1, 2}
  {
    InOrderSorts(group);
    var reps := Repetitions(InOrder(group));
    if multiset(reps) == multiset{0, 1, 2} {
      assert |multiset(reps)| == 3;
      assert reps == [reps[0], reps[1], reps[2]];
      assert Ordered(InOrder(group)[1..]);
      ThreeInOrder(reps[0], reps[1], reps[2]);
    }
  }

  lemma {:induction false} CountIs(ws: seq<Winner>, w: Winner)
    ensures Count(ws, w) == multiset(ws)[w]
  {
    if ws != [] {
      CountIs(ws[1..], w);
      assert ws == [ws[0]] + ws[1..];
    }
  }

  lemma {:induction false} TwoCounts(ws: seq<Winner>, v: Winner, w: Winner)
    requires v != w
    ensures Count(ws, v) + Count(ws, w) <= |ws|
  {
    if ws != [] { TwoCounts(ws[1..], v, w); }
  }

  /** Among three votes at most one winner can have two. */
  lemma VerdictIsMajority(ws: seq<Winner>, w: Winner)
    requires |ws| <= 3 && w != Inconclusive
    ensures Verdict(ws) == w <==> Count(ws, w) >= 2
  {
    forall v: Winner | v != w
      ensures Count(ws, v) + Count(ws, w) <= |ws|
    {
      TwoCounts(ws, v, w);
    }
  }

  /** What a summary says, whatever the order its pairs came in. */
  lemma SummaryMeans(group: seq<Pair>, repetitions: int, c: Case, comparison: string, fingerprint: string)
    ensures var o := Summarise(group, repetitions, c, comparison, fingerprint);
            && (o.complete <==> repetitions == 3 && multiset(Repetitions(group)) == multiset{0, 1, 2}
                                && forall p :: p in group ==> p.completed)
            && (o.complete ==> forall w: Winner :: w != Inconclusive ==>
                  (o.winner == w <==> Count(Winners(group), w) >= 2))
  {
    SortedRepetitions(group);
    InOrderSorts(group);
    assert |multiset(Repetitions(group))| == |group|;
    if |group| == 3 {
      forall w: Winner | w != Inconclusive
        ensures Verdict(Winners(InOrder(group))) == w <==> Count(Winners(group), w) >= 2
      {
        VerdictIsMajority(Winners(InOrder(group)), w);
        CountIs(Winners(InOrder(group)), w);
        CountIs(Winners(group), w);
      }
    }
  }

  // ---------- Grouping ----------

  /** The grouping loop: `grouped.setdefault(key, []).append(pair)`. */
  method Group(pairs: seq<Pair>) returns (groups: map<Key, seq<Pair>>)
    ensures groups.Keys == Keys(pairs)
    ensures forall k :: k in groups ==> groups[k] == Of(pairs, k)
  {
    groups := map[];
    for i := 0 to |pairs|
      invariant groups.Keys == Keys(pairs[..i])
      invariant forall k :: k in groups ==> groups[k] == Of(pairs[..i], k)
    {
      var k := KeyOf(pairs[i]);
      assert pairs[..i + 1] == pairs[..i] + [pairs[i]];
      if k !in groups { NoneOf(pairs[..i], k); }
      groups := groups[k := (if k in groups then groups[k] else []) + [pairs[i]]];
    }
    assert pairs[..|pairs|] == pairs;
  }

  lemma {:induction false} NoneOf(pairs: seq<Pair>, k: Key)
    requires k !in Keys(pairs)
    ensures Of(pairs, k) == []
  {
    if pairs != [] {
      assert KeyOf(pairs[|pairs| - 1]) in Keys(pairs);
      NoneOf(pairs[..|pairs| - 1], k);
    }
  }

  /** `case_by_id`: a dictionary built from the cases in order, so the last one wins. */
  function CaseOf(cases: seq<Case>, id: string): (r: Option<Case>)
    ensures r.Some? ==> r.value in cases && r.value.id == id
    ensures r.None? ==> forall c :: c in cases ==> c.id != id
  {
    if cases == [] then None else
      var last := cases[|cases| - 1];
      if last.id == id then Some(last) else
        var r := CaseOf(cases[..|cases| - 1], id);
        assert cases == cases[..|cases| - 1] + [last];
        r
  }

  /** `next(...)` over the comparisons: the first one with the id. */
  function RepetitionsOf(comparisons: seq<Comparison>, id: string): (r: Option<int>)
    ensures r.Some? ==> exists m :: m in comparisons && m.id == id && m.repetitions == r.value
    ensures r.None? ==> forall m :: m in comparisons ==> m.id != id
  {
    if comparisons == [] then None else
    if comparisons[0].id == id then Some(comparisons[0].repetitions) else RepetitionsOf(comparisons[1..], id)
  }

  /** The content that the last entry for the case gives, or none. */
  function PlannedFingerprint(cases: seq<PlanCase>, id: string): string
  {
    if cases == [] then "" else
    if cases[|cases| - 1].id == id then cases[|cases| - 1].fingerprint else PlannedFingerprint(cases[..|cases| - 1], id)
  }

  /** `i` is the last entry for the case; none of those after it is one. */
  predicate LastEntry(cases: seq<PlanCase>, id: string, i: int)
  {
    -1 <= i < |cases| && (i >= 0 ==> cases[i].id == id) && forall j :: i < j < |cases| ==> cases[j].id != id
  }

  lemma {:induction false} PlannedFingerprintIs(cases: seq<PlanCase>, id: string, i: int)
    requires LastEntry(cases, id, i)
    ensures PlannedFingerprint(cases, id) == if i < 0 then "" else cases[i].fingerprint
    decreases |cases|
  {
    if i < |cases| - 1 { PlannedFingerprintIs(cases[..|cases| - 1], id, i); }
  }

  /** Without a plan every case is its own statistical unit. */
  function FingerprintOf(run: Run, id: string): string
  {
    if run.plan.Some? then PlannedFingerprint(run.plan.value, id) else id
  }

  predicate Known(run: Run, k: Key)
  {
    RepetitionsOf(run.comparisons, k.0).Some? && CaseOf(run.suite.cases, k.1).Some?
  }

  function OutcomeOf(run: Run, k: Key): (o: Outcome)
    requires Known(run, k)
    ensures (o.comparison, o.caseId) == k
  {
    Summarise(Of(run.pairs, k), RepetitionsOf(run.comparisons, k.0).value, CaseOf(run.suite.cases, k.1).value, k.0,
              FingerprintOf(run, k.1))
  }

  predicate DistinctKeys(outcomes: seq<Outcome>)
  {
    forall i, j :: 0 <= i < j < |outcomes| ==>
      (outcomes[i].comparison, outcomes[i].caseId) != (outcomes[j].comparison, outcomes[j].caseId)
  }

  /** One outcome for each of the keys, in some order. */
  ghost predicate Summarised(run: Run, outcomes: seq<Outcome>, keys: set<Key>)
  {
    && (forall k :: k in keys ==> Known(run, k))
    && (forall o :: o in outcomes ==> (o.comparison, o.caseId) in keys && o == OutcomeOf(run, (o.comparison, o.caseId)))
    && (forall k :: k in keys ==> OutcomeOf(run, k) in outcomes)
    && DistinctKeys(outcomes)
  }

  /**
   The loop over the groups. A pair of an unknown comparison or case raises. The source goes through
   the groups in sorted order; any order will do.
  */
  method Outcomes(run: Run, groups: map<Key, seq<Pair>>) returns (r: Option<seq<Outcome>>)
    requires groups.Keys == Keys(run.pairs)
    requires forall k :: k in groups ==> groups[k] == Of(run.pairs, k)
    ensures r.Some? <==> forall k :: k in groups ==> Known(run, k)
    ensures r.Some? ==> Summarised(run, r.value, groups.Keys)
  {
    var outcomes: seq<Outcome>, left := [], groups.Keys;
    while left != {}
      invariant left <= groups.Keys
      invariant Summarised(run, outcomes, groups.Keys - left)
      decreases |left|
    {
      var k :| k in left;
      assert groups.Keys - (left - {k}) == (groups.Keys - left) + {k};
      if RepetitionsOf(run.comparisons, k.0).None? || CaseOf(run.suite.cases, k.1).None? { return None; }
      AddOutcome(run, outcomes, groups.Keys - left, k);
      left := left - {k};
      outcomes := outcomes + [Summarise(groups[k], RepetitionsOf(run.comparisons, k.0).value,
                                        CaseOf(run.suite.cases, k.1).value, k.0, FingerprintOf(run, k.1))];
    }
    assert groups.Keys - left == groups.Keys;
    r := Some(outcomes);
  }

  lemma AddOutcome(run: Run, outcomes: seq<Outcome>, done: set<Key>, k: Key)
    requires Summarised(run, outcomes, done) && k !in done && Known(run, k)
    ensures Summarised(run, outcomes + [OutcomeOf(run, k)], done + {k})
  {
    var o := OutcomeOf(run, k);
    forall i | 0 <= i < |outcomes|
      ensures (outcomes[i].comparison, outcomes[i].caseId) != k
    {
      assert outcomes[i] in outcomes;
    }
    assert o in outcomes + [o];
    forall j | j in done
      ensures OutcomeOf(run, j) in outcomes + [o]
    {
      assert OutcomeOf(run, j) in outcomes;
    }
  }

  // ---------- Which models answered ----------

  function ArmModels(p: Pair): set<seq<string>>
  {
    (if p.control.models.Some? then {p.control.models.value} else {})
    + (if p.treatment.models.Some? then {p.treatment.models.value} else {})
  }

  function AgentModels(pairs: seq<Pair>): set<seq<string>> { set p, m | p in pairs && m in ArmModels(p) :: m }

  function ComparatorModels(pairs: seq<Pair>): set<seq<string>>
  {
    set p, m | p in pairs && m in p.comparatorModels :: m
  }

  predicate BothProviders(p: Pair) { p.control.models.Some? && p.treatment.models.Some? }

  lemma ModelsExtend(pairs: seq<Pair>, p: Pair)
    ensures AgentModels(pairs + [p]) == AgentModels(pairs) + ArmModels(p)
    ensures ComparatorModels(pairs + [p]) == ComparatorModels(pairs) + set m | m in p.comparatorModels
    ensures AllProviders(pairs + [p]) <==> AllProviders(pairs) && BothProviders(p)
  {
    assert forall q :: q in pairs + [p] <==> q in pairs || q == p;
  }

  predicate AllProviders(pairs: seq<Pair>) { forall p :: p in pairs ==> BothProviders(p) }

  /** The provenance loop. */
  method ModelSets(pairs: seq<Pair>) returns (missing: bool, agents: set<seq<string>>, comparators: set<seq<string>>)
    ensures missing <==> !AllProviders(pairs)
    ensures agents == AgentModels(pairs) && comparators == ComparatorModels(pairs)
  {
    missing, agents, comparators := false, {}, {};
    for i := 0 to |pairs|
      invariant missing <==> !AllProviders(pairs[..i])
      invariant agents == AgentModels(pairs[..i]) && comparators == ComparatorModels(pairs[..i])
    {
      var pair := pairs[i];
      assert pairs[..i + 1] == pairs[..i] + [pair];
      ModelsExtend(pairs[..i], pair);
      if pair.control.models.None? || pair.treatment.models.None? { missing := true; }
      if pair.control.models.Some? { agents := agents + {pair.control.models.value}; }
      if pair.treatment.models.Some? { agents := agents + {pair.treatment.models.value}; }
      assert agents == AgentModels(pairs[..i]) + ArmModels(pair);
      comparators := AddAll(comparators, pair.comparatorModels);
    }
    assert pairs[..|pairs|] == pairs;
  }

  method AddAll(seen: set<seq<string>>, models: seq<seq<string>>) returns (r: set<seq<string>>)
    ensures r == seen + set m | m in models
  {
    r := seen;
    for j := 0 to |models|
      invariant r == seen + set m | m in models[..j]
    {
      r := r + {models[j]};
    }
    assert models[..|models|] == models;
  }

  // ---------- One comparison and skill ----------

  datatype Cell = Cell(wins: nat, losses: nat, p: Option<real>, integrity: bool, developmental: bool, authorized: bool)

  predicate Sound(o: Outcome, verifierOnly: bool)
  {
    o.complete && o.treatmentStable && o.criticalStable && (verifierOnly || o.orderStable)
  }

  function Records(outcomes: seq<Outcome>, k: Key): seq<Outcome>
  {
    if outcomes == [] then [] else
      (if outcomes[0].comparison == k.0 && outcomes[0].skill == k.1 then [outcomes[0]] else [])
      + Records(outcomes[1..], k)
  }

  function Fingerprints(records: seq<Outcome>): set<string> { set o | o in records :: o.fingerprint }

  /** The first record of each fingerprint. */
  function Firsts(records: seq<Outcome>): seq<Outcome>
  {
    if records == [] then [] else
      var init, last := records[..|records| - 1], records[|records| - 1];
      Firsts(init) + if last.fingerprint in Fingerprints(init) then [] else [last]
  }

  predicate OneEach(records: seq<Outcome>)
  {
    forall i, j :: 0 <= i < j < |records| ==> records[i].fingerprint != records[j].fingerprint
  }

  function Tally(records: seq<Outcome>, w: Winner): nat
  {
    if records == [] then 0 else (if records[0].winner == w then 1 else 0) + Tally(records[1..], w)
  }

  predicate Significant(wins: nat, losses: nat, least: nat)
    requires least > 0
  {
    wins + losses >= least && PValue(wins, losses) <= MAX_P
  }

  function CellOf(records: seq<Outcome>, candidate: bool, holdout: bool, verifierOnly: bool): Cell
  {
    var wins, losses := Tally(Firsts(records), Treatment), Tally(Firsts(records), Control);
    var integrity := OneEach(records) && forall o :: o in records ==> Sound(o, verifierOnly);
    Cell(wins, losses, if wins + losses == 0 then None else Some(PValue(wins, losses)), integrity,
         candidate && Significant(wins, losses, 5),
         candidate && holdout && Significant(wins, losses, MIN_HOLDOUT_CASES) && integrity)
  }

  lemma {:induction false} FirstsOfOneEach(records: seq<Outcome>)
    requires OneEach(records)
    ensures Firsts(records) == records
  {
    hide Fingerprints, OneEach;
    if records != [] {
      var init, last := records[..|records| - 1], records[|records| - 1];
      LastIsNew(records);
      FirstsOfOneEach(init);
      assert Firsts(records) == init + [last];
    }
  }

  lemma LastIsNew(records: seq<Outcome>)
    requires records != [] && OneEach(records)
    ensures OneEach(records[..|records| - 1])
    ensures records[|records| - 1].fingerprint !in Fingerprints(records[..|records| - 1])
  {
    var init := records[..|records| - 1];
    assert forall i :: 0 <= i < |init| ==> init[i] == records[i];
    assert forall o :: o in init ==> exists i :: 0 <= i < |init| && init[i] == o;
  }

  ghost predicate Deduplicated(records: seq<Outcome>, selected: seq<Outcome>, seen: set<string>,
          duplicates: set<string>)
  {
    seen == Fingerprints(records) && selected == Firsts(records) && (duplicates == {} <==> OneEach(records))
  }

  /** The deduplication loop. */
  method Deduplicate(records: seq<Outcome>) returns (selected: seq<Outcome>, duplicates: set<string>)
    ensures Deduplicated(records, selected, Fingerprints(records), duplicates)
  {
    selected, duplicates := [], {};
    var seen: set<string> := {};
    for i := 0 to |records|
      invariant Deduplicated(records[..i], selected, seen, duplicates)
    {
      var fingerprint := records[i].fingerprint;
      assert records[..i + 1] == records[..i] + [records[i]];
      OneMoreRecord(records[..i], records[i], selected, seen, duplicates);
      if fingerprint in seen {
        duplicates := duplicates + {fingerprint};
      } else {
        seen, selected := seen + {fingerprint}, selected + [records[i]];
      }
    }
    assert records[..|records|] == records;
  }

  /** The decision on one cell. */
  method JudgeCell(records: seq<Outcome>, candidate: bool, holdout: bool, verifierOnly: bool) returns (cell: Cell)
    ensures cell == CellOf(records, candidate, holdout, verifierOnly)
  {
    var selected, duplicates := Deduplicate(records);
    if duplicates == {} { FirstsOfOneEach(records); }
    var wins, losses := Tally(selected, Treatment), Tally(selected, Control);
    var p := OneSidedSignTest(wins, losses);
    var integrity := duplicates == {} && forall o :: o in selected ==> Sound(o, verifierOnly);
    cell := Cell(wins, losses, p, integrity,
                 candidate && wins + losses >= 5 && p.Some? && p.value <= MAX_P,
                 && candidate && holdout && wins + losses >= MIN_HOLDOUT_CASES
                 && p.Some? && p.value <= MAX_P && integrity);
  }

  lemma OneMoreRecord(records: seq<Outcome>, o: Outcome, selected: seq<Outcome>, seen: set<string>,
          duplicates: set<string>)
    requires Deduplicated(records, selected, seen, duplicates)
    ensures if o.fingerprint in seen then Deduplicated(records + [o], selected, seen, duplicates + {o.fingerprint})
            else Deduplicated(records + [o], selected + [o], seen + {o.fingerprint}, duplicates)
  {
    var more := records + [o];
    assert more[..|records|] == records;
    assert forall i :: 0 <= i < |records| ==> more[i] == records[i];
    assert Fingerprints(more) == Fingerprints(records) + {o.fingerprint};
    if o.fingerprint in seen {
      var i :| 0 <= i < |records| && records[i].fingerprint == o.fingerprint;
      assert more[i].fingerprint == more[|records|].fingerprint;
    }
  }

  function Flags(run: Run, release: seq<string>, outcomes: seq<Outcome>, k: Key): Cell
  {
    CellOf(Records(outcomes, k), k.0 in release, run.selection.split == "holdout", run.selection.verifierOnly)
  }

  function Present(outcomes: seq<Outcome>): Key -> bool { k => Records(outcomes, k) != [] }

  function Judgement(run: Run, release: seq<string>, outcomes: seq<Outcome>): Key -> Cell
  {
    k => Flags(run, release, outcomes, k)
  }

  /** The cells of these comparisons and skills, each as it should be. */
  ghost predicate Table(cells: map<Key, Cell>, present: Key -> bool, cell: Key -> Cell, comparisons: set<string>,
          skills: set<string>)
  {
    && (forall k :: k in cells <==> k.0 in comparisons && k.1 in skills && present(k))
    && (forall k :: k in cells ==> cells[k] == cell(k))
  }

  ghost predicate Judged(run: Run, release: seq<string>, outcomes: seq<Outcome>, cells: map<Key, Cell>,
                         comparisons: set<string>, skills: set<string>)
  {
    Table(cells, Present(outcomes), Judgement(run, release, outcomes), comparisons, skills)
  }

  function SkillsOf(outcomes: seq<Outcome>): set<string> { set o | o in outcomes :: o.skill }

  function ComparisonIds(comparisons: seq<Comparison>): set<string> { set m | m in comparisons :: m.id }

  /** The two loops over comparisons and skills. */
  method JudgeCells(run: Run, release: seq<string>, outcomes: seq<Outcome>) returns (cells: map<Key, Cell>)
    ensures Judged(run, release, outcomes, cells, ComparisonIds(run.comparisons), SkillsOf(outcomes))
  {
    cells := map[];
    for i := 0 to |run.comparisons|
      invariant Judged(run, release, outcomes, cells, ComparisonIds(run.comparisons[..i]), SkillsOf(outcomes))
    {
      var row := JudgeRow(run, release, outcomes, run.comparisons[i].id);
      assert run.comparisons[..i + 1] == run.comparisons[..i] + [run.comparisons[i]];
      assert ComparisonIds(run.comparisons[..i + 1]) == ComparisonIds(run.comparisons[..i]) + {run.comparisons[i].id};
      cells := cells + row;
    }
    assert run.comparisons[..|run.comparisons|] == run.comparisons;
  }

  method JudgeRow(run: Run, release: seq<string>, outcomes: seq<Outcome>, comparison: string)
    returns (row: map<Key, Cell>)
    ensures Judged(run, release, outcomes, row, {comparison}, SkillsOf(outcomes))
  {
    row := map[];
    var left := SkillsOf(outcomes);
    while left != {}
      invariant left <= SkillsOf(outcomes)
      invariant Judged(run, release, outcomes, row, {comparison}, SkillsOf(outcomes) - left)
      decreases |left|
    {
      var skill :| skill in left;
      assert SkillsOf(outcomes) - (left - {skill}) == (SkillsOf(outcomes) - left) + {skill};
      MoreCells(row, Present(outcomes), Judgement(run, release, outcomes), comparison, SkillsOf(outcomes) - left,
                skill);
      left := left - {skill};
      var records := Records(outcomes, (comparison, skill));
      if records != [] {
        var cell := JudgeCell(records, comparison in release, run.selection.split == "holdout",
                              run.selection.verifierOnly);
        row := row[(comparison, skill) := cell];
      }
    }
    assert SkillsOf(outcomes) - left == SkillsOf(outcomes);
  }

  lemma MoreCells(row: map<Key, Cell>, present: Key -> bool, cell: Key -> Cell, comparison: string,
          skills: set<string>, skill: string)
    requires Table(row, present, cell, {comparison}, skills)
    ensures var k := (comparison, skill);
            Table(if present(k) then row[k := cell(k)] else row, present, cell, {comparison}, skills + {skill})
  {
  }
}
