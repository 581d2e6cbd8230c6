/**
 What the release decision comes to, said once more in plain terms: about the pairs, the suite, the plan
 and the selection themselves, with none of the tables and gates the decision is made with.
*/
module ReleaseGrounds {
  import opened Options
  import opened ReleaseTables
  import opened ReleaseDecision
  import opened SignTest

  // ---------- The matrix ----------

  /** The case is asked for: it is in the split, and among the ids if any were given. */
  predicate Requested(c: Case, s: Selection)
  {
    && (s.split == c.split || (s.split == "public" && c.split in {"train", "validation"}))
    && (|s.caseIds| > 0 ==> exists i :: 0 <= i < |s.caseIds| && s.caseIds[i] == c.id)
  }

  /** Repetition r of the case under the comparison was observed. */
  ghost predicate Observed(run: Run, m: Comparison, c: Case, r: int)
  {
    exists p :: p in run.pairs && p.comparison == m.id && p.caseId == c.id && p.repetition == r
  }

  /** The pair is a repetition that was asked for. */
  ghost predicate AskedFor(run: Run, p: Pair)
  {
    exists m, c :: m in run.comparisons && c in run.suite.cases && Requested(c, run.selection)
                   && p.comparison == m.id && p.caseId == c.id && 0 <= p.repetition < m.repetitions
  }

  /** Every pair was asked for, everything asked for was observed, and nothing twice. */
  ghost predicate Complete(run: Run)
  {
    && (forall p :: p in run.pairs ==> AskedFor(run, p))
    && (forall m, c, r ::
          m in run.comparisons && c in run.suite.cases && Requested(c, run.selection) && 0 <= r < m.repetitions ==>
            Observed(run, m, c, r))
    && (forall i, j :: 0 <= i < j < |run.pairs| ==> TripleOf(run.pairs[i]) != TripleOf(run.pairs[j]))
  }

  lemma ChosenIffRequested(c: Case, s: Selection)
    ensures Chosen(c, s) <==> Requested(c, s)
  {
  }

  lemma {:induction false} TriplesAre(pairs: seq<Pair>)
    ensures forall i :: 0 <= i < |pairs| ==> Triples(pairs)[i] == TripleOf(pairs[i])
  {
    if pairs != [] { TriplesAre(pairs[..|pairs| - 1]); }
  }

  /** As many values as places means that no two places share one. */
  lemma {:induction false} DistinctIffOnce<T>(ts: seq<T>)
    ensures (forall i, j :: 0 <= i < j < |ts| ==> ts[i] != ts[j]) <==> |set t | t in ts| == |ts|
    ensures |set t | t in ts| <= |ts|
  {
    if ts != [] {
      var init, last := ts[..|ts| - 1], ts[|ts| - 1];
      assert ts == init + [last];
      DistinctIffOnce(init);
      assert (set t | t in ts) == (set t | t in init) + {last};
      if last in init {
        var i :| 0 <= i < |init| && init[i] == last;
        assert ts[i] == ts[|init|];
      }
      assert forall i :: 0 <= i < |init| ==> ts[i] == init[i];
    }
  }

  ghost predicate Found(run: Run, t: Triple) { exists p :: p in run.pairs && TripleOf(p) == t }

  lemma ObservedIffFound(run: Run, m: Comparison, c: Case, r: int)
    ensures Observed(run, m, c, r) <==> Found(run, (m.id, c.id, r))
  {
    if Observed(run, m, c, r) {
      var p :| p in run.pairs && p.comparison == m.id && p.caseId == c.id && p.repetition == r;
      assert TripleOf(p) == (m.id, c.id, r);
    }
  }

  lemma AskedForIffExpected(run: Run, p: Pair)
    ensures AskedFor(run, p) <==> TripleOf(p) in Expected(run)
  {
    if AskedFor(run, p) {
      var m, c :| m in run.comparisons && c in run.suite.cases && Requested(c, run.selection)
                  && p.comparison == m.id && p.caseId == c.id && 0 <= p.repetition < m.repetitions;
      ChosenIffRequested(c, run.selection);
      assert c in SelectedCases(run);
      assert (m.id, c.id, p.repetition) in Expected(run);
    }
    if TripleOf(p) in Expected(run) {
      var m, c, r :| m in run.comparisons && c in SelectedCases(run) && 0 <= r < m.repetitions
                     && TripleOf(p) == (m.id, c.id, r);
      ChosenIffRequested(c, run.selection);
    }
  }

  lemma AllObservedIffExpectedFound(run: Run)
    ensures (forall m, c, r ::
               m in run.comparisons && c in run.suite.cases && Requested(c, run.selection) && 0 <= r < m.repetitions ==>
                 Observed(run, m, c, r))
            <==> forall t :: t in Expected(run) ==> Found(run, t)
  {
    hide Observed, Found, Chosen, Requested;
    if forall t :: t in Expected(run) ==> Found(run, t) {
      forall m, c, r | m in run.comparisons && c in run.suite.cases && Requested(c, run.selection)
                       && 0 <= r < m.repetitions
        ensures Observed(run, m, c, r)
      {
        ChosenIffRequested(c, run.selection);
        ObservedIffFound(run, m, c, r);
        assert c in SelectedCases(run);
        assert (m.id, c.id, r) in Expected(run);
      }
    } else {
      var t :| t in Expected(run) && !Found(run, t);
      var m, c, r :| m in run.comparisons && c in SelectedCases(run) && 0 <= r < m.repetitions && t == (m.id, c.id, r);
      ChosenIffRequested(c, run.selection);
      ObservedIffFound(run, m, c, r);
    }
  }

  lemma ExactIffComplete(run: Run)
    ensures Exact(run) <==> Complete(run)
  {
    hide Expected, AskedFor, Observed, Requested, Triples, TripleOf;
    var triples, expected := Triples(run.pairs), Expected(run);
    MatrixExactIff(triples, expected);
    TriplesAre(run.pairs);
    DistinctIffOnce(triples);
    AllObservedIffExpectedFound(run);
    forall t
      ensures t in triples <==> Found(run, t)
    {
      TriplesTell(run.pairs, t);
    }
    forall p
      ensures AskedFor(run, p) <==> TripleOf(p) in expected
    {
      AskedForIffExpected(run, p);
    }
    assert (forall p :: p in run.pairs ==> AskedFor(run, p)) <==> forall t :: t in triples ==> t in expected;
  }

  // ---------- A release ----------

  predicate Holdout(run: Run, c: Case) { c in run.suite.cases && c.split == "holdout" }

  /** The pair leaves nothing open: it ran to its end, and the treatment passed and held every critical assertion. */
  ghost predicate Clean(run: Run, p: Pair)
  {
    && p.completed && p.treatment.completed && p.treatment.passed
    && (forall c, name :: c in run.suite.cases && c.id == p.caseId && name in c.critical ==>
          name in p.treatment.critical && p.treatment.critical[name])
    && (p.positionBias ==> run.selection.verifierOnly)
  }

  /** One list of models answered in all arms, and at most one in all comparisons that were judged. */
  ghost predicate OneModelEach(run: Run)
  {
    && (forall p :: p in run.pairs ==> p.control.models.Some? && p.treatment.models == p.control.models)
    && (forall p, q :: p in run.pairs && q in run.pairs ==> p.control.models == q.control.models)
    && (run.selection.verifierOnly
        || forall p, q, a, b ::
             p in run.pairs && q in run.pairs && a in p.comparatorModels && b in q.comparatorModels ==> a == b)
  }

  /** The places of a skill in the plan. */
  ghost function Places(plan: seq<PlanCase>, skill: string): set<int>
  {
    set i | 0 <= i < |plan| && plan[i].skill == skill
  }

  /** What the holdout plan must be: distinct trees, distinct contents, and at least eight cases of each skill. */
  ghost predicate GoodPlan(run: Run, plan: seq<PlanCase>)
  {
    && (forall i, j :: 0 <= i < j < |plan| ==> plan[i].tree != plan[j].tree)
    && (forall i, j :: 0 <= i < j < |plan| ==> plan[i].fingerprint != plan[j].fingerprint)
    && (exists c :: Holdout(run, c))
    && forall c :: Holdout(run, c) ==> |Places(plan, c.skill)| >= 8
  }

  /** The declared comparisons: before schema 5 the two fixed ones, and always three repetitions in both orders. */
  predicate GoodComparisons(run: Run)
  {
    && (forall m :: m in run.comparisons ==> m.repetitions == 3 && m.order == "ab_ba")
    && (run.suite.schema < 5 ==>
          && |run.comparisons| == 2
          && run.comparisons[0].id == "candidate-vs-original" && run.comparisons[0].control == "original"
          && run.comparisons[1].id == "candidate-vs-no-skill" && run.comparisons[1].control == "no-skill"
          && run.comparisons[0].treatment == run.comparisons[1].treatment == "candidate")
  }

  /** Two of the repetitions of the case under the comparison went to this side. */
  ghost predicate Wins(run: Run, comparison: string, c: Case, w: Winner)
  {
    exists i, j :: 0 <= i < j < |run.pairs|
                   && run.pairs[i].comparison == run.pairs[j].comparison == comparison
                   && run.pairs[i].caseId == run.pairs[j].caseId == c.id
                   && run.pairs[i].winner == run.pairs[j].winner == w
  }

  /** The ids of the skill's holdout cases that the side won. */
  ghost function WonCases(run: Run, comparison: string, skill: string, w: Winner): set<string>
  {
    set c | c in run.suite.cases && c.split == "holdout" && c.skill == skill && Wins(run, comparison, c, w) :: c.id
  }

  /** The skill's cases have distinct contents, and the sign test over those that were decided is significant. */
  ghost predicate Proven(run: Run, comparison: string, skill: string)
  {
    var wins, losses := |WonCases(run, comparison, skill, Treatment)|, |WonCases(run, comparison, skill, Control)|;
    && (forall c, d :: Holdout(run, c) && Holdout(run, d) && c.skill == d.skill == skill && c.id != d.id ==>
          FingerprintOf(run, c.id) != FingerprintOf(run, d.id))
    && wins + losses >= 8 && PValue(wins, losses) <= 0.05
  }

  /** The comparisons that release: the two fixed ones before schema 5, and from then on those the suite names. */
  predicate Releases(suite: Suite, release: seq<string>)
  {
    if suite.schema < 5 then release == ["candidate-vs-original", "candidate-vs-no-skill"]
    else suite.holdoutComparisons == Some(release)
  }

  /** Everything an authorised release rests on. */
  ghost predicate Warranted(run: Run, release: seq<string>)
  {
    && Releases(run.suite, release)
    && run.selection == Selection("holdout", [], None, release, run.selection.verifierOnly)
    && (run.selection.verifierOnly ==> run.suite.schema >= 5 && run.suite.objectiveOnly)
    && run.authority == Authority(true, true, true, true)
    && run.plan.Some? && GoodPlan(run, run.plan.value) && GoodComparisons(run)
    && run.pairs != [] && Complete(run) && OneModelEach(run)
    && (forall p :: p in run.pairs ==> Clean(run, p))
    && (forall id :: id in release ==> exists m :: m in run.comparisons && m.id == id)
    && (forall id, c :: id in release && Holdout(run, c) ==> Proven(run, id, c.skill))
  }

  // ---------- The decision is that ----------

  lemma SelectedIsHoldout(run: Run)
    requires run.selection.split == "holdout" && run.selection.caseIds == []
    ensures forall c :: c in SelectedCases(run) <==> Holdout(run, c)
  {
  }

  lemma DistinctTrees(plan: seq<PlanCase>)
    ensures |set c | c in plan :: c.tree| == |plan| <==>
              forall i, j :: 0 <= i < j < |plan| ==> plan[i].tree != plan[j].tree
  {
    var trees := seq(|plan|, i requires 0 <= i < |plan| => plan[i].tree);
    DistinctIffOnce(trees);
    assert forall i :: 0 <= i < |plan| ==> plan[i] in plan && trees[i] in trees;
    assert (set c | c in plan :: c.tree) == set t | t in trees;
  }

  lemma DistinctContents(plan: seq<PlanCase>)
    ensures |set c | c in plan :: c.fingerprint| == |plan|
            <==> forall i, j :: 0 <= i < j < |plan| ==> plan[i].fingerprint != plan[j].fingerprint
  {
    var contents := seq(|plan|, i requires 0 <= i < |plan| => plan[i].fingerprint);
    DistinctIffOnce(contents);
    assert forall i :: 0 <= i < |plan| ==> plan[i] in plan && contents[i] in contents;
    assert (set c | c in plan :: c.fingerprint) == set t | t in contents;
  }

  lemma SomePlace(places: set<int>) returns (i: int)
    requires places != {}
    ensures i in places
  {
    if forall k: int :: k !in places { assert false; }
    i :| i in places;
  }

  lemma {:induction false} PlacesHoldContents(places: set<int>, content: int -> string)
    requires forall i, j :: i in places && j in places && i != j ==> content(i) != content(j)
    ensures |set i | i in places :: content(i)| == |places|
    decreases |places|
  {
    var contents := set i | i in places :: content(i);
    if places != {} {
      var i := SomePlace(places);
      PlacesHoldContents(places - {i}, content);
      assert contents == (set j | j in places - {i} :: content(j)) + {content(i)};
      assert content(i) !in set j | j in places - {i} :: content(j);
    } else {
      assert contents == {};
    }
  }

  lemma SkillCounts(plan: seq<PlanCase>, skill: string)
    requires forall i, j :: 0 <= i < j < |plan| ==> plan[i].fingerprint != plan[j].fingerprint
    ensures |set c | c in plan && c.skill == skill :: c.fingerprint| == |Places(plan, skill)|
  {
    var places, content := Places(plan, skill), (i: int) => if 0 <= i < |plan| then plan[i].fingerprint else "";
    forall i, j | i in places && j in places && i != j
      ensures content(i) != content(j)
    {
      assert i < j || j < i;
    }
    PlacesHoldContents(places, content);
    var found := set c | c in plan && c.skill == skill :: c.fingerprint;
    forall f
      ensures f in found <==> exists i :: i in places && content(i) == f
    {
      if f in found {
        var c :| c in plan && c.skill == skill && c.fingerprint == f;
        var i :| 0 <= i < |plan| && plan[i] == c;
        assert i in places && content(i) == f;
      }
      if i :| i in places && content(i) == f { assert plan[i] in plan; }
    }
    assert found == set i | i in places :: content(i);
  }

  ghost predicate EnoughEach(run: Run, plan: seq<PlanCase>)
  {
    forall c :: Holdout(run, c) ==> |Places(plan, c.skill)| >= 8
  }

  lemma EnoughEachIff(run: Run, plan: seq<PlanCase>)
    requires run.selection.split == "holdout" && run.selection.caseIds == []
    requires forall i, j :: 0 <= i < j < |plan| ==> plan[i].fingerprint != plan[j].fingerprint
    ensures EnoughEach(run, plan) <==>
              forall skill :: skill in SelectedSkills(run) ==>
                |set c | c in plan && c.skill == skill :: c.fingerprint| >= MIN_HOLDOUT_CASES
  {
    SelectedIsHoldout(run);
    forall skill | skill in SelectedSkills(run)
      ensures |set c | c in plan && c.skill == skill :: c.fingerprint| == |Places(plan, skill)|
    {
      SkillCounts(plan, skill);
    }
    forall c | Holdout(run, c)
      ensures c.skill in SelectedSkills(run)
    {
      assert c in SelectedCases(run);
    }
  }

  lemma PlanHoldsIffGood(run: Run, plan: seq<PlanCase>)
    requires run.selection.split == "holdout" && run.selection.caseIds == []
    ensures SelectedSkills(run) != {} && PlanHolds(plan, SelectedSkills(run)) <==> GoodPlan(run, plan)
  {
    SelectedIsHoldout(run);
    DistinctTrees(plan);
    DistinctContents(plan);
    if c :| Holdout(run, c) { assert c in SelectedCases(run) && c.skill in SelectedSkills(run); }
    if forall i, j :: 0 <= i < j < |plan| ==> plan[i].fingerprint != plan[j].fingerprint { EnoughEachIff(run, plan); }
  }

  lemma ProfileHoldsIffGood(run: Run)
    ensures ProfileHolds(run) <==> GoodComparisons(run)
  {
    if GoodComparisons(run) && run.suite.schema < 5 {
      assert run.comparisons[0] in run.comparisons && run.comparisons[1] in run.comparisons;
      assert run.comparisons[0] == PROFILE[0] && run.comparisons[1] == PROFILE[1];
    }
  }

  lemma SoundIffClean(run: Run, p: Pair)
    ensures SoundPair(run, p) <==> Clean(run, p)
  {
  }

  lemma OneAgentModel(pairs: seq<Pair>)
    requires pairs != []
    ensures (forall p :: p in pairs ==> BothProviders(p)) && |AgentModels(pairs)| == 1 <==>
              && (forall p :: p in pairs ==> p.control.models.Some? && p.treatment.models == p.control.models)
              && (forall p, q :: p in pairs && q in pairs ==> p.control.models == q.control.models)
  {
    var models, first := AgentModels(pairs), pairs[0];
    if (forall p :: p in pairs ==> BothProviders(p)) && |models| == 1 {
      var one :| one in models;
      SingletonOnly(models, one);
      forall p | p in pairs
        ensures p.control.models == Some(one) && p.treatment.models == Some(one)
      {
        assert p.control.models.value in ArmModels(p) && p.treatment.models.value in ArmModels(p);
        assert p.control.models.value in models && p.treatment.models.value in models;
      }
    }
    if && (forall p :: p in pairs ==> p.control.models.Some? && p.treatment.models == p.control.models)
       && (forall p, q :: p in pairs && q in pairs ==> p.control.models == q.control.models) {
      assert first in pairs;
      assert first.control.models.value in ArmModels(first);
      assert models == {first.control.models.value};
    }
  }

  lemma SingletonOnly(xs: set<seq<string>>, x: seq<string>)
    requires |xs| == 1 && x in xs
    ensures forall y :: y in xs ==> y == x
  {
    assert |xs - {x}| == 0;
  }

  lemma OneComparatorModel(pairs: seq<Pair>)
    ensures |ComparatorModels(pairs)| <= 1 <==>
              forall p, q, a, b ::
                p in pairs && q in pairs && a in p.comparatorModels && b in q.comparatorModels ==> a == b
  {
    var models := ComparatorModels(pairs);
    if |models| <= 1 {
      forall p, q, a, b | p in pairs && q in pairs && a in p.comparatorModels && b in q.comparatorModels
        ensures a == b
      {
        assert a in models && b in models;
        SingletonOnly(models, a);
      }
    } else {
      var a :| a in models;
      assert models - {a} != {} by { assert |models - {a}| == |models| - 1; }
      var b :| b in models - {a};
    }
  }

  predicate Votes(p: Pair, k: Key, w: Winner) { KeyOf(p) == k && p.winner == w }

  ghost predicate Once(pairs: seq<Pair>, k: Key, w: Winner) { exists i :: 0 <= i < |pairs| && Votes(pairs[i], k, w) }

  ghost predicate Twice(pairs: seq<Pair>, k: Key, w: Winner)
  {
    exists i, j :: 0 <= i < j < |pairs| && Votes(pairs[i], k, w) && Votes(pairs[j], k, w)
  }

  lemma OneMoreVote(init: seq<Pair>, last: Pair, k: Key, w: Winner)
    ensures var pairs := init + [last];
            && (Once(pairs, k, w) <==> Once(init, k, w) || Votes(last, k, w))
            && (Twice(pairs, k, w) <==> Twice(init, k, w) || (Once(init, k, w) && Votes(last, k, w)))
  {
    hide Votes;
    var pairs, n := init + [last], |init|;
    assert forall i :: 0 <= i <= n ==> pairs[i] == if i < n then init[i] else last;
    if Once(init, k, w) {
      var i :| 0 <= i < n && Votes(init[i], k, w);
      assert Votes(pairs[i], k, w) && (Votes(last, k, w) ==> Votes(pairs[n], k, w));
    }
    if Twice(init, k, w) {
      var i, j :| 0 <= i < j < n && Votes(init[i], k, w) && Votes(init[j], k, w);
      assert Votes(pairs[i], k, w) && Votes(pairs[j], k, w);
    }
    if Votes(last, k, w) { assert Votes(pairs[n], k, w); }
  }

  lemma OneMoreCounted(pairs: seq<Pair>, k: Key, w: Winner)
    requires pairs != []
    ensures Count(Winners(Of(pairs, k)), w)
            == Count(Winners(Of(pairs[..|pairs| - 1], k)), w) + if Votes(pairs[|pairs| - 1], k, w) then 1 else 0
  {
    var init, last := pairs[..|pairs| - 1], pairs[|pairs| - 1];
    CountIs(Winners(Of(init, k)), w);
    CountIs(Winners(Of(pairs, k)), w);
    assert Winners(Of(pairs, k)) == Winners(Of(init, k)) + if KeyOf(last) == k then [last.winner] else [];
  }

  lemma {:induction false} VotesCounted(pairs: seq<Pair>, k: Key, w: Winner)
    ensures Count(Winners(Of(pairs, k)), w) >= 1 <==> Once(pairs, k, w)
    ensures Count(Winners(Of(pairs, k)), w) >= 2 <==> Twice(pairs, k, w)
  {
    if pairs != [] {
      var init, last := pairs[..|pairs| - 1], pairs[|pairs| - 1];
      VotesCounted(init, k, w);
      assert pairs == init + [last];
      OneMoreVote(init, last, k, w);
      OneMoreCounted(pairs, k, w);
      hide Once, Twice, Of, Count;
    }
  }

  lemma WinsIffCounted(run: Run, comparison: string, c: Case, w: Winner)
    ensures Wins(run, comparison, c, w) <==> Count(Winners(Of(run.pairs, (comparison, c.id))), w) >= 2
  {
    var k := (comparison, c.id);
    VotesCounted(run.pairs, k, w);
    if Wins(run, comparison, c, w) {
      var i, j :| 0 <= i < j < |run.pairs|
                  && run.pairs[i].comparison == run.pairs[j].comparison == comparison
                  && run.pairs[i].caseId == run.pairs[j].caseId == c.id
                  && run.pairs[i].winner == run.pairs[j].winner == w;
      assert Votes(run.pairs[i], k, w) && Votes(run.pairs[j], k, w);
    }
    if Twice(run.pairs, k, w) {
      var i, j :| 0 <= i < j < |run.pairs| && Votes(run.pairs[i], k, w) && Votes(run.pairs[j], k, w);
      assert KeyOf(run.pairs[i]) == k && KeyOf(run.pairs[j]) == k;
    }
  }

  lemma WonAreWonCases(run: Run, comparison: string, skill: string, w: Winner)
    requires run.selection.split == "holdout" && run.selection.caseIds == []
    ensures Won(run, (comparison, skill), w) == WonCases(run, comparison, skill, w)
  {
    hide Wins;
    SelectedIsHoldout(run);
    forall c
      ensures Wins(run, comparison, c, w) <==> Count(Winners(Of(run.pairs, (comparison, c.id))), w) >= 2
    {
      WinsIffCounted(run, comparison, c, w);
    }
    forall id
      ensures id in Won(run, (comparison, skill), w) <==> id in WonCases(run, comparison, skill, w)
    {
      if id in CasesOf(run, skill) {
        var c :| c in SelectedCases(run) && c.skill == skill && c.id == id;
        assert Holdout(run, c);
      }
    }
  }

  lemma JustifiedIffProven(run: Run, comparison: string, skill: string)
    requires run.selection.split == "holdout" && run.selection.caseIds == []
    ensures CellJustified(run, (comparison, skill)) <==> Proven(run, comparison, skill)
  {
    hide PValue, FingerprintOf, WonCases, Won;
    SelectedIsHoldout(run);
    WonAreWonCases(run, comparison, skill, Treatment);
    WonAreWonCases(run, comparison, skill, Control);
    forall id
      ensures id in CasesOf(run, skill) <==> exists c :: Holdout(run, c) && c.skill == skill && c.id == id
    {
    }
  }

  lemma ModelsAgree(run: Run)
    requires run.pairs != []
    ensures OneModelEach(run) <==>
              && (forall p :: p in run.pairs ==> BothProviders(p)) && |AgentModels(run.pairs)| == 1
              && (run.selection.verifierOnly || |ComparatorModels(run.pairs)| <= 1)
  {
    OneAgentModel(run.pairs);
    OneComparatorModel(run.pairs);
  }

  lemma CellsAgree(run: Run, release: seq<string>)
    requires run.selection.split == "holdout" && run.selection.caseIds == []
    ensures (forall id, skill :: id in release && skill in SelectedSkills(run) ==> CellJustified(run, (id, skill)))
            <==> forall id, c :: id in release && Holdout(run, c) ==> Proven(run, id, c.skill)
  {
    hide CellJustified, Proven;
    SelectedIsHoldout(run);
    forall id, skill
      ensures CellJustified(run, (id, skill)) <==> Proven(run, id, skill)
    {
      JustifiedIffProven(run, id, skill);
    }
    forall c | Holdout(run, c)
      ensures c.skill in SelectedSkills(run)
    {
      assert c in SelectedCases(run);
    }
  }

  lemma ReleaseIdsAreThose(suite: Suite, release: seq<string>)
    ensures ReleaseIds(suite) == Some(release) <==> Releases(suite, release)
  {
  }

  lemma NamesAgree(run: Run, release: seq<string>)
    ensures (forall id :: id in release ==> id in ComparisonIds(run.comparisons))
            <==> forall id :: id in release ==> exists m :: m in run.comparisons && m.id == id
  {
  }

  /**
   Under the comparisons that release, a run is justified, and so authorised, if and only if it is
   warranted: a holdout run of the declared comparisons under a good plan, in which every holdout case
   was observed in all three repetitions of every comparison and nothing else was, every pair is clean,
   one list of models answered throughout, and every skill is proven under every release comparison.
  */
  lemma JustifiedIffWarranted(run: Run, release: seq<string>)
    ensures ReleaseIds(run.suite) == Some(release) && Justified(run, release) <==> Warranted(run, release)
  {
    hide CellJustified, Proven, Exact, Complete, PlanHolds, GoodPlan, ProfileHolds, GoodComparisons, SoundPair, Clean;
    hide OneModelEach, AgentModels, ComparatorModels, SelectedSkills, BothProviders, ComparisonIds, Holdout;
    hide ReleaseIds, Releases, Requested;
    ReleaseIdsAreThose(run.suite, release);
    ExactIffComplete(run);
    ProfileHoldsIffGood(run);
    NamesAgree(run, release);
    if run.pairs != [] { ModelsAgree(run); }
    forall p
      ensures SoundPair(run, p) <==> Clean(run, p)
    {
      SoundIffClean(run, p);
    }
    if run.selection.split == "holdout" && run.selection.caseIds == [] {
      CellsAgree(run, release);
      if run.plan.Some? { PlanHoldsIffGood(run, run.plan.value); }
    }
  }

  // ---------- Other runs ----------

  /** The case was observed in exactly the three repetitions that its comparison asks for. */
  ghost predicate ThreeTimes(run: Run, k: Key)
  {
    RepetitionsOf(run.comparisons, k.0) == Some(3) && multiset(Repetitions(Of(run.pairs, k))) == multiset{0, 1, 2}
  }

  predicate CleanOf(p: Pair, c: Case, verifierOnly: bool)
  {
    && p.completed && p.treatment.completed && p.treatment.passed && CriticalHold(p.treatment, c)
    && (verifierOnly || !p.positionBias)
  }

  lemma SummaryIsSound(group: seq<Pair>, repetitions: int, c: Case, comparison: string, fingerprint: string,
          verifierOnly: bool)
    ensures Sound(Summarise(group, repetitions, c, comparison, fingerprint), verifierOnly) <==>
              && repetitions == 3 && multiset(Repetitions(group)) == multiset{0, 1, 2}
              && forall p :: p in group ==> CleanOf(p, c, verifierOnly)
  {
    hide CriticalHold, Repetitions, InOrder, Verdict, Winners;
    SummaryMeans(group, repetitions, c, comparison, fingerprint);
  }

  lemma SoundMeans(run: Run, k: Key)
    requires Parsed(run) && Known(run, k)
    ensures Sound(OutcomeOf(run, k), run.selection.verifierOnly) <==>
              ThreeTimes(run, k) && forall p :: p in run.pairs && KeyOf(p) == k ==> Clean(run, p)
  {
    hide Sound, Summarise, Repetitions, FingerprintOf;
    var c, group := CaseOf(run.suite.cases, k.1).value, Of(run.pairs, k);
    SummaryIsSound(group, RepetitionsOf(run.comparisons, k.0).value, c, k.0, FingerprintOf(run, k.1),
                   run.selection.verifierOnly);
    forall p
      ensures p in group <==> p in run.pairs && KeyOf(p) == k
      ensures p in group ==> (CleanOf(p, c, run.selection.verifierOnly) <==> Clean(run, p))
    {
      OfTells(run.pairs, k, p);
      if p in group { CleanOfItsCase(run, p, c); }
    }
  }

  lemma CleanOfItsCase(run: Run, p: Pair, c: Case)
    requires Parsed(run) && c in run.suite.cases && c.id == p.caseId
    ensures CleanOf(p, c, run.selection.verifierOnly) <==> Clean(run, p)
  {
  }

  /** What a run that releases nothing must be to pass. */
  ghost predicate Passable(run: Run)
  {
    && run.pairs != [] && Complete(run) && OneModelEach(run)
    && forall p :: p in run.pairs ==> ThreeTimes(run, KeyOf(p)) && Clean(run, p)
  }

  /**
   Any other run passes if and only if exactly the requested cases were observed, each three times under
   every comparison, every pair is clean, and one list of models answered throughout.
  */
  lemma PassesIffPassable(run: Run, outcomes: seq<Outcome>)
    requires Parsed(run) && Summarised(run, outcomes, Keys(run.pairs))
    ensures DevelopmentGates(run, outcomes) <==> Passable(run)
  {
    hide MatrixExact, Expected, Complete, Clean, OneModelEach, AgentModels, ComparatorModels, ThreeTimes, Parsed;
    MatrixExactIff(Triples(run.pairs), Expected(run));
    ExactIffComplete(run);
    Inhabited(run, outcomes);
    if run.pairs != [] { ModelsAgree(run); }
    SoundOutcomesMean(run, outcomes);
  }

  lemma SoundOutcomesMean(run: Run, outcomes: seq<Outcome>)
    requires Parsed(run) && Summarised(run, outcomes, Keys(run.pairs))
    ensures AllSound(outcomes, run.selection.verifierOnly) <==>
              forall p :: p in run.pairs ==> ThreeTimes(run, KeyOf(p)) && Clean(run, p)
  {
    hide Sound, ThreeTimes, Clean, OutcomeOf, Parsed;
    forall o | o in outcomes
      ensures Sound(o, run.selection.verifierOnly) <==>
                ThreeTimes(run, (o.comparison, o.caseId))
                && forall p :: p in run.pairs && KeyOf(p) == (o.comparison, o.caseId) ==> Clean(run, p)
    {
      SoundMeans(run, (o.comparison, o.caseId));
    }
    forall p | p in run.pairs
      ensures KeyOf(p) in Keys(run.pairs) && OutcomeOf(run, KeyOf(p)) in outcomes
    {
    }
    forall o | o in outcomes
      ensures exists p :: p in run.pairs && KeyOf(p) == (o.comparison, o.caseId)
    {
    }
  }
}
