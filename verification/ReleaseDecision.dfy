/**
 `_aggregate`: from the pairs a run observed to whether the release is authorised, and what an
 authorised release therefore rests on.
*/
module ReleaseDecision {
  import opened Options
  import opened ReleaseTables
  import SignTest

  datatype Report = Report(authorized: bool, passed: bool, outcomes: seq<Outcome>, cells: map<Key, Cell>)

  // ---------- The gates ----------

  predicate InfrastructureGate(outcomes: seq<Outcome>)
  {
    outcomes != [] && forall o :: o in outcomes ==> o.complete
  }

  predicate ObjectiveGate(outcomes: seq<Outcome>)
  {
    outcomes != [] && forall o :: o in outcomes ==> o.treatmentStable && o.criticalStable
  }

  predicate OrderGate(outcomes: seq<Outcome>, verifierOnly: bool)
  {
    verifierOnly || forall o :: o in outcomes ==> o.orderStable
  }

  /** The comparisons are the declared holdout profile. */
  predicate ProfileHolds(run: Run)
  {
    if run.suite.schema < 5 then run.comparisons == PROFILE
    else forall m :: m in run.comparisons ==> m.repetitions == 3 && m.order == "ab_ba"
  }

  predicate PlanHolds(plan: seq<PlanCase>, skills: set<string>)
  {
    && |set c | c in plan :: c.tree| == |plan|
    && |set c | c in plan :: c.fingerprint| == |plan|
    && forall skill :: skill in skills ==> |set c | c in plan && c.skill == skill :: c.fingerprint| >= MIN_HOLDOUT_CASES
  }

  /** The holdout protocol, but for the exact matrix it also demands. */
  predicate ProtocolHolds(run: Run, release: seq<string>)
  {
    && run.plan.Some? && run.authority.release && run.authority.generator && run.authority.providers
    && run.selection.caseIds == [] && run.selection.seed.None? && run.selection.comparisonIds == release
    && ProfileHolds(run) && run.authority.variantKinds
    && SelectedSkills(run) != {} && PlanHolds(run.plan.value, SelectedSkills(run))
  }

  predicate JudgedMode(run: Run)
  {
    !run.selection.verifierOnly || (run.suite.schema >= 5 && run.suite.objectiveOnly)
  }

  // ---------- What authorises a release, in terms of the pairs ----------

  /** The pair itself leaves nothing open: both arms ran, and the treatment held every critical assertion. */
  ghost predicate SoundPair(run: Run, p: Pair)
  {
    && p.completed && p.treatment.completed && p.treatment.passed
    && (forall c :: c in run.suite.cases && c.id == p.caseId ==> CriticalHold(p.treatment, c))
    && (run.selection.verifierOnly || !p.positionBias)
  }

  function CasesOf(run: Run, skill: string): set<string>
  {
    set c | c in SelectedCases(run) && c.skill == skill :: c.id
  }

  /** The cases of the skill in which `w` won at least two repetitions under the comparison. */
  function Won(run: Run, k: Key, w: Winner): set<string>
  {
    set id | id in CasesOf(run, k.1) && Count(Winners(Of(run.pairs, (k.0, id))), w) >= 2
  }

  ghost predicate CellJustified(run: Run, k: Key)
  {
    && (forall a, b :: a in CasesOf(run, k.1) && b in CasesOf(run, k.1) && a != b ==>
          FingerprintOf(run, a) != FingerprintOf(run, b))
    && Significant(|Won(run, k, Treatment)|, |Won(run, k, Control)|, MIN_HOLDOUT_CASES)
  }

  ghost predicate Exact(run: Run)
  {
    multiset(Triples(run.pairs)) == multiset(Expected(run))
  }

  ghost predicate Justified(run: Run, release: seq<string>)
  {
    && run.selection.split == "holdout" && JudgedMode(run) && ProtocolHolds(run, release)
    && Exact(run) && run.pairs != []
    && (forall p :: p in run.pairs ==> SoundPair(run, p) && BothProviders(p))
    && |AgentModels(run.pairs)| == 1
    && (run.selection.verifierOnly || |ComparatorModels(run.pairs)| <= 1)
    && (forall id :: id in release ==> id in ComparisonIds(run.comparisons))
    && (forall id, skill :: id in release && skill in SelectedSkills(run) ==> CellJustified(run, (id, skill)))
  }

  // ---------- From outcomes back to pairs ----------

  ghost predicate ThreeEach(run: Run)
  {
    Exact(run) && forall m :: m in run.comparisons ==> m.repetitions == 3
  }

  lemma ProfileIsThree(run: Run)
    requires ProfileHolds(run)
    ensures forall m :: m in run.comparisons ==> m.repetitions == 3
  {
  }

  lemma ExpectedTells(run: Run, k: Key, r: int)
    requires forall m :: m in run.comparisons ==> m.repetitions == 3
    ensures (k.0, k.1, r) in Expected(run) <==>
              && k.0 in ComparisonIds(run.comparisons)
              && (exists c :: c in SelectedCases(run) && c.id == k.1) && 0 <= r < 3
  {
    if k.0 in ComparisonIds(run.comparisons) && (exists c :: c in SelectedCases(run) && c.id == k.1) && 0 <= r < 3 {
      var m :| m in run.comparisons && m.id == k.0;
      var c :| c in SelectedCases(run) && c.id == k.1;
      assert (m.id, c.id, r) in Expected(run);
    }
  }

  /** The groups are the product of comparisons and selected cases. */
  lemma KeysAreProduct(run: Run, k: Key)
    requires ThreeEach(run)
    ensures k in Keys(run.pairs) <==>
              k.0 in ComparisonIds(run.comparisons) && exists c :: c in SelectedCases(run) && c.id == k.1
  {
    var triples := multiset(Triples(run.pairs));
    if k in Keys(run.pairs) {
      var p :| p in run.pairs && KeyOf(p) == k;
      TriplesTell(run.pairs, TripleOf(p));
      assert TripleOf(p) in triples;
      ExpectedTells(run, k, p.repetition);
    }
    ExpectedTells(run, k, 0);
    if (k.0, k.1, 0) in Expected(run) {
      assert (k.0, k.1, 0) in triples;
      TriplesTell(run.pairs, (k.0, k.1, 0));
    }
  }

  lemma GroupIsThree(run: Run, k: Key)
    requires ThreeEach(run) && k in Keys(run.pairs)
    ensures multiset(Repetitions(Of(run.pairs, k))) == multiset{0, 1, 2}
  {
    var reps := multiset(Repetitions(Of(run.pairs, k)));
    forall r: int
      ensures reps[r] == multiset{0, 1, 2}[r]
    {
      GroupCounts(run.pairs, k, r);
      KeysAreProduct(run, k);
      ExpectedTells(run, k, r);
    }
  }

  ghost predicate SoundGroup(run: Run, k: Key)
  {
    forall p :: p in run.pairs && KeyOf(p) == k ==> SoundPair(run, p)
  }

  lemma OutcomeMeans(run: Run, k: Key)
    requires Parsed(run) && ThreeEach(run) && k in Keys(run.pairs) && Known(run, k)
    ensures Sound(OutcomeOf(run, k), run.selection.verifierOnly) <==> SoundGroup(run, k)
    ensures OutcomeOf(run, k).complete ==> forall w: Winner :: w != Inconclusive ==>
              (OutcomeOf(run, k).winner == w <==> Count(Winners(Of(run.pairs, k)), w) >= 2)
  {
    GroupIsThree(run, k);
    var c := CaseOf(run.suite.cases, k.1).value;
    SummaryMeans(Of(run.pairs, k), RepetitionsOf(run.comparisons, k.0).value, c, k.0, FingerprintOf(run, k.1));
    forall p
      ensures p in Of(run.pairs, k) <==> p in run.pairs && KeyOf(p) == k
    {
      OfTells(run.pairs, k, p);
    }
    assert forall d :: d in run.suite.cases && d.id == k.1 ==> d == c;
  }

  ghost predicate AllSound(outcomes: seq<Outcome>, verifierOnly: bool)
  {
    forall o :: o in outcomes ==> Sound(o, verifierOnly)
  }

  ghost predicate AllPairsSound(run: Run) { forall p :: p in run.pairs ==> SoundPair(run, p) }

  lemma SoundOutcomes(run: Run, outcomes: seq<Outcome>)
    requires Parsed(run) && ThreeEach(run) && Summarised(run, outcomes, Keys(run.pairs))
    ensures AllSound(outcomes, run.selection.verifierOnly) <==> AllPairsSound(run)
    ensures outcomes == [] <==> run.pairs == []
  {
    forall o | o in outcomes
      ensures Sound(o, run.selection.verifierOnly) <==> SoundGroup(run, (o.comparison, o.caseId))
    {
      OutcomeMeans(run, (o.comparison, o.caseId));
    }
    forall p | p in run.pairs
      ensures OutcomeOf(run, KeyOf(p)) in outcomes
    {
      assert KeyOf(p) in Keys(run.pairs);
    }
    if AllSound(outcomes, run.selection.verifierOnly) {
      forall p | p in run.pairs
        ensures SoundPair(run, p)
      {
        var o := OutcomeOf(run, KeyOf(p));
        assert o in outcomes && (o.comparison, o.caseId) == KeyOf(p);
      }
    }
    Inhabited(run, outcomes);
  }

  lemma Inhabited(run: Run, outcomes: seq<Outcome>)
    requires Summarised(run, outcomes, Keys(run.pairs))
    ensures outcomes == [] <==> run.pairs == []
  {
    if run.pairs != [] {
      assert KeyOf(run.pairs[0]) in Keys(run.pairs);
      assert OutcomeOf(run, KeyOf(run.pairs[0])) in outcomes;
    }
    if outcomes != [] {
      assert outcomes[0] in outcomes;
      assert Keys(run.pairs) != {};
    }
  }

  /** The three gates on outcomes are one condition on the pairs. */
  lemma GatesMean(run: Run, outcomes: seq<Outcome>)
    requires Parsed(run) && ThreeEach(run) && Summarised(run, outcomes, Keys(run.pairs))
    ensures InfrastructureGate(outcomes) && ObjectiveGate(outcomes) && OrderGate(outcomes, run.selection.verifierOnly)
            <==> run.pairs != [] && AllPairsSound(run)
  {
    SoundOutcomes(run, outcomes);
  }

  // ---------- From cells back to cases ----------

  lemma {:induction false} RecordsTell(outcomes: seq<Outcome>, k: Key, o: Outcome)
    ensures o in Records(outcomes, k) <==> o in outcomes && o.comparison == k.0 && o.skill == k.1
  {
    if outcomes != [] { RecordsTell(outcomes[1..], k, o); }
  }

  lemma {:induction false} RecordsDistinct(outcomes: seq<Outcome>, k: Key)
    requires DistinctKeys(outcomes)
    ensures DistinctCases(Records(outcomes, k))
  {
    if outcomes != [] {
      RecordsDistinct(outcomes[1..], k);
      forall o | o in Records(outcomes[1..], k)
        ensures o in outcomes[1..] && o.comparison == k.0
      {
        RecordsTell(outcomes[1..], k, o);
      }
    }
  }

  predicate DistinctCases(records: seq<Outcome>)
  {
    forall i, j :: 0 <= i < j < |records| ==> records[i].caseId != records[j].caseId
  }

  function CaseIds(records: seq<Outcome>, w: Winner): set<string> { set o | o in records && o.winner == w :: o.caseId }

  lemma {:induction false} TallyCountsCases(records: seq<Outcome>, w: Winner)
    requires DistinctCases(records)
    ensures Tally(records, w) == |CaseIds(records, w)|
  {
    if records != [] {
      TallyCountsCases(records[1..], w);
      FirstCase(records, w);
    }
  }

  lemma FirstCase(records: seq<Outcome>, w: Winner)
    requires records != [] && DistinctCases(records)
    ensures records[0].caseId !in CaseIds(records[1..], w)
    ensures CaseIds(records, w) == CaseIds(records[1..], w) + if records[0].winner == w then {records[0].caseId} else {}
  {
    assert records == [records[0]] + records[1..];
    forall o | o in records[1..]
      ensures o.caseId != records[0].caseId
    {
      var j :| 0 <= j < |records[1..]| && records[1..][j] == o;
      assert records[j + 1] == o;
    }
  }

  /** The records of a cell are the skill's selected cases. */
  lemma RecordsAreCases(run: Run, outcomes: seq<Outcome>, k: Key, id: string)
    requires Parsed(run) && ThreeEach(run) && Summarised(run, outcomes, Keys(run.pairs))
    requires k.0 in ComparisonIds(run.comparisons)
    ensures id in CasesOf(run, k.1) <==> exists o :: o in Records(outcomes, k) && o.caseId == id
    ensures id in CasesOf(run, k.1) ==> Known(run, (k.0, id)) && OutcomeOf(run, (k.0, id)) in Records(outcomes, k)
  {
    KeysAreProduct(run, (k.0, id));
    if o :| o in Records(outcomes, k) && o.caseId == id {
      RecordsTell(outcomes, k, o);
      var c := CaseOf(run.suite.cases, id).value;
      assert o.skill == c.skill;
    }
    if id in CasesOf(run, k.1) {
      var c :| c in SelectedCases(run) && c.skill == k.1 && c.id == id;
      assert (k.0, id) in Keys(run.pairs);
      assert CaseOf(run.suite.cases, id).value == c;
      RecordsTell(outcomes, k, OutcomeOf(run, (k.0, id)));
    }
  }

  lemma TallyIsWon(run: Run, outcomes: seq<Outcome>, k: Key, w: Winner)
    requires Parsed(run) && ThreeEach(run) && Summarised(run, outcomes, Keys(run.pairs))
    requires k.0 in ComparisonIds(run.comparisons) && AllSound(outcomes, run.selection.verifierOnly)
    requires w != Inconclusive
    ensures Tally(Records(outcomes, k), w) == |Won(run, k, w)|
  {
    var records := Records(outcomes, k);
    RecordsDistinct(outcomes, k);
    TallyCountsCases(records, w);
    forall id
      ensures id in CaseIds(records, w) <==> id in Won(run, k, w)
    {
      WonByRecord(run, outcomes, k, w, id);
    }
    assert CaseIds(records, w) == Won(run, k, w);
  }

  lemma WonByRecord(run: Run, outcomes: seq<Outcome>, k: Key, w: Winner, id: string)
    requires Parsed(run) && ThreeEach(run) && Summarised(run, outcomes, Keys(run.pairs))
    requires k.0 in ComparisonIds(run.comparisons) && AllSound(outcomes, run.selection.verifierOnly)
    requires w != Inconclusive
    ensures id in CaseIds(Records(outcomes, k), w) <==> id in Won(run, k, w)
  {
    RecordsAreCases(run, outcomes, k, id);
    forall o | o in Records(outcomes, k) && o.caseId == id
      ensures o == OutcomeOf(run, (k.0, id)) && o in outcomes && (k.0, id) in Keys(run.pairs)
    {
      RecordsTell(outcomes, k, o);
    }
    if id in CasesOf(run, k.1) { OutcomeMeans(run, (k.0, id)); }
  }

  lemma OneEachMeans(run: Run, outcomes: seq<Outcome>, k: Key)
    requires Parsed(run) && ThreeEach(run) && Summarised(run, outcomes, Keys(run.pairs))
    requires k.0 in ComparisonIds(run.comparisons)
    ensures OneEach(Records(outcomes, k)) <==>
              forall a, b :: a in CasesOf(run, k.1) && b in CasesOf(run, k.1) && a != b ==>
                FingerprintOf(run, a) != FingerprintOf(run, b)
  {
    var records := Records(outcomes, k);
    RecordsDistinct(outcomes, k);
    forall o | o in records
      ensures o.caseId in CasesOf(run, k.1) && o.fingerprint == FingerprintOf(run, o.caseId)
    {
      RecordsTell(outcomes, k, o);
      RecordsAreCases(run, outcomes, k, o.caseId);
    }
    if OneEach(records) {
      forall a, b | a in CasesOf(run, k.1) && b in CasesOf(run, k.1) && a != b
        ensures FingerprintOf(run, a) != FingerprintOf(run, b)
      {
        RecordsAreCases(run, outcomes, k, a);
        RecordsAreCases(run, outcomes, k, b);
        DifferentFingerprints(records, OutcomeOf(run, (k.0, a)), OutcomeOf(run, (k.0, b)));
      }
    } else {
      SharedFingerprint(records);
    }
  }

  lemma DifferentFingerprints(records: seq<Outcome>, o: Outcome, p: Outcome)
    requires OneEach(records) && o in records && p in records && o != p
    ensures o.fingerprint != p.fingerprint
  {
    var i :| 0 <= i < |records| && records[i] == o;
    var j :| 0 <= j < |records| && records[j] == p;
    assert i < j || j < i;
  }

  lemma SharedFingerprint(records: seq<Outcome>)
    requires DistinctCases(records) && !OneEach(records)
    ensures exists o, p :: o in records && p in records && o.caseId != p.caseId && o.fingerprint == p.fingerprint
  {
    var i, j :| 0 <= i < j < |records| && records[i].fingerprint == records[j].fingerprint;
    assert records[i] in records && records[j] in records && records[i].caseId != records[j].caseId;
  }

  /** On an exact matrix of sound pairs, a release cell is authorised exactly when its cases justify it. */
  lemma CellMeans(run: Run, release: seq<string>, outcomes: seq<Outcome>, k: Key)
    requires Parsed(run) && ThreeEach(run) && Summarised(run, outcomes, Keys(run.pairs))
    requires k.0 in ComparisonIds(run.comparisons) && AllSound(outcomes, run.selection.verifierOnly)
    requires k.0 in release && run.selection.split == "holdout"
    ensures Flags(run, release, outcomes, k).authorized <==> CellJustified(run, k)
  {
    var records := Records(outcomes, k);
    OneEachMeans(run, outcomes, k);
    TallyIsWon(run, outcomes, k, Treatment);
    TallyIsWon(run, outcomes, k, Control);
    if OneEach(records) { FirstsOfOneEach(records); }
    forall o | o in records
      ensures Sound(o, run.selection.verifierOnly)
    {
      RecordsTell(outcomes, k, o);
    }
  }

  // ---------- The decision ----------

  function CandidateCells(cells: map<Key, Cell>, release: seq<string>): map<Key, Cell>
  {
    map k | k in cells && k.0 in release :: cells[k]
  }

  function ExpectedCells(run: Run, release: seq<string>): set<Key>
  {
    set id, skill | id in release && skill in SelectedSkills(run) :: (id, skill)
  }

  predicate CellsAuthorize(run: Run, release: seq<string>, cells: map<Key, Cell>)
  {
    var candidates := CandidateCells(cells, release);
    && candidates.Keys == ExpectedCells(run, release) && |candidates| == |ExpectedCells(run, release)|
    && forall k :: k in candidates ==> candidates[k].authorized
  }

  lemma CellsArePresent(run: Run, release: seq<string>, outcomes: seq<Outcome>, cells: map<Key, Cell>)
    requires Parsed(run) && ThreeEach(run) && Summarised(run, outcomes, Keys(run.pairs))
    requires Judged(run, release, outcomes, cells, ComparisonIds(run.comparisons), SkillsOf(outcomes))
    requires forall id :: id in release ==> id in ComparisonIds(run.comparisons)
    ensures CandidateCells(cells, release).Keys == ExpectedCells(run, release)
  {
    forall k: Key | k.0 in release
      ensures k in cells <==> k.1 in SelectedSkills(run)
    {
      var records := Records(outcomes, k);
      if k in cells {
        assert records[0] in records;
        RecordsAreCases(run, outcomes, k, records[0].caseId);
      }
      if k.1 in SelectedSkills(run) {
        var c :| c in SelectedCases(run) && c.skill == k.1;
        RecordsAreCases(run, outcomes, k, c.id);
        RecordsTell(outcomes, k, OutcomeOf(run, (k.0, c.id)));
      }
    }
  }

  lemma CellsMean(run: Run, release: seq<string>, outcomes: seq<Outcome>, cells: map<Key, Cell>)
    requires Parsed(run) && ThreeEach(run) && Summarised(run, outcomes, Keys(run.pairs))
    requires Judged(run, release, outcomes, cells, ComparisonIds(run.comparisons), SkillsOf(outcomes))
    requires AllSound(outcomes, run.selection.verifierOnly) && run.selection.split == "holdout"
    requires forall id :: id in release ==> id in ComparisonIds(run.comparisons)
    ensures CellsAuthorize(run, release, cells)
            <==> forall id, skill :: id in release && skill in SelectedSkills(run) ==> CellJustified(run, (id, skill))
  {
    CellsArePresent(run, release, outcomes, cells);
    var candidates := CandidateCells(cells, release);
    assert |candidates| == |candidates.Keys|;
    forall k | k in candidates
      ensures candidates[k].authorized <==> CellJustified(run, k)
    {
      CellMeans(run, release, outcomes, k);
    }
    if CellsAuthorize(run, release, cells) {
      forall id, skill | id in release && skill in SelectedSkills(run)
        ensures CellJustified(run, (id, skill))
      {
        assert (id, skill) in candidates;
      }
    }
  }

  /** What the code finds when it is given the run's own tables. */
  predicate Authorized(run: Run, release: seq<string>, outcomes: seq<Outcome>, cells: map<Key, Cell>)
  {
    && run.selection.split == "holdout" && JudgedMode(run) && run.authority.generator
    && (forall id :: id in release ==> id in ComparisonIds(run.comparisons))
    && CellsAuthorize(run, release, cells)
    && MatrixExact(Triples(run.pairs), Expected(run)) && ProtocolHolds(run, release)
    && InfrastructureGate(outcomes) && ObjectiveGate(outcomes) && OrderGate(outcomes, run.selection.verifierOnly)
    && AllProviders(run.pairs) && |AgentModels(run.pairs)| == 1
    && (run.selection.verifierOnly || |ComparatorModels(run.pairs)| <= 1)
  }

  lemma AuthorizedIffJustified(run: Run, release: seq<string>, outcomes: seq<Outcome>, cells: map<Key, Cell>)
    requires Parsed(run) && Summarised(run, outcomes, Keys(run.pairs))
    requires Judged(run, release, outcomes, cells, ComparisonIds(run.comparisons), SkillsOf(outcomes))
    ensures Authorized(run, release, outcomes, cells) <==> Justified(run, release)
  {
    hide MatrixExact, Triples, Expected, Parsed, SoundPair, CellJustified, CellsAuthorize, Summarised, Judged,
         InfrastructureGate, ObjectiveGate, OrderGate, Sound;
    MatrixExactIff(Triples(run.pairs), Expected(run));
    if Exact(run) && ProtocolHolds(run, release) {
      ProfileIsThree(run);
      GatesMean(run, outcomes);
      SoundOutcomes(run, outcomes);
      if AllPairsSound(run) && run.selection.split == "holdout"
         && (forall id :: id in release ==> id in ComparisonIds(run.comparisons)) {
        CellsMean(run, release, outcomes, cells);
      }
    }
  }

  predicate DevelopmentGates(run: Run, outcomes: seq<Outcome>)
  {
    && MatrixExact(Triples(run.pairs), Expected(run)) && InfrastructureGate(outcomes) && ObjectiveGate(outcomes)
    && AllProviders(run.pairs) && |AgentModels(run.pairs)| == 1
    && (run.selection.verifierOnly || (|ComparatorModels(run.pairs)| <= 1 && OrderGate(outcomes, false)))
  }

  /**
   `_aggregate`. It raises when a pair names an unknown comparison or case, or the suite omits its
   holdout comparisons; otherwise it authorises exactly the justified releases.
  */
  method Aggregate(run: Run) returns (r: Option<Report>)
    requires Parsed(run)
    ensures r.Some? <==> ReleaseIds(run.suite).Some? && forall k :: k in Keys(run.pairs) ==> Known(run, k)
    ensures r.Some? ==> (r.value.authorized <==> Justified(run, ReleaseIds(run.suite).value))
    ensures r.Some? ==> (r.value.passed <==>
              if run.selection.split == "holdout" then r.value.authorized else DevelopmentGates(run, r.value.outcomes))
    ensures r.Some? ==> Summarised(run, r.value.outcomes, Keys(run.pairs))
    ensures r.Some? ==> Judged(run, ReleaseIds(run.suite).value, r.value.outcomes, r.value.cells,
                               ComparisonIds(run.comparisons), SkillsOf(r.value.outcomes))
  {
    hide MatrixExact, Triples, Expected, ProtocolHolds, CellsAuthorize, InfrastructureGate, ObjectiveGate, Justified;
    hide Judged;
    var matrix := MatrixExact(Triples(run.pairs), Expected(run));
    var groups := Group(run.pairs);
    var summaries := Outcomes(run, groups);
    if summaries.None? { return None; }
    var outcomes, judging := summaries.value, !run.selection.verifierOnly;
    var missing, agents, comparators := ModelSets(run.pairs);
    if ReleaseIds(run.suite).None? { return None; }
    var release, holdout := ReleaseIds(run.suite).value, run.selection.split == "holdout";
    var infrastructure, objective := InfrastructureGate(outcomes), ObjectiveGate(outcomes);
    var generator := !missing && |agents| == 1;
    var comparator := !judging || |comparators| <= 1;
    var order := OrderGate(outcomes, !judging);
    var protocol := !holdout || (ProtocolHolds(run, release) && matrix);
    var cells := JudgeCells(run, release, outcomes);
    var present := (set id | id in ComparisonIds(run.comparisons) && id in release) == (set id | id in release);
    var gates := matrix && infrastructure && objective && generator && comparator && order && protocol;
    var authorized := holdout && JudgedMode(run) && run.authority.generator && present
                      && CellsAuthorize(run, release, cells) && gates;
    PresentMeans(ComparisonIds(run.comparisons), release);
    AuthorizedIffJustified(run, release, outcomes, cells);
    var passed := if holdout then authorized
                  else if !judging then matrix && infrastructure && objective && generator
                  else gates;
    r := Some(Report(authorized, passed, outcomes, cells));
  }

  lemma PresentMeans(ids: set<string>, release: seq<string>)
    ensures (set id | id in ids && id in release) == (set id | id in release) <==>
              forall id :: id in release ==> id in ids
  {
    var present, asked := set id | id in ids && id in release, set id | id in release;
    assert present <= asked;
    if present == asked {
      forall id | id in release
        ensures id in ids
      {
        assert id in asked;
      }
    }
  }

  // ---------- What an authorised release rests on ----------

  lemma {:induction false} InjectiveImage(xs: set<string>, f: string -> string)
    requires forall a, b :: a in xs && b in xs && a != b ==> f(a) != f(b)
    ensures |set x | x in xs :: f(x)| == |xs|
    decreases |xs|
  {
    var image := set x | x in xs :: f(x);
    if xs == {} {
      assert image == {};
    } else {
      var x :| x in xs;
      InjectiveImage(xs - {x}, f);
      assert image == (set y | y in xs - {x} :: f(y)) + {f(x)};
      assert f(x) !in set y | y in xs - {x} :: f(y);
    }
  }

  /** No case is won by both sides. */
  lemma WonByOne(run: Run, k: Key)
    requires ThreeEach(run) && k.0 in ComparisonIds(run.comparisons)
    ensures Won(run, k, Treatment) !! Won(run, k, Control)
  {
    forall id | id in Won(run, k, Treatment) && id in Won(run, k, Control)
      ensures false
    {
      KeysAreProduct(run, (k.0, id));
      GroupIsThree(run, (k.0, id));
      var group := Of(run.pairs, (k.0, id));
      assert |multiset(Repetitions(group))| == 3;
      TwoCounts(Winners(group), Treatment, Control);
    }
  }

  /** The fingerprints of the cases that either side won. */
  function Informative(run: Run, k: Key): set<string>
  {
    set id | id in Won(run, k, Treatment) + Won(run, k, Control) :: FingerprintOf(run, id)
  }

  lemma InformativeCount(run: Run, k: Key)
    requires ThreeEach(run) && k.0 in ComparisonIds(run.comparisons)
    requires forall a, b :: a in CasesOf(run, k.1) && b in CasesOf(run, k.1) && a != b ==>
              FingerprintOf(run, a) != FingerprintOf(run, b)
    ensures |Informative(run, k)| == |Won(run, k, Treatment)| + |Won(run, k, Control)|
  {
    var wins, losses, f := Won(run, k, Treatment), Won(run, k, Control), id => FingerprintOf(run, id);
    WonByOne(run, k);
    assert |wins + losses| == |wins| + |losses|;
    InjectiveImage(wins + losses, f);
    assert Informative(run, k) == set id | id in wins + losses :: f(id);
  }

  lemma SignificantEight(wins: nat, losses: nat)
    ensures Significant(wins, losses, 8) ==> wins >= 7 && wins > losses
  {
    if wins + losses < 8 { return; }
    SignTest.HalfIffMoreWins(wins, losses);
    SignTest.EightCasesNeedSevenWins(wins, losses);
  }

  /**
   For every release comparison and every selected skill of a justified release: at least eight
   distinct task contents decided, at least seven of them, and more than half, for the treatment.
  */
  lemma JustifiedCellsFavourTheTreatment(run: Run, release: seq<string>, k: Key)
    ensures Justified(run, release) && k.0 in release && k.1 in SelectedSkills(run) ==>
              && |Informative(run, k)| >= 8
              && |Won(run, k, Treatment)| >= 7 && |Won(run, k, Treatment)| > |Won(run, k, Control)|
  {
    if Justified(run, release) && k.0 in release && k.1 in SelectedSkills(run) {
      assert CellJustified(run, k) by { assert k == (k.0, k.1); }
      ProfileIsThree(run);
      InformativeCount(run, k);
      SignificantEight(|Won(run, k, Treatment)|, |Won(run, k, Control)|);
    }
  }

  /**
   The pairs of a justified release are exactly comparison x holdout case x {0, 1, 2}, each observed
   once, and in every one of them the treatment passed with every critical assertion of its case.
  */
  lemma JustifiedPairsAreTheProduct(run: Run, release: seq<string>, t: Triple)
    requires Justified(run, release)
    ensures multiset(Triples(run.pairs))[t] ==
              if (exists m :: m in run.comparisons && m.id == t.0) && 0 <= t.2 < 3
                 && exists c :: c in run.suite.cases && c.split == "holdout" && c.id == t.1
              then 1 else 0
    ensures forall p, c :: p in run.pairs && c in run.suite.cases && c.id == p.caseId ==>
              p.treatment.completed && p.treatment.passed && CriticalHold(p.treatment, c)
  {
    ProfileIsThree(run);
    ExpectedTells(run, (t.0, t.1), t.2);
    assert forall c :: c in SelectedCases(run) <==> c in run.suite.cases && c.split == "holdout";
    assert multiset(Triples(run.pairs))[t] == multiset(Expected(run))[t];
    forall p | p in run.pairs
      ensures SoundPair(run, p)
    {
    }
  }
}
