/**
 The second reader of the spend journal.

 At the end of a run `_comparator_cost_accounting` reads every comparison's records again, with its
 own tables and its own checks, to total the known cost. It must agree with the replay that restores
 a ledger, except that it ignores the cap and refuses reservations left open.
*/
module CostAccounting {
  import opened Options
  import opened SpendJournal

  datatype Kind = Historic | Reconciled | Forfeited
  datatype Held = Held(amount: real, binding: Binding)
  datatype Terminal = Terminal(kind: Kind, cost: real, binding: Binding)

  /** The tables for one comparison, and what it has added to the running totals. */
  datatype Tables = Tables(reserved: map<AttemptId, Held>, terminal: map<AttemptId, Terminal>, known: real,
          unknown: nat)

  const NO_TABLES := Tables(map[], map[], 0.0, 0)

  /** One record of the accounting loop; None is a raised RunnerError. */
  function AccountStep(t: Tables, r: Record): Option<Tables>
  {
    match r
    case Reserve(id, binding, amount) =>
      if amount <= 0.0 || id in t.reserved || id in t.terminal then None
      else Some(t.(reserved := t.reserved[id := Held(amount, binding)]))
    case Historical(id, binding, cost) =>
      if id in t.reserved || id in t.terminal || cost < 0.0 then None
      else Some(t.(terminal := t.terminal[id := Terminal(Historic, cost, binding)], known := t.known + cost))
    case Reconcile(id, binding, cost) =>
      if !MayClose(t, id, binding, cost) then None
      else Some(t.(terminal := t.terminal[id := Terminal(Reconciled, cost, binding)], known := t.known + cost))
    case Forfeit(id, binding, cost) =>
      if !MayClose(t, id, binding, cost) || cost != t.reserved[id].amount then None
      else Some(t.(terminal := t.terminal[id := Terminal(Forfeited, cost, binding)], unknown := t.unknown + 1))
    case Malformed => None
  }

  predicate MayClose(t: Tables, id: AttemptId, binding: Binding, cost: real)
  {
    && id in t.reserved && id !in t.terminal
    && 0.0 <= cost <= t.reserved[id].amount && binding == t.reserved[id].binding
  }

  function AccountAll(rs: seq<Record>): Option<Tables>
  {
    if rs == [] then Some(NO_TABLES) else
    match AccountAll(rs[..|rs| - 1])
    case None => None
    case Some(t) => AccountStep(t, rs[|rs| - 1])
  }

  /** No reservation without its reconcile or forfeit. */
  predicate Terminated(t: Tables)
  {
    t.reserved.Keys == set id | id in t.terminal && t.terminal[id].kind != Historic
  }

  ghost predicate Accepted(rs: seq<Record>)
  {
    AccountAll(rs).Some? && Terminated(AccountAll(rs).value)
  }

  // ---------- The method ----------

  /** The totals of the first `n` comparisons. */
  ghost function KnownCost(journals: seq<seq<Record>>): real
    requires forall i :: 0 <= i < |journals| ==> AccountAll(journals[i]).Some?
  {
    if journals == [] then 0.0
    else KnownCost(journals[..|journals| - 1]) + AccountAll(journals[|journals| - 1]).value.known
  }

  ghost function UnknownCount(journals: seq<seq<Record>>): nat
    requires forall i :: 0 <= i < |journals| ==> AccountAll(journals[i]).Some?
  {
    if journals == [] then 0
    else UnknownCount(journals[..|journals| - 1]) + AccountAll(journals[|journals| - 1]).value.unknown
  }

  /** One comparison's terminals under the keys of the shared dictionary. */
  function Keyed(comparison: string, own: map<AttemptId, Terminal>): map<(string, AttemptId), Terminal>
  {
    map key: (string, AttemptId) | key in set id | id in own :: (comparison, id) :: own[key.1]
  }

  /** The one dictionary of terminals, keyed by comparison and attempt. */
  ghost function Terminals(comparisons: seq<string>, journals: seq<seq<Record>>): map<(string, AttemptId), Terminal>
    requires |comparisons| == |journals|
    requires forall i :: 0 <= i < |journals| ==> AccountAll(journals[i]).Some?
  {
    if journals == [] then map[] else
      var n := |journals| - 1;
      Terminals(comparisons[..n], journals[..n]) + Keyed(comparisons[n], AccountAll(journals[n]).value.terminal)
  }

  /** What the two loops ask for. */
  ghost predicate AccountedFor(comparisons: seq<string>, journals: seq<seq<Record>>, pairs: seq<Pair>)
    requires |comparisons| == |journals|
  {
    && (forall i :: 0 <= i < |journals| ==> comparisons[i] != "" && Accepted(journals[i]))
    && (forall p :: p in pairs ==> p.comparison != "")
    && ClaimsHold(Terminals(comparisons, journals), Claims(pairs))
  }

  /**
   `_comparator_cost_accounting`: the records of every comparison, and then the trials, each of which
   must be the reconciled call of its attempt. One dictionary of terminals serves all comparisons; the
   reservations of each start empty.
  */
  method Account(comparisons: seq<string>, journals: seq<seq<Record>>, pairs: seq<Pair>)
    returns (totals: Option<(real, nat)>)
    requires |comparisons| == |journals|
    requires forall i, j :: 0 <= i < j < |comparisons| ==> comparisons[i] != comparisons[j]
    ensures totals.Some? <==> AccountedFor(comparisons, journals, pairs)
    ensures totals.Some? ==> totals.value == (KnownCost(journals), UnknownCount(journals))
  {
    hide Accepted, AccountAll, ClaimsHold, Claims;
    var terminals, sums := AccountRecords(comparisons, journals);
    if terminals.None? { return None; }
    var matched := MatchTrials(terminals.value, pairs);
    totals := if matched then Some(sums) else None;
  }

  /** The first loop. */
  method AccountRecords(comparisons: seq<string>, journals: seq<seq<Record>>)
    returns (terminals: Option<map<(string, AttemptId), Terminal>>, totals: (real, nat))
    requires |comparisons| == |journals|
    requires forall i, j :: 0 <= i < j < |comparisons| ==> comparisons[i] != comparisons[j]
    ensures terminals.Some? <==> forall i :: 0 <= i < |journals| ==> comparisons[i] != "" && Accepted(journals[i])
    ensures terminals.Some? ==> terminals.value == Terminals(comparisons, journals)
    ensures terminals.Some? ==> totals == (KnownCost(journals), UnknownCount(journals))
  {
    hide AccountAll, Accepted, KnownCost, UnknownCount, Terminals, Keyed;
    var terminalByAttempt: map<(string, AttemptId), Terminal> := map[];
    var known, unknown: nat := 0.0, 0;
    NoTotals(comparisons, journals);
    for c := 0 to |comparisons|
      invariant forall i :: 0 <= i < c ==> comparisons[i] != "" && Accepted(journals[i])
      invariant forall i :: 0 <= i < c ==> AccountAll(journals[i]).Some?
      invariant known == KnownCost(journals[..c]) && unknown == UnknownCount(journals[..c])
      invariant terminalByAttempt == Terminals(comparisons[..c], journals[..c])
      invariant forall key :: key in terminalByAttempt ==> key.0 in comparisons[..c]
    {
      if comparisons[c] == "" { return None, (0.0, 0); }
      var table, dKnown, dUnknown := AccountOne(comparisons[c], journals[c], terminalByAttempt);
      if table.None? { return None, (0.0, 0); }
      terminalByAttempt, known, unknown := table.value, known + dKnown, unknown + dUnknown;
      TotalsGrow(comparisons, journals, c);
      KeyedKeys(comparisons[c], AccountAll(journals[c]).value.terminal);
      assert comparisons[..c + 1] == comparisons[..c] + [comparisons[c]];
    }
    assert journals[..|journals|] == journals && comparisons[..|comparisons|] == comparisons;
    terminals, totals := Some(terminalByAttempt), (known, unknown);
  }

  lemma TotalsGrow(comparisons: seq<string>, journals: seq<seq<Record>>, c: nat)
    requires c < |comparisons| == |journals| && forall i :: 0 <= i <= c ==> Accepted(journals[i])
    ensures (forall i :: 0 <= i <= c ==> AccountAll(journals[i]).Some?)
    ensures var t := AccountAll(journals[c]).value;
            && KnownCost(journals[..c + 1]) == KnownCost(journals[..c]) + t.known
            && UnknownCount(journals[..c + 1]) == UnknownCount(journals[..c]) + t.unknown
            && Terminals(comparisons[..c + 1], journals[..c + 1])
               == Terminals(comparisons[..c], journals[..c]) + Keyed(comparisons[c], t.terminal)
  {
    hide AccountAll, Keyed;
    assert journals[..c + 1][..c] == journals[..c] && comparisons[..c + 1][..c] == comparisons[..c];
  }

  lemma NoTotals(comparisons: seq<string>, journals: seq<seq<Record>>)
    ensures KnownCost(journals[..0]) == 0.0 && UnknownCount(journals[..0]) == 0
    ensures Terminals(comparisons[..0], journals[..0]) == map[]
  {
  }

  lemma KeyedKeys(comparison: string, own: map<AttemptId, Terminal>)
    ensures forall key :: key in Keyed(comparison, own) ==> key.0 == comparison
  {
  }

  lemma NoRecords(shared: map<(string, AttemptId), Terminal>, comparison: string)
    ensures AccountAll([]) == Some(NO_TABLES) && shared + Keyed(comparison, map[]) == shared
  {
  }

  /** The table entry of a record that closes an attempt. */
  function Closing(r: Record): Terminal
    requires !r.Malformed? && !r.Reserve?
  {
    Terminal(if r.Historical? then Historic else if r.Forfeit? then Forfeited else Reconciled, r.charged, r.binding)
  }

  method AccountOne(comparison: string, rs: seq<Record>, shared: map<(string, AttemptId), Terminal>)
    returns (result: Option<map<(string, AttemptId), Terminal>>, known: real, unknown: nat)
    requires forall key :: key in shared ==> key.0 != comparison
    ensures result.Some? <==> Accepted(rs)
    ensures result.Some? ==> known == AccountAll(rs).value.known && unknown == AccountAll(rs).value.unknown
    ensures result.Some? ==> result.value == shared + Keyed(comparison, AccountAll(rs).value.terminal)
  {
    hide Keyed, AccountAll;
    var terminal, reserved: map<AttemptId, Held> := shared, map[];
    known, unknown := 0.0, 0;
    NoRecords(shared, comparison);
    ghost var own: map<AttemptId, Terminal> := map[];
    assert rs[..0] == [];
    for i := 0 to |rs|
      invariant AccountAll(rs[..i]) == Some(Tables(reserved, own, known, unknown))
      invariant terminal == shared + Keyed(comparison, own)
    {
      var r := rs[i];
      AccountThrough(rs, i);
      if r.Malformed? { return None, 0.0, 0; }
      var identity := (comparison, r.id);
      OwnKeys(shared, comparison, own, r.id);
      if r.Reserve? {
        if r.reserved <= 0.0 || r.id in reserved || identity in terminal { return None, 0.0, 0; }
        reserved := reserved[r.id := Held(r.reserved, r.binding)];
      } else if r.Historical? {
        if r.id in reserved || identity in terminal || r.charged < 0.0 { return None, 0.0, 0; }
        OwnUpdate(shared, comparison, own, r.id, Closing(r));
        own, terminal := own[r.id := Closing(r)], terminal[identity := Closing(r)];
        known := known + r.charged;
      } else {
        if r.id !in reserved || identity in terminal { return None, 0.0, 0; }
        if r.charged < 0.0 || r.charged > reserved[r.id].amount { return None, 0.0, 0; }
        if r.Forfeit? && r.charged != reserved[r.id].amount { return None, 0.0, 0; }
        if r.binding != reserved[r.id].binding { return None, 0.0, 0; }
        OwnUpdate(shared, comparison, own, r.id, Closing(r));
        own, terminal := own[r.id := Closing(r)], terminal[identity := Closing(r)];
        if r.Forfeit? { unknown := unknown + 1; } else { known := known + r.charged; }
      }
    }
    assert rs[..|rs|] == rs;
    var closed := set key | key in terminal && key.0 == comparison && terminal[key].kind != Historic :: key.1;
    ClosedIds(shared, comparison, own);
    result := if reserved.Keys != closed then None else Some(terminal);
  }

  /** Seen from one comparison the shared dictionary is its own. */
  lemma OwnKeys(shared: map<(string, AttemptId), Terminal>, comparison: string, own: map<AttemptId, Terminal>,
          id: AttemptId)
    requires forall key :: key in shared ==> key.0 != comparison
    ensures (comparison, id) in shared + Keyed(comparison, own) <==> id in own
  {
  }

  lemma OwnUpdate(shared: map<(string, AttemptId), Terminal>, comparison: string, own: map<AttemptId, Terminal>,
                  id: AttemptId, t: Terminal)
    requires forall key :: key in shared ==> key.0 != comparison
    ensures (shared + Keyed(comparison, own))[(comparison, id) := t] == shared + Keyed(comparison, own[id := t])
  {
  }

  lemma ClosedIds(shared: map<(string, AttemptId), Terminal>, comparison: string, own: map<AttemptId, Terminal>)
    requires forall key :: key in shared ==> key.0 != comparison
    ensures var terminal := shared + Keyed(comparison, own);
            (set key | key in terminal && key.0 == comparison && terminal[key].kind != Historic :: key.1)
            == set id | id in own && own[id].kind != Historic
  {
    var terminal := shared + Keyed(comparison, own);
    forall id | id in own
      ensures (comparison, id) in terminal && terminal[(comparison, id)] == own[id]
    {
      OwnKeys(shared, comparison, own, id);
    }
  }

  // ---------- The trials ----------

  /** What a trial claims; None where a field is missing or malformed. */
  datatype Trial = Trial(attempt: Option<AttemptId>, binding: Option<Binding>, transportRequest: Option<Digest>,
                         providerCost: Option<real>, transportCost: Option<real>)
  datatype Pair = Pair(comparison: string, trials: seq<Trial>)
  datatype Claim = Claim(comparison: string, trial: Trial)

  function PairClaims(p: Pair): seq<Claim>
  {
    seq(|p.trials|, i requires 0 <= i < |p.trials| => Claim(p.comparison, p.trials[i]))
  }

  function Claims(pairs: seq<Pair>): seq<Claim>
  {
    if pairs == [] then [] else Claims(pairs[..|pairs| - 1]) + PairClaims(pairs[|pairs| - 1])
  }

  /** The claim is borne out by the journal: the call was reconciled, under this binding, at this cost. */
  predicate Matched(terminals: map<(string, AttemptId), Terminal>, c: Claim)
  {
    var t := c.trial;
    && t.attempt.Some? && (c.comparison, t.attempt.value) in terminals
    && var terminal := terminals[(c.comparison, t.attempt.value)];
    && terminal.kind == Reconciled && t.binding == Some(terminal.binding)
    && t.transportRequest == Some(terminal.binding.request)
    && t.providerCost == t.transportCost == Some(terminal.cost) && terminal.cost >= 0.0
  }

  function Claimed(claims: seq<Claim>): set<(string, AttemptId)>
  {
    set c | c in claims && c.trial.attempt.Some? :: (c.comparison, c.trial.attempt.value)
  }

  /** Every claim is borne out, and no two claim the same attempt. */
  ghost predicate ClaimsHold(terminals: map<(string, AttemptId), Terminal>, claims: seq<Claim>)
  {
    && (forall i :: 0 <= i < |claims| ==> Matched(terminals, claims[i]))
    && forall i, j :: 0 <= i < j < |claims| ==>
         (claims[i].comparison, claims[i].trial.attempt) != (claims[j].comparison, claims[j].trial.attempt)
  }

  lemma OneMoreClaim(terminals: map<(string, AttemptId), Terminal>, claims: seq<Claim>, c: Claim)
    requires ClaimsHold(terminals, claims)
    ensures ClaimsHold(terminals, claims + [c]) <==>
              Matched(terminals, c) && (c.comparison, c.trial.attempt.value) !in Claimed(claims)
    ensures c.trial.attempt.Some? ==>
              Claimed(claims + [c]) == Claimed(claims) + {(c.comparison, c.trial.attempt.value)}
  {
    var more := claims + [c];
    assert more[|claims|] == c && forall i :: 0 <= i < |claims| ==> more[i] == claims[i];
    if Matched(terminals, c) && (c.comparison, c.trial.attempt.value) in Claimed(claims) {
      var d :| && d in claims && d.trial.attempt.Some?
               && (d.comparison, d.trial.attempt.value) == (c.comparison, c.trial.attempt.value);
      var i :| 0 <= i < |claims| && claims[i] == d;
      assert more[i] == d;
    }
  }

  lemma FewerClaims(terminals: map<(string, AttemptId), Terminal>, claims: seq<Claim>, more: seq<Claim>)
    requires ClaimsHold(terminals, claims + more)
    ensures ClaimsHold(terminals, claims)
  {
    assert forall i :: 0 <= i < |claims| ==> (claims + more)[i] == claims[i];
  }

  /** The trials of one pair, after those of `done`. */
  method MatchPair(terminals: map<(string, AttemptId), Terminal>, pair: Pair, used: set<(string, AttemptId)>,
                   ghost done: seq<Claim>) returns (result: Option<set<(string, AttemptId)>>)
    requires ClaimsHold(terminals, done) && used == Claimed(done)
    ensures result.Some? <==> pair.comparison != "" && ClaimsHold(terminals, done + PairClaims(pair))
    ensures result.Some? ==> result.value == Claimed(done + PairClaims(pair))
  {
    hide ClaimsHold, Claimed;
    if pair.comparison == "" { return None; }
    var attempts := used;
    ghost var claims := PairClaims(pair);
    assert done + claims[..0] == done;
    for i := 0 to |pair.trials|
      invariant ClaimsHold(terminals, done + claims[..i]) && attempts == Claimed(done + claims[..i])
    {
      var trial := pair.trials[i];
      assert done + claims[..i + 1] == (done + claims[..i]) + [claims[i]];
      assert done + claims == (done + claims[..i + 1]) + claims[i + 1..];
      OneMoreClaim(terminals, done + claims[..i], claims[i]);
      if ClaimsHold(terminals, done + claims) { FewerClaims(terminals, done + claims[..i + 1], claims[i + 1..]); }
      if trial.attempt.None? { return None; }
      var identity := (pair.comparison, trial.attempt.value);
      if identity in attempts { return None; }
      attempts := attempts + {identity};
      if identity !in terminals || terminals[identity].kind != Reconciled { return None; }
      var terminal := terminals[identity];
      if trial.providerCost.None? || trial.transportCost.None? { return None; }
      if trial.providerCost.value < 0.0 || trial.transportCost.value < 0.0 { return None; }
      if trial.binding.None? || trial.transportRequest != Some(trial.binding.value.request) { return None; }
      if terminal.binding != trial.binding.value { return None; }
      if trial.providerCost.value != trial.transportCost.value { return None; }
      if trial.transportCost.value != terminal.cost { return None; }
    }
    assert claims[..|claims|] == claims;
    result := Some(attempts);
  }

  /** The second loop. */
  method MatchTrials(terminals: map<(string, AttemptId), Terminal>, pairs: seq<Pair>) returns (ok: bool)
    ensures ok <==> (forall p :: p in pairs ==> p.comparison != "") && ClaimsHold(terminals, Claims(pairs))
  {
    hide ClaimsHold, Claimed;
    NothingClaimed(terminals);
    var used: set<(string, AttemptId)> := {};
    assert pairs[..0] == [];
    for i := 0 to |pairs|
      invariant forall p :: p in pairs[..i] ==> p.comparison != ""
      invariant ClaimsHold(terminals, Claims(pairs[..i])) && used == Claimed(Claims(pairs[..i]))
    {
      assert pairs[..i + 1][..i] == pairs[..i] && pairs[..i + 1] == pairs[..i] + [pairs[i]];
      if ClaimsHold(terminals, Claims(pairs)) { FewerPairs(terminals, pairs, i + 1); }
      var result := MatchPair(terminals, pairs[i], used, Claims(pairs[..i]));
      if result.None? { return false; }
      used := result.value;
    }
    assert pairs[..|pairs|] == pairs;
    ok := true;
  }

  lemma NothingClaimed(terminals: map<(string, AttemptId), Terminal>)
    ensures ClaimsHold(terminals, []) && Claimed([]) == {}
  {
  }

  lemma {:induction false} FewerPairs(terminals: map<(string, AttemptId), Terminal>, pairs: seq<Pair>, i: nat)
    requires i <= |pairs| && ClaimsHold(terminals, Claims(pairs))
    ensures ClaimsHold(terminals, Claims(pairs[..i]))
    decreases |pairs|
  {
    if i < |pairs| {
      var init := pairs[..|pairs| - 1];
      FewerClaims(terminals, Claims(init), PairClaims(pairs[|pairs| - 1]));
      FewerPairs(terminals, init, i);
      assert init[..i] == pairs[..i];
    } else {
      assert pairs[..i] == pairs;
    }
  }

  lemma AccountThrough(rs: seq<Record>, i: nat)
    requires i < |rs| && AccountAll(rs[..i]).Some?
    ensures AccountAll(rs[..i + 1]) == AccountStep(AccountAll(rs[..i]).value, rs[i])
    ensures AccountAll(rs[..i + 1]).None? ==> AccountAll(rs).None?
  {
    assert rs[..i + 1][..i] == rs[..i];
    if AccountAll(rs[..i + 1]).None? { AccountPrefix(rs, i + 1); }
  }

  lemma {:induction false} AccountPrefix(rs: seq<Record>, i: nat)
    requires i <= |rs| && AccountAll(rs[..i]).None?
    ensures AccountAll(rs).None?
    decreases |rs|
  {
    if i < |rs| {
      assert rs[..|rs| - 1][..i] == rs[..i];
      AccountPrefix(rs[..|rs| - 1], i);
    } else {
      assert rs[..i] == rs;
    }
  }

  // ---------- Agreement with replay ----------

  function OpenPart(attempts: map<AttemptId, Attempt>): map<AttemptId, Attempt>
  {
    map id | id in attempts && attempts[id].charged.None? :: attempts[id]
  }

  function ForfeitedAmount(rs: seq<Record>): real
  {
    if rs == [] then 0.0 else
      ForfeitedAmount(rs[..|rs| - 1]) + (if rs[|rs| - 1].Forfeit? then rs[|rs| - 1].charged else 0.0)
  }

  function ForfeitCount(rs: seq<Record>): nat
  {
    if rs == [] then 0 else ForfeitCount(rs[..|rs| - 1]) + (if rs[|rs| - 1].Forfeit? then 1 else 0)
  }

  /** The tables and the replayed attempts tell the same story. */
  ghost predicate Agree(t: Tables, s: Replayed)
  {
    && t.reserved.Keys == s.attempts.Keys
    && (forall id :: id in t.reserved ==>
          t.reserved[id] == Held(s.attempts[id].reserved, s.attempts[id].binding)
          && (id in t.terminal <==> s.attempts[id].charged.Some?))
    && (forall id :: id in t.terminal ==> (id in t.reserved <==> t.terminal[id].kind != Historic))
    && (forall id :: id in t.terminal ==> (id in s.historicalIds <==> t.terminal[id].kind == Historic))
    && (forall id :: id in s.historicalIds ==> id in t.terminal)
  }

  lemma {:induction false} ReadersAgree(rs: seq<Record>)
    ensures AccountAll(rs).Some? <==> Replay(rs).Some?
    ensures AccountAll(rs).Some? ==> Agree(AccountAll(rs).value, Replay(rs).value)
    ensures AccountAll(rs).Some? ==> AccountAll(rs).value.unknown == ForfeitCount(rs)
  {
    if rs != [] {
      var n := |rs| - 1;
      ReadersAgree(rs[..n]);
      if AccountAll(rs[..n]).Some? {
        StepsAgree(AccountAll(rs[..n]).value, Replay(rs[..n]).value, rs[n]);
      }
    }
  }

  lemma StepsAgree(t: Tables, s: Replayed, r: Record)
    requires Agree(t, s)
    ensures AccountStep(t, r).Some? <==> ReplayStep(s, r).Some?
    ensures AccountStep(t, r).Some? ==> Agree(AccountStep(t, r).value, ReplayStep(s, r).value)
  {
    hide Agree, AccountStep, ReplayStep;
    SameVerdict(t, s, r);
    if AccountStep(t, r).Some? {
      if r.Reserve? { ReservedAgree(t, s, r); } else { ClosedAgree(t, s, r); }
    }
  }

  lemma SameVerdict(t: Tables, s: Replayed, r: Record)
    requires Agree(t, s)
    ensures AccountStep(t, r).Some? <==> ReplayStep(s, r).Some?
  {
  }

  lemma ReservedAgree(t: Tables, s: Replayed, r: Record)
    requires Agree(t, s) && AccountStep(t, r).Some? && ReplayStep(s, r).Some? && r.Reserve?
    ensures Agree(AccountStep(t, r).value, ReplayStep(s, r).value)
  {
  }

  lemma ClosedAgree(t: Tables, s: Replayed, r: Record)
    requires Agree(t, s) && AccountStep(t, r).Some? && ReplayStep(s, r).Some? && !r.Reserve?
    ensures Agree(AccountStep(t, r).value, ReplayStep(s, r).value)
  {
  }

  /** Known cost and forfeited amounts together are the replayed spend less what is still open. */
  lemma {:induction false} TotalsAgree(rs: seq<Record>)
    requires AccountAll(rs).Some? && Replay(rs).Some?
    ensures AccountAll(rs).value.known + ForfeitedAmount(rs)
            == Replay(rs).value.Committed() - Sum(OpenPart(Replay(rs).value.attempts))
  {
    if rs != [] {
      var n := |rs| - 1;
      TotalsAgree(rs[..n]);
      var s, r := Replay(rs[..n]).value, rs[n];
      var next := Replay(rs).value;
      if r.Reserve? {
        var a := Attempt(r.reserved, None, r.binding);
        SumUpdate(s.attempts, r.id, a);
        assert OpenPart(next.attempts) == OpenPart(s.attempts)[r.id := a];
        SumUpdate(OpenPart(s.attempts), r.id, a);
      } else if !r.Historical? {
        var a := s.attempts[r.id].(charged := Some(r.charged));
        SumUpdate(s.attempts, r.id, a);
        assert OpenPart(next.attempts) == OpenPart(s.attempts) - {r.id};
        SumRemove(OpenPart(s.attempts), r.id);
      }
    }
  }

  /**
   The final accounting accepts a comparison's records exactly when replay accepts them whatever the
   cap and no reservation is left open.
  */
  lemma AcceptedIffReplayedAndClosed(rs: seq<Record>)
    ensures Accepted(rs) <==> Replay(rs).Some? && OpenPart(Replay(rs).value.attempts) == map[]
  {
    ReadersAgree(rs);
    if AccountAll(rs).Some? {
      var t, s := AccountAll(rs).value, Replay(rs).value;
      if Terminated(t) {
        forall id | id in s.attempts
          ensures s.attempts[id].charged.Some?
        {
          assert id in t.reserved.Keys;
        }
      }
      if OpenPart(s.attempts) == map[] {
        forall id | id in t.reserved
          ensures id in t.terminal
        {
          assert id !in OpenPart(s.attempts);
        }
      }
    }
  }

  /** On accepted records, known cost plus forfeits is the replayed spend, and forfeits are counted. */
  lemma AcceptedTotals(rs: seq<Record>)
    requires Accepted(rs)
    ensures Replay(rs).Some? && AccountAll(rs).value.known + ForfeitedAmount(rs) == Replay(rs).value.Committed()
    ensures AccountAll(rs).value.unknown == ForfeitCount(rs)
  {
    AcceptedIffReplayedAndClosed(rs);
    ReadersAgree(rs);
    TotalsAgree(rs);
  }

  // ---------- Where the known cost comes from ----------

  function KnownPart(t: Terminal): real { if t.kind == Forfeited then 0.0 else t.cost }

  /** The known costs of a table. */
  ghost function KnownSum<K>(m: map<K, Terminal>): real
  {
    if m == map[] then 0.0 else
      var k :| k in m;
      KnownPart(m[k]) + KnownSum(m - {k})
  }

  lemma {:induction false} KnownSumRemove<K>(m: map<K, Terminal>, k: K)
    requires k in m
    ensures KnownSum(m) == KnownPart(m[k]) + KnownSum(m - {k})
    decreases |m|
  {
    var j :| j in m && KnownSum(m) == KnownPart(m[j]) + KnownSum(m - {j});
    if j != k {
      KnownSumRemove(m - {j}, k);
      KnownSumRemove(m - {k}, j);
      assert (m - {j}) - {k} == (m - {k}) - {j};
    }
  }

  lemma KnownSumAdd<K>(m: map<K, Terminal>, k: K, t: Terminal)
    requires k !in m
    ensures KnownSum(m[k := t]) == KnownSum(m) + KnownPart(t)
  {
    KnownSumRemove(m[k := t], k);
    assert m[k := t] - {k} == m;
  }

  lemma {:induction false} KnownSumNonNegative<K>(m: map<K, Terminal>)
    requires forall k :: k in m ==> m[k].cost >= 0.0
    ensures KnownSum(m) >= 0.0
    decreases |m|
  {
    if m != map[] {
      var j :| j in m;
      KnownSumRemove(m, j);
      assert KnownPart(m[j]) >= 0.0;
      KnownSumNonNegative(m - {j});
    }
  }

  /** The running total of a comparison is the sum over its table. */
  lemma {:induction false} KnownIsTheTable(rs: seq<Record>)
    requires AccountAll(rs).Some?
    ensures var t := AccountAll(rs).value;
            t.known == KnownSum(t.terminal) && forall id :: id in t.terminal ==> t.terminal[id].cost >= 0.0
  {
    if rs != [] {
      var r := rs[|rs| - 1];
      KnownIsTheTable(rs[..|rs| - 1]);
      hide KnownSum;
      if !r.Reserve? { KnownSumAdd(AccountAll(rs[..|rs| - 1]).value.terminal, r.id, Closing(r)); }
    }
  }

  lemma {:induction false} KeyedSum(shared: map<(string, AttemptId), Terminal>, comparison: string,
                                    own: map<AttemptId, Terminal>)
    requires forall key :: key in shared ==> key.0 != comparison
    ensures KnownSum(shared + Keyed(comparison, own)) == KnownSum(shared) + KnownSum(own)
    decreases |own|
  {
    if own == map[] {
      NoRecords(shared, comparison);
    } else {
      var id :| id in own && KnownSum(own) == KnownPart(own[id]) + KnownSum(own - {id});
      var rest := own - {id};
      KeyedSum(shared, comparison, rest);
      OwnKeys(shared, comparison, rest, id);
      OwnUpdate(shared, comparison, rest, id, own[id]);
      assert rest[id := own[id]] == own;
      KnownSumAdd(shared + Keyed(comparison, rest), (comparison, id), own[id]);
    }
  }

  /** The known cost is the sum over the one dictionary, whose costs are never negative. */
  lemma {:induction false} TerminalsSum(comparisons: seq<string>, journals: seq<seq<Record>>)
    requires |comparisons| == |journals|
    requires forall i, j :: 0 <= i < j < |comparisons| ==> comparisons[i] != comparisons[j]
    requires forall i :: 0 <= i < |journals| ==> AccountAll(journals[i]).Some?
    ensures var m := Terminals(comparisons, journals);
            && KnownSum(m) == KnownCost(journals)
            && forall key :: key in m ==> key.0 in comparisons && m[key].cost >= 0.0
    decreases |journals|
  {
    if journals != [] {
      var n := |journals| - 1;
      TerminalsSum(comparisons[..n], journals[..n]);
      hide AccountAll, KnownSum;
      KnownIsTheTable(journals[n]);
      assert comparisons == comparisons[..n] + [comparisons[n]];
      KeyedSum(Terminals(comparisons[..n], journals[..n]), comparisons[n], AccountAll(journals[n]).value.terminal);
    }
  }

  /** What the trials say they cost. */
  function TrialCost(claims: seq<Claim>): real
  {
    if claims == [] then 0.0 else
      TrialCost(claims[..|claims| - 1])
      + if claims[|claims| - 1].trial.providerCost.Some? then claims[|claims| - 1].trial.providerCost.value else 0.0
  }

  lemma {:induction false} ClaimedSum(terminals: map<(string, AttemptId), Terminal>, claims: seq<Claim>)
    requires ClaimsHold(terminals, claims)
    ensures KnownSum(terminals) == TrialCost(claims) + KnownSum(terminals - Claimed(claims))
    decreases |claims|
  {
    if claims == [] {
      assert terminals - Claimed(claims) == terminals;
    } else {
      var init, last := claims[..|claims| - 1], claims[|claims| - 1];
      assert claims == init + [last];
      FewerClaims(terminals, init, [last]);
      ClaimedSum(terminals, init);
      OneMoreClaim(terminals, init, last);
      var key := (last.comparison, last.trial.attempt.value);
      KnownSumRemove(terminals - Claimed(init), key);
      assert (terminals - Claimed(init)) - {key} == terminals - Claimed(claims);
    }
  }

  /**
   On an accepted run the known cost is what the trials cost and, beside it, the known cost of the
   attempts that no trial claims; so the trials never cost more than was accounted.
  */
  lemma TrialsAreAccounted(comparisons: seq<string>, journals: seq<seq<Record>>, pairs: seq<Pair>)
    requires |comparisons| == |journals| && AccountedFor(comparisons, journals, pairs)
    requires forall i, j :: 0 <= i < j < |comparisons| ==> comparisons[i] != comparisons[j]
    ensures var unclaimed := Terminals(comparisons, journals) - Claimed(Claims(pairs));
            && KnownCost(journals) == TrialCost(Claims(pairs)) + KnownSum(unclaimed)
            && TrialCost(Claims(pairs)) <= KnownCost(journals)
  {
    hide KnownSum, Claims;
    TerminalsSum(comparisons, journals);
    ClaimedSum(Terminals(comparisons, journals), Claims(pairs));
    KnownSumNonNegative(Terminals(comparisons, journals) - Claimed(Claims(pairs)));
  }

  // ---------- The trials against the records ----------

  /** Accepted closings have a cost that is not negative, and each is one record of its attempt. */
  lemma {:induction false} ReconciledIsRecorded(rs: seq<Record>, id: AttemptId, binding: Binding, cost: real)
    requires AccountAll(rs).Some?
    ensures var table := AccountAll(rs).value.terminal;
            (id in table && table[id] == Terminal(Reconciled, cost, binding)) <==> Reconcile(id, binding, cost) in rs
    ensures Reconcile(id, binding, cost) in rs ==> cost >= 0.0
  {
    if rs != [] {
      var init, last := rs[..|rs| - 1], rs[|rs| - 1];
      assert rs == init + [last];
      ReconciledIsRecorded(init, id, binding, cost);
      if last.Reconcile? || last.Forfeit? || last.Historical? {
        if last.id == id { assert id !in AccountAll(init).value.terminal; }
      }
    }
  }

  /** The shared dictionary is the tables of the comparisons, each under its own name. */
  lemma {:induction false} TerminalsAre(comparisons: seq<string>, journals: seq<seq<Record>>, n: nat, id: AttemptId)
    requires n < |comparisons| == |journals| && forall i :: 0 <= i < |journals| ==> AccountAll(journals[i]).Some?
    requires forall i, j :: 0 <= i < j < |comparisons| ==> comparisons[i] != comparisons[j]
    ensures var own, all := AccountAll(journals[n]).value.terminal, Terminals(comparisons, journals);
            && ((comparisons[n], id) in all <==> id in own)
            && (id in own ==> all[(comparisons[n], id)] == own[id])
    decreases |journals|
  {
    hide AccountAll;
    var m := |journals| - 1;
    KeyedKeys(comparisons[m], AccountAll(journals[m]).value.terminal);
    NamesOfTerminals(comparisons[..m], journals[..m]);
    if n < m { TerminalsAre(comparisons[..m], journals[..m], n, id); }
  }

  lemma {:induction false} NamesOfTerminals(comparisons: seq<string>, journals: seq<seq<Record>>)
    requires |comparisons| == |journals| && forall i :: 0 <= i < |journals| ==> AccountAll(journals[i]).Some?
    ensures forall key :: key in Terminals(comparisons, journals) ==> key.0 in comparisons
    decreases |journals|
  {
    hide AccountAll;
    if journals != [] {
      var m := |journals| - 1;
      NamesOfTerminals(comparisons[..m], journals[..m]);
      KeyedKeys(comparisons[m], AccountAll(journals[m]).value.terminal);
    }
  }

  /** A record of its comparison reconciles the trial's attempt, under the trial's binding and at its cost. */
  ghost predicate BorneOut(comparisons: seq<string>, journals: seq<seq<Record>>, c: Claim)
    requires |comparisons| == |journals|
  {
    exists n, id, binding, cost ::
      && 0 <= n < |journals| && comparisons[n] == c.comparison && Reconcile(id, binding, cost) in journals[n]
      && c.trial == Trial(Some(id), Some(binding), Some(binding.request), Some(cost), Some(cost))
  }

  lemma MatchedIffBorneOut(comparisons: seq<string>, journals: seq<seq<Record>>, c: Claim)
    requires |comparisons| == |journals| && forall i :: 0 <= i < |journals| ==> AccountAll(journals[i]).Some?
    requires forall i, j :: 0 <= i < j < |comparisons| ==> comparisons[i] != comparisons[j]
    ensures Matched(Terminals(comparisons, journals), c) <==> BorneOut(comparisons, journals, c)
  {
    hide AccountAll, Terminals;
    if Matched(Terminals(comparisons, journals), c) {
      var id := c.trial.attempt.value;
      NamesOfTerminals(comparisons, journals);
      var n :| 0 <= n < |comparisons| && comparisons[n] == c.comparison;
      TerminalsAre(comparisons, journals, n, id);
      var terminal := AccountAll(journals[n]).value.terminal[id];
      ReconciledIsRecorded(journals[n], id, terminal.binding, terminal.cost);
      assert Reconcile(id, terminal.binding, terminal.cost) in journals[n];
    }
    if BorneOut(comparisons, journals, c) {
      var n, id, binding, cost :| 0 <= n < |journals| && comparisons[n] == c.comparison
        && Reconcile(id, binding, cost) in journals[n]
        && c.trial == Trial(Some(id), Some(binding), Some(binding.request), Some(cost), Some(cost));
      TerminalsAre(comparisons, journals, n, id);
      ReconciledIsRecorded(journals[n], id, binding, cost);
    }
  }

  /** No two trials of one comparison claim the same attempt. */
  ghost predicate ClaimedOnce(claims: seq<Claim>)
  {
    forall i, j :: 0 <= i < j < |claims| && claims[i].comparison == claims[j].comparison ==>
      claims[i].trial.attempt != claims[j].trial.attempt
  }

  /**
   Acceptance read off the journals: every comparison is named and its records are accepted, and every
   trial of a named comparison is borne out by a record that no other trial claims.
  */
  lemma AccountedIffRecorded(comparisons: seq<string>, journals: seq<seq<Record>>, pairs: seq<Pair>)
    requires |comparisons| == |journals|
    requires forall i, j :: 0 <= i < j < |comparisons| ==> comparisons[i] != comparisons[j]
    ensures AccountedFor(comparisons, journals, pairs) <==>
              && "" !in comparisons && (forall rs :: rs in journals ==> Accepted(rs))
              && (forall p :: p in pairs ==> |p.comparison| > 0)
              && (forall c :: c in Claims(pairs) ==> BorneOut(comparisons, journals, c))
              && ClaimedOnce(Claims(pairs))
  {
    hide AccountAll, Terminals, Matched, BorneOut, Claims, Terminated;
    assert forall i :: 0 <= i < |comparisons| ==> comparisons[i] in comparisons && journals[i] in journals;
    if forall i :: 0 <= i < |journals| ==> Accepted(journals[i]) {
      forall c
        ensures Matched(Terminals(comparisons, journals), c) <==> BorneOut(comparisons, journals, c)
      {
        MatchedIffBorneOut(comparisons, journals, c);
      }
    }
  }
}
