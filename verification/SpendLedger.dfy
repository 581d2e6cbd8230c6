/**
 The comparator spend ledger: an in-memory account of spent and reserved money and the append-only
 journal that restores it after a crash.

 Money is a real number. A journal line that is not canonical JSON of one of the four shapes is
 `Malformed`. Every ledger method holds the ledger's lock, so an interleaving of threads is a
 sequence of whole operations; a crash can fall after any append, before memory is updated.
*/
module SpendJournal {
  import opened Options

  type AttemptId = nat
  type Digest = nat

  datatype Binding = Binding(request: Digest, invocation: Digest)

  datatype Record =
    | Reserve(id: AttemptId, binding: Binding, reserved: real)
    | Reconcile(id: AttemptId, binding: Binding, charged: real)
    | Forfeit(id: AttemptId, binding: Binding, charged: real)
    | Historical(id: AttemptId, binding: Binding, charged: real)
    | Malformed

  datatype Attempt = Attempt(reserved: real, charged: Option<real>, binding: Binding)

  /** What an attempt costs: its charge once closed, its whole reservation while open. */
  function Charge(a: Attempt): real {
    if a.charged.Some? then a.charged.value else a.reserved
  }

  datatype Replayed = Replayed(attempts: map<AttemptId, Attempt>, historicalIds: set<AttemptId>, historical: real) {
    function Seen(): set<AttemptId> { attempts.Keys + historicalIds }
    ghost function Committed(): real { historical + Sum(attempts) }
  }

  const NOTHING_REPLAYED := Replayed(map[], {}, 0.0)

  // ---------- Sums over attempts ----------

  ghost function Sum(m: map<AttemptId, Attempt>): real
  {
    if m == map[] then 0.0 else
      var k :| k in m;
      Charge(m[k]) + Sum(m - {k})
  }

  lemma {:induction false} SumRemove(m: map<AttemptId, Attempt>, k: AttemptId)
    requires k in m
    ensures Sum(m) == Charge(m[k]) + Sum(m - {k})
    decreases |m|
  {
    var j :| j in m && Sum(m) == Charge(m[j]) + Sum(m - {j});
    if j != k {
      SumRemove(m - {j}, k);
      SumRemove(m - {k}, j);
      assert (m - {j}) - {k} == (m - {k}) - {j};
    }
  }

  lemma SumUpdate(m: map<AttemptId, Attempt>, k: AttemptId, a: Attempt)
    ensures Sum(m[k := a]) == Charge(a) + Sum(m) - (if k in m then Charge(m[k]) else 0.0)
  {
    SumRemove(m[k := a], k);
    assert m[k := a] - {k} == m - {k};
    if k in m { SumRemove(m, k); } else { assert m - {k} == m; }
  }

  lemma {:induction false} SumNonNegative(m: map<AttemptId, Attempt>)
    requires forall k :: k in m ==> Charge(m[k]) >= 0.0
    ensures Sum(m) >= 0.0
    decreases |m|
  {
    if m != map[] {
      var j :| j in m && Sum(m) == Charge(m[j]) + Sum(m - {j});
      SumNonNegative(m - {j});
    }
  }

  // ---------- Replay ----------

  /** One record of `_restore_journal`; None is the raised CalibrationError. */
  function ReplayStep(s: Replayed, r: Record): Option<Replayed>
  {
    match r
    case Reserve(id, binding, reserved) =>
      if reserved <= 0.0 || id in s.Seen() then None
      else Some(s.(attempts := s.attempts[id := Attempt(reserved, None, binding)]))
    case Reconcile(id, binding, charged) => CloseStep(s, id, binding, charged, false)
    case Forfeit(id, binding, charged) => CloseStep(s, id, binding, charged, true)
    case Historical(id, _, charged) =>
      if charged < 0.0 || id in s.Seen() then None
      else Some(s.(historicalIds := s.historicalIds + {id}, historical := s.historical + charged))
    case Malformed => None
  }

  function CloseStep(s: Replayed, id: AttemptId, binding: Binding, charged: real, forfeit: bool): Option<Replayed>
  {
    if charged < 0.0 || id !in s.attempts || s.attempts[id].charged.Some? then None else
    var a := s.attempts[id];
    if binding != a.binding || charged > a.reserved || (forfeit && charged != a.reserved) then None
    else Some(s.(attempts := s.attempts[id := a.(charged := Some(charged))]))
  }

  function Replay(rs: seq<Record>): Option<Replayed>
  {
    if rs == [] then Some(NOTHING_REPLAYED) else
    match Replay(rs[..|rs| - 1])
    case None => None
    case Some(s) => ReplayStep(s, rs[|rs| - 1])
  }

  lemma ReplayAppend(rs: seq<Record>, r: Record)
    ensures Replay(rs + [r]) == if Replay(rs).None? then None else ReplayStep(Replay(rs).value, r)
  {
    assert (rs + [r])[..|rs|] == rs;
  }

  /** Replayed amounts are never negative and no charge exceeds its reservation. */
  lemma {:induction false} ReplayedAmounts(rs: seq<Record>)
    requires Replay(rs).Some?
    ensures var s := Replay(rs).value;
            && s.historical >= 0.0
            && s.attempts.Keys !! s.historicalIds
            && forall k :: k in s.attempts ==> 0.0 <= Charge(s.attempts[k]) <= s.attempts[k].reserved
  {
    if rs != [] { ReplayedAmounts(rs[..|rs| - 1]); }
  }

  /** `_restore_journal`: replay the lines, then charge every open reservation in full. */
  method RestoreJournal(rs: seq<Record>, maximum: real) returns (spent: Option<real>)
    ensures spent == if Replay(rs).Some? && Replay(rs).value.Committed() <= maximum
                     then Some(Replay(rs).value.Committed()) else None
  {
    var attempts: map<AttemptId, Attempt>, seen: set<AttemptId>, historical := map[], {}, 0.0;
    ghost var historicalIds: set<AttemptId> := {};
    assert rs[..0] == [];
    for i := 0 to |rs|
      invariant Replay(rs[..i]) == Some(Replayed(attempts, historicalIds, historical))
      invariant seen == attempts.Keys + historicalIds
    {
      var r := rs[i];
      ReplayThrough(rs, i);
      if r.Malformed? { return None; }
      var id := r.id;
      if r.Reserve? {
        if r.reserved <= 0.0 || id in seen { return None; }
        seen := seen + {id};
        attempts := attempts[id := Attempt(r.reserved, None, r.binding)];
      } else if r.Historical? {
        if r.charged < 0.0 || id in seen { return None; }
        seen := seen + {id};
        historicalIds := historicalIds + {id};
        historical := historical + r.charged;
      } else {
        if r.charged < 0.0 || id !in attempts || attempts[id].charged != None { return None; }
        var a := attempts[id];
        if r.binding != a.binding || r.charged > a.reserved || (r.Forfeit? && r.charged != a.reserved) { return None; }
        attempts := attempts[id := a.(charged := Some(r.charged))];
      }
    }
    assert rs[..|rs|] == rs;
    var charges := TotalCharge(attempts);
    var restored := historical + charges;
    spent := if restored > maximum then None else Some(restored);
  }

  method TotalCharge(attempts: map<AttemptId, Attempt>) returns (total: real)
    ensures total == Sum(attempts)
  {
    var rest := attempts;
    total := 0.0;
    while rest != map[]
      invariant total + Sum(rest) == Sum(attempts)
      decreases |rest|
    {
      var k :| k in rest;
      SumRemove(rest, k);
      total := total + Charge(rest[k]);
      rest := rest - {k};
    }
  }

  lemma ReplayThrough(rs: seq<Record>, i: nat)
    requires i < |rs| && Replay(rs[..i]).Some?
    ensures Replay(rs[..i + 1]) == ReplayStep(Replay(rs[..i]).value, rs[i])
    ensures Replay(rs[..i + 1]).None? ==> Replay(rs).None?
  {
    assert rs[..i + 1] == rs[..i] + [rs[i]];
    ReplayAppend(rs[..i], rs[i]);
    if Replay(rs[..i + 1]).None? { ReplayPrefix(rs, i + 1); }
  }

  /** A refused prefix keeps the whole journal refused. */
  lemma {:induction false} ReplayPrefix(rs: seq<Record>, i: nat)
    requires i <= |rs| && Replay(rs[..i]).None?
    ensures Replay(rs).None?
    decreases |rs|
  {
    if i < |rs| {
      assert rs[..|rs| - 1][..i] == rs[..i];
      ReplayPrefix(rs[..|rs| - 1], i);
    } else {
      assert rs[..i] == rs;
    }
  }
}

module SpendLedger {
  import opened Options
  import opened SpendJournal

  // ---------- The ledger as a value ----------

  /** `open` holds the reservations this process has handed out and not yet closed. */
  datatype Ledger = Ledger(
    maximum: real,
    spent: real,
    reserved: real,
    journal: seq<Record>,
    open: map<AttemptId, Attempt>)

  ghost predicate Valid(l: Ledger)
  {
    && Replay(l.journal).Some?
    && var s := Replay(l.journal).value;
    && l.spent + l.reserved == s.Committed() <= l.maximum
    && l.reserved == Sum(l.open)
    && l.spent >= 0.0
    && forall k :: k in l.open ==> k in s.attempts && s.attempts[k] == l.open[k] && l.open[k].charged.None?
  }

  datatype Operation =
    | OpReserve(id: AttemptId, binding: Binding, amount: real)
    | OpReconcile(id: AttemptId, actual: real)
    | OpForfeit(id: AttemptId)
    | OpHistorical(id: AttemptId, binding: Binding, cost: real)
    | OpRestoreReconciled(id: AttemptId, binding: Binding, amount: real, cost: real)

  /** The guard each method tests before it touches the journal. */
  predicate Admits(l: Ledger, op: Operation)
  {
    match op
    case OpReserve(_, _, amount) => amount > 0.0 && l.spent + l.reserved + amount <= l.maximum
    case OpReconcile(id, actual) => id in l.open && 0.0 <= actual <= l.open[id].reserved
    case OpForfeit(id) => id in l.open
    case OpHistorical(_, _, cost) => cost >= 0.0 && l.spent + cost + l.reserved <= l.maximum
    case OpRestoreReconciled(_, _, amount, cost) =>
      0.0 <= cost <= amount && amount > 0.0 && l.spent + cost + l.reserved <= l.maximum
  }

  /** The records an admitted operation appends, in order. */
  function Appends(l: Ledger, op: Operation): seq<Record>
    requires Admits(l, op)
  {
    match op
    case OpReserve(id, binding, amount) => [Reserve(id, binding, amount)]
    case OpReconcile(id, actual) => [Reconcile(id, l.open[id].binding, actual)]
    case OpForfeit(id) => [Forfeit(id, l.open[id].binding, l.open[id].reserved)]
    case OpHistorical(id, binding, cost) => [Historical(id, binding, cost)]
    case OpRestoreReconciled(id, binding, amount, cost) => [Reserve(id, binding, amount), Reconcile(id, binding, cost)]
  }

  /** A completed operation; one that is not admitted raises and changes nothing. */
  function Apply(l: Ledger, op: Operation): Ledger
  {
    if !Admits(l, op) then l else
    var journal := l.journal + Appends(l, op);
    match op
    case OpReserve(id, binding, amount) =>
      l.(journal := journal, reserved := l.reserved + amount, open := l.open[id := Attempt(amount, None, binding)])
    case OpReconcile(id, actual) =>
      l.(journal := journal, reserved := l.reserved - l.open[id].reserved, spent := l.spent + actual,
         open := l.open - {id})
    case OpForfeit(id) =>
      l.(journal := journal, reserved := l.reserved - l.open[id].reserved, spent := l.spent + l.open[id].reserved,
         open := l.open - {id})
    case OpHistorical(_, _, cost) => l.(journal := journal, spent := l.spent + cost)
    case OpRestoreReconciled(_, _, _, cost) => l.(journal := journal, spent := l.spent + cost)
  }

  /** A new process opening the journal the old one left behind. */
  ghost function Reopened(maximum: real, journal: seq<Record>): Option<Ledger>
  {
    if Replay(journal).None? || Replay(journal).value.Committed() > maximum then None
    else Some(Ledger(maximum, Replay(journal).value.Committed(), 0.0, journal, map[]))
  }

  /** The attempt id is new: what `uuid4` provides and `restore_reconciled` takes on trust. */
  ghost predicate Fresh(l: Ledger, op: Operation)
    requires Replay(l.journal).Some?
  {
    op.OpReconcile? || op.OpForfeit? || op.id !in Replay(l.journal).value.Seen()
  }

  /** The whole reservation of a restored call fits, although only its cost is checked. */
  predicate Fits(l: Ledger, op: Operation)
  {
    op.OpRestoreReconciled? ==> l.spent + l.reserved + op.amount <= l.maximum
  }

  // ---------- One operation, and every crash inside it ----------

  lemma ApplyKeepsValid(l: Ledger, op: Operation)
    requires Valid(l) && Fresh(l, op)
    ensures Valid(Apply(l, op))
  {
    if Admits(l, op) {
      match op
      case OpReserve(id, binding, amount) => ReserveKeepsValid(l, id, binding, amount);
      case OpReconcile(id, actual) => CloseKeepsValid(l, id, actual, false);
      case OpForfeit(id) => ReplayedAmounts(l.journal); CloseKeepsValid(l, id, l.open[id].reserved, true);
      case OpHistorical(id, binding, cost) => ReplayAppend(l.journal, Historical(id, binding, cost));
      case OpRestoreReconciled(id, binding, amount, cost) => RestoreKeepsValid(l, id, binding, amount, cost);
    }
  }

  lemma ReserveKeepsValid(l: Ledger, id: AttemptId, binding: Binding, amount: real)
    requires Valid(l) && Fresh(l, OpReserve(id, binding, amount)) && Admits(l, OpReserve(id, binding, amount))
    ensures Valid(Apply(l, OpReserve(id, binding, amount)))
  {
    var s := Replay(l.journal).value;
    ReplayAppend(l.journal, Reserve(id, binding, amount));
    SumUpdate(s.attempts, id, Attempt(amount, None, binding));
    SumUpdate(l.open, id, Attempt(amount, None, binding));
  }

  lemma RestoreKeepsValid(l: Ledger, id: AttemptId, binding: Binding, amount: real, cost: real)
    requires Valid(l) && Fresh(l, OpRestoreReconciled(id, binding, amount, cost))
    requires Admits(l, OpRestoreReconciled(id, binding, amount, cost))
    ensures Valid(Apply(l, OpRestoreReconciled(id, binding, amount, cost)))
  {
    var s := Replay(l.journal).value;
    var first, second := Reserve(id, binding, amount), Reconcile(id, binding, cost);
    ReplayAppend(l.journal, first);
    ReplayAppend(l.journal + [first], second);
    assert l.journal + [first, second] == l.journal + [first] + [second];
    var afterFirst := s.attempts[id := Attempt(amount, None, binding)];
    SumUpdate(s.attempts, id, Attempt(amount, None, binding));
    SumUpdate(afterFirst, id, Attempt(amount, Some(cost), binding));
  }

  lemma CloseKeepsValid(l: Ledger, id: AttemptId, charged: real, forfeit: bool)
    requires Valid(l) && id in l.open && 0.0 <= charged <= l.open[id].reserved
    requires forfeit ==> charged == l.open[id].reserved
    ensures Valid(Apply(l, if forfeit then OpForfeit(id) else OpReconcile(id, charged)))
  {
    var s, a := Replay(l.journal).value, l.open[id];
    ReplayAppend(l.journal, if forfeit then Forfeit(id, a.binding, charged) else Reconcile(id, a.binding, charged));
    SumUpdate(s.attempts, id, a.(charged := Some(charged)));
    SumRemove(l.open, id);
  }

  /** Replaying right after the last append gives what the step was about to store in memory. */
  lemma CrashAfterAppendLosesNothing(l: Ledger, op: Operation)
    requires Valid(l) && Fresh(l, op) && Admits(l, op)
    ensures var after := Apply(l, op);
            Reopened(l.maximum, l.journal + Appends(l, op))
            == Some(Ledger(l.maximum, after.spent + after.reserved, 0.0, after.journal, map[]))
  {
    ApplyKeepsValid(l, op);
  }

  lemma ReopenedIsValid(maximum: real, journal: seq<Record>)
    requires Reopened(maximum, journal).Some?
    ensures Valid(Reopened(maximum, journal).value)
  {
    ReplayedAmounts(journal);
    SumNonNegative(Replay(journal).value.attempts);
  }

  /** Every journal a crash inside an admitted operation can leave: some of its records, not all. */
  ghost predicate CrashSafe(l: Ledger, op: Operation)
    requires Admits(l, op)
  {
    forall k :: 0 <= k <= |Appends(l, op)| ==> Reopened(l.maximum, l.journal + Appends(l, op)[..k]).Some?
  }

  /**
   `restore_reconciled` checks that the cost fits, not that the reservation does, and never looks for
   the id. Among admitted calls, every crash leaves a journal that reopens exactly when the id is new
   and the whole reservation fits.
  */
  lemma RestoreReconciledCrashSafeIff(l: Ledger, op: Operation)
    requires Valid(l) && op.OpRestoreReconciled? && Admits(l, op)
    ensures CrashSafe(l, op) <==> Fresh(l, op) && Fits(l, op)
  {
    var s := Replay(l.journal).value;
    var first := Reserve(op.id, op.binding, op.amount);
    ReplayAppend(l.journal, first);
    SumUpdate(s.attempts, op.id, Attempt(op.amount, None, op.binding));
    assert Appends(l, op)[..1] == [first];
    if Fresh(l, op) && Fits(l, op) {
      ApplyKeepsValid(l, op);
      assert Appends(l, op)[..0] == [] && Appends(l, op)[..2] == Appends(l, op);
      assert l.journal + [] == l.journal;
      forall k | 0 <= k <= |Appends(l, op)|
        ensures Reopened(l.maximum, l.journal + Appends(l, op)[..k]).Some?
      {
        if k == 1 {
        } else if k == 2 {
        } else {
        }
      }
    }
    if CrashSafe(l, op) {
      assert Reopened(l.maximum, l.journal + Appends(l, op)[..1]).Some?;
    }
  }

  /** A restored call on an empty ledger that costs no more than the maximum but reserves more. */
  lemma OversizedRestoreIsAdmitted(l: Ledger, op: Operation)
    requires l == New(l.maximum) && l.maximum > 0.0
    requires op.OpRestoreReconciled? && 0.0 <= op.cost <= l.maximum < op.amount
    ensures Valid(l) && Fresh(l, op) && Admits(l, op) && !Fits(l, op)
  {
    NewIsValid(l.maximum);
  }

  /** A call that the code admits and whose first append makes the journal refuse to reopen. */
  lemma RestoreReconciledCanLoseTheJournal()
    ensures exists l: Ledger, op: Operation ::
              Valid(l) && op.OpRestoreReconciled? && Admits(l, op) && Fresh(l, op) && !CrashSafe(l, op)
  {
    hide Valid, Fresh, Fits, CrashSafe;
    var l, op := New(1.0), OpRestoreReconciled(0, Binding(0, 0), 2.0, 1.0);
    OversizedRestoreIsAdmitted(l, op);
    RestoreReconciledCrashSafeIff(l, op);
  }

  /** With an id that the journal already holds, the call that is admitted leaves a journal no process can open. */
  lemma ReusedIdLosesTheJournal(l: Ledger, op: Operation)
    requires Valid(l) && op.OpRestoreReconciled? && Admits(l, op) && !Fresh(l, op)
    ensures Replay(Apply(l, op).journal).None? && Reopened(l.maximum, Apply(l, op).journal).None?
  {
    var first, second := Reserve(op.id, op.binding, op.amount), Reconcile(op.id, op.binding, op.cost);
    ReplayAppend(l.journal, first);
    ReplayAppend(l.journal + [first], second);
    assert l.journal + [first, second] == l.journal + [first] + [second];
  }

  lemma RestoredIsValidIff(l: Ledger, op: Operation)
    requires op.OpRestoreReconciled?
    ensures Valid(l) ==> (Valid(Apply(l, op)) <==> !Admits(l, op) || Fresh(l, op))
  {
    if Valid(l) && Admits(l, op) {
      if Fresh(l, op) { ApplyKeepsValid(l, op); } else { ReusedIdLosesTheJournal(l, op); }
    }
  }

  /** Every other operation appends once, so its crash points are its ends. */
  lemma SingleAppendCrashSafe(l: Ledger, op: Operation)
    requires Valid(l) && Fresh(l, op) && Admits(l, op) && !op.OpRestoreReconciled?
    ensures CrashSafe(l, op)
  {
    ApplyKeepsValid(l, op);
    assert l.journal + Appends(l, op)[..0] == l.journal;
    assert Appends(l, op)[..1] == Appends(l, op);
  }

  // ---------- Whole runs ----------

  /** A completed operation, or a crash after `appended` of its records followed by a reopening. */
  datatype Event = Complete(op: Operation) | Crash(op: Operation, appended: nat)

  ghost predicate Allowed(l: Ledger, e: Event)
    requires Replay(l.journal).Some?
  {
    Fresh(l, e.op) && Fits(l, e.op) && (e.Crash? ==> Admits(l, e.op) && e.appended <= |Appends(l, e.op)|)
  }

  /** What a run reaches; None if a reopening was refused. */
  ghost function After(l: Ledger, e: Event): Option<Ledger>
    requires Replay(l.journal).Some? && Allowed(l, e)
  {
    match e
    case Complete(op) => Some(Apply(l, op))
    case Crash(op, k) => Reopened(l.maximum, l.journal + Appends(l, op)[..k])
  }

  function New(maximum: real): Ledger { Ledger(maximum, 0.0, 0.0, [], map[]) }

  /** Fresh ids all along the run, and restored reservations that fit. */
  ghost predicate Lawful(l: Ledger, events: seq<Event>)
    decreases |events|
  {
    events == [] || (
      && Replay(l.journal).Some?
      && Allowed(l, events[0])
      && (After(l, events[0]).Some? ==> Lawful(After(l, events[0]).value, events[1..])))
  }

  /** The ledger at the end of a run; None as soon as a reopening is refused. */
  ghost function Final(l: Ledger, events: seq<Event>): Option<Ledger>
    requires Lawful(l, events)
    decreases |events|
  {
    if events == [] then Some(l)
    else if After(l, events[0]).None? then None
    else Final(After(l, events[0]).value, events[1..])
  }

  /**
   In every interleaving of operations with fresh ids, and with a crash and reopening at any append:
   no reopening is refused, spent plus reserved stays within the maximum, and the journal replays to
   exactly that amount.
  */
  lemma {:induction false} RunsStayWithinTheMaximum(l: Ledger, events: seq<Event>)
    requires Valid(l) && Lawful(l, events)
    ensures Final(l, events).Some? && Valid(Final(l, events).value)
    ensures Final(l, events).value.maximum == l.maximum
    ensures var f := Final(l, events).value;
            f.spent + f.reserved == Replay(f.journal).value.Committed() <= l.maximum
    decreases |events|
  {
    if events != [] {
      EventKeepsValid(l, events[0]);
      RunsStayWithinTheMaximum(After(l, events[0]).value, events[1..]);
    }
  }

  lemma NewIsValid(maximum: real)
    requires maximum > 0.0
    ensures Valid(New(maximum))
  {
  }

  lemma EventKeepsValid(l: Ledger, e: Event)
    requires Valid(l) && Allowed(l, e)
    ensures After(l, e).Some? && Valid(After(l, e).value)
  {
    if e.Complete? {
      ApplyKeepsValid(l, e.op);
    } else {
      if e.op.OpRestoreReconciled? { RestoreReconciledCrashSafeIff(l, e.op); } else { SingleAppendCrashSafe(l, e.op); }
      ReopenedIsValid(l.maximum, l.journal + Appends(l, e.op)[..e.appended]);
    }
  }

  // ---------- The objects ----------

  class SpendLedger {
    const maximumUsd: real
    var spentUsd: real
    var reservedUsd: real
    var journal: seq<Record>
    ghost var open: map<AttemptId, Attempt>

    ghost function State(): Ledger
      reads this
    {
      Ledger(maximumUsd, spentUsd, reservedUsd, journal, open)
    }

    /** Opens the ledger over an existing journal; `ok` is false where the program raises. */
    constructor (maximum: real, existing: seq<Record>, restored: real)
      requires maximum > 0.0
      requires Reopened(maximum, existing).Some? && restored == Reopened(maximum, existing).value.spent
      ensures Some(State()) == Reopened(maximum, existing) && Valid(State())
    {
      maximumUsd, spentUsd, reservedUsd, journal, open := maximum, restored, 0.0, existing, map[];
      ReopenedIsValid(maximum, existing);
    }

    method Reserve(amount: real, id: AttemptId, binding: Binding) returns (reservation: SpendReservation?)
      requires Valid(State()) && Fresh(State(), OpReserve(id, binding, amount))
      modifies this
      ensures Valid(State()) && State() == Apply(old(State()), OpReserve(id, binding, amount))
      ensures reservation != null <==> amount > 0.0 && old(spentUsd + reservedUsd) + amount <= maximumUsd
      ensures reservation != null ==>
                && spentUsd == old(spentUsd) && reservedUsd == old(reservedUsd) + amount
                && journal == old(journal) + [Record.Reserve(id, binding, amount)]
      ensures reservation != null ==> fresh(reservation) && reservation.ledger == this && !reservation.finished
      ensures reservation != null ==> reservation.attemptId == id && reservation.maximumUsd == amount
      ensures reservation != null ==> reservation.binding == binding && reservation.Holds()
    {
      ApplyKeepsValid(State(), OpReserve(id, binding, amount));
      if amount <= 0.0 || spentUsd + reservedUsd + amount > maximumUsd { return null; }
      journal := journal + [Record.Reserve(id, binding, amount)];
      reservedUsd := reservedUsd + amount;
      open := open[id := Attempt(amount, None, binding)];
      reservation := new SpendReservation(this, id, amount, binding);
    }

    method ChargeHistorical(cost: real, id: AttemptId, binding: Binding) returns (ok: bool)
      requires Valid(State()) && Fresh(State(), OpHistorical(id, binding, cost))
      modifies this
      ensures Valid(State()) && State() == Apply(old(State()), OpHistorical(id, binding, cost))
      ensures ok <==> cost >= 0.0 && old(spentUsd + reservedUsd) + cost <= maximumUsd
      ensures ok ==>
                && spentUsd == old(spentUsd) + cost && reservedUsd == old(reservedUsd)
                && journal == old(journal) + [Historical(id, binding, cost)]
    {
      ApplyKeepsValid(State(), OpHistorical(id, binding, cost));
      if cost < 0.0 || spentUsd + cost + reservedUsd > maximumUsd { return false; }
      journal := journal + [Historical(id, binding, cost)];
      spentUsd := spentUsd + cost;
      ok := true;
    }

    /** The id is taken on trust: one that is not new costs the invariant, and with it the journal. */
    method RestoreReconciled(id: AttemptId, amount: real, cost: real, binding: Binding) returns (ok: bool)
      modifies this
      ensures State() == Apply(old(State()), OpRestoreReconciled(id, binding, amount, cost))
      ensures ok <==> amount > 0.0 && 0.0 <= cost <= amount && old(spentUsd + reservedUsd) + cost <= maximumUsd
      ensures ok ==>
                && spentUsd == old(spentUsd) + cost && reservedUsd == old(reservedUsd)
                && journal == old(journal) + [Record.Reserve(id, binding, amount), Record.Reconcile(id, binding, cost)]
      ensures old(Valid(State())) ==>
                (Valid(State()) <==> !ok || old(Fresh(State(), OpRestoreReconciled(id, binding, amount, cost))))
    {
      ghost var op := OpRestoreReconciled(id, binding, amount, cost);
      RestoredIsValidIff(State(), op);
      if cost < 0.0 || amount <= 0.0 || cost > amount { return false; }
      if spentUsd + cost + reservedUsd > maximumUsd { return false; }
      journal := journal + [Record.Reserve(id, binding, amount)];
      journal := journal + [Record.Reconcile(id, binding, cost)];
      spentUsd := spentUsd + cost;
      assert journal == old(journal) + [Record.Reserve(id, binding, amount), Record.Reconcile(id, binding, cost)];
      ok := true;
    }

    /** `_finish`: `actual` is None for a forfeit. */
    method Finish(id: AttemptId, reserved: real, actual: Option<real>, binding: Binding) returns (ok: bool)
      requires Valid(State()) && id in open && open[id] == Attempt(reserved, None, binding)
      modifies this
      ensures Valid(State())
      ensures State() == Apply(old(State()), if actual.None? then OpForfeit(id) else OpReconcile(id, actual.value))
      ensures ok <==> actual.None? || 0.0 <= actual.value <= reserved
      ensures ok ==>
                var charged := if actual.None? then reserved else actual.value;
                && spentUsd == old(spentUsd) + charged && reservedUsd == old(reservedUsd) - reserved
                && open == old(open) - {id}
                && journal == old(journal) + [if actual.None? then Record.Forfeit(id, binding, charged)
                                              else Record.Reconcile(id, binding, charged)]
    {
      ApplyKeepsValid(State(), if actual.None? then OpForfeit(id) else OpReconcile(id, actual.value));
      var charged := if actual.None? then reserved else actual.value;
      ReplayedAmounts(journal);
      if charged < 0.0 || charged > reserved { return false; }
      journal := journal + [if actual.None? then Record.Forfeit(id, binding, charged)
                            else Record.Reconcile(id, binding, charged)];
      reservedUsd := reservedUsd - reserved;
      spentUsd := spentUsd + charged;
      open := open - {id};
      ok := true;
    }
  }

  class SpendReservation {
    const ledger: SpendLedger
    const attemptId: AttemptId
    const maximumUsd: real
    const binding: Binding
    var finished: bool

    constructor (ledger: SpendLedger, id: AttemptId, maximum: real, binding: Binding)
      ensures this.ledger == ledger && attemptId == id && maximumUsd == maximum && this.binding == binding && !finished
    {
      this.ledger, attemptId, maximumUsd, this.binding, finished := ledger, id, maximum, binding, false;
    }

    /** An unfinished reservation is open in its ledger with its own terms. */
    ghost predicate Holds()
      reads this, ledger
    {
      !finished ==> attemptId in ledger.open && ledger.open[attemptId] == Attempt(maximumUsd, None, binding)
    }

    method Reconcile(actual: real) returns (ok: bool)
      requires Valid(ledger.State()) && Holds()
      modifies this, ledger
      ensures Valid(ledger.State()) && Holds()
      ensures ok <==> old(!finished) && 0.0 <= actual <= maximumUsd
      ensures finished == (old(finished) || ok)
      ensures ledger.State()
              == if ok then Apply(old(ledger.State()), OpReconcile(attemptId, actual)) else old(ledger.State())
    {
      if finished { return false; }
      ok := ledger.Finish(attemptId, maximumUsd, Some(actual), binding);
      if ok { finished := true; }
    }

    /** Closing twice is harmless: the second forfeit returns without effect. */
    method ForfeitRest()
      requires Valid(ledger.State()) && Holds()
      modifies this, ledger
      ensures Valid(ledger.State()) && finished
      ensures ledger.State() == if old(finished) then old(ledger.State())
                                else Apply(old(ledger.State()), OpForfeit(attemptId))
    {
      if finished { return; }
      var _ := ledger.Finish(attemptId, maximumUsd, None, binding);
      finished := true;
    }
  }

  /** Opening and closing one reservation: what is left is the charge and two journal lines. */
  lemma BracketEffect(l: Ledger, id: AttemptId, binding: Binding, amount: real, actual: Option<real>)
    requires Valid(l) && Fresh(l, OpReserve(id, binding, amount)) && Admits(l, OpReserve(id, binding, amount))
    requires actual.Some? ==> 0.0 <= actual.value <= amount
    ensures var held := Apply(l, OpReserve(id, binding, amount));
            var closed := Apply(held, if actual.Some? then OpReconcile(id, actual.value) else OpForfeit(id));
            var charge := if actual.Some? then actual.value else amount;
            var last := if actual.Some? then Reconcile(id, binding, charge) else Forfeit(id, binding, charge);
            closed == l.(spent := l.spent + charge, journal := l.journal + [Reserve(id, binding, amount), last])
  {
    assert id !in l.open;
    assert l.open[id := Attempt(amount, None, binding)] - {id} == l.open;
  }

  /**
   The bracket of `run_transport`. `cost` is None where execution or parsing raised. Whatever
   happens, the reservation is closed: the ledger's open reservations are those it had before.
  */
  method RunTransport(ledger: SpendLedger, perCall: real, id: AttemptId, binding: Binding, cost: Option<real>)
    returns (reserved: bool, charged: Option<real>)
    requires Valid(ledger.State()) && Fresh(ledger.State(), OpReserve(id, binding, perCall))
    modifies ledger
    ensures Valid(ledger.State()) && ledger.open == old(ledger.open)
    ensures reserved <==> perCall > 0.0 && old(ledger.spentUsd + ledger.reservedUsd) + perCall <= ledger.maximumUsd
    ensures charged.Some? <==> reserved && cost.Some? && 0.0 <= cost.value <= perCall
    ensures !reserved ==> ledger.State() == old(ledger.State())
    ensures reserved ==>
      var charge := if charged.Some? then cost.value else perCall;
      var last := if charged.Some? then Reconcile(id, binding, charge) else Forfeit(id, binding, charge);
      ledger.State() == old(ledger.State()).(
        spent := old(ledger.spentUsd) + charge,
        journal := old(ledger.journal) + [Reserve(id, binding, perCall), last])
  {
    ghost var l := ledger.State();
    var reservation := ledger.Reserve(perCall, id, binding);
    if reservation == null { return false, None; }
    reserved := true;
    charged := None;
    BracketEffect(l, id, binding, perCall, if cost.Some? && 0.0 <= cost.value <= perCall then cost else None);
    if cost.Some? && cost.value <= perCall {
      var ok := reservation.Reconcile(cost.value);
      if ok { charged := cost; }
    }
    if charged == None { reservation.ForfeitRest(); }
  }
}
