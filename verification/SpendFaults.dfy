/**
 Appends to the spend journal that raise while the process goes on.

 After an append the ledger remembers the file's identity, which its size and times are part of, and
 refuses to touch a file with another one. Before the first append or reading there is none to compare.
 An operation whose append raises leaves memory as it was, whatever is in the file.
*/
module SpendFaults {
  import opened Bytes
  import opened Options
  import opened JournalLines
  import opened SpendFile
  import opened SpendJournal
  import opened SpendLedger

  /**
   Memory, the file if there is one, and the identity as the bytes it stands for. The records of
   `ledger.journal` are those that memory counts.
  */
  datatype Process = Process(ledger: Ledger, file: Option<seq<Byte>>, identity: Option<seq<Byte>>) {
    function Content(): seq<Byte> { if file.None? then [] else file.value }
  }

  // ---------- One operation ----------

  /** `_append_journal`; only an append that creates the file can fail after storing its identity. */
  function Append(c: Codec<Record>, p: Process, r: Record, fault: Fault): (Process, bool)
  {
    var longer := Some(p.Content() + Line(c, r));
    if Refuses(p) then (p, false) else
    match fault
    case NoFault => (p.(file := longer, identity := longer), true)
    case Refuse => (p, false)
    case Interrupt(kept) => (p.(file := Some(p.Content() + Kept(Line(c, r), kept))), false)
    case Unattest => (p.(file := longer, identity := longer), p.file.Some?)
  }

  /** The file is not the one that was written or read last: every append raises. */
  predicate Refuses(p: Process) { p.identity.Some? && p.file != p.identity }

  /** Appends in order, with a fault in number `at`, up to the first that raises. */
  function AppendAll(c: Codec<Record>, p: Process, rs: seq<Record>, fault: Fault, at: int): (Process, bool)
    decreases |rs|
  {
    if rs == [] then (p, true) else
    var (q, ok) := Append(c, p, rs[0], if at == 0 then fault else NoFault);
    if ok then AppendAll(c, q, rs[1..], fault, at - 1) else (q, false)
  }

  /** One operation, and whether it returned. */
  function Perform(c: Codec<Record>, p: Process, op: Operation, fault: Fault, at: int): (Process, bool)
  {
    if !Admits(p.ledger, op) then (p, false) else
    var (q, ok) := AppendAll(c, p, Appends(p.ledger, op), fault, at);
    if ok then (q.(ledger := Apply(p.ledger, op)), true) else (q, false)
  }

  /** The file holds exactly the records that memory counts. */
  ghost predicate Consistent(c: Codec<Record>, p: Process)
  {
    && p.Content() == Written(c, p.ledger.journal)
    && (p.identity.Some? ==> p.identity == p.file)
  }

  /** The fault leaves nothing in the file that memory does not count. */
  predicate Harmless(p: Process, fault: Fault)
  {
    match fault
    case NoFault => true
    case Refuse => true
    case Interrupt(kept) => kept == 0
    case Unattest => p.file.Some?
  }

  /**
   The faults after which memory and file agree or the ledger refuses all further appends. In a first
   append these are all of them once an identity is known. In the second append of a restored call it is
   the other way round: a fault that leaves nothing of it leaves the reservation uncounted and the
   identity good.
  */
  predicate Contained(p: Process, op: Operation, fault: Fault, at: int)
  {
    if at == 0 then p.identity.Some? || Harmless(p, fault)
    else op.OpRestoreReconciled? && at == 1 ==> !fault.Refuse? && fault != Interrupt(0)
  }

  lemma AppendOne(c: Codec<Record>, p: Process, r: Record, fault: Fault, at: int)
    ensures AppendAll(c, p, [r], fault, at) == Append(c, p, r, if at == 0 then fault else NoFault)
  {
    var (q, ok) := Append(c, p, r, if at == 0 then fault else NoFault);
    assert [r][1..] == [];
  }

  lemma AppendTwo(c: Codec<Record>, p: Process, r: Record, s: Record, fault: Fault, at: int)
    ensures var (q, ok) := Append(c, p, r, if at == 0 then fault else NoFault);
            AppendAll(c, p, [r, s], fault, at)
            == if ok then Append(c, q, s, if at == 1 then fault else NoFault) else (q, false)
  {
    hide Append;
    var (q, ok) := Append(c, p, r, if at == 0 then fault else NoFault);
    assert [r, s][1..] == [s];
    AppendOne(c, q, s, fault, at - 1);
  }

  /** One append to a consistent journal. */
  lemma AppendEffect(c: Codec<Record>, p: Process, r: Record, fault: Fault)
    requires Consistent(c, p)
    ensures var (q, ok) := Append(c, p, r, fault);
            && q.ledger == p.ledger
            && (ok ==> q.Content() == Written(c, p.ledger.journal + [r]) && q.identity == q.file && q.file.Some?)
            && (!ok ==> (Consistent(c, q) || Refuses(q) <==> p.identity.Some? || Harmless(p, fault)))
            && (ok <==> fault.NoFault? || (fault.Unattest? && p.file.Some?))
  {
    WrittenAppend(c, p.ledger.journal, r);
  }

  /** The second append of a restored call, with the first in the file and nothing of it in memory. */
  lemma SecondAppend(c: Codec<Record>, p: Process, journal: seq<Record>, r: Record, fault: Fault)
    requires p.identity == p.file && p.file.Some? && p.ledger.journal == journal
    requires |p.Content()| > |Written(c, journal)|
    ensures var (q, ok) := Append(c, p, r, fault);
            && q.ledger == p.ledger
            && (ok ==> q.Content() == p.Content() + Line(c, r) && q.identity == q.file)
            && (!ok ==> !Consistent(c, q) && (Refuses(q) <==> !fault.Refuse? && fault != Interrupt(0)))
            && (ok <==> fault.NoFault? || fault.Unattest?)
  {
    assert p.Content() + Kept(Line(c, r), 0) == p.Content();
  }

  /** A completed operation leaves memory and file in agreement. */
  lemma CompletedIsConsistent(c: Codec<Record>, p: Process, op: Operation, q: Process)
    requires Admits(p.ledger, op) && q.ledger == Apply(p.ledger, op) && q.identity == q.file
    requires q.Content() == Written(c, p.ledger.journal + Appends(p.ledger, op))
    ensures Consistent(c, q)
  {
  }

  /**
   Whatever an admitted operation on a consistent ledger meets, afterwards memory and file agree or every
   further append is refused, if and only if the fault is contained.
  */
  lemma ContainedIff(c: Codec<Record>, p: Process, op: Operation, fault: Fault, at: int)
    requires Consistent(c, p) && Admits(p.ledger, op)
    ensures var q := Perform(c, p, op, fault, at).0;
            Consistent(c, q) || Refuses(q) <==> Contained(p, op, fault, at)
  {
    hide Consistent, Append, Written, Apply;
    var rs := Appends(p.ledger, op);
    if op.OpRestoreReconciled? {
      AppendTwo(c, p, rs[0], rs[1], fault, at);
      var given := if at == 0 then fault else NoFault;
      var (q, ok) := Append(c, p, rs[0], given);
      AppendEffect(c, p, rs[0], given);
      if ok {
        Longer(c, p.ledger.journal, rs[0]);
        SecondAppend(c, q, p.ledger.journal, rs[1], if at == 1 then fault else NoFault);
        WrittenTwo(c, p.ledger.journal, rs[0], rs[1]);
      }
    } else {
      AppendOne(c, p, rs[0], fault, at);
      AppendEffect(c, p, rs[0], if at == 0 then fault else NoFault);
    }
    var (q, ok) := Perform(c, p, op, fault, at);
    if ok { CompletedIsConsistent(c, p, op, q); }
  }

  lemma Longer(c: Codec<Record>, rs: seq<Record>, r: Record)
    ensures |Written(c, rs + [r])| > |Written(c, rs)|
  {
    WrittenAppend(c, rs, r);
  }

  lemma WrittenTwo(c: Codec<Record>, rs: seq<Record>, r: Record, s: Record)
    ensures Written(c, rs + [r]) + Line(c, s) == Written(c, rs + [r, s])
  {
    WrittenAppend(c, rs + [r], s);
    assert rs + [r] + [s] == rs + [r, s];
  }

  // ---------- Whole runs ----------

  datatype Event = Event(op: Operation, fault: Fault, at: int)

  function Run(c: Codec<Record>, p: Process, events: seq<Event>): Process
    decreases |events|
  {
    if events == [] then p else
      var e := events[0];
      Run(c, Perform(c, p, e.op, e.fault, e.at).0, events[1..])
  }

  /** Fresh ids all along the run, and no restored calls, whose second append can fail alone. */
  ghost predicate Lawful(c: Codec<Record>, p: Process, events: seq<Event>)
    decreases |events|
  {
    events == [] || (
      && Replay(p.ledger.journal).Some? && Fresh(p.ledger, events[0].op) && !events[0].op.OpRestoreReconciled?
      && Lawful(c, Perform(c, p, events[0].op, events[0].fault, events[0].at).0, events[1..]))
  }

  /** Every append raises from now on, and nothing changes. */
  lemma {:induction false} RefusesForever(c: Codec<Record>, p: Process, events: seq<Event>)
    requires Refuses(p)
    ensures Run(c, p, events) == p
    decreases |events|
  {
    if events != [] {
      assert Perform(c, p, events[0].op, events[0].fault, events[0].at) == (p, false);
      RefusesForever(c, p, events[1..]);
    }
  }

  lemma PerformKeeps(c: Codec<Record>, p: Process, op: Operation, fault: Fault, at: int)
    requires Valid(p.ledger) && Fresh(p.ledger, op) && !op.OpRestoreReconciled?
    ensures var q := Perform(c, p, op, fault, at).0;
            Valid(q.ledger) && q.ledger.maximum == p.ledger.maximum && (p.identity.Some? ==> q.identity.Some?)
  {
    hide Valid, Fresh, Written;
    ApplyKeepsValid(p.ledger, op);
    if Admits(p.ledger, op) { AppendOne(c, p, Appends(p.ledger, op)[0], fault, at); }
  }

  /**
   A ledger that knows its file's identity never drifts from it: whatever faults its appends meet, memory
   stays valid and within the maximum, and the file holds exactly what memory counts, or every further
   append is refused.
  */
  lemma {:induction false} KnownFileNeverDrifts(c: Codec<Record>, p: Process, events: seq<Event>)
    requires Valid(p.ledger) && Consistent(c, p) && p.identity.Some? && Lawful(c, p, events)
    ensures var q := Run(c, p, events);
            && Valid(q.ledger) && q.ledger.maximum == p.ledger.maximum
            && (Consistent(c, q) || Refuses(q))
    decreases |events|
  {
    hide Valid, Consistent, Perform, Refuses;
    if events != [] {
      var e := events[0];
      var q := Perform(c, p, e.op, e.fault, e.at).0;
      PerformKeeps(c, p, e.op, e.fault, e.at);
      if Admits(p.ledger, e.op) {
        ContainedIff(c, p, e.op, e.fault, e.at);
      } else {
        DeniedChangesNothing(c, p, e.op, e.fault, e.at);
      }
      if Refuses(q) {
        RefusesForever(c, q, events[1..]);
      } else {
        KnownFileNeverDrifts(c, q, events[1..]);
      }
    }
  }

  lemma DeniedChangesNothing(c: Codec<Record>, p: Process, op: Operation, fault: Fault, at: int)
    requires !Admits(p.ledger, op)
    ensures Perform(c, p, op, fault, at) == (p, false)
  {
  }

  // ---------- What the next process finds ----------

  lemma MemoryIsRestored(l: Ledger)
    requires Valid(l)
    ensures Restored(l.journal, l.maximum) == Some(l.spent + l.reserved)
  {
  }

  lemma Interrupted(c: Codec<Record>, p: Process, op: Operation, kept: nat)
    requires Consistent(c, p) && Admits(p.ledger, op) && !op.OpRestoreReconciled?
    ensures Perform(c, p, op, Interrupt(kept), 0).0.Content()
            == Written(c, p.ledger.journal) + Kept(Line(c, Appends(p.ledger, op)[0]), kept)
  {
    hide Written;
    AppendOne(c, p, Appends(p.ledger, op)[0], Interrupt(kept), 0);
  }

  /**
   After an append that was interrupted the next process opens with the operation as if it had returned,
   if its whole record is there; as if it had not been called, if nothing is; and it raises in between.
  */
  lemma ReopenedAfterFailure(c: Codec<Record>, w: Writable, p: Process, op: Operation, kept: nat)
    requires Canonical(c, w) && Valid(p.ledger) && Consistent(c, p)
    requires Fresh(p.ledger, op) && Admits(p.ledger, op) && !op.OpRestoreReconciled?
    requires AllWritable(w, p.ledger.journal + Appends(p.ledger, op))
    ensures var q, done := Perform(c, p, op, Interrupt(kept), 0).0, Apply(p.ledger, op);
            var r := Appends(p.ledger, op)[0];
            var tail := Kept(Line(c, r), kept);
            Restored(ReadJournal(c, q.Content()), p.ledger.maximum)
            == if tail == [] then Some(p.ledger.spent + p.ledger.reserved)
               else if tail == c.encode(r) || tail == Line(c, r) then Some(done.spent + done.reserved)
               else None
  {
    hide Canonical, ReadJournal, Written, Replay, Apply, Perform, Consistent, Fresh, Valid, Kept, Line, AllWritable;
    var journal, r := p.ledger.journal, Appends(p.ledger, op)[0];
    assert Appends(p.ledger, op) == [r];
    KeptIsPrefix(Line(c, r), kept);
    Interrupted(c, p, op, kept);
    ReadTail(c, w, journal, r, Kept(Line(c, r), kept));
    MemoryIsRestored(p.ledger);
    CrashAfterAppendLosesNothing(p.ledger, op);
    RefusedWithMalformed(journal, [], p.ledger.maximum);
    assert journal + [Malformed] + [] == journal + [Malformed];
  }

  lemma KeptIsPrefix(line: seq<Byte>, kept: nat)
    ensures Kept(line, kept) <= line
  {
  }

  /** The written records and a beginning of one more line: nothing more, that record, or a malformed line. */
  lemma ReadTail(c: Codec<Record>, w: Writable, journal: seq<Record>, r: Record, tail: seq<Byte>)
    requires Canonical(c, w) && AllWritable(w, journal + [r]) && tail <= Line(c, r)
    ensures ReadJournal(c, Written(c, journal) + tail)
            == if tail == [] then journal
               else journal + [if tail == c.encode(r) || tail == Line(c, r) then r else Malformed]
  {
    hide Canonical, ReadJournal, Written;
    assert (journal + [r])[|journal|] == r && forall i :: 0 <= i < |journal| ==> (journal + [r])[i] == journal[i];
    ReadAfterWritten(c, w, journal, tail);
    if tail == [] {
      NothingToRead(c);
    } else if tail == Line(c, r) {
      WrittenAppend(c, journal, r);
      ReadWritten(c, w, journal + [r]);
    } else {
      assert tail <= c.encode(r);
      TailIsOneLine(c, w, r, tail);
    }
  }

  // ---------- Where it drifts ----------

  const BINDING := Binding(0, 0)
  const FIRST := OpReserve(0, BINDING, 1.0)
  const RESTORED := OpRestoreReconciled(0, BINDING, 1.0, 0.0)
  const SECOND := OpReserve(1, BINDING, 1.0)

  /** Two reservations of the whole maximum in one file. */
  lemma TwiceTheMaximum(c: Codec<Record>, w: Writable)
    requires Canonical(c, w) && w(Reserve(0, BINDING, 1.0)) && w(Reserve(1, BINDING, 1.0))
    ensures Restored(ReadJournal(c, Line(c, Reserve(0, BINDING, 1.0)) + Line(c, Reserve(1, BINDING, 1.0))), 1.0).None?
  {
    hide Canonical, ReadJournal;
    var first, second := Reserve(0, BINDING, 1.0), Reserve(1, BINDING, 1.0);
    WrittenAppend(c, [], first);
    WrittenAppend(c, [first], second);
    assert [] + [first] == [first] && [first] + [second] == [first, second];
    assert Written(c, [first, second]) == Line(c, first) + Line(c, second);
    ReadWritten(c, w, [first, second]);
    ReplayAppend([], first);
    ReplayAppend([first], second);
    var a, b := Attempt(1.0, None, BINDING), Attempt(1.0, None, BINDING);
    SumUpdate(map[], 0, a);
    SumUpdate(map[0 := a], 1, b);
  }

  /** The first append of a new ledger is interrupted after its last byte, and the next call is accepted. */
  lemma FirstAppendCanLoseTheJournal(c: Codec<Record>, w: Writable)
    requires Canonical(c, w) && w(Reserve(0, BINDING, 1.0)) && w(Reserve(1, BINDING, 1.0))
    ensures var p := Process(New(1.0), None, None);
            var q := Perform(c, p, FIRST, Interrupt(|Line(c, Reserve(0, BINDING, 1.0))|), 0).0;
            var (t, ok) := Perform(c, q, SECOND, NoFault, 0);
            ok && t.ledger.reserved == 1.0 && Restored(ReadJournal(c, t.Content()), 1.0).None?
  {
    hide Canonical, ReadJournal, Restored;
    var p, first := Process(New(1.0), None, None), Reserve(0, BINDING, 1.0);
    var line := Line(c, first);
    AppendOne(c, p, first, Interrupt(|line|), 0);
    var q := Perform(c, p, FIRST, Interrupt(|line|), 0).0;
    assert Kept(line, |line|) == line && [] + line == line;
    AppendOne(c, q, Reserve(1, BINDING, 1.0), NoFault, 0);
    TwiceTheMaximum(c, w);
  }

  /** The second append of a restored call is refused by the system, and the next call is accepted. */
  lemma RestoredCallCanLoseTheJournal(c: Codec<Record>, w: Writable)
    requires Canonical(c, w) && w(Reserve(0, BINDING, 1.0)) && w(Reserve(1, BINDING, 1.0))
    ensures var p := Process(New(1.0), Some([]), Some([]));
            var q := Perform(c, p, RESTORED, Refuse, 1).0;
            var (t, ok) := Perform(c, q, SECOND, NoFault, 0);
            ok && t.ledger.reserved == 1.0 && Restored(ReadJournal(c, t.Content()), 1.0).None?
  {
    hide Canonical, ReadJournal, Restored;
    var p, first := Process(New(1.0), Some([]), Some([])), Reserve(0, BINDING, 1.0);
    AppendTwo(c, p, first, Reconcile(0, BINDING, 0.0), Refuse, 1);
    var q := Perform(c, p, RESTORED, Refuse, 1).0;
    assert [] + Line(c, first) == Line(c, first);
    AppendOne(c, q, Reserve(1, BINDING, 1.0), NoFault, 0);
    TwiceTheMaximum(c, w);
  }
}
