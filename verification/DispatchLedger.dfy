/**
 The generator dispatch ledger: an append-only journal of every attempt to call the generator, held
 twice, as file bytes and as tables in memory, and compared before every change.

 SHA-256 digests are opaque numbers; the size and digest of the file that memory keeps are modelled as
 its bytes. The lifetime lock is not modelled: nothing but this object touches the file between a crash
 and the next opening. Every operation is given the fault, if any, that the system raises in it.
*/
module DispatchLedger {
  import opened Bytes
  import opened Options
  import opened JournalLines

  type Digest = nat
  type AttemptId = nat

  datatype Key = Key(comparison: Digest, caseId: Digest, repetition: int, role: Digest)
  datatype Phase = PlannedPhase | DispatchedPhase | CompletedPhase | FailedPhase
  datatype Attempt = Attempt(key: Key, request: Digest, phase: Phase)

  datatype Record =
    | Header(binding: Digest)
    | Planned(id: AttemptId, key: Key, request: Digest, variant: Digest)
    | Dispatched(id: AttemptId)
    | Completed(id: AttemptId, result: Digest)
    | Failed(id: AttemptId, observed: bool, category: string)

  const MAX_BYTES := 32 * 1024 * 1024
  const MAX_RECORD_BYTES := 1024 * 1024
  const CATEGORIES := {"local_io", "provider", "request_validation", "result_validation", "unexpected"}

  datatype Tables = Tables(attempts: map<AttemptId, Attempt>, logical: map<Key, AttemptId>)

  // ---------- Replay of records ----------

  function Move(t: Tables, id: AttemptId, expected: Phase, updated: Phase): Option<Tables>
  {
    if id !in t.attempts || t.attempts[id].phase != expected then None
    else Some(t.(attempts := t.attempts[id := t.attempts[id].(phase := updated)]))
  }

  /** One record after the header; None is the raised error. */
  function ReplayStep(t: Tables, r: Record): Option<Tables>
  {
    match r
    case Header(_) => None
    case Planned(id, key, request, _) =>
      if id in t.attempts || key.repetition < 0 || key in t.logical then None
      else Some(Tables(t.attempts[id := Attempt(key, request, PlannedPhase)], t.logical[key := id]))
    case Dispatched(id) => Move(t, id, PlannedPhase, DispatchedPhase)
    case Completed(id, _) => Move(t, id, DispatchedPhase, CompletedPhase)
    case Failed(id, observed, category) =>
      if category !in CATEGORIES then None
      else Move(t, id, if observed then DispatchedPhase else PlannedPhase, FailedPhase)
  }

  /** The tables a journal of records stands for; None when it is refused. */
  function Fold(binding: Digest, rs: seq<Record>): Option<Tables>
  {
    if rs == [] then None
    else if |rs| == 1 then (if rs[0] == Header(binding) then Some(Tables(map[], map[])) else None)
    else match Fold(binding, rs[..|rs| - 1])
      case None => None
      case Some(t) => ReplayStep(t, rs[|rs| - 1])
  }

  lemma FoldAppend(binding: Digest, rs: seq<Record>, r: Record)
    requires rs != []
    ensures Fold(binding, rs + [r]) == if Fold(binding, rs).None? then None else ReplayStep(Fold(binding, rs).value, r)
  {
    assert (rs + [r])[..|rs|] == rs;
  }

  /** Every earlier journal replays too: what a cut at a record boundary leaves. */
  lemma {:induction false} PrefixFolds(binding: Digest, rs: seq<Record>, k: nat)
    requires Fold(binding, rs).Some? && 0 < k <= |rs|
    ensures Fold(binding, rs[..k]).Some?
    decreases |rs|
  {
    if k < |rs| {
      PrefixFolds(binding, rs[..|rs| - 1], k);
      assert rs[..|rs| - 1][..k] == rs[..k];
    } else {
      assert rs[..k] == rs;
    }
  }

  /** The two tables index each other. */
  ghost predicate Indexed(t: Tables)
  {
    && (forall id :: id in t.attempts ==> t.attempts[id].key in t.logical && t.logical[t.attempts[id].key] == id)
    && (forall key :: key in t.logical ==> t.logical[key] in t.attempts && t.attempts[t.logical[key]].key == key)
  }

  lemma {:induction false} FoldIsIndexed(binding: Digest, rs: seq<Record>)
    requires Fold(binding, rs).Some?
    ensures Indexed(Fold(binding, rs).value)
  {
    if |rs| > 1 { FoldIsIndexed(binding, rs[..|rs| - 1]); }
  }

  lemma {:induction false} PlannedIsRecorded(binding: Digest, rs: seq<Record>, i: nat)
    requires Fold(binding, rs).Some? && i < |rs| && rs[i].Planned?
    ensures rs[i].key in Fold(binding, rs).value.logical
  {
    var n := |rs| - 1;
    if i < n { PlannedIsRecorded(binding, rs[..n], i); }
  }

  /** A logical arm is planned at most once in the life of a journal, whatever became of the attempt. */
  lemma {:induction false} OneAttemptPerArm(binding: Digest, rs: seq<Record>, i: nat, j: nat)
    requires Fold(binding, rs).Some? && i < j < |rs| && rs[i].Planned? && rs[j].Planned?
    ensures rs[i].key != rs[j].key
  {
    PrefixFolds(binding, rs, j);
    PrefixFolds(binding, rs, j + 1);
    assert rs[..j + 1][..j] == rs[..j];
    PlannedIsRecorded(binding, rs[..j], i);
  }

  // ---------- Replay of bytes ----------

  function DecodeLines(c: Codec<Record>, lines: seq<seq<Byte>>): Option<seq<Record>>
  {
    if lines == [] then Some([]) else
    var last := lines[|lines| - 1];
    match DecodeLines(c, lines[..|lines| - 1])
    case None => None
    case Some(rs) =>
      if last == [] || |last| > MAX_RECORD_BYTES || c.decode(last).None? then None
      else Some(rs + [c.decode(last).value])
  }

  /** `_replay`: a file that does not end in a newline is torn. */
  function ReplayBytes(c: Codec<Record>, binding: Digest, raw: seq<Byte>): Option<(Tables, nat)>
  {
    if raw == [] || raw[|raw| - 1] != NEWLINE then None else
    match DecodeLines(c, Split(raw[..|raw| - 1]))
    case None => None
    case Some(rs) => if Fold(binding, rs).None? then None else Some((Fold(binding, rs).value, |rs|))
  }

  ghost predicate Sized(c: Codec<Record>, rs: seq<Record>)
  {
    forall i :: 0 <= i < |rs| ==> |c.encode(rs[i])| + 1 <= MAX_RECORD_BYTES
  }

  lemma {:induction false} DecodeWritten(c: Codec<Record>, rs: seq<Record>)
    requires Sound(c) && Sized(c, rs)
    ensures DecodeLines(c, Lines(c, rs)) == Some(rs)
  {
    if rs != [] {
      var n := |rs| - 1;
      DecodeWritten(c, rs[..n]);
      DecodeOneMore(c, Lines(c, rs[..n]), c.encode(rs[n]), rs[..n], rs[n]);
      assert rs == rs[..n] + [rs[n]];
    }
  }

  lemma DecodeOneMore(c: Codec<Record>, lines: seq<seq<Byte>>, last: seq<Byte>, rs: seq<Record>, r: Record)
    requires DecodeLines(c, lines) == Some(rs)
    requires last != [] && |last| <= MAX_RECORD_BYTES && c.decode(last) == Some(r)
    ensures DecodeLines(c, lines + [last]) == Some(rs + [r])
  {
    assert (lines + [last])[..|lines|] == lines;
  }

  /** Reading a written journal gives exactly the fold of its records and their number. */
  lemma ReplayWritten(c: Codec<Record>, binding: Digest, rs: seq<Record>)
    requires Sound(c) && Sized(c, rs)
    ensures ReplayBytes(c, binding, Written(c, rs))
            == if Fold(binding, rs).None? then None else Some((Fold(binding, rs).value, |rs|))
  {
    if rs != [] {
      SplitWritten(c, rs);
      DecodeWritten(c, rs);
    }
  }

  /**
   A journal cut anywhere: it is refused unless the cut falls right after a newline, and then it is
   the journal of the first `k` records, which replays to the tables the ledger had then.
  */
  lemma CutJournal(c: Codec<Record>, binding: Digest, rs: seq<Record>, cut: nat)
    requires Sound(c) && Sized(c, rs) && Fold(binding, rs).Some? && cut <= |Written(c, rs)|
    ensures var part := Written(c, rs)[..cut];
            if cut == 0 || part[cut - 1] != NEWLINE then ReplayBytes(c, binding, part).None? else
            exists k :: 0 < k <= |rs| && part == Written(c, rs[..k])
              && Fold(binding, rs[..k]).Some?
              && ReplayBytes(c, binding, part) == Some((Fold(binding, rs[..k]).value, k))
  {
    if cut > 0 && Written(c, rs)[cut - 1] == NEWLINE {
      var k := PrefixAtBoundary(c, rs, cut);
      PrefixFolds(binding, rs, k);
      ReplayWritten(c, binding, rs[..k]);
    }
  }

  // ---------- Faults ----------

  /** The file against memory: the same, with a torn or uncounted line at its end, or a record ahead. */
  datatype Disk = Clean | Torn(tail: seq<Byte>) | Ahead(r: Record)

  /** What an append under this fault leaves. */
  function Spill(c: Codec<Record>, r: Record, fault: Fault): Disk
  {
    match fault
    case NoFault => Clean
    case Refuse => Clean
    case Interrupt(kept) => if kept == 0 then Clean else Torn(Kept(Line(c, r), kept))
    case Unattest => Ahead(r)
  }

  /** The bytes in the file. */
  function OnDisk(c: Codec<Record>, rs: seq<Record>, disk: Disk): seq<Byte>
  {
    match disk
    case Clean => Written(c, rs)
    case Torn(tail) => Written(c, rs) + tail
    case Ahead(r) => Written(c, rs + [r])
  }

  /** A record that replays changes the tables. */
  lemma StepMoves(t: Tables, r: Record)
    requires ReplayStep(t, r).Some?
    ensures ReplayStep(t, r).value != t
  {
    if r.Planned? { assert r.id in ReplayStep(t, r).value.attempts; }
  }

  /**
   What the next process finds after a fault in an append: the record as if it had been acknowledged, if
   its whole line was written; the tables as they were, if none of it was; and a journal that it refuses
   in between.
  */
  lemma ReopenedAfterFault(c: Codec<Record>, binding: Digest, rs: seq<Record>, r: Record, fault: Fault)
    requires Sound(c) && Sized(c, rs + [r]) && Fold(binding, rs).Some? && Fold(binding, rs + [r]).Some?
    ensures var disk := Spill(c, r, fault);
            ReplayBytes(c, binding, OnDisk(c, rs, disk))
            == if disk.Clean? then Some((Fold(binding, rs).value, |rs|))
               else if disk.Ahead? || disk.tail == Line(c, r) then Some((Fold(binding, rs + [r]).value, |rs| + 1))
               else None
  {
    hide ReplayBytes, Fold, Sound;
    var disk, more := Spill(c, r, fault), rs + [r];
    assert forall i :: 0 <= i < |rs| ==> rs[i] == more[i];
    ReplayWritten(c, binding, rs);
    ReplayWritten(c, binding, more);
    WrittenAppend(c, rs, r);
    if disk.Torn? && disk.tail != Line(c, r) {
      var cut := |Written(c, rs)| + |disk.tail|;
      LineIsPlain(c, r);
      assert Written(c, more)[..cut] == Written(c, rs) + disk.tail;
      assert disk.tail[|disk.tail| - 1] == c.encode(r)[|disk.tail| - 1];
      CutJournal(c, binding, more, cut);
    }
  }

  // ---------- The object ----------

  class GeneratorDispatchLedger {
    const codec: Codec<Record>
    const binding: Digest
    var attempts: map<AttemptId, Attempt>
    var logicalAttempts: map<Key, AttemptId>
    var recordCount: nat
    /** The bytes whose size and digest memory keeps. */
    var known: seq<Byte>
    var journal: seq<Byte>
    ghost var records: seq<Record>
    ghost var disk: Disk

    ghost predicate Valid()
      reads this
    {
      && Sound(codec) && Sized(codec, records) && records != []
      && |Written(codec, records)| <= MAX_BYTES && Fold(binding, records) == Some(State())
      && journal == OnDisk(codec, records, disk)
      && known == (if disk.Torn? then Written(codec, records) else journal)
      && recordCount == |records| + (if disk.Ahead? then 1 else 0)
      && (disk.Torn? ==> disk.tail != [])
      && (disk.Ahead? ==> ReplayStep(State(), disk.r).Some? && Sized(codec, records + [disk.r]))
    }

    function State(): Tables
      reads this
    {
      Tables(attempts, logicalAttempts)
    }

    /** Opens over the bytes of an existing journal that replays. */
    constructor (codec: Codec<Record>, binding: Digest, existing: seq<Byte>, ghost rs: seq<Record>, tables: Tables,
            count: nat)
      requires Sound(codec) && Sized(codec, rs) && |existing| <= MAX_BYTES && existing == Written(codec, rs)
      requires ReplayBytes(codec, binding, existing) == Some((tables, count))
      ensures Valid() && State() == tables && journal == existing && records == rs && disk == Clean
      ensures this.codec == codec && this.binding == binding
    {
      this.codec, this.binding, journal, known, records, disk := codec, binding, existing, existing, rs, Clean;
      attempts, logicalAttempts, recordCount := tables.attempts, tables.logical, count;
      new;
      ReplayWritten(codec, binding, rs);
    }

    /** `_replay`, line by line and record by record. */
    method Replay(raw: seq<Byte>) returns (result: Option<(Tables, nat)>)
      ensures result == ReplayBytes(codec, binding, raw)
    {
      if raw == [] || raw[|raw| - 1] != NEWLINE { return None; }
      var lines := Split(raw[..|raw| - 1]);
      var rs: seq<Record> := [];
      for i := 0 to |lines|
        invariant DecodeLines(codec, lines[..i]) == Some(rs) && |rs| == i
      {
        assert lines[..i + 1][..i] == lines[..i];
        var line := lines[i];
        if line == [] || |line| > MAX_RECORD_BYTES || codec.decode(line) == None {
          RefusedLine(codec, lines, i);
          return None;
        }
        rs := rs + [codec.decode(line).value];
      }
      assert lines[..|lines|] == lines;
      if rs[0] != Header(binding) {
        RefusedFold(binding, rs, 0);
        return None;
      }
      var tables := Tables(map[], map[]);
      for i := 1 to |rs|
        invariant Fold(binding, rs[..i]) == Some(tables)
      {
        assert rs[..i + 1] == rs[..i] + [rs[i]];
        FoldAppend(binding, rs[..i], rs[i]);
        var next := ReplayStep(tables, rs[i]);
        if next.None? {
          RefusedFold(binding, rs, i);
          return None;
        }
        tables := next.value;
      }
      assert rs[..|rs|] == rs;
      result := Some((tables, |rs|));
    }

    /**
     `_sync`: re-reads the journal. It agrees with memory exactly until an append was interrupted; from
     then on it raises, for a size or digest that differs or for tables that do.
    */
    method Sync(fault: Fault) returns (ok: bool)
      requires Valid()
      ensures ok <==> disk.Clean? && !fault.Refuse?
    {
      hide ReplayBytes, Fold, Sound, Sized;
      if fault.Refuse? || journal != known { return false; }
      var replayed := Replay(journal);
      if disk.Clean? {
        ReplayWritten(codec, binding, records);
      } else if disk.Ahead? {
        StepMoves(State(), disk.r);
        FoldAppend(binding, records, disk.r);
        ReplayWritten(codec, binding, records + [disk.r]);
      }
      ok := replayed == Some((Tables(attempts, logicalAttempts), recordCount));
    }

    predicate Room(r: Record)
      reads this
    {
      |codec.encode(r)| + 1 <= MAX_RECORD_BYTES && |journal| + |codec.encode(r)| + 1 <= MAX_BYTES
    }

    /**
     `_append`: the record is durable before memory is updated; a full journal refuses it. Under a fault it
     raises with the tables as they were, whatever is in the file.
    */
    method Append(r: Record, next: Tables, fault: Fault) returns (ok: bool)
      requires Valid() && disk.Clean? && ReplayStep(State(), r) == Some(next)
      modifies this
      ensures Valid()
      ensures ok <==> old(Room(r)) && fault.NoFault?
      ensures ok ==> records == old(records) + [r] && journal == old(journal) + Line(codec, r) && State() == next
      ensures !ok ==> records == old(records) && State() == old(State())
      ensures disk == if old(Room(r)) then Spill(codec, r, fault) else Clean
    {
      hide Fold, Sound, Written, ReplayStep;
      var line := codec.encode(r) + [NEWLINE];
      if |line| > MAX_RECORD_BYTES || |journal| + |line| > MAX_BYTES || fault.Refuse? { return false; }
      WrittenAppend(codec, records, r);
      FoldAppend(binding, records, r);
      disk := Spill(codec, r, fault);
      if fault.Interrupt? {
        journal := journal + Kept(line, fault.kept);
        return false;
      }
      journal := journal + line;
      known, recordCount := journal, recordCount + 1;
      if fault.Unattest? { return false; }
      records := records + [r];
      attempts, logicalAttempts := next.attempts, next.logical;
      ok := true;
    }

    /** A new attempt of a new logical arm. */
    predicate IsNew(key: Key, id: AttemptId)
      reads this
    {
      key.repetition >= 0 && key !in logicalAttempts && id !in attempts
    }

    method PlanAttempt(id: AttemptId, key: Key, request: Digest, variant: Digest, fault: Fault) returns (ok: bool)
      requires Valid()
      modifies this
      ensures Valid()
      ensures ok <==> old(disk.Clean? && IsNew(key, id) && Room(Planned(id, key, request, variant))) && fault.NoFault?
      ensures ok ==> records == old(records) + [Planned(id, key, request, variant)]
      ensures ok ==> State() == Tables(old(attempts)[id := Attempt(key, request, PlannedPhase)],
                                       old(logicalAttempts)[key := id])
      ensures !ok ==> records == old(records) && State() == old(State())
      ensures disk == if old(disk.Clean? && IsNew(key, id) && Room(Planned(id, key, request, variant)))
                      then Spill(codec, Planned(id, key, request, variant), fault) else old(disk)
    {
      if key.repetition < 0 { return false; }
      var synced := Sync(fault);
      if !synced || key in logicalAttempts || id in attempts { return false; }
      ok := Append(Planned(id, key, request, variant),
                   Tables(attempts[id := Attempt(key, request, PlannedPhase)], logicalAttempts[key := id]), fault);
    }

    /** An attempt in this phase, and room for the record that moves it on. */
    predicate MayMove(r: Record, expected: Phase)
      requires !r.Header?
      reads this
    {
      r.id in attempts && attempts[r.id].phase == expected && Room(r)
    }

    /** The tables with the attempt in a new phase. */
    function Moved(id: AttemptId, updated: Phase): Tables
      requires id in attempts
      reads this
    {
      Tables(attempts[id := attempts[id].(phase := updated)], logicalAttempts)
    }

    /** `_transition`: out-of-order moves raise and change nothing. */
    method Transition(r: Record, expected: Phase, updated: Phase, fault: Fault) returns (ok: bool)
      requires Valid() && (r.Dispatched? || r.Completed? || r.Failed?)
      requires forall t :: ReplayStep(t, r) == Move(t, r.id, expected, updated)
      modifies this
      ensures Valid()
      ensures ok <==> old(disk.Clean? && MayMove(r, expected)) && fault.NoFault?
      ensures ok ==> records == old(records) + [r] && State() == old(Moved(r.id, updated))
      ensures !ok ==> records == old(records) && State() == old(State())
      ensures disk == if old(disk.Clean? && MayMove(r, expected)) then Spill(codec, r, fault) else old(disk)
    {
      hide Fold, Sound, Sized, Written, OnDisk, ReplayStep;
      var synced := Sync(fault);
      if !synced || r.id !in attempts || attempts[r.id].phase != expected { return false; }
      ok := Append(r, Tables(attempts[r.id := attempts[r.id].(phase := updated)], logicalAttempts), fault);
    }

    method MarkDispatched(id: AttemptId, fault: Fault) returns (ok: bool)
      requires Valid()
      modifies this
      ensures Valid()
      ensures ok <==> old(disk.Clean? && MayMove(Dispatched(id), PlannedPhase)) && fault.NoFault?
      ensures ok ==> records == old(records) + [Dispatched(id)] && State() == old(Moved(id, DispatchedPhase))
      ensures !ok ==> records == old(records) && State() == old(State())
      ensures disk == if old(disk.Clean? && MayMove(Dispatched(id), PlannedPhase))
                      then Spill(codec, Dispatched(id), fault) else old(disk)
    {
      ok := Transition(Dispatched(id), PlannedPhase, DispatchedPhase, fault);
    }

    method MarkCompleted(id: AttemptId, result: Digest, fault: Fault) returns (ok: bool)
      requires Valid()
      modifies this
      ensures Valid()
      ensures ok <==> old(disk.Clean? && MayMove(Completed(id, result), DispatchedPhase)) && fault.NoFault?
      ensures ok ==> records == old(records) + [Completed(id, result)] && State() == old(Moved(id, CompletedPhase))
      ensures !ok ==> records == old(records) && State() == old(State())
      ensures disk == if old(disk.Clean? && MayMove(Completed(id, result), DispatchedPhase))
                      then Spill(codec, Completed(id, result), fault) else old(disk)
    {
      ok := Transition(Completed(id, result), DispatchedPhase, CompletedPhase, fault);
    }

    method MarkFailed(id: AttemptId, observed: bool, category: string, fault: Fault) returns (ok: bool)
      requires Valid()
      modifies this
      ensures Valid()
      ensures ok <==> old(disk.Clean? && category in CATEGORIES
                          && MayMove(Failed(id, observed, category), Seen(observed))) && fault.NoFault?
      ensures ok ==> records == old(records) + [Failed(id, observed, category)]
      ensures ok ==> State() == old(Moved(id, FailedPhase))
      ensures !ok ==> records == old(records) && State() == old(State())
      ensures disk == if old(disk.Clean? && category in CATEGORIES
                             && MayMove(Failed(id, observed, category), Seen(observed)))
                      then Spill(codec, Failed(id, observed, category), fault) else old(disk)
    {
      if category !in CATEGORIES { return false; }
      ok := Transition(Failed(id, observed, category), Seen(observed), FailedPhase, fault);
    }

    /**
     The unresolved attempts and how many attempts each phase holds; it raises exactly if the journal
     cannot be read or an append was interrupted.
    */
    method Audit(fault: Fault) returns (result: Option<(set<AttemptId>, map<Phase, nat>)>)
      requires Valid()
      ensures result.Some? <==> disk.Clean? && !fault.Refuse?
      ensures result.Some? ==> result.value.0 == Unresolved(State())
      ensures result.Some? ==>
                result.value.0 == set id | id in attempts && attempts[id].phase in {PlannedPhase, DispatchedPhase}
      ensures result.Some? ==> result.value.1.Keys == {PlannedPhase, DispatchedPhase, CompletedPhase, FailedPhase}
      ensures result.Some? ==>
                forall p :: p in result.value.1 ==>
                  result.value.1[p] == |set id | id in attempts && attempts[id].phase == p|
      ensures result.Some? ==>
                var (unresolved, states) := result.value;
                && states[PlannedPhase] + states[DispatchedPhase] == |unresolved|
                && states[CompletedPhase] + states[FailedPhase] + |unresolved| == |attempts|
    {
      var synced := Sync(fault);
      if !synced { return None; }
      var states := map p: Phase | p in {PlannedPhase, DispatchedPhase, CompletedPhase, FailedPhase}
                     :: |InPhase(State(), p)|;
      PhasesPartition(State());
      forall p: Phase
        ensures InPhase(State(), p) == set id | id in attempts && attempts[id].phase == p
      {
      }
      result := Some((Unresolved(State()), states));
    }
  }

  /** The phase a failure is recorded from. */
  function Seen(observed: bool): Phase { if observed then DispatchedPhase else PlannedPhase }

  function InPhase(t: Tables, p: Phase): set<AttemptId> { set id | id in t.attempts && t.attempts[id].phase == p }

  function Unresolved(t: Tables): set<AttemptId>
  {
    set id | id in t.attempts && t.attempts[id].phase in {PlannedPhase, DispatchedPhase}
  }

  /** The record leads an attempt to this phase. */
  predicate LeadsTo(r: Record, p: Phase)
  {
    match p
    case PlannedPhase => r.Planned?
    case DispatchedPhase => r.Dispatched?
    case CompletedPhase => r.Completed?
    case FailedPhase => r.Failed?
  }

  /** And from this one; a plan leads from none. */
  predicate LeadsFrom(r: Record, p: Phase)
  {
    match p
    case PlannedPhase => r.Dispatched? || (r.Failed? && !r.observed)
    case DispatchedPhase => r.Completed? || (r.Failed? && r.observed)
    case CompletedPhase => false
    case FailedPhase => false
  }

  /** Every accepted record moves one attempt: one count goes up, one goes down unless it is a plan, the others stay. */
  lemma CountsMove(t: Tables, r: Record, p: Phase)
    requires ReplayStep(t, r).Some?
    ensures var next := ReplayStep(t, r).value;
            |InPhase(next, p)|
            == |InPhase(t, p)| + (if LeadsTo(r, p) then 1 else 0) - (if LeadsFrom(r, p) then 1 else 0)
  {
    hide InPhase;
    if r.Planned? {
      PlanCounts(t, r.id, r.key, r.request, p);
    } else {
      var expected, updated :=
        if r.Dispatched? || (r.Failed? && !r.observed) then PlannedPhase else DispatchedPhase,
        if r.Dispatched? then DispatchedPhase else if r.Completed? then CompletedPhase else FailedPhase;
      MoveCounts(t, r.id, expected, updated, p);
    }
  }

  lemma PlanCounts(t: Tables, id: AttemptId, key: Key, request: Digest, p: Phase)
    requires id !in t.attempts
    ensures var next := Tables(t.attempts[id := Attempt(key, request, PlannedPhase)], t.logical[key := id]);
            |InPhase(next, p)| == |InPhase(t, p)| + if p == PlannedPhase then 1 else 0
  {
    var next := Tables(t.attempts[id := Attempt(key, request, PlannedPhase)], t.logical[key := id]);
    assert InPhase(next, p) == if p == PlannedPhase then InPhase(t, p) + {id} else InPhase(t, p);
  }

  lemma MoveCounts(t: Tables, id: AttemptId, expected: Phase, updated: Phase, p: Phase)
    requires Move(t, id, expected, updated).Some? && expected != updated
    ensures |InPhase(Move(t, id, expected, updated).value, p)|
            == |InPhase(t, p)| + (if p == updated then 1 else 0) - (if p == expected then 1 else 0)
  {
    var next := Move(t, id, expected, updated).value;
    forall other: AttemptId
      ensures other in InPhase(next, p) <==> if other == id then p == updated else other in InPhase(t, p)
    {
    }
    assert id in InPhase(t, p) <==> p == expected;
    var before, after := InPhase(t, p), InPhase(next, p);
    hide Move, InPhase;
    if p == updated {
      assert after == before + {id};
    } else if p == expected {
      assert after == before - {id};
    } else {
      assert after == before;
    }
  }

  lemma PhasesPartition(t: Tables)
    ensures |InPhase(t, PlannedPhase)| + |InPhase(t, DispatchedPhase)| == |Unresolved(t)|
    ensures |InPhase(t, CompletedPhase)| + |InPhase(t, FailedPhase)| + |Unresolved(t)| == |t.attempts|
  {
    assert Unresolved(t) == InPhase(t, PlannedPhase) + InPhase(t, DispatchedPhase);
    assert t.attempts.Keys == InPhase(t, CompletedPhase) + InPhase(t, FailedPhase) + Unresolved(t);
    assert |t.attempts| == |t.attempts.Keys|;
    Disjoint(t);
    hide InPhase, Unresolved;
    PartsAddUp(InPhase(t, PlannedPhase), InPhase(t, DispatchedPhase), InPhase(t, CompletedPhase),
               InPhase(t, FailedPhase));
  }

  lemma Disjoint(t: Tables)
    ensures InPhase(t, PlannedPhase) !! InPhase(t, DispatchedPhase)
    ensures InPhase(t, CompletedPhase) !! InPhase(t, FailedPhase)
    ensures InPhase(t, CompletedPhase) + InPhase(t, FailedPhase)
            !! InPhase(t, PlannedPhase) + InPhase(t, DispatchedPhase)
  {
  }

  lemma PartsAddUp(a: set<AttemptId>, b: set<AttemptId>, c: set<AttemptId>, d: set<AttemptId>)
    requires a !! b && c !! d && c + d !! a + b
    ensures |a + b| == |a| + |b| && |c + d + (a + b)| == |c| + |d| + |a + b|
  {
    assert |c + d| == |c| + |d|;
  }

  lemma {:induction false} RefusedLine(c: Codec<Record>, lines: seq<seq<Byte>>, i: nat)
    requires i < |lines|
    requires lines[i] == [] || |lines[i]| > MAX_RECORD_BYTES || c.decode(lines[i]).None?
    ensures DecodeLines(c, lines).None?
  {
    if i < |lines| - 1 { RefusedLine(c, lines[..|lines| - 1], i); }
  }

  lemma {:induction false} RefusedFold(binding: Digest, rs: seq<Record>, i: nat)
    requires i < |rs| && Fold(binding, rs[..i + 1]).None?
    ensures Fold(binding, rs).None?
    decreases |rs|
  {
    if i < |rs| - 1 {
      assert rs[..|rs| - 1][..i + 1] == rs[..i + 1];
      RefusedFold(binding, rs[..|rs| - 1], i);
    } else {
      assert rs[..i + 1] == rs;
    }
  }

  /** A new journal holds its header alone; a header that does not fit is refused. */
  method Create(codec: Codec<Record>, binding: Digest) returns (ledger: GeneratorDispatchLedger?)
    requires Sound(codec)
    ensures ledger != null <==> |codec.encode(Header(binding))| + 1 <= MAX_RECORD_BYTES
    ensures ledger != null ==> fresh(ledger) && ledger.Valid() && ledger.State() == Tables(map[], map[])
    ensures ledger != null ==> ledger.records == [Header(binding)] && ledger.codec == codec && ledger.binding == binding
  {
    var line := codec.encode(Header(binding)) + [NEWLINE];
    if |line| > MAX_RECORD_BYTES { return null; }
    assert line == Written(codec, [Header(binding)]) by { assert Written(codec, []) + line == line; }
    ReplayWritten(codec, binding, [Header(binding)]);
    ledger := new GeneratorDispatchLedger(codec, binding, line, [Header(binding)], Tables(map[], map[]), 1);
  }

  /** A ledger can be opened again over what it wrote, and it then holds the same tables. */
  method Reopen(previous: GeneratorDispatchLedger) returns (next: GeneratorDispatchLedger)
    requires previous.Valid() && previous.disk.Clean?
    ensures fresh(next) && next.Valid() && next.State() == previous.State()
    ensures next.journal == previous.journal && next.records == previous.records
  {
    var replayed := previous.Replay(previous.journal);
    ReplayWritten(previous.codec, previous.binding, previous.records);
    next := new GeneratorDispatchLedger(previous.codec, previous.binding, previous.journal, previous.records,
                                        replayed.value.0, replayed.value.1);
  }
}
