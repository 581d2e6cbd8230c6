/**
 The spend journal as bytes, and what a crash inside the write of a record leaves.

 The ledger reads its file with `splitlines`, which takes a last line without its newline for a whole
 one, and appends without looking at what the file ends with.
*/
module SpendFile {
  import opened Bytes
  import opened Options
  import opened JournalLines
  import opened SpendJournal

  const RETURN: Byte := 13

  /** The records a ledger can write: well formed, with amounts that JSON can hold. */
  type Writable = Record -> bool

  /** Canonical JSON objects on a line each: neither a proper prefix of one nor two run together is one. */
  ghost predicate Canonical(c: Codec<Record>, w: Writable)
  {
    && !w(Malformed)
    && (forall r :: w(r) ==> NEWLINE !in c.encode(r) && RETURN !in c.encode(r) && c.encode(r) != [])
    && (forall r :: w(r) ==> c.decode(c.encode(r)) == Some(r))
    && (forall r, p :: w(r) && p < c.encode(r) ==> c.decode(p).None?)
    && (forall r, s :: w(r) && w(s) ==> c.decode(c.encode(r) + c.encode(s)).None?)
  }

  ghost predicate AllWritable(w: Writable, rs: seq<Record>) { forall i :: 0 <= i < |rs| ==> w(rs[i]) }

  predicate Terminates(b: Byte) { b == NEWLINE || b == RETURN }

  predicate Plain(s: seq<Byte>) { forall i :: 0 <= i < |s| ==> !Terminates(s[i]) }

  /** Length of the line at the start. */
  function LineLength(raw: seq<Byte>): (n: nat)
    ensures n <= |raw| && Plain(raw[..n]) && (n < |raw| ==> Terminates(raw[n]))
  {
    if raw == [] || Terminates(raw[0]) then 0 else 1 + LineLength(raw[1..])
  }

  /** Python's `splitlines` on bytes: LF, CR and CRLF end a line, and a last terminator starts no other. */
  function SplitLines(raw: seq<Byte>): seq<seq<Byte>>
    decreases |raw|
  {
    if raw == [] then [] else
      var n := LineLength(raw);
      if n == |raw| then [raw] else
        var crlf := raw[n] == RETURN && n + 1 < |raw| && raw[n + 1] == NEWLINE;
        [raw[..n]] + SplitLines(raw[n + (if crlf then 2 else 1)..])
  }

  function ReadRecord(c: Codec<Record>, line: seq<Byte>): Record
  {
    if c.decode(line).None? then Malformed else c.decode(line).value
  }

  function ReadLines(c: Codec<Record>, lines: seq<seq<Byte>>): seq<Record>
  {
    if lines == [] then [] else [ReadRecord(c, lines[0])] + ReadLines(c, lines[1..])
  }

  function ReadJournal(c: Codec<Record>, raw: seq<Byte>): seq<Record> { ReadLines(c, SplitLines(raw)) }

  /** What opening a ledger over these records gives; None where it raises. */
  ghost function Restored(rs: seq<Record>, maximum: real): Option<real>
  {
    if Replay(rs).Some? && Replay(rs).value.Committed() <= maximum then Some(Replay(rs).value.Committed()) else None
  }

  /** `_restore_journal` from the bytes on. */
  method Open(c: Codec<Record>, raw: seq<Byte>, maximum: real) returns (spent: Option<real>)
    ensures spent == Restored(ReadJournal(c, raw), maximum)
  {
    var left, records := SplitLines(raw), [];
    while left != []
      invariant ReadJournal(c, raw) == records + ReadLines(c, left)
      decreases |left|
    {
      assert (records + [ReadRecord(c, left[0])]) + ReadLines(c, left[1..]) == records + ReadLines(c, left);
      records, left := records + [ReadRecord(c, left[0])], left[1..];
    }
    assert records + [] == records;
    spent := RestoreJournal(records, maximum);
  }

  // ---------- Reading what was written ----------

  lemma {:induction false} LineLengthIs(raw: seq<Byte>, n: nat)
    requires n <= |raw| && Plain(raw[..n]) && (n < |raw| ==> Terminates(raw[n]))
    ensures LineLength(raw) == n
    decreases n
  {
    if n > 0 {
      assert !Terminates(raw[..n][0]);
      assert raw[1..][..n - 1] == raw[..n][1..];
      LineLengthIs(raw[1..], n - 1);
    }
  }

  /** A line ends at LF, CR or CRLF, and CRLF is one end; what follows is split by itself. */
  lemma SplitAfterLine(line: seq<Byte>, end: seq<Byte>, rest: seq<Byte>)
    requires Plain(line)
    requires end == [10] || end == [13, 10] || (end == [13] && (rest == [] || rest[0] != 10))
    ensures SplitLines(line + (end + rest)) == [line] + SplitLines(rest)
  {
    var raw := line + (end + rest);
    assert raw[..|line|] == line && raw[|line|] == end[0] && raw[|line| + |end|..] == rest;
    LineLengthIs(raw, |line|);
    if |end| == 2 {
      assert raw[|line| + 1] == end[1];
    } else if rest != [] {
      assert raw[|line| + 1] == rest[0];
    }
  }

  /** A last line needs no end, and an empty one is none. */
  lemma SplitLastLine(line: seq<Byte>)
    requires Plain(line)
    ensures SplitLines(line) == if line == [] then [] else [line]
  {
    assert line[..|line|] == line;
    LineLengthIs(line, |line|);
  }

  lemma FirstLine(c: Codec<Record>, line: seq<Byte>, rest: seq<Byte>)
    requires Plain(line)
    ensures ReadJournal(c, line + ([NEWLINE] + rest)) == [ReadRecord(c, line)] + ReadJournal(c, rest)
  {
    var raw := line + ([NEWLINE] + rest);
    assert raw[..|line|] == line && raw[|line|] == NEWLINE && raw[|line| + 1..] == rest;
    LineLengthIs(raw, |line|);
  }

  lemma LastLine(c: Codec<Record>, line: seq<Byte>)
    requires Plain(line) && line != []
    ensures ReadJournal(c, line) == [ReadRecord(c, line)]
  {
    assert line[..|line|] == line;
    LineLengthIs(line, |line|);
    assert SplitLines(line) == [line];
    assert ReadLines(c, [line]) == [ReadRecord(c, line)] + ReadLines(c, [line][1..]);
    assert [line][1..] == [] && ReadLines(c, []) == [];
  }

  lemma {:induction false} WrittenFront(c: Codec<Record>, rs: seq<Record>)
    requires rs != []
    ensures Written(c, rs) == c.encode(rs[0]) + ([NEWLINE] + Written(c, rs[1..]))
  {
    var n := |rs| - 1;
    if n == 0 {
      assert rs[..0] == [] && rs[1..] == [];
    } else {
      WrittenFront(c, rs[..n]);
      assert rs[..n][1..] == rs[1..][..n - 1];
      assert rs[1..][n - 1] == rs[n];
    }
  }

  lemma EncodedIsPlain(c: Codec<Record>, w: Writable, r: Record)
    requires Canonical(c, w) && w(r)
    ensures Plain(c.encode(r)) && c.encode(r) != [] && ReadRecord(c, c.encode(r)) == r
  {
    assert forall i :: 0 <= i < |c.encode(r)| ==> c.encode(r)[i] in c.encode(r);
  }

  /** A journal followed by anything is read as its records and whatever the rest is read as. */
  lemma {:induction false} ReadAfterWritten(c: Codec<Record>, w: Writable, rs: seq<Record>, rest: seq<Byte>)
    requires Canonical(c, w) && AllWritable(w, rs)
    ensures ReadJournal(c, Written(c, rs) + rest) == rs + ReadJournal(c, rest)
    decreases |rs|
  {
    if rs == [] {
      assert Written(c, rs) + rest == rest;
    } else {
      hide Canonical, ReadJournal, ReadRecord, Written, Plain;
      var line, more := c.encode(rs[0]), Written(c, rs[1..]);
      WrittenFront(c, rs);
      Regroup(line, [NEWLINE], more, rest);
      EncodedIsPlain(c, w, rs[0]);
      FirstLine(c, line, more + rest);
      ReadAfterWritten(c, w, rs[1..], rest);
      Front(rs, ReadJournal(c, rest));
    }
  }

  lemma Front(rs: seq<Record>, more: seq<Record>)
    requires rs != []
    ensures [rs[0]] + (rs[1..] + more) == rs + more
  {
  }

  lemma Regroup(a: seq<Byte>, b: seq<Byte>, c: seq<Byte>, d: seq<Byte>)
    ensures (a + (b + c)) + d == a + (b + (c + d))
  {
  }

  /** Reading what was written, whole. */
  lemma ReadWritten(c: Codec<Record>, w: Writable, rs: seq<Record>)
    requires Canonical(c, w) && AllWritable(w, rs)
    ensures ReadJournal(c, Written(c, rs)) == rs
  {
    ReadAfterWritten(c, w, rs, []);
    assert Written(c, rs) + [] == Written(c, rs);
  }

  // ---------- A journal cut anywhere ----------

  /** The whole records before the cut, and what is left of the next one. */
  lemma {:induction false} CutSplits(c: Codec<Record>, rs: seq<Record>, cut: nat) returns (k: nat, tail: seq<Byte>)
    requires cut <= |Written(c, rs)|
    ensures k <= |rs| && Written(c, rs)[..cut] == Written(c, rs[..k]) + tail
    ensures tail != [] ==> k < |rs| && tail <= c.encode(rs[k])
    decreases |rs|
  {
    if rs == [] {
      k, tail := 0, [];
    } else {
      var n := |rs| - 1;
      var raw, before, line := Written(c, rs), Written(c, rs[..n]), c.encode(rs[n]);
      if cut <= |before| {
        k, tail := CutSplits(c, rs[..n], cut);
        assert raw[..cut] == before[..cut];
        assert rs[..n][..k] == rs[..k];
      } else if cut == |raw| {
        k, tail := |rs|, [];
        assert rs[..k] == rs && raw[..cut] == raw == raw + [];
      } else {
        k, tail := n, line[..cut - |before|];
        assert raw == before + (line + [NEWLINE]);
      }
    }
  }

  /**
   What a journal cut at any byte opens as: the whole records before the cut; with the last of them even
   if only its newline is missing; and nothing at all if the cut fell inside a record.
  */
  lemma CutSpendJournal(c: Codec<Record>, w: Writable, rs: seq<Record>, cut: nat) returns (k: nat, tail: seq<Byte>)
    requires Canonical(c, w) && AllWritable(w, rs) && cut <= |Written(c, rs)|
    ensures k <= |rs| && Written(c, rs)[..cut] == Written(c, rs[..k]) + tail
    ensures tail != [] ==> k < |rs| && tail <= c.encode(rs[k])
    ensures forall maximum ::
              Restored(ReadJournal(c, Written(c, rs)[..cut]), maximum)
              == if tail == [] then Restored(rs[..k], maximum)
                 else if tail == c.encode(rs[k]) then Restored(rs[..k + 1], maximum)
                 else None
  {
    hide Canonical, Replay, ReadJournal, Written;
    k, tail := CutSplits(c, rs, cut);
    ReadAfterWritten(c, w, rs[..k], tail);
    if tail == [] {
      NothingToRead(c);
      assert rs[..k] + [] == rs[..k];
    } else {
      TailIsOneLine(c, w, rs[k], tail);
      assert rs[..k] + [rs[k]] == rs[..k + 1];
      MalformedRefuses(rs[..k], []);
      assert rs[..k] + [Malformed] + [] == rs[..k] + [Malformed];
    }
  }

  /** A partial record is a line of its own: the record if all of it is there, and otherwise malformed. */
  lemma TailIsOneLine(c: Codec<Record>, w: Writable, r: Record, tail: seq<Byte>)
    requires Canonical(c, w) && w(r) && tail != [] && tail <= c.encode(r)
    ensures ReadJournal(c, tail) == [if tail == c.encode(r) then r else Malformed]
  {
    EncodedIsPlain(c, w, r);
    assert forall i :: 0 <= i < |tail| ==> tail[i] == c.encode(r)[i];
    LastLine(c, tail);
  }

  lemma MalformedRefuses(rs: seq<Record>, more: seq<Record>)
    ensures Replay(rs + [Malformed] + more).None?
  {
    ReplayAppend(rs, Malformed);
    assert (rs + [Malformed] + more)[..|rs| + 1] == rs + [Malformed];
    ReplayPrefix(rs + [Malformed] + more, |rs| + 1);
  }

  // ---------- Appending after a crash ----------

  /** The file holds whole records, and the next one will be read as one more. */
  ghost predicate Appendable(c: Codec<Record>, w: Writable, raw: seq<Byte>)
  {
    forall r :: w(r) ==> ReadJournal(c, raw + Line(c, r)) == ReadJournal(c, raw) + [r]
  }

  /** After a lost newline the ledger opens with every record; with one more appended it never opens again. */
  lemma LostNewlineLosesTheJournal(c: Codec<Record>, w: Writable, rs: seq<Record>, last: Record, more: seq<Record>,
          maximum: real)
    requires Canonical(c, w) && AllWritable(w, rs) && w(last) && AllWritable(w, more) && more != []
    ensures ReadJournal(c, Written(c, rs) + c.encode(last)) == rs + [last]
    ensures Restored(ReadJournal(c, Written(c, rs) + c.encode(last) + Written(c, more)), maximum).None?
  {
    hide Canonical, ReadJournal, ReadRecord, Restored, Written;
    var line, rest := c.encode(last), Written(c, more[1..]);
    ReadAfterWritten(c, w, rs, line);
    EncodedIsPlain(c, w, last);
    TailIsOneLine(c, w, last, line);
    WrittenFront(c, more);
    JoinedLine(c, w, last, more[0], rest);
    ReadWritten(c, w, more[1..]);
    assert Written(c, rs) + line + Written(c, more) == Written(c, rs) + (line + Written(c, more));
    ReadAfterWritten(c, w, rs, line + Written(c, more));
    assert rs + ([Malformed] + more[1..]) == rs + [Malformed] + more[1..];
    RefusedWithMalformed(rs, more[1..], maximum);
  }

  lemma RefusedWithMalformed(rs: seq<Record>, more: seq<Record>, maximum: real)
    ensures Restored(rs + [Malformed] + more, maximum).None?
  {
    MalformedRefuses(rs, more);
  }

  /** Two records run together are read as one malformed line. */
  lemma JoinedLine(c: Codec<Record>, w: Writable, first: Record, second: Record, rest: seq<Byte>)
    requires Canonical(c, w) && w(first) && w(second)
    ensures ReadJournal(c, c.encode(first) + (c.encode(second) + ([NEWLINE] + rest)))
            == [Malformed] + ReadJournal(c, rest)
  {
    hide ReadJournal;
    EncodedIsPlain(c, w, first);
    EncodedIsPlain(c, w, second);
    JoinedLines(c.encode(first), c.encode(second), rest);
    FirstLine(c, c.encode(first) + c.encode(second), rest);
  }

  lemma JoinedLines(a: seq<Byte>, b: seq<Byte>, rest: seq<Byte>)
    ensures a + (b + ([NEWLINE] + rest)) == (a + b) + ([NEWLINE] + rest)
  {
  }

  /**
   A journal cut anywhere can be appended to if and only if it is empty or ends in a newline. The
   dispatch ledger tests for that; this ledger does not.
  */
  lemma CutIsAppendableIff(c: Codec<Record>, w: Writable, rs: seq<Record>, cut: nat)
    requires Canonical(c, w) && AllWritable(w, rs) && cut <= |Written(c, rs)|
    ensures var part := Written(c, rs)[..cut];
            Appendable(c, w, part) && Malformed !in ReadJournal(c, part) <==> part == [] || part[|part| - 1] == NEWLINE
  {
    var part := Written(c, rs)[..cut];
    var k, tail := CutSplits(c, rs, cut);
    ReadAfterWritten(c, w, rs[..k], tail);
    if tail == [] {
      WholeIsAppendable(c, w, rs[..k]);
      assert Written(c, rs[..k]) + [] == Written(c, rs[..k]);
    } else {
      TailIsOneLine(c, w, rs[k], tail);
      EncodedIsPlain(c, w, rs[k]);
      assert part[|part| - 1] == tail[|tail| - 1] == c.encode(rs[k])[|tail| - 1];
      if tail == c.encode(rs[k]) { LostNewlineIsNotAppendable(c, w, rs[..k], rs[k]); }
    }
  }

  lemma WholeIsAppendable(c: Codec<Record>, w: Writable, rs: seq<Record>)
    requires Canonical(c, w) && AllWritable(w, rs)
    ensures Appendable(c, w, Written(c, rs)) && ReadJournal(c, Written(c, rs)) == rs
    ensures rs == [] || Written(c, rs)[|Written(c, rs)| - 1] == NEWLINE
  {
    ReadWritten(c, w, rs);
    forall r | w(r)
      ensures ReadJournal(c, Written(c, rs) + Line(c, r)) == rs + [r]
    {
      WrittenAppend(c, rs, r);
      ReadWritten(c, w, rs + [r]);
    }
  }

  lemma LostNewlineIsNotAppendable(c: Codec<Record>, w: Writable, rs: seq<Record>, last: Record)
    requires Canonical(c, w) && AllWritable(w, rs) && w(last)
    ensures !Appendable(c, w, Written(c, rs) + c.encode(last))
  {
    hide Canonical, ReadJournal, ReadRecord, Written;
    var raw, r := Written(c, rs) + c.encode(last), last;
    ReadAfterWritten(c, w, rs, c.encode(last));
    EncodedIsPlain(c, w, last);
    TailIsOneLine(c, w, last, c.encode(last));
    ReadAfterWritten(c, w, rs, c.encode(last) + Line(c, r));
    assert raw + Line(c, r) == Written(c, rs) + (c.encode(last) + Line(c, r));
    JoinedLine(c, w, last, r, []);
    assert [NEWLINE] + [] == [NEWLINE];
    NothingToRead(c);
    assert ReadJournal(c, c.encode(last) + Line(c, r)) == [Malformed];
    assert |rs + [Malformed]| != |(rs + [last]) + [r]|;
  }

  lemma NothingToRead(c: Codec<Record>)
    ensures ReadJournal(c, []) == []
  {
  }
}
