/**
 Newline-terminated records in an append-only file.

 Canonical JSON is kept abstract: a codec gives each record its line and reads a line back, refusing
 one that is not in canonical form. A sound codec's lines are non-empty, hold no newline, and read
 back as written.
*/
module JournalLines {
  import opened Bytes
  import opened Options

  datatype Codec<!R> = Codec(encode: R -> seq<Byte>, decode: seq<Byte> -> Option<R>)

  ghost predicate Sound<R(!new)>(c: Codec<R>)
  {
    forall r :: NEWLINE !in c.encode(r) && c.encode(r) != [] && c.decode(c.encode(r)) == Some(r)
  }

  function Line<R>(c: Codec<R>, r: R): seq<Byte> { c.encode(r) + [NEWLINE] }

  /**
   What the system does to an append: nothing; refuse a call before the first byte is written; raise when
   `kept` bytes of the line, perhaps all, are in the file; or raise after the append, when memory has
   stored the file's new identity but not yet what the record means.
  */
  datatype Fault = NoFault | Refuse | Interrupt(kept: nat) | Unattest

  /** What an interrupted append leaves of its line. */
  function Kept(line: seq<Byte>, kept: nat): seq<Byte> { line[..if kept < |line| then kept else |line|] }

  /** The whole file. */
  function Written<R>(c: Codec<R>, rs: seq<R>): seq<Byte>
  {
    if rs == [] then [] else Written(c, rs[..|rs| - 1]) + Line(c, rs[|rs| - 1])
  }

  lemma WrittenAppend<R>(c: Codec<R>, rs: seq<R>, r: R)
    ensures Written(c, rs + [r]) == Written(c, rs) + Line(c, r)
  {
    assert (rs + [r])[..|rs|] == rs;
  }

  /** Python's `split(b"\n")`, from the right end. */
  function Split(raw: seq<Byte>): (lines: seq<seq<Byte>>)
    ensures |lines| >= 1
  {
    if NEWLINE !in raw then [raw] else
      var i := LastNewline(raw);
      Split(raw[..i]) + [raw[i + 1..]]
  }

  function LastNewline(raw: seq<Byte>): (i: nat)
    requires NEWLINE in raw
    ensures i < |raw| && raw[i] == NEWLINE && NEWLINE !in raw[i + 1..]
  {
    var n := |raw| - 1;
    if raw[n] == NEWLINE then n else
      assert raw == raw[..n] + [raw[n]];
      var i := LastNewline(raw[..n]);
      assert raw[i + 1..] == raw[..n][i + 1..] + [raw[n]];
      i
  }

  lemma LastNewlineUnique(raw: seq<Byte>, i: nat)
    requires i < |raw| && raw[i] == NEWLINE && NEWLINE !in raw[i + 1..]
    ensures LastNewline(raw) == i
  {
    var j := LastNewline(raw);
    forall k | i < k < |raw|
      ensures raw[k] != NEWLINE
    {
      assert raw[k] == raw[i + 1..][k - i - 1];
    }
    forall k | j < k < |raw|
      ensures raw[k] != NEWLINE
    {
      assert raw[k] == raw[j + 1..][k - j - 1];
    }
  }

  function Lines<R>(c: Codec<R>, rs: seq<R>): seq<seq<Byte>>
  {
    if rs == [] then [] else Lines(c, rs[..|rs| - 1]) + [c.encode(rs[|rs| - 1])]
  }

  lemma SplitAfter(before: seq<Byte>, line: seq<Byte>)
    requires before != [] && before[|before| - 1] == NEWLINE && NEWLINE !in line
    ensures Split(before + line) == Split(before[..|before| - 1]) + [line]
  {
    var body, i := before + line, |before| - 1;
    assert body[i] in body;
    assert body[i + 1..] == line && body[..i] == before[..i];
    LastNewlineUnique(body, i);
  }

  /** Splitting a written file gives back the lines. */
  lemma {:induction false} SplitWritten<R(!new)>(c: Codec<R>, rs: seq<R>)
    requires Sound(c) && rs != []
    ensures var raw := Written(c, rs);
            raw != [] && raw[|raw| - 1] == NEWLINE && Split(raw[..|raw| - 1]) == Lines(c, rs)
  {
    hide Sound, Split;
    var n := |rs| - 1;
    var line := c.encode(rs[n]);
    var before := Written(c, rs[..n]);
    LineIsPlain(c, rs[n]);
    TrimLine(before, line);
    if n == 0 {
      assert before + line == line;
      SplitOneLine(line);
    } else {
      SplitWritten(c, rs[..n]);
      SplitAfter(before, line);
    }
  }

  lemma LineIsPlain<R(!new)>(c: Codec<R>, r: R)
    requires Sound(c)
    ensures NEWLINE !in c.encode(r) && c.encode(r) != []
  {
  }

  lemma SplitOneLine(line: seq<Byte>)
    requires NEWLINE !in line
    ensures Split(line) == [line]
  {
  }

  lemma TrimLine(before: seq<Byte>, line: seq<Byte>)
    ensures var raw := before + (line + [NEWLINE]);
            raw[|raw| - 1] == NEWLINE && raw[..|raw| - 1] == before + line
  {
  }

  /** A newline-terminated prefix of a written file is itself the file of a prefix of the records. */
  lemma {:induction false} PrefixAtBoundary<R(!new)>(c: Codec<R>, rs: seq<R>, cut: nat) returns (k: nat)
    requires Sound(c) && 0 < cut <= |Written(c, rs)| && Written(c, rs)[cut - 1] == NEWLINE
    ensures 0 < k <= |rs| && Written(c, rs)[..cut] == Written(c, rs[..k])
  {
    var n := |rs| - 1;
    var raw, before := Written(c, rs), Written(c, rs[..n]);
    if cut <= |before| {
      k := PrefixAtBoundary(c, rs[..n], cut);
      assert raw[..cut] == before[..cut];
      assert rs[..n][..k] == rs[..k];
    } else {
      k := |rs|;
      var line := c.encode(rs[n]);
      forall i | |before| <= i < |raw| - 1
        ensures raw[i] != NEWLINE
      {
        assert raw[i] == line[i - |before|];
      }
      assert rs[..k] == rs && raw[..cut] == raw;
    }
  }
}
