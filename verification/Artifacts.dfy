/**
 Bounded canonical artifacts: the shape check of parsed JSON, and normalisation of text and JSON.
*/
module JsonShape {
  import opened Bytes
  import opened Utf8

  datatype Json = Object(members: seq<Member>) | Array(items: seq<Json>) | String(text: Text) | Atom
  datatype Member = Member(key: Text, value: Json)

  const MAX_DEPTH := 64
  const MAX_MEMBERS := 10_000
  const MAX_STRING_BYTES := 256 * 1024

  // ---------- Strings ----------

  /** Strict UTF-8 can encode it, in few enough bytes. */
  predicate StringFits(s: Text) { Scalars(s) && |Encode(s)| <= MAX_STRING_BYTES }

  // ---------- The recursive reference ----------

  function Max(a: nat, b: nat): nat { if a > b then a else b }

  /** Depth with scalar leaves counted as a level. */
  function Depth(v: Json): nat
    decreases v, 1
  {
    1 + match v
        case Object(members) => MembersDepth(members)
        case Array(items) => ItemsDepth(items)
        case _ => 0
  }

  function MembersDepth(ms: seq<Member>): nat
    decreases ms, 0
  {
    if ms == [] then 0 else Max(Depth(ms[0].value), MembersDepth(ms[1..]))
  }

  function ItemsDepth(xs: seq<Json>): nat
    decreases xs, 0
  {
    if xs == [] then 0 else Max(Depth(xs[0]), ItemsDepth(xs[1..]))
  }

  /** Object members and array items in the whole tree. */
  function Count(v: Json): nat
    decreases v, 1
  {
    match v
    case Object(members) => MembersCount(members)
    case Array(items) => ItemsCount(items)
    case _ => 0
  }

  function MembersCount(ms: seq<Member>): nat
    decreases ms, 0
  {
    if ms == [] then 0 else 1 + Count(ms[0].value) + MembersCount(ms[1..])
  }

  function ItemsCount(xs: seq<Json>): nat
    decreases xs, 0
  {
    if xs == [] then 0 else 1 + Count(xs[0]) + ItemsCount(xs[1..])
  }

  predicate StringsFit(v: Json)
    decreases v, 1
  {
    match v
    case Object(members) => MembersFit(members)
    case Array(items) => ItemsFit(items)
    case String(s) => StringFits(s)
    case Atom => true
  }

  predicate MembersFit(ms: seq<Member>)
    decreases ms, 0
  {
    ms == [] || (StringFits(ms[0].key) && StringsFit(ms[0].value) && MembersFit(ms[1..]))
  }

  predicate ItemsFit(xs: seq<Json>)
    decreases xs, 0
  {
    xs == [] || (StringsFit(xs[0]) && ItemsFit(xs[1..]))
  }

  predicate WithinBounds(v: Json)
  {
    Depth(v) <= MAX_DEPTH && Count(v) <= MAX_MEMBERS && StringsFit(v)
  }

  // ---------- The stack ----------

  type Entry = (Json, nat)

  /** Members still to be counted below the entries of a stack. */
  function Pending(stack: seq<Entry>): nat
  {
    if stack == [] then 0 else Pending(stack[..|stack| - 1]) + Count(stack[|stack| - 1].0)
  }

  /** Every entry fits at its depth. */
  predicate EntriesFit(stack: seq<Entry>)
  {
    forall i :: 0 <= i < |stack| ==> Depth(stack[i].0) + stack[i].1 - 1 <= MAX_DEPTH && StringsFit(stack[i].0)
  }

  lemma PendingPush(stack: seq<Entry>, e: Entry)
    ensures Pending(stack + [e]) == Pending(stack) + Count(e.0)
    ensures EntriesFit(stack + [e]) <==> EntriesFit(stack) && Depth(e.0) + e.1 - 1 <= MAX_DEPTH && StringsFit(e.0)
  {
    assert (stack + [e])[..|stack|] == stack;
    assert (stack + [e])[|stack|] == e;
    if EntriesFit(stack + [e]) {
      forall i | 0 <= i < |stack|
        ensures Depth(stack[i].0) + stack[i].1 - 1 <= MAX_DEPTH && StringsFit(stack[i].0)
      {
        assert (stack + [e])[i] == stack[i];
      }
    }
  }

  lemma NothingPending()
    ensures EntriesFit([])
  {
  }

  /** The children of an object pushed one after another, its keys checked on the way. */
  method PushMembers(rest: seq<Entry>, ms: seq<Member>, depth: nat) returns (ok: bool, stack: seq<Entry>)
    requires depth <= MAX_DEPTH
    ensures ok ==> |stack| + Pending(stack) == |rest| + Pending(rest) + MembersCount(ms)
    ensures ok ==> Pending(stack) + |ms| == Pending(rest) + MembersCount(ms)
    ensures (ok && EntriesFit(stack)) <==> EntriesFit(rest) && MembersFit(ms) && MembersDepth(ms) + depth <= MAX_DEPTH
  {
    stack := rest;
    for i := 0 to |ms|
      invariant |stack| == |rest| + i
      invariant Pending(stack) + i + MembersCount(ms[i..]) == Pending(rest) + MembersCount(ms)
      invariant EntriesFit(stack) && MembersFit(ms[i..]) && MembersDepth(ms[i..]) + depth <= MAX_DEPTH
                <==> EntriesFit(rest) && MembersFit(ms) && MembersDepth(ms) + depth <= MAX_DEPTH
    {
      assert ms[i..][0] == ms[i] && ms[i..][1..] == ms[i + 1..];
      if !Scalars(ms[i].key) || |Encode(ms[i].key)| > MAX_STRING_BYTES { return false, stack; }
      PendingPush(stack, (ms[i].value, depth + 1));
      stack := stack + [(ms[i].value, depth + 1)];
    }
    ok := true;
  }

  method PushItems(rest: seq<Entry>, xs: seq<Json>, depth: nat) returns (stack: seq<Entry>)
    requires depth <= MAX_DEPTH
    ensures |stack| + Pending(stack) == |rest| + Pending(rest) + ItemsCount(xs)
    ensures Pending(stack) + |xs| == Pending(rest) + ItemsCount(xs)
    ensures EntriesFit(stack) <==> EntriesFit(rest) && ItemsFit(xs) && ItemsDepth(xs) + depth <= MAX_DEPTH
  {
    stack := rest;
    for i := 0 to |xs|
      invariant |stack| == |rest| + i
      invariant Pending(stack) + i + ItemsCount(xs[i..]) == Pending(rest) + ItemsCount(xs)
      invariant EntriesFit(stack) && ItemsFit(xs[i..]) && ItemsDepth(xs[i..]) + depth <= MAX_DEPTH
                <==> EntriesFit(rest) && ItemsFit(xs) && ItemsDepth(xs) + depth <= MAX_DEPTH
    {
      assert xs[i..][0] == xs[i] && xs[i..][1..] == xs[i + 1..];
      PendingPush(stack, (xs[i], depth + 1));
      stack := stack + [(xs[i], depth + 1)];
    }
  }

  /** `_validate_json_shape`: the explicit stack accepts exactly the trees within the recursive bounds. */
  method ValidateJsonShape(root: Json) returns (ok: bool)
    ensures ok <==> WithinBounds(root)
  {
    hide EntriesFit;
    var members, stack := 0, [(root, 1)];
    NothingPending();
    PendingPush([], (root, 1));
    assert [] + [(root, 1)] == [(root, 1)];
    while stack != []
      invariant members <= MAX_MEMBERS
      invariant WithinBounds(root) <==> EntriesFit(stack) && members + Pending(stack) <= MAX_MEMBERS
      decreases |stack| + Pending(stack)
    {
      var (value, depth) := stack[|stack| - 1];
      var rest := stack[..|stack| - 1];
      assert stack == rest + [(value, depth)];
      PendingPush(rest, (value, depth));
      if depth > MAX_DEPTH { return false; }
      stack := rest;
      match value {
        case Object(ms) =>
          members := members + |ms|;
          var fits;
          fits, stack := PushMembers(rest, ms, depth);
          if !fits { return false; }
        case Array(xs) =>
          members := members + |xs|;
          stack := PushItems(rest, xs, depth);
        case String(s) =>
          if !Scalars(s) || |Encode(s)| > MAX_STRING_BYTES { return false; }
        case Atom =>
      }
      if members > MAX_MEMBERS { return false; }
    }
    ok := true;
  }
}

module Artifacts {
  import opened Bytes
  import opened Options
  import opened Utf8

  const CR: Byte := 13
  const LF: Byte := 10
  const MAX_ARTIFACT_BYTES := 1024 * 1024

  // ---------- Line endings ----------

  /** `content.replace(b"\r\n", b"\n")`. */
  function ReplaceCrLf(s: seq<Byte>): seq<Byte>
  {
    if s == [] then []
    else if |s| >= 2 && s[0] == CR && s[1] == LF then [LF] + ReplaceCrLf(s[2..])
    else [s[0]] + ReplaceCrLf(s[1..])
  }

  /** `content.replace(b"\r", b"\n")`. */
  function ReplaceCr(s: seq<Byte>): seq<Byte>
  {
    if s == [] then [] else [if s[0] == CR then LF else s[0]] + ReplaceCr(s[1..])
  }

  function NormalizeText(s: seq<Byte>): seq<Byte> { ReplaceCr(ReplaceCrLf(s)) }

  /** One pass over the three line endings: what the two passes together mean. */
  function UniversalNewlines(s: seq<Byte>): seq<Byte>
  {
    if s == [] then []
    else if s[0] != CR then [s[0]] + UniversalNewlines(s[1..])
    else [LF] + UniversalNewlines(if |s| >= 2 && s[1] == LF then s[2..] else s[1..])
  }

  lemma {:induction false} NormalizeIsUniversal(s: seq<Byte>)
    ensures NormalizeText(s) == UniversalNewlines(s)
    decreases |s|
  {
    if s != [] {
      var crlf := |s| >= 2 && s[0] == CR && s[1] == LF;
      var rest := if crlf then s[2..] else s[1..];
      NormalizeIsUniversal(rest);
      var head := [if crlf then LF else s[0]];
      assert (head + ReplaceCrLf(rest))[1..] == ReplaceCrLf(rest);
    }
  }

  lemma {:induction false} NormalizedHasNoCr(s: seq<Byte>)
    ensures CR !in NormalizeText(s) && |NormalizeText(s)| <= |s|
    decreases |s|
  {
    NormalizeIsUniversal(s);
    if s != [] {
      var rest := if |s| >= 2 && s[0] == CR && s[1] == LF then s[2..] else s[1..];
      NormalizedHasNoCr(rest);
      NormalizeIsUniversal(rest);
    }
  }

  lemma {:induction false} NoCrIsFixed(s: seq<Byte>)
    requires CR !in s
    ensures NormalizeText(s) == s
    decreases |s|
  {
    NormalizeIsUniversal(s);
    if s != [] {
      assert forall b :: b in s[1..] ==> b in s;
      NoCrIsFixed(s[1..]);
      NormalizeIsUniversal(s[1..]);
    }
  }

  /** Text is unchanged by normalisation exactly when it holds no carriage return. */
  lemma FixedIffNoCr(s: seq<Byte>)
    ensures NormalizeText(s) == s <==> CR !in s
  {
    NormalizedHasNoCr(s);
    if CR !in s { NoCrIsFixed(s); }
  }

  lemma {:induction false} UniversalKeepsBytes(head: seq<Byte>, s: seq<Byte>)
    requires CR !in head
    ensures UniversalNewlines(head + s) == head + UniversalNewlines(s)
    decreases |head|
  {
    if head == [] {
      assert head + s == s;
    } else {
      assert (head + s)[1..] == head[1..] + s;
      assert CR !in head[1..];
      UniversalKeepsBytes(head[1..], s);
      assert [head[0]] + (head[1..] + UniversalNewlines(s)) == head + UniversalNewlines(s);
    }
  }

  /** Rewriting line endings never breaks a multi-byte sequence. */
  lemma {:induction false} NormalizeKeepsUtf8(s: seq<Byte>)
    requires WellFormed(s)
    ensures WellFormed(NormalizeText(s))
    decreases |s|
  {
    NormalizeIsUniversal(s);
    if s != [] {
      if s[0] == CR {
        var rest := if |s| >= 2 && s[1] == LF then s[2..] else s[1..];
        assert WellFormed(rest) by { if |s| >= 2 && s[1] == LF { assert s[1..][1..] == s[2..]; } }
        NormalizeKeepsUtf8(rest);
        NormalizeIsUniversal(rest);
        assert ([LF] + UniversalNewlines(rest))[1..] == UniversalNewlines(rest);
      } else {
        var n := HeadLength(s);
        var head, rest := s[..n], s[n..];
        assert s == head + rest;
        NormalizeKeepsUtf8(rest);
        NormalizeIsUniversal(rest);
        UniversalKeepsBytes(head, rest);
        HeadExtends(head, rest, UniversalNewlines(rest));
        assert (head + UniversalNewlines(rest))[n..] == UniversalNewlines(rest);
      }
    }
  }

  // ---------- Normalisation ----------

  datatype Kind = WorkspaceDiff | FinalOutputText | FinalOutputJson | Unsupported(name: string)
  datatype Artifact = Artifact(kind: Kind, content: seq<Byte>, rawByteCount: nat)

  predicate HasBom(s: seq<Byte>) { |s| >= 3 && s[0] == 0xEF && s[1] == 0xBB && s[2] == 0xBF }

  predicate StrictUtf8(raw: seq<Byte>) { WellFormed(raw) && |raw| <= MAX_ARTIFACT_BYTES && !HasBom(raw) }

  /**
   The bounded parser and the RFC 8785 serialiser. Nothing is assumed of them but that the parser only
   accepts strict UTF-8 without a byte-order mark.
  */
  datatype JsonLibrary<!V> = JsonLibrary(parse: seq<Byte> -> Option<V>, dumps: V -> Option<seq<Byte>>)

  ghost predicate Sound<V>(lib: JsonLibrary<V>)
  {
    forall raw :: lib.parse(raw).Some? ==> WellFormed(raw) && !HasBom(raw)
  }

  /** The canonical bytes, if the serialiser reproduces them from its own output. */
  function Canonical<V>(lib: JsonLibrary<V>, raw: seq<Byte>): Option<seq<Byte>>
  {
    match lib.parse(raw)
    case None => None
    case Some(value) =>
      match lib.dumps(value)
      case None => None
      case Some(canonical) =>
        match lib.parse(canonical)
        case None => None
        case Some(again) =>
          if lib.dumps(again).None? || lib.dumps(again).value != canonical then None else Some(canonical)
  }

  /** `normalize_artifact`; None is a raised ArtifactError. */
  function NormalizeArtifact<V>(lib: JsonLibrary<V>, kind: Kind, raw: seq<Byte>): Option<Artifact>
  {
    if kind.Unsupported? || !StrictUtf8(raw) then None else
    var content :=
      match kind
      case WorkspaceDiff => Some(raw)
      case FinalOutputText => Some(NormalizeText(raw))
      case _ => Canonical(lib, raw);
    if content.None? || |content.value| > MAX_ARTIFACT_BYTES then None
    else Some(Artifact(kind, content.value, |raw|))
  }

  /** The artifact may be taken as it is: strict UTF-8 of at most 1 MiB that does not start with a byte-order mark. */
  predicate Acceptable(raw: seq<Byte>) { WellFormed(raw) && |raw| <= 1_048_576 && !([0xEF, 0xBB, 0xBF] <= raw) }

  /**
   What each kind accepts and what it keeps: a diff as it is, text with every line ending an LF, and JSON
   in a canonical form of at most 1 MiB that parses and is written the same way again; nothing else.
  */
  lemma ArtifactIs<V>(lib: JsonLibrary<V>, kind: Kind, raw: seq<Byte>)
    ensures var r := NormalizeArtifact(lib, kind, raw);
            match kind
            case WorkspaceDiff => r == if Acceptable(raw) then Some(Artifact(kind, raw, |raw|)) else None
            case FinalOutputText =>
              r == if Acceptable(raw) then Some(Artifact(kind, UniversalNewlines(raw), |raw|)) else None
            case FinalOutputJson =>
              && (r.Some? <==> Acceptable(raw) && exists form :: Stable(lib, raw, form) && |form| <= 1_048_576)
              && (r.Some? ==> r.value == Artifact(kind, r.value.content, |raw|) && Stable(lib, raw, r.value.content))
            case Unsupported(_) => r.None?
  {
    BomIsPrefix(raw);
    match kind
    case WorkspaceDiff =>
    case FinalOutputText =>
      NormalizeIsUniversal(raw);
      NormalizedHasNoCr(raw);
    case FinalOutputJson => CanonicalIs(lib, raw);
    case Unsupported(_) =>
  }

  lemma BomIsPrefix(raw: seq<Byte>)
    ensures HasBom(raw) <==> [0xEF, 0xBB, 0xBF] <= raw
  {
  }

  /** The text parses, and is written as this form, which parses and is written as itself. */
  predicate Stable<V>(lib: JsonLibrary<V>, raw: seq<Byte>, form: seq<Byte>)
  {
    && lib.parse(raw).Some? && lib.dumps(lib.parse(raw).value) == Some(form)
    && lib.parse(form).Some? && lib.dumps(lib.parse(form).value) == Some(form)
  }

  lemma CanonicalIs<V>(lib: JsonLibrary<V>, raw: seq<Byte>)
    ensures Canonical(lib, raw).Some? <==> exists form :: Stable(lib, raw, form)
    ensures forall form :: Stable(lib, raw, form) ==> Canonical(lib, raw) == Some(form)
  {
    if Canonical(lib, raw).Some? { assert Stable(lib, raw, Canonical(lib, raw).value); }
  }

  lemma NormalizeAddsNoBom(s: seq<Byte>)
    requires HasBom(NormalizeText(s))
    ensures HasBom(s)
  {
    NormalizeIsUniversal(s);
    var u := UniversalNewlines(s);
    assert s != [] && s[0] == 0xEF;
    assert u[1..] == UniversalNewlines(s[1..]);
    assert s[1..] != [] && s[1..][0] == 0xBB;
    assert u[2..] == UniversalNewlines(s[1..][1..]) by {
      assert u[1..][1..] == u[2..];
    }
    assert s[1..][1..] == s[2..];
    assert u[2..][0] == 0xBF;
  }

  /**
   Normalising an accepted artifact's content again is accepted and returns the same bytes, for every
   kind: text because the two replacements leave no carriage return, JSON because the first pass has
   checked its own output.
  */
  lemma NormalisedIsStable<V>(lib: JsonLibrary<V>, kind: Kind, raw: seq<Byte>)
    requires Sound(lib) && NormalizeArtifact(lib, kind, raw).Some?
    ensures var a := NormalizeArtifact(lib, kind, raw).value;
            NormalizeArtifact(lib, kind, a.content) == Some(Artifact(kind, a.content, |a.content|))
  {
    var content := NormalizeArtifact(lib, kind, raw).value.content;
    match kind
    case WorkspaceDiff =>
    case FinalOutputText =>
      NormalizedHasNoCr(raw);
      NoCrIsFixed(content);
      NormalizeKeepsUtf8(raw);
      if HasBom(content) { NormalizeAddsNoBom(raw); }
    case FinalOutputJson =>
      assert lib.parse(content).Some?;
    case Unsupported(_) =>
  }
}
