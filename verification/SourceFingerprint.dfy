/**
 The bytes that are hashed into a source fingerprint and into a tree hash.

 SHA-256 is left out: the claims are about its preimage. JSON is written as `json.dumps` writes it,
 sorted keys and ASCII escapes, for the two objects the fingerprint holds.
*/
module SourceFingerprint {
  import opened Bytes
  import opened Encoding
  import opened Options
  import opened Ordering
  import Utf8

  datatype FileState = FileState(content: seq<Byte>, executable: bool)
  type States = map<Text, FileState>

  function Ascii(s: string): seq<Byte>
  {
    seq(|s|, i requires 0 <= i < |s| => s[i] as int % 128)
  }

  // ---------- The source fingerprint ----------

  const DOMAIN: seq<Byte> := Ascii("skivolve-source-fingerprint-v3") + [0]
  const EMPTY_SOURCE: seq<Byte> := DOMAIN + (Ascii("empty-source") + [0])

  datatype Role = Bundle | Context
  datatype Item<P> = Item(role: Role, path: P, state: FileState)

  function RoleName(role: Role): seq<Byte> { if role.Bundle? then Ascii("bundle") else Ascii("context") }

  function Bool(b: bool): seq<Byte> { if b then Ascii("true") else Ascii("false") }

  /** The locator object, its newline, and the separating NUL. */
  function Locator(source: Text): seq<Byte>
  {
    Ascii("{\"bundle_source\":") + JsonString(source) + (Ascii(",\"schema_version\":2}\n") + [0])
  }

  /** The metadata object between its fixed pieces of text, for a path as it is escaped. */
  function Fields(role: Role, escaped: seq<Byte>, executable: bool, open: seq<Byte>, path: seq<Byte>, field: seq<Byte>,
          close: seq<Byte>): seq<Byte>
  {
    open + (Bool(executable) + (path + (escaped + (field + (RoleName(role) + close)))))
  }

  function Metadata(role: Role, escaped: seq<Byte>, state: FileState): seq<Byte>
  {
    Fields(role, escaped, state.executable, Ascii("{\"executable\":"), Ascii(",\"path\":"), Ascii(",\"role\":\""),
           Ascii("\",\"size\":") + Decimal(|state.content|) + Ascii("}\n"))
  }

  function Chunk(i: Item<Text>): seq<Byte> { Net(Metadata(i.role, JsonString(i.path), i.state)) + Net(i.state.content) }

  function ItemsOf(role: Role, paths: seq<Text>, states: States): seq<Item<Text>>
    requires forall p :: p in paths ==> p in states
  {
    seq(|paths|, i requires 0 <= i < |paths| => Item(role, paths[i], states[paths[i]]))
  }

  ghost function AllItems(bundle: States, context: States): seq<Item<Text>>
  {
    ItemsOf(Bundle, Listing(bundle.Keys), bundle) + ItemsOf(Context, Listing(context.Keys), context)
  }

  ghost function Preimage(source: Text, bundle: States, context: States): seq<Byte>
  {
    DOMAIN + (Locator(source) + Each(Chunk, AllItems(bundle, context)))
  }

  /** `_canonical_source_fingerprint` up to the digest; the dictionaries come in insertion order. */
  method CanonicalSourceFingerprint(source: Text, bundle: States, bundleOrder: seq<Text>,
                                    context: States, contextOrder: seq<Text>) returns (fed: seq<Byte>)
    requires Distinct(bundleOrder) && forall p :: p in bundleOrder <==> p in bundle
    requires Distinct(contextOrder) && forall p :: p in contextOrder <==> p in context
    ensures fed == Preimage(source, bundle, context)
  {
    SortingLists(bundleOrder, bundle.Keys);
    SortingLists(contextOrder, context.Keys);
    var first := ItemsOf(Bundle, Sorted(bundleOrder, Identity), bundle);
    var second := ItemsOf(Context, Sorted(contextOrder, Identity), context);
    fed := FeedRoles(DOMAIN, Locator(source), Chunk, first, second);
  }

  /** The two loops over bundle and context, whatever each file feeds. */
  method FeedRoles(domain: seq<Byte>, locator: seq<Byte>, chunk: Item<Text> -> seq<Byte>, bundle: seq<Item<Text>>,
          context: seq<Item<Text>>)
    returns (fed: seq<Byte>)
    ensures fed == domain + (locator + Each(chunk, bundle + context))
  {
    fed := domain + locator;
    assert fed == fed + Each(chunk, []);
    fed := Feed(fed, chunk, bundle, domain + locator, []);
    assert [] + bundle == bundle;
    fed := Feed(fed, chunk, context, domain + locator, bundle);
    Associate(domain, locator, Each(chunk, bundle + context));
  }

  lemma Associate(a: seq<Byte>, b: seq<Byte>, c: seq<Byte>)
    ensures (a + b) + c == a + (b + c)
  {
  }

  // ---------- Unique decodability ----------

  /** A file with its path as the escaped string shows it. */
  function Shown(i: Item<Text>): Item<seq<Unit>> { Item(i.role, Units(i.path), i.state) }

  function AllShown(items: seq<Item<Text>>): seq<Item<seq<Unit>>>
  {
    if items == [] then [] else [Shown(items[0])] + AllShown(items[1..])
  }

  function ShownChunk(i: Item<seq<Unit>>): seq<Byte>
  {
    Net(Metadata(i.role, JsonUnits(i.path), i.state)) + Net(i.state.content)
  }

  lemma {:induction false} ChunksShow(items: seq<Item<Text>>)
    ensures Each(Chunk, items) == Each(ShownChunk, AllShown(items))
  {
    if items != [] {
      ChunksShow(items[1..]);
      JsonShowsUnits(items[0].path);
      assert AllShown(items)[1..] == AllShown(items[1..]);
    }
  }

  lemma FieldsReadBack(i: Item<seq<Unit>>, j: Item<seq<Unit>>, open: seq<Byte>, path: seq<Byte>, field: seq<Byte>,
          u: seq<Byte>, v: seq<Byte>)
    requires Fields(i.role, JsonUnits(i.path), i.state.executable, open, path, field, u)
             == Fields(j.role, JsonUnits(j.path), j.state.executable, open, path, field, v)
    ensures i.role == j.role && i.path == j.path && i.state.executable == j.state.executable
  {
    var roleI, roleJ := RoleName(i.role) + u, RoleName(j.role) + v;
    var pathI, pathJ := JsonUnits(i.path) + (field + roleI), JsonUnits(j.path) + (field + roleJ);
    var boolI, boolJ := Bool(i.state.executable) + (path + pathI), Bool(j.state.executable) + (path + pathJ);
    Fixed(open, open, boolI, boolJ);
    BoolReadsBack(i.state.executable, j.state.executable, path + pathI, path + pathJ);
    Fixed(path, path, pathI, pathJ);
    JsonUnitsReadBack(i.path, j.path, field + roleI, field + roleJ);
    Fixed(field, field, roleI, roleJ);
    RoleReadsBack(i.role, j.role, u, v);
  }

  lemma BoolReadsBack(a: bool, b: bool, u: seq<Byte>, v: seq<Byte>)
    requires Bool(a) + u == Bool(b) + v
    ensures a == b && u == v
  {
    assert (Bool(a) + u)[0] == Bool(a)[0] && (Bool(b) + v)[0] == Bool(b)[0];
    assert Bool(true)[0] == 't' as int && Bool(false)[0] == 'f' as int;
    Fixed(Bool(a), Bool(b), u, v);
  }

  lemma RoleReadsBack(a: Role, b: Role, u: seq<Byte>, v: seq<Byte>)
    requires RoleName(a) + u == RoleName(b) + v
    ensures a == b
  {
    assert (RoleName(a) + u)[0] == RoleName(a)[0] && (RoleName(b) + v)[0] == RoleName(b)[0];
    assert RoleName(Bundle)[0] == 'b' as int && RoleName(Context)[0] == 'c' as int;
  }

  lemma ShownReadsBack(i: Item<seq<Unit>>, j: Item<seq<Unit>>, u: seq<Byte>, v: seq<Byte>)
    requires ShownChunk(i) + u == ShownChunk(j) + v
    ensures i == j && u == v
  {
    PairReadsBack(Metadata(i.role, JsonUnits(i.path), i.state), Metadata(j.role, JsonUnits(j.path), j.state),
                  i.state.content, j.state.content, u, v);
    FieldsReadBack(i, j, Ascii("{\"executable\":"), Ascii(",\"path\":"), Ascii(",\"role\":\""),
                   Ascii("\",\"size\":") + Decimal(|i.state.content|) + Ascii("}\n"),
                   Ascii("\",\"size\":") + Decimal(|j.state.content|) + Ascii("}\n"));
  }

  /** One file's bytes read back, its path up to joining surrogate pairs. */
  lemma ChunkReadsBack(i: Item<Text>, j: Item<Text>, u: seq<Byte>, v: seq<Byte>)
    requires Chunk(i) + u == Chunk(j) + v
    ensures i.role == j.role && Joined(i.path) == Joined(j.path) && i.state == j.state && u == v
  {
    JsonShowsUnits(i.path);
    JsonShowsUnits(j.path);
    ShownReadsBack(Shown(i), Shown(j), u, v);
    JsonStringDecides(i.path, j.path);
  }

  lemma PairReadsBack(a: seq<Byte>, b: seq<Byte>, x: seq<Byte>, y: seq<Byte>, u: seq<Byte>, v: seq<Byte>)
    requires (Net(a) + Net(x)) + u == (Net(b) + Net(y)) + v
    ensures a == b && x == y && u == v
  {
    Associate(Net(a), Net(x), u);
    Associate(Net(b), Net(y), v);
    NetReadsBack(a, b, Net(x) + u, Net(y) + v);
    NetReadsBack(x, y, u, v);
  }

  predicate AnyItem(i: Item<seq<Unit>>) { true }

  lemma ChunksArePrefixFree()
    ensures PrefixFree(ShownChunk, AnyItem)
  {
    forall i, j, u, v | ShownChunk(i) + u == ShownChunk(j) + v
      ensures i == j && u == v
    {
      ShownReadsBack(i, j, u, v);
    }
  }

  /** Which items two dictionaries contribute. */
  lemma ItemsTell(bundle: States, context: States, i: Item<Text>)
    ensures i in AllItems(bundle, context) <==>
              if i.role.Bundle? then i.path in bundle && bundle[i.path] == i.state
              else i.path in context && context[i.path] == i.state
  {
    ItemsOfTell(Bundle, Listing(bundle.Keys), bundle, i);
    ItemsOfTell(Context, Listing(context.Keys), context, i);
  }

  lemma ItemsOfTell(role: Role, paths: seq<Text>, states: States, i: Item<Text>)
    requires forall p :: p in paths ==> p in states
    ensures i in ItemsOf(role, paths, states) <==> i.role == role && i.path in paths && states[i.path] == i.state
  {
    if i.role == role && i.path in paths && states[i.path] == i.state {
      var k :| 0 <= k < |paths| && paths[k] == i.path;
      assert ItemsOf(role, paths, states)[k] == i;
    }
  }

  lemma SameItemsSameStates(a: States, b: States, c: States, d: States)
    requires AllItems(a, b) == AllItems(c, d)
    ensures a == c && b == d
  {
    forall p | p in a || p in c
      ensures p in a && p in c && a[p] == c[p]
    {
      var i := Item(Bundle, p, if p in a then a[p] else c[p]);
      ItemsTell(a, b, i);
      ItemsTell(c, d, i);
    }
    forall p | p in b || p in d
      ensures p in b && p in d && b[p] == d[p]
    {
      var i := Item(Context, p, if p in b then b[p] else d[p]);
      ItemsTell(a, b, i);
      ItemsTell(c, d, i);
    }
  }

  /** The items with their paths up to joining surrogate pairs. */
  function AllJoined(items: seq<Item<Text>>): seq<Item<Text>>
  {
    if items == [] then [] else
      [Item(items[0].role, Joined(items[0].path), items[0].state)] + AllJoined(items[1..])
  }

  lemma {:induction false} ShownIffJoined(items: seq<Item<Text>>, items': seq<Item<Text>>)
    ensures AllShown(items) == AllShown(items') <==> AllJoined(items) == AllJoined(items')
    decreases |items|
  {
    if items != [] && items' != [] {
      var i, j := items[0], items'[0];
      UnitsIffJoined(i.path, j.path);
      ShownIffJoined(items[1..], items'[1..]);
      Heads(Shown(i), AllShown(items[1..]), Shown(j), AllShown(items'[1..]));
      Heads(Item(i.role, Joined(i.path), i.state), AllJoined(items[1..]),
            Item(j.role, Joined(j.path), j.state), AllJoined(items'[1..]));
    }
  }

  lemma Heads<T>(a: T, x: seq<T>, b: T, y: seq<T>)
    ensures [a] + x == [b] + y <==> a == b && x == y
  {
    if [a] + x == [b] + y { assert x == ([a] + x)[1..] && y == ([b] + y)[1..] && ([a] + x)[0] == a; }
  }

  /**
   Two fingerprints hash the same bytes exactly when they list the same files, with path, mode bit and
   content, under the same bundle locator, up to joining surrogate pairs in locator and paths.
  */
  lemma PreimagesAgreeIff(source: Text, bundle: States, context: States, source': Text, bundle': States,
          context': States)
    ensures Preimage(source, bundle, context) == Preimage(source', bundle', context')
            <==> Joined(source) == Joined(source')
                 && AllJoined(AllItems(bundle, context)) == AllJoined(AllItems(bundle', context'))
  {
    var items, items' := AllItems(bundle, context), AllItems(bundle', context');
    ChunksShow(items);
    ChunksShow(items');
    ShownIffJoined(items, items');
    JsonStringDecides(source, source');
    if Preimage(source, bundle, context) == Preimage(source', bundle', context') {
      Fixed(DOMAIN, DOMAIN, Locator(source) + Each(Chunk, items), Locator(source') + Each(Chunk, items'));
      LocatorReadsBack(source, source', Ascii("{\"bundle_source\":"), Ascii(",\"schema_version\":2}\n") + [0],
                       Each(Chunk, items), Each(Chunk, items'));
      ChunksArePrefixFree();
      EachInjective(ShownChunk, AnyItem, AllShown(items), AllShown(items'));
    }
  }

  /** The locator and every path have no high surrogate right before a low one. */
  predicate AllUnpaired(source: Text, bundle: States, context: States)
  {
    Unpaired(source) && forall p :: p in bundle.Keys + context.Keys ==> Unpaired(p)
  }

  /**
   For such texts exactly the same source. Names that Python decodes from bytes hold no high surrogate, and
   its JSON reader joins pairs, so both read such texts only.
  */
  lemma PreimageInjective(source: Text, bundle: States, context: States, source': Text, bundle': States,
          context': States)
    requires AllUnpaired(source, bundle, context) && AllUnpaired(source', bundle', context')
    ensures Preimage(source, bundle, context) == Preimage(source', bundle', context')
            <==> source == source' && bundle == bundle' && context == context'
  {
    var items, items' := AllItems(bundle, context), AllItems(bundle', context');
    PreimagesAgreeIff(source, bundle, context, source', bundle', context');
    UnpairedIsJoined(source);
    UnpairedIsJoined(source');
    UnpairedItems(bundle, context);
    UnpairedItems(bundle', context');
    NothingToJoin(items);
    NothingToJoin(items');
    if items == items' { SameItemsSameStates(bundle, context, bundle', context'); }
  }

  lemma UnpairedItems(bundle: States, context: States)
    requires forall p :: p in bundle.Keys + context.Keys ==> Unpaired(p)
    ensures forall i :: i in AllItems(bundle, context) ==> Unpaired(i.path)
  {
    forall i | i in AllItems(bundle, context)
      ensures Unpaired(i.path)
    {
      ItemsTell(bundle, context, i);
    }
  }

  lemma {:induction false} NothingToJoin(items: seq<Item<Text>>)
    requires forall i :: i in items ==> Unpaired(i.path)
    ensures AllJoined(items) == items
  {
    if items != [] {
      assert forall i :: i in items[1..] ==> i in items;
      NothingToJoin(items[1..]);
      UnpairedIsJoined(items[0].path);
      assert items[0] in items && items == [items[0]] + items[1..];
    }
  }

  /** A pair that is left apart: two locators that differ and share every fingerprint. */
  lemma PairedLocatorsCollide(bundle: States, context: States)
    ensures Preimage([0x1F600], bundle, context) == Preimage([0xD83D, 0xDE00], bundle, context)
  {
    assert Joined([0xD83D, 0xDE00]) == [0x1F600] == Joined([0x1F600]) by {
      assert [0x1F600][1..] == [] && [0xD83D, 0xDE00][2..] == [];
    }
    PreimagesAgreeIff([0x1F600], bundle, context, [0xD83D, 0xDE00], bundle, context);
  }

  lemma Between(a: seq<Byte>, b: seq<Byte>, c: seq<Byte>, d: seq<Byte>)
    ensures (a + b + c) + d == a + (b + (c + d))
  {
  }

  lemma LocatorReadsBack(s: Text, t: Text, open: seq<Byte>, close: seq<Byte>, u: seq<Byte>, v: seq<Byte>)
    requires (open + JsonString(s) + close) + u == (open + JsonString(t) + close) + v
    ensures JsonString(s) == JsonString(t) && u == v
  {
    hide JsonString, JsonUnits;
    JsonShowsUnits(s);
    JsonShowsUnits(t);
    Between(open, JsonString(s), close, u);
    Between(open, JsonString(t), close, v);
    Fixed(open, open, JsonString(s) + (close + u), JsonString(t) + (close + v));
    JsonUnitsReadBack(Units(s), Units(t), close + u, close + v);
    Fixed(close, close, u, v);
  }

  /** No source, however it is chosen, hashes the bytes that stand for no source at all. */
  lemma NeverTheEmptySource(source: Text, bundle: States, context: States)
    ensures Preimage(source, bundle, context) != EMPTY_SOURCE
  {
    var open, none := Ascii("{\"bundle_source\":"), Ascii("empty-source") + [0];
    assert open[0] == '{' as int && none[0] == 'e' as int;
    Opens(open, JsonString(source), Ascii(",\"schema_version\":2}\n") + [0], Each(Chunk, AllItems(bundle, context)));
    DifferentTails(DOMAIN, Locator(source) + Each(Chunk, AllItems(bundle, context)), none);
  }

  lemma Opens(open: seq<Byte>, a: seq<Byte>, b: seq<Byte>, c: seq<Byte>)
    requires open != []
    ensures (open + a + b) + c != [] && ((open + a + b) + c)[0] == open[0]
  {
  }

  lemma DifferentTails(a: seq<Byte>, u: seq<Byte>, v: seq<Byte>)
    requires u != [] && v != [] && u[0] != v[0]
    ensures a + u != a + v
  {
    assert (a + u)[|a|] == u[0] && (a + v)[|a|] == v[0];
  }

  // ---------- The tree hash ----------

  function Mode(executable: bool): seq<Byte> { [if executable then 120 else 45, 0] }

  function TreeChunk(i: Item<Text>): seq<Byte>
  {
    Utf8.Encode(i.path) + [0] + (Mode(i.state.executable)
      + (Decimal(|i.state.content|) + [0] + (i.state.content + [0])))
  }

  /** One entry, byte by byte: the path, the mode, the length and the content, each closed by a zero. */
  lemma TreeChunkBytes(role: Role, executable: bool, content: seq<Byte>)
    requires |content| == 2
    ensures TreeChunk(Item(role, [0x61], FileState(content, executable)))
            == [0x61, 0, if executable then 0x78 else 0x2d, 0, 0x32, 0, content[0], content[1], 0]
  {
    assert Utf8.Encode([0x61]) == [0x61];
    assert Decimal(2) == [0x32];
  }

  ghost function StatesPreimage(states: States): seq<Byte>
  {
    Each(TreeChunk, AllItems(states, map[]))
  }

  /** `_states_hash` up to the digest; a path with a lone surrogate cannot be encoded. */
  method StatesHash(states: States, order: seq<Text>) returns (fed: Option<seq<Byte>>)
    requires Distinct(order) && forall p :: p in order <==> p in states
    ensures fed == if forall p :: p in states ==> Utf8.Scalars(p) then Some(StatesPreimage(states)) else None
  {
    hide TreeChunk, Each, ItemsOf, Sorted, AllItems, Utf8.Scalars;
    SortingLists(order, states.Keys);
    var paths := Sorted(order, Identity);
    var bytes: seq<Byte> := [];
    NothingFed(paths, states);
    for k := 0 to |paths|
      invariant forall p :: p in paths[..k] ==> Utf8.Scalars(p)
      invariant bytes == Each(TreeChunk, ItemsOf(Bundle, paths[..k], states))
    {
      assert paths[k] in paths;
      if !Utf8.Scalars(paths[k]) { return None; }
      OneMoreFed(paths, k, states);
      bytes := bytes + TreeChunk(Item(Bundle, paths[k], states[paths[k]]));
    }
    assert paths[..|paths|] == paths;
    BundleAlone(states);
    fed := Some(bytes);
  }

  lemma NothingFed(paths: seq<Text>, states: States)
    ensures ItemsOf(Bundle, paths[..0], states) == [] && Each(TreeChunk, ItemsOf(Bundle, paths[..0], states)) == []
  {
  }

  lemma OneMoreFed(paths: seq<Text>, k: nat, states: States)
    requires k < |paths| && forall p :: p in paths ==> p in states
    ensures paths[..k + 1] == paths[..k] + [paths[k]]
    ensures Each(TreeChunk, ItemsOf(Bundle, paths[..k + 1], states))
            == Each(TreeChunk, ItemsOf(Bundle, paths[..k], states))
               + TreeChunk(Item(Bundle, paths[k], states[paths[k]]))
  {
    var before, item := ItemsOf(Bundle, paths[..k], states), Item(Bundle, paths[k], states[paths[k]]);
    assert ItemsOf(Bundle, paths[..k + 1], states) == before + [item];
    EachAppend(TreeChunk, before, item);
  }

  lemma BundleAlone(states: States)
    ensures AllItems(states, map[]) == ItemsOf(Bundle, Listing(states.Keys), states)
  {
    var none: States := map[];
    assert none.Keys == {};
    NoItems(Listing(none.Keys));
  }

  lemma NoItems(paths: seq<Text>)
    requires Lists(paths, {})
    ensures paths == []
  {
    FirstIsListed(paths, {});
  }

  lemma FirstIsListed(paths: seq<Text>, s: set<Text>)
    requires Lists(paths, s)
    ensures paths != [] ==> paths[0] in s
  {
    assert paths != [] ==> paths[0] in paths;
  }

  lemma TreeChunkReadsBack(i: Item<Text>, j: Item<Text>, u: seq<Byte>, v: seq<Byte>)
    requires 0 !in i.path && 0 !in j.path && i.role == j.role
    requires TreeChunk(i) + u == TreeChunk(j) + v
    ensures i == j && u == v
  {
    hide Utf8.Encode, Decimal;
    var s, t := i.state, j.state;
    Utf8.EncodeKeepsOutNul(i.path);
    Utf8.EncodeKeepsOutNul(j.path);
    var sizeS := Decimal(|s.content|) + [0] + (s.content + ([0] + u));
    var sizeT := Decimal(|t.content|) + [0] + (t.content + ([0] + v));
    assert TreeChunk(i) + u == Utf8.Encode(i.path) + [0] + (Mode(s.executable) + sizeS);
    assert TreeChunk(j) + v == Utf8.Encode(j.path) + [0] + (Mode(t.executable) + sizeT);
    Delimited(Utf8.Encode(i.path), Utf8.Encode(j.path), 0, Mode(s.executable) + sizeS, Mode(t.executable) + sizeT);
    Utf8.EncodeInjective(i.path, j.path);
    Fixed(Mode(s.executable), Mode(t.executable), sizeS, sizeT);
    assert Mode(s.executable)[0] == Mode(t.executable)[0];
    Delimited(Decimal(|s.content|), Decimal(|t.content|), 0, s.content + ([0] + u), t.content + ([0] + v));
    DecimalInjective(|s.content|, |t.content|);
    Fixed(s.content, t.content, [0] + u, [0] + v);
    Fixed([0], [0], u, v);
  }

  predicate PlainBundleItem(i: Item<Text>) { 0 !in i.path && i.role.Bundle? }

  /** For paths without NUL: equal tree-hash bytes exactly for equal trees. */
  lemma StatesPreimageInjective(a: States, b: States)
    requires forall p :: p in a || p in b ==> 0 !in p
    ensures StatesPreimage(a) == StatesPreimage(b) <==> a == b
  {
    if StatesPreimage(a) == StatesPreimage(b) {
      forall i | i in AllItems(a, map[]) || i in AllItems(b, map[])
        ensures PlainBundleItem(i)
      {
        ItemsTell(a, map[], i);
        ItemsTell(b, map[], i);
      }
      forall i, j, u, v | PlainBundleItem(i) && PlainBundleItem(j) && TreeChunk(i) + u == TreeChunk(j) + v
        ensures i == j && u == v
      {
        TreeChunkReadsBack(i, j, u, v);
      }
      EachInjective(TreeChunk, PlainBundleItem, AllItems(a, map[]), AllItems(b, map[]));
      SameItemsSameStates(a, map[], b, map[]);
    }
  }
}
