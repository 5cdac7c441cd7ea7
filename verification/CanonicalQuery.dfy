/** The canonical query string: parameters are encoded, sorted by encoded name and value, and joined. */
module CanonicalQuery {
  import opened Bytes
  import opened OutputSink
  import opened Permutations
  import opened UriEncoding

  /** A raw parameter; a NULL value is empty. A NULL name is refused. */
  datatype Param = Param(name: Option<bytes>, value: Option<bytes>)
  datatype EncParam = EncParam(name: bytes, value: bytes)

  datatype QueryError = InvalidArg

  predicate Named(params: seq<Param>) { forall i :: 0 <= i < |params| ==> params[i].name.Some? }

  function Raw(p: Param): EncParam {
    EncParam(if p.name.Some? then p.name.value else [], if p.value.Some? then p.value.value else [])
  }

  function EncodePair(p: EncParam): EncParam { EncParam(Encode(p.name, false), Encode(p.value, false)) }

  function Raws(params: seq<Param>): seq<EncParam> { Map(Raw, params) }

  function EncodePairs(ps: seq<EncParam>): seq<EncParam> { Map(EncodePair, ps) }

  /** enc_param_cmp(x, y) <= 0: by name, then by value. */
  predicate PairLe(x: EncParam, y: EncParam) {
    if x.name == y.name then LexLe(x.value, y.value) else LexLe(x.name, y.name)
  }

  ghost predicate SortedPairs(ps: seq<EncParam>) {
    forall i, j :: 0 <= i < j < |ps| ==> PairLe(ps[i], ps[j])
  }

  lemma PairOrder(x: EncParam, y: EncParam, z: EncParam)
    ensures PairLe(x, y) || PairLe(y, x)
    ensures PairLe(x, y) && PairLe(y, x) ==> x == y
    ensures PairLe(x, y) && PairLe(y, z) ==> PairLe(x, z)
  {
    LexTotal(x.name, y.name);
    LexTotal(x.value, y.value);
    if LexLe(x.name, y.name) && LexLe(y.name, x.name) {
      LexAntisymmetric(x.name, y.name);
    }
    if LexLe(x.value, y.value) && LexLe(y.value, x.value) {
      LexAntisymmetric(x.value, y.value);
    }
    if PairLe(x, y) && PairLe(y, z) {
      if x.name == y.name == z.name {
        LexTransitive(x.value, y.value, z.value);
      } else if x.name != y.name && y.name != z.name {
        LexTransitive(x.name, y.name, z.name);
        if x.name == z.name {
          LexAntisymmetric(x.name, y.name);
        }
      }
    }
  }

  function InsertPair(ps: seq<EncParam>, x: EncParam): seq<EncParam> {
    if ps == [] then [x]
    else if PairLe(x, ps[0]) then [x] + ps
    else [ps[0]] + InsertPair(ps[1..], x)
  }

  function SortPairs(ps: seq<EncParam>): seq<EncParam> {
    if ps == [] then [] else InsertPair(SortPairs(ps[1..]), ps[0])
  }

  lemma {:induction false} InsertPairKeeps(ps: seq<EncParam>, x: EncParam)
    ensures multiset(InsertPair(ps, x)) == multiset(ps) + multiset{x}
  {
    if ps != [] {
      assert ps == [ps[0]] + ps[1..];
      InsertPairKeeps(ps[1..], x);
    }
  }

  lemma {:induction false} InsertPairSorts(ps: seq<EncParam>, x: EncParam)
    requires SortedPairs(ps)
    ensures SortedPairs(InsertPair(ps, x))
    ensures multiset(InsertPair(ps, x)) == multiset(ps) + multiset{x}
  {
    InsertPairKeeps(ps, x);
    if ps != [] && PairLe(x, ps[0]) {
      forall j | 0 <= j < |ps|
        ensures PairLe(x, ps[j])
      {
        PairOrder(x, ps[0], ps[j]);
      }
    } else if ps != [] {
      InsertPairSorts(ps[1..], x);
      PairOrder(x, ps[0], x);
      HeadBefore(ps, x);
    }
  }

  lemma HeadBefore(ps: seq<EncParam>, x: EncParam)
    requires ps != [] && SortedPairs(ps) && PairLe(ps[0], x)
    ensures forall j :: 0 <= j < |InsertPair(ps[1..], x)| ==> PairLe(ps[0], InsertPair(ps[1..], x)[j])
  {
    var t := InsertPair(ps[1..], x);
    InsertPairKeeps(ps[1..], x);
    PairOrder(ps[0], ps[0], ps[0]);
    forall j | 0 <= j < |t|
      ensures PairLe(ps[0], t[j])
    {
      assert t[j] in multiset(t);
      if t[j] != x {
        assert t[j] in multiset(ps[1..]);
      }
    }
  }

  lemma {:induction false} SortPairsSorts(ps: seq<EncParam>)
    ensures SortedPairs(SortPairs(ps))
    ensures multiset(SortPairs(ps)) == multiset(ps)
  {
    if ps != [] {
      SortPairsSorts(ps[1..]);
      InsertPairSorts(SortPairs(ps[1..]), ps[0]);
      assert ps == [ps[0]] + ps[1..];
    }
  }

  lemma HeadIsLeast(a: seq<EncParam>, x: EncParam)
    requires SortedPairs(a) && x in a
    ensures PairLe(a[0], x)
  {
    var k :| 0 <= k < |a| && a[k] == x;
    PairOrder(x, x, x);
  }

  lemma SameHead(a: seq<EncParam>, b: seq<EncParam>)
    requires SortedPairs(a) && SortedPairs(b) && multiset(a) == multiset(b) && a != [] && b != []
    ensures a[0] == b[0]
  {
    assert a[0] in multiset(b) && b[0] in multiset(a);
    HeadIsLeast(a, b[0]);
    HeadIsLeast(b, a[0]);
    PairOrder(a[0], b[0], a[0]);
  }

  /** Whatever permutation qsort() picks among equal keys, the sorted list is the same one. */
  lemma {:induction false} SortedUnique(a: seq<EncParam>, b: seq<EncParam>)
    requires SortedPairs(a) && SortedPairs(b) && multiset(a) == multiset(b)
    ensures a == b
  {
    EmptyMultiset(a, b);
    if a != [] {
      SameHead(a, b);
      WithoutMultiset(a, 0);
      WithoutMultiset(b, 0);
      assert Without(a, 0) == a[1..] && Without(b, 0) == b[1..];
      Cancel(multiset(a[1..]), multiset(b[1..]), a[0]);
      SortedUnique(a[1..], b[1..]);
      assert a == [a[0]] + a[1..] && b == [b[0]] + b[1..];
    }
  }

  // ---------------------------------------------------------------- the string

  function Item(p: EncParam): bytes { p.name + [EQUALS] + p.value }

  function Items(ps: seq<EncParam>): seq<bytes> {
    if ps == [] then [] else [Item(ps[0])] + Items(ps[1..])
  }

  /** canon_query() of the reference. */
  function Query(params: seq<Param>): bytes
  {
    Join(AMPERSAND, Items(SortPairs(EncodePairs(Raws(params)))))
  }

  /** Every ordering of the parameters gives one canonical query, and so does writing NULL for an
      empty value: only the multiset of the raw pairs matters. */
  lemma QueryIgnoresOrder(params: seq<Param>, params': seq<Param>)
    requires multiset(Raws(params)) == multiset(Raws(params'))
    ensures Query(params) == Query(params')
  {
    var a, b := EncodePairs(Raws(params)), EncodePairs(Raws(params'));
    MapPermutation(EncodePair, Raws(params), Raws(params'));
    SortPairsSorts(a);
    SortPairsSorts(b);
    SortedUnique(SortPairs(a), SortPairs(b));
  }

  lemma PermutedQuery(params: seq<Param>, params': seq<Param>)
    requires multiset(params) == multiset(params')
    ensures Query(params) == Query(params')
  {
    MapPermutation(Raw, params, params');
    QueryIgnoresOrder(params, params');
  }

  lemma NullIsEmpty(params: seq<Param>, i: nat)
    requires i < |params| && params[i].value == None
    ensures Query(params) == Query(params[i := Param(params[i].name, Some([]))])
  {
    var params' := params[i := Param(params[i].name, Some([]))];
    MapWithout(Raw, params, i);
    MapWithout(Raw, params', i);
    assert Without(params, i) == Without(params', i);
    QueryIgnoresOrder(params, params');
  }

  // ---------------------------------------------------------------- the order

  /** x comes before y by name, or by value under one name. */
  predicate Precedes(x: EncParam, y: EncParam) {
    Before(x.name, y.name) || (x.name == y.name && (x.value == y.value || Before(x.value, y.value)))
  }

  /** The pairs of the query ascend byte by byte: by encoded name, and by encoded value under one name. */
  lemma QueryAscends(params: seq<Param>, i: nat, j: nat)
    requires i < j < |SortPairs(EncodePairs(Raws(params)))|
    ensures var ps := SortPairs(EncodePairs(Raws(params))); Precedes(ps[i], ps[j])
  {
    var ps := SortPairs(EncodePairs(Raws(params)));
    SortPairsSorts(EncodePairs(Raws(params)));
    assert PairLe(ps[i], ps[j]);
    LexLeIs(ps[i].name, ps[j].name);
    LexLeIs(ps[i].value, ps[j].value);
  }

  // ---------------------------------------------------------------- reading it back

  /** One "name=value" item; None unless it holds exactly one '='. */
  function ReadItem(item: bytes): Option<EncParam> {
    var parts := Split(EQUALS, item);
    if |parts| == 2 then Some(EncParam(parts[0], parts[1])) else None
  }

  function ReadItems(items: seq<bytes>): Option<seq<EncParam>> {
    if items == [] then Some([])
    else
      match (ReadItem(items[0]), ReadItems(items[1..]))
      case (Some(p), Some(ps)) => Some([p] + ps)
      case _ => None
  }

  /** A server's reading: split at '&' and at '='. */
  function ReadQuery(q: bytes): Option<seq<EncParam>> {
    if q == [] then Some([]) else ReadItems(Split(AMPERSAND, q))
  }

  function DecodePairs(ps: seq<EncParam>): Option<seq<EncParam>> {
    if ps == [] then Some([])
    else
      match (Decode(ps[0].name), Decode(ps[0].value), DecodePairs(ps[1..]))
      case (Some(n), Some(v), Some(rest)) => Some([EncParam(n, v)] + rest)
      case _ => None
  }

  predicate Clean(p: EncParam) {
    EQUALS !in p.name && EQUALS !in p.value && AMPERSAND !in p.name && AMPERSAND !in p.value
  }

  lemma EncodePairClean(p: EncParam)
    ensures Clean(EncodePair(p))
  {
    EncodeAlphabet(p.name, false);
    EncodeAlphabet(p.value, false);
  }

  lemma {:induction false} EncodePairsClean(ps: seq<EncParam>)
    ensures forall x :: x in EncodePairs(ps) ==> Clean(x)
  {
    if ps != [] {
      EncodePairClean(ps[0]);
      EncodePairsClean(ps[1..]);
    }
  }

  lemma {:induction false} ReadItemsOf(ps: seq<EncParam>)
    requires forall x :: x in ps ==> Clean(x)
    ensures ReadItems(Items(ps)) == Some(ps)
    ensures forall item :: item in Items(ps) ==> AMPERSAND !in item
  {
    if ps != [] {
      var p := ps[0];
      assert p in ps && ps == [p] + ps[1..];
      ReadItemsOf(ps[1..]);
      SplitPrefix(EQUALS, p.name, p.value);
      SplitPrefix(EQUALS, p.value, []);
      assert Items(ps)[1..] == Items(ps[1..]);
    }
  }

  lemma {:induction false} DecodePairsOf(ps: seq<EncParam>)
    ensures DecodePairs(EncodePairs(ps)) == Some(ps)
  {
    if ps != [] {
      DecodeEncode(ps[0].name, false);
      DecodeEncode(ps[0].value, false);
      DecodePairsOf(ps[1..]);
      assert EncodePairs(ps)[1..] == EncodePairs(ps[1..]);
      assert ps == [ps[0]] + ps[1..];
    }
  }

  lemma ItemsNonEmpty(ps: seq<EncParam>)
    ensures Items(ps) == [] <==> ps == []
    ensures ps != [] ==> Join(AMPERSAND, Items(ps)) != []
  {
    if |ps| > 1 {
      assert Items(ps)[0] == Item(ps[0]);
    }
  }

  /** Nothing but unreserved bytes, escapes and the two separators. */
  predicate QueryByte(c: byte) { Unreserved(c) || c == PERCENT || c == AMPERSAND || c == EQUALS }

  lemma {:induction false} JoinedBytes(ps: seq<EncParam>)
    requires forall p :: p in ps ==> forall c :: c in Item(p) ==> QueryByte(c)
    ensures forall c :: c in Join(AMPERSAND, Items(ps)) ==> QueryByte(c)
  {
    if ps != [] {
      assert ps[0] in ps && Items(ps)[0] == Item(ps[0]) && Items(ps)[1..] == Items(ps[1..]);
      JoinedBytes(ps[1..]);
    }
  }

  lemma QueryAlphabet(params: seq<Param>)
    ensures forall c :: c in Query(params) ==> QueryByte(c)
  {
    var enc := EncodePairs(Raws(params));
    SortPairsSorts(enc);
    forall p | p in SortPairs(enc)
      ensures forall c :: c in Item(p) ==> QueryByte(c)
    {
      assert p in multiset(SortPairs(enc));
      EncodedItems(Raws(params), p);
    }
    JoinedBytes(SortPairs(enc));
  }

  lemma {:induction false} EncodedItems(raws: seq<EncParam>, p: EncParam)
    requires p in EncodePairs(raws)
    ensures forall c :: c in Item(p) ==> QueryByte(c)
  {
    if p == EncodePair(raws[0]) {
      EncodeAlphabet(raws[0].name, false);
      EncodeAlphabet(raws[0].value, false);
    } else {
      EncodedItems(raws[1..], p);
    }
  }

  /** The query reads back as exactly the sorted encoded pairs, and decodes to the raw parameters. */
  lemma QueryReadsBack(params: seq<Param>)
    ensures ReadQuery(Query(params)) == Some(SortPairs(EncodePairs(Raws(params))))
    ensures DecodePairs(SortPairs(EncodePairs(Raws(params)))).Some?
    ensures multiset(DecodePairs(SortPairs(EncodePairs(Raws(params)))).value) == multiset(Raws(params))
  {
    var enc := EncodePairs(Raws(params));
    var sorted := SortPairs(enc);
    SortPairsSorts(enc);
    EncodePairsClean(Raws(params));
    forall x | x in sorted
      ensures Clean(x)
    {
      assert x in multiset(enc);
    }
    ReadItemsOf(sorted);
    ItemsNonEmpty(sorted);
    if sorted != [] {
      SplitJoin(AMPERSAND, Items(sorted));
    }
    var raw := Preimage(EncodePair, Raws(params), sorted);
    DecodePairsOf(raw);
  }

  // ---------------------------------------------------------------- building it

  /** encode_dup(): a size-only pass, an allocation of that size, and a writing pass that fills it. */
  method EncodeDup(s: bytes) returns (d: array<byte>)
    ensures fresh(d) && d.Length == |Encode(s, false)| + 1
    ensures d[..d.Length - 1] == Encode(s, false) && d[d.Length - 1] == 0
  {
    var o := new Sink.Buffer(null, 0, 0);
    PutEncoded(o, s, false, false);
    d := new byte[o.len + 1];
    o := new Sink.Buffer(d, 0, d.Length);
    PutEncoded(o, s, false, false);
    var n := o.Finish();
  }

  /** What build_query() adds up before allocating: name, '=', value and '&' of every parameter. */
  function ItemsSize(ps: seq<EncParam>): nat {
    if ps == [] then 0 else |ps[0].name| + 1 + |ps[0].value| + 1 + ItemsSize(ps[1..])
  }

  lemma {:induction false} ItemsSizeSnoc(ps: seq<EncParam>, x: EncParam)
    ensures ItemsSize(ps + [x]) == ItemsSize(ps) + |x.name| + 1 + |x.value| + 1
  {
    if ps == [] {
      assert [x][1..] == [];
    } else {
      assert (ps + [x])[1..] == ps[1..] + [x];
      ItemsSizeSnoc(ps[1..], x);
    }
  }

  lemma {:induction false} InsertPairSize(ps: seq<EncParam>, x: EncParam)
    ensures ItemsSize(InsertPair(ps, x)) == ItemsSize(ps) + |x.name| + 1 + |x.value| + 1
  {
    if ps == [] {
      ItemsSizeSnoc([], x);
    } else if PairLe(x, ps[0]) {
      assert ([x] + ps)[1..] == ps;
    } else {
      InsertPairSize(ps[1..], x);
      assert ([ps[0]] + InsertPair(ps[1..], x))[1..] == InsertPair(ps[1..], x);
    }
  }

  lemma {:induction false} SortPairsSize(ps: seq<EncParam>)
    ensures ItemsSize(SortPairs(ps)) == ItemsSize(ps)
  {
    if ps != [] {
      SortPairsSize(ps[1..]);
      InsertPairSize(SortPairs(ps[1..]), ps[0]);
    }
  }

  lemma {:induction false} JoinedSize(ps: seq<EncParam>)
    requires ps != []
    ensures |Join(AMPERSAND, Items(ps))| + 1 == ItemsSize(ps)
  {
    assert Items(ps)[1..] == Items(ps[1..]);
    if |ps| > 1 {
      JoinedSize(ps[1..]);
      assert Items(ps[1..]) != [];
    } else {
      assert ps[1..] == [] && Items(ps) == [Item(ps[0])];
    }
  }

  lemma {:induction false} ItemsSnoc(ps: seq<EncParam>, x: EncParam)
    ensures Items(ps + [x]) == Items(ps) + [Item(x)]
  {
    if ps == [] {
      assert [x][1..] == [];
    } else {
      assert (ps + [x])[1..] == ps[1..] + [x];
      ItemsSnoc(ps[1..], x);
    }
  }

  lemma JoinedStep(ps: seq<EncParam>, i: nat)
    requires i < |ps|
    ensures Join(AMPERSAND, Items(ps[..i + 1]))
      == Join(AMPERSAND, Items(ps[..i])) + ((if i > 0 then [AMPERSAND] else []) + ps[i].name + [EQUALS] + ps[i].value)
  {
    assert ps[..i + 1] == ps[..i] + [ps[i]];
    ItemsSnoc(ps[..i], ps[i]);
    if i > 0 {
      assert Items(ps[..i]) != [];
      JoinSnoc(AMPERSAND, Items(ps[..i]), Item(ps[i]));
    } else {
      assert ps[..0] == [];
    }
  }

  method PutItem(o: Sink, p: EncParam, first: bool)
    requires o.Valid()
    modifies o, o.dst
    ensures o.Valid()
    ensures o.fed == old(o.fed) + ((if first then [] else [AMPERSAND]) + p.name + [EQUALS] + p.value)
  {
    if !first {
      o.PutByte(AMPERSAND);
    }
    o.Put(p.name);
    o.PutByte(EQUALS);
    o.Put(p.value);
  }

  /** The encoding loop of build_query(): the pairs and the size of the string they will make. */
  method EncodeParams(params: seq<Param>) returns (enc: seq<EncParam>, cap: nat)
    requires Named(params)
    ensures enc == EncodePairs(Raws(params)) && cap == 1 + ItemsSize(enc)
  {
    enc, cap := [], 1;
    assert params[..0] == [];
    for i := 0 to |params|
      invariant enc == EncodePairs(Raws(params[..i])) && cap == 1 + ItemsSize(enc)
    {
      var n := EncodeDup(params[i].name.value);
      var v := EncodeDup(if params[i].value.Some? then params[i].value.value else []);
      var p := EncParam(n[..n.Length - 1], v[..v.Length - 1]);
      assert params[..i + 1] == params[..i] + [params[i]];
      MapSplit(Raw, params[..i], [params[i]]);
      assert Raws([params[i]]) == [Raw(params[i])];
      MapSplit(EncodePair, Raws(params[..i]), [Raw(params[i])]);
      assert EncodePairs([Raw(params[i])]) == [p];
      ItemsSizeSnoc(enc, p);
      enc := enc + [p];
      cap := cap + |p.name| + 1 + |p.value| + 1;
    }
    assert params[..|params|] == params;
  }

  /** build_query(): refuses exactly a NULL name; none gives NULL; else the canonical query, which
      together with its NUL fits the allocation sized before sorting. */
  method BuildQuery(params: seq<Param>) returns (r: Result<array?<byte>, QueryError>, len: nat)
    ensures r.Err? <==> !Named(params)
    ensures r.Ok? ==> (r.value == null <==> params == [])
    ensures r.Ok? && r.value != null ==> fresh(r.value)
    ensures r.Ok? && r.value != null ==> len + 1 < r.value.Length && r.value[..len] == Query(params) && r.value[len] == 0
  {
    len := 0;
    for i := 0 to |params|
      invariant forall k :: 0 <= k < i ==> params[k].name.Some?
    {
      if params[i].name.None? {
        return Err(InvalidArg), 0;
      }
    }
    if |params| == 0 {
      return Ok(null), 0;
    }
    var enc, cap := EncodeParams(params);
    SortPairsSize(enc);
    enc := SortPairs(enc);
    assert enc != [];
    JoinedSize(enc);
    var joined;
    joined, len := JoinParams(enc, cap);
    r := Ok(joined);
  }

  /** The writing loop of build_query(). */
  method JoinParams(enc: seq<EncParam>, cap: nat) returns (joined: array<byte>, len: nat)
    requires enc != [] && |Join(AMPERSAND, Items(enc))| + 1 < cap
    ensures fresh(joined) && joined.Length == cap && len == |Join(AMPERSAND, Items(enc))|
    ensures joined[..len] == Join(AMPERSAND, Items(enc)) && joined[len] == 0
  {
    joined := new byte[cap];
    var o := new Sink.Buffer(joined, 0, cap);
    assert enc[..0] == [];
    for i := 0 to |enc|
      invariant o.Valid() && fresh(o) && o.dst == joined
      invariant o.fed == Join(AMPERSAND, Items(enc[..i]))
    {
      JoinedStep(enc, i);
      PutItem(o, enc[i], i == 0);
    }
    assert enc[..|enc|] == enc;
    len := o.Finish();
  }
}
