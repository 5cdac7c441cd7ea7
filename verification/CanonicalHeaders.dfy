/** Header canonicalisation: an in-place stable sort followed by merging runs of equal names must give
    what the reference gets by filling a dictionary and sorting its keys. */
module CanonicalHeaders {
  import opened Bytes
  import opened OutputSink
  import opened HeaderTrimming

  datatype Header = Header(name: bytes, value: bytes)
  /** A caller's header, whose pointers may be NULL. */
  datatype RawHeader = RawHeader(name: Option<bytes>, value: Option<bytes>)

  const MAX_HEADERS: nat := 16

  function Key(h: Header): bytes { Lower(h.name) }

  /** strcasecmp(a, b) <= 0. */
  predicate NameLe(a: Header, b: Header) { LexLe(Key(a), Key(b)) }

  // ---------------------------------------------------------------- the reference (sigv4_ref.py)

  /** merged.setdefault(n, []).append(trim(v)), over the headers in order. */
  function Merged(hs: seq<Header>): map<bytes, seq<bytes>> {
    if hs == [] then map[]
    else
      var m := Merged(hs[..|hs| - 1]);
      var h := hs[|hs| - 1];
      m[Key(h) := (if Key(h) in m then m[Key(h)] else []) + [Trim(h.value)]]
  }

  ghost predicate StrictlySorted(names: seq<bytes>) {
    forall i, j :: 0 <= i < j < |names| ==> LexLe(names[i], names[j]) && names[i] != names[j]
  }

  function Insert(names: seq<bytes>, n: bytes): seq<bytes> {
    if names == [] then [n]
    else if names[0] == n then names
    else if LexLe(n, names[0]) then [n] + names
    else [names[0]] + Insert(names[1..], n)
  }

  /** sorted(merged): the distinct names in ascending order. */
  function SortedNames(hs: seq<Header>): seq<bytes> {
    if hs == [] then [] else Insert(SortedNames(hs[1..]), Key(hs[0]))
  }

  function Line(name: bytes, values: seq<bytes>): bytes {
    name + [COLON] + Join(COMMA, values) + [NEWLINE]
  }

  function Lines(names: seq<bytes>, m: map<bytes, seq<bytes>>): bytes
    requires forall n :: n in names ==> n in m
  {
    if names == [] then [] else Line(names[0], m[names[0]]) + Lines(names[1..], m)
  }

  // ---------------------------------------------------------------- properties of the reference

  ghost function Keys(hs: seq<Header>): set<bytes> { set k | 0 <= k < |hs| :: Key(hs[k]) }

  lemma KeysOf(hs: seq<Header>)
    ensures hs != [] ==> Keys(hs) == {Key(hs[0])} + Keys(hs[1..])
    ensures hs != [] ==> Keys(hs) == Keys(hs[..|hs| - 1]) + {Key(hs[|hs| - 1])}
  {
    if hs != [] {
      var a := hs[1..];
      forall n | n in Keys(hs)
        ensures n in {Key(hs[0])} + Keys(a) && n in Keys(hs[..|hs| - 1]) + {Key(hs[|hs| - 1])}
      {
        var k :| 0 <= k < |hs| && n == Key(hs[k]);
        if k > 0 {
          assert Key(a[k - 1]) == n;
        }
        if k < |hs| - 1 {
          assert Key(hs[..|hs| - 1][k]) == n;
        }
      }
      forall n | n in Keys(a)
        ensures n in Keys(hs)
      {
        var k :| 0 <= k < |a| && n == Key(a[k]);
        assert Key(hs[k + 1]) == n;
      }
      forall n | n in Keys(hs[..|hs| - 1])
        ensures n in Keys(hs)
      {
        var k :| 0 <= k < |hs| - 1 && n == Key(hs[..|hs| - 1][k]);
        assert Key(hs[k]) == n;
      }
    }
  }

  lemma BeforeAll(names: seq<bytes>, n: bytes, j: nat)
    requires StrictlySorted(names) && j < |names| && LexLe(n, names[0]) && n != names[0]
    ensures LexLe(n, names[j]) && n != names[j]
  {
    if j > 0 {
      LexTransitive(n, names[0], names[j]);
      LexBetween(n, names[0], names[j]);
    }
  }

  lemma {:induction false} InsertSorted(names: seq<bytes>, n: bytes)
    requires StrictlySorted(names)
    ensures StrictlySorted(Insert(names, n))
    ensures forall x :: x in Insert(names, n) <==> x == n || x in names
  {
    if names != [] && names[0] != n {
      if LexLe(n, names[0]) {
        forall j | 0 <= j < |names|
          ensures LexLe(n, names[j]) && n != names[j]
        {
          BeforeAll(names, n, j);
        }
      } else {
        InsertSorted(names[1..], n);
        LexTotal(n, names[0]);
        var t := Insert(names[1..], n);
        assert forall x :: x in names <==> x == names[0] || x in names[1..];
        forall j | 0 <= j < |t|
          ensures LexLe(names[0], t[j]) && names[0] != t[j]
        {
          assert t[j] in t;
        }
      }
    }
  }

  lemma {:induction false} SortedNamesSorted(hs: seq<Header>)
    ensures StrictlySorted(SortedNames(hs))
    ensures forall n :: n in SortedNames(hs) <==> n in Keys(hs)
  {
    if hs != [] {
      SortedNamesSorted(hs[1..]);
      InsertSorted(SortedNames(hs[1..]), Key(hs[0]));
      KeysOf(hs);
    }
  }

  /** A set of names has one strictly ascending listing. */
  /** The header names ascend byte by byte, and there are no two alike. */
  lemma NamesAscend(hs: seq<Header>, i: nat, j: nat)
    requires i < j < |SortedNames(hs)|
    ensures Before(SortedNames(hs)[i], SortedNames(hs)[j])
  {
    SortedNamesSorted(hs);
    LexLeIs(SortedNames(hs)[i], SortedNames(hs)[j]);
  }

  lemma {:induction false} StrictlySortedUnique(a: seq<bytes>, b: seq<bytes>)
    requires StrictlySorted(a) && StrictlySorted(b)
    requires forall n :: n in a <==> n in b
    ensures a == b
  {
    assert b != [] ==> b[0] in b;
    if a != [] {
      assert a[0] in a && a[0] in b;
      assert b[0] in b && b[0] in a;
      if a[0] != b[0] {
        LexAntisymmetric(a[0], b[0]);
      }
      forall n
        ensures n in a[1..] <==> n in b[1..]
      {
        Tail(a, n);
        Tail(b, n);
      }
      StrictlySortedUnique(a[1..], b[1..]);
      assert a == [a[0]] + a[1..] && b == [b[0]] + b[1..];
    }
  }

  lemma Tail(a: seq<bytes>, n: bytes)
    requires StrictlySorted(a) && a != []
    ensures n in a[1..] <==> n in a && n != a[0]
  {
    assert a == [a[0]] + a[1..];
  }

  // ---------------------------------------------------------------- what the C code computes

  function WithName(hs: seq<Header>, n: bytes): seq<Header> {
    if hs == [] then []
    else WithName(hs[..|hs| - 1], n) + (if Key(hs[|hs| - 1]) == n then [hs[|hs| - 1]] else [])
  }

  ghost predicate SortedByName(hs: seq<Header>) {
    forall i, j :: 0 <= i < j < |hs| ==> NameLe(hs[i], hs[j])
  }

  /** s is hs sorted by name, headers of one name in their original order. */
  ghost predicate StableSortOf(hs: seq<Header>, s: seq<Header>) {
    SortedByName(s) && |s| == |hs| && forall n :: WithName(s, n) == WithName(hs, n)
  }

  function Trims(hs: seq<Header>): seq<bytes> {
    if hs == [] then [] else Trims(hs[..|hs| - 1]) + [Trim(hs[|hs| - 1].value)]
  }

  lemma {:induction false} MergedAt(hs: seq<Header>, n: bytes)
    ensures n in Merged(hs) <==> WithName(hs, n) != []
    ensures n in Merged(hs) ==> Merged(hs)[n] == Trims(WithName(hs, n))
    ensures n in Merged(hs) <==> n in Keys(hs)
  {
    if hs != [] {
      var last := hs[|hs| - 1];
      MergedAt(hs[..|hs| - 1], n);
      KeysOf(hs);
      var w := WithName(hs[..|hs| - 1], n);
      assert (w + [last])[..|w|] == w && w + [] == w;
      assert Trims([]) == [];
    }
  }

  /** The dictionary holds, per name, the trimmed values of that name in order. */
  lemma MergedIs(hs: seq<Header>)
    ensures forall n :: n in Merged(hs) <==> WithName(hs, n) != []
    ensures forall n :: n in Merged(hs) ==> Merged(hs)[n] == Trims(WithName(hs, n))
    ensures Merged(hs).Keys == Keys(hs)
  {
    forall n
      ensures n in Merged(hs) <==> WithName(hs, n) != []
      ensures n in Merged(hs) ==> Merged(hs)[n] == Trims(WithName(hs, n))
      ensures n in Merged(hs) <==> n in Keys(hs)
    {
      MergedAt(hs, n);
    }
  }

  /** A stable sort does not change the dictionary, nor its sorted keys. */
  lemma StableSortKeepsReference(hs: seq<Header>, s: seq<Header>)
    requires StableSortOf(hs, s)
    ensures Merged(s) == Merged(hs) && SortedNames(s) == SortedNames(hs)
  {
    MergedIs(s);
    MergedIs(hs);
    assert forall n :: n in Merged(s) <==> n in Merged(hs);
    assert Merged(s).Keys == Merged(hs).Keys;
    SortedNamesSorted(s);
    SortedNamesSorted(hs);
    StrictlySortedUnique(SortedNames(s), SortedNames(hs));
  }

  /** Length of the leading run of one name. */
  function RunLen(s: seq<Header>): (k: nat)
    requires s != []
    ensures 0 < k <= |s|
  {
    if |s| == 1 || Key(s[1]) != Key(s[0]) then 1 else 1 + RunLen(s[1..])
  }

  /** The run is exactly the leading headers of the first one's name. */
  lemma {:induction false} RunLenBounds(s: seq<Header>)
    requires s != []
    ensures forall i :: 0 <= i < RunLen(s) ==> Key(s[i]) == Key(s[0])
    ensures RunLen(s) < |s| ==> Key(s[RunLen(s)]) != Key(s[0])
  {
    if |s| > 1 && Key(s[1]) == Key(s[0]) {
      RunLenBounds(s[1..]);
      assert forall i :: 0 < i < |s| ==> s[i] == s[1..][i - 1];
    }
  }

  /** One name per run. */
  function RunNames(s: seq<Header>): seq<bytes> {
    if s == [] then [] else [Key(s[0])] + RunNames(s[RunLen(s)..])
  }

  /** One line per run. */
  function RunLines(s: seq<Header>): bytes {
    if s == [] then [] else Line(Key(s[0]), Trims(s[..RunLen(s)])) + RunLines(s[RunLen(s)..])
  }

  lemma {:induction false} WithNameSplit(a: seq<Header>, b: seq<Header>, n: bytes)
    ensures WithName(a + b, n) == WithName(a, n) + WithName(b, n)
  {
    if b == [] {
      assert a + b == a;
    } else {
      assert (a + b)[..|a + b| - 1] == a + b[..|b| - 1];
      WithNameSplit(a, b[..|b| - 1], n);
    }
  }

  lemma {:induction false} WithNameAll(a: seq<Header>, n: bytes)
    requires forall i :: 0 <= i < |a| ==> Key(a[i]) == n
    ensures WithName(a, n) == a
  {
    if a != [] {
      WithNameAll(a[..|a| - 1], n);
      assert a == a[..|a| - 1] + [a[|a| - 1]];
    }
  }

  lemma {:induction false} WithNameNone(a: seq<Header>, n: bytes)
    requires forall i :: 0 <= i < |a| ==> Key(a[i]) != n
    ensures WithName(a, n) == []
  {
    if a != [] {
      WithNameNone(a[..|a| - 1], n);
    }
  }

  lemma AfterRun(s: seq<Header>, k: nat, i: nat)
    requires SortedByName(s) && 0 < k <= i < |s| && Key(s[k]) != Key(s[0])
    ensures Key(s[i]) != Key(s[0])
  {
    if k < i {
      Ordered(s, 0, k);
      Ordered(s, k, i);
      LexBetween(Key(s[0]), Key(s[k]), Key(s[i]));
    }
  }

  lemma Ordered(s: seq<Header>, i: nat, j: nat)
    requires SortedByName(s) && i < j < |s|
    ensures LexLe(Key(s[i]), Key(s[j]))
  {
    assert NameLe(s[i], s[j]);
  }

  lemma LexBetween(a: bytes, b: bytes, c: bytes)
    requires LexLe(a, b) && LexLe(b, c) && a != b
    ensures a != c
  {
    if a == c {
      LexAntisymmetric(a, b);
    }
  }

  /** In a sorted list the first run holds every header of its name; the others are in the rest. */
  lemma RunIsGroup(s: seq<Header>, m: bytes)
    requires SortedByName(s) && s != []
    ensures WithName(s, m) == if m == Key(s[0]) then s[..RunLen(s)] else WithName(s[RunLen(s)..], m)
  {
    var k := RunLen(s);
    RunLenBounds(s);
    forall i | k <= i < |s|
      ensures Key(s[i]) != Key(s[0])
    {
      AfterRun(s, k, i);
    }
    Grouped(s, k, Key(s[0]), m);
  }

  /** Selecting a name from a list cut where the name n ends. */
  lemma Grouped(s: seq<Header>, k: nat, n: bytes, m: bytes)
    requires k <= |s| && (forall i :: 0 <= i < k ==> Key(s[i]) == n) && forall i :: k <= i < |s| ==> Key(s[i]) != n
    ensures WithName(s, m) == if m == n then s[..k] else WithName(s[k..], m)
  {
    assert s == s[..k] + s[k..];
    WithNameSplit(s[..k], s[k..], m);
    if m == n {
      WithNameAll(s[..k], m);
      WithNameNone(s[k..], m);
    } else {
      WithNameNone(s[..k], m);
    }
  }

  lemma DropSorted(s: seq<Header>, k: nat)
    requires SortedByName(s) && k <= |s|
    ensures SortedByName(s[k..])
  {
    forall i, j | 0 <= i < j < |s| - k
      ensures NameLe(s[k..][i], s[k..][j])
    {
      assert NameLe(s[k + i], s[k + j]);
    }
  }

  lemma RestIsSorted(s: seq<Header>)
    requires SortedByName(s) && s != []
    ensures SortedByName(s[RunLen(s)..])
    ensures forall m :: m in Keys(s[RunLen(s)..]) ==> LexLe(Key(s[0]), m) && Key(s[0]) != m
  {
    var k := RunLen(s);
    DropSorted(s, k);
    forall m | m in Keys(s[k..])
      ensures LexLe(Key(s[0]), m) && Key(s[0]) != m
    {
      Beyond(s, m);
    }
  }

  lemma Beyond(s: seq<Header>, m: bytes)
    requires SortedByName(s) && s != [] && m in Keys(s[RunLen(s)..])
    ensures LexLe(Key(s[0]), m) && Key(s[0]) != m
  {
    var i := WithKey(s[RunLen(s)..], m);
    RunStops(s);
    BeyondAt(s, RunLen(s), RunLen(s) + i);
  }

  lemma BeyondAt(s: seq<Header>, k: nat, i: nat)
    requires SortedByName(s) && 0 < k <= i < |s| && Key(s[k]) != Key(s[0])
    ensures LexLe(Key(s[0]), Key(s[i])) && Key(s[0]) != Key(s[i])
  {
    AfterRun(s, k, i);
    Ordered(s, 0, i);
  }

  lemma WithKey(hs: seq<Header>, m: bytes) returns (i: nat)
    requires m in Keys(hs)
    ensures i < |hs| && Key(hs[i]) == m
  {
    i :| 0 <= i < |hs| && Key(hs[i]) == m;
  }

  lemma RunStops(s: seq<Header>)
    requires s != [] && RunLen(s) < |s|
    ensures Key(s[RunLen(s)]) != Key(s[0])
  {
    RunLenBounds(s);
  }

  lemma RunNamesCover(s: seq<Header>, m: bytes)
    requires SortedByName(s) && s != [] && (m in RunNames(s[RunLen(s)..]) <==> m in Keys(s[RunLen(s)..]))
    ensures m in RunNames(s) <==> m in Keys(s)
  {
    RunIsGroup(s, m);
    MergedAt(s, m);
    MergedAt(s[RunLen(s)..], m);
  }

  /** The names a sorted list's runs give are the dictionary's sorted keys. */
  lemma {:induction false} RunNamesSorted(s: seq<Header>)
    requires SortedByName(s)
    ensures RunNames(s) == SortedNames(s)
    decreases |s|
  {
    if s != [] {
      var t := s[RunLen(s)..];
      RestIsSorted(s);
      RunNamesSorted(t);
      SortedNamesSorted(t);
      SortedNamesSorted(s);
      forall m
        ensures m in RunNames(s) <==> m in Keys(s)
      {
        RunNamesCover(s, m);
      }
      StrictlySortedUnique(RunNames(s), SortedNames(s));
    }
  }

  lemma {:induction false} LinesAgree(names: seq<bytes>, m: map<bytes, seq<bytes>>, m': map<bytes, seq<bytes>>)
    requires forall n :: n in names ==> n in m && n in m' && m[n] == m'[n]
    ensures Lines(names, m) == Lines(names, m')
  {
    if names != [] {
      assert names[0] in names;
      LinesAgree(names[1..], m, m');
    }
  }

  /** The reference's CanonicalHeaders: one line per key, in key order. */
  function ReferenceLines(hs: seq<Header>): bytes {
    NamesAreKeys(hs);
    Lines(SortedNames(hs), Merged(hs))
  }

  lemma NamesAreKeys(hs: seq<Header>)
    ensures forall n :: n in SortedNames(hs) <==> n in Merged(hs)
  {
    MergedIs(hs);
    SortedNamesSorted(hs);
  }

  /** Merging runs of a sorted list gives the dictionary's lines. */
  lemma {:induction false} RunLinesAreReference(s: seq<Header>)
    requires SortedByName(s)
    ensures RunLines(s) == ReferenceLines(s)
    decreases |s|
  {
    if s != [] {
      var t := s[RunLen(s)..];
      RestIsSorted(s);
      RunNamesSorted(s);
      RunNamesSorted(t);
      RunLinesAreReference(t);
      NamesAreKeys(s);
      NamesAreKeys(t);
      MergedIs(t);
      forall n | n in SortedNames(t)
        ensures n in Merged(s) && Merged(s)[n] == Merged(t)[n]
      {
        RunIsGroup(s, n);
        MergedAt(s, n);
        MergedAt(t, n);
      }
      LinesAgree(SortedNames(t), Merged(s), Merged(t));
      RunIsGroup(s, Key(s[0]));
      MergedAt(s, Key(s[0]));
    }
  }

  // ---------------------------------------------------------------- collect_headers()

  /** strcasecmp(a.name, b.name) == 0. */
  predicate SameName(a: Header, b: Header) { Key(a) == Key(b) }

  predicate NameReserved(builtin: seq<Header>, name: bytes) {
    Lower(name) == Ascii("authorization") || exists i :: 0 <= i < |builtin| && Key(builtin[i]) == Lower(name)
  }

  /** A caller's header that collect_headers() turns away. */
  predicate Refused(builtin: seq<Header>, h: RawHeader) {
    h.name.None? || h.value.None? || NameReserved(builtin, h.name.value)
  }

  function Plain(extra: seq<RawHeader>): seq<Header>
    requires forall i :: 0 <= i < |extra| ==> extra[i].name.Some? && extra[i].value.Some?
  {
    seq(|extra|, i requires 0 <= i < |extra| => Header(extra[i].name.value, extra[i].value.value))
  }

  /** One turn of the insertion sort: x moves left past the headers whose name is greater. */
  function InsertStable(s: seq<Header>, x: Header): seq<Header> {
    if s == [] then [x]
    else if !NameLe(s[|s| - 1], x) then InsertStable(s[..|s| - 1], x) + [s[|s| - 1]]
    else s + [x]
  }

  lemma {:induction false} InsertStableKeeps(s: seq<Header>, x: Header, n: bytes)
    ensures |InsertStable(s, x)| == |s| + 1
    ensures WithName(InsertStable(s, x), n) == WithName(s + [x], n)
  {
    assert (s + [x])[..|s|] == s;
    if s == [] {
    } else if !NameLe(s[|s| - 1], x) {
      var init, last := s[..|s| - 1], s[|s| - 1];
      InsertStableKeeps(init, x, n);
      var t := InsertStable(init, x);
      assert (t + [last])[..|t|] == t;
      assert (init + [x])[..|init|] == init;
      LexTotal(Key(x), Key(x));
    }
  }

  lemma {:induction false} InsertStableSorted(s: seq<Header>, x: Header)
    requires SortedByName(s)
    ensures SortedByName(InsertStable(s, x))
    ensures forall h :: h in InsertStable(s, x) ==> h == x || h in s
  {
    if s == [] {
    } else if !NameLe(s[|s| - 1], x) {
      var init, last := s[..|s| - 1], s[|s| - 1];
      InsertStableSorted(init, x);
      var t := InsertStable(init, x);
      LexTotal(Key(last), Key(x));
      forall i | 0 <= i < |t|
        ensures NameLe(t[i], last)
      {
        assert t[i] in t;
        if t[i] in init {
          var k :| 0 <= k < |init| && init[k] == t[i];
          assert NameLe(s[k], s[|s| - 1]);
        }
      }
    } else {
      forall i | 0 <= i < |s|
        ensures NameLe(s[i], x)
      {
        if i < |s| - 1 {
          LexTransitive(Key(s[i]), Key(s[|s| - 1]), Key(x));
        }
      }
    }
  }

  /** The body of the insertion sort: shifts h[..i] in place until the key's slot is free. */
  method InsertAt(h: array<Header>, i: nat)
    requires 0 < i < h.Length
    modifies h
    ensures h[..i + 1] == InsertStable(old(h[..i]), old(h[i]))
    ensures h[i + 1..] == old(h[i + 1..])
  {
    var key := h[i];
    ghost var was := h[..i];
    var j := ShiftRight(h, i, key);
    h[j] := key;
    Opened(h[..i + 1], was, key, j);
  }

  /** The inner loop: opens slot j. */
  method ShiftRight(h: array<Header>, i: nat, key: Header) returns (j: nat)
    requires 0 < i < h.Length
    modifies h
    ensures j <= i
    ensures forall k :: 0 <= k < h.Length ==> h[k] == if j < k <= i then old(h[k - 1]) else old(h[k])
    ensures InsertStable(old(h[..i]), key) == old(h[..i])[..j] + [key] + old(h[..i])[j..]
  {
    ghost var was := h[..i];
    j := i;
    while j > 0 && !NameLe(h[j - 1], key)
      invariant 0 <= j <= i
      invariant forall k :: 0 <= k < h.Length ==> h[k] == if j < k <= i then old(h[k - 1]) else old(h[k])
      invariant forall k :: j <= k < i ==> !NameLe(was[k], key)
    {
      h[j] := h[j - 1];
      j := j - 1;
    }
    Inserted(was, key, j);
  }

  /** A key that passes every name from slot j on and stops there is inserted at slot j. */
  lemma {:induction false} Inserted(was: seq<Header>, key: Header, j: nat)
    requires j <= |was| && (j > 0 ==> NameLe(was[j - 1], key)) && forall k :: j <= k < |was| ==> !NameLe(was[k], key)
    ensures InsertStable(was, key) == was[..j] + [key] + was[j..]
  {
    if j == |was| {
      assert was[..j] == was && was[j..] == [];
      InsertStableStops(was, key);
    } else {
      var init := was[..|was| - 1];
      InsertStablePasses(was, key);
      Inserted(init, key, j);
      assert init[..j] == was[..j] && was[j..] == init[j..] + [was[|was| - 1]];
    }
  }

  lemma InsertStableStops(s: seq<Header>, x: Header)
    requires s != [] ==> NameLe(s[|s| - 1], x)
    ensures InsertStable(s, x) == s + [x]
  {
  }

  lemma InsertStablePasses(s: seq<Header>, x: Header)
    requires s != [] && !NameLe(s[|s| - 1], x)
    ensures InsertStable(s, x) == InsertStable(s[..|s| - 1], x) + [s[|s| - 1]]
  {
  }

  lemma Opened(s: seq<Header>, was: seq<Header>, key: Header, j: nat)
    requires |s| == |was| + 1 && j <= |was| && s[j] == key
    requires forall k :: 0 <= k < j ==> s[k] == was[k]
    requires forall k :: j < k < |s| ==> s[k] == was[k - 1]
    ensures s == was[..j] + [key] + was[j..]
  {
  }

  lemma StableStep(all: seq<Header>, i: nat, s: seq<Header>)
    requires i < |all| && StableSortOf(all[..i], s)
    ensures StableSortOf(all[..i + 1], InsertStable(s, all[i]))
  {
    InsertStableSorted(s, all[i]);
    assert all[..i + 1] == all[..i] + [all[i]];
    forall n
      ensures WithName(InsertStable(s, all[i]), n) == WithName(all[..i + 1], n)
      ensures |InsertStable(s, all[i])| == i + 1
    {
      InsertStableKeeps(s, all[i], n);
      WithNameSplit(s, [all[i]], n);
      WithNameSplit(all[..i], [all[i]], n);
    }
    InsertStableKeeps(s, all[i], []);
  }

  /** The insertion sort of collect_headers(). */
  method SortHeaders(h: array<Header>, n: nat)
    requires n <= h.Length
    modifies h
    ensures StableSortOf(old(h[..n]), h[..n])
  {
    ghost var all := h[..n];
    if n == 0 {
      return;
    }
    assert h[..1] == all[..1];
    for i := 1 to n
      invariant StableSortOf(all[..i], h[..i])
      invariant h[i..n] == all[i..]
    {
      StableStep(all, i, h[..i]);
      ghost var tail := h[i + 1..];
      assert h[i] == h[i..n][0];
      assert tail[..n - i - 1] == h[i..n][1..] == all[i..][1..];
      InsertAt(h, i);
      assert h[i + 1..n] == h[i + 1..][..n - i - 1];
    }
    assert all[..n] == all;
  }

  /** collect_headers(): the signer's own headers, then the caller's, sorted by name in place. It
      refuses exactly when there are too many, or one of the caller's is unusable. */
  method CollectHeaders(builtin: seq<Header>, extra: seq<RawHeader>, h: array<Header>) returns (n: int)
    requires |builtin| <= MAX_HEADERS == h.Length
    modifies h
    ensures n == -1 || n == |builtin| + |extra|
    ensures n == -1 <==> |builtin| + |extra| > MAX_HEADERS || exists i :: 0 <= i < |extra| && Refused(builtin, extra[i])
    ensures n >= 0 ==> n <= MAX_HEADERS && forall i :: 0 <= i < |extra| ==> !Refused(builtin, extra[i])
    ensures n >= 0 ==> StableSortOf(builtin + Plain(extra), h[..n])
  {
    n := 0;
    while n < |builtin|
      invariant 0 <= n <= |builtin| && h[..n] == builtin[..n]
    {
      h[n] := builtin[n];
      n := n + 1;
    }
    for i := 0 to |extra|
      invariant n == |builtin| + i <= MAX_HEADERS
      invariant forall k :: 0 <= k < i ==> !Refused(builtin, extra[k])
      invariant h[..n] == builtin + Plain(extra[..i])
    {
      if n >= MAX_HEADERS {
        return -1;
      }
      if Refused(builtin, extra[i]) {
        return -1;
      }
      h[n] := Header(extra[i].name.value, extra[i].value.value);
      n := n + 1;
      assert Plain(extra[..i + 1]) == Plain(extra[..i]) + [Header(extra[i].name.value, extra[i].value.value)];
    }
    assert extra[..|extra|] == extra;
    SortHeaders(h, n);
  }

  // ---------------------------------------------------------------- CanonicalHeaders and SignedHeaders

  /** put_lower(). */
  method PutLower(o: Sink, s: bytes)
    requires o.Valid()
    modifies o, o.dst
    ensures o.Valid() && o.fed == old(o.fed) + Lower(s)
    ensures o.OthersUnchanged()
  {
    for i := 0 to |s|
      invariant o.Valid() && o.OthersUnchanged()
      invariant o.fed == old(o.fed) + Lower(s)[..i]
    {
      o.PutByte(ToLower(s[i]));
      assert Lower(s)[..i + 1] == Lower(s)[..i] + [ToLower(s[i])];
    }
  }

  lemma {:induction false} RunLenIs(s: seq<Header>, k: nat)
    requires 0 < k <= |s| && (k < |s| ==> Key(s[k]) != Key(s[0]))
    requires forall i :: 0 <= i < k ==> Key(s[i]) == Key(s[0])
    ensures RunLen(s) == k
  {
    if k > 1 {
      assert s[1..][0] == s[1];
      RunLenIs(s[1..], k - 1);
    }
  }

  lemma JoinTrims(hs: seq<Header>, k: nat)
    requires k < |hs|
    ensures Join(COMMA, Trims(hs[..k + 1]))
      == Join(COMMA, Trims(hs[..k])) + ((if k == 0 then [] else [COMMA]) + Trim(hs[k].value))
  {
    assert hs[..k + 1][..k] == hs[..k];
    if k > 0 {
      assert Trims(hs[..k]) != [];
      JoinSnoc(COMMA, Trims(hs[..k]), Trim(hs[k].value));
    } else {
      assert Trims(hs[..1]) == [] + [Trim(hs[0].value)];
    }
  }

  /** The inner loop: the values of one run, joined with commas. */
  method PutRunValues(o: Sink, h: seq<Header>, i: nat) returns (j: nat)
    requires o.Valid() && i < |h|
    modifies o, o.dst
    ensures i < j <= |h| && j - i == RunLen(h[i..])
    ensures o.Valid() && o.fed == old(o.fed) + Join(COMMA, Trims(h[i..][..j - i]))
    ensures o.OthersUnchanged()
  {
    j := i;
    ghost var run, start := h[i..], o.fed;
    NothingAfter(start);
    while j < |h| && SameName(h[j], h[i])
      invariant i <= j <= |h| && o.Valid() && o.OthersUnchanged()
      invariant forall k :: i <= k < j ==> Key(h[k]) == Key(h[i])
      invariant o.fed == start + Join(COMMA, Trims(run[..j - i]))
    {
      ValuesStep(start, run, j - i);
      PutValue(o, h[j].value, j == i);
      j := j + 1;
    }
    RunEnds(h, i, j);
  }

  lemma NothingAfter(start: bytes)
    ensures start + Join(COMMA, []) == start
  {
  }

  lemma ValuesStep(start: bytes, run: seq<Header>, k: nat)
    requires k < |run|
    ensures start + Join(COMMA, Trims(run[..k])) + ((if k == 0 then [] else [COMMA]) + Trim(run[k].value))
         == start + Join(COMMA, Trims(run[..k + 1]))
  {
    JoinTrims(run, k);
    Regroup(start, Join(COMMA, Trims(run[..k])), (if k == 0 then [] else [COMMA]) + Trim(run[k].value));
  }

  lemma RunEnds(h: seq<Header>, i: nat, j: nat)
    requires i < j <= |h| && (forall k :: i <= k < j ==> Key(h[k]) == Key(h[i])) && (j < |h| ==> Key(h[j]) != Key(h[i]))
    ensures RunLen(h[i..]) == j - i
  {
    RunLenIs(h[i..], j - i);
  }

  method PutValue(o: Sink, value: bytes, first: bool)
    requires o.Valid()
    modifies o, o.dst
    ensures o.Valid() && o.fed == old(o.fed) + ((if first then [] else [COMMA]) + Trim(value))
    ensures o.OthersUnchanged()
  {
    if !first {
      o.PutByte(COMMA);
    }
    PutTrimmed(o, value);
  }

  /** The header loop of sign_canonical(), over a sorted list. */
  method PutCanonicalHeaders(o: Sink, h: seq<Header>)
    requires o.Valid()
    modifies o, o.dst
    ensures o.Valid() && o.fed == old(o.fed) + RunLines(h)
    ensures o.OthersUnchanged()
  {
    var i := 0;
    ghost var start, all := o.fed, RunLines(h);
    assert h[0..] == h;
    while i < |h|
      invariant i <= |h| && o.Valid() && o.OthersUnchanged()
      invariant o.fed + RunLines(h[i..]) == start + all
    {
      i := PutLine(o, h, i);
    }
    assert o.fed + [] == o.fed;
  }

  method PutLine(o: Sink, h: seq<Header>, i: nat) returns (j: nat)
    requires o.Valid() && i < |h|
    modifies o, o.dst
    ensures i < j <= |h| && o.Valid() && o.OthersUnchanged()
    ensures o.fed + RunLines(h[j..]) == old(o.fed) + RunLines(h[i..])
  {
    ghost var start := o.fed;
    j := PutRun(o, h, i);
    RunLinesStep(start, h, i, j);
  }

  method PutRun(o: Sink, h: seq<Header>, i: nat) returns (j: nat)
    requires o.Valid() && i < |h|
    modifies o, o.dst
    ensures i < j <= |h| && j - i == RunLen(h[i..]) && o.Valid() && o.OthersUnchanged()
    ensures o.fed == old(o.fed) + Line(Key(h[i]), Trims(h[i..][..j - i]))
  {
    PutLower(o, h[i].name);
    o.PutByte(COLON);
    j := PutRunValues(o, h, i);
    o.PutByte(NEWLINE);
  }

  lemma RunLinesStep(start: bytes, h: seq<Header>, i: nat, j: nat)
    requires i < j <= |h| && j - i == RunLen(h[i..])
    ensures start + Line(Key(h[i]), Trims(h[i..][..j - i])) + RunLines(h[j..]) == start + RunLines(h[i..])
  {
    assert h[i..][j - i..] == h[j..];
    var line := Line(Key(h[i]), Trims(h[i..][..j - i]));
    assert start + line + RunLines(h[j..]) == start + (line + RunLines(h[j..]));
  }

  /** The names joined as build_signed_headers() does: a ';' is written once something is out. */
  function NamesJoined(names: seq<bytes>, acc: bytes): bytes {
    if names == [] then acc
    else NamesJoined(names[1..], (if acc == [] then [] else acc + [SEMICOLON]) + names[0])
  }

  /** SignedHeaders of a sorted list. */
  function SignedHeaders(s: seq<Header>): bytes { NamesJoined(RunNames(s), []) }

  lemma {:induction false} NamesJoinedIsJoin(names: seq<bytes>, acc: bytes)
    requires acc != []
    ensures NamesJoined(names, acc) == Join(SEMICOLON, [acc] + names)
  {
    if names == [] {
      assert [acc] + names == [acc];
    } else {
      var acc' := acc + [SEMICOLON] + names[0];
      NamesJoinedIsJoin(names[1..], acc');
      assert ([acc] + names)[1..] == names;
      assert ([acc'] + names[1..])[1..] == names[1..];
      if |names| > 1 {
        assert acc' + [SEMICOLON] + Join(SEMICOLON, names[1..]) == acc + [SEMICOLON] + (names[0] + [SEMICOLON] + Join(SEMICOLON, names[1..]));
      }
    }
  }

  /** The code's list is ";".join(names), except that an empty first name loses its separator. */
  lemma NamesJoinedMatches(names: seq<bytes>)
    requires StrictlySorted(names)
    ensures NamesJoined(names, []) == Join(SEMICOLON, names) <==> !(|names| > 1 && names[0] == [])
  {
    if names == [] {
    } else {
      assert [] + names[0] == names[0];
      assert names == [names[0]] + names[1..];
      if names[0] != [] {
        NamesJoinedIsJoin(names[1..], names[0]);
      } else if |names| > 1 {
        assert names[0] != names[1];
        assert [] + names[1] == names[1];
        NamesJoinedIsJoin(names[2..], names[1]);
        assert names[1..][1..] == names[2..];
        assert [names[1]] + names[2..] == names[1..];
      }
    }
  }

  lemma RunNamesOne(s: seq<Header>)
    requires s != [] && forall k :: 0 <= k < |s| ==> Key(s[k]) == Key(s[0])
    ensures RunNames(s) == [Key(s[0])]
  {
    RunLenIs(s, |s|);
    assert s[|s|..] == [];
  }

  lemma RunNamesFirst(s: seq<Header>, k: nat, i: nat)
    requires 0 < k < i <= |s| && k == RunLen(s[..i])
    ensures RunNames(s[..i]) == [Key(s[0])] + RunNames(s[k..][..i - k])
  {
    SliceOfSlice(s, k, i);
  }

  /** A last header adds its name unless the header before it has the same one. */
  lemma {:induction false} RunNamesSnoc(s: seq<Header>, i: nat)
    requires i < |s|
    ensures RunNames(s[..i + 1]) == RunNames(s[..i]) + (if i > 0 && SameName(s[i], s[i - 1]) then [] else [Key(s[i])])
    decreases i
  {
    var k := RunLen(s[..i + 1]);
    if k == i + 1 {
      OneRun(s, i);
    } else if k < i {
      RunNamesSnoc(s[k..], i - k);
      LaterHeader(s, k, i);
      SnocLater(s, k, i, if SameName(s[i], s[i - 1]) then [] else [Key(s[i])]);
    } else {
      RunNamesFirst(s, k, i + 1);
      NewRun(s, i);
    }
  }

  /** What the last header adds after the first run is added in front of it too. */
  lemma SnocLater(s: seq<Header>, k: nat, i: nat, more: seq<bytes>)
    requires 0 < k < i < |s| && k == RunLen(s[..i + 1])
    requires RunNames(s[k..][..i - k + 1]) == RunNames(s[k..][..i - k]) + more
    ensures RunNames(s[..i + 1]) == RunNames(s[..i]) + more
  {
    SameFirstRun(s, k, i);
    SliceOfSlice(s, k, i);
    SliceOfSlice(s, k, i + 1);
    AfterFirst(s[..i + 1], s[..i], s[k..][..i - k + 1], s[k..][..i - k], more);
  }

  lemma AfterFirst(a: seq<Header>, b: seq<Header>, a': seq<Header>, b': seq<Header>, more: seq<bytes>)
    requires a != [] && b != [] && a[0] == b[0] && a' == a[RunLen(a)..] && b' == b[RunLen(b)..]
    requires RunNames(a') == RunNames(b') + more
    ensures RunNames(a) == RunNames(b) + more
  {
    Regroup([Key(a[0])], RunNames(b'), more);
  }

  lemma SameFirstRun(s: seq<Header>, k: nat, i: nat)
    requires 0 < k <= i < |s| && k == RunLen(s[..i + 1])
    ensures RunLen(s[..i]) == k
  {
    var t := s[..i + 1];
    RunLenBounds(t);
    assert forall l :: 0 <= l < i ==> s[..i][l] == t[l];
    RunLenIs(s[..i], k);
  }

  lemma LaterHeader(s: seq<Header>, k: nat, i: nat)
    requires 0 < k < i < |s|
    ensures s[k..][i - k] == s[i] && s[k..][i - k - 1] == s[i - 1]
  {
  }

  lemma OneRun(s: seq<Header>, i: nat)
    requires i < |s| && RunLen(s[..i + 1]) == i + 1
    ensures RunNames(s[..i + 1]) == RunNames(s[..i]) + (if i > 0 && SameName(s[i], s[i - 1]) then [] else [Key(s[i])])
  {
    RunLenBounds(s[..i + 1]);
    RunNamesOne(s[..i + 1]);
    if i > 0 {
      assert Key(s[..i + 1][i]) == Key(s[..i + 1][i - 1]);
      RunNamesOne(s[..i]);
    }
  }

  lemma NewRun(s: seq<Header>, i: nat)
    requires 0 < i < |s| && RunLen(s[..i + 1]) == i
    requires RunNames(s[..i + 1]) == [Key(s[0])] + RunNames(s[i..][..1])
    ensures RunNames(s[..i + 1]) == RunNames(s[..i]) + (if SameName(s[i], s[i - 1]) then [] else [Key(s[i])])
  {
    var t := s[..i + 1];
    RunLenBounds(t);
    assert forall k :: 0 <= k < i ==> s[..i][k] == t[k];
    RunNamesOne(s[..i]);
    RunNamesOne(s[i..][..1]);
    assert Key(t[i]) != Key(t[0]) && Key(t[i - 1]) == Key(t[0]);
  }

  lemma {:induction false} NamesJoinedSnoc(names: seq<bytes>, n: bytes, acc: bytes)
    ensures NamesJoined(names + [n], acc)
      == (if NamesJoined(names, acc) == [] then [] else NamesJoined(names, acc) + [SEMICOLON]) + n
  {
    if names == [] {
      assert [n][1..] == [];
    } else {
      assert (names + [n])[1..] == names[1..] + [n];
      NamesJoinedSnoc(names[1..], n, (if acc == [] then [] else acc + [SEMICOLON]) + names[0]);
    }
  }

  /** Bytes build_signed_headers() allocates. */
  function SignedHeadersCap(s: seq<Header>): nat {
    if s == [] then 1
    else
      var i := |s| - 1;
      SignedHeadersCap(s[..i]) + (if i > 0 && SameName(s[i], s[i - 1]) then 0 else |s[i].name| + 1)
  }

  /** One turn of either loop of build_signed_headers(). */
  lemma SignedHeadersStep(s: seq<Header>, i: nat)
    requires i < |s|
    ensures var more := !(i > 0 && SameName(s[i], s[i - 1])); var was := SignedHeaders(s[..i]);
      && SignedHeaders(s[..i + 1])
         == (if more then (if was == [] then [] else was + [SEMICOLON]) + Lower(s[i].name) else was)
      && SignedHeadersCap(s[..i + 1]) == SignedHeadersCap(s[..i]) + (if more then |s[i].name| + 1 else 0)
  {
    RunNamesSnoc(s, i);
    NamesJoinedSnoc(RunNames(s[..i]), Key(s[i]), []);
    assert RunNames(s[..i]) + [] == RunNames(s[..i]);
    assert s[..i + 1][..i] == s[..i];
  }

  lemma {:induction false} CapSuffices(s: seq<Header>, i: nat)
    requires i <= |s|
    ensures |SignedHeaders(s[..i])| < SignedHeadersCap(s[..i])
  {
    if i > 0 {
      CapSuffices(s, i - 1);
      SignedHeadersStep(s, i - 1);
    }
  }

  /** build_signed_headers(): the size pass allocates room for the whole list, the write pass fills it. */
  method BuildSignedHeaders(sorted: seq<Header>) returns (joined: array<byte>, ghost len: nat)
    requires sorted != []
    ensures fresh(joined) && len < joined.Length
    ensures joined[..len] == SignedHeaders(sorted) && joined[len] == 0
  {
    var cap := 1;
    assert sorted[..0] == [];
    for i := 0 to |sorted|
      invariant cap == SignedHeadersCap(sorted[..i])
    {
      SignedHeadersStep(sorted, i);
      if i > 0 && SameName(sorted[i], sorted[i - 1]) {
        continue;
      }
      cap := cap + |sorted[i].name| + 1;
    }
    CapSuffices(sorted, |sorted|);
    joined := new byte[cap];
    var o := new Sink.Buffer(joined, 0, cap);
    for i := 0 to |sorted|
      invariant o.Valid() && fresh(o) && o.dst == joined
      invariant o.fed == SignedHeaders(sorted[..i])
    {
      SignedHeadersStep(sorted, i);
      if i > 0 && SameName(sorted[i], sorted[i - 1]) {
        continue;
      }
      PutSignedName(o, sorted[i].name);
    }
    assert sorted[..|sorted|] == sorted;
    len := o.Finish();
  }

  method PutSignedName(o: Sink, name: bytes)
    requires o.Valid() && !o.hashing
    modifies o, o.dst
    ensures o.Valid() && o.fed == (if old(o.fed) == [] then [] else old(o.fed) + [SEMICOLON]) + Lower(name)
  {
    if o.len != 0 {
      o.PutByte(SEMICOLON);
    }
    PutLower(o, name);
  }
}
