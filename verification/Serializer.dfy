/**
 JBinarySerializer: typed containers to tagged bytes and back.

 A Val is what a container means, with maps as maps; an Obj is what the writer iterates over,
 with map entries in some order.  Reading goes into an existing value: vectors are resized and
 their elements read over what they held, maps are added to, and one key and one value variable
 serve all entries of a map.
 */
module Serializer {
  import opened Words

  const LIMIT := 0x1_0000_0000

  datatype Ty = Raw(width: nat) | Str | Vec(elem: Ty) | Map(key: Ty, val: Ty, hashed: bool)

  datatype Val = VRaw(bytes: seq<byte>) | VStr(chars: seq<byte>) | VVec(elems: seq<Val>) | VMap(table: map<Val, Val>)

  datatype Entry = Entry(key: Obj, val: Obj)

  datatype Obj = ORaw(bytes: seq<byte>) | OStr(chars: seq<byte>) | OVec(elems: seq<Obj>) | OMap(entries: seq<Entry>)

  // ----- meaning -----

  function Abs(o: Obj): Val
    decreases o, 0
  {
    match o
    case ORaw(bytes) => VRaw(bytes)
    case OStr(chars) => VStr(chars)
    case OVec(elems) => VVec(seq(|elems|, i requires 0 <= i < |elems| => Abs(elems[i])))
    case OMap(entries) => VMap(AbsEntries(o, |entries|))
  }

  // The first n entries of a map.
  function AbsEntries(o: Obj, n: nat): map<Val, Val>
    requires o.OMap? && n <= |o.entries|
    decreases o, 0, n
  {
    if n == 0 then map[] else AbsEntries(o, n - 1)[Abs(o.entries[n - 1].key) := Abs(o.entries[n - 1].val)]
  }

  // o is an object of type ty, with fewer than 2^32 elements in every container and no key twice in a map.
  ghost predicate Typed(ty: Ty, o: Obj)
    decreases ty
  {
    match ty
    case Raw(width) => o.ORaw? && |o.bytes| == width
    case Str => o.OStr? && |o.chars| < LIMIT
    case Vec(elem) => o.OVec? && |o.elems| < LIMIT && forall i :: 0 <= i < |o.elems| ==> Typed(elem, o.elems[i])
    case Map(key, val, _) =>
      && o.OMap? && |o.entries| < LIMIT
      && (forall i :: 0 <= i < |o.entries| ==> Typed(key, o.entries[i].key) && Typed(val, o.entries[i].val))
      && (forall i, j :: 0 <= i < j < |o.entries| ==> Abs(o.entries[i].key) != Abs(o.entries[j].key))
  }

  ghost predicate TypedEntry(ty: Ty, e: Entry) {
    ty.Map? && Typed(ty.key, e.key) && Typed(ty.val, e.val)
  }

  function Default(ty: Ty): Val {
    match ty
    case Raw(width) => VRaw(seq(width, i => 0 as byte))
    case Str => VStr([])
    case Vec(_) => VVec([])
    case Map(_, _, _) => VMap(map[])
  }

  function Elems(v: Val): seq<Val> {
    if v.VVec? then v.elems else []
  }

  function Table(v: Val): map<Val, Val> {
    if v.VMap? then v.table else map[]
  }

  // Element i of a vector resized to hold it.
  function Slot(elem: Ty, s: seq<Val>, i: nat): Val {
    if i < |s| then s[i] else Default(elem)
  }

  // ----- bytes -----

  datatype Mark = VecBegin | VecEnd | MapBegin | MapEnd | HashBegin | HashEnd | Open | Comma | Close

  function Name(m: Mark): string {
    match m
    case VecBegin => "vector:"
    case VecEnd => "end::vector"
    case MapBegin => "map:"
    case MapEnd => "end::map"
    case HashBegin => "unordered_map:"
    case HashEnd => "end::unordered_map"
    case Open => "["
    case Comma => ","
    case Close => "]"
  }

  // An assertion point is a C string with its terminator.
  function Tag(m: Mark): seq<byte> {
    seq(|Name(m)|, i requires 0 <= i < |Name(m)| => ((Name(m)[i] as int) % 256) as byte) + [0 as byte]
  }

  function Size(n: nat): seq<byte> {
    ToBytes(n, 4)
  }

  function Write(ty: Ty, o: Obj): seq<byte>
    decreases ty, 1, 0
  {
    match ty
    case Raw(_) => if o.ORaw? then o.bytes else []
    case Str => if o.OStr? then Size(|o.chars|) + o.chars else []
    case Vec(_) => if o.OVec? then Tag(VecBegin) + Size(|o.elems|) + WriteElems(ty, o, 0) + Tag(VecEnd) else []
    case Map(_, _, hashed) =>
      if o.OMap?
      then Tag(if hashed then HashBegin else MapBegin) + Size(|o.entries|) + WriteEntries(ty, o, 0)
           + Tag(if hashed then HashEnd else MapEnd)
      else []
  }

  function WriteElems(ty: Ty, o: Obj, i: nat): seq<byte>
    requires ty.Vec? && o.OVec? && i <= |o.elems|
    decreases ty, 0, |o.elems| - i
  {
    if i == |o.elems| then [] else Tag(Open) + Write(ty.elem, o.elems[i]) + Tag(Close) + WriteElems(ty, o, i + 1)
  }

  function WriteEntries(ty: Ty, o: Obj, i: nat): seq<byte>
    requires ty.Map? && o.OMap? && i <= |o.entries|
    decreases ty, 0, |o.entries| - i
  {
    if i == |o.entries| then [] else WritePair(ty, o.entries[i]) + WriteEntries(ty, o, i + 1)
  }

  function WritePair(ty: Ty, e: Entry): seq<byte>
    requires ty.Map?
    decreases ty, 0, 0
  {
    Tag(Open) + Write(ty.key, e.key) + Tag(Comma) + Write(ty.val, e.val) + Tag(Close)
  }

  // ----- the bytes written out -----

  // Four bytes, the lowest first.
  lemma SizeBytes(n: nat)
    requires n < LIMIT
    ensures Size(n) == [(n % 256) as byte, (n / 256 % 256) as byte, (n / 256 / 256 % 256) as byte,
                        (n / 256 / 256 / 256 % 256) as byte]
  {
    var a, b, c := n / 256, n / 256 / 256, n / 256 / 256 / 256;
    assert ToBytes(c / 256, 0) == [];
    assert ToBytes(c, 1) == [(c % 256) as byte];
    assert ToBytes(b, 2) == [(b % 256) as byte, (c % 256) as byte];
    assert ToBytes(a, 3) == [(a % 256) as byte, (b % 256) as byte, (c % 256) as byte];
  }

  lemma Punctuation()
    ensures Tag(Open) == [91, 0] && Tag(Comma) == [44, 0] && Tag(Close) == [93, 0]
  {
  }

  lemma VecTags()
    ensures Tag(VecBegin) == [118, 101, 99, 116, 111, 114, 58, 0]
    ensures Tag(VecEnd) == [101, 110, 100, 58, 58, 118, 101, 99, 116, 111, 114, 0]
  {
  }

  lemma MapTags()
    ensures Tag(MapBegin) == [109, 97, 112, 58, 0] && Tag(MapEnd) == [101, 110, 100, 58, 58, 109, 97, 112, 0]
  {
  }

  lemma HashTags()
    ensures Tag(HashBegin) == [117, 110, 111, 114, 100, 101, 114, 101, 100, 95, 109, 97, 112, 58, 0]
    ensures Tag(HashEnd) ==
              [101, 110, 100, 58, 58, 117, 110, 111, 114, 100, 101, 114, 101, 100, 95, 109, 97, 112, 0]
  {
  }

  lemma VecFrame()
    ensures Tag(VecBegin) + Size(1) + Tag(Open) == [118, 101, 99, 116, 111, 114, 58, 0, 1, 0, 0, 0, 91, 0]
    ensures Tag(Close) + Tag(VecEnd) == [93, 0, 101, 110, 100, 58, 58, 118, 101, 99, 116, 111, 114, 0]
  {
    SizeBytes(1);
    Punctuation();
    VecTags();
  }

  lemma MapFrame()
    ensures Tag(MapBegin) + Size(1) + Tag(Open) == [109, 97, 112, 58, 0, 1, 0, 0, 0, 91, 0]
    ensures Tag(Close) + Tag(MapEnd) == [93, 0, 101, 110, 100, 58, 58, 109, 97, 112, 0]
  {
    SizeBytes(1);
    Punctuation();
    MapTags();
  }

  lemma HashFrame()
    ensures Tag(HashBegin) + Size(1) + Tag(Open)
            == [117, 110, 111, 114, 100, 101, 114, 101, 100, 95, 109, 97, 112, 58, 0, 1, 0, 0, 0, 91, 0]
    ensures Tag(Close) + Tag(HashEnd)
            == [93, 0, 101, 110, 100, 58, 58, 117, 110, 111, 114, 100, 101, 114, 101, 100, 95, 109, 97, 112, 0]
  {
    SizeBytes(1);
    Punctuation();
    HashTags();
  }

  lemma Around(a: seq<byte>, n: seq<byte>, open: seq<byte>, w: seq<byte>, close: seq<byte>, z: seq<byte>)
    ensures a + n + (open + w + close + []) + z == (a + n + open) + w + (close + z)
  {
    assert open + w + close + [] == open + w + close;
  }

  // A vector of one element: "vector:", its length, the element in brackets, "end::vector".
  lemma VectorBytes(elem: Ty, e: Obj)
    ensures Write(Vec(elem), OVec([e])) ==
              [118, 101, 99, 116, 111, 114, 58, 0, 1, 0, 0, 0, 91, 0] + Write(elem, e)
              + [93, 0, 101, 110, 100, 58, 58, 118, 101, 99, 116, 111, 114, 0]
  {
    var ty, o, w := Vec(elem), OVec([e]), Write(elem, e);
    VecFrame();
    assert WriteElems(ty, o, 1) == [] && WriteElems(ty, o, 0) == Tag(Open) + w + Tag(Close) + [];
    Around(Tag(VecBegin), Size(1), Tag(Open), w, Tag(Close), Tag(VecEnd));
  }

  lemma OneEntry(ty: Ty, e: Entry)
    requires ty.Map?
    ensures WriteEntries(ty, OMap([e]), 0)
            == Tag(Open) + (Write(ty.key, e.key) + Tag(Comma) + Write(ty.val, e.val)) + Tag(Close) + []
  {
    var k, v := Write(ty.key, e.key), Write(ty.val, e.val);
    assert WriteEntries(ty, OMap([e]), 1) == [];
    assert WritePair(ty, e) == Tag(Open) + (k + Tag(Comma) + v) + Tag(Close);
  }

  // A map of one entry: "map:" or "unordered_map:", its length, key and value in brackets with a comma between,
  // and the mark at the end.
  lemma MapBytes(key: Ty, val: Ty, hashed: bool, e: Entry)
    ensures Write(Map(key, val, hashed), OMap([e])) ==
              (if hashed
               then [117, 110, 111, 114, 100, 101, 114, 101, 100, 95, 109, 97, 112, 58, 0, 1, 0, 0, 0, 91, 0]
               else [109, 97, 112, 58, 0, 1, 0, 0, 0, 91, 0])
              + (Write(key, e.key) + [44, 0] + Write(val, e.val))
              + (if hashed
                 then [93, 0, 101, 110, 100, 58, 58, 117, 110, 111, 114, 100, 101, 114, 101, 100, 95, 109, 97, 112, 0]
                 else [93, 0, 101, 110, 100, 58, 58, 109, 97, 112, 0])
  {
    var ty, o, begin, end :=
      Map(key, val, hashed), OMap([e]), if hashed then HashBegin else MapBegin, if hashed then HashEnd else MapEnd;
    var w := Write(key, e.key) + Tag(Comma) + Write(val, e.val);
    if hashed { HashFrame(); } else { MapFrame(); }
    Punctuation();
    OneEntry(ty, e);
    Around(Tag(begin), Size(1), Tag(Open), w, Tag(Close), Tag(end));
  }

  // ----- reading -----

  // Fail stands for an assertion that ends the program: a short read or a wrong mark.
  datatype Parse<T> = Done(value: T, rest: seq<byte>) | Fail

  function Take(n: nat, b: seq<byte>): Parse<seq<byte>> {
    if n <= |b| then Done(b[..n], b[n..]) else Fail
  }

  // Steps over an assertion point.
  function Expect(m: Mark, b: seq<byte>): Parse<()> {
    var t := Take(|Tag(m)|, b);
    if t.Done? && t.value == Tag(m) then Done((), t.rest) else Fail
  }

  function ReadSize(b: seq<byte>): Parse<nat> {
    var t := Take(4, b);
    if t.Done? then Done(FromBytes(t.value), t.rest) else Fail
  }

  function Read(ty: Ty, start: Val, b: seq<byte>): Parse<Val>
    decreases ty, 1, 0
  {
    match ty
    case Raw(width) => var t := Take(width, b); if t.Done? then Done(VRaw(t.value), t.rest) else Fail
    case Str =>
      var n := ReadSize(b);
      if n.Fail? then Fail else
      var t := Take(n.value, n.rest);
      if t.Fail? then Fail else Done(VStr(t.value), t.rest)
    case Vec(_) =>
      var t := Expect(VecBegin, b);
      if t.Fail? then Fail else
      var n := ReadSize(t.rest);
      if n.Fail? then Fail else
      var es := ReadElems(ty, Elems(start), 0, n.value, n.rest);
      if es.Fail? then Fail else
      var u := Expect(VecEnd, es.rest);
      if u.Fail? then Fail else Done(VVec(es.value), u.rest)
    case Map(key, val, hashed) =>
      var t := Expect(if hashed then HashBegin else MapBegin, b);
      if t.Fail? then Fail else
      var n := ReadSize(t.rest);
      if n.Fail? then Fail else
      var es := ReadEntries(ty, Table(start), Default(key), Default(val), n.value, n.rest);
      if es.Fail? then Fail else
      var u := Expect(if hashed then HashEnd else MapEnd, es.rest);
      if u.Fail? then Fail else Done(VMap(es.value), u.rest)
  }

  // Elements i to n - 1, each read over what stood there.
  function ReadElems(ty: Ty, was: seq<Val>, i: nat, n: nat, b: seq<byte>): Parse<seq<Val>>
    requires ty.Vec?
    decreases ty, 0, n - i
  {
    if i >= n then Done([], b)
    else
      var o := Expect(Open, b);
      if o.Fail? then Fail else
      var e := Read(ty.elem, Slot(ty.elem, was, i), o.rest);
      if e.Fail? then Fail else
      var c := Expect(Close, e.rest);
      if c.Fail? then Fail else
      var more := ReadElems(ty, was, i + 1, n, c.rest);
      if more.Fail? then Fail else Done([e.value] + more.value, more.rest)
  }

  datatype Pair = Pair(key: Val, val: Val)

  function ReadPair(ty: Ty, key: Val, val: Val, b: seq<byte>): Parse<Pair>
    requires ty.Map?
    decreases ty, 0, 0
  {
    var o := Expect(Open, b);
    if o.Fail? then Fail else
    var k := Read(ty.key, key, o.rest);
    if k.Fail? then Fail else
    var c := Expect(Comma, k.rest);
    if c.Fail? then Fail else
    var v := Read(ty.val, val, c.rest);
    if v.Fail? then Fail else
    var e := Expect(Close, v.rest);
    if e.Fail? then Fail else Done(Pair(k.value, v.value), e.rest)
  }

  // n more entries into the table; key and val still hold the last ones read.
  function ReadEntries(ty: Ty, table: map<Val, Val>, key: Val, val: Val, n: nat, b: seq<byte>): Parse<map<Val, Val>>
    requires ty.Map?
    decreases ty, 0, n
  {
    if n == 0 then Done(table, b)
    else
      var p := ReadPair(ty, key, val, b);
      if p.Fail? then Fail else
      ReadEntries(ty, table[p.value.key := p.value.val], p.value.key, p.value.val, n - 1, p.rest)
  }

  // ----- what reading back amounts to -----

  function Merge(ty: Ty, start: Val, o: Obj): Val
    decreases ty, 1, 0
  {
    match ty
    case Raw(_) => Abs(o)
    case Str => Abs(o)
    case Vec(elem) =>
      if o.OVec? then VVec(seq(|o.elems|,
          i requires 0 <= i < |o.elems| => Merge(elem, Slot(elem, Elems(start), i), o.elems[i])))
      else start
    case Map(key, val, _) =>
      if o.OMap? then VMap(MergeEntries(ty, Table(start), Default(key), Default(val), o, 0)) else start
  }

  function MergeEntries(ty: Ty, table: map<Val, Val>, key: Val, val: Val, o: Obj, i: nat): map<Val, Val>
    requires ty.Map? && o.OMap? && i <= |o.entries|
    decreases ty, 0, |o.entries| - i
  {
    if i == |o.entries| then table
    else
      var k := Merge(ty.key, key, o.entries[i].key);
      var v := Merge(ty.val, val, o.entries[i].val);
      MergeEntries(ty, table[k := v], k, v, o, i + 1)
  }

  lemma Regroup(a: seq<byte>, b: seq<byte>, c: seq<byte>)
    ensures a + b + c == a + (b + c)
  {
  }

  lemma Regroup4(a: seq<byte>, b: seq<byte>, c: seq<byte>, d: seq<byte>, e: seq<byte>)
    ensures a + b + c + d + e == a + (b + (c + (d + e)))
  {
  }

  lemma Regroup5(a: seq<byte>, b: seq<byte>, c: seq<byte>, d: seq<byte>, e: seq<byte>, f: seq<byte>)
    ensures a + b + c + d + e + f == a + (b + (c + (d + (e + f))))
  {
    Regroup4(a, b, c, d, e + f);
    Regroup(a + b + c + d, e, f);
  }

  lemma ExpectMark(m: Mark, rest: seq<byte>)
    ensures Expect(m, Tag(m) + rest) == Done((), rest)
  {
  }

  lemma SizeBack(n: nat, rest: seq<byte>)
    requires n < LIMIT
    ensures ReadSize(Size(n) + rest) == Done(n, rest)
  {
    Widths();
    WordRoundTrip(n, 4);
    assert (Size(n) + rest)[..4] == Size(n);
  }

  lemma TakeBack(a: seq<byte>, rest: seq<byte>)
    ensures Take(|a|, a + rest) == Done(a, rest)
  {
  }

  // Reading what was written gives exactly the merge, and leaves exactly what followed.
  lemma {:induction false} ReadsBack(ty: Ty, start: Val, o: Obj, rest: seq<byte>)
    requires Typed(ty, o)
    ensures Read(ty, start, Write(ty, o) + rest) == Done(Merge(ty, start, o), rest)
    decreases ty, 3, 0
  {
    match ty
    case Raw(_) => TakeBack(o.bytes, rest);
    case Str =>
      SizeBack(|o.chars|, o.chars + rest);
      TakeBack(o.chars, rest);
      Regroup(Size(|o.chars|), o.chars, rest);
    case Vec(_) => VecBack(ty, start, o, rest);
    case Map(_, _, _) =>
      TypedEntries(ty, o);
      MapBack(ty, start, o, rest);
  }

  lemma {:induction false} VecBack(ty: Ty, start: Val, o: Obj, rest: seq<byte>)
    requires ty.Vec? && Typed(ty, o)
    ensures Read(ty, start, Write(ty, o) + rest) == Done(Merge(ty, start, o), rest)
    decreases ty, 0, |o.elems| + 1
  {
    var after := Tag(VecEnd) + rest;
    ExpectMark(VecBegin, Size(|o.elems|) + (WriteElems(ty, o, 0) + after));
    SizeBack(|o.elems|, WriteElems(ty, o, 0) + after);
    ElemsBack(ty, start, o, 0, after);
    ExpectMark(VecEnd, rest);
    Regroup4(Tag(VecBegin), Size(|o.elems|), WriteElems(ty, o, 0), Tag(VecEnd), rest);
    assert Merge(ty, start, o).elems[0..] == Merge(ty, start, o).elems;
  }

  lemma MergedAt(ty: Ty, start: Val, o: Obj, i: nat)
    requires ty.Vec? && o.OVec? && i < |o.elems|
    ensures Merge(ty, start, o).VVec? && |Merge(ty, start, o).elems| == |o.elems|
    ensures Merge(ty, start, o).elems[i] == Merge(ty.elem, Slot(ty.elem, Elems(start), i), o.elems[i])
    ensures Merge(ty, start, o).elems[i..] == [Merge(ty, start, o).elems[i]] + Merge(ty, start, o).elems[i + 1..]
  {
  }

  lemma WriteElemStep(ty: Ty, o: Obj, i: nat, rest: seq<byte>)
    requires ty.Vec? && o.OVec? && i < |o.elems|
    ensures WriteElems(ty, o, i) + rest
            == Tag(Open) + (Write(ty.elem, o.elems[i]) + (Tag(Close) + (WriteElems(ty, o, i + 1) + rest)))
  {
    Regroup4(Tag(Open), Write(ty.elem, o.elems[i]), Tag(Close), WriteElems(ty, o, i + 1), rest);
  }

  // One turn of the reading loop.
  lemma ElemStep(ty: Ty, was: seq<Val>, i: nat, n: nat, b: seq<byte>, e: Val, more: seq<Val>, b1: seq<byte>,
      b2: seq<byte>, b3: seq<byte>, rest: seq<byte>)
    requires ty.Vec? && i < n && Expect(Open, b) == Done((), b1)
        && Read(ty.elem, Slot(ty.elem, was, i), b1) == Done(e, b2)
    requires Expect(Close, b2) == Done((), b3) && ReadElems(ty, was, i + 1, n, b3) == Done(more, rest)
    ensures ReadElems(ty, was, i, n, b) == Done([e] + more, rest)
  {
  }

  lemma {:induction false} ElemsBack(ty: Ty, start: Val, o: Obj, i: nat, rest: seq<byte>)
    requires ty.Vec? && o.OVec? && i <= |o.elems| && (forall e :: e in o.elems ==> Typed(ty.elem, e))
    ensures Merge(ty, start, o).VVec? && |Merge(ty, start, o).elems| == |o.elems|
    ensures ReadElems(ty, Elems(start), i, |o.elems|, WriteElems(ty, o, i) + rest)
        == Done(Merge(ty, start, o).elems[i..], rest)
    decreases ty, 0, |o.elems| - i
  {
    var merged := Merge(ty, start, o).elems;
    if i == |o.elems| {
      assert WriteElems(ty, o, i) + rest == rest && merged[i..] == [];
    } else {
      var r3 := WriteElems(ty, o, i + 1) + rest;
      var r2 := Tag(Close) + r3;
      var r1 := Write(ty.elem, o.elems[i]) + r2;
      WriteElemStep(ty, o, i, rest);
      ExpectMark(Open, r1);
      ReadsBack(ty.elem, Slot(ty.elem, Elems(start), i), o.elems[i], r2);
      ExpectMark(Close, r3);
      ElemsBack(ty, start, o, i + 1, rest);
      MergedAt(ty, start, o, i);
      ElemStep(ty, Elems(start), i, |o.elems|, Tag(Open) + r1, merged[i], merged[i + 1..], r1, r2, r3, rest);
    }
  }

  // A map read mark by mark.
  lemma MapParts(ty: Ty, start: Val, b: seq<byte>, b1: seq<byte>, n: nat, b2: seq<byte>, table: map<Val, Val>,
      b3: seq<byte>, rest: seq<byte>)
    requires ty.Map? && Expect(if ty.hashed then HashBegin else MapBegin, b) == Done((), b1)
        && ReadSize(b1) == Done(n, b2)
    requires ReadEntries(ty, Table(start), Default(ty.key), Default(ty.val), n, b2) == Done(table, b3)
    requires Expect(if ty.hashed then HashEnd else MapEnd, b3) == Done((), rest)
    ensures Read(ty, start, b) == Done(VMap(table), rest)
  {
  }

  lemma WriteMapParts(ty: Ty, o: Obj, rest: seq<byte>)
    requires ty.Map? && o.OMap?
    ensures Write(ty, o) + rest ==
            Tag(if ty.hashed then HashBegin else MapBegin)
            + (Size(|o.entries|) + (WriteEntries(ty, o, 0) + (Tag(if ty.hashed then HashEnd else MapEnd) + rest)))
  {
    Regroup4(Tag(if ty.hashed then HashBegin else MapBegin), Size(|o.entries|), WriteEntries(ty, o, 0),
             Tag(if ty.hashed then HashEnd else MapEnd), rest);
  }

  lemma TypedEntries(ty: Ty, o: Obj)
    requires ty.Map? && Typed(ty, o)
    ensures o.OMap? && |o.entries| < LIMIT && forall e :: e in o.entries ==> TypedEntry(ty, e)
  {
  }

  lemma {:induction false} MapBack(ty: Ty, start: Val, o: Obj, rest: seq<byte>)
    requires ty.Map? && o.OMap? && |o.entries| < LIMIT && forall e :: e in o.entries ==> TypedEntry(ty, e)
    ensures Read(ty, start, Write(ty, o) + rest) == Done(Merge(ty, start, o), rest)
    decreases ty, 2, 0
  {
    var begin, end := if ty.hashed then HashBegin else MapBegin, if ty.hashed then HashEnd else MapEnd;
    var n := |o.entries|;
    var b3 := Tag(end) + rest;
    var b2 := WriteEntries(ty, o, 0) + b3;
    var b1 := Size(n) + b2;
    var table := MergeEntries(ty, Table(start), Default(ty.key), Default(ty.val), o, 0);
    EntriesBack(ty, Table(start), Default(ty.key), Default(ty.val), o, 0, b2, b3);
    ExpectMark(begin, b1);
    SizeBack(n, b2);
    ExpectMark(end, rest);
    MapParts(ty, start, Tag(begin) + b1, b1, n, b2, table, b3, rest);
    WriteMapParts(ty, o, rest);
  }

  // One turn of the reading loop.
  lemma EntryStep(ty: Ty, table: map<Val, Val>, key: Val, val: Val, n: nat, b: seq<byte>, p: Pair, rest: seq<byte>)
    requires ty.Map? && n > 0 && ReadPair(ty, key, val, b) == Done(p, rest)
    ensures ReadEntries(ty, table, key, val, n, b) == ReadEntries(ty, table[p.key := p.val], p.key, p.val, n - 1, rest)
  {
  }

  lemma WriteStep(ty: Ty, o: Obj, i: nat, rest: seq<byte>)
    requires ty.Map? && o.OMap? && i < |o.entries|
    ensures WriteEntries(ty, o, i) + rest == WritePair(ty, o.entries[i]) + (WriteEntries(ty, o, i + 1) + rest)
  {
    Regroup(WritePair(ty, o.entries[i]), WriteEntries(ty, o, i + 1), rest);
  }

  lemma MergeStep(ty: Ty, table: map<Val, Val>, key: Val, val: Val, o: Obj, i: nat)
    requires ty.Map? && o.OMap? && i < |o.entries|
    ensures var k, v := Merge(ty.key, key, o.entries[i].key), Merge(ty.val, val, o.entries[i].val);
            MergeEntries(ty, table, key, val, o, i) == MergeEntries(ty, table[k := v], k, v, o, i + 1)
  {
  }

  lemma NoMoreEntries(ty: Ty, table: map<Val, Val>, key: Val, val: Val, o: Obj, rest: seq<byte>)
    requires ty.Map? && o.OMap?
    ensures WriteEntries(ty, o, |o.entries|) + rest == rest
    ensures ReadEntries(ty, table, key, val, 0, rest) == Done(MergeEntries(ty, table, key, val, o, |o.entries|), rest)
  {
    assert [] + rest == rest;
  }

  lemma {:induction false} EntriesBack(ty: Ty, table: map<Val, Val>, key: Val, val: Val, o: Obj, i: nat,
      b: seq<byte>, rest: seq<byte>)
    requires ty.Map? && o.OMap? && i <= |o.entries| && b == WriteEntries(ty, o, i) + rest
    requires forall e :: e in o.entries ==> TypedEntry(ty, e)
    ensures ReadEntries(ty, table, key, val, |o.entries| - i, b) == Done(MergeEntries(ty, table, key, val, o, i), rest)
    decreases ty, 1, |o.entries| - i
  {
    if i == |o.entries| {
      NoMoreEntries(ty, table, key, val, o, rest);
    } else {
      var p, more := EntryBack(ty, key, val, o, i, b, rest);
      EntriesBack(ty, table[p.key := p.val], p.key, p.val, o, i + 1, more, rest);
      EntriesStep(ty, table, key, val, o, i, b, p, more, rest);
    }
  }

  lemma EntriesStep(ty: Ty, table: map<Val, Val>, key: Val, val: Val, o: Obj, i: nat, b: seq<byte>, p: Pair,
      more: seq<byte>, rest: seq<byte>)
    requires ty.Map? && o.OMap? && i < |o.entries| && ReadPair(ty, key, val, b) == Done(p, more)
    requires p == Pair(Merge(ty.key, key, o.entries[i].key), Merge(ty.val, val, o.entries[i].val))
    requires ReadEntries(ty, table[p.key := p.val], p.key, p.val, |o.entries| - (i + 1), more)
             == Done(MergeEntries(ty, table[p.key := p.val], p.key, p.val, o, i + 1), rest)
    ensures ReadEntries(ty, table, key, val, |o.entries| - i, b) == Done(MergeEntries(ty, table, key, val, o, i), rest)
  {
    EntryStep(ty, table, key, val, |o.entries| - i, b, p, more);
    MergeStep(ty, table, key, val, o, i);
  }

  // The entry at i, and what follows it.
  lemma {:induction false} EntryBack(ty: Ty, key: Val, val: Val, o: Obj, i: nat, b: seq<byte>, rest: seq<byte>)
    returns (p: Pair, more: seq<byte>)
    requires ty.Map? && o.OMap? && i < |o.entries| && b == WriteEntries(ty, o, i) + rest && TypedEntry(ty, o.entries[i])
    ensures p == Pair(Merge(ty.key, key, o.entries[i].key), Merge(ty.val, val, o.entries[i].val))
    ensures ReadPair(ty, key, val, b) == Done(p, more) && more == WriteEntries(ty, o, i + 1) + rest
    decreases ty, 0, 1
  {
    more := WriteEntries(ty, o, i + 1) + rest;
    p := Pair(Merge(ty.key, key, o.entries[i].key), Merge(ty.val, val, o.entries[i].val));
    WriteStep(ty, o, i, rest);
    PairBack(ty, key, val, o.entries[i], more);
  }

  lemma {:induction false} PairBack(ty: Ty, key: Val, val: Val, e: Entry, rest: seq<byte>)
    requires TypedEntry(ty, e)
    ensures ReadPair(ty, key, val, WritePair(ty, e) + rest)
            == Done(Pair(Merge(ty.key, key, e.key), Merge(ty.val, val, e.val)), rest)
    decreases ty, 0, 0
  {
    var r4 := Tag(Close) + rest;
    var r3 := Write(ty.val, e.val) + r4;
    var r2 := Tag(Comma) + r3;
    var r1 := Write(ty.key, e.key) + r2;
    Regroup5(Tag(Open), Write(ty.key, e.key), Tag(Comma), Write(ty.val, e.val), Tag(Close), rest);
    ExpectMark(Open, r1);
    ReadsBack(ty.key, key, e.key, r2);
    ExpectMark(Comma, r3);
    ReadsBack(ty.val, val, e.val, r4);
    ExpectMark(Close, rest);
  }

  // ----- which types come back -----

  // Reading replaces whatever was there.
  predicate Overwriting(ty: Ty) {
    match ty
    case Raw(_) => true
    case Str => true
    case Vec(elem) => Overwriting(elem)
    case Map(_, _, _) => false
  }

  // No map inside a key or a value of a map.
  predicate Clean(ty: Ty) {
    match ty
    case Raw(_) => true
    case Str => true
    case Vec(elem) => Clean(elem)
    case Map(key, val, _) => Overwriting(key) && Overwriting(val)
  }

  predicate Proper(ty: Ty) {
    match ty
    case Raw(width) => width > 0
    case Str => true
    case Vec(elem) => Proper(elem)
    case Map(key, val, _) => Proper(key) && Proper(val)
  }

  lemma {:induction false} OverwritingReplaces(ty: Ty, start: Val, o: Obj)
    requires Typed(ty, o) && Overwriting(ty)
    ensures Merge(ty, start, o) == Abs(o)
    decreases ty
  {
    if ty.Vec? {
      forall i | 0 <= i < |o.elems|
        ensures Merge(ty.elem, Slot(ty.elem, Elems(start), i), o.elems[i]) == Abs(o.elems[i])
      {
        OverwritingReplaces(ty.elem, Slot(ty.elem, Elems(start), i), o.elems[i]);
      }
      assert Merge(ty, start, o).elems == Abs(o).elems;
    }
  }

  lemma {:induction false} UnionEntries(ty: Ty, m: map<Val, Val>, key: Val, val: Val, o: Obj, i: nat)
    requires ty.Map? && Overwriting(ty.key) && Overwriting(ty.val) && o.OMap? && i <= |o.entries|
    requires forall e :: e in o.entries ==> TypedEntry(ty, e)
    ensures MergeEntries(ty, m + AbsEntries(o, i), key, val, o, i) == m + AbsEntries(o, |o.entries|)
    decreases |o.entries| - i
  {
    if i < |o.entries| {
      var e := o.entries[i];
      assert TypedEntry(ty, e);
      OverwritingReplaces(ty.key, key, e.key);
      OverwritingReplaces(ty.val, val, e.val);
      assert m + AbsEntries(o, i + 1) == (m + AbsEntries(o, i))[Abs(e.key) := Abs(e.val)];
      UnionEntries(ty, m, Abs(e.key), Abs(e.val), o, i + 1);
    }
  }

  // Reading a clean table adds it to what was there, its own entries winning.
  lemma TableUnion(ty: Ty, start: Val, o: Obj)
    requires ty.Map? && Clean(ty) && Typed(ty, o)
    ensures Abs(o).VMap? && Merge(ty, start, o) == VMap(Table(start) + Abs(o).table)
  {
    assert Table(start) + AbsEntries(o, 0) == Table(start);
    UnionEntries(ty, Table(start), Default(ty.key), Default(ty.val), o, 0);
  }

  lemma {:induction false} CleanComesBack(ty: Ty, o: Obj)
    requires Clean(ty) && Typed(ty, o)
    ensures Merge(ty, Default(ty), o) == Abs(o)
    decreases ty
  {
    match ty
    case Vec(elem) =>
      forall i | 0 <= i < |o.elems| ensures Merge(elem, Slot(elem, [], i), o.elems[i]) == Abs(o.elems[i]) {
        CleanComesBack(elem, o.elems[i]);
      }
      assert Merge(ty, Default(ty), o).elems == Abs(o).elems;
    case Map(_, _, _) =>
      TableUnion(ty, Default(ty), o);
      assert map[] + Abs(o).table == Abs(o).table;
    case _ =>
  }

  // ----- why the others do not -----

  function Blank(ty: Ty): Obj {
    match ty
    case Raw(width) => ORaw(seq(width, i => 0 as byte))
    case Str => OStr([])
    case Vec(_) => OVec([])
    case Map(_, _, _) => OMap([])
  }

  // Different from the blank.
  function Other(ty: Ty): Obj {
    match ty
    case Raw(width) => ORaw(seq(width, i => 1 as byte))
    case Str => OStr([0])
    case Vec(elem) => OVec([Blank(elem)])
    case Map(key, val, _) => OMap([Entry(Blank(key), Blank(val))])
  }

  // Two objects that do not replace each other.
  function Left(ty: Ty): Obj {
    match ty
    case Vec(elem) => OVec([Left(elem)])
    case Map(key, val, _) => OMap([Entry(Blank(key), Blank(val))])
    case _ => Blank(ty)
  }

  function Right(ty: Ty): Obj {
    match ty
    case Vec(elem) => OVec([Right(elem)])
    case Map(key, val, _) => OMap([Entry(Other(key), Blank(val))])
    case _ => Blank(ty)
  }

  ghost predicate Plain(ty: Ty, o: Obj) {
    Typed(ty, o) && Merge(ty, Default(ty), o) == Abs(o)
  }

  lemma BlankPlain(ty: Ty)
    ensures Plain(ty, Blank(ty)) && Abs(Blank(ty)) == Default(ty)
  {
    if ty.Vec? {
      assert Abs(Blank(ty)).elems == [] && Merge(ty, Default(ty), Blank(ty)).elems == [];
    }
  }

  // A map of one plain entry is plain.
  lemma OnePlain(ty: Ty, k: Obj, v: Obj)
    requires ty.Map? && Plain(ty.key, k) && Plain(ty.val, v)
    ensures Plain(ty, OMap([Entry(k, v)])) && Abs(OMap([Entry(k, v)])) == VMap(map[Abs(k) := Abs(v)])
  {
    var o := OMap([Entry(k, v)]);
    assert AbsEntries(o, 1) == AbsEntries(o, 0)[Abs(k) := Abs(v)];
    assert MergeEntries(ty, map[Abs(k) := Abs(v)], Abs(k), Abs(v), o, 1) == map[Abs(k) := Abs(v)];
  }

  lemma OneElemPlain(ty: Ty, e: Obj)
    requires ty.Vec? && Plain(ty.elem, e)
    ensures Plain(ty, OVec([e])) && Abs(OVec([e])) == VVec([Abs(e)])
  {
    assert Abs(OVec([e])).elems == [Abs(e)];
    assert Merge(ty, Default(ty), OVec([e])).elems == [Abs(e)];
  }

  lemma FlatOtherPlain(ty: Ty)
    requires ty.Raw? || ty.Str?
    ensures Plain(ty, Other(ty))
    ensures Proper(ty) ==> Abs(Other(ty)) != Default(ty)
  {
    if ty.Raw? && ty.width > 0 {
      assert Abs(Other(ty)).bytes[0] == 1;
    }
  }

  lemma {:induction false} OtherPlain(ty: Ty)
    requires Proper(ty)
    ensures Plain(ty, Other(ty)) && Abs(Other(ty)) != Default(ty)
  {
    if ty.Vec? {
      BlankPlain(ty.elem);
      OneElemPlain(ty, Blank(ty.elem));
    } else if ty.Map? {
      BlankPlain(ty.key);
      BlankPlain(ty.val);
      OnePlain(ty, Blank(ty.key), Blank(ty.val));
      assert Abs(Blank(ty.key)) in Abs(Other(ty)).table;
    } else {
      FlatOtherPlain(ty);
    }
  }

  ghost predicate Clash(ty: Ty, a: Obj, b: Obj) {
    Plain(ty, a) && Plain(ty, b) && Abs(a) != Abs(b) && Merge(ty, Abs(a), b) != Abs(b)
  }

  lemma MapClash(ty: Ty, a: Obj, b: Obj, v: Obj)
    requires ty.Map? && Plain(ty.key, a) && Plain(ty.key, b) && Plain(ty.val, v) && Abs(a) != Abs(b)
    ensures Clash(ty, OMap([Entry(a, v)]), OMap([Entry(b, v)]))
  {
    OnePlain(ty, a, v);
    OnePlain(ty, b, v);
    var o, m := OMap([Entry(b, v)]), map[Abs(a) := Abs(v)];
    assert MergeEntries(ty, m, Default(ty.key), Default(ty.val), o, 0)
        == MergeEntries(ty, m[Abs(b) := Abs(v)], Abs(b), Abs(v), o, 1);
    assert Abs(a) in m[Abs(b) := Abs(v)] && Abs(a) !in Abs(o).table;
  }

  lemma ElemClash(ty: Ty, a: Obj, b: Obj)
    requires ty.Vec? && Clash(ty.elem, a, b)
    ensures Clash(ty, OVec([a]), OVec([b]))
  {
    OneElemPlain(ty, a);
    OneElemPlain(ty, b);
    assert Merge(ty, Abs(OVec([a])), OVec([b])).elems[0] == Merge(ty.elem, Abs(a), b);
    assert Abs(OVec([a])).elems[0] != Abs(OVec([b])).elems[0];
  }

  lemma {:induction false} LeftRight(ty: Ty)
    requires Proper(ty) && !Overwriting(ty)
    ensures Clash(ty, Left(ty), Right(ty)) && Clash(ty, Right(ty), Left(ty))
    decreases ty
  {
    match ty
    case Vec(elem) =>
      LeftRight(elem);
      ElemClash(ty, Left(elem), Right(elem));
      ElemClash(ty, Right(elem), Left(elem));
    case Map(key, val, _) =>
      BlankPlain(key);
      BlankPlain(val);
      OtherPlain(key);
      MapClash(ty, Blank(key), Other(key), Blank(val));
      MapClash(ty, Other(key), Blank(key), Blank(val));
  }

  // Two entries of a map, read one after the other.
  lemma TwoEntries(ty: Ty, k1: Obj, v1: Obj, k2: Obj, v2: Obj)
    requires ty.Map? && Plain(ty.key, k1) && Plain(ty.val, v1) && Typed(ty.key, k2) && Typed(ty.val, v2)
        && Abs(k1) != Abs(k2)
    ensures var o := OMap([Entry(k1, v1), Entry(k2, v2)]);
            && Typed(ty, o)
            && Abs(o) == VMap(map[Abs(k1) := Abs(v1), Abs(k2) := Abs(v2)])
            && Merge(ty, Default(ty), o)
               == VMap(map[Abs(k1) := Abs(v1)][Merge(ty.key, Abs(k1), k2) := Merge(ty.val, Abs(v1), v2)])
  {
    var o := OMap([Entry(k1, v1), Entry(k2, v2)]);
    assert AbsEntries(o, 2) == AbsEntries(o, 1)[Abs(k2) := Abs(v2)]
        && AbsEntries(o, 1) == AbsEntries(o, 0)[Abs(k1) := Abs(v1)];
    var k, v := Merge(ty.key, Abs(k1), k2), Merge(ty.val, Abs(v1), v2);
    var m: map<Val, Val> := map[];
    assert MergeEntries(ty, m, Default(ty.key), Default(ty.val), o, 0)
        == MergeEntries(ty, m[Abs(k1) := Abs(v1)], Abs(k1), Abs(v1), o, 1);
    assert MergeEntries(ty, m[Abs(k1) := Abs(v1)], Abs(k1), Abs(v1), o, 1)
        == MergeEntries(ty, m[Abs(k1) := Abs(v1)][k := v], k, v, o, 2);
  }

  lemma KeyLeaks(ty: Ty, k1: Obj, k2: Obj, v: Obj)
    requires ty.Map? && Clash(ty.key, k1, k2) && Plain(ty.val, v)
    ensures var o := OMap([Entry(k1, v), Entry(k2, v)]); Typed(ty, o) && Merge(ty, Default(ty), o) != Abs(o)
  {
    TwoEntries(ty, k1, v, k2, v);
    var o := OMap([Entry(k1, v), Entry(k2, v)]);
    assert Abs(k2) in Abs(o).table && Abs(k2) !in Merge(ty, Default(ty), o).table;
  }

  lemma ValueLeaks(ty: Ty, k1: Obj, v1: Obj, k2: Obj, v2: Obj)
    requires ty.Map? && Overwriting(ty.key) && Plain(ty.key, k1) && Plain(ty.key, k2) && Abs(k1) != Abs(k2)
        && Clash(ty.val, v1, v2)
    ensures var o := OMap([Entry(k1, v1), Entry(k2, v2)]); Typed(ty, o) && Merge(ty, Default(ty), o) != Abs(o)
  {
    TwoEntries(ty, k1, v1, k2, v2);
    OverwritingReplaces(ty.key, Abs(k1), k2);
    var o := OMap([Entry(k1, v1), Entry(k2, v2)]);
    assert Abs(o).table[Abs(k2)] == Abs(v2) != Merge(ty, Default(ty), o).table[Abs(k2)];
  }

  // Neither of two objects with the same meaning comes back.
  ghost predicate BothFail(ty: Ty, a: Obj, b: Obj) {
    && Typed(ty, a) && Typed(ty, b) && Abs(a) == Abs(b)
    && Merge(ty, Default(ty), a) != Abs(a) && Merge(ty, Default(ty), b) != Abs(b)
  }

  lemma KeysLeak(ty: Ty, k1: Obj, k2: Obj, v: Obj)
    requires ty.Map? && Clash(ty.key, k1, k2) && Clash(ty.key, k2, k1) && Plain(ty.val, v)
    ensures BothFail(ty, OMap([Entry(k1, v), Entry(k2, v)]), OMap([Entry(k2, v), Entry(k1, v)]))
  {
    KeyLeaks(ty, k1, k2, v);
    KeyLeaks(ty, k2, k1, v);
    TwoEntries(ty, k1, v, k2, v);
    TwoEntries(ty, k2, v, k1, v);
    assert map[Abs(k1) := Abs(v), Abs(k2) := Abs(v)] == map[Abs(k2) := Abs(v), Abs(k1) := Abs(v)];
  }

  lemma ValuesLeak(ty: Ty, k1: Obj, v1: Obj, k2: Obj, v2: Obj)
    requires ty.Map? && Overwriting(ty.key) && Plain(ty.key, k1) && Plain(ty.key, k2) && Abs(k1) != Abs(k2)
    requires Clash(ty.val, v1, v2) && Clash(ty.val, v2, v1)
    ensures BothFail(ty, OMap([Entry(k1, v1), Entry(k2, v2)]), OMap([Entry(k2, v2), Entry(k1, v1)]))
  {
    ValueLeaks(ty, k1, v1, k2, v2);
    ValueLeaks(ty, k2, v2, k1, v1);
    TwoEntries(ty, k1, v1, k2, v2);
    TwoEntries(ty, k2, v2, k1, v1);
    assert map[Abs(k1) := Abs(v1), Abs(k2) := Abs(v2)] == map[Abs(k2) := Abs(v2), Abs(k1) := Abs(v1)];
  }

  lemma ElemLeaks(ty: Ty, x: Obj, y: Obj)
    requires ty.Vec? && BothFail(ty.elem, x, y)
    ensures BothFail(ty, OVec([x]), OVec([y]))
  {
    var a, b := OVec([x]), OVec([y]);
    assert Merge(ty, Default(ty), a).elems[0] == Merge(ty.elem, Default(ty.elem), x);
    assert Merge(ty, Default(ty), b).elems[0] == Merge(ty.elem, Default(ty.elem), y);
    assert Abs(a).elems == [Abs(x)] && Abs(b).elems == [Abs(y)];
  }

  // A type that is not clean has a two-entry map that fails to come back in either order of its entries.
  lemma {:induction false} UncleanLeaks(ty: Ty) returns (a: Obj, b: Obj)
    requires Proper(ty) && !Clean(ty)
    ensures BothFail(ty, a, b)
    decreases ty
  {
    match ty
    case Vec(elem) =>
      a, b := UncleanLeaks(elem);
      ElemLeaks(ty, a, b);
      a, b := OVec([a]), OVec([b]);
    case Map(key, val, _) =>
      BlankPlain(key);
      BlankPlain(val);
      if !Overwriting(key) {
        LeftRight(key);
        KeysLeak(ty, Left(key), Right(key), Blank(val));
        a := OMap([Entry(Left(key), Blank(val)), Entry(Right(key), Blank(val))]);
        b := OMap([Entry(Right(key), Blank(val)), Entry(Left(key), Blank(val))]);
      } else {
        LeftRight(val);
        OtherPlain(key);
        ValuesLeak(ty, Blank(key), Left(val), Other(key), Right(val));
        a := OMap([Entry(Blank(key), Left(val)), Entry(Other(key), Right(val))]);
        b := OMap([Entry(Other(key), Right(val)), Entry(Blank(key), Left(val))]);
      }
  }

  ghost predicate RoundTrips(ty: Ty, o: Obj) {
    forall rest :: Read(ty, Default(ty), Write(ty, o) + rest) == Done(Abs(o), rest)
  }

  // Every object of a type comes back, byte for byte consumed, exactly when no map sits inside
  // a key or a value of a map.
  lemma CleanExactly(ty: Ty)
    requires Proper(ty)
    ensures Clean(ty) <==> forall o :: Typed(ty, o) ==> RoundTrips(ty, o)
  {
    if Clean(ty) {
      forall o | Typed(ty, o) ensures RoundTrips(ty, o) {
        CleanComesBack(ty, o);
        forall rest ensures Read(ty, Default(ty), Write(ty, o) + rest) == Done(Abs(o), rest) {
          ReadsBack(ty, Default(ty), o, rest);
        }
      }
    } else {
      var a, b := UncleanLeaks(ty);
      ReadsBack(ty, Default(ty), a, []);
      assert !RoundTrips(ty, a);
    }
  }

  // ----- a file of tables -----

  // A table takes up at least its opening mark.
  lemma TableAdvances(ty: Ty, start: Val, b: seq<byte>)
    requires ty.Map? && Read(ty, start, b).Done?
    ensures |Read(ty, start, b).rest| < |b|
  {
    var t := Expect(if ty.hashed then HashBegin else MapBegin, b);
    var n := ReadSize(t.rest);
    EntriesAdvance(ty, Table(start), Default(ty.key), Default(ty.val), n.value, n.rest);
  }

  lemma {:induction false} Advances(ty: Ty, start: Val, b: seq<byte>)
    requires Read(ty, start, b).Done?
    ensures |Read(ty, start, b).rest| <= |b|
    decreases ty, 1, 0
  {
    match ty
    case Vec(_) =>
      var n := ReadSize(Expect(VecBegin, b).rest);
      ElemsAdvance(ty, Elems(start), 0, n.value, n.rest);
    case Map(key, val, hashed) =>
      var n := ReadSize(Expect(if hashed then HashBegin else MapBegin, b).rest);
      EntriesAdvance(ty, Table(start), Default(key), Default(val), n.value, n.rest);
    case _ =>
  }

  lemma {:induction false} ElemsAdvance(ty: Ty, was: seq<Val>, i: nat, n: nat, b: seq<byte>)
    requires ty.Vec? && ReadElems(ty, was, i, n, b).Done?
    ensures |ReadElems(ty, was, i, n, b).rest| <= |b|
    decreases ty, 0, n - i
  {
    if i < n {
      var o := Expect(Open, b);
      Advances(ty.elem, Slot(ty.elem, was, i), o.rest);
      var e := Read(ty.elem, Slot(ty.elem, was, i), o.rest);
      ElemsAdvance(ty, was, i + 1, n, Expect(Close, e.rest).rest);
    }
  }

  lemma {:induction false} EntriesAdvance(ty: Ty, table: map<Val, Val>, key: Val, val: Val, n: nat, b: seq<byte>)
    requires ty.Map? && ReadEntries(ty, table, key, val, n, b).Done?
    ensures |ReadEntries(ty, table, key, val, n, b).rest| <= |b|
    decreases ty, 0, n
  {
    if n > 0 {
      PairAdvances(ty, key, val, b);
      var p := ReadPair(ty, key, val, b);
      EntriesAdvance(ty, table[p.value.key := p.value.val], p.value.key, p.value.val, n - 1, p.rest);
    }
  }

  lemma {:induction false} PairAdvances(ty: Ty, key: Val, val: Val, b: seq<byte>)
    requires ty.Map? && ReadPair(ty, key, val, b).Done?
    ensures |ReadPair(ty, key, val, b).rest| <= |b|
    decreases ty, 0, 0
  {
    var o := Expect(Open, b);
    Advances(ty.key, key, o.rest);
    var k := Read(ty.key, key, o.rest);
    Advances(ty.val, val, Expect(Comma, k.rest).rest);
  }

  // readMapsFromFile: tables until the end of the file, all into one.
  function ReadToEof(ty: Ty, start: Val, b: seq<byte>): Parse<Val>
    requires ty.Map?
    decreases |b|
  {
    if b == [] then Done(start, [])
    else
      var r := Read(ty, start, b);
      if r.Fail? then Fail else
      TableAdvances(ty, start, b);
      ReadToEof(ty, r.value, r.rest)
  }

  function WriteAll(ty: Ty, os: seq<Obj>): seq<byte>
    decreases os
  {
    if os == [] then [] else Write(ty, os[0]) + WriteAll(ty, os[1..])
  }

  function UnionAll(m: map<Val, Val>, os: seq<Obj>): map<Val, Val>
    decreases os
  {
    if os == [] then m else UnionAll(m + Table(Abs(os[0])), os[1..])
  }

  lemma WriteNonempty(ty: Ty, o: Obj)
    requires ty.Map? && o.OMap?
    ensures Write(ty, o) != []
  {
  }

  // Reading appended tables to the end of the file adds them up in order.
  lemma {:induction false} TablesAddUp(ty: Ty, start: Val, os: seq<Obj>)
    requires ty.Map? && Clean(ty) && start.VMap? && forall i :: 0 <= i < |os| ==> Typed(ty, os[i])
    ensures ReadToEof(ty, start, WriteAll(ty, os)) == Done(VMap(UnionAll(start.table, os)), [])
    decreases os
  {
    if os != [] {
      WriteNonempty(ty, os[0]);
      ReadsBack(ty, start, os[0], WriteAll(ty, os[1..]));
      TableUnion(ty, start, os[0]);
      TablesAddUp(ty, Merge(ty, start, os[0]), os[1..]);
    }
  }

  // In the sum, what no table has stays as it was.
  lemma {:induction false} UntouchedStays(m: map<Val, Val>, os: seq<Obj>, key: Val)
    requires forall i :: 0 <= i < |os| ==> key !in Table(Abs(os[i]))
    ensures key in UnionAll(m, os) <==> key in m
    ensures key in m ==> UnionAll(m, os)[key] == m[key]
    decreases os
  {
    if os != [] {
      UntouchedStays(m + Table(Abs(os[0])), os[1..], key);
    }
  }

  // Otherwise the last table that has a key decides.
  lemma {:induction false} LastWriterWins(m: map<Val, Val>, os: seq<Obj>, j: nat, key: Val)
    requires j < |os| && key in Table(Abs(os[j])) && forall i :: j < i < |os| ==> key !in Table(Abs(os[i]))
    ensures key in UnionAll(m, os) && UnionAll(m, os)[key] == Table(Abs(os[j]))[key]
    decreases os
  {
    var m' := m + Table(Abs(os[0]));
    if j == 0 {
      UntouchedStays(m', os[1..], key);
    } else {
      LastWriterWins(m', os[1..], j - 1, key);
    }
  }
}
