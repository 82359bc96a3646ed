/**
 The serializer's two streams in place: a writer that appends, and a reader whose cursor
 advances while its loops fill containers.
 */
module SerializerStreams {
  import opened Words
  import opened Serializer

  lemma Appended4(was: seq<byte>, a: seq<byte>, b: seq<byte>, c: seq<byte>, d: seq<byte>)
    ensures was + a + b + c + d == was + (a + b + c + d)
  {
  }

  lemma Appended5(was: seq<byte>, a: seq<byte>, b: seq<byte>, c: seq<byte>, d: seq<byte>, e: seq<byte>)
    ensures was + a + b + c + d + e == was + (a + b + c + d + e)
  {
    Appended4(was, a, b, c, d);
    Regroup(was, a + b + c + d, e);
  }

  class Writer {
    var out: seq<byte>
    var bytes: nat

    ghost predicate Valid()
      reads this
    {
      bytes == |out|
    }

    constructor ()
      ensures Valid() && out == []
    {
      out, bytes := [], 0;
    }

    method Emit(buffer: seq<byte>)
      requires Valid()
      modifies this
      ensures Valid() && out == old(out) + buffer
    {
      out := out + buffer;
      bytes := bytes + |buffer|;
    }

    method Serialize(ty: Ty, o: Obj)
      requires Valid() && Typed(ty, o)
      modifies this
      ensures Valid() && out == old(out) + Write(ty, o)
      decreases ty, 1
    {
      match ty {
        case Raw(_) =>
          Emit(o.bytes);
        case Str =>
          Emit(Size(|o.chars|));
          Emit(o.chars);
          Regroup(old(out), Size(|o.chars|), o.chars);
        case Vec(_) =>
          SerializeVector(ty, o);
        case Map(_, _, _) =>
          SerializeMap(ty, o);
      }
    }

    method SerializeVector(ty: Ty, o: Obj)
      requires Valid() && Typed(ty, o) && ty.Vec?
      modifies this
      ensures Valid() && out == old(out) + Write(ty, o)
      decreases ty, 0, 1
    {
      Emit(Tag(VecBegin));
      Emit(Size(|o.elems|));
      WriterElems(ty, o);
      Emit(Tag(VecEnd));
      Appended4(old(out), Tag(VecBegin), Size(|o.elems|), WriteElems(ty, o, 0), Tag(VecEnd));
    }

    method WriterElems(ty: Ty, o: Obj)
      requires Valid() && Typed(ty, o) && ty.Vec?
      modifies this
      ensures Valid() && out == old(out) + WriteElems(ty, o, 0)
      decreases ty, 0, 0
    {
      var i := 0;
      while i < |o.elems|
        invariant Valid() && i <= |o.elems|
        invariant old(out) + WriteElems(ty, o, 0) == out + WriteElems(ty, o, i)
      {
        ghost var was := out;
        Emit(Tag(Open));
        Serialize(ty.elem, o.elems[i]);
        Emit(Tag(Close));
        Appended4(was, Tag(Open), Write(ty.elem, o.elems[i]), Tag(Close), WriteElems(ty, o, i + 1));
        i := i + 1;
      }
    }

    method SerializeMap(ty: Ty, o: Obj)
      requires Valid() && Typed(ty, o) && ty.Map?
      modifies this
      ensures Valid() && out == old(out) + Write(ty, o)
      decreases ty, 0, 2
    {
      var begin, end := if ty.hashed then HashBegin else MapBegin, if ty.hashed then HashEnd else MapEnd;
      Emit(Tag(begin));
      Emit(Size(|o.entries|));
      WriterEntries(ty, o);
      Emit(Tag(end));
      Appended4(old(out), Tag(begin), Size(|o.entries|), WriteEntries(ty, o, 0), Tag(end));
    }

    method WriterEntries(ty: Ty, o: Obj)
      requires Valid() && ty.Map? && o.OMap? && forall e :: e in o.entries ==> TypedEntry(ty, e)
      modifies this
      ensures Valid() && out == old(out) + WriteEntries(ty, o, 0)
      decreases ty, 0, 1
    {
      var i := 0;
      while i < |o.entries|
        invariant Valid() && i <= |o.entries|
        invariant old(out) + WriteEntries(ty, o, 0) == out + WriteEntries(ty, o, i)
      {
        ghost var was := out;
        SerializePair(ty, o.entries[i]);
        Regroup(was, WritePair(ty, o.entries[i]), WriteEntries(ty, o, i + 1));
        i := i + 1;
      }
    }

    method SerializePair(ty: Ty, e: Entry)
      requires Valid() && TypedEntry(ty, e)
      modifies this
      ensures Valid() && out == old(out) + WritePair(ty, e)
      decreases ty, 0, 0
    {
      Emit(Tag(Open));
      Serialize(ty.key, e.key);
      Emit(Tag(Comma));
      Serialize(ty.val, e.val);
      Emit(Tag(Close));
      Appended5(old(out), Tag(Open), Write(ty.key, e.key), Tag(Comma), Write(ty.val, e.val), Tag(Close));
    }
  }

  // What a loop has read so far, in front of what it has yet to read.
  ghost function Prepend(done: seq<Val>, more: Parse<seq<Val>>): Parse<seq<Val>> {
    if more.Fail? then Fail else Done(done + more.value, more.rest)
  }

  lemma PrependNothing(more: Parse<seq<Val>>)
    ensures Prepend([], more) == more
  {
    if more.Done? { assert [] + more.value == more.value; }
  }

  lemma PrependOne(done: seq<Val>, e: Val, more: Parse<seq<Val>>)
    ensures Prepend(done, Prepend([e], more)) == Prepend(done + [e], more)
  {
    if more.Done? { assert done + ([e] + more.value) == done + [e] + more.value; }
  }

  lemma PrependLast(done: seq<Val>, rest: seq<byte>)
    ensures Prepend(done, Done([], rest)) == Done(done, rest)
  {
    assert done + [] == done;
  }

  class Reader {
    const data: seq<byte>
    var pos: nat

    ghost predicate Valid()
      reads this
    {
      pos <= |data|
    }

    // What is still to be read.
    ghost function Rest(): seq<byte>
      requires Valid()
      reads this
    {
      data[pos..]
    }

    constructor (data: seq<byte>)
      ensures Valid() && Rest() == data
    {
      this.data, pos := data, 0;
    }

    // False stands for the assertion on a short read.
    method Fetch(len: nat) returns (ok: bool, buffer: seq<byte>)
      requires Valid()
      modifies this
      ensures Valid() && ok == Take(len, old(Rest())).Done?
      ensures ok ==> Take(len, old(Rest())) == Done(buffer, Rest())
      ensures !ok ==> pos == old(pos)
    {
      if pos + len <= |data| {
        ok, buffer := true, data[pos..pos + len];
        assert data[pos..][..len] == buffer && data[pos..][len..] == data[pos + len..];
        pos := pos + len;
      } else {
        ok, buffer := false, [];
      }
    }

    // JSERIALIZE_ASSERT_POINT; false stands for the assertion on a wrong mark.
    method AssertPoint(m: Mark) returns (ok: bool)
      requires Valid()
      modifies this
      ensures Valid() && ok == Expect(m, old(Rest())).Done?
      ensures ok ==> Expect(m, old(Rest())) == Done((), Rest())
    {
      var buffer;
      ok, buffer := Fetch(|Tag(m)|);
      ok := ok && buffer == Tag(m);
    }

    method Length() returns (ok: bool, n: nat)
      requires Valid()
      modifies this
      ensures Valid() && ok == ReadSize(old(Rest())).Done?
      ensures ok ==> ReadSize(old(Rest())) == Done(n, Rest())
    {
      var buffer;
      ok, buffer := Fetch(4);
      n := FromBytes(buffer);
    }

    method Deserialize(ty: Ty, start: Val) returns (ok: bool, v: Val)
      requires Valid()
      modifies this
      ensures Valid() && ok == Read(ty, start, old(Rest())).Done?
      ensures ok ==> Read(ty, start, old(Rest())) == Done(v, Rest())
      decreases ty, 1, 0
    {
      v := start;
      match ty {
        case Raw(width) =>
          var buffer;
          ok, buffer := Fetch(width);
          v := VRaw(buffer);
        case Str =>
          var n;
          ok, n := Length();
          if ok {
            var buffer;
            ok, buffer := Fetch(n);
            v := VStr(buffer);
          }
        case Vec(_) =>
          ok, v := DeserializeVector(ty, start);
        case Map(_, _, _) =>
          ok, v := DeserializeMap(ty, start);
      }
    }

    method DeserializeVector(ty: Ty, start: Val) returns (ok: bool, v: Val)
      requires Valid() && ty.Vec?
      modifies this
      ensures Valid() && ok == Read(ty, start, old(Rest())).Done?
      ensures ok ==> Read(ty, start, old(Rest())) == Done(v, Rest())
      decreases ty, 0, 3
    {
      v := start;
      ok := AssertPoint(VecBegin);
      if !ok { return; }
      var n;
      ok, n := Length();
      if !ok { return; }
      var elems;
      ok, elems := FillVector(ty, Elems(start), n);
      if !ok { return; }
      ok := AssertPoint(VecEnd);
      v := VVec(elems);
    }

    // resize, then read every element over what it holds.
    method FillVector(ty: Ty, was: seq<Val>, n: nat) returns (ok: bool, elems: seq<Val>)
      requires Valid() && ty.Vec?
      modifies this
      ensures Valid() && ok == ReadElems(ty, was, 0, n, old(Rest())).Done?
      ensures ok ==> ReadElems(ty, was, 0, n, old(Rest())) == Done(elems, Rest())
      decreases ty, 0, 2
    {
      elems := seq(n, j requires 0 <= j < n => Slot(ty.elem, was, j));
      var i := 0;
      PrependNothing(ReadElems(ty, was, 0, n, Rest()));
      while i < n
        invariant Valid() && i <= n == |elems|
        invariant forall j :: i <= j < n ==> elems[j] == Slot(ty.elem, was, j)
        invariant ReadElems(ty, was, 0, n, old(Rest())) == Prepend(elems[..i], ReadElems(ty, was, i, n, Rest()))
      {
        var e;
        ok, e := ReadElement(ty, was, i, n, elems[i]);
        if !ok { return; }
        ghost var done := elems[..i];
        elems := elems[i := e];
        i := i + 1;
        assert elems[..i] == done + [e];
        PrependOne(done, e, ReadElems(ty, was, i, n, Rest()));
      }
      ok := true;
      assert elems[..n] == elems;
      PrependLast(elems, Rest());
    }

    method ReadElement(ty: Ty, ghost was: seq<Val>, ghost i: nat, ghost n: nat, slot: Val) returns (ok: bool, e: Val)
      requires Valid() && ty.Vec? && i < n && slot == Slot(ty.elem, was, i)
      modifies this
      ensures Valid() && (!ok ==> ReadElems(ty, was, i, n, old(Rest())).Fail?)
      ensures ok ==> ReadElems(ty, was, i, n, old(Rest())) == Prepend([e], ReadElems(ty, was, i + 1, n, Rest()))
      decreases ty, 0, 1
    {
      e := slot;
      ok := AssertPoint(Open);
      if !ok { return; }
      ok, e := Deserialize(ty.elem, slot);
      if !ok { return; }
      ok := AssertPoint(Close);
    }

    method DeserializeMap(ty: Ty, start: Val) returns (ok: bool, v: Val)
      requires Valid() && ty.Map?
      modifies this
      ensures Valid() && ok == Read(ty, start, old(Rest())).Done?
      ensures ok ==> Read(ty, start, old(Rest())) == Done(v, Rest())
      decreases ty, 0, 3
    {
      v := start;
      ok := AssertPoint(if ty.hashed then HashBegin else MapBegin);
      if !ok { return; }
      var n;
      ok, n := Length();
      if !ok { return; }
      var table;
      ok, table := FillMap(ty, Table(start), n);
      if !ok { return; }
      ok := AssertPoint(if ty.hashed then HashEnd else MapEnd);
      v := VMap(table);
    }

    // One key and one value variable serve all entries.
    method FillMap(ty: Ty, was: map<Val, Val>, n: nat) returns (ok: bool, table: map<Val, Val>)
      requires Valid() && ty.Map?
      modifies this
      ensures Valid()
      ensures var r := ReadEntries(ty, was, Default(ty.key), Default(ty.val), n, old(Rest()));
              ok == r.Done? && (ok ==> r == Done(table, Rest()))
      decreases ty, 0, 2
    {
      table := was;
      var key, val := Default(ty.key), Default(ty.val);
      var i := 0;
      while i < n
        invariant Valid() && i <= n
        invariant ReadEntries(ty, was, Default(ty.key), Default(ty.val), n, old(Rest()))
                  == ReadEntries(ty, table, key, val, n - i, Rest())
      {
        ok, key, val := DeserializePair(ty, key, val);
        if !ok { return; }
        table := table[key := val];
        i := i + 1;
      }
      ok := true;
    }

    method DeserializePair(ty: Ty, key: Val, val: Val) returns (ok: bool, k: Val, v: Val)
      requires Valid() && ty.Map?
      modifies this
      ensures Valid() && ok == ReadPair(ty, key, val, old(Rest())).Done?
      ensures ok ==> ReadPair(ty, key, val, old(Rest())) == Done(Pair(k, v), Rest())
      decreases ty, 0, 1
    {
      k, v := key, val;
      ok := AssertPoint(Open);
      if !ok { return; }
      ok, k := Deserialize(ty.key, key);
      if !ok { return; }
      ok := AssertPoint(Comma);
      if !ok { return; }
      ok, v := Deserialize(ty.val, val);
      if !ok { return; }
      ok := AssertPoint(Close);
    }

    // readMapsFromFile: all the tables of the file into one.
    method ReadMaps(ty: Ty, start: Val) returns (ok: bool, v: Val)
      requires Valid() && ty.Map?
      modifies this
      ensures Valid() && ok == ReadToEof(ty, start, old(Rest())).Done?
      ensures ok ==> ReadToEof(ty, start, old(Rest())) == Done(v, []) && Rest() == []
    {
      v, ok := start, true;
      while pos < |data|
        invariant Valid() && ok
        invariant ReadToEof(ty, start, old(Rest())) == ReadToEof(ty, v, Rest())
        decreases |data| - pos
      {
        ghost var b, was := Rest(), v;
        ok, v := Deserialize(ty, v);
        if !ok { return; }
        TableAdvances(ty, was, b);
      }
    }
  }
}
