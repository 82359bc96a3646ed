/**
 The base64 codec: the alphabets of sections 4 and 5 of RFC 4648, with '.' for padding in
 the second.
 */
module Base64 {
  import opened Words
  import opened Wrappers

  function Symbol(url: bool, i: nat): (c: char)
    requires i < 64
  {
    if i < 26 then 'A' + (i as char)
    else if i < 52 then 'a' + ((i - 26) as char)
    else if i < 62 then '0' + ((i - 52) as char)
    else if i == 62 then (if url then '-' else '+')
    else (if url then '_' else '/')
  }

  function Padding(url: bool): char {
    if url then '.' else '='
  }

  predicate IsPadding(c: char) {
    c == '=' || c == '.'
  }

  // None stands for the exception on a character outside both alphabets.
  function PosOfChar(c: char): (p: Option<nat>)
    ensures p.Some? ==> p.value < 64
  {
    if 'A' <= c <= 'Z' then Some((c - 'A') as nat)
    else if 'a' <= c <= 'z' then Some((c - 'a') as nat + 26)
    else if '0' <= c <= '9' then Some((c - '0') as nat + 52)
    else if c == '+' || c == '-' then Some(62)
    else if c == '/' || c == '_' then Some(63)
    else None
  }

  // Exactly the symbols of either alphabet have a position, and it is their own.
  lemma PosOfSymbol(url: bool, i: nat)
    requires i < 64
    ensures PosOfChar(Symbol(url, i)) == Some(i) && !IsPadding(Symbol(url, i))
  {
  }

  lemma SymbolOfPos(c: char)
    ensures PosOfChar(c).Some? <==> exists url, i: nat :: i < 64 && Symbol(url, i) == c
  {
    if PosOfChar(c).Some? {
      var i := PosOfChar(c).value;
      assert Symbol(c == '-' || c == '_', i) == c;
    }
  }

  // ----- encoding -----

  // Up to three bytes to four characters.
  function Group(b: seq<byte>, url: bool): (s: string)
    requires 1 <= |b| <= 3
    ensures |s| == 4
  {
    var x := b[0] as nat;
    if |b| == 1 then [Symbol(url, x / 4), Symbol(url, x % 4 * 16), Padding(url), Padding(url)]
    else
      var y := b[1] as nat;
      if |b| == 2 then [Symbol(url, x / 4), Symbol(url, x % 4 * 16 + y / 16), Symbol(url, y % 16 * 4), Padding(url)]
      else
        var z := b[2] as nat;
        [Symbol(url, x / 4), Symbol(url, x % 4 * 16 + y / 16), Symbol(url, y % 16 * 4 + z / 64), Symbol(url, z % 64)]
  }

  function Head(b: seq<byte>): seq<byte> {
    if |b| < 3 then b else b[..3]
  }

  function Tail(b: seq<byte>): seq<byte> {
    if |b| < 3 then [] else b[3..]
  }

  function Encode(b: seq<byte>, url: bool): (s: string)
    decreases |b|
  {
    if b == [] then [] else Group(Head(b), url) + Encode(Tail(b), url)
  }

  lemma {:induction false} EncodedLength(b: seq<byte>, url: bool)
    ensures |Encode(b, url)| == (|b| + 2) / 3 * 4
    decreases |b|
  {
    if b != [] {
      EncodedLength(Tail(b), url);
      assert (|b| + 2) / 3 == 1 + (|Tail(b)| + 2) / 3;
    }
  }

  // ----- decoding -----

  // Reading at the end of a string gives its terminator.
  function At(s: string, i: nat): char {
    if i < |s| then s[i] else 0 as char
  }

  // One chunk of up to four characters, as the loop body sees it at the front of s.
  function Chunk(s: string): Option<seq<byte>>
    requires s != []
  {
    var p0, p1 := PosOfChar(s[0]), PosOfChar(At(s, 1));
    if p1.None? || p0.None? then None
    else
      var first := [(p0.value * 4 + p1.value / 16) as byte];
      if |s| <= 2 || IsPadding(s[2]) then Some(first)
      else
        var p2 := PosOfChar(s[2]);
        if p2.None? then None
        else
          var two := first + [(p1.value % 16 * 16 + p2.value / 4) as byte];
          if |s| <= 3 || IsPadding(s[3]) then Some(two)
          else
            var p3 := PosOfChar(s[3]);
            if p3.None? then None else Some(two + [(p2.value % 4 * 64 + p3.value) as byte])
  }

  function Next(s: string): string {
    if |s| < 4 then [] else s[4..]
  }

  function Decode(s: string): Option<seq<byte>>
    decreases |s|
  {
    if s == [] then Some([])
    else
      var c := Chunk(s);
      if c.None? then None else
      var rest := Decode(Next(s));
      if rest.None? then None else Some(c.value + rest.value)
  }

  // ----- round trips -----

  // Cutting three bytes into four positions and putting them together again.
  lemma Bits(x: nat, y: nat, z: nat)
    requires x < 256 && y < 256 && z < 256
    ensures x / 4 * 4 + (x % 4 * 16 + y / 16) / 16 == x
    ensures (x % 4 * 16 + y / 16) % 16 * 16 + (y % 16 * 4 + z / 64) / 4 == y
    ensures (y % 16 * 4 + z / 64) % 4 * 64 + z % 64 == z
  {
    assert (x % 4 * 16 + y / 16) / 16 == x % 4 && (x % 4 * 16 + y / 16) % 16 == y / 16;
    assert (y % 16 * 4 + z / 64) / 4 == y % 16 && (y % 16 * 4 + z / 64) % 4 == z / 64;
  }

  lemma ChunkOne(s: string, x: nat)
    requires x < 256 && |s| >= 2 && PosOfChar(s[0]) == Some(x / 4) && PosOfChar(s[1]) == Some(x % 4 * 16)
    requires |s| == 2 || IsPadding(s[2])
    ensures Chunk(s) == Some([x as byte])
  {
    Bits(x, 0, 0);
  }

  lemma ChunkTwo(s: string, x: nat, y: nat)
    requires x < 256 && y < 256 && |s| >= 3 && PosOfChar(s[0]) == Some(x / 4)
    requires PosOfChar(s[1]) == Some(x % 4 * 16 + y / 16) && PosOfChar(s[2]) == Some(y % 16 * 4)
    requires !IsPadding(s[2]) && (|s| == 3 || IsPadding(s[3]))
    ensures Chunk(s) == Some([x as byte, y as byte])
  {
    Bits(x, y, 0);
    assert [x as byte, y as byte] == [x as byte] + [y as byte];
  }

  lemma ChunkThree(s: string, x: nat, y: nat, z: nat)
    requires x < 256 && y < 256 && z < 256 && |s| >= 4 && PosOfChar(s[0]) == Some(x / 4)
    requires PosOfChar(s[1]) == Some(x % 4 * 16 + y / 16) && PosOfChar(s[2]) == Some(y % 16 * 4 + z / 64)
    requires PosOfChar(s[3]) == Some(z % 64) && !IsPadding(s[2]) && !IsPadding(s[3])
    ensures Chunk(s) == Some([x as byte, y as byte, z as byte])
  {
    Bits(x, y, z);
    assert [x as byte, y as byte, z as byte] == [x as byte] + [y as byte] + [z as byte];
  }

  // The characters of a group that are not padding, in positions.
  predicate Spells(b: seq<byte>, g: string) {
    && 1 <= |b| <= 3 && |g| == 4
    && var x := b[0] as nat;
       var y, z := if |b| > 1 then b[1] as nat else 0, if |b| > 2 then b[2] as nat else 0;
       && PosOfChar(g[0]) == Some(x / 4) && PosOfChar(g[1]) == Some(x % 4 * 16 + y / 16)
       && (if |b| > 1 then PosOfChar(g[2]) == Some(y % 16 * 4 + z / 64) && !IsPadding(g[2]) else IsPadding(g[2]))
       && (if |b| > 2 then PosOfChar(g[3]) == Some(z % 64) && !IsPadding(g[3]) else IsPadding(g[3]))
  }

  lemma GroupSpells(b: seq<byte>, url: bool)
    requires 1 <= |b| <= 3
    ensures Spells(b, Group(b, url))
  {
    var x := b[0] as nat;
    var y, z := if |b| > 1 then b[1] as nat else 0, if |b| > 2 then b[2] as nat else 0;
    PosOfSymbol(url, x / 4);
    PosOfSymbol(url, x % 4 * 16 + y / 16);
    PosOfSymbol(url, y % 16 * 4 + z / 64);
    PosOfSymbol(url, z % 64);
  }

  lemma SpellsOne(b: seq<byte>, g: string, s: string)
    requires |b| == 1 && Spells(b, g) && |s| >= 2 && s[..2] == g[..2] && (|s| > 2 ==> s[2] == g[2])
    ensures Chunk(s) == Some(b)
  {
    assert s[0] == s[..2][0] == g[0] && s[1] == s[..2][1] == g[1];
    ChunkOne(s, b[0] as nat);
    assert b == [b[0]];
  }

  lemma SpellsTwo(b: seq<byte>, g: string, s: string)
    requires |b| == 2 && Spells(b, g) && |s| >= 3 && s[..3] == g[..3] && (|s| > 3 ==> s[3] == g[3])
    ensures Chunk(s) == Some(b)
  {
    assert s[0] == s[..3][0] == g[0] && s[1] == s[..3][1] == g[1] && s[2] == s[..3][2] == g[2];
    ChunkTwo(s, b[0] as nat, b[1] as nat);
    assert b == [b[0], b[1]];
  }

  lemma SpellsThree(b: seq<byte>, g: string, s: string)
    requires |b| == 3 && Spells(b, g) && |s| >= 4 && s[..4] == g
    ensures Chunk(s) == Some(b)
  {
    assert s[0] == s[..4][0] && s[1] == s[..4][1] && s[2] == s[..4][2] && s[3] == s[..4][3];
    ChunkThree(s, b[0] as nat, b[1] as nat, b[2] as nat);
    assert b == [b[0], b[1], b[2]];
  }

  // A group, whole or without its padding, reads back as its bytes.
  lemma ChunkOfGroup(b: seq<byte>, url: bool, s: string)
    requires 1 <= |b| <= 3 && Group(b, url)[..|b| + 1] <= s && (|s| > |b| + 1 ==> Group(b, url) <= s)
    ensures Chunk(s) == Some(b)
  {
    GroupSpells(b, url);
    if |b| == 1 {
      SpellsOne(b, Group(b, url), s);
    } else if |b| == 2 {
      SpellsTwo(b, Group(b, url), s);
    } else {
      SpellsThree(b, Group(b, url), s);
    }
  }

  lemma {:induction false} DecodeEncode(b: seq<byte>, url: bool)
    ensures Decode(Encode(b, url)) == Some(b)
    decreases |b|
  {
    if b != [] {
      ChunkOfGroup(Head(b), url, Encode(b, url));
      assert Next(Encode(b, url)) == Encode(Tail(b), url);
      DecodeEncode(Tail(b), url);
      assert Head(b) + Tail(b) == b;
    }
  }

  // Without the trailing padding.
  function Strip(s: string): string
    decreases |s|
  {
    if s != [] && IsPadding(s[|s| - 1]) then Strip(s[..|s| - 1]) else s
  }

  lemma {:induction false} StripAfter(a: string, s: string)
    requires Strip(s) != []
    ensures Strip(a + s) == a + Strip(s)
    decreases |s|
  {
    if s != [] && IsPadding(s[|s| - 1]) {
      assert (a + s)[..|a + s| - 1] == a + s[..|s| - 1];
      StripAfter(a, s[..|s| - 1]);
    }
  }

  lemma {:induction false} StripKeepsFirst(s: string)
    requires s != [] && !IsPadding(s[0])
    ensures Strip(s) != [] && Strip(s)[0] == s[0]
    decreases |s|
  {
    if IsPadding(s[|s| - 1]) {
      StripKeepsFirst(s[..|s| - 1]);
    }
  }

  lemma GroupStripped(b: seq<byte>, url: bool)
    requires 1 <= |b| <= 3
    ensures Strip(Group(b, url)) == Group(b, url)[..|b| + 1]
  {
    var s, x := Group(b, url), b[0] as nat;
    assert s[..3][..2] == s[..2];
    if |b| == 1 {
      PosOfSymbol(url, x % 4 * 16);
      assert Strip(s) == Strip(s[..3]) == Strip(s[..2]) == s[..2];
    } else {
      var y := b[1] as nat;
      if |b| == 2 {
        PosOfSymbol(url, y % 16 * 4);
        assert Strip(s) == Strip(s[..3]) == s[..3];
      } else {
        PosOfSymbol(url, b[2] as nat % 64);
        assert Strip(s) == s == s[..4];
      }
    }
  }

  // The same with the padding removed.
  lemma {:induction false} DecodeStripped(b: seq<byte>, url: bool)
    ensures Decode(Strip(Encode(b, url))) == Some(b)
    decreases |b|
  {
    if b != [] {
      var group, rest := Group(Head(b), url), Encode(Tail(b), url);
      assert Head(b) + Tail(b) == b;
      if Tail(b) == [] {
        assert group + rest == group;
        GroupStripped(Head(b), url);
        ChunkOfGroup(Head(b), url, Strip(group));
      } else {
        FirstIsSymbol(Tail(b), url);
        StripKeepsFirst(rest);
        StripAfter(group, rest);
        ChunkOfGroup(Head(b), url, group + Strip(rest));
        assert Next(group + Strip(rest)) == Strip(rest);
        DecodeStripped(Tail(b), url);
      }
    }
  }

  lemma FirstIsSymbol(b: seq<byte>, url: bool)
    requires b != []
    ensures Encode(b, url) != [] && !IsPadding(Encode(b, url)[0])
  {
    PosOfSymbol(url, b[0] as nat / 4);
  }

  // ----- the loops -----

  const LIMIT := 0x1_0000_0000

  // The body of the loop: what it appends at pos.
  method EncodeGroup(b: seq<byte>, pos: nat, url: bool) returns (ret: string)
    requires pos < |b|
    ensures ret == Group(Head(b[pos..]), url)
  {
    var x := b[pos] as nat;
    ret := [Symbol(url, x / 4)];
    if pos + 1 < |b| {
      var y := b[pos + 1] as nat;
      ret := ret + [Symbol(url, x % 4 * 16 + y / 16)];
      if pos + 2 < |b| {
        var z := b[pos + 2] as nat;
        ret := ret + [Symbol(url, y % 16 * 4 + z / 64)];
        ret := ret + [Symbol(url, z % 64)];
      } else {
        ret := ret + [Symbol(url, y % 16 * 4)];
        ret := ret + [Padding(url)];
      }
    } else {
      ret := ret + [Symbol(url, x % 4 * 16)];
      ret := ret + [Padding(url)];
      ret := ret + [Padding(url)];
    }
  }

  // What is still to be encoded from pos on.
  function Left(b: seq<byte>, pos: nat, url: bool): string {
    Encode(From(b, pos), url)
  }

  method AppendGroup(done: string, b: seq<byte>, pos: nat, url: bool) returns (ret: string)
    requires pos < |b|
    ensures ret + Left(b, pos + 3, url) == done + Left(b, pos, url)
  {
    var group := EncodeGroup(b, pos, url);
    EncodeStep(b, pos, url, done);
    ret := done + group;
  }

  // pos is 32 bits wide in the original: below 2^32 bytes it never wraps.
  method EncodeBytes(b: seq<byte>, url: bool) returns (ret: string)
    requires |b| < LIMIT
    ensures ret == Encode(b, url)
  {
    ret := [];
    var pos := 0;
    assert From(b, 0) == b;
    ghost var whole := Left(b, 0, url);
    while pos < |b|
      invariant pos % 3 == 0 && pos < LIMIT
      invariant whole == ret + Left(b, pos, url)
      decreases |b| - pos
    {
      ret := AppendGroup(ret, b, pos, url);
      pos := Advance(pos, |b|);
    }
    assert Left(b, pos, url) == [];
  }

  function From(b: seq<byte>, pos: nat): seq<byte> {
    if pos < |b| then b[pos..] else []
  }

  lemma EncodeStep(b: seq<byte>, pos: nat, url: bool, done: string)
    requires pos < |b|
    ensures done + Left(b, pos, url) == done + Group(Head(b[pos..]), url) + Left(b, pos + 3, url)
  {
    assert Tail(b[pos..]) == From(b, pos + 3);
    Regroup(done, Group(Head(b[pos..]), url), Encode(From(b, pos + 3), url));
  }

  lemma Regroup(a: string, b: string, c: string)
    ensures a + b + c == a + (b + c)
  {
  }

  // pos += 3 in 32 bits; 2^32 - 1 is a multiple of three.
  function Advance(pos: nat, n: nat): (next: nat)
    requires pos % 3 == 0 && pos < n < LIMIT
    ensures next == pos + 3 < LIMIT
  {
    assert LIMIT - 1 == 3 * 1431655765;
    (pos + 3) % LIMIT
  }

  // Where the encoder stands after k turns of its loop, however long the input.
  function Position(k: nat): (pos: nat)
    ensures pos < LIMIT
  {
    if k == 0 then 0 else (Position(k - 1) + 3) % LIMIT
  }

  lemma {:induction false} PositionUp(k: nat)
    requires 3 * k < LIMIT
    ensures Position(k) == 3 * k
  {
    if k > 0 { PositionUp(k - 1); }
  }

  // The loop ends exactly for fewer than 2^32 bytes.
  lemma EncoderEnds(n: nat)
    ensures (exists k: nat :: Position(k) >= n) <==> n < LIMIT
  {
    if n < LIMIT {
      var k := (n + 2) / 3;
      assert LIMIT - 1 == 3 * 1431655765;
      assert n <= 3 * k < LIMIT;
      PositionUp(k);
      assert Position(k) >= n;
    }
  }

  // The body of the loop: the bytes of the chunk at pos.
  method DecodeChunk(s: string, pos: nat) returns (r: Option<seq<byte>>)
    requires pos < |s|
    ensures r == Chunk(s[pos..])
  {
    assert At(s, pos + 1) == At(s[pos..], 1);
    var p1 := PosOfChar(At(s, pos + 1));
    var p0 := PosOfChar(s[pos]);
    if p1.None? || p0.None? { return None; }
    var ret := [(p0.value * 4 + p1.value / 16) as byte];
    if pos + 2 < |s| && !IsPadding(s[pos + 2]) {
      var p2 := PosOfChar(s[pos + 2]);
      if p2.None? { return None; }
      ret := ret + [(p1.value % 16 * 16 + p2.value / 4) as byte];
      if pos + 3 < |s| && !IsPadding(s[pos + 3]) {
        var p3 := PosOfChar(s[pos + 3]);
        if p3.None? { return None; }
        ret := ret + [(p2.value % 4 * 64 + p3.value) as byte];
      }
    }
    return Some(ret);
  }

  lemma DecodeStep(s: string, pos: nat, done: seq<byte>)
    requires pos < |s|
    ensures var c := Chunk(s[pos..]);
            Joined(done, Decode(Rest(s, pos))) == if c.None? then None
                else Joined(done + c.value, Decode(Rest(s, pos + 4)))
  {
    assert Rest(s, pos + 4) == Next(s[pos..]);
    var c := Chunk(s[pos..]);
    if c.Some? { JoinedMore(done, c.value, Decode(Rest(s, pos + 4))); }
  }

  lemma JoinedEnds(done: seq<byte>, more: Option<seq<byte>>)
    ensures Joined([], more) == more && Joined(done, Some([])) == Some(done)
  {
    assert done + [] == done;
    if more.Some? { assert [] + more.value == more.value; }
  }

  method DecodeString(s: string) returns (r: Option<seq<byte>>)
    ensures r == Decode(s)
  {
    var ret := [];
    var pos := 0;
    JoinedEnds([], Decode(s));
    assert Rest(s, 0) == s;
    while pos < |s|
      invariant pos <= |s| + 3
      invariant Decode(s) == Joined(ret, Decode(Rest(s, pos)))
    {
      DecodeStep(s, pos, ret);
      var chunk := DecodeChunk(s, pos);
      if chunk.None? { return None; }
      ret := ret + chunk.value;
      pos := pos + 4;
    }
    JoinedEnds(ret, None);
    r := Some(ret);
  }

  function Rest(s: string, pos: nat): string {
    if pos < |s| then s[pos..] else []
  }

  function Joined(done: seq<byte>, more: Option<seq<byte>>): Option<seq<byte>> {
    if more.None? then None else Some(done + more.value)
  }

  lemma JoinedMore(a: seq<byte>, b: seq<byte>, more: Option<seq<byte>>)
    ensures Joined(a + b, more) == Joined(a, Joined(b, more))
  {
    if more.Some? { assert a + b + more.value == a + (b + more.value); }
  }
}