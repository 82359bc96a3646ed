/**
 What base64 text means: the alphabets of sections 4 and 5 of RFC 4648 written out, and the
 encoding as one number, in digits of eight bits on one side and of six on the other.
 */
module Base64Number {
  import opened Words
  import opened Wrappers
  import opened Base64

  // ----- the alphabets -----

  const UPPER := "ABCDEFGHIJKLMNOPQRSTUVWXYZ"
  const LOWER := "abcdefghijklmnopqrstuvwxyz"
  const DECIMAL := "0123456789"

  function Table(url: bool): (t: string)
    ensures |t| == 64
  {
    UPPER + LOWER + DECIMAL + (if url then "-_" else "+/")
  }

  lemma SymbolIsTable(url: bool, i: nat)
    requires i < 64
    ensures Symbol(url, i) == Table(url)[i]
  {
    if i < 26 {
      assert Table(url)[i] == UPPER[i];
    } else if i < 52 {
      assert Table(url)[i] == LOWER[i - 26];
    } else if i < 62 {
      assert Table(url)[i] == DECIMAL[i - 52];
    }
  }

  // Either alphabet is accepted, and each character has the place it has there.
  lemma PosIsPlace(c: char, i: nat)
    ensures PosOfChar(c) == Some(i) <==> i < 64 && (c == Table(false)[i] || c == Table(true)[i])
  {
    if i < 64 {
      SymbolIsTable(false, i);
      SymbolIsTable(true, i);
      PosOfSymbol(false, i);
      PosOfSymbol(true, i);
      if PosOfChar(c) == Some(i) { SamePlace(c, i); }
    }
  }

  lemma SamePlace(c: char, i: nat)
    requires PosOfChar(c) == Some(i)
    ensures c == Symbol(false, i) || c == Symbol(true, i)
  {
  }

  // ----- numbers -----

  // The number with these digits, the most significant first.
  function Number(digits: seq<nat>, radix: nat): nat {
    if digits == [] then 0 else radix * Number(digits[..|digits| - 1], radix) + digits[|digits| - 1]
  }

  function Octets(b: seq<byte>): (d: seq<nat>)
    ensures |d| == |b|
  {
    seq(|b|, i requires 0 <= i < |b| => b[i] as nat)
  }

  lemma NumberTwo(d: seq<nat>, x: nat, y: nat, radix: nat)
    ensures Number(d + [x, y], radix) == radix * (radix * Number(d, radix) + x) + y
  {
    assert d + [x, y] == d + [x] + [y];
    NumberMore(d, x, radix);
    NumberMore(d + [x], y, radix);
  }

  lemma NumberMore(d: seq<nat>, x: nat, radix: nat)
    ensures Number(d + [x], radix) == radix * Number(d, radix) + x
  {
    assert (d + [x])[..|d|] == d;
  }

  // ----- the text -----

  // The text is the characters at these places of the alphabet, padded to a multiple of four.
  ghost predicate Spelled(url: bool, places: seq<nat>, s: string) {
    && |s| % 4 == 0 && |places| <= |s| < |places| + 3
    && (forall i :: 0 <= i < |places| ==> places[i] < 64 && s[i] == Symbol(url, places[i]))
    && (forall i :: |places| <= i < |s| ==> s[i] == if url then '.' else '=')
  }

  // With the zero bits that fill the last place of n bytes: four, two or none.
  function Filled(v: nat, n: nat): nat {
    if n % 3 == 1 then v * 16 else if n % 3 == 2 then v * 4 else v
  }

  ghost predicate Encodes(b: seq<byte>, places: seq<nat>) {
    |places| == (4 * |b| + 2) / 3 && Number(places, 64) == Filled(Number(Octets(b), 256), |b|)
  }

  // Whole groups in front encode by themselves.
  lemma {:induction false} EncodeAppend(a: seq<byte>, b: seq<byte>, url: bool)
    requires |a| % 3 == 0
    ensures Encode(a + b, url) == Encode(a, url) + Encode(b, url)
    decreases |a|
  {
    if a == [] {
      assert a + b == b && [] + Encode(b, url) == Encode(b, url);
    } else {
      assert Head(a + b) == Head(a) && Tail(a + b) == Tail(a) + b;
      EncodeAppend(Tail(a), b, url);
    }
  }

  // The places of one group.
  function GroupPlaces(b: seq<byte>): (p: seq<nat>)
    requires 1 <= |b| <= 3
    ensures |p| == |b| + 1
  {
    var x := b[0] as nat;
    if |b| == 1 then [x / 4, x % 4 * 16]
    else
      var y := b[1] as nat;
      if |b| == 2 then [x / 4, x % 4 * 16 + y / 16, y % 16 * 4]
      else
        var z := b[2] as nat;
        [x / 4, x % 4 * 16 + y / 16, y % 16 * 4 + z / 64, z % 64]
  }

  lemma GroupSpelled(b: seq<byte>, url: bool)
    requires 1 <= |b| <= 3
    ensures Spelled(url, GroupPlaces(b), Group(b, url))
  {
  }

  lemma SpelledAppend(url: bool, p: seq<nat>, s: string, q: seq<nat>, t: string)
    requires Spelled(url, p, s) && |p| == |s| && Spelled(url, q, t)
    ensures Spelled(url, p + q, s + t)
  {
  }

  // One group behind whole ones, as a number.
  lemma GroupNumber(front: seq<nat>, places: seq<nat>, b: seq<byte>)
    requires Number(places, 64) == Number(front, 256) && 1 <= |b| <= 3
    ensures Number(places + GroupPlaces(b), 64) == Filled(Number(front + Octets(b), 256), |b|)
  {
    var x, n := b[0] as nat, Number(front, 256);
    if |b| == 1 {
      NumberTwo(places, x / 4, x % 4 * 16, 64);
      NumberMore(front, x, 256);
      assert Octets(b) == [x];
    } else {
      var y := b[1] as nat;
      NumberTwo(places, x / 4, x % 4 * 16 + y / 16, 64);
      NumberTwo(front, x, y, 256);
      var two := places + [x / 4, x % 4 * 16 + y / 16];
      if |b| == 2 {
        NumberMore(two, y % 16 * 4, 64);
        assert places + GroupPlaces(b) == two + [y % 16 * 4];
        assert Octets(b) == [x, y];
      } else {
        var z := b[2] as nat;
        NumberTwo(two, y % 16 * 4 + z / 64, z % 64, 64);
        NumberMore(front + [x, y], z, 256);
        assert places + GroupPlaces(b) == two + [y % 16 * 4 + z / 64, z % 64];
        assert front + Octets(b) == front + [x, y] + [z];
      }
    }
  }

  lemma PlaceCount(a: nat, b: nat)
    requires a % 3 == 0 && 1 <= b <= 3
    ensures (4 * (a + b) + 2) / 3 == (4 * a + 2) / 3 + b + 1 && (a + b) % 3 == b % 3
    ensures (4 * a + 2) / 3 == (a + 2) / 3 * 4
  {
    var k := a / 3;
    assert a == 3 * k;
  }

  lemma LastSpelled(front: seq<byte>, last: seq<byte>, url: bool, p: seq<nat>)
    requires |front| % 3 == 0 && 1 <= |last| <= 3 && Spelled(url, p, Encode(front, url))
    requires |p| == |Encode(front, url)|
    ensures Spelled(url, p + GroupPlaces(last), Encode(front + last, url))
  {
    EncodeAppend(front, last, url);
    LoneGroup(last, url);
    GroupSpelled(last, url);
    SpelledAppend(url, p, Encode(front, url), GroupPlaces(last), Group(last, url));
  }

  lemma LastEncodes(front: seq<byte>, last: seq<byte>, p: seq<nat>)
    requires |front| % 3 == 0 && 1 <= |last| <= 3 && Encodes(front, p)
    ensures Encodes(front + last, p + GroupPlaces(last))
  {
    PlaceCount(|front|, |last|);
    GroupNumber(Octets(front), p, last);
    assert Octets(front) + Octets(last) == Octets(front + last);
  }

  lemma LoneGroup(b: seq<byte>, url: bool)
    requires 1 <= |b| <= 3
    ensures Encode(b, url) == Group(b, url)
  {
    assert Head(b) == b && Tail(b) == [];
    assert Encode([], url) == [];
  }

  // The encoding of any bytes is the same number, written in the alphabet and padded.
  lemma {:induction false} EncodesTheNumber(b: seq<byte>, url: bool) returns (places: seq<nat>)
    ensures Spelled(url, places, Encode(b, url)) && Encodes(b, places)
    decreases |b|
  {
    if b == [] {
      places := [];
    } else {
      var n := LastStart(|b|);
      var p := EncodesTheNumber(b[..n], url);
      OneMoreGroup(b[..n], b[n..], url, p);
      assert b[..n] + b[n..] == b;
      places := p + GroupPlaces(b[n..]);
    }
  }

  // Where the last group of n bytes starts.
  function LastStart(n: nat): (m: nat)
    requires n > 0
    ensures m % 3 == 0 && 1 <= n - m <= 3
  {
    (n - 1) / 3 * 3
  }

  lemma OneMoreGroup(front: seq<byte>, last: seq<byte>, url: bool, p: seq<nat>)
    requires |front| % 3 == 0 && 1 <= |last| <= 3 && Spelled(url, p, Encode(front, url)) && Encodes(front, p)
    ensures Spelled(url, p + GroupPlaces(last), Encode(front + last, url))
    ensures Encodes(front + last, p + GroupPlaces(last))
  {
    EncodedLength(front, url);
    PlaceCount(|front|, |last|);
    LastSpelled(front, last, url, p);
    LastEncodes(front, last, p);
  }

  // ----- and back -----

  // Characters of either alphabet, and their places in it.
  ghost predicate Placed(s: string, p: seq<nat>) {
    |p| == |s| && forall i :: 0 <= i < |s| ==> PosOfChar(s[i]) == Some(p[i])
  }

  // Without the bits by which n places reach beyond the last byte.
  function Whole(v: nat, n: nat): nat {
    if n % 4 == 2 then v / 16 else if n % 4 == 3 then v / 4 else v
  }

  function Both(a: Option<seq<byte>>, b: Option<seq<byte>>): Option<seq<byte>> {
    if a.None? || b.None? then None else Some(a.value + b.value)
  }

  // A chunk is decided by its first four characters.
  lemma ChunkFront(a: string, b: string)
    requires |a| >= 4
    ensures Chunk(a + b) == Chunk(a)
  {
    assert (a + b)[0] == a[0] && (a + b)[1] == a[1] && (a + b)[2] == a[2] && (a + b)[3] == a[3];
  }

  lemma BothAssociates(a: Option<seq<byte>>, b: Option<seq<byte>>, c: Option<seq<byte>>)
    ensures Both(Both(a, b), c) == Both(a, Both(b, c))
  {
    if a.Some? && b.Some? && c.Some? { assert a.value + b.value + c.value == a.value + (b.value + c.value); }
  }

  lemma DecodeBoth(s: string)
    requires s != []
    ensures Decode(s) == Both(Chunk(s), Decode(Next(s)))
  {
  }

  lemma {:induction false} DecodeAppend(a: string, b: string)
    requires |a| % 4 == 0
    ensures Decode(a + b) == Both(Decode(a), Decode(b))
    decreases |a|
  {
    if a == [] {
      assert a + b == b;
      JoinedEnds([], Decode(b));
    } else {
      ChunkFront(a, b);
      assert Next(a + b) == Next(a) + b;
      DecodeAppend(Next(a), b);
      DecodeBoth(a + b);
      DecodeBoth(a);
      BothAssociates(Chunk(a), Decode(Next(a)), Decode(b));
    }
  }

  lemma LoneChunk(s: string)
    requires 1 <= |s| <= 4
    ensures Decode(s) == Chunk(s)
  {
    assert Next(s) == [] && Decode([]) == Some([]);
    if Chunk(s).Some? { assert Chunk(s).value + [] == Chunk(s).value; }
  }

  // The bytes of one chunk without padding.
  function ChunkBytes(p: seq<nat>): (b: seq<nat>)
    requires 2 <= |p| <= 4
    ensures |b| == |p| - 1
  {
    if |p| == 2 then [p[0] * 4 + p[1] / 16]
    else if |p| == 3 then [p[0] * 4 + p[1] / 16, p[1] % 16 * 16 + p[2] / 4]
    else [p[0] * 4 + p[1] / 16, p[1] % 16 * 16 + p[2] / 4, p[2] % 4 * 64 + p[3]]
  }

  lemma ChunkIs(s: string, p: seq<nat>)
    requires 2 <= |s| <= 4 && Placed(s, p)
    ensures Chunk(s).Some? && Octets(Chunk(s).value) == ChunkBytes(p)
  {
    assert PosOfChar(s[0]) == Some(p[0]) && PosOfChar(s[1]) == Some(p[1]) && At(s, 1) == s[1];
    if |s| > 2 { assert PosOfChar(s[2]) == Some(p[2]); }
    if |s| > 3 { assert PosOfChar(s[3]) == Some(p[3]); }
  }

  lemma LoneCharacter(s: string)
    requires |s| == 1
    ensures Chunk(s).None?
  {
  }

  lemma TwoPlaces(v: nat, a: nat, b: nat)
    requires b < 64
    ensures (64 * (64 * v + a) + b) / 16 == 256 * v + (a * 4 + b / 16)
  {
    var q := 256 * v + (a * 4 + b / 16);
    assert 64 * (64 * v + a) + b == 16 * q + b % 16;
  }

  lemma ThreePlaces(v: nat, a: nat, b: nat, c: nat)
    requires b < 64 && c < 64
    ensures (64 * (64 * (64 * v + a) + b) + c) / 4 == 256 * (256 * v + (a * 4 + b / 16)) + (b % 16 * 16 + c / 4)
  {
    var q := 256 * (256 * v + (a * 4 + b / 16)) + (b % 16 * 16 + c / 4);
    assert 64 * (64 * (64 * v + a) + b) + c == 4 * q + c % 4;
  }

  lemma FourPlaces(v: nat, a: nat, b: nat, c: nat, d: nat)
    requires b < 64 && c < 64 && d < 64
    ensures 64 * (64 * (64 * (64 * v + a) + b) + c) + d
            == 256 * (256 * (256 * v + (a * 4 + b / 16)) + (b % 16 * 16 + c / 4)) + (c % 4 * 64 + d)
  {
  }

  lemma NumberThree(d: seq<nat>, x: nat, y: nat, z: nat, radix: nat)
    ensures Number(d + [x, y, z], radix) == radix * (radix * (radix * Number(d, radix) + x) + y) + z
  {
    assert d + [x, y, z] == d + [x, y] + [z];
    NumberTwo(d, x, y, radix);
    NumberMore(d + [x, y], z, radix);
  }

  // One chunk behind whole ones, as a number.
  lemma ChunkNumber(front: seq<nat>, places: seq<nat>, p: seq<nat>)
    requires Number(places, 64) == Number(front, 256) && 2 <= |p| <= 4 && forall i :: 0 <= i < |p| ==> p[i] < 64
    ensures Number(front + ChunkBytes(p), 256) == Whole(Number(places + p, 64), |p|)
  {
    var b := ChunkBytes(p);
    if |p| == 2 {
      TwoMore(front, places, p, b);
    } else if |p| == 3 {
      ThreeMore(front, places, p, b);
    } else {
      FourMore(front, places, p, b);
    }
  }

  lemma TwoMore(front: seq<nat>, places: seq<nat>, p: seq<nat>, b: seq<nat>)
    requires Number(places, 64) == Number(front, 256) && |p| == 2 && |b| == 1 && p[1] < 64
    requires b[0] == p[0] * 4 + p[1] / 16
    ensures Number(front + b, 256) == Number(places + p, 64) / 16
  {
    assert b == [b[0]] && p == [p[0], p[1]];
    NumberMore(front, b[0], 256);
    NumberTwo(places, p[0], p[1], 64);
    TwoPlaces(Number(front, 256), p[0], p[1]);
  }

  lemma ThreeMore(front: seq<nat>, places: seq<nat>, p: seq<nat>, b: seq<nat>)
    requires Number(places, 64) == Number(front, 256) && |p| == 3 && |b| == 2 && p[1] < 64 && p[2] < 64
    requires b[0] == p[0] * 4 + p[1] / 16 && b[1] == p[1] % 16 * 16 + p[2] / 4
    ensures Number(front + b, 256) == Number(places + p, 64) / 4
  {
    assert b == [b[0], b[1]] && p == [p[0], p[1], p[2]];
    NumberTwo(front, b[0], b[1], 256);
    NumberThree(places, p[0], p[1], p[2], 64);
    ThreePlaces(Number(front, 256), p[0], p[1], p[2]);
  }

  lemma FourMore(front: seq<nat>, places: seq<nat>, p: seq<nat>, b: seq<nat>)
    requires Number(places, 64) == Number(front, 256) && |p| == 4 && |b| == 3 && p[1] < 64 && p[2] < 64 && p[3] < 64
    requires b[0] == p[0] * 4 + p[1] / 16 && b[1] == p[1] % 16 * 16 + p[2] / 4 && b[2] == p[2] % 4 * 64 + p[3]
    ensures Number(front + b, 256) == Number(places + p, 64)
  {
    assert b == [b[0], b[1], b[2]] && places + p == places + [p[0], p[1], p[2]] + [p[3]];
    NumberThree(front, b[0], b[1], b[2], 256);
    NumberThree(places, p[0], p[1], p[2], 64);
    NumberMore(places + [p[0], p[1], p[2]], p[3], 64);
    FourPlaces(Number(front, 256), p[0], p[1], p[2], p[3]);
  }

  // The bytes are the number of the places without the excess.
  ghost predicate Decodes(b: Option<seq<byte>>, p: seq<nat>) {
    b.Some? && |b.value| == |p| * 3 / 4 && Number(Octets(b.value), 256) == Whole(Number(p, 64), |p|)
  }

  lemma JoinDecodes(a: seq<byte>, b: seq<byte>, p: seq<nat>, q: seq<nat>)
    requires |p| % 4 == 0 && Decodes(Some(a), p) && 2 <= |q| <= 4 && (forall i :: 0 <= i < |q| ==> q[i] < 64)
    requires Octets(b) == ChunkBytes(q)
    ensures Decodes(Some(a + b), p + q)
  {
    assert Octets(a + b) == Octets(a) + Octets(b);
    ChunkCount(|p|, |q|);
    ChunkNumber(Octets(a), p, q);
  }

  lemma ChunkCount(m: nat, n: nat)
    requires m % 4 == 0 && 2 <= n <= 4
    ensures (m + n) % 4 == n % 4 && (m + n) * 3 / 4 == m * 3 / 4 + n - 1
  {
    var k := m / 4;
    assert m == 4 * k && m * 3 / 4 == 3 * k;
    assert (m + n) * 3 == 4 * (3 * k + n - 1) + (4 - n);
  }

  lemma LastChunk(front: string, last: string, p: seq<nat>, q: seq<nat>)
    requires |front| % 4 == 0 && |p| == |front| && 2 <= |last| <= 4 && Placed(last, q) && Decodes(Decode(front), p)
    ensures Decodes(Decode(front + last), p + q)
  {
    DecodeAppend(front, last);
    LoneChunk(last);
    ChunkIs(last, q);
    JoinDecodes(Decode(front).value, Chunk(last).value, p, q);
  }

  // Text in either alphabet is read as its number without the excess; a lone last character is refused.
  lemma {:induction false} DecodesTheNumber(s: string, p: seq<nat>)
    requires Placed(s, p)
    ensures if |s| % 4 == 1 then Decode(s).None? else Decodes(Decode(s), p)
    decreases |s|
  {
    if s != [] {
      var n := LastOf(|s|);
      DecodesTheNumber(s[..n], p[..n]);
      assert s[..n] + s[n..] == s && p[..n] + p[n..] == p;
      if |s| - n == 1 {
        LoneRefused(s[..n], s[n..]);
      } else {
        LastChunk(s[..n], s[n..], p[..n], p[n..]);
      }
    }
  }

  // Where the last chunk of n characters starts.
  function LastOf(n: nat): (m: nat)
    requires n > 0
    ensures m % 4 == 0 && 1 <= n - m <= 4 && (n - m == 1 <==> n % 4 == 1)
  {
    (n - 1) / 4 * 4
  }

  lemma LoneRefused(front: string, last: string)
    requires |front| % 4 == 0 && |last| == 1
    ensures Decode(front + last).None?
  {
    LoneCharacter(last);
    LoneChunk(last);
    DecodeAppend(front, last);
  }

  lemma SameTail(front: string, a: string, b: string)
    requires |front| % 4 == 0 && Decode(a) == Decode(b)
    ensures Decode(front + a) == Decode(front + b)
  {
    DecodeAppend(front, a);
    DecodeAppend(front, b);
  }

  // Padding after the last chunk changes nothing.
  lemma PaddingIgnored(front: string, last: string, pads: string)
    requires |front| % 4 == 0 && 2 <= |last| < 4 && |pads| <= 4 - |last|
    requires forall i :: 0 <= i < |pads| ==> pads[i] == '=' || pads[i] == '.'
    ensures Decode(front + (last + pads)) == Decode(front + last)
  {
    PaddedLast(last, pads);
    SameTail(front, last + pads, last);
  }

  lemma PaddedLast(s: string, pads: string)
    requires 2 <= |s| < 4 && |pads| <= 4 - |s| && forall i :: 0 <= i < |pads| ==> IsPadding(pads[i])
    ensures Decode(s + pads) == Decode(s)
  {
    PaddedChunk(s, pads);
    LoneChunk(s);
    LoneChunk(s + pads);
  }

  lemma PaddedChunk(s: string, pads: string)
    requires 2 <= |s| < 4 && |pads| <= 4 - |s| && forall i :: 0 <= i < |pads| ==> IsPadding(pads[i])
    ensures Chunk(s + pads) == Chunk(s)
  {
    var t := s + pads;
    assert t[0] == s[0] && t[1] == s[1] && (|s| > 2 ==> t[2] == s[2]);
    assert |s| == 2 && |t| > 2 ==> t[2] == pads[0];
    assert |s| == 3 && |t| > 3 ==> t[3] == pads[0];
  }
}
