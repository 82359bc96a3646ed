/** Little-endian machine words as byte sequences. */
module Words {

  newtype byte = x: int | 0 <= x < 256

  function Pow256(n: nat): (r: nat)
    ensures r > 0
  {
    if n == 0 then 1 else 256 * Pow256(n - 1)
  }

  // The n low bytes of v, least significant first.
  function ToBytes(v: nat, n: nat): (s: seq<byte>)
    ensures |s| == n
  {
    if n == 0 then [] else [(v % 256) as byte] + ToBytes(v / 256, n - 1)
  }

  function FromBytes(s: seq<byte>): nat {
    if s == [] then 0 else s[0] as nat + 256 * FromBytes(s[1..])
  }

  lemma {:induction false} WordRoundTrip(v: nat, n: nat)
    requires v < Pow256(n)
    ensures FromBytes(ToBytes(v, n)) == v
  {
    if n > 0 {
      WordRoundTrip(v / 256, n - 1);
      assert ToBytes(v, n)[1..] == ToBytes(v / 256, n - 1);
    }
  }

  lemma {:induction false} BytesRoundTrip(s: seq<byte>)
    ensures ToBytes(FromBytes(s), |s|) == s && FromBytes(s) < Pow256(|s|)
  {
    if s != [] {
      BytesRoundTrip(s[1..]);
      var v := FromBytes(s);
      assert v % 256 == s[0] as nat && v / 256 == FromBytes(s[1..]);
    }
  }

  // Byte i of v.
  function Digit(v: nat, i: nat): byte {
    if i == 0 then (v % 256) as byte else Digit(v / 256, i - 1)
  }

  lemma {:induction false} DigitsAreBytes(v: nat, s: seq<byte>)
    requires forall i :: 0 <= i < |s| ==> s[i] == Digit(v, i)
    ensures s == ToBytes(v, |s|)
  {
    if s != [] {
      forall i | 0 <= i < |s| - 1 ensures s[1..][i] == Digit(v / 256, i) {
        assert s[i + 1] == Digit(v, i + 1);
      }
      DigitsAreBytes(v / 256, s[1..]);
      assert s[0] == Digit(v, 0);
    }
  }

  lemma Widths()
    ensures Pow256(4) == 0x1_0000_0000 && Pow256(8) == 0x1_0000_0000_0000_0000
  {
    assert Pow256(0) == 1 && Pow256(1) == 256 && Pow256(2) == 0x1_0000 && Pow256(3) == 0x100_0000;
    assert Pow256(4) == 0x1_0000_0000 && Pow256(5) == 0x100_0000_0000 && Pow256(6) == 0x1_0000_0000_0000;
    assert Pow256(7) == 0x100_0000_0000_0000;
  }
}
