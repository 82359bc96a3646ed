/**
 What a key holds after any number of atomic updates, said of the operands alone: their sum, least
 or greatest, or, bit by bit, whether all, some or an odd number of them have the bit.
 */
module KvMeaning {
  import opened Wrappers
  import opened KvMerge

  // ----- least and greatest -----

  ghost predicate Least(vals: seq<int>, v: int) {
    v in vals && forall i :: 0 <= i < |vals| ==> v <= vals[i]
  }

  ghost predicate Greatest(vals: seq<int>, v: int) {
    v in vals && forall i :: 0 <= i < |vals| ==> v >= vals[i]
  }

  lemma {:induction false} FoldIsExtreme(vals: seq<int>)
    requires vals != []
    ensures Least(vals, Fold(Min, vals)) && Greatest(vals, Fold(Max, vals))
    decreases |vals|
  {
    var n := |vals| - 1;
    if n > 0 {
      FoldIsExtreme(vals[..n]);
      assert forall i :: 0 <= i < n ==> vals[..n][i] == vals[i];
    }
  }

  // ----- bits -----

  // Bit k of v in two's complement.
  function BitAt(v: int, k: nat): (b: int)
    ensures 0 <= b <= 1
  {
    PowerPositive(k);
    v / Pow2(k) % 2
  }

  lemma {:induction false} PowerPositive(k: nat)
    ensures Pow2(k) > 0
  {
    if k > 0 { PowerPositive(k - 1); }
  }

  lemma NoMultiple(p: int, d: int)
    requires p > 0 && -p < p * d < p
    ensures d == 0
  {
    assert d >= 1 ==> p * d >= p;
    assert d <= -1 ==> p * d <= -p;
  }

  lemma QuotientIs(x: int, p: int, q: int, r: int)
    requires p > 0 && 0 <= r < p && x == p * q + r
    ensures x / p == q
  {
    var d := x / p - q;
    assert x == p * (x / p) + x % p;
    assert p * d == p * (x / p) - p * q;
    NoMultiple(p, d);
  }

  lemma HalfThenRest(v: int, p: int)
    requires p > 0
    ensures v / (2 * p) == v / 2 / p
  {
    var q := v / 2 / p;
    var r := v / 2 % p;
    assert v / 2 == p * q + r;
    QuotientIs(v, 2 * p, q, 2 * r + v % 2);
  }

  lemma BitAbove(v: int, k: nat)
    ensures BitAt(v, k + 1) == BitAt(v / 2, k) && BitAt(v, 0) == v % 2
  {
    PowerPositive(k);
    HalfThenRest(v, Pow2(k));
    assert Pow2(0) == 1;
  }

  predicate HasBit(v: int, k: nat) {
    BitAt(v, k) == 1
  }

  lemma {:induction false} CombineBits(op: Op, a: int, b: int, k: nat)
    requires Bitwise(op)
    ensures HasBit(Combine(op, a, b), k) <==>
              match op
              case And => HasBit(a, k) && HasBit(b, k)
              case Or => HasBit(a, k) || HasBit(b, k)
              case _ => HasBit(a, k) != HasBit(b, k)
    decreases k
  {
    var c := BitOp(op, a, b);
    Halves(op, a, b);
    if k == 0 {
      BitAbove(a, 0);
      BitAbove(b, 0);
      BitAbove(c, 0);
    } else {
      BitAbove(a, k - 1);
      BitAbove(b, k - 1);
      BitAbove(c, k - 1);
      CombineBits(op, a / 2, b / 2, k - 1);
    }
  }

  // How many operands have bit k.
  function Having(vals: seq<int>, k: nat): nat {
    if vals == [] then 0 else Having(vals[..|vals| - 1], k) + BitAt(vals[|vals| - 1], k)
  }

  // All, some, or an odd number of the operands have bit k.
  ghost predicate BitOfAll(op: Op, vals: seq<int>, k: nat) {
    match op
    case And => forall i :: 0 <= i < |vals| ==> HasBit(vals[i], k)
    case Or => exists i :: 0 <= i < |vals| && HasBit(vals[i], k)
    case _ => Having(vals, k) % 2 == 1
  }

  lemma OneMoreBit(op: Op, front: seq<int>, x: int, k: nat)
    ensures BitOfAll(op, front + [x], k) <==>
              match op
              case And => BitOfAll(op, front, k) && HasBit(x, k)
              case Or => BitOfAll(op, front, k) || HasBit(x, k)
              case _ => BitOfAll(op, front, k) != HasBit(x, k)
  {
    var vals := front + [x];
    assert vals[..|front|] == front;
    if op.And? || op.Or? {
      assert vals[|front|] == x && forall i :: 0 <= i < |front| ==> vals[i] == front[i];
    }
  }

  lemma {:induction false} FoldBits(op: Op, vals: seq<int>, k: nat)
    requires Bitwise(op) && vals != []
    ensures HasBit(Fold(op, vals), k) <==> BitOfAll(op, vals, k)
    decreases |vals|
  {
    var n := |vals| - 1;
    var front := vals[..n];
    assert vals == front + [vals[n]];
    OneMoreBit(op, front, vals[n], k);
    if n > 0 {
      FoldBits(op, front, k);
      CombineBits(op, Fold(op, front), vals[n], k);
    } else {
      assert front == [] && Having(front, k) == 0;
    }
  }

  // ----- the table after all of them -----

  ghost predicate Means(op: Op, vals: seq<int>, v: int) {
    match op
    case IncrBy => v == Sum(vals)
    case Min => Least(vals, v)
    case Max => Greatest(vals, v)
    case _ => forall k :: 0 <= k < 64 ==> (HasBit(v, k) <==> BitOfAll(op, vals, k))
  }

  // No running sum leaves the 64-bit range.
  ghost predicate SumsFit(vals: seq<int>) {
    forall i :: 0 < i <= |vals| ==> Int64(Sum(vals[..i]))
  }

  lemma FoldMeans(op: Op, vals: seq<int>)
    requires vals != []
    ensures Means(op, vals, Fold(op, vals))
  {
    if Bitwise(op) {
      forall k | 0 <= k < 64 ensures HasBit(Fold(op, vals), k) <==> BitOfAll(op, vals, k) {
        FoldBits(op, vals, k);
      }
    } else if op.IncrBy? {
      FoldIsSum(vals);
    } else {
      FoldIsExtreme(vals);
    }
  }

  lemma SumsInRange(vals: seq<int>)
    requires AllInt64(vals)
    ensures InRange(IncrBy, vals) <==> SumsFit(vals)
  {
    forall i | 0 < i <= |vals| ensures Fold(IncrBy, vals[..i]) == Sum(vals[..i]) {
      FoldIsSum(vals[..i]);
    }
  }

  // An absent key, updated by one operator with any 64-bit numbers, ends up holding what the operator means of
  // them all, and nothing else changes.
  lemma HoldsTheMeaning(table: Table, key: string, op: Op, vals: seq<int>)
    requires key !in table && vals != [] && AllInt64(vals) && (op == IncrBy ==> SumsFit(vals))
    ensures var r := ProcessAll(table, key, op, vals);
            && r.Final? && key in r.table && r.table == table[key := r.table[key]]
            && Parse(r.table[key]).Some? && Int64(Parse(r.table[key]).value)
            && Means(op, vals, Parse(r.table[key]).value)
  {
    if op == IncrBy { SumsInRange(vals); } else { NoOverflow(op, vals); }
    HoldsTheFold(table, key, op, vals);
    FoldMeans(op, vals);
    assert vals[..|vals|] == vals;
    ParsePrint(Fold(op, vals));
  }

  lemma OverflowsNext(table: Table, key: string, w: int, v: int)
    requires Int64(w) && Int64(v) && !Int64(w + v) && key in table && table[key] == Print(w)
    ensures Process(table, key, Print(v), Update(IncrBy)) == Overflow
  {
    ParsePrint(w);
    ParsePrint(v);
  }

  lemma SumsFitNext(vals: seq<int>)
    requires vals != []
    ensures SumsFit(vals) <==> SumsFit(vals[..|vals| - 1]) && Int64(Sum(vals))
  {
    var front := vals[..|vals| - 1];
    assert forall i :: 0 <= i <= |front| ==> front[..i] == vals[..i];
    assert vals[..|vals|] == vals;
    if SumsFit(vals) {
      forall i | 0 < i <= |front| ensures Int64(Sum(front[..i])) {
        assert front[..i] == vals[..i];
      }
    }
    if SumsFit(front) && Int64(Sum(vals)) {
      forall i | 0 < i <= |vals| ensures Int64(Sum(vals[..i])) {
        if i < |vals| { assert front[..i] == vals[..i]; }
      }
    }
  }

  // INCRBY runs through exactly when no running sum overflows.
  lemma {:induction false} SumsDecide(table: Table, key: string, vals: seq<int>)
    requires key !in table && AllInt64(vals)
    ensures ProcessAll(table, key, IncrBy, vals).Final? <==> SumsFit(vals)
    decreases |vals|
  {
    if vals != [] {
      var n := |vals| - 1;
      SumsFitNext(vals);
      SumsDecide(table, key, vals[..n]);
      if SumsFit(vals) {
        SumsInRange(vals);
        HoldsTheFold(table, key, IncrBy, vals);
      } else if SumsFit(vals[..n]) {
        LastOverflows(table, key, vals);
      }
    }
  }

  lemma LastOverflows(table: Table, key: string, vals: seq<int>)
    requires key !in table && AllInt64(vals) && vals != [] && !Int64(Sum(vals)) && SumsFit(vals[..|vals| - 1])
    ensures ProcessAll(table, key, IncrBy, vals).Failed?
  {
    var n := |vals| - 1;
    var front := vals[..n];
    assert n > 0 by { assert n == 0 ==> front == [] && Sum(front) == 0; }
    SumsInRange(front);
    HoldsTheFold(table, key, IncrBy, front);
    FoldIsSum(front);
    assert front[..n] == front;
    OverflowsNext(Holding(table, key, IncrBy, front), key, Sum(front), vals[n]);
  }

  // ----- one request on a key that is there -----

  // A number found under the key is combined with the operand; the reply is the old text.
  lemma UpdateMeans(table: Table, key: string, val: string, op: Op)
    requires key in table && Parse(val).Some? && Parse(table[key]).Some?
    ensures var v, w, r := Parse(val).value, Parse(table[key]).value, Process(table, key, val, Update(op));
            && (r.Overflow? <==> op == IncrBy && !Int64(w + v)) && !r.NotANumber?
            && (r.Reply? ==>
                  && r.was == table[key] && key in r.table && r.table == table[key := r.table[key]]
                  && Parse(r.table[key]).Some? && Means(op, [w, v], Parse(r.table[key]).value))
  {
    var v, w := Parse(val).value, Parse(table[key]).value;
    assert [w, v][..1] == [w];
    assert Fold(op, [w, v]) == Combine(op, w, v);
    FoldMeans(op, [w, v]);
    if op != IncrBy { Closed(op, w, v); }
    if Int64(Combine(op, w, v)) { ParsePrint(Combine(op, w, v)); }
  }

  // ----- numbers in base 0 -----

  function NumeralChar(d: nat, upper: bool): char
    requires d < 36
  {
    if d < 10 then '0' + (d as char) else (if upper then 'A' else 'a') + ((d - 10) as char)
  }

  // n in the given radix, most significant digit first.
  function Numeral(n: nat, radix: nat, upper: bool): (s: string)
    requires 2 <= radix <= 36
    ensures s != []
  {
    if n < radix then [NumeralChar(n, upper)]
    else Numeral(n / radix, radix, upper) + [NumeralChar(n % radix, upper)]
  }

  lemma NumeralDigit(d: nat, upper: bool)
    requires d < 36
    ensures DigitOf(NumeralChar(d, upper)) == d && (NumeralChar(d, upper) == '0' <==> d == 0)
  {
  }

  lemma OneMoreDigit(s: string, c: char, radix: nat)
    requires AllDigits(s, radix) && DigitOf(c) < radix
    ensures AllDigits(s + [c], radix) && Value(s + [c], radix) == radix * Value(s, radix) + DigitOf(c)
  {
    assert (s + [c])[..|s|] == s;
  }

  lemma Quotient(n: nat, radix: nat)
    requires radix >= 2 && n >= radix
    ensures 0 < n / radix < n && radix * (n / radix) + n % radix == n
  {
  }

  lemma {:induction false} NumeralRead(n: nat, radix: nat, upper: bool)
    requires 2 <= radix <= 36
    ensures AllDigits(Numeral(n, radix, upper), radix) && Value(Numeral(n, radix, upper), radix) == n
    ensures Numeral(n, radix, upper)[0] == '0' <==> n == 0
    decreases n
  {
    if n >= radix {
      Quotient(n, radix);
      NumeralRead(n / radix, radix, upper);
      NumeralDigit(n % radix, upper);
      OneMoreDigit(Numeral(n / radix, radix, upper), NumeralChar(n % radix, upper), radix);
    } else {
      NumeralDigit(n, upper);
      OneMoreDigit([], NumeralChar(n, upper), radix);
      assert [] + [NumeralChar(n, upper)] == [NumeralChar(n, upper)];
    }
  }

  lemma {:induction false} LeadingZero(s: string, radix: nat)
    ensures Value("0" + s, radix) == Value(s, radix)
    decreases |s|
  {
    var t := "0" + s;
    if s == [] {
      assert t[..0] == [] && Value([], radix) == 0;
    } else {
      assert t[..|t| - 1] == "0" + s[..|s| - 1];
      LeadingZero(s[..|s| - 1], radix);
    }
  }

  datatype Base = Octal | Decimal | Hexadecimal

  function Radix(base: Base): nat {
    match base
    case Octal => 8
    case Decimal => 10
    case Hexadecimal => 16
  }

  function Prefix(base: Base, upper: bool): string {
    match base
    case Octal => "0"
    case Decimal => ""
    case Hexadecimal => if upper then "0X" else "0x"
  }

  lemma OctalMagnitude(s: string, n: nat)
    requires s != [] && AllDigits(s, 8) && Value(s, 8) == n
    ensures Magnitude("0" + s) == Some(n)
  {
    var t := "0" + s;
    LeadingZero(s, 8);
    assert t[0] == '0' && t[1] == s[0] && DigitOf(s[0]) < 8;
    assert forall i :: 0 < i < |t| ==> t[i] == s[i - 1];
  }

  lemma DecimalMagnitude(s: string, n: nat)
    requires s != [] && AllDigits(s, 10) && Value(s, 10) == n && (s[0] == '0' ==> s == "0")
    ensures Magnitude(s) == Some(n)
  {
    if s == "0" { assert s[..0] == [] && Value(s[..0], 8) == 0; }
  }

  lemma HexMagnitude(s: string, n: nat, x: char)
    requires s != [] && AllDigits(s, 16) && Value(s, 16) == n && (x == 'x' || x == 'X')
    ensures Magnitude(['0', x] + s) == Some(n)
  {
    assert (['0', x] + s)[2..] == s;
  }

  lemma MagnitudeOfNumeral(n: nat, base: Base, upper: bool)
    ensures Magnitude(Prefix(base, upper) + Numeral(n, Radix(base), upper)) == Some(n)
  {
    var s := Numeral(n, Radix(base), upper);
    NumeralRead(n, Radix(base), upper);
    match base
    case Octal => OctalMagnitude(s, n);
    case Decimal =>
      assert "" + s == s;
      DecimalMagnitude(s, n);
    case Hexadecimal =>
      HexMagnitude(s, n, if upper then 'X' else 'x');
  }

  lemma ParseSigned(s: string, n: nat)
    requires s != [] && '0' <= s[0] <= '9' && Magnitude(s) == Some(n)
    ensures Parse(s) == Some(Clamp(n)) && Parse("+" + s) == Some(Clamp(n)) && Parse("-" + s) == Some(Clamp(0 - n))
  {
    NoSpace(s);
    assert ("+" + s)[1..] == s && ("-" + s)[1..] == s;
    NoSpace("+" + s);
    NoSpace("-" + s);
  }

  lemma FirstIsDigit(n: nat, radix: nat, upper: bool)
    requires 2 <= radix <= 10
    ensures '0' <= Numeral(n, radix, upper)[0] <= '9'
  {
    NumeralRead(n, radix, upper);
    assert DigitOf(Numeral(n, radix, upper)[0]) < 10;
  }

  // Every number is read back from each of the three notations, with or without a sign, up to the ends of the
  // 64-bit range.
  lemma ParseNumeral(n: nat, base: Base, upper: bool)
    ensures var s := Prefix(base, upper) + Numeral(n, Radix(base), upper);
            Parse(s) == Some(Clamp(n)) && Parse("+" + s) == Some(Clamp(n)) && Parse("-" + s) == Some(Clamp(0 - n))
  {
    var s := Prefix(base, upper) + Numeral(n, Radix(base), upper);
    MagnitudeOfNumeral(n, base, upper);
    if base.Decimal? {
      FirstIsDigit(n, 10, upper);
      assert s == Numeral(n, 10, upper);
    }
    ParseSigned(s, n);
  }
}
