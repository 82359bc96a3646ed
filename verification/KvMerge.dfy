/**
 The coordinator's key-value service: atomic updates whose operands and results travel as
 printed decimal numbers and are parsed again in base 0.
 */
module KvMerge {
  import opened Wrappers

  // ----- numbers as text -----

  const INT64_MAX := 0x7fff_ffff_ffff_ffff
  const INT64_MIN := -0x8000_0000_0000_0000

  predicate Int64(v: int) {
    INT64_MIN <= v <= INT64_MAX
  }

  function DigitChar(d: nat): char
    requires d < 10
  {
    '0' + (d as char)
  }

  function Digits(n: nat): (s: string)
    ensures s != []
  {
    if n < 10 then [DigitChar(n)] else Digits(n / 10) + [DigitChar(n % 10)]
  }

  function Print(v: int): string {
    if v < 0 then "-" + Digits(-v) else Digits(v)
  }

  function DigitOf(c: char): nat {
    if '0' <= c <= '9' then (c - '0') as nat
    else if 'a' <= c <= 'z' then (c - 'a') as nat + 10
    else if 'A' <= c <= 'Z' then (c - 'A') as nat + 10
    else 99
  }

  predicate AllDigits(s: string, radix: nat) {
    forall i :: 0 <= i < |s| ==> DigitOf(s[i]) < radix
  }

  function Value(s: string, radix: nat): nat {
    if s == [] then 0 else radix * Value(s[..|s| - 1], radix) + DigitOf(s[|s| - 1])
  }

  predicate IsSpace(c: char) {
    c == ' ' || '\t' <= c <= '\r'
  }

  function SkipSpace(s: string): string {
    if s != [] && IsSpace(s[0]) then SkipSpace(s[1..]) else s
  }

  // strtoll stops at the ends of the range.
  function Clamp(v: int): int {
    if v > INT64_MAX then INT64_MAX else if v < INT64_MIN then INT64_MIN else v
  }

  predicate Hex(s: string) {
    |s| >= 3 && s[0] == '0' && (s[1] == 'x' || s[1] == 'X')
  }

  // The radix that base 0 stands for, and the digits under it.
  function Magnitude(s: string): Option<nat> {
    var radix := if Hex(s) then 16 else if s != [] && s[0] == '0' then 8 else 10;
    var digits := if Hex(s) then s[2..] else s;
    if digits != [] && AllDigits(digits, radix) then Some(Value(digits, radix)) else None
  }

  // None stands for the assertion that the whole text is one number.
  function Parse(text: string): Option<int> {
    var s := SkipSpace(text);
    if s != [] && s[0] == '-' then
      var m := Magnitude(s[1..]);
      if m.None? then None else Some(Clamp(0 - m.value))
    else
      var m := Magnitude(if s != [] && s[0] == '+' then s[1..] else s);
      if m.None? then None else Some(Clamp(m.value))
  }

  // A decimal starts with a zero only if it is zero, so base 0 reads it as decimal.
  lemma {:induction false} DigitsRead(n: nat)
    ensures AllDigits(Digits(n), 10) && Value(Digits(n), 10) == n
    ensures Digits(n)[0] == '0' <==> n == 0
  {
    if n >= 10 {
      DigitsRead(n / 10);
      assert Digits(n)[..|Digits(n)| - 1] == Digits(n / 10);
    } else {
      assert Digits(n)[..0] == [];
    }
  }

  lemma MagnitudeOfDigits(n: nat)
    ensures Magnitude(Digits(n)) == Some(n)
  {
    DigitsRead(n);
    if n == 0 {
      var s := Digits(0);
      assert |s| == 1 && s[..0] == [] && Value(s[..0], 8) == 0 && DigitOf(s[0]) == 0;
    }
  }

  lemma NoSpace(s: string)
    requires s != [] && !IsSpace(s[0])
    ensures SkipSpace(s) == s
  {
  }

  lemma ParseDigits(n: nat)
    ensures Parse(Digits(n)) == Some(Clamp(n)) && Parse("-" + Digits(n)) == Some(Clamp(0 - n))
  {
    DigitsRead(n);
    MagnitudeOfDigits(n);
    var s := Digits(n);
    assert DigitOf(s[0]) < 10;
    NoSpace(s);
    var t := "-" + s;
    assert t[0] == '-' && t[1..] == s;
    NoSpace(t);
  }

  // Printing and parsing again is the identity on 64-bit integers.
  lemma ParsePrint(v: int)
    requires Int64(v)
    ensures Parse(Print(v)) == Some(v)
  {
    ParseDigits(if v < 0 then -v else v);
  }

  // ----- the operators -----

  datatype Op = IncrBy | And | Or | Xor | Min | Max

  predicate Bitwise(op: Op) {
    op.And? || op.Or? || op.Xor?
  }

  // On single bits.
  function Bit(op: Op, p: int, q: int): (r: int)
    ensures r == 0 || r == 1
  {
    match op
    case And => if p == 1 && q == 1 then 1 else 0
    case Or => if p == 1 || q == 1 then 1 else 0
    case _ => if p != q then 1 else 0
  }

  // Distance to the integers whose bits are all alike.
  function Mag(a: int): nat {
    if a >= 0 then a else -1 - a
  }

  predicate Uniform(a: int) {
    a == 0 || a == -1
  }

  // Two's complement, bit by bit; a / 2 drops the lowest bit and keeps the sign.
  function BitOp(op: Op, a: int, b: int): int
    decreases Mag(a) + Mag(b)
  {
    if Uniform(a) && Uniform(b) then -Bit(op, -a, -b)
    else 2 * BitOp(op, a / 2, b / 2) + Bit(op, a % 2, b % 2)
  }

  function Combine(op: Op, a: int, b: int): int {
    match op
    case IncrBy => a + b
    case Min => if a < b then a else b
    case Max => if a > b then a else b
    case _ => BitOp(op, a, b)
  }

  lemma BitOpStep(op: Op, a: int, b: int)
    ensures BitOp(op, a, b) == 2 * BitOp(op, a / 2, b / 2) + Bit(op, a % 2, b % 2)
    ensures BitOp(op, a, b) / 2 == BitOp(op, a / 2, b / 2) && BitOp(op, a, b) % 2 == Bit(op, a % 2, b % 2)
  {
  }

  lemma {:induction false} BitOpCommutes(op: Op, a: int, b: int)
    ensures BitOp(op, a, b) == BitOp(op, b, a)
    decreases Mag(a) + Mag(b)
  {
    if !(Uniform(a) && Uniform(b)) { BitOpCommutes(op, a / 2, b / 2); }
  }

  lemma BitAssociates(op: Op, p: int, q: int, r: int)
    requires Bitwise(op) && 0 <= p <= 1 && 0 <= q <= 1 && 0 <= r <= 1
    ensures Bit(op, Bit(op, p, q), r) == Bit(op, p, Bit(op, q, r))
  {
  }

  lemma UniformAssociates(op: Op, a: int, b: int, c: int)
    requires Bitwise(op) && Uniform(a) && Uniform(b) && Uniform(c)
    ensures BitOp(op, BitOp(op, a, b), c) == BitOp(op, a, BitOp(op, b, c))
  {
    BitAssociates(op, -a, -b, -c);
  }

  lemma Halves(op: Op, a: int, b: int)
    ensures BitOp(op, a, b) / 2 == BitOp(op, a / 2, b / 2) && BitOp(op, a, b) % 2 == Bit(op, a % 2, b % 2)
  {
    BitOpStep(op, a, b);
  }

  lemma SameHalves(x: int, y: int)
    requires x / 2 == y / 2 && x % 2 == y % 2
    ensures x == y
  {
  }

  lemma AssociatesStep(op: Op, a: int, b: int, c: int)
    requires Bitwise(op) && BitOp(op, BitOp(op, a / 2, b / 2), c / 2) == BitOp(op, a / 2, BitOp(op, b / 2, c / 2))
    ensures BitOp(op, BitOp(op, a, b), c) == BitOp(op, a, BitOp(op, b, c))
  {
    var ab, bc := BitOp(op, a, b), BitOp(op, b, c);
    Halves(op, a, b);
    Halves(op, b, c);
    Halves(op, ab, c);
    Halves(op, a, bc);
    BitAssociates(op, a % 2, b % 2, c % 2);
    SameHalves(BitOp(op, ab, c), BitOp(op, a, bc));
  }

  lemma {:induction false} BitOpAssociates(op: Op, a: int, b: int, c: int)
    requires Bitwise(op)
    ensures BitOp(op, BitOp(op, a, b), c) == BitOp(op, a, BitOp(op, b, c))
    decreases Mag(a) + Mag(b) + Mag(c)
  {
    if Uniform(a) && Uniform(b) && Uniform(c) {
      UniformAssociates(op, a, b, c);
    } else {
      BitOpAssociates(op, a / 2, b / 2, c / 2);
      AssociatesStep(op, a, b, c);
    }
  }

  function Pow2(n: nat): int {
    if n == 0 then 1 else 2 * Pow2(n - 1)
  }

  lemma {:induction false} BitOpRange(op: Op, a: int, b: int, n: nat)
    requires -Pow2(n) <= a < Pow2(n) && -Pow2(n) <= b < Pow2(n)
    ensures -Pow2(n) <= BitOp(op, a, b) < Pow2(n)
    decreases n
  {
    if n > 0 {
      BitOpRange(op, a / 2, b / 2, n - 1);
      BitOpStep(op, a, b);
    }
  }

  lemma Pow2Seven(n: nat)
    ensures Pow2(n + 7) == 128 * Pow2(n)
  {
    assert Pow2(n + 2) == 4 * Pow2(n);
    assert Pow2(n + 4) == 4 * Pow2(n + 2);
    assert Pow2(n + 6) == 4 * Pow2(n + 4);
  }

  lemma Pow2Of63()
    ensures Pow2(63) == 0x8000_0000_0000_0000
  {
    Pow2Seven(0); Pow2Seven(7); Pow2Seven(14); Pow2Seven(21); Pow2Seven(28); Pow2Seven(35); Pow2Seven(42);
    Pow2Seven(49); Pow2Seven(56);
    assert Pow2(0) == 1;
  }

  // Only INCRBY can leave the 64-bit range.
  lemma Closed(op: Op, a: int, b: int)
    requires op != IncrBy && Int64(a) && Int64(b)
    ensures Int64(Combine(op, a, b))
  {
    if Bitwise(op) {
      Pow2Of63();
      BitOpRange(op, a, b, 63);
    }
  }

  lemma CombineLaws(op: Op, a: int, b: int, c: int)
    ensures Combine(op, a, b) == Combine(op, b, a)
    ensures Combine(op, Combine(op, a, b), c) == Combine(op, Combine(op, a, c), b)
  {
    if Bitwise(op) {
      BitOpCommutes(op, a, b);
      BitOpCommutes(op, b, c);
      BitOpAssociates(op, a, b, c);
      BitOpAssociates(op, a, c, b);
    }
  }

  // ----- folding, in any order -----

  function Fold(op: Op, vals: seq<int>): int
    requires vals != []
  {
    var n := |vals| - 1;
    if n == 0 then vals[0] else Combine(op, Fold(op, vals[..n]), vals[n])
  }

  lemma FoldLast(op: Op, vals: seq<int>, x: int)
    requires vals != []
    ensures Fold(op, vals + [x]) == Combine(op, Fold(op, vals), x)
  {
    assert (vals + [x])[..|vals|] == vals;
  }

  // Any operand may as well come last.
  lemma {:induction false} MoveLast(op: Op, a: seq<int>, x: int, b: seq<int>)
    requires a + b != []
    ensures Fold(op, a + [x] + b) == Combine(op, Fold(op, a + b), x)
    decreases |b|, 0
  {
    if b == [] {
      assert a + [x] + b == a + [x] && a + b == a;
      FoldLast(op, a, x);
    } else {
      var y, b' := b[|b| - 1], b[..|b| - 1];
      assert a + [x] + b == a + [x] + b' + [y];
      FoldLast(op, a + [x] + b', y);
      MoveBefore(op, a, x, b', y);
      assert a + b == a + b' + [y];
    }
  }

  lemma {:induction false} MoveBefore(op: Op, a: seq<int>, x: int, b: seq<int>, y: int)
    ensures Combine(op, Fold(op, a + [x] + b), y) == Combine(op, Fold(op, a + b + [y]), x)
    decreases |b|, 1
  {
    if a + b == [] {
      assert a + [x] + b == [x] && a + b + [y] == [y];
      CombineLaws(op, x, y, 0);
    } else {
      MoveLast(op, a, x, b);
      FoldLast(op, a + b, y);
      CombineLaws(op, Fold(op, a + b), x, y);
    }
  }

  lemma Without(vals: seq<int>, i: nat)
    requires i < |vals|
    ensures vals == vals[..i] + [vals[i]] + vals[i + 1..]
    ensures multiset(vals[..i] + vals[i + 1..]) == multiset(vals) - multiset{vals[i]}
  {
    assert vals == vals[..i] + [vals[i]] + vals[i + 1..];
  }

  lemma SameLength(a: seq<int>, b: seq<int>)
    requires multiset(a) == multiset(b)
    ensures |a| == |b|
  {
    assert |multiset(a)| == |a| && |multiset(b)| == |b|;
  }

  // The last of a, found in b and taken out of both.
  lemma TakeOut(a: seq<int>, b: seq<int>) returns (i: nat)
    requires a != [] && multiset(a) == multiset(b)
    ensures |a| == |b| && i < |b| && b[i] == a[|a| - 1]
    ensures multiset(a[..|a| - 1]) == multiset(b[..i] + b[i + 1..])
  {
    var n := |a| - 1;
    SameLength(a, b);
    Without(a, n);
    assert a[..n] + a[n + 1..] == a[..n];
    assert a[n] in multiset(a) && a[n] in multiset(b);
    i :| 0 <= i < |b| && b[i] == a[n];
    Without(b, i);
  }

  // The fold depends only on which operands there are, not on their order.
  lemma {:induction false} FoldPermutes(op: Op, a: seq<int>, b: seq<int>)
    requires a != [] && multiset(a) == multiset(b)
    ensures b != [] && Fold(op, a) == Fold(op, b)
    decreases |a|
  {
    var n := |a| - 1;
    var i := TakeOut(a, b);
    var rest := b[..i] + b[i + 1..];
    if n > 0 {
      assert b == b[..i] + [b[i]] + b[i + 1..];
      MoveLast(op, b[..i], b[i], b[i + 1..]);
      FoldPermutes(op, a[..n], rest);
    }
  }

  // ----- requests -----

  type Table = map<string, string>

  datatype Request = Set | Update(op: Op)

  // NotANumber and Overflow stand for a failed assertion and for undefined behaviour.
  datatype Outcome = Reply(table: Table, was: string) | NotANumber | Overflow

  function Was(table: Table, key: string): string {
    if key in table then table[key] else "0"
  }

  function Process(table: Table, key: string, val: string, req: Request): Outcome {
    if req.Set? || key !in table then Reply(table[key := val], Was(table, key))
    else
      var v, w := Parse(val), Parse(table[key]);
      if v.None? || w.None? then NotANumber
      else if !Int64(Combine(req.op, w.value, v.value)) then Overflow
      else Reply(table[key := Print(Combine(req.op, w.value, v.value))], Was(table, key))
  }

  datatype Result = Final(table: Table, replies: seq<string>) | Failed

  function ProcessNumber(before: Result, key: string, op: Op, v: int): Result {
    if before.Failed? then Failed
    else
      var r := Process(before.table, key, Print(v), Update(op));
      if r.Reply? then Final(r.table, before.replies + [r.was]) else Failed
  }

  // The operands arrive one after the other, printed, for one key and one operator.
  function ProcessAll(table: Table, key: string, op: Op, vals: seq<int>): Result
    decreases |vals|
  {
    if vals == [] then Final(table, [])
    else ProcessNumber(ProcessAll(table, key, op, vals[..|vals| - 1]), key, op, vals[|vals| - 1])
  }

  // No operand and no intermediate result leaves the 64-bit range.
  ghost predicate InRange(op: Op, vals: seq<int>) {
    && (forall i :: 0 <= i < |vals| ==> Int64(vals[i]))
    && (forall i :: 0 < i <= |vals| ==> Int64(Fold(op, vals[..i])))
  }

  lemma {:induction false} OnlyIncrByOverflows(op: Op, vals: seq<int>)
    requires op != IncrBy && vals != [] && forall i :: 0 <= i < |vals| ==> Int64(vals[i])
    ensures Int64(Fold(op, vals))
    decreases |vals|
  {
    var n := |vals| - 1;
    if n > 0 {
      OnlyIncrByOverflows(op, vals[..n]);
      Closed(op, Fold(op, vals[..n]), vals[n]);
    }
  }

  // The reply to the last of these requests: the fold of those before it.
  function LastReply(op: Op, vals: seq<int>): string
    requires vals != []
  {
    var n := |vals| - 1;
    if n == 0 then "0" else Print(Fold(op, vals[..n]))
  }

  function Replies(op: Op, vals: seq<int>): (r: seq<string>)
    ensures |r| == |vals|
    decreases |vals|
  {
    if vals == [] then [] else Replies(op, vals[..|vals| - 1]) + [LastReply(op, vals)]
  }

  lemma {:induction false} ReplyAt(op: Op, vals: seq<int>, i: nat)
    requires i < |vals|
    ensures Replies(op, vals)[i] == if i == 0 then "0" else Print(Fold(op, vals[..i]))
    decreases |vals|
  {
    var n := |vals| - 1;
    if i < n {
      ReplyAt(op, vals[..n], i);
      assert vals[..n][..i] == vals[..i];
    }
  }

  lemma PrefixInRange(op: Op, vals: seq<int>, n: nat)
    requires InRange(op, vals) && n <= |vals|
    ensures InRange(op, vals[..n])
  {
    assert forall i :: 0 <= i <= n ==> vals[..n][..i] == vals[..i];
  }

  // One more request on a table that holds the fold so far.
  lemma ProcessNext(table: Table, key: string, op: Op, vals: seq<int>)
    requires vals != [] && InRange(op, vals)
    requires |vals| == 1 ==> key !in table
    requires |vals| > 1 ==> key in table && table[key] == Print(Fold(op, vals[..|vals| - 1]))
    ensures Process(table, key, Print(vals[|vals| - 1]), Update(op))
        == Reply(table[key := Print(Fold(op, vals))], LastReply(op, vals))
  {
    var n := |vals| - 1;
    ParsePrint(vals[n]);
    assert vals[..|vals|] == vals;
    if n > 0 {
      ParsePrint(Fold(op, vals[..n]));
    }
  }

  function Holding(table: Table, key: string, op: Op, vals: seq<int>): Table {
    if vals == [] then table else table[key := Print(Fold(op, vals))]
  }

  lemma HeldKey(table: Table, key: string, op: Op, vals: seq<int>, text: string)
    requires key !in table
    ensures if vals == [] then key !in Holding(table, key, op, vals)
            else key in Holding(table, key, op, vals) && Holding(table, key, op, vals)[key] == Print(Fold(op, vals))
    ensures Holding(table, key, op, vals)[key := text] == table[key := text]
  {
  }

  lemma ProcessHeld(table: Table, key: string, op: Op, vals: seq<int>)
    requires key !in table && vals != [] && InRange(op, vals)
    ensures var before := vals[..|vals| - 1];
            ProcessNumber(Final(Holding(table, key, op, before), Replies(op, before)), key, op, vals[|vals| - 1])
            == Final(Holding(table, key, op, vals), Replies(op, vals))
  {
    var before := vals[..|vals| - 1];
    HeldKey(table, key, op, before, Print(Fold(op, vals)));
    ProcessNext(Holding(table, key, op, before), key, op, vals);
  }

  // A key that was absent ends up holding the printed fold, and each reply is the printed fold of what came before.
  lemma {:induction false} HoldsTheFold(table: Table, key: string, op: Op, vals: seq<int>)
    requires key !in table && InRange(op, vals)
    ensures ProcessAll(table, key, op, vals) == Final(Holding(table, key, op, vals), Replies(op, vals))
    decreases |vals|
  {
    if vals != [] {
      PrefixInRange(op, vals, |vals| - 1);
      HoldsTheFold(table, key, op, vals[..|vals| - 1]);
      ProcessHeld(table, key, op, vals);
    }
  }

  predicate AllInt64(vals: seq<int>) {
    forall i :: 0 <= i < |vals| ==> Int64(vals[i])
  }

  lemma NoOverflow(op: Op, vals: seq<int>)
    requires op != IncrBy && AllInt64(vals)
    ensures InRange(op, vals)
  {
    forall i | 0 < i <= |vals| ensures Int64(Fold(op, vals[..i])) {
      OnlyIncrByOverflows(op, vals[..i]);
    }
  }

  // The final table is the same for every order of arrival.  Only INCRBY has a range to stay in.
  lemma OrderFree(table: Table, key: string, op: Op, a: seq<int>, b: seq<int>)
    requires key !in table && multiset(a) == multiset(b) && AllInt64(a) && AllInt64(b)
    requires op == IncrBy ==> InRange(op, a) && InRange(op, b)
    ensures ProcessAll(table, key, op, a).Final? && ProcessAll(table, key, op, b).Final?
    ensures ProcessAll(table, key, op, a).table == ProcessAll(table, key, op, b).table
  {
    if op != IncrBy {
      NoOverflow(op, a);
      NoOverflow(op, b);
    }
    HoldsTheFold(table, key, op, a);
    HoldsTheFold(table, key, op, b);
    if a != [] {
      FoldPermutes(op, a, b);
    } else {
      assert |multiset(b)| == 0 == |b|;
    }
  }

  function Sum(vals: seq<int>): int {
    if vals == [] then 0 else Sum(vals[..|vals| - 1]) + vals[|vals| - 1]
  }

  lemma {:induction false} FoldIsSum(vals: seq<int>)
    requires vals != []
    ensures Fold(IncrBy, vals) == Sum(vals)
    decreases |vals|
  {
    var n := |vals| - 1;
    if n > 0 {
      FoldIsSum(vals[..n]);
    } else {
      assert Sum(vals[..0]) == 0;
    }
  }

  // INCRBY answers each request with the sum of those before it.
  lemma RepliesArePrefixSums(table: Table, key: string, vals: seq<int>, i: nat)
    requires key !in table && InRange(IncrBy, vals) && i < |vals|
    ensures var r := ProcessAll(table, key, IncrBy, vals);
            r.Final? && i < |r.replies| && Parse(r.replies[i]) == Some(Sum(vals[..i]))
  {
    HoldsTheFold(table, key, IncrBy, vals);
    ReplyAt(IncrBy, vals, i);
    if i == 0 {
      ParsePrint(0);
      assert Print(0) == "0";
    } else {
      FoldIsSum(vals[..i]);
      ParsePrint(Sum(vals[..i]));
    }
  }

  lemma {:induction false} SumsGrow(vals: seq<int>, i: nat, j: nat)
    requires i < j <= |vals| && forall k :: 0 <= k < |vals| ==> vals[k] > 0
    ensures Sum(vals[..i]) < Sum(vals[..j])
    decreases j
  {
    assert vals[..j][..j - 1] == vals[..j - 1];
    if i < j - 1 { SumsGrow(vals, i, j - 1); }
  }

  // Positive increments: every requester gets a different, larger answer than those before it.
  lemma RepliesIncrease(table: Table, key: string, vals: seq<int>, i: nat, j: nat)
    requires key !in table && InRange(IncrBy, vals) && i < j < |vals| && forall k :: 0 <= k < |vals| ==> vals[k] > 0
    ensures var r := ProcessAll(table, key, IncrBy, vals);
            && r.Final? && j < |r.replies| && Parse(r.replies[i]).Some? && Parse(r.replies[j]).Some?
            && Parse(r.replies[i]).value < Parse(r.replies[j]).value
  {
    RepliesArePrefixSums(table, key, vals, i);
    RepliesArePrefixSums(table, key, vals, j);
    SumsGrow(vals, i, j);
  }

  // ----- the service in place -----

  datatype Answer = Success(val: string) | DbNotFound | KeyNotFound

  class LookupService {
    var maps: map<string, Table>

    constructor ()
      ensures maps == map[]
    {
      maps := map[];
    }

    method Reset()
      modifies this
      ensures maps == map[]
    {
      maps := map[];
    }

    function Db(id: string): Table
      reads this
    {
      if id in maps then maps[id] else map[]
    }

    method Get(id: string, key: string) returns (r: Answer)
      ensures r.Success? <==> key in Db(id)
      ensures r.Success? ==> r.val == Db(id)[key]
      ensures r.DbNotFound? <==> id !in maps
    {
      if id !in maps { return DbNotFound; }
      if key !in maps[id] { return KeyNotFound; }
      return Success(maps[id][key]);
    }

    // A database springs into being with the first request that names it.
    method ProcessSet(id: string, key: string, val: string, req: Request) returns (r: Outcome)
      modifies this
      ensures r == Process(old(Db(id)), key, val, req)
      ensures maps == old(maps)[id := if r.Reply? then r.table else old(Db(id))]
      ensures req.Set? || key !in old(Db(id)) ==>
                r.Reply? && r.table == old(Db(id))[key := val]
                && r.was == (if key in old(Db(id)) then old(Db(id))[key] else "0")
    {
      if id !in maps { maps := maps[id := map[]]; }
      var was := "0";
      var found := Get(id, key);
      if found.Success? { was := found.val; }
      if req.Set? || key !in maps[id] {
        maps := maps[id := maps[id][key := val]];
        return Reply(maps[id], was);
      }
      var val64, old64 := Parse(val), Parse(maps[id][key]);
      if val64.None? || old64.None? { return NotANumber; }
      var v := Combine(req.op, old64.value, val64.value);
      if !Int64(v) { return Overflow; }
      maps := maps[id := maps[id][key := Print(v)]];
      return Reply(maps[id], was);
    }
  }
}