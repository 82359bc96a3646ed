/**
 The list of guard-page ranges: recorded area by area before a checkpoint is written, and
 searched by address while it is.

 The kernel's page scan is a parameter: which addresses are guarded, and a scan that finds the
 first maximal run of them inside a window.
 */
module GuardPages {
  import opened Wrappers

  datatype Range = Range(start: nat, end: nat)

  type Guarded = nat -> bool

  // ----- the scan -----

  function SkipClear(g: Guarded, lo: nat, hi: nat): (s: nat)
    requires lo <= hi
    ensures lo <= s <= hi && (s < hi ==> g(s)) && forall a :: lo <= a < s ==> !g(a)
    decreases hi - lo
  {
    if lo == hi || g(lo) then lo else SkipClear(g, lo + 1, hi)
  }

  function SkipGuarded(g: Guarded, lo: nat, hi: nat): (e: nat)
    requires lo <= hi
    ensures lo <= e <= hi && (e < hi ==> !g(e)) && forall a :: lo <= a < e ==> g(a)
    decreases hi - lo
  {
    if lo == hi || !g(lo) then lo else SkipGuarded(g, lo + 1, hi)
  }

  function Scan(g: Guarded, lo: nat, hi: nat): (r: Option<Range>)
    requires lo <= hi
    ensures r.None? ==> forall a :: lo <= a < hi ==> !g(a)
    ensures r.Some? ==> lo <= r.value.start < r.value.end <= hi && (r.value.end < hi ==> !g(r.value.end))
    ensures r.Some? ==> forall a :: lo <= a < r.value.end ==> (g(a) <==> r.value.start <= a)
  {
    var s := SkipClear(g, lo, hi);
    if s == hi then None else Some(Range(s, SkipGuarded(g, s, hi)))
  }

  // ----- the list -----

  predicate In(r: Range, a: nat) {
    r.start <= a < r.end
  }

  ghost predicate Covered(rs: seq<Range>, a: nat) {
    exists i :: 0 <= i < |rs| && In(rs[i], a)
  }

  // Sorted, disjoint, with a gap between any two.
  ghost predicate Tidy(rs: seq<Range>) {
    && (forall i :: 0 <= i < |rs| ==> rs[i].start < rs[i].end)
    && (forall i, j :: 0 <= i < j < |rs| ==> rs[i].end < rs[j].start)
  }

  // A tidy list is determined by what it covers.
  lemma {:induction false} TidyUnique(a: seq<Range>, b: seq<Range>)
    requires Tidy(a) && Tidy(b) && forall x: nat :: Covered(a, x) <==> Covered(b, x)
    ensures a == b
    decreases |a|
  {
    if a == [] || b == [] {
      CoversSomething(a);
      CoversSomething(b);
    } else {
      FirstSame(a, b);
      RestCovers(a);
      RestCovers(b);
      assert a[0] == b[0];
      TidyUnique(a[1..], b[1..]);
      assert a == [a[0]] + a[1..] && b == [b[0]] + b[1..];
    }
  }

  lemma CoversSomething(a: seq<Range>)
    requires Tidy(a)
    ensures a != [] ==> Covered(a, a[0].start)
  {
    assert a != [] ==> In(a[0], a[0].start);
  }

  // The list without its first range covers exactly what lies beyond it.
  lemma RestCovers(a: seq<Range>)
    requires Tidy(a) && a != []
    ensures Tidy(a[1..]) && forall x: nat :: Covered(a[1..], x) <==> Covered(a, x) && x >= a[0].end
  {
    forall x: nat | Covered(a, x) && x >= a[0].end ensures Covered(a[1..], x) {
      var i :| 0 <= i < |a| && In(a[i], x);
      assert a[1..][i - 1] == a[i];
    }
    forall x: nat | Covered(a[1..], x) ensures Covered(a, x) && x >= a[0].end {
      var i :| 0 <= i < |a[1..]| && In(a[1..][i], x);
      assert a[i + 1] == a[1..][i];
    }
  }

  // Where the first range begins and ends can be told from the coverage.
  lemma FirstCovers(a: seq<Range>)
    requires Tidy(a) && a != []
    ensures forall x: nat :: x < a[0].end ==> (Covered(a, x) <==> In(a[0], x))
    ensures !Covered(a, a[0].end)
  {
  }

  lemma FirstSame(a: seq<Range>, b: seq<Range>)
    requires Tidy(a) && Tidy(b) && a != [] && b != [] && forall x: nat :: Covered(a, x) <==> Covered(b, x)
    ensures a[0] == b[0]
  {
    FirstCovers(a);
    FirstCovers(b);
    assert Covered(a, a[0].start) && Covered(b, b[0].start);
    assert a[0].start == b[0].start;
    assert Covered(b, a[0].end) <==> Covered(a, a[0].end);
    assert Covered(a, b[0].end) <==> Covered(b, b[0].end);
  }

  // The ranges that end above addr.
  function Above(rs: seq<Range>, addr: nat): seq<Range> {
    if rs == [] then [] else if addr < rs[0].end then rs else Above(rs[1..], addr)
  }

  // They are the ranges ending above addr, in order, and no other.
  lemma {:induction false} AboveExact(rs: seq<Range>, addr: nat) returns (k: nat)
    requires Tidy(rs)
    ensures k <= |rs| && Above(rs, addr) == rs[k..]
    ensures forall i :: 0 <= i < |rs| ==> (addr < rs[i].end <==> k <= i)
  {
    if rs == [] || addr < rs[0].end {
      k := 0;
    } else {
      k := AboveExact(rs[1..], addr);
      assert rs[1..][k..] == rs[k + 1..];
      assert forall i :: 0 < i < |rs| ==> rs[i] == rs[1..][i - 1];
      k := k + 1;
    }
  }

  class Recorder {
    var ranges: seq<Range>

    ghost predicate Valid()
      reads this
    {
      Tidy(ranges)
    }

    constructor ()
      ensures Valid() && ranges == []
    {
      ranges := [];
    }

    // Ranges of an earlier pass are gone even when the kernel has no guard pages.
    method BeginRecording(supported: bool) returns (ok: bool)
      modifies this
      ensures Valid() && ranges == [] && ok == supported
    {
      ranges := [];
      ok := supported;
    }

    // False stands for one of the two assertions.
    method AddRange(start: nat, end: nat) returns (ok: bool)
      requires Valid()
      modifies this
      ensures Valid() && ok == (start < end && (old(ranges) != [] ==> old(ranges)[|old(ranges)| - 1].end <= start))
      ensures !ok ==> ranges == old(ranges)
      ensures ok ==> ranges != [] && ranges[|ranges| - 1].end == end
      ensures ok ==> forall a: nat :: Covered(ranges, a) <==> Covered(old(ranges), a) || start <= a < end
    {
      if start >= end { return false; }
      ghost var was := ranges;
      if ranges != [] {
        var last := ranges[|ranges| - 1];
        if start < last.end { return false; }
        if start == last.end {
          ranges := ranges[|ranges| - 1 := Range(last.start, end)];
          Extended(was, ranges, end);
          return true;
        }
      }
      ranges := ranges + [Range(start, end)];
      Pushed(was, Range(start, end));
      return true;
    }

    // Adds exactly the guarded addresses of the area, which lies beyond everything recorded so far.
    method Record(g: Guarded, area: Range) returns (ok: bool)
      requires Valid() && area.start <= area.end
      requires forall a: nat :: Covered(ranges, a) ==> a < area.start
      modifies this
      ensures Valid() && ok
      ensures forall a: nat :: Covered(ranges, a) <==> Covered(old(ranges), a) || (In(area, a) && g(a))
    {
      var addr := area.start;
      if ranges != [] { LastBelow(ranges, area.start); }
      while addr < area.end
        invariant Valid() && area.start <= addr <= area.end
        invariant ranges != [] ==> ranges[|ranges| - 1].end <= addr
        invariant forall a: nat :: Covered(ranges, a) <==> Covered(old(ranges), a) || (area.start <= a < addr && g(a))
      {
        var found := Scan(g, addr, area.end);
        if found.None? {
          break;
        }
        ok := AddRange(found.value.start, found.value.end);
        if !ok { return; }
        addr := found.value.end;
      }
      ok := true;
    }

    // Recording areas in ascending order covers exactly the guarded addresses of this pass.
    method RecordAll(g: Guarded, areas: seq<Range>) returns (ok: bool)
      requires forall i :: 0 <= i < |areas| ==> areas[i].start <= areas[i].end
      requires forall i, j :: 0 <= i < j < |areas| ==> areas[i].end <= areas[j].start
      modifies this
      ensures ok && Valid() && forall a: nat :: Covered(ranges, a) <==> Covered(areas, a) && g(a)
    {
      ok := BeginRecording(true);
      var i := 0;
      while i < |areas|
        invariant ok && Valid() && i <= |areas|
        invariant forall a: nat :: Covered(ranges, a) <==> Covered(areas[..i], a) && g(a)
      {
        CoveredBelow(areas, i);
        CoveredNext(areas, i);
        ok := Record(g, areas[i]);
        i := i + 1;
      }
      assert areas[..|areas|] == areas;
    }

    // The first range that ends above addr.
    method NextRangeAfter(addr: nat) returns (r: Option<Range>)
      requires Valid()
      ensures r == if Above(ranges, addr) == [] then None else Some(Above(ranges, addr)[0])
    {
      var i := 0;
      while i < |ranges|
        invariant i <= |ranges| && Above(ranges, addr) == Above(ranges[i..], addr)
      {
        if addr < ranges[i].end {
          return Some(ranges[i]);
        }
        assert ranges[i..][1..] == ranges[i + 1..];
        i := i + 1;
      }
      assert ranges[i..] == [];
      return None;
    }

    // Asking again from the end of each answer gives all the ranges that end above addr, in order.
    method Enumerate(addr: nat) returns (rs: seq<Range>)
      requires Valid()
      ensures rs == Above(ranges, addr)
    {
      rs := [];
      var cur := addr;
      while true
        invariant Above(ranges, addr) == rs + Above(ranges, cur)
        decreases |Above(ranges, cur)|
      {
        var r := NextRangeAfter(cur);
        if r.None? { break; }
        AboveNext(ranges, cur);
        assert Above(ranges, cur) == [r.value] + Above(ranges, cur)[1..];
        rs := rs + [r.value];
        cur := r.value.end;
      }
    }
  }

  lemma AboveNext(rs: seq<Range>, addr: nat)
    requires Tidy(rs) && Above(rs, addr) != []
    ensures Above(rs, Above(rs, addr)[0].end) == Above(rs, addr)[1..]
    decreases rs
  {
    if addr < rs[0].end {
      if |rs| > 1 { assert rs[1..][0].end > rs[0].end; }
    } else {
      AboveNext(rs[1..], addr);
      var k := AboveExact(rs[1..], addr);
    }
  }

  lemma Pushed(rs: seq<Range>, r: Range)
    requires Tidy(rs) && r.start < r.end && (rs != [] ==> rs[|rs| - 1].end < r.start)
    ensures Tidy(rs + [r]) && forall a: nat :: Covered(rs + [r], a) <==> Covered(rs, a) || In(r, a)
  {
    var rs' := rs + [r];
    forall a: nat | Covered(rs, a) || In(r, a) ensures Covered(rs', a) {
      if Covered(rs, a) {
        var i :| 0 <= i < |rs| && In(rs[i], a);
        assert In(rs'[i], a);
      } else {
        assert In(rs'[|rs|], a);
      }
    }
  }

  lemma Extended(rs: seq<Range>, rs': seq<Range>, end: nat)
    requires Tidy(rs) && rs != [] && rs[|rs| - 1].end < end
    requires rs' == rs[|rs| - 1 := Range(rs[|rs| - 1].start, end)]
    ensures Tidy(rs') && forall a: nat :: Covered(rs', a) <==> Covered(rs, a) || rs[|rs| - 1].end <= a < end
  {
    var n := |rs| - 1;
    forall a: nat | Covered(rs, a) || rs[n].end <= a < end ensures Covered(rs', a) {
      if Covered(rs, a) {
        var i :| 0 <= i < |rs| && In(rs[i], a);
        assert In(rs'[i], a);
      } else {
        assert In(rs'[n], a);
      }
    }
    forall a: nat | Covered(rs', a) ensures Covered(rs, a) || rs[n].end <= a < end {
      var i :| 0 <= i < |rs'| && In(rs'[i], a);
      if i < n || a < rs[n].end { assert In(rs[i], a); }
    }
  }

  lemma LastBelow(rs: seq<Range>, lo: nat)
    requires Tidy(rs) && rs != [] && forall a: nat :: Covered(rs, a) ==> a < lo
    ensures rs[|rs| - 1].end <= lo
  {
    var last := rs[|rs| - 1];
    assert In(last, last.end - 1);
    assert Covered(rs, last.end - 1);
  }

  lemma CoveredBelow(areas: seq<Range>, i: nat)
    requires i < |areas| && forall i, j :: 0 <= i < j < |areas| ==> areas[i].end <= areas[j].start
    ensures forall a: nat :: Covered(areas[..i], a) ==> a < areas[i].start
  {
  }

  lemma CoveredNext(areas: seq<Range>, i: nat)
    requires i < |areas|
    ensures forall a: nat :: Covered(areas[..i + 1], a) <==> Covered(areas[..i], a) || In(areas[i], a)
  {
    forall a: nat | Covered(areas[..i], a) || In(areas[i], a) ensures Covered(areas[..i + 1], a) {
      if Covered(areas[..i], a) {
        var j :| 0 <= j < i && In(areas[..i][j], a);
        assert In(areas[..i + 1][j], a);
      } else {
        assert In(areas[..i + 1][i], a);
      }
    }
    forall a: nat | Covered(areas[..i + 1], a) ensures Covered(areas[..i], a) || In(areas[i], a) {
      var j :| 0 <= j < i + 1 && In(areas[..i + 1][j], a);
      if j < i { assert In(areas[..i][j], a); }
    }
  }
}
