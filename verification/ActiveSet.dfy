/** The active-flight set as its clients see it: a duplicate-free sequence with
    append and swap-remove, swept through rotating windows. */
module ActiveSet {
  import opened Types

  ghost predicate NoDuplicates<T>(a: seq<T>) {
    forall i, j :: 0 <= i < j < |a| ==> a[i] != a[j]
  }

  ghost function Elements<T>(a: seq<T>): set<T> {
    set x | x in a
  }

  function IndexOf<T(==)>(a: seq<T>, x: T): (i: nat)
    requires x in a
    ensures i < |a| && a[i] == x
  {
    if a[0] == x then 0 else 1 + IndexOf(a[1..], x)
  }

  // The last entry moves into the freed slot; an absent entry changes nothing.
  function SwapRemove<T(==)>(a: seq<T>, x: T): seq<T> {
    if x !in a then a else a[IndexOf(a, x) := a[|a| - 1]][..|a| - 1]
  }

  lemma SwapRemoveElements<T>(a: seq<T>, x: T)
    requires NoDuplicates(a)
    ensures NoDuplicates(SwapRemove(a, x))
    ensures Elements(SwapRemove(a, x)) == Elements(a) - {x}
    ensures |SwapRemove(a, x)| == |a| - (if x in a then 1 else 0)
  {
    if x in a {
      var i := IndexOf(a, x);
      var r := SwapRemove(a, x);
      forall y | y in a && y != x ensures y in r {
        var j := IndexOf(a, y);
        assert r[if j == |a| - 1 then i else j] == y;
      }
    }
  }

  lemma AppendElements<T>(a: seq<T>, x: T)
    requires NoDuplicates(a) && x !in a
    ensures NoDuplicates(a + [x])
    ensures Elements(a + [x]) == Elements(a) + {x}
  {
  }

  lemma ElementsCount<T>(a: seq<T>)
    requires NoDuplicates(a)
    ensures |Elements(a)| == |a|
  {
    if a != [] {
      var n := |a| - 1;
      ElementsCount(a[..n]);
      assert a == a[..n] + [a[n]];
      assert Elements(a) == Elements(a[..n]) + {a[n]};
    }
  }

  // --- rotating windows ---

  // A cursor that ran off the end restarts at the front.
  function WindowStart(cursor: nat, n: nat): nat {
    if cursor >= n then 0 else cursor
  }

  function WindowStop(cursor: nat, batch: nat, n: nat): (stop: nat) {
    Min(WindowStart(cursor, n) + batch, n)
  }

  function NextCursor(cursor: nat, batch: nat, n: nat): nat {
    var stop := WindowStop(cursor, batch, n);
    if stop >= n then 0 else stop
  }

  function Window<T>(a: seq<T>, cursor: nat, batch: nat): seq<T>
  {
    a[WindowStart(cursor, |a|)..WindowStop(cursor, batch, |a|)]
  }

  // The cursor after `calls` sweeps over a list of unchanged length.
  function CursorAfter(cursor: nat, batch: nat, n: nat, calls: nat): nat {
    if calls == 0 then cursor
    else NextCursor(CursorAfter(cursor, batch, n, calls - 1), batch, n)
  }

  // How many calls reach every slot, wherever the cursor stands.
  function FullSweep(n: nat, batch: nat): nat
    requires batch > 0
  {
    DivUp(n, batch) + 1
  }

  function DivUp(x: nat, batch: nat): nat
    requires batch > 0
  {
    (x + batch - 1) / batch
  }

  lemma CursorStep(cursor: nat, batch: nat, n: nat, calls: nat)
    requires batch > 0 && cursor < n && cursor + calls * batch < n
    ensures CursorAfter(cursor, batch, n, calls) == cursor + calls * batch
  {
    if calls > 0 {
      assert cursor + (calls - 1) * batch + batch == cursor + calls * batch;
      CursorStep(cursor, batch, n, calls - 1);
    }
  }

  lemma CursorWraps(cursor: nat, batch: nat, n: nat)
    requires batch > 0 && cursor < n
    ensures CursorAfter(cursor, batch, n, DivUp(n - cursor, batch)) == 0
  {
    var m := DivUp(n - cursor, batch);
    assert m > 0 && cursor + (m - 1) * batch < n <= cursor + (m - 1) * batch + batch by {
      DivideUp(n - cursor, batch);
    }
    CursorStep(cursor, batch, n, m - 1);
  }

  lemma DivideUp(x: nat, batch: nat)
    requires batch > 0 && x > 0
    ensures var m := DivUp(x, batch); m > 0 && (m - 1) * batch < x <= m * batch
  {
    var m := (x + batch - 1) / batch;
    assert x + batch - 1 == m * batch + (x + batch - 1) % batch;
    assert (m - 1) * batch == m * batch - batch;
  }

  lemma CursorCompose(cursor: nat, batch: nat, n: nat, first: nat, second: nat)
    ensures CursorAfter(CursorAfter(cursor, batch, n, first), batch, n, second)
         == CursorAfter(cursor, batch, n, first + second)
  {
    if second > 0 {
      CursorCompose(cursor, batch, n, first, second - 1);
    }
  }

  lemma CursorNormal(cursor: nat, batch: nat, n: nat, calls: nat)
    requires batch > 0 && n > 0
    ensures WindowStart(CursorAfter(cursor, batch, n, calls), n)
         == WindowStart(CursorAfter(WindowStart(cursor, n), batch, n, calls), n)
  {
    if calls > 0 {
      CursorNormal(cursor, batch, n, calls - 1);
    }
  }

  lemma SweepAhead(c: nat, batch: nat, n: nat, i: nat) returns (j: nat)
    requires batch > 0 && c <= i < n
    ensures j < FullSweep(n, batch)
    ensures CursorAfter(c, batch, n, j) <= i < CursorAfter(c, batch, n, j) + batch
  {
    j := (i - c) / batch;
    Quotient(i - c, batch);
    CursorStep(c, batch, n, j);
    DivideUp(n, batch);
    QuotientBelow(j, FullSweep(n, batch) - 1, batch, n);
  }

  lemma SweepBehind(c: nat, batch: nat, n: nat, i: nat) returns (j: nat)
    requires batch > 0 && i < c < n
    ensures j < FullSweep(n, batch)
    ensures CursorAfter(c, batch, n, j) <= i < CursorAfter(c, batch, n, j) + batch
  {
    var m, q := DivUp(n - c, batch), i / batch;
    j := m + q;
    WrapThenStep(c, batch, n, q, i);
    DivideUp(n - c, batch);
    DivideUp(n, batch);
    Quotient(i, batch);
    SumBelow(m, q, DivUp(n, batch), batch, n, n - c);
  }

  lemma WrapThenStep(c: nat, batch: nat, n: nat, q: nat, i: nat)
    requires batch > 0 && i < c < n && q == i / batch
    ensures var at := CursorAfter(c, batch, n, DivUp(n - c, batch) + q); at <= i < at + batch
  {
    Quotient(i, batch);
    CursorWraps(c, batch, n);
    CursorStep(0, batch, n, q);
    CursorCompose(c, batch, n, DivUp(n - c, batch), q);
  }

  lemma SumBelow(m: nat, q: nat, k: nat, batch: nat, n: nat, x: int)
    requires batch > 0 && (m - 1) * batch < x && q * batch + x < n && n <= k * batch
    ensures m + q <= k
  {
    assert (m - 1) * batch + q * batch == (m - 1 + q) * batch;
    if m - 1 + q >= 0 {
      QuotientBelow(m - 1 + q, k, batch, n);
    }
  }

  /** Every slot of an unchanged list is inspected by one of the next
      ceil(n / batch) + 1 calls, wherever the cursor stands. */
  lemma SweepReaches(cursor: nat, batch: nat, n: nat, i: nat) returns (j: nat)
    requires batch > 0 && i < n
    ensures j < FullSweep(n, batch)
    ensures var c := CursorAfter(cursor, batch, n, j);
            WindowStart(c, n) <= i < WindowStop(c, batch, n)
  {
    var c := WindowStart(cursor, n);
    if c <= i {
      j := SweepAhead(c, batch, n, i);
    } else {
      j := SweepBehind(c, batch, n, i);
    }
    CursorNormal(cursor, batch, n, j);
  }

  lemma Quotient(x: nat, batch: nat)
    requires batch > 0
    ensures x / batch * batch <= x < x / batch * batch + batch
  {
  }

  lemma QuotientBelow(a: nat, b: nat, batch: nat, n: nat)
    requires batch > 0 && a * batch < n <= b * batch
    ensures a < b
  {
    assert a * batch - b * batch == (a - b) * batch;
  }
}
