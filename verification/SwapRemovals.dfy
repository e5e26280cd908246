/** What is left of a duplicate-free list after many swap-removes, without replaying them:
    the slot of a removed entry passes to the entry that is last when it leaves, and each
    vacated slot has its heir. Two orders of the same removals leave the same list exactly
    when every vacated slot that remains has the same heir in both. */
module SwapRemovals {
  import opened Types
  import opened ActiveSet

  function RemoveAll(s: seq<Key>, p: seq<Key>): seq<Key>
    decreases |p|
  {
    if p == [] then s else RemoveAll(SwapRemove(s, p[0]), p[1..])
  }

  ghost predicate OrderOf(p: seq<Key>, d: set<Key>) {
    NoDuplicates(p) && Elements(p) == d
  }

  // --- one and two removals ---

  ghost function Without<T>(s: seq<T>, i: nat): (r: seq<T>)
    requires i < |s|
    ensures |r| == |s| - 1
    ensures forall q :: 0 <= q < |s| - 1 ==> r[q] == if q == i then s[|s| - 1] else s[q]
  {
    s[i := s[|s| - 1]][..|s| - 1]
  }

  lemma RemoveAtIndex<T>(s: seq<T>, i: nat)
    requires NoDuplicates(s) && i < |s|
    ensures SwapRemove(s, s[i]) == Without(s, i)
    ensures NoDuplicates(SwapRemove(s, s[i]))
  {
    SwapRemoveElements(s, s[i]);
  }

  /** Two swap-removes commute if and only if one of the entries is among the last two. */
  lemma SwapRemovesCommuteExactly<T>(s: seq<T>, i: nat, j: nat)
    requires NoDuplicates(s) && i < j < |s|
    ensures SwapRemove(SwapRemove(s, s[i]), s[j]) == SwapRemove(SwapRemove(s, s[j]), s[i]) <==> j >= |s| - 2
  {
    var n := |s|;
    var si, sj := SwapRemove(s, s[i]), SwapRemove(s, s[j]);
    RemoveAtIndex(s, i);
    RemoveAtIndex(s, j);
    RemoveAtIndex(si, if j == n - 1 then i else j);
    RemoveAtIndex(sj, i);
    var ij, ji := SwapRemove(si, s[j]), SwapRemove(sj, s[i]);
    if j < n - 2 {
      assert ij[i] == s[n - 1] && ji[i] == s[n - 2];
    } else if j == n - 2 {
      assert forall k :: 0 <= k < n - 2 ==> ij[k] == ji[k];
    } else {
      assert forall k :: 0 <= k < n - 2 ==> ij[k] == ji[k];
    }
  }

  // --- many removals ---

  lemma {:induction false} RemoveAllElements(s: seq<Key>, p: seq<Key>)
    requires NoDuplicates(s) && NoDuplicates(p) && forall x :: x in p ==> x in s
    ensures NoDuplicates(RemoveAll(s, p)) && |RemoveAll(s, p)| == |s| - |p|
    ensures Elements(RemoveAll(s, p)) == Elements(s) - Elements(p)
    decreases |p|
  {
    if p != [] {
      SwapRemoveElements(s, p[0]);
      RestOf(s, p);
      RemoveAllElements(SwapRemove(s, p[0]), p[1..]);
      assert Elements(p) == {p[0]} + Elements(p[1..]);
    }
  }

  lemma RestOf(s: seq<Key>, p: seq<Key>)
    requires NoDuplicates(s) && NoDuplicates(p) && p != [] && forall x :: x in p ==> x in s
    ensures NoDuplicates(p[1..]) && p[0] !in p[1..] && forall x :: x in p[1..] ==> x in SwapRemove(s, p[0])
  {
    SwapRemoveElements(s, p[0]);
    forall x | x in p[1..] ensures x in SwapRemove(s, p[0]) {
      assert x in Elements(s) - {p[0]};
    }
  }

  // The slot that is last when `x` leaves a list that had `n` entries at first.
  ghost function SlotOf(n: nat, p: seq<Key>, x: Key): int {
    if x in p then n - 1 - IndexOf(p, x) else -1
  }

  /** Who ends in the place of `x` when each entry of `rem` passes its place to whatever is
      in its slot. No entry passes its place on twice. */
  ghost function Heir(s: seq<Key>, n: nat, p: seq<Key>, rem: set<Key>, x: Key): Key
    decreases |rem|
  {
    var q := SlotOf(n, p, x);
    if x in rem && 0 <= q < |s| then Heir(s, n, p, rem - {x}, s[q]) else x
  }

  ghost function HeirOf(s: seq<Key>, p: seq<Key>, x: Key): Key {
    Heir(s, |s|, p, Elements(p), x)
  }

  lemma HeirStep(s: seq<Key>, n: nat, p: seq<Key>, rem: set<Key>, x: Key)
    requires x in rem && 0 <= SlotOf(n, p, x) < |s|
    ensures Heir(s, n, p, rem, x) == Heir(s, n, p, rem - {x}, s[SlotOf(n, p, x)])
  {
  }

  lemma HeirEnds(s: seq<Key>, n: nat, p: seq<Key>, rem: set<Key>, x: Key)
    requires x !in rem
    ensures Heir(s, n, p, rem, x) == x
  {
  }

  // The slots of the entries yet to leave a list of length `len` are distinct and in range.
  ghost predicate Fits(n: nat, p: seq<Key>, rem: set<Key>, len: nat) {
    && (forall x :: x in rem ==> 0 <= SlotOf(n, p, x) < len)
    && (forall x, y :: x in rem && y in rem && x != y ==> SlotOf(n, p, x) != SlotOf(n, p, y))
  }

  ghost predicate Free(n: nat, p: seq<Key>, rem: set<Key>, q: int) {
    forall x :: x in rem ==> SlotOf(n, p, x) != q
  }

  // Once an entry has passed its place on, no other passes its place to the same slot.
  lemma SlotTaken(n: nat, p: seq<Key>, rem: set<Key>, len: nat, y: Key)
    requires Fits(n, p, rem, len) && y in rem
    ensures Fits(n, p, rem - {y}, len) && 0 <= SlotOf(n, p, y) < len && Free(n, p, rem - {y}, SlotOf(n, p, y))
    ensures SlotOf(n, p, y) == len - 1 ==> Fits(n, p, rem - {y}, len - 1)
  {
  }

  // After one removal the other slots have the same heirs.
  lemma {:induction false} HeirAfterRemoval(s: seq<Key>, n: nat, p: seq<Key>, rem: set<Key>, i: nat, q: int)
    requires NoDuplicates(s) && i < |s| && s[i] in rem && Fits(n, p, rem, |s|) && SlotOf(n, p, s[i]) == |s| - 1
    requires 0 <= q < |s| - 1 && Free(n, p, rem, q)
    ensures Heir(s, n, p, rem, s[q]) == Heir(Without(s, i), n, p, rem - {s[i]}, Without(s, i)[q])
    decreases |rem|
  {
    hide Heir, SlotOf, Fits, Free;
    var x, y, s' := s[i], s[q], Without(s, i);
    SlotTaken(n, p, rem, |s|, x);
    if q == i {
      HeirStep(s, n, p, rem, x);
      StillFree(n, p, rem, i, x);
      SameHeirElsewhere(s, n, p, rem - {x}, i, s[|s| - 1]);
    } else if y in rem {
      assert y != x;
      SlotTaken(n, p, rem, |s|, y);
      OtherSlot(n, p, rem, |s|, x, y);
      HeirStep(s, n, p, rem, y);
      HeirStep(s', n, p, rem - {x}, y);
      assert rem - {y} - {x} == rem - {x} - {y};
      HeirAfterRemoval(s, n, p, rem - {y}, i, SlotOf(n, p, y));
    } else {
      HeirEnds(s, n, p, rem, y);
      HeirEnds(s', n, p, rem - {x}, y);
    }
  }

  lemma StillFree(n: nat, p: seq<Key>, rem: set<Key>, q: int, x: Key)
    requires Free(n, p, rem, q)
    ensures Free(n, p, rem - {x}, q)
  {
  }

  lemma OtherSlot(n: nat, p: seq<Key>, rem: set<Key>, len: nat, x: Key, y: Key)
    requires Fits(n, p, rem, len) && x in rem && y in rem && x != y
    ensures SlotOf(n, p, x) != SlotOf(n, p, y)
  {
  }

  // A slot that no entry passes to does not matter.
  lemma {:induction false} SameHeirElsewhere(s: seq<Key>, n: nat, p: seq<Key>, rem: set<Key>, i: nat, x: Key)
    requires i < |s| && Fits(n, p, rem, |s| - 1) && Free(n, p, rem, i)
    ensures Heir(s, n, p, rem, x) == Heir(Without(s, i), n, p, rem, x)
    decreases |rem|
  {
    hide Heir, SlotOf;
    if x in rem {
      HeirStep(s, n, p, rem, x);
      HeirStep(Without(s, i), n, p, rem, x);
      SameHeirElsewhere(s, n, p, rem - {x}, i, s[SlotOf(n, p, x)]);
    } else {
      HeirEnds(s, n, p, rem, x);
      HeirEnds(Without(s, i), n, p, rem, x);
    }
  }

  // --- the list after all removals ---

  lemma OrderFits(n: nat, p: seq<Key>)
    requires NoDuplicates(p) && |p| <= n
    ensures Fits(n, p, Elements(p), n)
    ensures forall q :: 0 <= q < n - |p| ==> Free(n, p, Elements(p), q)
  {
  }

  // The list when `k` entries have left; `n` and `p` stay those of the whole.
  lemma {:induction false} HeirsFrom(s: seq<Key>, n: nat, p: seq<Key>, k: nat, h: nat)
    requires NoDuplicates(s) && NoDuplicates(p) && k <= |p| <= n && |s| == n - k && h < n - |p|
    requires forall x :: x in p[k..] ==> x in s
    ensures |RemoveAll(s, p[k..])| == n - |p|
    ensures RemoveAll(s, p[k..])[h] == Heir(s, n, p, Elements(p[k..]), s[h])
    decreases |p| - k
  {
    hide Heir, Fits, Free, SlotOf, IndexOf, SwapRemove;
    RemoveAllElements(s, p[k..]);
    if k < |p| {
      var i := IndexIn(s, p[k]);
      RestOf(s, p[k..]);
      RemoveAtIndex(s, i);
      SlotsFrom(n, p, k, h);
      assert p[k..][1..] == p[k + 1..];
      HeirsFrom(SwapRemove(s, p[k]), n, p, k + 1, h);
      HeirAfterRemoval(s, n, p, Elements(p[k..]), i, h);
    } else {
      HeirEnds(s, n, p, Elements(p[k..]), s[h]);
    }
  }

  lemma IndexIn(s: seq<Key>, x: Key) returns (i: nat)
    requires x in s
    ensures i < |s| && s[i] == x
  {
    i := IndexOf(s, x);
  }

  lemma SlotsFrom(n: nat, p: seq<Key>, k: nat, h: nat)
    requires NoDuplicates(p) && k < |p| <= n && h < n - |p|
    ensures Fits(n, p, Elements(p[k..]), n - k) && Free(n, p, Elements(p[k..]), h)
    ensures SlotOf(n, p, p[k]) == n - k - 1 && Elements(p[k..]) - {p[k]} == Elements(p[k + 1..])
  {
    forall x | x in p[k..] ensures x in p && IndexOf(p, x) >= k {
    }
    assert IndexOf(p, p[k]) == k;
  }

  /** After removals in any order, every slot that is left holds the heir of its first entry. */
  lemma RemoveAllHeirs(s: seq<Key>, p: seq<Key>, h: nat)
    requires NoDuplicates(s) && NoDuplicates(p) && (forall x :: x in p ==> x in s) && h < |s| - |p|
    ensures |RemoveAll(s, p)| == |s| - |p| && RemoveAll(s, p)[h] == HeirOf(s, p, s[h])
  {
    assert p[0..] == p;
    HeirsFrom(s, |s|, p, 0, h);
  }

  lemma OrdersCount(p: seq<Key>, r: seq<Key>, d: set<Key>)
    requires OrderOf(p, d) && OrderOf(r, d)
    ensures |p| == |d| == |r| && forall x :: (x in p <==> x in d) && (x in r <==> x in d)
  {
    ElementsCount(p);
    ElementsCount(r);
    assert forall x :: (x in p <==> x in Elements(p)) && (x in r <==> x in Elements(r));
  }

  // Every slot that is left to be filled has the same heir.
  ghost predicate SameHeirs(s: seq<Key>, p: seq<Key>, r: seq<Key>) {
    forall h :: 0 <= h < |s| - |p| && s[h] in p ==> HeirOf(s, p, s[h]) == HeirOf(s, r, s[h])
  }

  /** Two orders of the same removals leave the same list if and only if every vacated slot
      that is left has the same heir. */
  lemma OrdersAgreeExactly(s: seq<Key>, p: seq<Key>, r: seq<Key>, d: set<Key>)
    requires NoDuplicates(s) && OrderOf(p, d) && OrderOf(r, d) && d <= Elements(s)
    ensures RemoveAll(s, p) == RemoveAll(s, r) <==> SameHeirs(s, p, r)
  {
    BothLeave(s, p, r, d);
    forall h: nat | h < |s| - |d| && s[h] !in d ensures HeirOf(s, p, s[h]) == s[h] == HeirOf(s, r, s[h]) {
      HeirEnds(s, |s|, p, Elements(p), s[h]);
      HeirEnds(s, |s|, r, Elements(r), s[h]);
    }
  }

  lemma BothLeave(s: seq<Key>, p: seq<Key>, r: seq<Key>, d: set<Key>)
    requires NoDuplicates(s) && OrderOf(p, d) && OrderOf(r, d) && d <= Elements(s)
    ensures |p| == |d| == |r| && forall x :: (x in p <==> x in d) && (x in r <==> x in d)
    ensures |RemoveAll(s, p)| == |s| - |d| == |RemoveAll(s, r)|
    ensures forall h :: 0 <= h < |s| - |d|
              ==> RemoveAll(s, p)[h] == HeirOf(s, p, s[h]) && RemoveAll(s, r)[h] == HeirOf(s, r, s[h])
    ensures NoDuplicates(RemoveAll(s, p)) && NoDuplicates(RemoveAll(s, r))
    ensures Elements(RemoveAll(s, p)) == Elements(RemoveAll(s, r)) == Elements(s) - d
  {
    hide RemoveAll, HeirOf;
    OrdersCount(p, r, d);
    assert forall x :: x in d ==> x in Elements(s);
    RemoveAllElements(s, p);
    RemoveAllElements(s, r);
    forall h | 0 <= h < |s| - |d|
      ensures RemoveAll(s, p)[h] == HeirOf(s, p, s[h]) && RemoveAll(s, r)[h] == HeirOf(s, r, s[h])
    {
      RemoveAllHeirs(s, p, h);
      RemoveAllHeirs(s, r, h);
    }
  }

  // --- when no order shows ---

  // At most one entry of `d` lies before the last |d| slots.
  ghost predicate OneHole(s: seq<Key>, d: set<Key>) {
    forall i, j :: 0 <= i < |s| - |d| && 0 <= j < |s| - |d| && s[i] in d && s[j] in d ==> i == j
  }

  lemma OneHoleSuffices(s: seq<Key>, p: seq<Key>, r: seq<Key>, d: set<Key>)
    requires NoDuplicates(s) && OrderOf(p, d) && OrderOf(r, d) && d <= Elements(s) && OneHole(s, d)
    ensures RemoveAll(s, p) == RemoveAll(s, r)
  {
    BothLeave(s, p, r, d);
    var a, b := RemoveAll(s, p), RemoveAll(s, r);
    hide RemoveAll, HeirOf;
    forall h | 0 <= h < |a| && s[h] !in d ensures a[h] == b[h] {
      Stays(s, p, h);
      Stays(s, r, h);
    }
    forall h | 0 <= h < |a| && s[h] in d ensures a[h] == b[h] {
      assert a[h] in Elements(a) && a[h] in Elements(b);
      var k := IndexIn(b, a[h]);
      assert s[k] in d;
    }
  }

  lemma Stays(s: seq<Key>, p: seq<Key>, h: nat)
    requires h < |s| && s[h] !in p
    ensures HeirOf(s, p, s[h]) == s[h]
  {
    HeirEnds(s, |s|, p, Elements(p), s[h]);
  }

  // An entry that no other passes its place to can be left out.
  lemma {:induction false} Unreached(s: seq<Key>, n: nat, p: seq<Key>, rem: set<Key>, j: nat, x: Key)
    requires NoDuplicates(s) && j < |s| && Fits(n, p, rem, |s|) && Free(n, p, rem, j) && x != s[j]
    ensures Heir(s, n, p, rem, x) == Heir(s, n, p, rem - {s[j]}, x)
    decreases |rem|
  {
    hide Heir, SlotOf;
    var y := s[j];
    if x in rem {
      HeirStep(s, n, p, rem, x);
      HeirStep(s, n, p, rem - {y}, x);
      Unreached(s, n, p, rem - {x}, j, s[SlotOf(n, p, x)]);
      assert rem - {x} - {y} == rem - {y} - {x};
    } else {
      HeirEnds(s, n, p, rem, x);
      HeirEnds(s, n, p, rem - {y}, x);
    }
  }

  lemma {:induction false} SameSlotsSameHeir(s: seq<Key>, n: nat, p: seq<Key>, r: seq<Key>, rem: set<Key>, x: Key)
    requires forall y :: y in rem ==> SlotOf(n, p, y) == SlotOf(n, r, y)
    ensures Heir(s, n, p, rem, x) == Heir(s, n, r, rem, x)
    decreases |rem|
  {
    hide SlotOf;
    var q := SlotOf(n, p, x);
    if x in rem && 0 <= q < |s| {
      SameSlotsSameHeir(s, n, p, r, rem - {x}, s[q]);
    }
  }

  function Exchanged(p: seq<Key>, a: nat, b: nat): seq<Key>
    requires a < |p| && b < |p|
  {
    p[a := p[b]][b := p[a]]
  }

  lemma ExchangedOrder(n: nat, p: seq<Key>, a: nat, b: nat)
    requires NoDuplicates(p) && a < |p| && b < |p| && a != b
    ensures var r := Exchanged(p, a, b);
            && OrderOf(r, Elements(p)) && SlotOf(n, r, p[b]) == SlotOf(n, p, p[a])
            && (forall x :: x in p && x != p[a] && x != p[b] ==> SlotOf(n, r, x) == SlotOf(n, p, x))
  {
    var r := Exchanged(p, a, b);
    forall i | 0 <= i < |p| ensures p[i] in r {
      assert p[i] == r[if i == a then b else if i == b then a else i];
    }
    forall i | 0 <= i < |r| ensures r[i] in p {
    }
    PositionIn(r, a);
    PositionIn(p, a);
    forall x | x in p && x != p[a] && x != p[b] ensures IndexOf(r, x) == IndexOf(p, x) {
      PositionIn(r, IndexOf(p, x));
    }
  }

  lemma PositionIn(p: seq<Key>, i: nat)
    requires NoDuplicates(p) && i < |p|
    ensures IndexOf(p, p[i]) == i
  {
  }

  /** Exchanging two entries in an order exchanges the heirs of their slots. */
  lemma ExchangedHeirs(s: seq<Key>, p: seq<Key>, a: nat, b: nat, i: nat, j: nat)
    requires NoDuplicates(s) && NoDuplicates(p) && a < |p| <= |s| && b < |p| && a != b
    requires i < |s| - |p| && j < |s| - |p| && s[i] == p[a] && s[j] == p[b]
    ensures HeirOf(s, Exchanged(p, a, b), s[j]) == HeirOf(s, p, s[i])
  {
    var n, r, x, y := |s|, Exchanged(p, a, b), s[i], s[j];
    var rem := Elements(p);
    ExchangedOrder(n, p, a, b);
    OrdersCount(p, r, rem);
    OrderFits(n, p);
    OrderFits(n, r);
    var q := SlotOf(n, p, x);
    hide SlotOf, Heir, IndexOf, Exchanged;
    SlotTaken(n, p, rem, n, x);
    SlotTaken(n, r, rem, n, y);
    StillFree(n, p, rem, j, x);
    StillFree(n, r, rem, i, y);
    assert q != i && q != j;
    hide Fits, Free;
    HeirStep(s, n, p, rem, x);
    HeirStep(s, n, r, rem, y);
    Unreached(s, n, p, rem - {x}, j, s[q]);
    Unreached(s, n, r, rem - {y}, i, s[q]);
    assert rem - {x} - {y} == rem - {y} - {x};
    SameSlotsSameHeir(s, n, p, r, rem - {x} - {y}, s[q]);
  }

  /** So whatever the order, exchanging two entries that lie before the last slots shows. */
  lemma ExchangeShows(s: seq<Key>, p: seq<Key>, a: nat, b: nat, i: nat, j: nat)
    requires NoDuplicates(s) && NoDuplicates(p) && (forall x :: x in p ==> x in s) && a < |p| && b < |p|
    requires i < |s| - |p| && j < |s| - |p| && i != j && s[i] == p[a] && s[j] == p[b]
    ensures OrderOf(Exchanged(p, a, b), Elements(p)) && RemoveAll(s, p) != RemoveAll(s, Exchanged(p, a, b))
  {
    var r := Exchanged(p, a, b);
    ExchangedOrder(|s|, p, a, b);
    BothLeave(s, p, r, Elements(p));
    ExchangedHeirs(s, p, a, b, i, j);
    hide RemoveAll, HeirOf, Exchanged;
    assert RemoveAll(s, r)[j] == RemoveAll(s, p)[i];
  }

  lemma {:induction false} SomeOrder(d: set<Key>) returns (p: seq<Key>)
    ensures OrderOf(p, d)
    decreases |d|
  {
    p := [];
    if d != {} {
      var x :| x in d;
      var rest := SomeOrder(d - {x});
      assert x !in Elements(rest);
      p := [x] + rest;
      assert Elements(p) == {x} + Elements(rest);
    }
  }

  lemma TwoHolesShow(s: seq<Key>, d: set<Key>) returns (p: seq<Key>, r: seq<Key>)
    requires NoDuplicates(s) && d <= Elements(s) && !OneHole(s, d)
    ensures OrderOf(p, d) && OrderOf(r, d) && RemoveAll(s, p) != RemoveAll(s, r)
  {
    var i: nat, j: nat :| i < |s| - |d| && j < |s| - |d| && s[i] in d && s[j] in d && i != j;
    p := SomeOrder(d);
    OrdersCount(p, p, d);
    var a := IndexIn(p, s[i]);
    var b := IndexIn(p, s[j]);
    r := Exchanged(p, a, b);
    hide RemoveAll, Exchanged;
    assert forall x :: x in d ==> x in Elements(s);
    ExchangeShows(s, p, a, b, i, j);
  }

  /** All orders of the same removals leave the same list if and only if at most one of the
      entries lies before the last slots, as many as there are removals. */
  lemma NoOrderShowsExactly(s: seq<Key>, d: set<Key>)
    requires NoDuplicates(s) && d <= Elements(s)
    ensures (forall p, r :: OrderOf(p, d) && OrderOf(r, d) ==> RemoveAll(s, p) == RemoveAll(s, r)) <==> OneHole(s, d)
  {
    hide RemoveAll;
    if OneHole(s, d) {
      forall p, r | OrderOf(p, d) && OrderOf(r, d) ensures RemoveAll(s, p) == RemoveAll(s, r) {
        OneHoleSuffices(s, p, r, d);
      }
    } else {
      var p, r := TwoHolesShow(s, d);
    }
  }
}
