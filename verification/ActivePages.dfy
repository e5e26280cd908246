/** The stored form of the active-flight set: pages of at most one hundred entries, a
    reverse index of slots that may have lost entries, and a count. It behaves as the
    plain sequence the contracts reason about. */
module ActivePages {
  import opened Results
  import opened Types
  import opened ActiveSet

  const PAGE: nat := ACTIVE_SET_PAGE_SIZE
  const ADD_SCAN_MAX: nat := 1_000

  type Pages = map<nat, seq<Key>>

  // Every page that should hold entries is stored, and only the last is short.
  ghost predicate Shape(pages: Pages, count: nat) {
    && (forall p: nat :: p in pages <==> p * PAGE < count)
    && (forall p: nat :: p in pages ==> |pages[p]| == Min(PAGE, count - p * PAGE))
  }

  lemma SlotStored(pages: Pages, count: nat, i: nat)
    requires Shape(pages, count) && i < count
    ensures i / PAGE in pages && i % PAGE < |pages[i / PAGE]|
  {
  }

  ghost function EntryAt(pages: Pages, count: nat, i: nat): Key
    requires Shape(pages, count) && i < count
  {
    SlotStored(pages, count, i);
    pages[i / PAGE][i % PAGE]
  }

  ghost function Flat(pages: Pages, count: nat): (s: seq<Key>)
    requires Shape(pages, count)
    ensures |s| == count
    ensures forall i :: 0 <= i < count ==> s[i] == EntryAt(pages, count, i)
  {
    seq(count, i requires 0 <= i < count => EntryAt(pages, count, i))
  }

  // A page is a contiguous piece of the flat sequence.
  lemma PageIsSlice(pages: Pages, count: nat, p: nat)
    requires Shape(pages, count) && p in pages
    ensures p * PAGE + |pages[p]| <= count
    ensures pages[p] == Flat(pages, count)[p * PAGE..p * PAGE + |pages[p]|]
  {
    forall j | 0 <= j < |pages[p]| ensures pages[p][j] == Flat(pages, count)[p * PAGE + j] {
      SlotOf(p, j);
    }
  }

  lemma SlotOf(p: nat, j: nat)
    requires j < PAGE
    ensures (p * PAGE + j) / PAGE == p && (p * PAGE + j) % PAGE == j
  {
  }

  lemma SlotParts(i: nat)
    ensures i == i / PAGE * PAGE + i % PAGE && i % PAGE < PAGE
  {
  }

  // --- the two rewrites of the pages ---

  function PutPage(pages: Pages, p: nat, page: seq<Key>): Pages {
    if page == [] then pages - {p} else pages[p := page]
  }

  lemma AppendedFlat(pages: Pages, count: nat, page: seq<Key>, k: Key)
    requires Shape(pages, count)
    requires page == (if count / PAGE in pages then pages[count / PAGE] else [])
    ensures |page| < PAGE && count / PAGE * PAGE + |page| == count
    ensures var p' := pages[count / PAGE := page + [k]];
            Shape(p', count + 1) && Flat(p', count + 1) == Flat(pages, count) + [k]
  {
    var t := count / PAGE;
    SlotParts(count);
    var p' := pages[t := page + [k]];
    forall p: nat ensures p in p' <==> p * PAGE < count + 1 {
      if p != t { TailPage(p, t, count); }
    }
    forall p: nat | p in p' ensures |p'[p]| == Min(PAGE, count + 1 - p * PAGE) {
      if p != t { TailPage(p, t, count); }
    }
    forall i: nat | i < count ensures EntryAt(p', count + 1, i) == EntryAt(pages, count, i) {
      SlotStored(pages, count, i);
      SlotStored(p', count + 1, i);
    }
    SlotStored(p', count + 1, count);
  }

  lemma TailPage(p: nat, t: nat, count: nat)
    requires t * PAGE <= count < t * PAGE + PAGE && p != t
    ensures p * PAGE < count <==> p < t
    ensures p * PAGE < count + 1 <==> p < t
    ensures p < t ==> p * PAGE + PAGE <= count
  {
    if p < t { assert (p + 1) * PAGE <= t * PAGE; } else { assert p * PAGE >= (t + 1) * PAGE; }
  }

  // The last entry leaves its page; an emptied page is dropped.
  lemma PoppedFlat(pages: Pages, count: nat)
    requires Shape(pages, count) && count > 0
    ensures (count - 1) / PAGE in pages && pages[(count - 1) / PAGE] != []
    ensures var t := (count - 1) / PAGE; var page := pages[t];
            var p' := PutPage(pages, t, page[..|page| - 1]);
            && |page| == (count - 1) % PAGE + 1
            && page[|page| - 1] == Flat(pages, count)[count - 1]
            && Shape(p', count - 1) && Flat(p', count - 1) == Flat(pages, count)[..count - 1]
  {
    var last := count - 1;
    var t := last / PAGE;
    SlotStored(pages, count, last);
    SlotParts(last);
    var page := pages[t];
    var p' := PutPage(pages, t, page[..|page| - 1]);
    forall p: nat ensures p in p' <==> p * PAGE < last {
      if p != t { TailPage(p, t, last); }
    }
    forall p: nat | p in p' ensures |p'[p]| == Min(PAGE, last - p * PAGE) {
      if p != t { TailPage(p, t, last); }
    }
    forall i: nat | i < last ensures EntryAt(p', last, i) == EntryAt(pages, count, i) {
      SlotStored(pages, count, i);
      SlotStored(p', last, i);
    }
  }

  // One slot is overwritten.
  lemma OverwrittenFlat(pages: Pages, count: nat, slot: nat, k: Key)
    requires Shape(pages, count) && slot < count
    ensures slot / PAGE in pages && slot % PAGE < |pages[slot / PAGE]|
    ensures var p' := pages[slot / PAGE := pages[slot / PAGE][slot % PAGE := k]];
            Shape(p', count) && Flat(p', count) == Flat(pages, count)[slot := k]
  {
    SlotStored(pages, count, slot);
    SlotParts(slot);
    var p' := pages[slot / PAGE := pages[slot / PAGE][slot % PAGE := k]];
    assert Shape(p', count);
    forall i: nat | i < count ensures EntryAt(p', count, i) == (if i == slot then k else EntryAt(pages, count, i)) {
      SlotStored(pages, count, i);
      SlotParts(i);
    }
  }

  lemma UniqueSlot(a: seq<Key>, k: Key, i: nat)
    requires NoDuplicates(a) && i < |a| && a[i] == k
    ensures IndexOf(a, k) == i
  {
  }

  // From slot `i` on, its page holds the flat sequence up to the page's end, which is
  // the next page boundary or the end of the whole set.
  lemma PageCovers(pages: Pages, count: nat, i: nat)
    requires Shape(pages, count) && i < count
    ensures var p, pos := i / PAGE, i % PAGE;
            && p in pages && pos < |pages[p]|
            && (forall j :: pos <= j < |pages[p]| ==> i + j - pos < count && pages[p][j] == Flat(pages, count)[i + j - pos])
            && (i + |pages[p]| - pos == (p + 1) * PAGE || i + |pages[p]| - pos == count)
  {
    SlotParts(i);
    SlotStored(pages, count, i);
    PageIsSlice(pages, count, i / PAGE);
  }

  lemma PageSpan(i: nat)
    ensures i < (i / PAGE + 1) * PAGE
    ensures forall j :: i <= j < (i / PAGE + 1) * PAGE ==> j / PAGE == i / PAGE
  {
    SlotParts(i);
  }

  lemma NextPage(whole: Pages, count: nat, pages: Pages, lo: nat, i: nat, stop: nat)
    requires Shape(whole, count) && lo <= i < stop <= count && i / PAGE !in pages
    ensures (i / PAGE + 1) * PAGE > i
    ensures Readable(whole, count, pages, lo, Min((i / PAGE + 1) * PAGE, stop)) == Readable(whole, count, pages, lo, i)
  {
    PageSpan(i);
    SkippedPage(whole, count, pages, lo, i, Min((i / PAGE + 1) * PAGE, stop));
  }

  lemma SamePage(pages: Pages, count: nat, i: nat, j: nat)
    requires Shape(pages, count) && i < count && i / PAGE in pages && i % PAGE + j < |pages[i / PAGE]|
    ensures i + j < count && (i + j) / PAGE == i / PAGE && EntryAt(pages, count, i + j) == pages[i / PAGE][i % PAGE + j]
  {
    SlotParts(i);
    PageIsSlice(pages, count, i / PAGE);
    SlotOf(i / PAGE, i % PAGE + j);
  }

  // The pages after the last entry moved into `slot` and left the tail.
  function Compacted(pages: Pages, count: nat, slot: nat): Pages
    requires count > 0 && slot / PAGE in pages && slot % PAGE < |pages[slot / PAGE]|
    requires (count - 1) / PAGE in pages && pages[(count - 1) / PAGE] != []
  {
    var t := (count - 1) / PAGE;
    var o := pages[slot / PAGE := pages[slot / PAGE][slot % PAGE := pages[t][|pages[t]| - 1]]];
    PutPage(o, t, o[t][..|o[t]| - 1])
  }

  lemma CompactedFlat(pages: Pages, count: nat, slot: nat)
    requires Shape(pages, count) && slot < count
    ensures slot / PAGE in pages && slot % PAGE < |pages[slot / PAGE]|
    ensures (count - 1) / PAGE in pages && pages[(count - 1) / PAGE] != []
    ensures var p' := Compacted(pages, count, slot); var f := Flat(pages, count);
            Shape(p', count - 1) && Flat(p', count - 1) == f[slot := f[count - 1]][..count - 1]
    ensures var t := (count - 1) / PAGE; pages[t][|pages[t]| - 1] == Flat(pages, count)[count - 1]
  {
    hide Shape, Flat, PutPage;
    PoppedFlat(pages, count);
    var k := Flat(pages, count)[count - 1];
    OverwrittenFlat(pages, count, slot, k);
    PoppedFlat(pages[slot / PAGE := pages[slot / PAGE][slot % PAGE := k]], count);
  }

  // The contract's three cases, by where the last entry lives, are one compaction.
  lemma TailCases(pages: Pages, count: nat, slot: nat)
    requires Shape(pages, count) && slot < count
    ensures slot / PAGE in pages && slot % PAGE < |pages[slot / PAGE]|
    ensures (count - 1) / PAGE in pages && pages[(count - 1) / PAGE] != []
    ensures var p, pos, t := slot / PAGE, slot % PAGE, (count - 1) / PAGE;
            var page, tail := pages[p], pages[t];
            && (slot == count - 1 ==> PutPage(pages, p, page[..|page| - 1]) == Compacted(pages, count, slot))
            && (slot != count - 1 && p == t ==>
                  PutPage(pages, p, page[pos := page[|page| - 1]][..|page| - 1]) == Compacted(pages, count, slot))
            && (p != t ==> PutPage(PutPage(pages, t, tail[..|tail| - 1]), p, page[pos := tail[|tail| - 1]])
                           == Compacted(pages, count, slot))
  {
    SlotStored(pages, count, slot);
    PoppedFlat(pages, count);
    hide Shape, Flat;
    SlotParts(slot);
    SlotParts(count - 1);
  }

  ghost predicate Indexed(index: map<Key, nat>, a: seq<Key>) {
    forall k :: k in index ==> index[k] < |a| && a[index[k]] == k
  }

  lemma IndexAfterMove(index: map<Key, nat>, a: seq<Key>, slot: nat)
    requires Indexed(index, a) && NoDuplicates(a) && slot < |a|
    ensures var last := |a| - 1; var moved := a[last];
            var b := a[slot := moved][..last];
            && Indexed((if slot == last then index else index[moved := slot]) - {a[slot]}, b)
            && NoDuplicates(b) && b == SwapRemove(a, a[slot])
            && (forall k :: k in b ==> k in a && k != a[slot])
            && (slot != last ==> moved in b)
  {
    UniqueSlot(a, a[slot], slot);
    var last := |a| - 1;
    var b := a[slot := a[last]][..last];
    forall k | k in b ensures k in a && k != a[slot] {
      var i :| 0 <= i < last && b[i] == k;
      assert k == a[if i == slot then last else i];
    }
    assert slot != last ==> b[slot] == a[last];
  }

  lemma AppendedEntries(a: seq<Key>, k: Key)
    requires NoDuplicates(a)
    ensures NoDuplicates(a + [k]) <==> k !in a
  {
    if k in a {
      var b := a + [k];
      assert b[IndexOf(a, k)] == b[|a|];
    }
  }

  // The entries in slots `lo` to `hi` whose pages can be read.
  ghost function Readable(whole: Pages, count: nat, pages: Pages, lo: nat, hi: nat): seq<Key>
    requires Shape(whole, count) && lo <= hi <= count
  {
    if lo == hi then []
    else Readable(whole, count, pages, lo, hi - 1)
         + if (hi - 1) / PAGE in pages then [EntryAt(whole, count, hi - 1)] else []
  }

  lemma NothingToRead(whole: Pages, count: nat, pages: Pages, i: nat)
    requires Shape(whole, count) && i <= count
    ensures Readable(whole, count, pages, i, i) == []
  {
  }

  lemma {:induction false} AllReadable(whole: Pages, count: nat, lo: nat, hi: nat)
    requires Shape(whole, count) && lo <= hi <= count
    ensures Readable(whole, count, whole, lo, hi) == Flat(whole, count)[lo..hi]
  {
    hide Flat, Shape, EntryAt;
    if lo < hi {
      AllReadable(whole, count, lo, hi - 1);
      SlotStored(whole, count, hi - 1);
      ReadableStep(whole, count, whole, lo, hi - 1);
      hide Readable;
      var f := Flat(whole, count);
      assert f[lo..hi] == f[lo..hi - 1] + [f[hi - 1]];
    }
  }

  lemma {:induction false} SkippedPage(whole: Pages, count: nat, pages: Pages, lo: nat, from: nat, hi: nat)
    requires Shape(whole, count) && lo <= from <= hi <= count
    requires forall i :: from <= i < hi ==> i / PAGE !in pages
    ensures Readable(whole, count, pages, lo, hi) == Readable(whole, count, pages, lo, from)
    decreases hi
  {
    if from < hi {
      SkippedPage(whole, count, pages, lo, from, hi - 1);
    }
  }

  lemma ReadableStep(whole: Pages, count: nat, pages: Pages, lo: nat, hi: nat)
    requires Shape(whole, count) && lo <= hi < count
    ensures Readable(whole, count, pages, lo, hi + 1)
         == Readable(whole, count, pages, lo, hi) + if hi / PAGE in pages then [EntryAt(whole, count, hi)] else []
  {
  }

  ghost predicate IsEntry(whole: Pages, count: nat, pages: Pages, slot: nat, k: Key)
    requires Shape(whole, count)
  {
    slot < count && slot / PAGE in pages && k == EntryAt(whole, count, slot)
  }

  ghost predicate AreEntries(whole: Pages, count: nat, pages: Pages, i: nat, part: seq<Key>)
    requires Shape(whole, count)
  {
    forall j: nat :: j < |part| ==> IsEntry(whole, count, pages, i + j, part[j])
  }

  lemma {:induction false} Extended(whole: Pages, count: nat, pages: Pages, lo: nat, i: nat, part: seq<Key>)
    requires Shape(whole, count) && lo <= i && i + |part| <= count
    requires AreEntries(whole, count, pages, i, part)
    ensures Readable(whole, count, pages, lo, i + |part|) == Readable(whole, count, pages, lo, i) + part
    decreases |part|
  {
    hide Shape, EntryAt;
    if part != [] {
      var n: nat := |part| - 1;
      var head, last := part[..n], part[n];
      assert part == head + [last] && IsEntry(whole, count, pages, i + n, part[n]);
      assert AreEntries(whole, count, pages, i, head) by {
        forall j: nat | j < |head| ensures IsEntry(whole, count, pages, i + j, head[j]) {
          assert IsEntry(whole, count, pages, i + j, part[j]);
        }
      }
      Extended(whole, count, pages, lo, i, head);
      hide Readable;
      ReadableStep(whole, count, pages, lo, i + n);
      assert i + n + 1 == i + |part|;
    }
  }

  lemma FoundOnPage(whole: Pages, count: nat, p: nat, pos: nat)
    requires Shape(whole, count) && p in whole && pos < |whole[p]|
    ensures p * PAGE + pos < count && (p * PAGE + pos) / PAGE == p && Flat(whole, count)[p * PAGE + pos] == whole[p][pos]
  {
    PageIsSlice(whole, count, p);
    SlotOf(p, pos);
  }

  lemma NotOnPage(whole: Pages, count: nat, p: nat, k: Key)
    requires Shape(whole, count) && p in whole && k !in whole[p]
    ensures forall i :: p * PAGE <= i < p * PAGE + PAGE && i < count ==> Flat(whole, count)[i] != k
  {
    PageIsSlice(whole, count, p);
    forall i | p * PAGE <= i < p * PAGE + PAGE && i < count ensures Flat(whole, count)[i] != k {
      assert Flat(whole, count)[i] == whole[p][i - p * PAGE];
    }
  }

  lemma NextPageEnds(p: nat)
    ensures (p + 1) * PAGE == p * PAGE + PAGE
    ensures forall i :: p * PAGE <= i < p * PAGE + PAGE ==> i / PAGE == p
  {
  }

  // What the ledger has not archived of the whole.
  ghost predicate Stored(pages: Pages, whole: Pages) {
    forall p :: p in pages ==> p in whole && pages[p] == whole[p]
  }

  lemma StoredPut(pages: Pages, whole: Pages, p: nat, page: seq<Key>)
    requires Stored(pages, whole)
    ensures Stored(PutPage(pages, p, page), PutPage(whole, p, page))
  {
  }

  lemma TailKnown(whole: Pages, count: nat)
    requires Shape(whole, count)
    ensures count / PAGE in whole <==> count % PAGE != 0
  {
    SlotParts(count);
  }

  class PagedSet {
    var pages: Pages
    var index: map<Key, nat>
    var count: nat
    ghost var whole: Pages      // with the pages the ledger has archived

    // Index entries are right while they exist; the ledger may have dropped some, and may
    // have archived pages.
    ghost predicate Valid() reads this {
      && Shape(whole, count) && Stored(pages, whole)
      && NoDuplicates(Contents()) && Indexed(index, Contents())
    }

    // Nothing was dropped or archived.
    ghost predicate Intact() reads this
      requires Shape(whole, count)
    {
      pages == whole && forall k :: k in Contents() ==> k in index
    }

    ghost function Contents(): (s: seq<Key>)
      reads this
      requires Shape(whole, count)
      ensures |s| == count
    {
      Flat(whole, count)
    }

    // The page of the entry can be read.
    ghost predicate InSight(k: Key) reads this
      requires Shape(whole, count)
    {
      k in Contents() && IndexOf(Contents(), k) / PAGE in pages
    }

    constructor ()
      ensures Valid() && Intact() && Contents() == []
    {
      pages, index, count, whole := map[], map[], 0, map[];
    }

    // Page by page, entry by entry; archived pages are skipped.
    method ScanPosition(k: Key) returns (slot: Option<nat>)
      requires Valid()
      ensures slot.Some? ==> slot.value < count && slot.value / PAGE in pages && Contents()[slot.value] == k
      ensures slot.Some? <==> InSight(k)
    {
      if count == 0 { return None; }
      var p, lastPage := 0, (count - 1) / PAGE;
      SlotParts(count - 1);
      while p <= lastPage
        invariant p <= lastPage + 1
        invariant forall i :: 0 <= i < p * PAGE && i < count && i / PAGE in pages ==> Contents()[i] != k
      {
        hide Shape, Flat, NoDuplicates, Indexed;
        if p in pages {
          var pos := ScanPage(pages[p], k);
          if pos.Some? {
            FoundOnPage(whole, count, p, pos.value);
            UniqueSlot(Contents(), k, p * PAGE + pos.value);
            return Some(p * PAGE + pos.value);
          }
          NotOnPage(whole, count, p, k);
        }
        NextPageEnds(p);
        p := p + 1;
      }
      slot := None;
    }

    method ScanPage(page: seq<Key>, k: Key) returns (found: Option<nat>)
      ensures found.Some? ==> found.value < |page| && page[found.value] == k
      ensures found.None? ==> k !in page
    {
      var pos := 0;
      while pos < |page|
        invariant pos <= |page| && k !in page[..pos]
      {
        if page[pos] == k { return Some(pos); }
        pos := pos + 1;
      }
      found := None;
    }

    // Exact as long as the entry has its index entry or its page can be read.
    method Contains(k: Key) returns (found: bool)
      requires Valid()
      ensures found <==> k in index || InSight(k)
      ensures found ==> k in Contents()
      ensures pages == whole ==> (found <==> k in Contents())
    {
      if k in Contents() {
        SlotStored(whole, count, IndexOf(Contents(), k));
      }
      if k in index {
        assert Contents()[index[k]] == k;
        return true;
      }
      var slot := ScanPosition(k);
      found := slot.Some?;
    }

    // A duplicate is refused while its index entry is there, or its page can be read and the
    // set is small enough to scan; else, and only then, the entry ends up in two slots. Nothing
    // is appended to an archived tail page.
    method Add(k: Key) returns (r: Result<()>)
      requires Valid()
      modifies this
      ensures Shape(whole, count) && Stored(pages, whole) && Indexed(index, Contents())
      ensures r == if k in old(index) || (old(count) <= ADD_SCAN_MAX && old(InSight(k))) then Err(EntryAlreadyInActiveSet)
                   else if old(count) % PAGE != 0 && old(count) / PAGE !in old(pages) then Err(TailPageArchived)
                   else Ok(())
      ensures Contents() == if r.Ok? then old(Contents()) + [k] else old(Contents())
      ensures Valid() <==> r.Err? || k !in old(Contents())
      ensures old(Intact()) ==> Intact()
    {
      TailKnown(whole, count);
      if k in index { return Err(EntryAlreadyInActiveSet); }
      if count <= ADD_SCAN_MAX {
        var slot := ScanPosition(k);
        if slot.Some? { return Err(EntryAlreadyInActiveSet); }
      }
      if count % PAGE != 0 && count / PAGE !in pages { return Err(TailPageArchived); }
      Append(k);
      r := Ok(());
    }

    method Append(k: Key)
      requires Valid() && (count / PAGE in pages || count / PAGE !in whole)
      modifies this
      ensures Shape(whole, count) && Stored(pages, whole) && Indexed(index, Contents())
      ensures Contents() == old(Contents()) + [k]
      ensures NoDuplicates(Contents()) <==> k !in old(Contents())
      ensures old(Intact()) ==> Intact()
    {
      hide Shape, Flat, NoDuplicates;
      var p := count / PAGE;
      var page := if p in pages then pages[p] else [];
      AppendedFlat(whole, count, page, k);
      AppendedEntries(Contents(), k);
      var slot := p * PAGE + |page|;
      whole := whole[p := page + [k]];
      pages := pages[p := page + [k]];
      index := index[k := slot];
      count := count + 1;
    }

    // The slot comes from the index when it still points at the entry, else from a scan. An
    // entry whose own page or the tail page is archived stays.
    method Remove(k: Key) returns (removed: bool)
      requires Valid()
      modifies this
      ensures Valid()
      ensures removed <==> old(InSight(k)) && old((count - 1) / PAGE in pages)
      ensures Contents() == if removed then SwapRemove(old(Contents()), k) else old(Contents())
      ensures old(Intact()) ==> Intact() && Contents() == SwapRemove(old(Contents()), k)
      ensures old(Intact()) ==> (removed <==> k in old(Contents()))
    {
      AllInSight(k);
      hide Shape, Flat, NoDuplicates, Indexed, Stored;
      if count == 0 { return false; }
      var slot := Locate(k);
      if slot.None? { return false; }
      if (count - 1) / PAGE !in pages { return false; }
      RemoveAt(k, slot.value);
      removed := true;
    }

    method Locate(k: Key) returns (slot: Option<nat>)
      requires Valid() && count > 0
      ensures slot.Some? <==> InSight(k)
      ensures slot.Some? ==> slot.value < count && slot.value / PAGE in pages && Contents()[slot.value] == k
    {
      slot := if k in index then Some(index[k]) else None;
      var valid := false;
      if slot.Some? {
        SlotStored(whole, count, slot.value);
        UniqueSlot(Contents(), k, slot.value);
        valid := slot.value < count && slot.value / PAGE in pages
                 && slot.value % PAGE < |pages[slot.value / PAGE]|
                 && pages[slot.value / PAGE][slot.value % PAGE] == k;
      }
      if !valid {
        slot := ScanPosition(k);
      }
    }

    lemma AllInSight(k: Key)
      requires Valid()
      ensures pages == whole && k in Contents() ==> InSight(k) && (count - 1) / PAGE in pages
    {
      if k in Contents() {
        SlotStored(whole, count, IndexOf(Contents(), k));
        SlotStored(whole, count, count - 1);
      }
    }

    method RemoveAt(k: Key, slot: nat)
      requires Valid() && slot < count && Contents()[slot] == k
      requires slot / PAGE in pages && (count - 1) / PAGE in pages
      modifies this
      ensures Valid() && Contents() == SwapRemove(old(Contents()), k)
      ensures old(Intact()) ==> Intact()
    {
      hide Shape, Flat, Indexed, NoDuplicates, SwapRemove, Compacted, Stored;
      CompactedFlat(whole, count, slot);
      IndexAfterMove(index, Contents(), slot);
      var moved := Compact(slot);
      if moved.Some? {
        index := index[moved.value := slot];
      }
      index := index - {k};
      count := count - 1;
    }

    // The last entry moves into the slot, and is returned unless it was there already.
    method Compact(slot: nat) returns (moved: Option<Key>)
      requires Valid() && slot < count
      requires slot / PAGE in pages && (count - 1) / PAGE in pages
      modifies this`pages, this`whole
      ensures whole == old(Compacted(whole, count, slot)) && Stored(pages, whole)
      ensures old(pages == whole) ==> pages == whole
      ensures moved == if slot == count - 1 then None else Some(old(Contents()[count - 1]))
    {
      hide Shape, Flat, PutPage, Indexed, NoDuplicates;
      TailCases(whole, count, slot);
      CompactedFlat(whole, count, slot);
      var last := count - 1;
      var p, pos, t := slot / PAGE, slot % PAGE, last / PAGE;
      var page := pages[p];
      moved := None;
      if slot == last {
        page := page[..|page| - 1];
      } else if p == t {
        moved := Some(page[|page| - 1]);
        page := page[pos := moved.value][..|page| - 1];
      } else {
        var tail := pages[t];
        moved := Some(tail[|tail| - 1]);
        page := page[pos := moved.value];
        StoredPut(pages, whole, t, tail[..|tail| - 1]);
        whole := PutPage(whole, t, tail[..|tail| - 1]);
        pages := PutPage(pages, t, tail[..|tail| - 1]);
      }
      StoredPut(pages, whole, p, page);
      whole := PutPage(whole, p, page);
      pages := PutPage(pages, p, page);
    }

    // An archived page is skipped, and everything else of the range is returned in order.
    method GetRange(offset: nat, limit: nat) returns (out: seq<Key>)
      requires Valid()
      ensures out == Readable(whole, count, pages, Min(offset, count), Min(offset + limit, count))
      ensures pages == whole ==> out == Contents()[Min(offset, count)..Min(offset + limit, count)]
    {
      AllReadable(whole, count, Min(offset, count), Min(offset + limit, count));
      hide Shape, Flat, EntryAt, NoDuplicates, Indexed, Readable;
      if offset >= count || limit == 0 {
        NothingToRead(whole, count, pages, Min(offset, count));
        return [];
      }
      out := ReadRange(offset, Min(offset + limit, count));
    }

    method ReadRange(from: nat, stop: nat) returns (out: seq<Key>)
      requires Shape(whole, count) && Stored(pages, whole) && from <= stop <= count
      ensures out == Readable(whole, count, pages, from, stop)
    {
      hide Shape, EntryAt, Readable;
      out := [];
      NothingToRead(whole, count, pages, from);
      var i := from;
      while i < stop
        invariant from <= i <= stop
        invariant out == Readable(whole, count, pages, from, i)
      {
        var p := i / PAGE;
        if p !in pages {
          NextPage(whole, count, pages, from, i, stop);
          i := Min((p + 1) * PAGE, stop);
        } else {
          var part := ReadPage(i, stop);
          Extended(whole, count, pages, from, i, part);
          out := out + part;
          i := i + |part|;
        }
      }
    }

    // From slot `i` to the end of its page, or to `stop`.
    method ReadPage(i: nat, stop: nat) returns (part: seq<Key>)
      requires Shape(whole, count) && Stored(pages, whole)
      requires i < stop <= count && i / PAGE in pages
      ensures 0 < |part| <= stop - i
      ensures AreEntries(whole, count, pages, i, part)
    {
      hide Shape, Flat;
      var page, pos, at := pages[i / PAGE], i % PAGE, i;
      PageCovers(whole, count, i);
      part := [];
      while pos < |page| && at < stop
        invariant |part| == at - i == pos - i % PAGE && at <= stop && pos <= |page|
        invariant forall j :: 0 <= j < |part| ==> part[j] == page[i % PAGE + j]
        decreases |page| - pos
      {
        part := part + [page[pos]];
        pos := pos + 1;
        at := at + 1;
      }
      forall j: nat | j < |part| ensures IsEntry(whole, count, pages, i + j, part[j]) {
        SamePage(whole, count, i, j);
      }
    }
  }
}
