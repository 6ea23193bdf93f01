/** mm/memory.c: the page allocator, copy-on-write fork and page-table teardown. Pages are
    named by their index in `mem_map`; index 0 is never handed out and stands for failure. */
module Memory {
  import opened PageRefs

  const USED: nat := 100

  /** The n pages from `base` on are free, and page 0 is not among them. */
  ghost predicate FreeRun(count: seq<nat>, base: int, n: nat) {
    1 <= base && base + n <= |count| && forall i :: base <= i < base + n ==> count[i] == 0
  }

  /** How far a copy or a teardown has come: rows below i, and entries below j of row i. */
  predicate Before(k: int, e: int, i: int, j: int) {
    k < i || (k == i && e < j)
  }

  /** Directory c has a table for each of the first `rows` present rows of d from b on. */
  ghost predicate TablesCopied(m: Mem, n: Mem, d: nat, b: nat, c: nat, rows: nat) {
    && (forall y :: y in n.tabs && y !in m.tabs ==> y.d == c)
    && (forall k: nat :: Td(c, k) in n.tabs <==> k < rows && Td(d, b + k) in m.tabs)
    && (forall y :: y in m.tabs ==> y in n.tabs && n.tabs[y] == m.tabs[y])
  }

  /** The entries of m keep their pages; only entries of d already copied lose write access. */
  ghost predicate OriginalsKept(m: Mem, n: Mem, d: nat, b: nat, i: nat, j: nat) {
    forall x :: x in m.leaves ==>
      && x in n.leaves && n.leaves[x].page == m.leaves[x].page
      && n.leaves[x].w == (m.leaves[x].w && !(x.d == d && b <= x.k && Before(x.k - b, x.j, i, j)))
  }

  /** The entries added to m are read-only copies, in directory c, of entries of d. */
  ghost predicate CopiesMade(m: Mem, n: Mem, d: nat, b: nat, c: nat, i: nat, j: nat) {
    && (forall x :: x in n.leaves && x !in m.leaves ==> x.d == c)
    && (forall k: nat, e: nat ::
          Va(c, k, e) in n.leaves <==> Before(k, e, i, j) && Va(d, b + k, e) in m.leaves)
    && (forall k: nat, e: nat :: Va(c, k, e) in n.leaves ==>
          Va(d, b + k, e) in m.leaves && n.leaves[Va(c, k, e)] == Pte(m.leaves[Va(d, b + k, e)].page, false))
  }

  /** Pages of d not yet copied still have their old counts. */
  ghost predicate UncopiedCounts(m: Mem, n: Mem, d: nat, b: nat, i: nat, j: nat) {
    && |n.count| == |m.count|
    && forall x ::
         x in m.leaves && x.d == d && b <= x.k && !Before(x.k - b, x.j, i, j) && m.leaves[x].page < |m.count| ==>
         n.count[m.leaves[x].page] == m.count[m.leaves[x].page]
  }

  ghost predicate CopiedSoFar(m: Mem, n: Mem, d: nat, b: nat, c: nat, rows: nat, i: nat, j: nat) {
    && n.other == m.other
    && TablesCopied(m, n, d, b, c, rows) && OriginalsKept(m, n, d, b, i, j)
    && CopiesMade(m, n, d, b, c, i, j) && UncopiedCounts(m, n, d, b, i, j)
  }

  /** n is m without rows [lo, hi) of directory d, and without row hi's entries below j. */
  ghost predicate DroppedSoFar(m: Mem, n: Mem, d: nat, lo: nat, hi: nat, j: nat) {
    && n.other == m.other && |n.count| == |m.count|
    && (forall y :: y in n.tabs <==> y in m.tabs && !(y.d == d && lo <= y.k < hi))
    && (forall y :: y in n.tabs ==> y in m.tabs && n.tabs[y] == m.tabs[y])
    && (forall x :: x in n.leaves <==> x in m.leaves && !(x.d == d && lo <= x.k && Before(x.k, x.j, hi, j)))
    && (forall x :: x in n.leaves ==> x in m.leaves && n.leaves[x] == m.leaves[x])
  }

  /** Only page 0 may be free. */
  ghost predicate NoPageFree(count: seq<nat>) {
    forall i | 1 <= i < |count| :: count[i] != 0
  }

  /** The only change of counts is a free page taken. */
  ghost predicate TookTable(before: seq<nat>, after: seq<nat>, p: nat) {
    1 <= p < |before| && before[p] == 0 && after == before[p := 1]
  }

  /** The references outside the tables after `put_page`: the page put has none, and the page
      of an entry that was present has one more. */
  ghost function AfterPut(other: seq<nat>, leaves: map<Va, Pte>, x: Va, page: nat): (after: seq<nat>)
    requires page < |other|
    ensures |after| == |other|
  {
    seq(|other|, q requires 0 <= q < |other| =>
      if q == page then 0 else other[q] + if x in leaves && leaves[x].page == q then 1 else 0)
  }

  class MemoryMap {
    const memMap: array<nat>
    var tabs: map<Td, nat>
    var leaves: map<Va, Pte>
    ghost var other: seq<nat>

    ghost function State(): Mem
      reads this, memMap
    {
      Mem(memMap[..], tabs, leaves, other)
    }

    /** The invariant, and a run of single steps from `mem_init` that leads here. */
    ghost predicate Valid()
      reads this, memMap
    {
      memMap.Length >= 1 && Safe(State()) && Reachable(State())
    }

    /** `mem_init`: everything is in use except n pages from `start` on. */
    constructor (pages: nat, start: nat, n: nat)
      requires pages >= 1 && start + n <= pages
      ensures Valid() && fresh(memMap) && memMap.Length == pages
      ensures tabs == map[] && leaves == map[]
      ensures forall i :: 0 <= i < pages ==> memMap[i] == if start <= i < start + n then 0 else USED
    {
      memMap := new nat[pages](_ => USED);
      tabs, leaves := map[], map[];
      new;
      var i := start;
      var left := n;
      while left > 0
        invariant 0 <= left <= n && i == start + (n - left)
        invariant fresh(memMap) && tabs == map[] && leaves == map[]
        invariant forall k :: 0 <= k < pages ==> memMap[k] == if start <= k < i then 0 else USED
      {
        memMap[i] := 0;
        i := i + 1;
        left := left - 1;
      }
      other := memMap[..];
      assert Fresh(State());
      FreshSafe(State());
      FreshReachable(State());
    }

    /** `get_free_page`: the highest free page, which nothing points at. */
    method GetFreePage() returns (p: nat)
      requires Valid()
      modifies this`other, memMap
      ensures Valid()
      ensures p == 0 ==> State() == old(State()) && forall i :: 1 <= i < memMap.Length ==> memMap[i] != 0
      ensures p != 0 ==>
                && p < memMap.Length && old(memMap[p]) == 0
                && (forall i :: p < i < memMap.Length ==> old(memMap[i]) != 0)
                && State() == Take(old(State()), p)
                && Unreferenced(old(State()), p)
    {
      hide Safe, Reachable, Unreferenced;
      assert |other| == memMap.Length by { SizesMatch(); }
      var i := memMap.Length - 1;
      while i != 0
        invariant 0 <= i < memMap.Length
        invariant forall k :: i < k < memMap.Length ==> memMap[k] != 0
      {
        if memMap[i] == 0 {
          TakeSafe(State(), i);
          Reached(State(), TakeOp(i));
          memMap[i] := 1;
          other := other[i := 1];
          return i;
        }
        i := i - 1;
      }
      return 0;
    }

    lemma SizesMatch()
      requires Valid()
      ensures |other| == memMap.Length
    {
    }

    /** The search of `get_free_pages`. After a page in use at j, no run can reach over j,
        so the scan goes on below it. For n = 0 the source's unsigned `pagenum - 1` is the
        largest number, so the loop is never entered. */
    method FindRun(n: nat) returns (r: nat)
      requires memMap.Length >= 1
      ensures r == 0 ==> n > 0 ==> forall b :: !FreeRun(memMap[..], b, n)
      ensures r != 0 ==> n > 0 && FreeRun(memMap[..], r, n) && forall b :: b > r ==> !FreeRun(memMap[..], b, n)
    {
      var i: nat := memMap.Length - 1;
      while n != 0 && i > n - 1
        invariant 0 <= i < memMap.Length
        invariant forall b :: b + n - 1 > i ==> !FreeRun(memMap[..], b, n)
      {
        var exist := false;
        var j: nat := i;
        while j >= i - n + 1
          invariant i - n <= j <= i
          invariant forall k :: j < k <= i ==> memMap[k] == 0
        {
          if memMap[j] != 0 {
            exist := true;
            break;
          }
          j := j - 1;
        }
        if exist {
          NoRunOver(memMap[..], j, n);
          i := j - 1;
        } else {
          return i - n + 1;
        }
      }
      return 0;
    }

    /** `get_free_pages`: the highest run of n free pages, or 0 when there is none. */
    method GetFreePages(n: nat) returns (r: nat)
      requires Valid()
      modifies this`other, memMap
      ensures Valid() && |other| == memMap.Length
      ensures r == 0 ==> State() == old(State()) && (n > 0 ==> forall b :: !FreeRun(memMap[..], b, n))
      ensures r != 0 ==>
                && n > 0 && FreeRun(old(memMap[..]), r, n) && (forall b :: b > r ==> !FreeRun(old(memMap[..]), b, n))
                && (forall k :: 0 <= k < memMap.Length ==> memMap[k] == if r <= k < r + n then 1 else old(memMap[k]))
                && (forall k :: 0 <= k < memMap.Length ==> other[k] == if r <= k < r + n then 1 else old(other)[k])
    {
      hide Safe, Reachable, FreeRun;
      SizesMatch();
      r := FindRun(n);
      if r != 0 {
        MarkRun(r, n);
      }
    }

    method MarkRun(base: nat, n: nat)
      requires Valid() && FreeRun(memMap[..], base, n)
      modifies this`other, memMap
      ensures Valid() && |other| == memMap.Length
      ensures forall k :: 0 <= k < memMap.Length ==> memMap[k] == if base <= k < base + n then 1 else old(memMap[k])
      ensures forall k :: 0 <= k < memMap.Length ==> other[k] == if base <= k < base + n then 1 else old(other)[k]
    {
      hide Safe, Reachable;
      SizesMatch();
      var j := base + n - 1;
      while j >= base
        invariant base - 1 <= j <= base + n - 1
        invariant Valid() && |other| == memMap.Length
        invariant forall k :: 0 <= k < memMap.Length ==> memMap[k] == if j < k < base + n then 1 else old(memMap[k])
        invariant forall k :: 0 <= k < memMap.Length ==> other[k] == if j < k < base + n then 1 else old(other)[k]
      {
        TakeSafe(State(), j);
        Reached(State(), TakeOp(j));
        ghost var next := Take(State(), j);
        memMap[j] := 1;
        other := other[j := 1];
        assert State() == next;
        j := j - 1;
      }
    }

    /** `free_page` on a page the kernel holds; on a free page the kernel panics. */
    method FreePage(p: nat)
      requires Valid() && p < memMap.Length && p < |other| && other[p] > 0
      modifies this`other, memMap
      ensures Valid() && State() == Give(old(State()), p)
    {
      hide Safe, Reachable;
      SizesMatch();
      GiveSafe(State(), p);
      Reached(State(), GiveOp(p));
      memMap[p] := memMap[p] - 1;
      other := other[p := other[p] - 1];
    }

    method FreePages(base: nat, n: nat)
      requires Valid() && base + n <= memMap.Length && |other| == memMap.Length
      requires forall k :: base <= k < base + n ==> other[k] > 0
      modifies this`other, memMap
      ensures Valid() && |other| == memMap.Length
      ensures forall k :: 0 <= k < memMap.Length ==>
                memMap[k] + (if base <= k < base + n then 1 else 0) == old(memMap[k])
      ensures forall k :: 0 <= k < memMap.Length ==>
                other[k] + (if base <= k < base + n then 1 else 0) == old(other)[k]
    {
      hide Safe, Reachable;
      var i := 0;
      while i < n
        invariant 0 <= i <= n && Valid() && |other| == memMap.Length
        invariant forall k :: 0 <= k < memMap.Length ==>
                    memMap[k] + (if base <= k < base + i then 1 else 0) == old(memMap[k])
        invariant forall k :: 0 <= k < memMap.Length ==>
                    other[k] + (if base <= k < base + i then 1 else 0) == old(other)[k]
      {
        FreePage(base + i);
        i := i + 1;
      }
    }

    /** Allocating a run and freeing it again restores the map. */
    method AllocateAndFree(n: nat) returns (r: nat)
      requires Valid()
      modifies this`other, memMap
      ensures Valid() && memMap[..] == old(memMap[..])
    {
      hide Safe, Reachable, FreeRun;
      SizesMatch();
      r := GetFreePages(n);
      if r != 0 {
        assert r + n <= memMap.Length by { RunInside(old(memMap[..]), r, n); }
        FreePages(r, n);
        assert forall k :: r <= k < r + n ==> old(memMap[k]) == 0 by { RunInside(old(memMap[..]), r, n); }
      }
    }

    /** `put_page` of a page the kernel just got. An entry that is already present loses its
        page, whose count nobody will lower again: that page, and no other, gains a reference
        outside the tables. */
    method PutPage(page: nat, x: Va) returns (r: nat)
      requires Valid() && x.j < ENTRIES
      requires 1 <= page < memMap.Length && page < |other| && memMap[page] == 1 && other[page] == 1
      modifies this, memMap
      ensures Valid() && |other| == |old(other)|
      ensures r == 0 ==> State() == old(State()) && Td(x.d, x.k) !in tabs && NoPageFree(memMap[..])
      ensures r != 0 ==>
                && r == page && leaves == old(leaves)[x := Pte(page, true)]
                && Td(x.d, x.k) in tabs && tabs - {Td(x.d, x.k)} == old(tabs) - {Td(x.d, x.k)}
                && (Td(x.d, x.k) in old(tabs) ==> tabs == old(tabs) && memMap[..] == old(memMap[..]))
                && (Td(x.d, x.k) !in old(tabs) ==> TookTable(old(memMap[..]), memMap[..], tabs[Td(x.d, x.k)]))
                && other == AfterPut(old(other), old(leaves), x, page)
    {
      hide Safe, Reachable, AfterPut;
      SizesMatch();
      if Td(x.d, x.k) !in tabs {
        var tmp := GetFreePage();
        if tmp == 0 {
          return 0;
        }
        FreePageUncounted(old(State()), tmp);
        InstallTable(Td(x.d, x.k), tmp);
        assert other == old(other);
      }
      Install(page, x);
      return page;
    }

    /** A page the kernel holds becomes an empty page table. */
    method InstallTable(y: Td, p: nat)
      requires Valid() && y !in tabs && 1 <= p < memMap.Length && p < |other| && memMap[p] == 1 && other[p] == 1
      modifies this`tabs, this`other
      ensures Valid() && State() == AddTable(old(State()), y, p)
    {
      hide Safe, Reachable;
      SizesMatch();
      AddTableSafe(State(), y, p);
      Reached(State(), AddTableOp(y, p));
      tabs := tabs[y := p];
      other := other[p := 0];
    }

    method Install(page: nat, x: Va)
      requires Valid() && x.j < ENTRIES && Td(x.d, x.k) in tabs
      requires 1 <= page < memMap.Length && page < |other| && memMap[page] == 1 && other[page] == 1
      modifies this`leaves, this`other
      ensures Valid() && leaves == old(leaves)[x := Pte(page, true)]
      ensures other == AfterPut(old(other), old(leaves), x, page)
    {
      hide Safe, Reachable;
      ghost var m := State();
      PagesInRange(m);
      if x in leaves {
        ForgetLeafSafe(m, x);
        Reached(m, ForgetOp(x));
        UnreferencedPage(m, page, x);
        m := ForgetLeaf(m, x);
      }
      MapPageSafe(m, x, page);
      Reached(m, MapOp(x, page));
      leaves := leaves[x := Pte(page, true)];
      other := MapPage(m, x, page).other;
      assert State() == MapPage(m, x, page);
    }

    /** `un_wp_page`: write access to a present entry. A page with count 1 is made writable
        in place; otherwise the entry moves to a fresh page. With no page left the task is
        killed and nothing changes. */
    method UnWriteProtect(x: Va) returns (ok: bool)
      requires Valid() && x in leaves
      modifies this, memMap
      ensures Valid() && tabs == old(tabs) && other == old(other)
      ensures !ok ==> State() == old(State()) && NoPageFree(memMap[..]) && memMap[..][leaves[x].page] != 1
      ensures ok ==>
                && x in leaves && leaves == old(leaves)[x := Pte(leaves[x].page, true)]
                && (leaves[x].page == old(leaves)[x].page || Unreferenced(old(State()), leaves[x].page))
                && (leaves[x].page == old(leaves)[x].page <==> old(memMap[..])[old(leaves)[x].page] == 1)
    {
      hide Safe, Reachable, Unreferenced;
      SizesMatch();
      PagesInRange(State());
      var oldPage := leaves[x].page;
      if memMap[oldPage] == 1 {
        MakeWritableSafe(State(), x);
        Reached(State(), WriteOp(x));
        leaves := leaves[x := Pte(oldPage, true)];
        return true;
      }
      var newPage := GetFreePage();
      if newPage == 0 {
        return false;
      }
      assert newPage != oldPage by { MappedIsCounted(old(State()), x); }
      FreePageUncounted(old(State()), newPage);
      MoveLeaf(x, newPage);
      return true;
    }

    method MoveLeaf(x: Va, newPage: nat)
      requires Valid() && x in leaves && 1 <= newPage < memMap.Length && newPage < |other|
      requires memMap[newPage] == 1 && other[newPage] == 1
      modifies this`leaves, this`other, memMap
      ensures Valid() && leaves == old(leaves)[x := Pte(newPage, true)] && other == old(other)[newPage := 0]
    {
      hide Safe, Reachable;
      SizesMatch();
      PagesInRange(State());
      UnreferencedPage(State(), newPage, x);
      DropLeafSafe(State(), x);
      Reached(State(), DropLeafOp(x));
      ghost var m := DropLeaf(State(), x);
      var oldPage := leaves[x].page;
      memMap[oldPage] := memMap[oldPage] - 1;
      KeepsTable(m, old(State()), x);
      MapPageSafe(m, x, newPage);
      Reached(m, MapOp(x, newPage));
      leaves := leaves[x := Pte(newPage, true)];
      other := other[newPage := 0];
      assert State() == MapPage(m, x, newPage);
    }

    /** `write_verify`: an entry that is absent or already writable is left alone. */
    method WriteVerify(x: Va) returns (ok: bool)
      requires Valid()
      modifies this, memMap
      ensures Valid() && tabs == old(tabs) && other == old(other)
      ensures !ok ==> State() == old(State()) && NoPageFree(memMap[..])
      ensures x in old(leaves) && ok ==> x in leaves && leaves == old(leaves)[x := Pte(leaves[x].page, true)]
      ensures x !in old(leaves) || old(leaves)[x].w ==> State() == old(State())
    {
      hide Safe, Reachable, Unreferenced;
      ok := true;
      assert Td(x.d, x.k) !in tabs ==> x !in leaves by { LeavesInTables(State(), x); }
      if Td(x.d, x.k) !in tabs {
        return;
      }
      if x in leaves && !leaves[x].w {
        ok := UnWriteProtect(x);
      } else {
        assert x in leaves ==> leaves == leaves[x := Pte(leaves[x].page, true)];
      }
    }

    /** `copy_page_tables` into an empty directory c: n directory entries of d from b on are
        copied, each page shared read-only by both. The counts are bytes, so no page to be
        shared may already have 255 references. */
    method CopyPageTables(d: nat, b: nat, c: nat, n: nat) returns (r: int)
      requires Valid() && EmptyDirectory(State(), c) && c != d && RoomToShare(State(), d)
      modifies this, memMap
      ensures Valid() && (r == 0 || r == -1)
      ensures r == 0 ==> CopiedSoFar(old(State()), State(), d, b, c, n, n, 0)
      ensures r == -1 ==> NoPageFree(memMap[..]) && exists i: nat | i < n ::
              CopiedSoFar(old(State()), State(), d, b, c, i, i, 0)
    {
      hide Safe, Reachable, EmptyDirectory, RoomToShare, CopiedSoFar;
      ghost var m := State();
      NothingCopied(m, d, b, c);
      var i := 0;
      while i < n
        invariant 0 <= i <= n && Valid()
        invariant CopiedSoFar(m, State(), d, b, c, i, i, 0)
      {
        SourceTableKept(m, State(), d, b, c, i);
        if Td(d, b + i) in tabs {
          var ok := CopyTable(m, d, b, c, i);
          if !ok {
            return -1;
          }
        } else {
          RowAbsent(m, State(), d, b, c, i);
        }
        i := i + 1;
      }
      return 0;
    }

    /** One directory entry: a fresh table in c, then its 512 entries. */
    method CopyTable(ghost m: Mem, d: nat, b: nat, c: nat, i: nat) returns (ok: bool)
      requires Valid() && Safe(m) && EmptyDirectory(m, c) && c != d && RoomToShare(m, d)
      requires CopiedSoFar(m, State(), d, b, c, i, i, 0) && Td(d, b + i) in m.tabs
      modifies this, memMap
      ensures Valid()
      ensures ok ==> CopiedSoFar(m, State(), d, b, c, i + 1, i + 1, 0)
      ensures !ok ==> State() == old(State()) && NoPageFree(memMap[..])
    {
      hide Safe, Reachable, EmptyDirectory, RoomToShare, CopiedSoFar, Unreferenced;
      ghost var n := State();
      SizesMatch();
      var page := GetFreePage();
      if page == 0 {
        return false;
      }
      NewTableCopied(m, n, d, b, c, i, page);
      InstallTable(Td(c, i), page);
      var j := 0;
      while j < ENTRIES
        invariant 0 <= j <= ENTRIES && Valid()
        invariant CopiedSoFar(m, State(), d, b, c, i + 1, i, j)
      {
        var x, y := Va(d, b + i, j), Va(c, i, j);
        if x in leaves {
          ShareAdvances(m, State(), d, b, c, i, j);
          ShareSafe(State(), x, y);
          SizesMatch();
          Reached(State(), ShareOp(y, x));
          ghost var next := Share(State(), x, y);
          var p := leaves[x].page;
          leaves := leaves[y := Pte(p, false)][x := Pte(p, false)];
          memMap[p] := (memMap[p] + 1) % 256;
          assert State() == next;
        } else {
          SkipAdvances(m, State(), d, b, c, i, j);
        }
        j := j + 1;
      }
      RowCopied(m, State(), d, b, c, i);
      return true;
    }

    /** `free_page_tables` on the active directory d: n directory entries from lo on. */
    method FreePageTables(d: nat, lo: nat, n: nat)
      requires Valid()
      modifies this, memMap
      ensures Valid() && DroppedSoFar(old(State()), State(), d, lo, lo + n, 0)
    {
      hide Safe, Reachable, DroppedSoFar;
      ghost var m := State();
      NothingDropped(m, d, lo);
      var k := lo;
      while k < lo + n
        invariant lo <= k <= lo + n && Valid()
        invariant DroppedSoFar(m, State(), d, lo, k, 0)
      {
        if Td(d, k) in tabs {
          FreeTable(m, d, lo, k);
        } else {
          RowNotThere(m, State(), d, lo, k);
        }
        k := k + 1;
      }
    }

    /** One directory entry: every present entry gives up its page, then the table goes. */
    method FreeTable(ghost m: Mem, d: nat, lo: nat, k: nat)
      requires Valid() && Safe(m) && lo <= k && DroppedSoFar(m, State(), d, lo, k, 0) && Td(d, k) in tabs
      modifies this, memMap
      ensures Valid() && DroppedSoFar(m, State(), d, lo, k + 1, 0)
    {
      hide Safe, Reachable, DroppedSoFar, Shaped;
      var nr := 0;
      while nr < ENTRIES
        invariant 0 <= nr <= ENTRIES && Valid() && Td(d, k) in tabs
        invariant DroppedSoFar(m, State(), d, lo, k, nr)
      {
        var x := Va(d, k, nr);
        if x in leaves {
          PagesInRange(State());
          DropLeafSafe(State(), x);
          Reached(State(), DropLeafOp(x));
          DropAdvances(m, State(), d, lo, k, nr);
          ghost var next := DropLeaf(State(), x);
          var p := leaves[x].page;
          memMap[p] := memMap[p] - 1;
          leaves := leaves - {x};
          assert State() == next;
        } else {
          AbsentAdvances(m, State(), d, lo, k, nr);
        }
        nr := nr + 1;
      }
      PagesInRange(State());
      PagesInRange(m);
      RowEmpty(m, State(), d, lo, k);
      DropTableSafe(State(), Td(d, k));
      Reached(State(), DropTableOp(Td(d, k)));
      TableDropped(m, State(), d, lo, k);
      ghost var next := DropTable(State(), Td(d, k));
      var p := tabs[Td(d, k)];
      memMap[p] := memMap[p] - 1;
      tabs := tabs - {Td(d, k)};
      assert State() == next;
    }

    /** Fork followed by teardown of the child: all counts and tables are as before, and
        every entry of the parent still maps the same page. */
    method ForkAndTearDown(d: nat, b: nat, c: nat, n: nat) returns (r: int)
      requires Valid() && EmptyDirectory(State(), c) && c != d && RoomToShare(State(), d)
      modifies this, memMap
      ensures Valid()
      ensures r == 0 ==>
                && memMap[..] == old(memMap[..]) && tabs == old(tabs)
                && leaves.Keys == old(leaves).Keys
                && forall x :: x in leaves ==> leaves[x].page == old(leaves)[x].page
    {
      hide Safe, Reachable, EmptyDirectory, RoomToShare, CopiedSoFar, DroppedSoFar;
      ghost var m := State();
      r := CopyPageTables(d, b, c, n);
      if r == 0 {
        ghost var forked := State();
        FreePageTables(c, 0, n);
        TornDown(m, forked, State(), d, b, c, n);
        CountsDetermined(m, State());
      }
    }
  }

  /** Putting two pages at the same address, one after the other, loses the first: its count
      stays 1 although nothing refers to it. */
  method LosePage() returns (k: MemoryMap, lost: nat)
    ensures k.Valid() && 1 <= lost < k.memMap.Length && k.memMap[lost] == 1
    ensures Unreferenced(k.State(), lost) && k.leaves.Keys == {Va(0, 0, 0)}
  {
    hide Safe, Reachable, Unreferenced;
    k := new MemoryMap(4, 1, 3);
    k.SizesMatch();
    assert k.memMap[3] == 0 && k.memMap[1] == 0;
    lost := k.GetFreePage();
    assert lost != 0;
    ghost var one := k.memMap[..];
    assert one[1] == 0;
    var r := k.PutPage(lost, Va(0, 0, 0));
    assert r != 0;
    ghost var two := k.memMap[..];
    assert two[1] == 0 || two[2] == 0;
    var b := k.GetFreePage();
    assert b != 0;
    r := k.PutPage(b, Va(0, 0, 0));
    UnreferencedIfCounted(k.State(), lost);
  }

  /** A page with count 0 has no reference outside the tables either. */
  lemma FreePageUncounted(m: Mem, p: nat)
    requires Safe(m) && p < |m.count| && m.count[p] == 0
    ensures |m.other| == |m.count| && m.other[p] == 0
  {
  }

  lemma RunInside(count: seq<nat>, base: int, n: nat)
    requires FreeRun(count, base, n)
    ensures base + n <= |count| && forall i :: base <= i < base + n ==> count[i] == 0
  {
  }

  /** A page in use rules out every run over it. */
  lemma NoRunOver(count: seq<nat>, j: nat, n: nat)
    requires j < |count| && count[j] != 0
    ensures forall b :: b <= j < b + n ==> !FreeRun(count, b, n)
  {
  }

  lemma PagesInRange(m: Mem)
    requires Safe(m)
    ensures |m.other| == |m.count| && Shaped(m)
    ensures forall x :: x in m.leaves ==> 1 <= m.leaves[x].page < |m.count|
    ensures forall y :: y in m.tabs ==> 1 <= m.tabs[y] < |m.count|
  {
  }

  lemma LeavesInTables(m: Mem, x: Va)
    requires Safe(m)
    ensures Td(x.d, x.k) !in m.tabs ==> x !in m.leaves
  {
  }

  lemma MappedIsCounted(m: Mem, x: Va)
    requires Safe(m) && x in m.leaves
    ensures m.count[m.leaves[x].page] >= 1
  {
    ReferencedIsCounted(m, Leaf(x), m.leaves[x].page);
  }

  lemma UnreferencedPage(m: Mem, page: nat, x: Va)
    requires Safe(m) && x in m.leaves && page < |m.count| && m.count[page] == m.other[page]
    ensures m.leaves[x].page != page
  {
    UnreferencedIfCounted(m, page);
  }

  lemma KeepsTable(n: Mem, m: Mem, x: Va)
    requires Safe(m) && x in m.leaves && n.tabs == m.tabs
    ensures Td(x.d, x.k) in n.tabs && x.j < ENTRIES
  {
  }

  ghost predicate EmptyDirectory(m: Mem, c: nat) {
    (forall y :: y in m.tabs ==> y.d != c) && (forall x :: x in m.leaves ==> x.d != c)
  }

  ghost predicate RoomToShare(m: Mem, d: nat) {
    forall x :: x in m.leaves && x.d == d && m.leaves[x].page < |m.count| ==> m.count[m.leaves[x].page] < MAX_COUNT
  }

  /** With fewer than 255 directories and no lost reference to a page of d, there is always
      room to fork. */
  lemma RoomWithoutLosses(m: Mem, d: nat, dirs: set<nat>)
    requires Safe(m) && |dirs| < MAX_COUNT && forall x :: x in m.leaves ==> x.d in dirs
    requires forall x :: x in m.leaves && x.d == d ==> m.other[m.leaves[x].page] == 0
    ensures RoomToShare(m, d)
  {
    forall x | x in m.leaves && x.d == d
      ensures m.count[m.leaves[x].page] < MAX_COUNT
    {
      NoOverflow(m, x, dirs);
    }
  }

  lemma NothingCopied(m: Mem, d: nat, b: nat, c: nat)
    requires Safe(m) && EmptyDirectory(m, c)
    ensures CopiedSoFar(m, m, d, b, c, 0, 0, 0)
  {
  }

  lemma SourceTableKept(m: Mem, n: Mem, d: nat, b: nat, c: nat, i: nat)
    requires CopiedSoFar(m, n, d, b, c, i, i, 0) && c != d
    ensures Td(d, b + i) in n.tabs <==> Td(d, b + i) in m.tabs
  {
  }

  lemma RowAbsent(m: Mem, n: Mem, d: nat, b: nat, c: nat, i: nat)
    requires Safe(m) && CopiedSoFar(m, n, d, b, c, i, i, 0) && Td(d, b + i) !in m.tabs
    ensures CopiedSoFar(m, n, d, b, c, i + 1, i + 1, 0)
  {
    hide TablesCopied, CopiesMade, OriginalsKept, UncopiedCounts;
    assert forall x :: x in m.leaves ==> !(x.d == d && x.k == b + i);
    hide Safe, Reachable;
    AbsentRowCopies(m, n, d, b, c, i);
    AbsentRowOriginals(m, n, d, b, i);
  }

  lemma AbsentRowOriginals(m: Mem, n: Mem, d: nat, b: nat, i: nat)
    requires forall x :: x in m.leaves ==> !(x.d == d && x.k == b + i)
    requires OriginalsKept(m, n, d, b, i, 0) && UncopiedCounts(m, n, d, b, i, 0)
    ensures OriginalsKept(m, n, d, b, i + 1, 0) && UncopiedCounts(m, n, d, b, i + 1, 0)
  {
  }

  lemma AbsentRowCopies(m: Mem, n: Mem, d: nat, b: nat, c: nat, i: nat)
    requires forall x :: x in m.leaves ==> !(x.d == d && x.k == b + i)
    requires TablesCopied(m, n, d, b, c, i) && CopiesMade(m, n, d, b, c, i, 0) && Td(d, b + i) !in m.tabs
    ensures TablesCopied(m, n, d, b, c, i + 1) && CopiesMade(m, n, d, b, c, i + 1, 0)
  {
  }

  /** A fresh page becomes table i of directory c. */
  lemma NewTableCopied(m: Mem, n: Mem, d: nat, b: nat, c: nat, i: nat, page: nat)
    requires Safe(m) && Safe(n) && EmptyDirectory(m, c) && c != d
    requires CopiedSoFar(m, n, d, b, c, i, i, 0) && Td(d, b + i) in m.tabs
    requires 1 <= page < |n.count| && n.count[page] == 0
    ensures Td(c, i) !in n.tabs
    ensures |Take(n, page).other| == |n.count|
    ensures CopiedSoFar(m, AddTable(Take(n, page), Td(c, i), page), d, b, c, i + 1, i, 0)
  {
    var n2 := AddTable(Take(n, page), Td(c, i), page);
    FreePageUncounted(n, page);
    assert n2.other == n.other && n2.leaves == n.leaves && n2.tabs == n.tabs[Td(c, i) := page];
    assert |n2.count| == |n.count| && forall q :: 0 <= q < |n.count| && q != page ==> n2.count[q] == n.count[q];
    UnreferencedIfCounted(n, page);
    hide Safe, Refs, TablesCopied, CopiesMade, OriginalsKept, UncopiedCounts, EmptyDirectory, Unreferenced, Take,
      AddTable;
    NewTableRow(m, n, n2, d, b, c, i);
    NewTableCounts(m, n, n2, d, b, i, page);
    OriginalsDependOnLeaves(m, n, n2, d, b, i, 0);
    CopiesDependOnLeaves(m, n, n2, d, b, c, i, 0);
  }

  lemma OriginalsDependOnLeaves(m: Mem, n: Mem, n2: Mem, d: nat, b: nat, i: nat, j: nat)
    requires OriginalsKept(m, n, d, b, i, j) && n2.leaves == n.leaves
    ensures OriginalsKept(m, n2, d, b, i, j)
  {
  }

  lemma CopiesDependOnLeaves(m: Mem, n: Mem, n2: Mem, d: nat, b: nat, c: nat, i: nat, j: nat)
    requires CopiesMade(m, n, d, b, c, i, j) && n2.leaves == n.leaves
    ensures CopiesMade(m, n2, d, b, c, i, j)
  {
  }

  lemma NewTableRow(m: Mem, n: Mem, n2: Mem, d: nat, b: nat, c: nat, i: nat)
    requires EmptyDirectory(m, c) && TablesCopied(m, n, d, b, c, i) && Td(d, b + i) in m.tabs
    requires n2.tabs.Keys == n.tabs.Keys + {Td(c, i)} && forall y :: y in n.tabs && y != Td(c, i) ==>
             n2.tabs[y] == n.tabs[y]
    ensures Td(c, i) !in n.tabs && TablesCopied(m, n2, d, b, c, i + 1)
  {
  }

  lemma NewTableCounts(m: Mem, n: Mem, n2: Mem, d: nat, b: nat, i: nat, page: nat)
    requires OriginalsKept(m, n, d, b, i, 0) && UncopiedCounts(m, n, d, b, i, 0) && Unreferenced(n, page)
    requires |n2.count| == |n.count| && forall q :: 0 <= q < |n.count| && q != page ==> n2.count[q] == n.count[q]
    ensures UncopiedCounts(m, n2, d, b, i, 0)
  {
  }

  /** Sharing one entry advances the copy by one entry. */
  lemma ShareAdvances(m: Mem, n: Mem, d: nat, b: nat, c: nat, i: nat, j: nat)
    requires Safe(m) && Safe(n) && EmptyDirectory(m, c) && c != d && RoomToShare(m, d) && j < ENTRIES
    requires CopiedSoFar(m, n, d, b, c, i + 1, i, j) && Va(d, b + i, j) in n.leaves
    ensures CanShare(n, Va(d, b + i, j), Va(c, i, j))
    ensures CopiedSoFar(m, Share(n, Va(d, b + i, j), Va(c, i, j)), d, b, c, i + 1, i, j + 1)
  {
    var x, y := Va(d, b + i, j), Va(c, i, j);
    hide RoomToShare, EmptyDirectory;
    assert |n.other| == |n.count| && Shaped(m) && Separate(m);
    hide Safe, Reachable, Refs;
    SharePossible(m, n, d, b, c, i, j);
    hide OriginalsKept, CopiesMade, UncopiedCounts, TablesCopied, CanShare;
    ShareIsShared(n, x, y);
    assert Share(n, x, y).tabs == n.tabs;
    ghost var n2 := Share(n, x, y);
    hide Share, Shared;
    SharedOriginals(m, n, n2, d, b, c, i, j);
    SharedCopies(m, n, n2, d, b, c, i, j);
    SharedCounts(m, n, n2, d, b, c, i, j);
    TablesDependOnTabs(m, n, n2, d, b, c, i + 1);
    SharedOther(n, n2, x, y);
  }

  lemma TablesDependOnTabs(m: Mem, n: Mem, n2: Mem, d: nat, b: nat, c: nat, rows: nat)
    requires TablesCopied(m, n, d, b, c, rows) && n2.tabs == n.tabs
    ensures TablesCopied(m, n2, d, b, c, rows)
  {
  }

  lemma SharedOther(n: Mem, n2: Mem, x: Va, y: Va)
    requires Shared(n, n2, x, y)
    ensures n2.other == n.other
  {
  }

  /** A page of d not yet copied is not in the new directory. */
  lemma NotThereYet(m: Mem, n: Mem, d: nat, b: nat, c: nat, i: nat, j: nat, z: Va)
    requires Separate(m) && EmptyDirectory(m, c) && CopiesMade(m, n, d, b, c, i, j) && OriginalsKept(m, n, d, b, i, j)
    requires Va(d, b + i, j) in m.leaves && z in n.leaves && z.d == c
    ensures n.leaves[z].page != n.leaves[Va(d, b + i, j)].page
  {
  }

  lemma SharePossible(m: Mem, n: Mem, d: nat, b: nat, c: nat, i: nat, j: nat)
    requires Shaped(m) && Separate(m) && EmptyDirectory(m, c) && c != d && RoomToShare(m, d) && j < ENTRIES
    requires CopiedSoFar(m, n, d, b, c, i + 1, i, j) && Va(d, b + i, j) in n.leaves
    ensures Va(d, b + i, j) in m.leaves && CanShare(n, Va(d, b + i, j), Va(c, i, j))
  {
    var x, y := Va(d, b + i, j), Va(c, i, j);
    NotYetCopied(m, n, d, b, c, i, j);
    SourceTable(m, x);
    TableForCopy(m, n, d, b, c, i);
    RoomForOne(m, n, d, b, c, i, j);
    hide CopiesMade, Separate, TablesCopied, UncopiedCounts, OriginalsKept, Shaped, RoomToShare, EmptyDirectory;
    forall z | z in n.leaves && z.d == y.d
      ensures n.leaves[z].page != n.leaves[x].page
    {
      NotThereYet(m, n, d, b, c, i, j, z);
    }
  }

  lemma NotYetCopied(m: Mem, n: Mem, d: nat, b: nat, c: nat, i: nat, j: nat)
    requires CopiesMade(m, n, d, b, c, i, j) && c != d && Va(d, b + i, j) in n.leaves
    ensures Va(d, b + i, j) in m.leaves && Va(c, i, j) !in n.leaves
  {
  }

  lemma SourceTable(m: Mem, x: Va)
    requires Shaped(m) && x in m.leaves
    ensures Td(x.d, x.k) in m.tabs
  {
  }

  lemma TableForCopy(m: Mem, n: Mem, d: nat, b: nat, c: nat, i: nat)
    requires TablesCopied(m, n, d, b, c, i + 1) && Td(d, b + i) in m.tabs
    ensures Td(c, i) in n.tabs
  {
    assert Td(c, i) in n.tabs <==> i < i + 1 && Td(d, b + i) in m.tabs;
  }

  lemma RoomForOne(m: Mem, n: Mem, d: nat, b: nat, c: nat, i: nat, j: nat)
    requires Shaped(m) && RoomToShare(m, d) && OriginalsKept(m, n, d, b, i, j) && UncopiedCounts(m, n, d, b, i, j)
    requires Va(d, b + i, j) in m.leaves
    ensures var x := Va(d, b + i, j);
            && x in n.leaves && n.leaves[x].page < |n.count| && n.count[n.leaves[x].page] < MAX_COUNT
  {
  }

  lemma SharedOriginals(m: Mem, n: Mem, n2: Mem, d: nat, b: nat, c: nat, i: nat, j: nat)
    requires OriginalsKept(m, n, d, b, i, j) && Va(d, b + i, j) in m.leaves
    requires Shared(n, n2, Va(d, b + i, j), Va(c, i, j))
    ensures OriginalsKept(m, n2, d, b, i, j + 1)
  {
  }

  lemma SharedCopies(m: Mem, n: Mem, n2: Mem, d: nat, b: nat, c: nat, i: nat, j: nat)
    requires c != d && CopiesMade(m, n, d, b, c, i, j) && OriginalsKept(m, n, d, b, i, j) && Va(d, b + i, j) in m.leaves
    requires Shared(n, n2, Va(d, b + i, j), Va(c, i, j))
    ensures CopiesMade(m, n2, d, b, c, i, j + 1)
  {
  }

  lemma SharedCounts(m: Mem, n: Mem, n2: Mem, d: nat, b: nat, c: nat, i: nat, j: nat)
    requires Separate(m) && OriginalsKept(m, n, d, b, i, j) && UncopiedCounts(m, n, d, b, i, j)
             && Va(d, b + i, j) in m.leaves
    requires Shared(n, n2, Va(d, b + i, j), Va(c, i, j))
    ensures UncopiedCounts(m, n2, d, b, i, j + 1)
  {
  }

  lemma SkipAdvances(m: Mem, n: Mem, d: nat, b: nat, c: nat, i: nat, j: nat)
    requires c != d && CopiedSoFar(m, n, d, b, c, i + 1, i, j) && Va(d, b + i, j) !in n.leaves
    ensures CopiedSoFar(m, n, d, b, c, i + 1, i, j + 1)
  {
  }

  lemma RowCopied(m: Mem, n: Mem, d: nat, b: nat, c: nat, i: nat)
    requires Safe(m) && CopiedSoFar(m, n, d, b, c, i + 1, i, ENTRIES)
    ensures CopiedSoFar(m, n, d, b, c, i + 1, i + 1, 0)
  {
    EntriesInRange(m);
    hide Safe, OriginalsKept, CopiesMade, UncopiedCounts, TablesCopied;
    RowOriginals(m, n, d, b, i);
    RowCopies(m, n, d, b, c, i);
    RowCounts(m, n, d, b, i);
  }

  lemma EntriesInRange(m: Mem)
    requires Safe(m)
    ensures forall x :: x in m.leaves ==> x.j < ENTRIES
  {
  }

  lemma RowOriginals(m: Mem, n: Mem, d: nat, b: nat, i: nat)
    requires OriginalsKept(m, n, d, b, i, ENTRIES) && forall x :: x in m.leaves ==> x.j < ENTRIES
    ensures OriginalsKept(m, n, d, b, i + 1, 0)
  {
  }

  lemma RowCopies(m: Mem, n: Mem, d: nat, b: nat, c: nat, i: nat)
    requires CopiesMade(m, n, d, b, c, i, ENTRIES) && forall x :: x in m.leaves ==> x.j < ENTRIES
    ensures CopiesMade(m, n, d, b, c, i + 1, 0)
  {
    forall k: nat, e: nat
      ensures Va(c, k, e) in n.leaves <==> Before(k, e, i + 1, 0) && Va(d, b + k, e) in m.leaves
    {
      assert Va(c, k, e) in n.leaves <==> Before(k, e, i, ENTRIES) && Va(d, b + k, e) in m.leaves;
    }
  }

  lemma RowCounts(m: Mem, n: Mem, d: nat, b: nat, i: nat)
    requires UncopiedCounts(m, n, d, b, i, ENTRIES) && forall x :: x in m.leaves ==> x.j < ENTRIES
    ensures UncopiedCounts(m, n, d, b, i + 1, 0)
  {
  }

  lemma NothingDropped(m: Mem, d: nat, lo: nat)
    ensures DroppedSoFar(m, m, d, lo, lo, 0)
  {
  }

  lemma RowNotThere(m: Mem, n: Mem, d: nat, lo: nat, k: nat)
    requires lo <= k && Safe(n) && DroppedSoFar(m, n, d, lo, k, 0) && Td(d, k) !in n.tabs
    ensures DroppedSoFar(m, n, d, lo, k + 1, 0)
  {
  }

  lemma DropAdvances(m: Mem, n: Mem, d: nat, lo: nat, k: nat, nr: nat)
    requires lo <= k && Shaped(n) && DroppedSoFar(m, n, d, lo, k, nr) && Va(d, k, nr) in n.leaves
    requires n.count[n.leaves[Va(d, k, nr)].page] > 0
    ensures DroppedSoFar(m, DropLeaf(n, Va(d, k, nr)), d, lo, k, nr + 1)
  {
  }

  lemma AbsentAdvances(m: Mem, n: Mem, d: nat, lo: nat, k: nat, nr: nat)
    requires lo <= k && DroppedSoFar(m, n, d, lo, k, nr) && Va(d, k, nr) !in n.leaves
    ensures DroppedSoFar(m, n, d, lo, k, nr + 1)
  {
  }

  lemma RowEmpty(m: Mem, n: Mem, d: nat, lo: nat, k: nat)
    requires lo <= k && Safe(m) && DroppedSoFar(m, n, d, lo, k, ENTRIES)
    ensures forall x :: x in n.leaves ==> Td(x.d, x.k) != Td(d, k)
  {
  }

  lemma TableDropped(m: Mem, n: Mem, d: nat, lo: nat, k: nat)
    requires lo <= k && Shaped(m) && Shaped(n) && DroppedSoFar(m, n, d, lo, k, ENTRIES) && Td(d, k) in n.tabs
    requires n.count[n.tabs[Td(d, k)]] > 0
    ensures DroppedSoFar(m, DropTable(n, Td(d, k)), d, lo, k + 1, 0)
  {
  }

  /** Tearing down the child of a fork leaves exactly the parent's entries. */
  lemma TornDown(m: Mem, f: Mem, t: Mem, d: nat, b: nat, c: nat, n: nat)
    requires Safe(m) && EmptyDirectory(m, c) && c != d
    requires CopiedSoFar(m, f, d, b, c, n, n, 0) && DroppedSoFar(f, t, c, 0, n, 0)
    ensures t.other == m.other && |t.count| == |m.count| && t.tabs == m.tabs && t.leaves.Keys == m.leaves.Keys
    ensures forall x :: x in m.leaves ==> t.leaves[x].page == m.leaves[x].page
  {
    hide Safe, Reachable;
    ForkedEntries(m, f, d, b, c, n);
    hide TablesCopied, CopiesMade;
    assert t.tabs == m.tabs;
  }

  /** Every entry of a forked memory is the parent's, or lies in the rows of the child. */
  lemma ForkedEntries(m: Mem, f: Mem, d: nat, b: nat, c: nat, n: nat)
    requires EmptyDirectory(m, c) && TablesCopied(m, f, d, b, c, n) && CopiesMade(m, f, d, b, c, n, 0)
    ensures forall y :: y in f.tabs ==> y in m.tabs || (y.d == c && y.k < n)
    ensures forall x :: x in f.leaves ==> x in m.leaves || (x.d == c && x.k < n)
    ensures forall y :: y in m.tabs ==> y in f.tabs && f.tabs[y] == m.tabs[y]
  {
  }
}
