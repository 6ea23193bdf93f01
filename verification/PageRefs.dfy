/** Reference-counted pages and the page tables that point at them, as values. A page table
    is the map from its present entries to what they hold; every change the memory manager
    makes is a sequence of the single steps defined here. */
module PageRefs {
  import opened Sets

  const ENTRIES: nat := 512
  const MAX_COUNT: nat := 255

  /** Entry j of the page table that entry k of directory d points at. */
  datatype Va = Va(d: nat, k: nat, j: nat)
  /** Entry k of directory d. */
  datatype Td = Td(d: nat, k: nat)
  /** A present leaf entry: the page it maps and whether it may be written through. */
  datatype Pte = Pte(page: nat, w: bool)
  /** Something in a page table that points at a page. */
  datatype Ref = Leaf(x: Va) | Table(y: Td)

  /** `other` counts the references that are not in any page table: reserved pages, pages
      the kernel holds, and pages whose last entry was overwritten. */
  datatype Mem = Mem(count: seq<nat>, tabs: map<Td, nat>, leaves: map<Va, Pte>, other: seq<nat>)

  ghost function LeafRefs(m: Mem, p: nat): set<Ref> {
    set x | x in m.leaves && m.leaves[x].page == p :: Leaf(x)
  }

  ghost function TableRefs(m: Mem, p: nat): set<Ref> {
    set y | y in m.tabs && m.tabs[y] == p :: Table(y)
  }

  ghost function Refs(m: Mem, p: nat): set<Ref> {
    LeafRefs(m, p) + TableRefs(m, p)
  }

  /** Shape: entries name real pages other than page 0, and leaves live in present tables. */
  ghost predicate Shaped(m: Mem) {
    && |m.other| == |m.count|
    && (forall y :: y in m.tabs ==> 1 <= m.tabs[y] < |m.count|)
    && (forall x :: x in m.leaves ==> 1 <= m.leaves[x].page < |m.count|)
    && (forall x :: x in m.leaves ==> x.j < ENTRIES && Td(x.d, x.k) in m.tabs)
  }

  /** Every count is exactly the number of references, and fits its byte. */
  ghost predicate Counted(m: Mem) {
    && |m.other| == |m.count|
    && forall p :: 0 <= p < |m.count| ==> m.count[p] == |Refs(m, p)| + m.other[p] && m.count[p] <= MAX_COUNT
  }

  /** A page mapped writable has no other mapping. */
  ghost predicate CopyOnWrite(m: Mem) {
    forall x, y :: x in m.leaves && y in m.leaves && m.leaves[x].w && m.leaves[y].page == m.leaves[x].page ==> x == y
  }

  /** A directory maps a page at most once, and table pages are not mapped or shared. */
  ghost predicate Separate(m: Mem) {
    && (forall x, y :: x in m.leaves && y in m.leaves && x.d == y.d && m.leaves[x].page == m.leaves[y].page ==> x == y)
    && (forall y, z :: y in m.tabs && z in m.tabs && m.tabs[y] == m.tabs[z] ==> y == z)
    && (forall x, y :: x in m.leaves && y in m.tabs ==> m.leaves[x].page != m.tabs[y])
  }

  ghost predicate Safe(m: Mem) {
    Shaped(m) && Counted(m) && CopyOnWrite(m) && Separate(m)
  }

  /** A page nothing in a page table points at. */
  ghost predicate Unreferenced(m: Mem, p: nat) {
    && (forall x :: x in m.leaves ==> m.leaves[x].page != p)
    && (forall y :: y in m.tabs ==> m.tabs[y] != p)
  }

  // Single steps.

  /** The allocator hands out a free page. */
  function Take(m: Mem, p: nat): Mem
    requires p < |m.count| && |m.other| == |m.count|
  {
    m.(count := m.count[p := 1], other := m.other[p := 1])
  }

  /** The kernel gives back a page it holds. */
  function Give(m: Mem, p: nat): Mem
    requires p < |m.count| && |m.other| == |m.count| && m.count[p] > 0 && m.other[p] > 0
  {
    m.(count := m.count[p := m.count[p] - 1], other := m.other[p := m.other[p] - 1])
  }

  /** A held page becomes a page table. */
  function AddTable(m: Mem, y: Td, p: nat): Mem
    requires p < |m.other|
  {
    m.(tabs := m.tabs[y := p], other := m.other[p := 0])
  }

  function DropTable(m: Mem, y: Td): Mem
    requires y in m.tabs && m.tabs[y] < |m.count| && m.count[m.tabs[y]] > 0
  {
    m.(tabs := m.tabs - {y}, count := m.count[m.tabs[y] := m.count[m.tabs[y]] - 1])
  }

  /** A held page is mapped writable. */
  function MapPage(m: Mem, x: Va, p: nat): Mem
    requires p < |m.other|
  {
    m.(leaves := m.leaves[x := Pte(p, true)], other := m.other[p := 0])
  }

  /** A present entry is lost without freeing its page. */
  function ForgetLeaf(m: Mem, x: Va): Mem
    requires x in m.leaves && m.leaves[x].page < |m.other|
  {
    m.(leaves := m.leaves - {x}, other := m.other[m.leaves[x].page := m.other[m.leaves[x].page] + 1])
  }

  function DropLeaf(m: Mem, x: Va): Mem
    requires x in m.leaves && m.leaves[x].page < |m.count| && m.count[m.leaves[x].page] > 0
  {
    m.(leaves := m.leaves - {x}, count := m.count[m.leaves[x].page := m.count[m.leaves[x].page] - 1])
  }

  /** The page at x is shared read-only with entry y of another directory. */
  function Share(m: Mem, x: Va, y: Va): Mem
    requires x in m.leaves && m.leaves[x].page < |m.count|
  {
    var p := m.leaves[x].page;
    m.(leaves := m.leaves[y := Pte(p, false)][x := Pte(p, false)], count := m.count[p := m.count[p] + 1])
  }

  function MakeWritable(m: Mem, x: Va): Mem
    requires x in m.leaves
  {
    m.(leaves := m.leaves[x := Pte(m.leaves[x].page, true)])
  }

  // What each step keeps.

  lemma RefsEmptyIff(m: Mem, p: nat)
    ensures Refs(m, p) == {} <==> Unreferenced(m, p)
  {
    if Refs(m, p) == {} {
      assert forall x :: x in m.leaves && m.leaves[x].page == p ==> Leaf(x) in Refs(m, p);
      assert forall y :: y in m.tabs && m.tabs[y] == p ==> Table(y) in Refs(m, p);
    }
  }

  /** A page whose count is all accounted for outside the tables is unreferenced. */
  lemma UnreferencedIfCounted(m: Mem, p: nat)
    requires Safe(m) && p < |m.count| && m.count[p] == m.other[p]
    ensures Unreferenced(m, p) && Refs(m, p) == {}
  {
    RefsEmptyIff(m, p);
  }

  /** A referenced page has a positive count, so it is never handed out or over-freed. */
  lemma ReferencedIsCounted(m: Mem, r: Ref, p: nat)
    requires Counted(m) && p < |m.count| && r in Refs(m, p)
    ensures m.count[p] >= m.other[p] + 1
    ensures m.count[p] == 1 ==> Refs(m, p) == {r}
  {
    hide Refs;
    assert Refs(m, p) == Refs(m, p) - {r} + {r};
    if m.count[p] == 1 {
      assert |Refs(m, p) - {r}| == 0;
    }
  }

  /** A page with count 1 that is mapped has exactly that one mapping. */
  lemma OnlyMapping(m: Mem, x: Va)
    requires Safe(m) && x in m.leaves && m.count[m.leaves[x].page] == 1
    ensures forall y :: y in m.leaves && m.leaves[y].page == m.leaves[x].page ==> y == x
    ensures m.other[m.leaves[x].page] == 0
  {
    var p := m.leaves[x].page;
    ReferencedIsCounted(m, Leaf(x), p);
    assert forall y :: y in m.leaves && m.leaves[y].page == p ==> Leaf(y) in Refs(m, p);
  }

  /** Adding one reference to p raises exactly its count. */
  lemma CountedAfterAdd(m: Mem, n: Mem, p: nat, r: Ref)
    requires Counted(m) && p < |m.count| && |n.count| == |n.other| == |m.count|
    requires r !in Refs(m, p) && Refs(n, p) == Refs(m, p) + {r}
    requires n.count[p] <= MAX_COUNT && n.count[p] + m.other[p] == m.count[p] + n.other[p] + 1
    requires forall q: nat :: q < |m.count| && q != p ==>
               Refs(n, q) == Refs(m, q) && n.count[q] == m.count[q] && n.other[q] == m.other[q]
    ensures Counted(n)
  {
  }

  lemma CountedAfterRemove(m: Mem, n: Mem, p: nat, r: Ref)
    requires Counted(m) && p < |m.count| && |n.count| == |n.other| == |m.count|
    requires r in Refs(m, p) && Refs(n, p) == Refs(m, p) - {r}
    requires n.count[p] <= MAX_COUNT && n.count[p] + m.other[p] + 1 == m.count[p] + n.other[p]
    requires forall q: nat :: q < |m.count| && q != p ==>
               Refs(n, q) == Refs(m, q) && n.count[q] == m.count[q] && n.other[q] == m.other[q]
    ensures Counted(n)
  {
  }

  lemma CountedSame(m: Mem, n: Mem)
    requires Counted(m) && |n.count| == |n.other| == |m.count|
    requires forall q: nat :: q < |m.count| ==>
               Refs(n, q) == Refs(m, q) && n.count[q] <= MAX_COUNT && n.count[q] + m.other[q] == m.count[q] + n.other[q]
    ensures Counted(n)
  {
  }

  lemma RefsOfNewLeaf(m: Mem, n: Mem, x: Va, pte: Pte)
    requires x !in m.leaves && n.tabs == m.tabs && n.leaves == m.leaves[x := pte]
    ensures Leaf(x) !in Refs(m, pte.page) && Refs(n, pte.page) == Refs(m, pte.page) + {Leaf(x)}
    ensures forall q: nat :: q != pte.page ==> Refs(n, q) == Refs(m, q)
  {
  }

  lemma RefsOfOldLeaf(m: Mem, n: Mem, x: Va)
    requires x in m.leaves && n.tabs == m.tabs && n.leaves == m.leaves - {x}
    ensures Leaf(x) in Refs(m, m.leaves[x].page)
    ensures Refs(n, m.leaves[x].page) == Refs(m, m.leaves[x].page) - {Leaf(x)}
    ensures forall q: nat :: q != m.leaves[x].page ==> Refs(n, q) == Refs(m, q)
  {
  }

  /** Changing only the writable bits changes no reference. */
  lemma RefsOfSamePages(m: Mem, n: Mem)
    requires n.tabs == m.tabs && n.leaves.Keys == m.leaves.Keys
    requires forall x :: x in m.leaves ==> n.leaves[x].page == m.leaves[x].page
    ensures forall q: nat :: Refs(n, q) == Refs(m, q)
  {
  }

  lemma RefsOfTable(m: Mem, n: Mem, y: Td, p: nat)
    requires y !in m.tabs && n.leaves == m.leaves && n.tabs == m.tabs[y := p]
    ensures Table(y) !in Refs(m, p) && Refs(n, p) == Refs(m, p) + {Table(y)}
    ensures forall q: nat :: q != p ==> Refs(n, q) == Refs(m, q)
  {
  }

  lemma TakeSafe(m: Mem, p: nat)
    requires Safe(m) && 1 <= p < |m.count| && m.count[p] == 0
    ensures Safe(Take(m, p)) && Unreferenced(m, p)
  {
    UnreferencedIfCounted(m, p);
    RefsOfSamePages(m, Take(m, p));
    hide Refs;
    CountedSame(m, Take(m, p));
  }

  lemma GiveSafe(m: Mem, p: nat)
    requires Safe(m) && p < |m.count| && m.other[p] > 0
    ensures m.count[p] > 0 && Safe(Give(m, p))
  {
  }

  lemma AddTableSafe(m: Mem, y: Td, p: nat)
    requires Safe(m) && y !in m.tabs && 1 <= p < |m.count| && m.count[p] == 1 && m.other[p] == 1
    ensures Safe(AddTable(m, y, p))
  {
    hide Refs;
    UnreferencedIfCounted(m, p);
    var n := AddTable(m, y, p);
    RefsOfTable(m, n, y, p);
    CountedAfterAdd(m, n, p, Table(y));
  }

  lemma DropTableSafe(m: Mem, y: Td)
    requires Safe(m) && y in m.tabs
    requires forall x :: x in m.leaves ==> Td(x.d, x.k) != y
    ensures m.count[m.tabs[y]] > 0 && Safe(DropTable(m, y))
  {
    hide Refs;
    var p := m.tabs[y];
    var n := m.(tabs := m.tabs - {y});
    assert m.tabs == n.tabs[y := p];
    RefsOfTable(n, m, y, p);
    ReferencedIsCounted(m, Table(y), p);
    RefsOfSamePages(n, DropTable(m, y));
    CountedAfterRemove(m, DropTable(m, y), p, Table(y));
  }

  lemma MapPageSafe(m: Mem, x: Va, p: nat)
    requires Safe(m) && x !in m.leaves && x.j < ENTRIES && Td(x.d, x.k) in m.tabs
    requires 1 <= p < |m.count| && m.count[p] == 1 && m.other[p] == 1
    ensures Safe(MapPage(m, x, p))
  {
    hide Refs, Counted, CopyOnWrite, Separate;
    MapPageCounted(m, x, p);
    MapPageSeparate(m, x, p);
  }

  lemma MapPageCounted(m: Mem, x: Va, p: nat)
    requires Safe(m) && x !in m.leaves && p < |m.count| && m.count[p] == 1 && m.other[p] == 1
    ensures Counted(MapPage(m, x, p))
  {
    hide Refs, CopyOnWrite, Separate;
    UnreferencedIfCounted(m, p);
    var n := MapPage(m, x, p);
    RefsOfNewLeaf(m, n, x, Pte(p, true));
    CountedAfterAdd(m, n, p, Leaf(x));
  }

  lemma MapPageSeparate(m: Mem, x: Va, p: nat)
    requires Safe(m) && x !in m.leaves && p < |m.count| && m.count[p] == 1 && m.other[p] == 1
    ensures CopyOnWrite(MapPage(m, x, p)) && Separate(MapPage(m, x, p))
  {
    hide Refs, Counted;
    UnreferencedIfCounted(m, p);
  }

  lemma ForgetLeafSafe(m: Mem, x: Va)
    requires Safe(m) && x in m.leaves
    ensures Safe(ForgetLeaf(m, x))
  {
    hide Refs;
    var p := m.leaves[x].page;
    var n := ForgetLeaf(m, x);
    RefsOfOldLeaf(m, n, x);
    ReferencedIsCounted(m, Leaf(x), p);
    CountedAfterRemove(m, n, p, Leaf(x));
  }

  lemma DropLeafSafe(m: Mem, x: Va)
    requires Safe(m) && x in m.leaves
    ensures m.count[m.leaves[x].page] > 0 && Safe(DropLeaf(m, x))
  {
    hide Refs;
    var p := m.leaves[x].page;
    RefsOfOldLeaf(m, m.(leaves := m.leaves - {x}), x);
    ReferencedIsCounted(m, Leaf(x), p);
    var n := DropLeaf(m, x);
    RefsOfOldLeaf(m, n, x);
    CountedAfterRemove(m, n, p, Leaf(x));
  }

  /** y is an absent entry of a directory that does not map the page at x. */
  ghost predicate CanShare(m: Mem, x: Va, y: Va) {
    && x in m.leaves && y !in m.leaves && y.j < ENTRIES && Td(y.d, y.k) in m.tabs
    && m.leaves[x].page < |m.count| && m.count[m.leaves[x].page] < MAX_COUNT
    && forall z :: z in m.leaves && z.d == y.d ==> m.leaves[z].page != m.leaves[x].page
  }

  /** Leaf by leaf, what sharing does. */
  ghost predicate Shared(m: Mem, n: Mem, x: Va, y: Va) {
    && n.tabs == m.tabs && |n.count| == |m.count| && n.other == m.other
    && x in m.leaves && y !in m.leaves && x != y
    && (forall z :: z in n.leaves <==> z in m.leaves || z == y)
    && (forall z :: z in m.leaves && z != x ==> n.leaves[z] == m.leaves[z])
    && n.leaves[x] == n.leaves[y] == Pte(m.leaves[x].page, false)
    && (forall q :: 0 <= q < |m.count| && q != m.leaves[x].page ==> n.count[q] == m.count[q])
  }

  lemma ShareIsShared(m: Mem, x: Va, y: Va)
    requires |m.other| == |m.count| && CanShare(m, x, y)
    ensures Shared(m, Share(m, x, y), x, y)
  {
  }

  lemma SharedKeepsShape(m: Mem, n: Mem, x: Va, y: Va)
    requires Shaped(m) && Separate(m) && CanShare(m, x, y) && Shared(m, n, x, y)
    ensures Shaped(n) && Separate(n)
  {
    assert forall z :: z in m.leaves ==> n.leaves[z].page == m.leaves[z].page;
  }

  lemma SharedKeepsCopyOnWrite(m: Mem, n: Mem, x: Va, y: Va)
    requires CopyOnWrite(m) && Shared(m, n, x, y)
    ensures CopyOnWrite(n)
  {
  }

  lemma ShareCounted(m: Mem, x: Va, y: Va)
    requires Counted(m) && CanShare(m, x, y)
    ensures Counted(Share(m, x, y))
  {
    hide Refs;
    var n := Share(m, x, y);
    var p := m.leaves[x].page;
    var m' := m.(leaves := m.leaves[y := Pte(p, false)]);
    RefsOfNewLeaf(m, m', y, Pte(p, false));
    RefsOfSamePages(m', n);
    CountedAfterAdd(m, n, p, Leaf(y));
  }

  lemma ShareSafe(m: Mem, x: Va, y: Va)
    requires Safe(m) && CanShare(m, x, y)
    ensures Safe(Share(m, x, y))
  {
    ShareIsShared(m, x, y);
    ShareCounted(m, x, y);
    hide Shaped, Separate, CopyOnWrite, Share, Shared, Refs;
    SharedKeepsShape(m, Share(m, x, y), x, y);
    SharedKeepsCopyOnWrite(m, Share(m, x, y), x, y);
  }

  lemma MakeWritableSafe(m: Mem, x: Va)
    requires Safe(m) && x in m.leaves && m.count[m.leaves[x].page] == 1
    ensures Safe(MakeWritable(m, x))
  {
    hide Refs;
    OnlyMapping(m, x);
    RefsOfSamePages(m, MakeWritable(m, x));
    CountedSame(m, MakeWritable(m, x));
  }

  // Runs.

  /** What the memory manager can do in one step. */
  datatype Op =
    | TakeOp(p: nat) | GiveOp(p: nat)
    | AddTableOp(y: Td, p: nat) | DropTableOp(y: Td)
    | MapOp(x: Va, p: nat) | ForgetOp(x: Va) | DropLeafOp(x: Va)
    | ShareOp(x: Va, from: Va) | WriteOp(x: Va)

  ghost predicate Enabled(m: Mem, op: Op) {
    match op
    case TakeOp(p) => 1 <= p < |m.count| && m.count[p] == 0
    case GiveOp(p) => p < |m.count| == |m.other| && m.other[p] > 0 && m.count[p] > 0
    case AddTableOp(y, p) => y !in m.tabs && 1 <= p < |m.count| == |m.other| && m.count[p] == 1 && m.other[p] == 1
    case DropTableOp(y) =>
      && y in m.tabs && m.tabs[y] < |m.count| && m.count[m.tabs[y]] > 0
      && forall x :: x in m.leaves ==> Td(x.d, x.k) != y
    case MapOp(x, p) =>
      && x !in m.leaves && x.j < ENTRIES && Td(x.d, x.k) in m.tabs
      && 1 <= p < |m.count| == |m.other| && m.count[p] == 1 && m.other[p] == 1
    case ForgetOp(x) => x in m.leaves && m.leaves[x].page < |m.other|
    case DropLeafOp(x) => x in m.leaves && m.leaves[x].page < |m.count| && m.count[m.leaves[x].page] > 0
    case ShareOp(y, x) => CanShare(m, x, y)
    case WriteOp(x) => x in m.leaves && m.leaves[x].page < |m.count| && m.count[m.leaves[x].page] == 1
  }

  ghost function Do(m: Mem, op: Op): Mem
    requires |m.other| == |m.count| && Enabled(m, op)
  {
    match op
    case TakeOp(p) => Take(m, p)
    case GiveOp(p) => Give(m, p)
    case AddTableOp(y, p) => AddTable(m, y, p)
    case DropTableOp(y) => DropTable(m, y)
    case MapOp(x, p) => MapPage(m, x, p)
    case ForgetOp(x) => ForgetLeaf(m, x)
    case DropLeafOp(x) => DropLeaf(m, x)
    case ShareOp(y, x) => Share(m, x, y)
    case WriteOp(x) => MakeWritable(m, x)
  }

  lemma StepSafe(m: Mem, op: Op)
    requires Safe(m) && Enabled(m, op)
    ensures Safe(Do(m, op))
    ensures op.TakeOp? ==> Unreferenced(m, op.p)
  {
    match op
    case TakeOp(p) => TakeSafe(m, p);
    case GiveOp(p) => GiveSafe(m, p);
    case AddTableOp(y, p) => AddTableSafe(m, y, p);
    case DropTableOp(y) => DropTableSafe(m, y);
    case MapOp(x, p) => MapPageSafe(m, x, p);
    case ForgetOp(x) => ForgetLeafSafe(m, x);
    case DropLeafOp(x) => DropLeafSafe(m, x);
    case ShareOp(y, x) => ShareSafe(m, x, y);
    case WriteOp(x) => MakeWritableSafe(m, x);
  }

  /** `trace` is a run of the steps `ops`. */
  ghost predicate Run(trace: seq<Mem>, ops: seq<Op>) {
    && |trace| == |ops| + 1
    && forall i :: 0 <= i < |ops| ==>
         |trace[i].other| == |trace[i].count| && Enabled(trace[i], ops[i]) && trace[i + 1] == Do(trace[i], ops[i])
  }

  /** Over every run from a safe state, every state is safe: counts equal references, a
      writable page has one mapping, and a page that is handed out is referenced nowhere. */
  lemma {:induction false} RunSafe(trace: seq<Mem>, ops: seq<Op>, i: nat)
    requires Run(trace, ops) && Safe(trace[0]) && i <= |ops|
    ensures Safe(trace[i])
    ensures i < |ops| && ops[i].TakeOp? ==> Unreferenced(trace[i], ops[i].p)
  {
    hide Safe, Enabled, Do, Unreferenced;
    if i > 0 {
      RunSafe(trace, ops, i - 1);
      StepSafe(trace[i - 1], ops[i - 1]);
    }
    if i < |ops| {
      StepSafe(trace[i], ops[i]);
    }
  }

  /** What `mem_init` leaves: no table, no mapping, every count a byte. */
  ghost predicate Fresh(m: Mem) {
    m.tabs == map[] && m.leaves == map[] && m.other == m.count
      && forall p | 0 <= p < |m.count| :: m.count[p] <= MAX_COUNT
  }

  lemma FreshSafe(m: Mem)
    requires Fresh(m)
    ensures Safe(m)
  {
    assert forall p: nat :: Refs(m, p) == {};
  }

  /** Some run of single steps leads from a fresh memory to m. */
  ghost predicate Reachable(m: Mem) {
    exists trace: seq<Mem>, ops: seq<Op> :: Run(trace, ops) && Fresh(trace[0]) && trace[|ops|] == m
  }

  lemma FreshReachable(m: Mem)
    requires Fresh(m)
    ensures Reachable(m)
  {
    var trace: seq<Mem>, ops: seq<Op> := [m], [];
    assert Run(trace, ops);
  }

  lemma ReachableSafe(m: Mem)
    requires Reachable(m)
    ensures Safe(m)
  {
    var trace: seq<Mem>, ops: seq<Op> :| Run(trace, ops) && Fresh(trace[0]) && trace[|ops|] == m;
    FreshSafe(trace[0]);
    RunSafe(trace, ops, |ops|);
  }

  lemma RunExtends(trace: seq<Mem>, ops: seq<Op>, op: Op)
    requires Run(trace, ops) && |trace[|ops|].other| == |trace[|ops|].count| && Enabled(trace[|ops|], op)
    ensures Run(trace + [Do(trace[|ops|], op)], ops + [op])
  {
    var (longer, next) := (trace + [Do(trace[|ops|], op)], ops + [op]);
    hide Enabled, Do;
    forall i | 0 <= i < |next|
      ensures |longer[i].other| == |longer[i].count| && Enabled(longer[i], next[i])
              && longer[i + 1] == Do(longer[i], next[i])
    {
      if i < |ops| {
        assert longer[i] == trace[i] && longer[i + 1] == trace[i + 1] && next[i] == ops[i];
      }
    }
  }

  /** One more step of the run. */
  lemma Reached(m: Mem, op: Op)
    requires Reachable(m) && |m.other| == |m.count| && Enabled(m, op)
    ensures Reachable(Do(m, op))
  {
    var trace: seq<Mem>, ops: seq<Op> :| Run(trace, ops) && Fresh(trace[0]) && trace[|ops|] == m;
    RunExtends(trace, ops, op);
    var longer, next := trace + [Do(m, op)], ops + [op];
    hide Enabled, Do, Run, Fresh;
    assert Run(longer, next) && longer[0] == trace[0] && longer[|next|] == Do(m, op);
  }

  /** Two safe memories with the same pages mapped in the same tables, and the same other
      references, have the same counts. */
  lemma CountsDetermined(m: Mem, n: Mem)
    requires Safe(m) && Safe(n) && |m.count| == |n.count| && m.other == n.other && m.tabs == n.tabs
    requires n.leaves.Keys == m.leaves.Keys
    requires forall x :: x in m.leaves ==> n.leaves[x].page == m.leaves[x].page
    ensures m.count == n.count
  {
    hide Refs;
    RefsOfSamePages(m, n);
  }

  /** Without lost references a page has at most one reference per directory, so with
      fewer than 255 directories no count can overflow its byte. */
  lemma NoOverflow(m: Mem, x: Va, dirs: set<nat>)
    requires Safe(m) && x in m.leaves && m.other[m.leaves[x].page] == 0
    requires forall y :: y in m.leaves ==> y.d in dirs
    ensures m.count[m.leaves[x].page] <= |dirs|
  {
    var p := m.leaves[x].page;
    assert TableRefs(m, p) == {};
    var used := set r | r in LeafRefs(m, p) :: r.x.d;
    RefsPerDirectory(m, p, LeafRefs(m, p));
    assert used <= dirs;
    SubsetSize(used, dirs);
  }

  lemma {:induction false} RefsPerDirectory(m: Mem, p: nat, refs: set<Ref>)
    requires Separate(m) && refs <= LeafRefs(m, p)
    ensures |refs| == |set r | r in refs :: r.x.d|
  {
    if refs != {} {
      var r :| r in refs;
      RefsPerDirectory(m, p, refs - {r});
      assert (set s | s in refs :: s.x.d) == (set s | s in refs - {r} :: s.x.d) + {r.x.d};
      assert r.x.d !in (set s | s in refs - {r} :: s.x.d);
    }
  }
}
