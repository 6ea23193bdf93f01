/** The block index tree of a file: seven direct zones, a single-indirect table and a
    double-indirect table. Every place that can hold a zone number is a slot of the tree,
    and all facts about the tree are facts about what the slots hold. */
module BlockTree {
  import opened Volume

  const DIRECT: nat := 7
  const ZONES: nat := 9
  const PER_TABLE: nat := 512
  const MAX_BLOCKS: nat := 7 + 512 + 512 * 512

  type Zones = z: seq<nat> | |z| == ZONES witness [0, 0, 0, 0, 0, 0, 0, 0, 0]

  /** `Zone(i)` is `i_zone[i]`, `Ind(k)` entry k of the table in zone 7, `Dind(k)` entry k
      of the table in zone 8, and `Leaf(k, j)` entry j of the table that Dind(k) names. */
  datatype Slot = Zone(i: nat) | Ind(k: nat) | Dind(k: nat) | Leaf(k: nat, j: nat)

  predicate ValidSlot(s: Slot) {
    match s
    case Zone(i) => i < ZONES
    case Ind(k) => k < PER_TABLE
    case Dind(k) => k < PER_TABLE
    case Leaf(k, j) => k < PER_TABLE && j < PER_TABLE
  }

  type TreeSlot = s: Slot | ValidSlot(s) witness Zone(0)

  /** Slots that name file data; the others name tables. */
  predicate DataSlot(s: Slot) {
    s.Ind? || s.Leaf? || (s.Zone? && s.i < DIRECT)
  }

  function Parent(s: TreeSlot): TreeSlot
    requires !s.Zone?
  {
    match s
    case Ind(_) => Zone(7)
    case Dind(_) => Zone(8)
    case Leaf(k, _) => Dind(k)
  }

  function Index(s: TreeSlot): nat
    requires !s.Zone?
  {
    match s
    case Ind(k) => k
    case Dind(k) => k
    case Leaf(_, j) => j
  }

  function Rank(s: Slot): nat {
    if s.Zone? then 0 else if s.Leaf? then 2 else 1
  }

  /** The slot that `_bmap` reaches for file block n. */
  function SlotOf(n: nat): TreeSlot
    requires n < MAX_BLOCKS
  {
    if n < 7 then Zone(n)
    else if n - 7 < 512 then Ind(n - 7)
    else Leaf((n - 519) / 512, (n - 519) % 512)
  }

  /** The slots `_bmap` may fill on its way to file block n. */
  function Path(n: nat): set<Slot>
    requires n < MAX_BLOCKS
  {
    if n < 7 then {SlotOf(n)}
    else if n - 7 < 512 then {Zone(7), SlotOf(n)}
    else {Zone(8), Dind((n - 519) / 512), SlotOf(n)}
  }

  /** Entry k of a table block, a little-endian 16-bit number. */
  function Word(b: Block, k: nat): nat
    requires k < PER_TABLE
  {
    b[2 * k] as int + 256 * (b[2 * k + 1] as int)
  }

  function WithWord(b: Block, k: nat, w: nat): Block
    requires k < PER_TABLE && w <= 0xFFFF
  {
    b[2 * k := w % 256][2 * k + 1 := w / 256]
  }

  function Entry(bl: seq<Block>, table: nat, k: nat): nat
    requires k < PER_TABLE
  {
    if 0 < table < |bl| then Word(bl[table], k) else 0
  }

  /** The zone number a slot holds; 0 when it, or a table above it, is missing. */
  function At(z: Zones, bl: seq<Block>, s: TreeSlot): nat
    decreases Rank(s)
  {
    if s.Zone? then z[s.i] else Entry(bl, At(z, bl, Parent(s)), Index(s))
  }

  /** The zone of file block n is nr, in the bytes on the device: the first seven zones are in the
      inode, the next 512 in the table that zone 7 names, and the others in the tables that the
      table of zone 8 names, all as two bytes each, low byte first. */
  ghost predicate Names(z: Zones, bl: seq<Block>, n: nat, nr: nat)
    requires n < 262663
  {
    if n < 7 then nr == z[n]
    else if n < 519 then
      var (t, k) := (z[7], n - 7);
      if t == 0 then nr == 0 else t < |bl| && nr == bl[t][2 * k] as int + 256 * bl[t][2 * k + 1] as int
    else
      var (t, k, j) := (z[8], (n - 519) / 512, (n - 519) % 512);
      if t == 0 then nr == 0
      else
        && t < |bl|
        && var u := bl[t][2 * k] as int + 256 * bl[t][2 * k + 1] as int;
           if u == 0 then nr == 0 else u < |bl| && nr == bl[u][2 * j] as int + 256 * bl[u][2 * j + 1] as int
  }

  /** What the slot of a file block holds is the zone of that block on the device. */
  lemma SlotNames(z: Zones, v: Vol, n: nat)
    requires v.Valid() && Sound(z, v) && n < MAX_BLOCKS
    ensures Names(z, v.blocks, n, At(z, v.blocks, SlotOf(n)))
  {
    if n >= 519 {
      assert At(z, v.blocks, Zone(8)) == z[8];
      var k := (n - 519) / 512;
      assert At(z, v.blocks, Parent(SlotOf(n))) == At(z, v.blocks, Dind(k)) == Entry(v.blocks, z[8], k);
    } else if n >= 7 {
      assert At(z, v.blocks, Parent(SlotOf(n))) == At(z, v.blocks, Zone(7)) == z[7];
    }
  }

  /** The data block a slot names; a missing one reads as zeros. */
  function Data(z: Zones, bl: seq<Block>, s: TreeSlot): Block {
    if 0 < At(z, bl, s) < |bl| then bl[At(z, bl, s)] else ZeroBlock()
  }

  /** Every zone of the tree is allocated, and no zone is used twice. */
  ghost predicate Sound(z: Zones, v: Vol)
    requires v.Valid()
  {
    && (forall s: TreeSlot :: At(z, v.blocks, s) != 0 ==> v.Allocated(At(z, v.blocks, s)))
    && (forall s: TreeSlot, t: TreeSlot ::
          At(z, v.blocks, s) == At(z, v.blocks, t) && At(z, v.blocks, s) != 0 ==> s == t)
  }

  /** Zone b belongs to the tree. */
  ghost predicate Holds(z: Zones, bl: seq<Block>, b: int) {
    b != 0 && exists s: TreeSlot :: At(z, bl, s) == b
  }

  /** The tree grew from (z, v) to (z2, w): filled slots keep their zones, only slots on
      `path` were filled and only with zones that were free, all file data reads the same,
      and zones outside the tree were not touched. */
  ghost predicate Grew(z: Zones, v: Vol, z2: Zones, w: Vol, path: set<Slot>)
    requires v.Valid() && w.Valid()
  {
    && w.first == v.first && w.nzones == v.nzones
    && Sound(z2, w)
    && (forall t: TreeSlot ::
          At(z2, w.blocks, t) == At(z, v.blocks, t) ||
          (At(z, v.blocks, t) == 0 && t in path && !v.Allocated(At(z2, w.blocks, t))))
    && (forall t: TreeSlot :: DataSlot(t) ==> Data(z2, w.blocks, t) == Data(z, v.blocks, t))
    && (forall b: int :: v.Allocated(b) ==> w.Allocated(b))
    && (forall b: int :: v.Allocated(b) && !Holds(z, v.blocks, b) ==> w.blocks[b] == v.blocks[b])
  }

  lemma SlotOfInjective(m: nat, n: nat)
    requires m < MAX_BLOCKS && n < MAX_BLOCKS
    ensures DataSlot(SlotOf(n))
    ensures SlotOf(m) == SlotOf(n) ==> m == n
    ensures SlotOf(m) in Path(n) ==> m == n
  {
  }

  /** Zones and blocks after storing n in slot s. */
  function PutZones(z: Zones, s: TreeSlot, n: nat): Zones {
    if s.Zone? then z[s.i := n] else z
  }

  function PutBlocks(z: Zones, bl: seq<Block>, s: TreeSlot, n: nat): seq<Block>
    requires n <= 0xFFFF
    requires !s.Zone? ==> At(z, bl, Parent(s)) < |bl|
  {
    if s.Zone? then bl
    else var p := At(z, bl, Parent(s)); bl[p := WithWord(bl[p], Index(s), n)]
  }

  /** Slot s is empty, its table exists, and n is a free zone about to be stored there. */
  ghost predicate CanPut(z: Zones, v: Vol, s: TreeSlot, n: nat)
    requires v.Valid()
  {
    && Sound(z, v)
    && At(z, v.blocks, s) == 0
    && (s.Zone? || At(z, v.blocks, Parent(s)) != 0)
    && v.InDataZone(n) && !v.Allocated(n)
  }

  /** Storing a fresh cleared zone changes exactly one slot. */
  lemma {:induction false} PutChangesOneSlot(z: Zones, v: Vol, s: TreeSlot, n: nat, t: TreeSlot)
    requires v.Valid() && CanPut(z, v, s, n)
    ensures var bl := v.blocks[n := ZeroBlock()];
            && At(z, bl, s) == 0
            && (s.Zone? || At(z, bl, Parent(s)) == At(z, v.blocks, Parent(s)))
            && At(PutZones(z, s, n), PutBlocks(z, bl, s, n), t) == if t == s then n else At(z, v.blocks, t)
    decreases Rank(t)
  {
    ClearKeepsTree(z, v, n, s);
    if !s.Zone? { ClearKeepsTree(z, v, n, Parent(s)); }
    var bl := v.blocks[n := ZeroBlock()];
    var z2, bl2 := PutZones(z, s, n), PutBlocks(z, bl, s, n);
    if !t.Zone? {
      var q := Parent(t);
      PutChangesOneSlot(z, v, s, n, q);
      if q == s {
        assert bl2[n] == ZeroBlock();
        assert Word(ZeroBlock(), Index(t)) == 0;
      } else if At(z, v.blocks, q) != 0 {
        PutInTable(z, v, s, n, t);
      }
    }
  }

  /** Clearing a free zone does not change the tree. */
  lemma {:induction false} ClearKeepsTree(z: Zones, v: Vol, n: nat, t: TreeSlot)
    requires v.Valid() && Sound(z, v) && v.InDataZone(n) && !v.Allocated(n)
    ensures At(z, v.blocks[n := ZeroBlock()], t) == At(z, v.blocks, t)
    decreases Rank(t)
  {
    if !t.Zone? {
      ClearKeepsTree(z, v, n, Parent(t));
    }
  }

  lemma PutInTable(z: Zones, v: Vol, s: TreeSlot, n: nat, t: TreeSlot)
    requires v.Valid() && CanPut(z, v, s, n)
    requires !t.Zone? && Parent(t) != s && At(z, v.blocks, Parent(t)) != 0
    requires !s.Zone? ==> At(z, v.blocks[n := ZeroBlock()], Parent(s)) == At(z, v.blocks, Parent(s))
    ensures var bl2 := PutBlocks(z, v.blocks[n := ZeroBlock()], s, n);
            Entry(bl2, At(z, v.blocks, Parent(t)), Index(t)) == if t == s then n else At(z, v.blocks, t)
  {
  }

  /** One allocation step of `_bmap`: take a free zone, clear it, store it in slot s. */
  lemma PutGrows(z: Zones, v: Vol, w: Vol, s: TreeSlot, n: nat, path: set<Slot>)
    requires v.Valid() && w.Valid() && CanPut(z, v, s, n) && s in path
    requires TookZone(v, w, n)
    requires !s.Zone? ==> At(z, w.blocks, Parent(s)) < |w.blocks|
    ensures var w2 := w.(blocks := PutBlocks(z, w.blocks, s, n));
            && w2.Valid()
            && Grew(z, v, PutZones(z, s, n), w2, path)
            && At(PutZones(z, s, n), w2.blocks, s) == n
  {
    var z2, w2 := PutZones(z, s, n), w.(blocks := PutBlocks(z, w.blocks, s, n));
    forall t: TreeSlot
      ensures At(z2, w2.blocks, t) == if t == s then n else At(z, v.blocks, t)
    {
      PutChangesOneSlot(z, v, s, n, t);
    }
    assert forall nr: nat :: w2.BitSet(nr) == w.BitSet(nr);
    PutSound(z, v, z2, w2, s, n);
    PutKeepsBlocks(z, v, w, s, n);
    forall t: TreeSlot | DataSlot(t)
      ensures Data(z2, w2.blocks, t) == Data(z, v.blocks, t)
    {
      PutKeepsData(z, v, z2, w2, s, n, t);
    }
  }

  lemma PutSound(z: Zones, v: Vol, z2: Zones, w: Vol, s: TreeSlot, n: nat)
    requires v.Valid() && w.Valid() && CanPut(z, v, s, n)
    requires forall c: int :: w.Allocated(c) == (c == n || v.Allocated(c))
    requires forall t: TreeSlot :: At(z2, w.blocks, t) == if t == s then n else At(z, v.blocks, t)
    ensures Sound(z2, w)
  {
  }

  /** Apart from the new zone, only the table that holds slot s is written. */
  lemma PutKeepsBlocks(z: Zones, v: Vol, w: Vol, s: TreeSlot, n: nat)
    requires v.Valid() && w.Valid() && CanPut(z, v, s, n) && TookZone(v, w, n)
    requires !s.Zone? ==> At(z, w.blocks, Parent(s)) < |w.blocks|
    ensures var bl := PutBlocks(z, w.blocks, s, n);
            && |bl| == |v.blocks|
            && (forall b: nat :: b < |bl| && b != n && (s.Zone? || b != At(z, v.blocks, Parent(s))) ==>
              bl[b] == v.blocks[b])
            && bl[n] == ZeroBlock()
            && (forall b: nat :: v.Allocated(b) && !Holds(z, v.blocks, b) ==> bl[b] == v.blocks[b])
  {
    if !s.Zone? {
      ClearKeepsTree(z, v, n, Parent(s));
      assert v.Allocated(At(z, v.blocks, Parent(s)));
      assert Holds(z, v.blocks, At(z, v.blocks, Parent(s)));
    }
  }

  lemma PutKeepsData(z: Zones, v: Vol, z2: Zones, w2: Vol, s: TreeSlot, n: nat, t: TreeSlot)
    requires v.Valid() && w2.Valid() && CanPut(z, v, s, n) && DataSlot(t)
    requires At(z2, w2.blocks, t) == if t == s then n else At(z, v.blocks, t)
    requires w2.nzones == v.nzones && w2.blocks[n] == ZeroBlock()
    requires forall b: nat :: b < |w2.blocks| && b != n && (s.Zone? || b != At(z, v.blocks, Parent(s))) ==>
             w2.blocks[b] == v.blocks[b]
    ensures Data(z2, w2.blocks, t) == Data(z, v.blocks, t)
  {
  }

  /** Nothing changed but bits past the end of the volume. */
  lemma SameZonesGrew(z: Zones, v: Vol, w: Vol, path: set<Slot>)
    requires v.Valid() && w.Valid() && Sound(z, v) && SameDataZones(v, w)
    ensures Grew(z, v, z, w, path)
  {
  }

  lemma GrewTransitive(z: Zones, v: Vol, z1: Zones, v1: Vol, z2: Zones, v2: Vol, path: set<Slot>)
    requires v.Valid() && v1.Valid() && v2.Valid() && Sound(z, v)
    requires Grew(z, v, z1, v1, path) && Grew(z1, v1, z2, v2, path)
    ensures Grew(z, v, z2, v2, path)
  {
  }

  /** The zones of every other file block are unchanged, filled or not. */
  lemma GrewKeepsOtherBlocks(z: Zones, v: Vol, z2: Zones, w: Vol, n: nat, m: nat)
    requires v.Valid() && w.Valid() && n < MAX_BLOCKS && m < MAX_BLOCKS && m != n
    requires Grew(z, v, z2, w, Path(n))
    ensures At(z2, w.blocks, SlotOf(m)) == At(z, v.blocks, SlotOf(m))
  {
  }

  /** A different file whose tree is disjoint from the one that grew keeps its whole tree
      and all its data. */
  lemma {:induction false} DisjointFileKept(z: Zones, bl: seq<Block>, bl2: seq<Block>, v: Vol, s: TreeSlot)
    requires v.Valid() && v.blocks == bl && |bl2| == |bl| && Sound(z, v)
    requires forall b: nat :: b < |bl| && Holds(z, bl, b) ==> bl2[b] == bl[b]
    ensures At(z, bl2, s) == At(z, bl, s)
    ensures Data(z, bl2, s) == Data(z, bl, s)
    decreases Rank(s)
  {
    if !s.Zone? {
      DisjointFileKept(z, bl, bl2, v, Parent(s));
    }
    assert At(z, bl2, s) == At(z, bl, s);
    if At(z, bl, s) != 0 {
      assert Holds(z, bl, At(z, bl, s));
    }
  }
}
