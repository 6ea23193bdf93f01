/** fs/truncate.c: freeing the blocks of a regular file. The double-indirect zone is freed
    with the single-indirect routine, so the data under it stays allocated. */
module Truncation {
  import opened Volume
  import opened BlockTree
  import opened Inodes

  /** Zone b is named by a slot of `done`. */
  ghost predicate NamedBy(z: Zones, bl: seq<Block>, done: set<Slot>, b: int) {
    exists s: TreeSlot :: s in done && At(z, bl, s) == b
  }

  /** From v to w exactly the zones named by `done` were freed, save those somebody holds. */
  ghost predicate FreedExactly(z: Zones, v: Vol, w: Vol, users: multiset<nat>, done: set<Slot>)
    requires v.Valid() && w.Valid()
  {
    && w.first == v.first && w.nzones == v.nzones && w.blocks == v.blocks
    && forall b: nat :: w.Allocated(b) == (v.Allocated(b) && !(NamedBy(z, v.blocks, done, b) && users[b] == 0))
  }

  /** Entry k of the table in zone 7 or 8. */
  function TableEntry(zone: nat, k: nat): TreeSlot
    requires (zone == 7 || zone == 8) && k < PER_TABLE
  {
    if zone == 7 then Ind(k) else Dind(k)
  }

  ghost function TableEntries(zone: nat, n: nat): set<Slot>
    requires (zone == 7 || zone == 8) && n <= PER_TABLE
  {
    set k | 0 <= k < n :: TableEntry(zone, k)
  }

  ghost function FirstZones(n: nat): set<Slot>
    requires n <= ZONES
  {
    set i | 0 <= i < n :: Zone(i)
  }

  /** The slots `truncate` frees, given which of the two tables could be read. */
  ghost function Truncated(read7: bool, read8: bool): set<Slot> {
    FirstZones(ZONES)
    + (if read7 then TableEntries(7, PER_TABLE) else {})
    + (if read8 then TableEntries(8, PER_TABLE) else {})
  }

  /** Freeing one more slot: its zone is still allocated, so the already-cleared panic
      cannot happen. */
  lemma FreeOneMore(z: Zones, v: Vol, w: Vol, users: multiset<nat>, done: set<Slot>, s: TreeSlot)
    requires v.Valid() && w.Valid() && Sound(z, v) && FreedExactly(z, v, w, users, done)
    requires s !in done && At(z, v.blocks, s) != 0
    ensures w.Allocated(At(z, v.blocks, s))
  {
  }

  lemma NamedByOneMore(z: Zones, v: Vol, done: set<Slot>, s: TreeSlot, b: nat)
    ensures NamedBy(z, v.blocks, done + {s}, b) == (NamedBy(z, v.blocks, done, b) || At(z, v.blocks, s) == b)
  {
  }

  lemma EmptySlotFreesNothing(z: Zones, v: Vol, w: Vol, users: multiset<nat>, done: set<Slot>, s: TreeSlot)
    requires v.Valid() && w.Valid() && FreedExactly(z, v, w, users, done)
    requires At(z, v.blocks, s) == 0
    ensures FreedExactly(z, v, w, users, done + {s})
  {
  }

  /** `free_block` on what slot s names, or nothing if the slot is empty. `users` are the
      holders before the call began; beyond them only the table of s may be held. */
  method FreeSlot(dev: Device, ghost z: Zones, ghost v: Vol, s: TreeSlot, nr: nat, ghost users: multiset<nat>,
      ghost done: set<Slot>)
    requires v.Valid() && Sound(z, v) && dev.Valid() && FreedExactly(z, v, dev.vol, users, done)
    requires s !in done && nr == At(z, v.blocks, s)
    requires dev.users[nr] == users[nr]
    modifies dev`vol
    ensures dev.Valid() && FreedExactly(z, v, dev.vol, users, done + {s})
    ensures dev.vol.blocks == v.blocks
  {
    ghost var w := dev.vol;
    if nr == 0 {
      EmptySlotFreesNothing(z, v, dev.vol, users, done, s);
      return;
    }
    FreeOneMore(z, v, w, users, done, s);
    dev.FreeBlock(nr);
    forall b: nat
      ensures dev.vol.Allocated(b) == (v.Allocated(b) && !(NamedBy(z, v.blocks, done + {s}, b) && users[b] == 0))
    {
      NamedByOneMore(z, v, done, s, b);
    }
  }

  /** The slots freed after one table, starting from `done`. */
  ghost function AfterTable(zone: nat, done: set<Slot>, read: bool): set<Slot>
    requires zone == 7 || zone == 8
  {
    done + (if read then TableEntries(zone, PER_TABLE) else {}) + {Zone(zone)}
  }

  /** `free_ind` on zone 7 or 8: the entries of the table if it can be read, then the table. */
  method FreeInd(dev: Device, ghost z: Zones, ghost v: Vol, zone: nat, block: nat, ghost done: set<Slot>)
    returns (ghost read: bool)
    requires (zone == 7 || zone == 8) && block == z[zone]
    requires v.Valid() && Sound(z, v) && dev.Valid() && FreedExactly(z, v, dev.vol, dev.users, done)
    requires Zone(zone) !in done && TableEntries(zone, PER_TABLE) !! done
    modifies dev
    ensures dev.Valid() && dev.users == old(dev.users)
    ensures dev.errors == old(dev.errors) + (if read then 0 else 1)
    ensures FreedExactly(z, v, dev.vol, dev.users, AfterTable(zone, done, read))
  {
    hide Sound, FreedExactly, TableEntries;
    if block == 0 {
      EmptyTableFreesNothing(z, v, dev.vol, dev.users, zone, done);
      return true;
    }
    ghost var all;
    read, all := FreeTableIfRead(dev, z, v, zone, block, done);
    NotAnEntry(zone, PER_TABLE);
    FreeSlot(dev, z, v, Zone(zone), block, dev.users, all);
  }

  lemma NotAnEntry(zone: nat, n: nat)
    requires (zone == 7 || zone == 8) && n <= PER_TABLE
    ensures Zone(zone) !in TableEntries(zone, n)
  {
  }

  method FreeTableIfRead(dev: Device, ghost z: Zones, ghost v: Vol, zone: nat, block: nat, ghost done: set<Slot>)
    returns (ghost read: bool, ghost all: set<Slot>)
    requires (zone == 7 || zone == 8) && block == z[zone] && block != 0
    requires v.Valid() && Sound(z, v) && dev.Valid() && FreedExactly(z, v, dev.vol, dev.users, done)
    requires Zone(zone) !in done && TableEntries(zone, PER_TABLE) !! done
    modifies dev
    ensures dev.Valid() && dev.users == old(dev.users)
    ensures dev.errors == old(dev.errors) + (if read then 0 else 1)
    ensures all == done + (if read then TableEntries(zone, PER_TABLE) else {})
    ensures FreedExactly(z, v, dev.vol, dev.users, all)
  {
    hide Sound, FreedExactly, TableEntries;
    ghost var users := dev.users;
    FreeOneMore(z, v, dev.vol, users, done, Zone(zone));
    var ok := dev.Bread(block);
    read, all := ok, done;
    if !ok {
      assert done + {} == done;
      return;
    }
    assert dev.errors == old(dev.errors);
    all := FreeEntries(dev, z, v, zone, block, users, done);
    assert dev.errors == old(dev.errors);
    assert users + multiset{block} - multiset{block} == users;
    dev.Brelse(block);
  }

  method FreeEntries(dev: Device, ghost z: Zones, ghost v: Vol, zone: nat, block: nat, ghost users: multiset<nat>,
      ghost done: set<Slot>)
    returns (ghost all: set<Slot>)
    requires (zone == 7 || zone == 8) && block == z[zone] && block != 0
    requires v.Valid() && Sound(z, v) && dev.Valid() && FreedExactly(z, v, dev.vol, users, done)
    requires Zone(zone) !in done && TableEntries(zone, PER_TABLE) !! done
    requires dev.users == users + multiset{block}
    modifies dev`vol
    ensures dev.Valid() && all == done + TableEntries(zone, PER_TABLE)
    ensures FreedExactly(z, v, dev.vol, users, all)
  {
    hide Sound;
    all := done;
    assert TableEntries(zone, 0) == {};
    assert dev.vol.blocks == v.blocks;
    hide FreedExactly;
    var i := 0;
    while i < PER_TABLE
      invariant 0 <= i <= PER_TABLE && dev.Valid() && dev.users == users + multiset{block}
      invariant dev.vol.blocks == v.blocks
      invariant all == done + TableEntries(zone, i)
      invariant FreedExactly(z, v, dev.vol, users, all)
    {
      var s := TableEntry(zone, i);
      EntryOfTable(z, v, zone, i);
      var nr := Word(dev.vol.blocks[block], i);
      NextTableEntry(zone, i);
      FreeSlot(dev, z, v, s, nr, users, all);
      all := all + {s};
      i := i + 1;
    }
  }

  lemma EntryOfTable(z: Zones, v: Vol, zone: nat, k: nat)
    requires (zone == 7 || zone == 8) && z[zone] != 0 && k < PER_TABLE && v.Valid() && Sound(z, v)
    ensures z[zone] < |v.blocks| && v.Allocated(z[zone])
    ensures Word(v.blocks[z[zone]], k) == At(z, v.blocks, TableEntry(zone, k)) != z[zone]
  {
    assert At(z, v.blocks, Zone(zone)) == z[zone];
    assert TableEntry(zone, k) != Zone(zone);
  }

  lemma NextTableEntry(zone: nat, k: nat)
    requires (zone == 7 || zone == 8) && k < PER_TABLE
    ensures TableEntry(zone, k) in TableEntries(zone, PER_TABLE) && TableEntry(zone, k) !in TableEntries(zone, k)
    ensures TableEntries(zone, k + 1) == TableEntries(zone, k) + {TableEntry(zone, k)}
  {
  }

  lemma EmptyTableFreesNothing(z: Zones, v: Vol, w: Vol, users: multiset<nat>, zone: nat, done: set<Slot>)
    requires (zone == 7 || zone == 8) && z[zone] == 0
    requires v.Valid() && w.Valid() && FreedExactly(z, v, w, users, done)
    ensures FreedExactly(z, v, w, users, done + TableEntries(zone, PER_TABLE) + {Zone(zone)})
  {
  }

  lemma TruncatedInOrder(read7: bool, read8: bool)
    ensures Zone(7) !in FirstZones(7) && TableEntries(7, PER_TABLE) !! FirstZones(7)
    ensures var after7 := AfterTable(7, FirstZones(7), read7);
            && Zone(8) !in after7 && TableEntries(8, PER_TABLE) !! after7
            && AfterTable(8, after7, read8) == Truncated(read7, read8)
  {
  }

  /** `truncate`. Only regular files are truncated. */
  method Truncate(dev: Device, inode: Inode, regular: bool) returns (ghost read7: bool, ghost read8: bool)
    requires Ready(dev, inode)
    modifies dev, inode
    ensures dev.Valid() && dev.users == old(dev.users)
    ensures dev.errors == old(dev.errors) + (if read7 then 0 else 1) + (if read8 then 0 else 1)
    ensures !regular ==> dev.vol == old(dev.vol) && inode.zone == old(inode.zone) && inode.size == old(inode.size)
    ensures regular ==>
              && (forall k :: 0 <= k < ZONES ==> inode.zone[k] == 0) && inode.size == 0 && inode.dirt
              && FreedExactly(old(inode.zone), old(dev.vol), dev.vol, dev.users, Truncated(read7, read8))
  {
    read7, read8 := true, true;
    if !regular {
      return;
    }
    ghost var z, v := inode.zone, dev.vol;
    hide FreedExactly, Sound, FirstZones, TableEntries, Truncated, AfterTable;
    FreeDirect(dev, inode);
    TruncatedInOrder(true, true);
    read7 := FreeInd(dev, z, v, 7, inode.zone[7], FirstZones(7));
    TruncatedInOrder(read7, true);
    read8 := FreeInd(dev, z, v, 8, inode.zone[8], AfterTable(7, FirstZones(7), read7));
    TruncatedInOrder(read7, read8);
    inode.zone := inode.zone[7 := 0][8 := 0];
    inode.size := 0;
    inode.dirt := true;
  }

  method FreeDirect(dev: Device, inode: Inode)
    requires Ready(dev, inode)
    modifies dev`vol, inode`zone
    ensures dev.Valid() && FreedExactly(old(inode.zone), old(dev.vol), dev.vol, dev.users, FirstZones(7))
    ensures forall k :: 0 <= k < 7 ==> inode.zone[k] == 0
    ensures inode.zone[7] == old(inode.zone)[7] && inode.zone[8] == old(inode.zone)[8]
  {
    ghost var z, v := inode.zone, dev.vol;
    ghost var done: set<Slot> := {};
    var i := 0;
    while i < 7
      invariant 0 <= i <= 7 && dev.Valid()
      invariant done == FirstZones(i)
      invariant FreedExactly(z, v, dev.vol, dev.users, done)
      invariant forall k :: 0 <= k < i ==> inode.zone[k] == 0
      invariant forall k :: i <= k < ZONES ==> inode.zone[k] == z[k]
    {
      assert At(z, v.blocks, Zone(i)) == inode.zone[i];
      FreeSlot(dev, z, v, Zone(i), inode.zone[i], dev.users, done);
      if inode.zone[i] != 0 {
        inode.zone := inode.zone[i := 0];
      }
      done := done + {Zone(i)};
      assert FirstZones(i + 1) == FirstZones(i) + {Zone(i)};
      i := i + 1;
    }
  }

  /** Truncation frees zones of the file's own tree only, and writes no block. */
  lemma TruncateFreesOnlyTree(z: Zones, v: Vol, w: Vol, users: multiset<nat>, done: set<Slot>, b: nat)
    requires v.Valid() && w.Valid() && FreedExactly(z, v, w, users, done)
    requires v.Allocated(b) && !w.Allocated(b)
    ensures Holds(z, v.blocks, b)
  {
  }

  /** A sound file disjoint from the truncated one stays sound. */
  lemma TruncateKeepsOthers(z: Zones, v: Vol, w: Vol, users: multiset<nat>, done: set<Slot>, other: Zones)
    requires v.Valid() && w.Valid() && FreedExactly(z, v, w, users, done)
    requires Sound(other, v) && forall b: nat :: !(Holds(z, v.blocks, b) && Holds(other, v.blocks, b))
    ensures Sound(other, w)
  {
    forall s: TreeSlot | At(other, w.blocks, s) != 0
      ensures w.Allocated(At(other, w.blocks, s))
    {
      var b := At(other, v.blocks, s);
      assert Holds(other, v.blocks, b);
      if !w.Allocated(b) {
        TruncateFreesOnlyTree(z, v, w, users, done, b);
      }
    }
  }

  /** The whole tree is freed exactly when there is no data under the double-indirect zone
      (given that the tables could be read and nobody holds a block of the tree). */
  lemma TruncateFreesAllIff(z: Zones, v: Vol, w: Vol, users: multiset<nat>)
    requires v.Valid() && w.Valid() && Sound(z, v)
    requires FreedExactly(z, v, w, users, Truncated(true, true))
    requires forall b: nat :: Holds(z, v.blocks, b) ==> users[b] == 0
    ensures (forall b: nat :: Holds(z, v.blocks, b) ==> !w.Allocated(b)) <==>
            (forall k: nat, j: nat :: k < PER_TABLE && j < PER_TABLE ==> At(z, v.blocks, Leaf(k, j)) == 0)
  {
    if forall k: nat, j: nat :: k < PER_TABLE && j < PER_TABLE ==> At(z, v.blocks, Leaf(k, j)) == 0 {
      forall b: nat | Holds(z, v.blocks, b)
        ensures !w.Allocated(b)
      {
        var s: TreeSlot :| At(z, v.blocks, s) == b;
        NonLeafIsTruncated(s);
      }
    }
    forall k: nat, j: nat | k < PER_TABLE && j < PER_TABLE && At(z, v.blocks, Leaf(k, j)) != 0
      ensures exists b: nat :: Holds(z, v.blocks, b) && w.Allocated(b)
    {
      var b := At(z, v.blocks, Leaf(k, j));
      assert Holds(z, v.blocks, b) && v.Allocated(b);
      assert Leaf(k, j) !in Truncated(true, true);
      assert !NamedBy(z, v.blocks, Truncated(true, true), b);
    }
  }

  lemma NonLeafIsTruncated(s: TreeSlot)
    ensures s in Truncated(true, true) || s.Leaf?
  {
    match s
    case Zone(i) =>
    case Ind(k) => assert s == TableEntry(7, k);
    case Dind(k) => assert s == TableEntry(8, k);
    case Leaf(_, _) =>
  }

  /** A file of one block reached through the double-indirect zone: zone 1 is its table, zone 2
      the table that names, zone 3 the data. */
  function DoubleIndirectZones(): Zones {
    [0, 0, 0, 0, 0, 0, 0, 0, 1]
  }

  function DoubleIndirectVolume(): (v: Vol)
    ensures v.Valid()
  {
    var full := Bits(seq(MAP_BITS, _ => true));
    Vol(1, 4, [full, Absent, Absent, Absent, Absent, Absent, Absent, Absent],
        [ZeroBlock(), WithWord(ZeroBlock(), 0, 2), WithWord(ZeroBlock(), 0, 3), ZeroBlock()])
  }

  lemma DoubleIndirectSlots(s: TreeSlot)
    ensures At(DoubleIndirectZones(), DoubleIndirectVolume().blocks, s) ==
            if s == Zone(8) then 1 else if s == Dind(0) then 2 else if s == Leaf(0, 0) then 3 else 0
  {
  }

  /** Truncating that sound file leaves its data block allocated for ever. */
  lemma TruncateLeaksBlock(w: Vol)
    requires w.Valid()
    requires FreedExactly(DoubleIndirectZones(), DoubleIndirectVolume(), w, multiset{}, Truncated(true, true))
    ensures Sound(DoubleIndirectZones(), DoubleIndirectVolume())
    ensures Holds(DoubleIndirectZones(), DoubleIndirectVolume().blocks, 3) && w.Allocated(3)
  {
    var (z, v) := (DoubleIndirectZones(), DoubleIndirectVolume());
    forall s: TreeSlot
      ensures At(z, v.blocks, s) ==
              if s == Zone(8) then 1 else if s == Dind(0) then 2 else if s == Leaf(0, 0) then 3 else 0
    {
      DoubleIndirectSlots(s);
    }
    assert Leaf(0, 0) !in Truncated(true, true);
    assert At(z, v.blocks, Leaf(0, 0)) == 3 && v.Allocated(3);
  }
}
