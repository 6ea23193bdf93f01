/** `_bmap`, `bmap` and `create_block` of fs/inode.c. */
module Inodes {
  import opened Volume
  import opened BlockTree

  class Inode {
    var zone: Zones
    var size: nat
    var dirt: bool

    constructor (zone: Zones, size: nat)
      ensures this.zone == zone && this.size == size && !dirt
    {
      this.zone := zone;
      this.size := size;
      dirt := false;
    }
  }

  /** The inode's tree is sound on a valid device. */
  ghost predicate Ready(dev: Device, inode: Inode)
    reads dev, inode
  {
    dev.Valid() && Sound(inode.zone, dev.vol)
  }

  ghost function Holding(dev: Device, inode: Inode, s: TreeSlot): nat
    reads dev, inode
  {
    At(inode.zone, dev.vol.blocks, s)
  }

  /** Allocate a zone for the empty slot s and store it there. */
  method Fill(dev: Device, inode: Inode, s: TreeSlot, ghost path: set<Slot>) returns (n: nat)
    requires Ready(dev, inode) && s in path
    requires Holding(dev, inode, s) == 0
    requires s.Zone? || Holding(dev, inode, Parent(s)) != 0
    modifies dev`vol, inode`zone, inode`dirt
    ensures Ready(dev, inode)
    ensures Grew(old(inode.zone), old(dev.vol), inode.zone, dev.vol, path)
    ensures Holding(dev, inode, s) == n
    ensures n == 0 <==> !CanPick(old(dev.vol))
    ensures n == 0 ==> !CanPick(dev.vol)
  {
    ghost var z, v := inode.zone, dev.vol;
    if !s.Zone? { assert v.Allocated(At(z, v.blocks, Parent(s))); }
    n := dev.NewBlock();
    if n == 0 {
      SameZonesGrew(z, v, dev.vol, path);
      return;
    }
    ghost var w := dev.vol;
    if s.Zone? {
      inode.zone := inode.zone[s.i := n];
      inode.dirt := true;
    } else {
      ClearKeepsTree(z, v, n, Parent(s));
      var table := At(inode.zone, dev.vol.blocks, Parent(s));
      dev.vol := dev.vol.(blocks := dev.vol.blocks[table := WithWord(dev.vol.blocks[table], Index(s), n)]);
    }
    PutGrows(z, v, w, s, n, path);
  }

  /** `create && !slot` followed by an allocation: the step `_bmap` repeats per level. */
  method Ensure(dev: Device, inode: Inode, s: TreeSlot, create: bool, ghost path: set<Slot>) returns (n: nat)
    requires Ready(dev, inode) && s in path
    requires s.Zone? || Holding(dev, inode, Parent(s)) != 0
    modifies dev`vol, inode`zone, inode`dirt
    ensures Ready(dev, inode)
    ensures Grew(old(inode.zone), old(dev.vol), inode.zone, dev.vol, path)
    ensures Holding(dev, inode, s) == n
    ensures !create ==> dev.vol == old(dev.vol) && inode.zone == old(inode.zone)
    ensures create && n == 0 ==> !CanPick(dev.vol)
  {
    SameZonesGrew(inode.zone, dev.vol, dev.vol, path);
    n := At(inode.zone, dev.vol.blocks, s);
    if create && n == 0 {
      n := Fill(dev, inode, s, path);
    }
  }

  /** Entry `Index(s)` of the table its parent names: the table is read into a held
      buffer, the entry is filled if asked, and the buffer is released. */
  method EnsureEntry(dev: Device, inode: Inode, s: TreeSlot, create: bool, ghost path: set<Slot>)
    returns (n: nat)
    requires Ready(dev, inode) && s in path && !s.Zone? && Holding(dev, inode, Parent(s)) != 0
    modifies dev, inode`zone, inode`dirt
    ensures Ready(dev, inode) && dev.users == old(dev.users)
    ensures Grew(old(inode.zone), old(dev.vol), inode.zone, dev.vol, path)
    ensures dev.errors == old(dev.errors) || (dev.errors == old(dev.errors) + 1 && n == 0)
    ensures dev.errors == old(dev.errors) ==> Holding(dev, inode, s) == n && (create && n == 0 ==> !CanPick(dev.vol))
    ensures !create ==> dev.vol == old(dev.vol) && inode.zone == old(inode.zone)
  {
    var table := At(inode.zone, dev.vol.blocks, Parent(s));
    SameZonesGrew(inode.zone, dev.vol, dev.vol, path);
    var ok := dev.Bread(table);
    if !ok {
      return 0;
    }
    n := Ensure(dev, inode, s, create, path);
    dev.Brelse(table);
  }

  /** `_bmap`, stated on the device's bytes. File blocks outside the tree make the kernel panic. A table that cannot be
      read gives 0; otherwise the result is what the slot of the block holds, and 0 from a
      creating call means that no zone can be allocated. */
  method Bmap(dev: Device, inode: Inode, block: int, create: bool) returns (nr: nat)
    requires Ready(dev, inode)
    requires 0 <= block < MAX_BLOCKS
    modifies dev, inode`zone, inode`dirt
    ensures Ready(dev, inode) && dev.users == old(dev.users)
    ensures Grew(old(inode.zone), old(dev.vol), inode.zone, dev.vol, Path(block))
    ensures dev.errors == old(dev.errors) || (dev.errors == old(dev.errors) + 1 && nr == 0)
    ensures dev.errors == old(dev.errors) ==>
              nr == Holding(dev, inode, SlotOf(block)) && (create && nr == 0 ==> !CanPick(dev.vol))
    ensures dev.errors == old(dev.errors) ==> Names(inode.zone, dev.vol.blocks, block, nr)
    ensures !create ==> dev.vol == old(dev.vol) && inode.zone == old(inode.zone)
  {
    hide Grew, Sound, At, SlotOf;
    nr := FindSlot(dev, inode, block, create);
    if dev.errors == old(dev.errors) {
      SlotNames(inode.zone, dev.vol, block);
    }
  }

  /** The branches of `_bmap`: direct, single-indirect, double-indirect. */
  method FindSlot(dev: Device, inode: Inode, block: int, create: bool) returns (nr: nat)
    requires Ready(dev, inode)
    requires 0 <= block < MAX_BLOCKS
    modifies dev, inode`zone, inode`dirt
    ensures Ready(dev, inode) && dev.users == old(dev.users)
    ensures Grew(old(inode.zone), old(dev.vol), inode.zone, dev.vol, Path(block))
    ensures dev.errors == old(dev.errors) || (dev.errors == old(dev.errors) + 1 && nr == 0)
    ensures dev.errors == old(dev.errors) ==>
              nr == Holding(dev, inode, SlotOf(block)) && (create && nr == 0 ==> !CanPick(dev.vol))
    ensures !create ==> dev.vol == old(dev.vol) && inode.zone == old(inode.zone)
  {
    ghost var path := Path(block);
    ghost var z, v := inode.zone, dev.vol;
    if block < 7 {
      nr := Ensure(dev, inode, Zone(block), create, path);
      return nr;
    }
    if block - 7 < 512 {
      nr := Ensure(dev, inode, Zone(7), create, path);
      if nr == 0 {
        return 0;
      }
      ghost var z1, v1 := inode.zone, dev.vol;
      nr := EnsureEntry(dev, inode, Ind(block - 7), create, path);
      GrewTransitive(z, v, z1, v1, inode.zone, dev.vol, path);
      return;
    }
    nr := BmapDouble(dev, inode, block, create);
  }

  method BmapDouble(dev: Device, inode: Inode, block: int, create: bool) returns (nr: nat)
    requires Ready(dev, inode)
    requires 519 <= block < MAX_BLOCKS
    modifies dev, inode`zone, inode`dirt
    ensures Ready(dev, inode) && dev.users == old(dev.users)
    ensures Grew(old(inode.zone), old(dev.vol), inode.zone, dev.vol, Path(block))
    ensures dev.errors == old(dev.errors) || (dev.errors == old(dev.errors) + 1 && nr == 0)
    ensures dev.errors == old(dev.errors) ==>
              nr == Holding(dev, inode, SlotOf(block)) && (create && nr == 0 ==> !CanPick(dev.vol))
    ensures !create ==> dev.vol == old(dev.vol) && inode.zone == old(inode.zone)
  {
    var b := block - 519;
    ghost var path := Path(block);
    ghost var z, v := inode.zone, dev.vol;
    nr := Ensure(dev, inode, Zone(8), create, path);
    if nr == 0 {
      return 0;
    }
    ghost var z1, v1 := inode.zone, dev.vol;
    nr := EnsureEntry(dev, inode, Dind(b / 512), create, path);
    GrewTransitive(z, v, z1, v1, inode.zone, dev.vol, path);
    if nr == 0 {
      return;
    }
    ghost var z2, v2 := inode.zone, dev.vol;
    nr := EnsureEntry(dev, inode, Leaf(b / 512, b % 512), create, path);
    GrewTransitive(z, v, z2, v2, inode.zone, dev.vol, path);
  }
}
