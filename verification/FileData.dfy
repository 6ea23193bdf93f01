/** `file_read` and `file_write` of fs/file_dev.c: a file is a flat array of bytes whose
    missing blocks read as zeros. */
module FileData {
  import opened Bytes
  import opened Volume
  import opened BlockTree
  import opened Inodes

  const MAX_BYTES: nat := MAX_BLOCKS * BLOCK_SIZE
  const ERROR: int := 99

  /** Byte p of a file. */
  function Content(z: Zones, bl: seq<Block>, p: nat): Byte
    requires p < MAX_BYTES
  {
    Data(z, bl, SlotOf(p / BLOCK_SIZE))[p % BLOCK_SIZE]
  }

  /** Byte p of a file lies in the zone of its block of 1024 bytes, or is zero if that is missing. */
  lemma ContentOnDisk(z: Zones, v: Vol, p: nat, nr: nat)
    requires v.Valid() && Sound(z, v) && p < 262663 * 1024 && Names(z, v.blocks, p / 1024, nr)
    ensures if nr == 0 then Content(z, v.blocks, p) == 0
            else nr < |v.blocks| && Content(z, v.blocks, p) == v.blocks[nr][p % 1024]
  {
    var n := p / 1024;
    SlotNames(z, v, n);
    assert nr == At(z, v.blocks, SlotOf(n));
    assert nr != 0 ==> v.Allocated(nr);
    hide At, Names, SlotOf;
  }

  /** The bytes of (z2, w) are those of (z, v) with `bytes` spliced in at `start`. */
  ghost predicate Spliced(z: Zones, v: Vol, z2: Zones, w: Vol, start: nat, bytes: seq<Byte>) {
    forall p: nat :: p < MAX_BYTES ==>
      Content(z2, w.blocks, p) ==
      if start <= p < start + |bytes| then bytes[p - start] else Content(z, v.blocks, p)
  }

  /** The tree only gained zones that were free, and no zone outside it was touched. */
  ghost predicate Outside(z: Zones, v: Vol, z2: Zones, w: Vol)
    requires v.Valid() && w.Valid()
  {
    && w.first == v.first && w.nzones == v.nzones
    && Sound(z2, w)
    && (forall t: TreeSlot ::
          At(z2, w.blocks, t) == At(z, v.blocks, t) ||
          (At(z, v.blocks, t) == 0 && !v.Allocated(At(z2, w.blocks, t))))
    && (forall b: int :: v.Allocated(b) ==> w.Allocated(b))
    && (forall b: int :: v.Allocated(b) && !Holds(z, v.blocks, b) ==> w.blocks[b] == v.blocks[b])
  }

  ghost predicate Disjoint(z: Zones, z': Zones, bl: seq<Block>) {
    forall b: nat :: !(Holds(z, bl, b) && Holds(z', bl, b))
  }

  /** A file disjoint from the one that was written keeps its tree, its data and its
      soundness, and stays disjoint. */
  lemma OtherFileKept(z: Zones, v: Vol, z2: Zones, w: Vol, other: Zones)
    requires v.Valid() && w.Valid() && Outside(z, v, z2, w)
    requires Sound(other, v) && Disjoint(z, other, v.blocks)
    ensures forall s: TreeSlot :: At(other, w.blocks, s) == At(other, v.blocks, s)
    ensures forall s: TreeSlot :: Data(other, w.blocks, s) == Data(other, v.blocks, s)
    ensures Sound(other, w) && Disjoint(z2, other, w.blocks)
  {
    forall b: nat | b < |v.blocks| && Holds(other, v.blocks, b)
      ensures w.blocks[b] == v.blocks[b]
    {
      assert v.Allocated(b);
    }
    forall s: TreeSlot
      ensures At(other, w.blocks, s) == At(other, v.blocks, s)
      ensures Data(other, w.blocks, s) == Data(other, v.blocks, s)
    {
      DisjointFileKept(other, v.blocks, w.blocks, v, s);
    }
    forall b: nat
      ensures !(Holds(z2, w.blocks, b) && Holds(other, w.blocks, b))
    {
      OtherStaysDisjoint(z, v, z2, w, other, b);
    }
  }

  lemma OtherStaysDisjoint(z: Zones, v: Vol, z2: Zones, w: Vol, other: Zones, b: nat)
    requires v.Valid() && w.Valid() && Outside(z, v, z2, w)
    requires Sound(other, v) && Disjoint(z, other, v.blocks)
    requires forall s: TreeSlot :: At(other, w.blocks, s) == At(other, v.blocks, s)
    ensures !(Holds(z2, w.blocks, b) && Holds(other, w.blocks, b))
  {
    if Holds(other, w.blocks, b) {
      assert Holds(other, v.blocks, b) && v.Allocated(b);
      assert !Holds(z, v.blocks, b);
    }
  }

  /** The same fact byte by byte. */
  lemma OtherFileReadsSame(z: Zones, v: Vol, z2: Zones, w: Vol, other: Zones, p: nat)
    requires v.Valid() && w.Valid() && Outside(z, v, z2, w) && p < MAX_BYTES
    requires Sound(other, v) && Disjoint(z, other, v.blocks)
    ensures Content(other, w.blocks, p) == Content(other, v.blocks, p)
  {
    OtherFileKept(z, v, z2, w, other);
  }

  lemma GrewIsOutside(z: Zones, v: Vol, z2: Zones, w: Vol, path: set<Slot>)
    requires v.Valid() && w.Valid() && Grew(z, v, z2, w, path)
    ensures Outside(z, v, z2, w)
  {
  }

  /** Growing the tree changes no byte of the file. */
  lemma GrewKeepsContent(z: Zones, v: Vol, z2: Zones, w: Vol, path: set<Slot>, p: nat)
    requires v.Valid() && w.Valid() && Grew(z, v, z2, w, path) && p < MAX_BYTES
    ensures Content(z2, w.blocks, p) == Content(z, v.blocks, p)
  {
  }

  /** Rewriting the block of one data slot changes no slot, and no other slot's data. */
  lemma {:induction false} DataWriteKeepsTree(z: Zones, v: Vol, s: TreeSlot, data: Block, t: TreeSlot)
    requires v.Valid() && Sound(z, v) && DataSlot(s) && At(z, v.blocks, s) != 0
    ensures At(z, v.blocks, s) < |v.blocks|
    ensures var bl := v.blocks[At(z, v.blocks, s) := data];
            && At(z, bl, t) == At(z, v.blocks, t)
            && Data(z, bl, t) == if t == s then data else Data(z, v.blocks, t)
    decreases Rank(t)
  {
    assert v.Allocated(At(z, v.blocks, s));
    if !t.Zone? {
      DataWriteKeepsTree(z, v, s, data, Parent(t));
      assert Parent(t) != s;
    }
  }

  lemma DataWriteOutside(z: Zones, v: Vol, s: TreeSlot, data: Block)
    requires v.Valid() && Sound(z, v) && DataSlot(s) && At(z, v.blocks, s) != 0
    ensures At(z, v.blocks, s) < |v.blocks|
    ensures var w := v.(blocks := v.blocks[At(z, v.blocks, s) := data]);
            w.Valid() && Outside(z, v, z, w)
  {
    assert v.Allocated(At(z, v.blocks, s));
    var w := v.WithBlock(At(z, v.blocks, s), data);
    v.WithBlockEffect(At(z, v.blocks, s), data);
    forall t: TreeSlot
      ensures At(z, w.blocks, t) == At(z, v.blocks, t)
    {
      DataWriteKeepsTree(z, v, s, data, t);
    }
  }

  /** Replacing bytes of one block splices them into the file. */
  lemma DataWriteSplices(z: Zones, v: Vol, pos: nat, bytes: seq<Byte>)
    requires v.Valid() && Sound(z, v)
    requires pos % BLOCK_SIZE + |bytes| <= BLOCK_SIZE && pos < MAX_BYTES
    requires At(z, v.blocks, SlotOf(pos / BLOCK_SIZE)) != 0
    ensures var s := SlotOf(pos / BLOCK_SIZE);
            && At(z, v.blocks, s) < |v.blocks|
            && var data := Patched(v.blocks[At(z, v.blocks, s)], pos % BLOCK_SIZE, bytes);
               Spliced(z, v, z, v.(blocks := v.blocks[At(z, v.blocks, s) := data]), pos, bytes)
  {
    var s := SlotOf(pos / BLOCK_SIZE);
    assert v.Allocated(At(z, v.blocks, s));
    var data := Patched(v.blocks[At(z, v.blocks, s)], pos % BLOCK_SIZE, bytes);
    var w := v.(blocks := v.blocks[At(z, v.blocks, s) := data]);
    forall p: nat | p < MAX_BYTES
      ensures Content(z, w.blocks, p) ==
              if pos <= p < pos + |bytes| then bytes[p - pos] else Content(z, v.blocks, p)
    {
      SlotOfInjective(p / BLOCK_SIZE, pos / BLOCK_SIZE);
      DataWriteKeepsTree(z, v, s, data, SlotOf(p / BLOCK_SIZE));
      assert pos == (pos / BLOCK_SIZE) * BLOCK_SIZE + pos % BLOCK_SIZE;
      assert p == (p / BLOCK_SIZE) * BLOCK_SIZE + p % BLOCK_SIZE;
    }
  }

  function Patched(b: Block, off: nat, bytes: seq<Byte>): Block
    requires off + |bytes| <= BLOCK_SIZE
  {
    b[..off] + bytes + b[off + |bytes|..]
  }

  lemma SpliceTwice(z: Zones, v: Vol, z1: Zones, v1: Vol, z2: Zones, v2: Vol, start: nat, a: seq<Byte>, b: seq<Byte>)
    requires Spliced(z, v, z1, v1, start, a) && Spliced(z1, v1, z2, v2, start + |a|, b)
    ensures Spliced(z, v, z2, v2, start, a + b)
  {
  }

  lemma WroteMore(z: Zones, v: Vol, z1: Zones, v1: Vol, z2: Zones, v2: Vol, start: nat, a: seq<Byte>, b: seq<Byte>)
    requires v.Valid() && v1.Valid() && v2.Valid()
    requires Outside(z, v, z1, v1) && Outside(z1, v1, z2, v2)
    requires Spliced(z, v, z1, v1, start, a) && Spliced(z1, v1, z2, v2, start + |a|, b)
    ensures Outside(z, v, z2, v2) && Spliced(z, v, z2, v2, start, a + b)
  {
    SpliceTwice(z, v, z1, v1, z2, v2, start, a, b);
    hide Spliced;
  }

  lemma NothingWritten(z: Zones, v: Vol, start: nat)
    requires v.Valid() && Sound(z, v)
    ensures Outside(z, v, z, v) && Spliced(z, v, z, v, start, [])
  {
  }

  class File {
    var pos: nat
    const append: bool

    constructor (pos: nat, append: bool)
      ensures this.pos == pos && this.append == append
    {
      this.pos := pos;
      this.append := append;
    }
  }

  lemma SlotAllocated(z: Zones, v: Vol, s: TreeSlot)
    requires v.Valid() && Sound(z, v)
    ensures At(z, v.blocks, s) != 0 ==> v.Allocated(At(z, v.blocks, s)) && At(z, v.blocks, s) < |v.blocks|
  {
  }

  /** Copy user bytes into a buffer, one at a time. */
  method PatchBlock(b: Block, off: nat, bytes: seq<Byte>) returns (r: Block)
    requires off + |bytes| <= BLOCK_SIZE
    ensures r == Patched(b, off, bytes)
  {
    r := b;
    var k := 0;
    while k < |bytes|
      invariant 0 <= k <= |bytes|
      invariant r == b[..off] + bytes[..k] + b[off + k..]
    {
      r := r[off + k := bytes[k]];
      k := k + 1;
    }
    assert bytes[..k] == bytes;
  }

  /** The file grows, if it can, to hold file position `pos`; its bytes do not change. */
  method GrowFile(dev: Device, inode: Inode, pos: nat) returns (block: nat)
    requires Ready(dev, inode) && pos < MAX_BYTES
    modifies dev, inode`zone, inode`dirt
    ensures Ready(dev, inode) && dev.users == old(dev.users)
    ensures Outside(old(inode.zone), old(dev.vol), inode.zone, dev.vol)
    ensures Spliced(old(inode.zone), old(dev.vol), inode.zone, dev.vol, pos, [])
    ensures dev.errors >= old(dev.errors)
    ensures block == 0 ==> dev.errors > old(dev.errors) || !CanPick(dev.vol)
    ensures block != 0 ==> dev.errors == old(dev.errors) && block == Holding(dev, inode, SlotOf(pos / BLOCK_SIZE))
  {
    ghost var z, v := inode.zone, dev.vol;
    block := Bmap(dev, inode, pos / BLOCK_SIZE, true);
    GrewIsOutside(z, v, inode.zone, dev.vol, Path(pos / BLOCK_SIZE));
    forall p: nat | p < MAX_BYTES
      ensures Content(inode.zone, dev.vol.blocks, p) == Content(z, v.blocks, p)
    {
      GrewKeepsContent(z, v, inode.zone, dev.vol, Path(pos / BLOCK_SIZE), p);
    }
  }

  /** One turn of the loop of `file_write`: the file grows to hold position `pos`, and
      `bytes`, which stay within one block, are written there. */
  method WriteChunk(dev: Device, inode: Inode, pos: nat, bytes: seq<Byte>) returns (ok: bool)
    requires Ready(dev, inode)
    requires pos % BLOCK_SIZE + |bytes| <= BLOCK_SIZE && pos < MAX_BYTES
    modifies dev, inode`zone, inode`dirt
    ensures Ready(dev, inode) && dev.users == old(dev.users)
    ensures Outside(old(inode.zone), old(dev.vol), inode.zone, dev.vol)
    ensures Spliced(old(inode.zone), old(dev.vol), inode.zone, dev.vol, pos, if ok then bytes else [])
    ensures dev.errors >= old(dev.errors) && (ok ==> dev.errors == old(dev.errors))
    ensures !ok ==> dev.errors > old(dev.errors) || !CanPick(dev.vol)
  {
    hide Spliced, Outside, Sound, CanPick, SlotOf, At, Vol.Valid, Vol.Allocated;
    ghost var z, v := inode.zone, dev.vol;
    var block := GrowFile(dev, inode, pos);
    ghost var z1, v1 := inode.zone, dev.vol;
    if block == 0 {
      return false;
    }
    ok := FillBlock(dev, inode, pos, bytes, block);
    if ok {
      WroteMore(z, v, z1, v1, inode.zone, dev.vol, pos, [], bytes);
      assert [] + bytes == bytes;
    }
  }

  /** The block of a position is read, patched and released. */
  method FillBlock(dev: Device, inode: Inode, pos: nat, bytes: seq<Byte>, block: nat) returns (ok: bool)
    requires Ready(dev, inode)
    requires pos % BLOCK_SIZE + |bytes| <= BLOCK_SIZE && pos < MAX_BYTES
    requires block == Holding(dev, inode, SlotOf(pos / BLOCK_SIZE)) != 0
    modifies dev
    ensures Ready(dev, inode) && dev.users == old(dev.users)
    ensures ok ==> dev.errors == old(dev.errors) && Outside(inode.zone, old(dev.vol), inode.zone, dev.vol)
    ensures ok ==> Spliced(inode.zone, old(dev.vol), inode.zone, dev.vol, pos, bytes)
    ensures !ok ==> dev.errors > old(dev.errors) && dev.vol == old(dev.vol)
  {
    hide Spliced, Outside, Sound, SlotOf, At, Vol.Valid, Vol.Allocated;
    SlotAllocated(inode.zone, dev.vol, SlotOf(pos / BLOCK_SIZE));
    ok := dev.Bread(block);
    if ok {
      StoreInBlock(dev, inode, pos, bytes);
      dev.Brelse(block);
    }
  }

  method StoreInBlock(dev: Device, inode: Inode, pos: nat, bytes: seq<Byte>)
    requires Ready(dev, inode)
    requires pos % BLOCK_SIZE + |bytes| <= BLOCK_SIZE && pos < MAX_BYTES
    requires Holding(dev, inode, SlotOf(pos / BLOCK_SIZE)) != 0
    modifies dev`vol
    ensures Ready(dev, inode)
    ensures Outside(old(inode.zone), old(dev.vol), inode.zone, dev.vol)
    ensures Spliced(old(inode.zone), old(dev.vol), inode.zone, dev.vol, pos, bytes)
  {
    var s := SlotOf(pos / BLOCK_SIZE);
    var block := At(inode.zone, dev.vol.blocks, s);
    SlotOfInjective(pos / BLOCK_SIZE, pos / BLOCK_SIZE);
    DataWriteSplices(inode.zone, dev.vol, pos, bytes);
    var data := PatchBlock(dev.vol.blocks[block], pos % BLOCK_SIZE, bytes);
    DataWriteOutside(inode.zone, dev.vol, s, data);
    dev.vol := dev.vol.(blocks := dev.vol.blocks[block := data]);
  }

  /** `file_write`. Writing past the last file block panics in `_bmap`, so callers stay
      below it. Of the `count` bytes, the first n reach the file; the rest do not, because
      a read failed or no zone can be allocated any more. */
  method FileWrite(dev: Device, inode: Inode, filp: File, buf: seq<Byte>, count: int)
    returns (r: int, ghost n: nat)
    requires Ready(dev, inode)
    requires count <= |buf|
    requires (if filp.append then inode.size else filp.pos) + (if count > 0 then count else 0) <= MAX_BYTES
    modifies dev, inode, filp
    ensures Ready(dev, inode) && dev.users == old(dev.users)
    ensures n <= |buf| && (n <= count || n == 0)
    ensures r == if n > 0 then n else -1
    ensures var start := if filp.append then old(inode.size) else old(filp.pos);
            && Spliced(old(inode.zone), old(dev.vol), inode.zone, dev.vol, start, buf[..n])
            && inode.size == (if n > 0 && start + n > old(inode.size) then start + n else old(inode.size))
            && filp.pos == (if filp.append then old(filp.pos) else start + n)
    ensures dev.errors >= old(dev.errors)
    ensures n < count ==> dev.errors > old(dev.errors) || !CanPick(dev.vol)
    ensures Outside(old(inode.zone), old(dev.vol), inode.zone, dev.vol)
  {
    hide Spliced, Outside, Sound, SlotOf, At, CanPick;
    ghost var z, v, size := inode.zone, dev.vol, inode.size;
    var pos := if filp.append then inode.size else filp.pos;
    ghost var start := pos;
    var i := 0;
    NothingWritten(z, v, start);
    while i < count
      invariant 0 <= i && (i <= count || i == 0) && pos == start + i
      invariant Ready(dev, inode) && dev.users == old(dev.users) && filp.pos == old(filp.pos)
      invariant dev.errors == old(dev.errors)
      invariant inode.size == if i > 0 && pos > size then pos else size
      invariant Outside(z, v, inode.zone, dev.vol)
      invariant Spliced(z, v, inode.zone, dev.vol, start, buf[..i])
    {
      ghost var z1, v1 := inode.zone, dev.vol;
      var c := BLOCK_SIZE - pos % BLOCK_SIZE;
      if c > count - i {
        c := count - i;
      }
      var ok := WriteChunk(dev, inode, pos, buf[i..i + c]);
      WroteMore(z, v, z1, v1, inode.zone, dev.vol, start, buf[..i], if ok then buf[i..i + c] else []);
      if !ok {
        assert buf[..i] + [] == buf[..i];
        break;
      }
      assert buf[..i] + buf[i..i + c] == buf[..i + c];
      pos := pos + c;
      if pos > inode.size {
        inode.size := pos;
        inode.dirt := true;
      }
      i := i + c;
    }
    if !filp.append {
      filp.pos := pos;
    }
    n := i;
    r := if i != 0 then i else -1;
  }

  lemma WithinBlock(pos: nat, k: nat)
    requires pos % BLOCK_SIZE + k < BLOCK_SIZE
    ensures (pos + k) / BLOCK_SIZE == pos / BLOCK_SIZE
    ensures (pos + k) % BLOCK_SIZE == pos % BLOCK_SIZE + k
  {
  }

  /** One turn of the loop of `file_read`: deliver `chars` bytes, which stay in one block. */
  method ReadChunk(dev: Device, inode: Inode, pos: nat, chars: nat, buf: array<Byte>, at: nat)
    returns (ok: bool)
    requires Ready(dev, inode)
    requires pos % BLOCK_SIZE + chars <= BLOCK_SIZE && pos < MAX_BYTES && pos + chars <= MAX_BYTES
    requires at + chars <= buf.Length
    modifies dev, inode`zone, inode`dirt, buf
    ensures Ready(dev, inode) && dev.users == old(dev.users)
    ensures dev.vol == old(dev.vol) && inode.zone == old(inode.zone)
    ensures forall k :: 0 <= k < buf.Length && !(ok && at <= k < at + chars) ==> buf[k] == old(buf[k])
    ensures dev.errors >= old(dev.errors) && (!ok ==> dev.errors > old(dev.errors))
    ensures ok ==> forall k :: at <= k < at + chars ==>
              buf[k] == if dev.errors > old(dev.errors) then 0 else Content(inode.zone, dev.vol.blocks, pos + k - at)
  {
    hide Sound, SlotOf, At, Content, Data;
    var data;
    ok, data := FetchBlock(dev, inode, pos / BLOCK_SIZE);
    if !ok {
      return;
    }
    var off := pos % BLOCK_SIZE;
    CopyOut(buf, at, data[off..off + chars]);
    forall k | at <= k < at + chars
      ensures buf[k] == data[off + (k - at)]
      ensures Content(inode.zone, dev.vol.blocks, pos + k - at) ==
              Data(inode.zone, dev.vol.blocks, SlotOf(pos / BLOCK_SIZE))[off + (k - at)]
    {
      ContentInBlock(inode.zone, dev.vol.blocks, pos, k - at);
    }
  }

  /** The block to read from: zeros for a hole, and for a block whose table cannot be read. */
  method FetchBlock(dev: Device, inode: Inode, block: nat) returns (ok: bool, data: Block)
    requires Ready(dev, inode) && block < MAX_BLOCKS
    modifies dev, inode`zone, inode`dirt
    ensures Ready(dev, inode) && dev.users == old(dev.users)
    ensures dev.vol == old(dev.vol) && inode.zone == old(inode.zone)
    ensures dev.errors >= old(dev.errors) && (!ok ==> dev.errors > old(dev.errors))
    ensures ok ==> data == if dev.errors > old(dev.errors) then ZeroBlock()
                           else Data(inode.zone, dev.vol.blocks, SlotOf(block))
  {
    hide Sound, SlotOf, At;
    var nr := Bmap(dev, inode, block, false);
    SlotAllocated(inode.zone, dev.vol, SlotOf(block));
    data := ZeroBlock();
    ok := true;
    if nr != 0 {
      ok := dev.Bread(nr);
      if ok {
        data := dev.vol.blocks[nr];
        dev.Brelse(nr);
      }
    }
  }

  lemma ContentInBlock(z: Zones, bl: seq<Block>, pos: nat, k: nat)
    requires pos % BLOCK_SIZE + k < BLOCK_SIZE && pos + k < MAX_BYTES
    ensures Content(z, bl, pos + k) == Data(z, bl, SlotOf(pos / BLOCK_SIZE))[pos % BLOCK_SIZE + k]
  {
    WithinBlock(pos, k);
  }

  method CopyOut(buf: array<Byte>, at: nat, bytes: seq<Byte>)
    requires at + |bytes| <= buf.Length
    modifies buf
    ensures forall k :: at <= k < at + |bytes| ==> buf[k] == bytes[k - at]
    ensures forall k :: 0 <= k < buf.Length && !(at <= k < at + |bytes|) ==> buf[k] == old(buf[k])
  {
    var k := 0;
    while k < |bytes|
      invariant 0 <= k <= |bytes|
      invariant forall i :: at <= i < at + k ==> buf[i] == bytes[i - at]
      invariant forall i :: 0 <= i < buf.Length && !(at <= i < at + k) ==> buf[i] == old(buf[i])
    {
      buf[at + k] := bytes[k];
      k := k + 1;
    }
  }

  /** `file_read`. The n bytes delivered are the file's own bytes from the position on,
      except that a block whose table cannot be read is delivered as zeros; fewer than `count`
      are delivered only when a data block cannot be read. Without a failed read it is exactly
      the window of `count` bytes. */
  method FileRead(dev: Device, inode: Inode, filp: File, buf: array<Byte>, count: int)
    returns (r: int, ghost n: nat)
    requires Ready(dev, inode)
    requires count <= buf.Length && (count <= 0 || filp.pos + count <= MAX_BYTES)
    modifies dev, inode`zone, inode`dirt, filp, buf
    ensures Ready(dev, inode) && dev.users == old(dev.users)
    ensures dev.vol == old(dev.vol) && inode.zone == old(inode.zone)
    ensures n <= buf.Length && (count <= 0 ==> n == 0 && r == 0)
    ensures count > 0 ==> n <= count && r == (if n > 0 then n else -ERROR)
    ensures dev.errors >= old(dev.errors) && (n < count ==> dev.errors > old(dev.errors))
    ensures filp.pos == old(filp.pos) + n
    ensures old(filp.pos) + n <= MAX_BYTES || n == 0
    ensures forall k :: 0 <= k < n ==>
              buf[k] == Content(inode.zone, dev.vol.blocks, old(filp.pos) + k) ||
                  (dev.errors > old(dev.errors) && buf[k] == 0)
    ensures forall k :: n <= k < buf.Length ==> buf[k] == old(buf[k])
  {
    n := 0;
    if count <= 0 {
      return 0, 0;
    }
    ghost var start := filp.pos;
    var left := count;
    while left != 0
      invariant 0 <= left <= count && n == count - left && filp.pos == start + n
      invariant Ready(dev, inode) && dev.users == old(dev.users)
      invariant dev.vol == old(dev.vol) && inode.zone == old(inode.zone) && dev.errors >= old(dev.errors)
      invariant forall k :: 0 <= k < n ==>
                  buf[k] == Content(inode.zone, dev.vol.blocks, start + k) ||
                  (dev.errors > old(dev.errors) && buf[k] == 0)
      invariant forall k :: n <= k < buf.Length ==> buf[k] == old(buf[k])
    {
      var chars := BLOCK_SIZE - filp.pos % BLOCK_SIZE;
      if left < chars {
        chars := left;
      }
      var ok := ReadChunk(dev, inode, filp.pos, chars, buf, count - left);
      if !ok {
        break;
      }
      filp.pos := filp.pos + chars;
      left := left - chars;
      n := n + chars;
    }
    r := if count - left != 0 then count - left else -ERROR;
  }

  /** Reading back where something was written gives what was written. Unless a read failed,
      everything comes back, and less was written only for want of zones. */
  method WriteThenRead(dev: Device, inode: Inode, pos: nat, data: seq<Byte>, back: array<Byte>)
    returns (written: int, read: int)
    requires Ready(dev, inode) && pos + |data| <= MAX_BYTES && |data| == back.Length
    modifies dev, inode, back
    ensures Ready(dev, inode) && written <= |data| && read <= |data| && dev.errors >= old(dev.errors)
    ensures dev.errors == old(dev.errors) ==>
              && read == |data|
              && (written < |data| && |data| > 0 ==> !CanPick(dev.vol))
              && forall k :: 0 <= k < written ==> back[k] == data[k]
  {
    hide Outside, Sound, SlotOf, At, Content, CanPick;
    var writer := new File(pos, false);
    var reader := new File(pos, false);
    ghost var n, m;
    written, n := FileWrite(dev, inode, writer, data, |data|);
    read, m := FileRead(dev, inode, reader, back, |data|);
  }
}
