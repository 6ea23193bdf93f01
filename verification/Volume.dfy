/** A mounted Minix volume: the zone bitmaps of its superblock, its blocks, and the
    buffers somebody currently holds. Models fs/bitmap.c. */
module Volume {
  import opened Bytes

  const BLOCK_SIZE: nat := 1024
  const MAP_BITS: nat := 8192
  const MAP_SLOTS: nat := 8
  const WORD_BITS: nat := 64

  type Block = b: seq<Byte> | |b| == BLOCK_SIZE witness Zeros(BLOCK_SIZE)

  function ZeroBlock(): Block {
    Zeros(BLOCK_SIZE)
  }

  /** One entry of `s_zmap`: a null buffer pointer, or a block of 8192 bits. */
  datatype MapSlot = Absent | Bits(bits: seq<bool>)

  /** The state of a volume as a value. */
  datatype Vol = Vol(first: nat, nzones: nat, zmap: seq<MapSlot>, blocks: seq<Block>)
  {
    ghost predicate Valid() {
      && 1 <= first
      && nzones <= 0xFFFF
      && |zmap| == MAP_SLOTS
      && (forall i :: 0 <= i < MAP_SLOTS && zmap[i].Bits? ==> |zmap[i].bits| == MAP_BITS)
      && zmap[0].Bits? && zmap[0].bits[0]
      && |blocks| == nzones
    }

    predicate InDataZone(b: int) {
      first <= b < nzones
    }

    /** Whether bit `nr` of the whole zone map is set. */
    predicate BitSet(nr: nat)
      requires Valid()
    {
      && nr / MAP_BITS < MAP_SLOTS
      && zmap[nr / MAP_BITS].Bits?
      && zmap[nr / MAP_BITS].bits[nr % MAP_BITS]
    }

    /** Data zone b is tracked by bit b - first + 1; bit 0 is reserved. */
    predicate Allocated(b: int)
      requires Valid()
    {
      InDataZone(b) && BitSet(b - first + 1)
    }

    function WithBit(slot: nat, j: nat, on: bool): Vol
      requires Valid()
      requires slot < MAP_SLOTS && zmap[slot].Bits? && j < MAP_BITS
    {
      this.(zmap := zmap[slot := Bits(zmap[slot].bits[j := on])])
    }

    /** Taking a clear bit takes the zone it stands for, and no other. */
    lemma TakeBitEffect(slot: nat, j: nat)
      requires Valid() && slot < MAP_SLOTS && zmap[slot].Bits? && j < MAP_BITS && !zmap[slot].bits[j]
      ensures var v := WithBit(slot, j, true); var b := slot * MAP_BITS + j + first - 1;
              && v.Valid()
              && first <= b
              && !Allocated(b)
              && forall c: int :: v.Allocated(c) == (Allocated(c) || (c == b && b < nzones))
    {
    }

    lemma TakeEffect(slot: nat, j: nat)
      requires Valid() && slot < MAP_SLOTS && zmap[slot].Bits? && j < MAP_BITS && !zmap[slot].bits[j]
      ensures var v := WithBit(slot, j, true); var b := slot * MAP_BITS + j + first - 1;
              && v.Valid()
              && (b >= nzones ==> SameDataZones(this, v))
              && (b < nzones ==>
                    && first <= b
                    && v.WithBlock(b, ZeroBlock()).Valid()
                    && TookZone(this, v.WithBlock(b, ZeroBlock()), b))
    {
      TakeBitEffect(slot, j);
      var v := WithBit(slot, j, true);
      var b := slot * MAP_BITS + j + first - 1;
      if b < nzones {
        v.WithBlockEffect(b, ZeroBlock());
      }
    }

    /** Clearing the bit of an allocated zone frees that zone and no other. */
    lemma DropEffect(b: nat)
      requires Valid() && Allocated(b)
      ensures var nr := b - (first - 1);
              nr >= 0 && nr / MAP_BITS < MAP_SLOTS && zmap[nr / MAP_BITS].Bits? && nr % MAP_BITS < MAP_BITS
      ensures var nr := b - (first - 1); var v := WithBit(nr / MAP_BITS, nr % MAP_BITS, false);
              && v.Valid() && v.first == first && v.nzones == nzones && v.blocks == blocks
              && forall c: int :: v.Allocated(c) == (Allocated(c) && c != b)
    {
    }

    function WithBlock(b: nat, data: Block): Vol
      requires Valid() && b < nzones
    {
      this.(blocks := blocks[b := data])
    }

    lemma WithBlockEffect(b: nat, data: Block)
      requires Valid() && b < nzones
      ensures var v := WithBlock(b, data);
              && v.Valid()
              && forall c: int :: v.Allocated(c) == Allocated(c)
    {
    }
  }

  /** The bit the allocator looks for in one map block: the lowest clear bit among the
      first 64, because the scan never moves past the first word. */
  ghost predicate LowestClear(bits: seq<bool>, j: nat)
    requires |bits| == MAP_BITS
  {
    j < WORD_BITS && !bits[j] && forall k :: 0 <= k < j ==> bits[k]
  }

  ghost predicate WordFull(bits: seq<bool>)
    requires |bits| == MAP_BITS
  {
    forall k :: 0 <= k < WORD_BITS ==> bits[k]
  }

  /** `find_first_zero`: every turn of the outer loop reads the same first word. */
  method FindFirstZero(bits: seq<bool>) returns (r: nat)
    requires |bits| == MAP_BITS
    ensures r < MAP_BITS ==> LowestClear(bits, r)
    ensures r >= MAP_BITS ==> r == MAP_BITS && WordFull(bits)
  {
    var i := 0;
    while i < BLOCK_SIZE
      invariant 0 <= i <= BLOCK_SIZE && i % 8 == 0
      invariant i > 0 ==> WordFull(bits)
    {
      var j := 0;
      while j < WORD_BITS
        invariant 0 <= j <= WORD_BITS
        invariant forall k :: 0 <= k < j ==> bits[k]
      {
        if !bits[j] {
          return i * 8 + j;
        }
        j := j + 1;
      }
      i := i + 8;
    }
    return i * 8;
  }

  /** What `new_block` picks: the first map slot whose first word has a clear bit. */
  ghost predicate Picks(zmap: seq<MapSlot>, slot: nat, j: nat)
    requires |zmap| == MAP_SLOTS
    requires forall i :: 0 <= i < MAP_SLOTS && zmap[i].Bits? ==> |zmap[i].bits| == MAP_BITS
  {
    && slot < MAP_SLOTS && zmap[slot].Bits? && LowestClear(zmap[slot].bits, j)
    && forall i :: 0 <= i < slot && zmap[i].Bits? ==> WordFull(zmap[i].bits)
  }

  ghost predicate NothingToPick(zmap: seq<MapSlot>)
    requires |zmap| == MAP_SLOTS
    requires forall i :: 0 <= i < MAP_SLOTS && zmap[i].Bits? ==> |zmap[i].bits| == MAP_BITS
  {
    forall i :: 0 <= i < MAP_SLOTS && zmap[i].Bits? ==> WordFull(zmap[i].bits)
  }

  /** Exactly when `new_block` succeeds: some first word has a clear bit, and the bit it
      picks stands for a zone before the end of the volume. */
  ghost predicate CanPick(v: Vol)
    requires v.Valid()
  {
    exists s: nat, j: nat :: Picks(v.zmap, s, j) && s * MAP_BITS + j + v.first - 1 < v.nzones
  }

  /** Bit j of the first 64 of map block s is clear. */
  predicate Clear(v: Vol, s: nat, j: nat)
    requires v.Valid()
  {
    s < 8 && j < 64 && v.zmap[s].Bits? && !v.zmap[s].bits[j]
  }

  /** The data zone of a bit. */
  function ZoneOf(v: Vol, s: nat, j: nat): int {
    8192 * s + j + v.first - 1
  }

  lemma {:induction false} LowestExists(bits: seq<bool>, k: nat)
    requires |bits| == MAP_BITS && k < WORD_BITS && !bits[k]
    ensures exists j: nat :: j <= k && LowestClear(bits, j)
    decreases k
  {
    if i: nat :| i < k && !bits[i] {
      LowestExists(bits, i);
    } else {
      assert LowestClear(bits, k);
    }
  }

  /** What is picked is no later than any clear bit of a first word. */
  lemma {:induction false} FirstPick(v: Vol, s: nat, j: nat) returns (slot: nat, k: nat)
    requires v.Valid() && Clear(v, s, j)
    ensures Picks(v.zmap, slot, k) && ZoneOf(v, slot, k) <= ZoneOf(v, s, j)
    decreases s
  {
    if i: nat :| i < s && v.zmap[i].Bits? && !WordFull(v.zmap[i].bits) {
      var b: nat :| b < WORD_BITS && !v.zmap[i].bits[b];
      slot, k := FirstPick(v, i, b);
    } else {
      LowestExists(v.zmap[s].bits, j);
      slot := s;
      k :| k <= j && LowestClear(v.zmap[s].bits, k);
    }
  }

  /** In numbers: an allocation can succeed if and only if one of the first 64 bits of one of the
      eight map blocks is clear and stands for a zone inside the volume. */
  lemma PicksFirstWords(v: Vol)
    requires v.Valid()
    ensures CanPick(v) <==> exists s: nat, j: nat :: Clear(v, s, j) && ZoneOf(v, s, j) < v.nzones
  {
    if CanPick(v) {
      var s: nat, j: nat :| Picks(v.zmap, s, j) && s * MAP_BITS + j + v.first - 1 < v.nzones;
      assert Clear(v, s, j);
    }
    if s: nat, j: nat :| Clear(v, s, j) && ZoneOf(v, s, j) < v.nzones {
      var slot, k := FirstPick(v, s, j);
    }
  }

  /** The volume after a bit for a zone past the end was set and then given up. */
  ghost predicate SameDataZones(v: Vol, w: Vol)
    requires v.Valid() && w.Valid()
  {
    && w.first == v.first && w.nzones == v.nzones && w.blocks == v.blocks
    && forall b: int :: w.Allocated(b) == v.Allocated(b)
  }

  /** The volume after zone b was taken and cleared. */
  ghost predicate TookZone(v: Vol, w: Vol, b: nat)
    requires v.Valid() && w.Valid()
  {
    && w.first == v.first && w.nzones == v.nzones
    && v.InDataZone(b) && !v.Allocated(b)
    && w.blocks == v.blocks[b := ZeroBlock()]
    && forall c: int :: w.Allocated(c) == (c == b || v.Allocated(c))
  }

  /** The scan of `new_block` over the map slots. */
  method PickBit(zmap: seq<MapSlot>) returns (found: bool, i: nat, j: nat)
    requires |zmap| == MAP_SLOTS
    requires forall i :: 0 <= i < MAP_SLOTS && zmap[i].Bits? ==> |zmap[i].bits| == MAP_BITS
    ensures found ==> Picks(zmap, i, j)
    ensures !found ==> NothingToPick(zmap)
  {
    i, j := 0, MAP_BITS;
    while i < MAP_SLOTS
      invariant 0 <= i <= MAP_SLOTS
      invariant forall k :: 0 <= k < i && zmap[k].Bits? ==> WordFull(zmap[k].bits)
    {
      if zmap[i].Bits? {
        j := FindFirstZero(zmap[i].bits);
        if j < MAP_BITS {
          return true, i, j;
        }
      }
      i := i + 1;
    }
    return false, i, j;
  }

  class Device {
    var vol: Vol
    /** The `b_count` of every buffer: one occurrence per holder. */
    var users: multiset<nat>
    /** How many calls of `bread` have failed. */
    ghost var errors: nat

    constructor (v: Vol)
      requires v.Valid()
      ensures Valid() && vol == v && users == multiset{} && errors == 0
    {
      vol := v;
      users := multiset{};
      errors := 0;
    }

    /** A free data zone is never held, so `new_block` always finds its buffer unused. */
    ghost predicate Valid()
      reads this
    {
      && vol.Valid()
      && forall b :: b in users ==> vol.InDataZone(b) ==> vol.Allocated(b)
    }

    /** `bread`: may fail; on success the caller holds the buffer. */
    method Bread(b: nat) returns (ok: bool)
      requires Valid() && vol.Allocated(b)
      modifies this`users, this`errors
      ensures Valid()
      ensures users == if ok then old(users) + multiset{b} else old(users)
      ensures errors == if ok then old(errors) else old(errors) + 1
    {
      ok := *;
      if ok {
        users := users + multiset{b};
      } else {
        errors := errors + 1;
      }
    }

    method Brelse(b: nat)
      requires Valid() && b in users
      modifies this`users
      ensures Valid() && users == old(users) - multiset{b}
    {
      users := users - multiset{b};
    }

    method NewBlock() returns (r: nat)
      requires Valid()
      modifies this`vol
      ensures Valid()
      ensures r == 0 ==> SameDataZones(old(vol), vol)
      ensures r != 0 ==> TookZone(old(vol), vol, r)
      ensures r != 0 <==> CanPick(old(vol))
      ensures r != 0 <==> exists s: nat, j: nat :: Clear(old(vol), s, j) && ZoneOf(old(vol), s, j) < old(vol).nzones
      ensures r != 0 ==> forall s: nat, j: nat :: Clear(old(vol), s, j) ==> r <= ZoneOf(old(vol), s, j)
      ensures r != 0 ==> exists s: nat, j: nat :: Clear(old(vol), s, j) && r == ZoneOf(old(vol), s, j)
      ensures r == 0 ==> !CanPick(vol)
    {
      hide CanPick, Picks, Clear, NothingToPick, Vol.Valid, Vol.Allocated;
      VolumeShape(vol);
      PicksFirstWords(vol);
      var found, i, j := PickBit(vol.zmap);
      if !found {
        NothingCanBePicked(vol);
        return 0;
      }
      PickDecides(vol, i, j);
      PickIsLowest(vol, i, j);
      vol.TakeEffect(i, j);
      LeakKeepsFailing(vol, i, j);
      vol := vol.WithBit(i, j, true);
      var b := i * MAP_BITS + j + vol.first - 1;
      if b >= vol.nzones {
        return 0;
      }
      assert users[b] == 0;
      vol := vol.WithBlock(b, ZeroBlock());
      return b;
    }

    /** `free_block`. A zone outside the data area or one already free makes the kernel
        panic, so callers must avoid both; a buffer somebody else holds is left alone. */
    method FreeBlock(b: nat)
      requires Valid() && vol.Allocated(b)
      modifies this`vol
      ensures Valid()
      ensures vol.first == old(vol.first) && vol.nzones == old(vol.nzones) && vol.blocks == old(vol.blocks)
      ensures forall c: int :: vol.Allocated(c) == (old(vol).Allocated(c) && (c != b || old(users)[b] > 0))
    {
      hide Vol.Valid, Vol.Allocated, Vol.WithBit;
      if users[b] > 0 {
        return;
      }
      var nr := b - (vol.first - 1);
      vol.DropEffect(b);
      vol := vol.WithBit(nr / MAP_BITS, nr % MAP_BITS, false);
    }
  }

  lemma PickIsUnique(zmap: seq<MapSlot>, slot: nat, j: nat)
    requires |zmap| == MAP_SLOTS
    requires forall i :: 0 <= i < MAP_SLOTS && zmap[i].Bits? ==> |zmap[i].bits| == MAP_BITS
    requires Picks(zmap, slot, j)
    ensures !NothingToPick(zmap)
    ensures forall s: nat, k: nat :: Picks(zmap, s, k) ==> s == slot && k == j
  {
  }

  lemma VolumeShape(v: Vol)
    requires v.Valid()
    ensures |v.zmap| == MAP_SLOTS && |v.blocks| == v.nzones && v.first >= 1
    ensures forall i :: 0 <= i < MAP_SLOTS && v.zmap[i].Bits? ==> |v.zmap[i].bits| == MAP_BITS
  {
  }

  lemma NothingCanBePicked(v: Vol)
    requires v.Valid() && NothingToPick(v.zmap)
    ensures !CanPick(v) && SameDataZones(v, v)
  {
  }

  lemma PickIsLowest(v: Vol, slot: nat, j: nat)
    requires v.Valid() && Picks(v.zmap, slot, j)
    ensures Clear(v, slot, j) && forall s: nat, k: nat :: Clear(v, s, k) ==> ZoneOf(v, slot, j) <= ZoneOf(v, s, k)
  {
    forall s: nat, k: nat | Clear(v, s, k)
      ensures ZoneOf(v, slot, j) <= ZoneOf(v, s, k)
    {
      var a, b := FirstPick(v, s, k);
      PickIsUnique(v.zmap, slot, j);
    }
  }

  /** So the zone of the bit found decides whether an allocation succeeds. */
  lemma PickDecides(v: Vol, slot: nat, j: nat)
    requires v.Valid() && Picks(v.zmap, slot, j)
    ensures slot < MAP_SLOTS && v.zmap[slot].Bits? && j < MAP_BITS && !v.zmap[slot].bits[j]
    ensures CanPick(v) <==> slot * MAP_BITS + j + v.first - 1 < v.nzones
  {
    PickIsUnique(v.zmap, slot, j);
  }

  /** Once the pick lies past the end of the volume, setting its bit does not help: every later
      pick lies further out. */
  lemma LeakKeepsFailing(v: Vol, slot: nat, j: nat)
    requires v.Valid() && Picks(v.zmap, slot, j)
    ensures var w := v.WithBit(slot, j, true);
            w.Valid() && (slot * MAP_BITS + j + v.first - 1 >= v.nzones ==> !CanPick(w))
  {
    var w := v.WithBit(slot, j, true);
    forall s: nat, k: nat | Picks(w.zmap, s, k)
      ensures slot * MAP_BITS + j < s * MAP_BITS + k
    {
    }
  }

  /** The allocator is not complete: here zone 64 is free, yet nothing can be picked. */
  lemma AllocatorMissesFreeZone() returns (v: Vol)
    ensures v.Valid() && v.InDataZone(64) && !v.Allocated(64)
    ensures NothingToPick(v.zmap)
  {
    var bits := seq(MAP_BITS, i => i != 64);
    var zmap := [Bits(bits), Absent, Absent, Absent, Absent, Absent, Absent, Absent];
    v := Vol(1, 100, zmap, seq(100, _ => ZeroBlock()));
    assert forall i :: 1 <= i < 8 ==> zmap[i].Absent?;
  }
}
