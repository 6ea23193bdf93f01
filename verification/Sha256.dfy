/** drivers/sha256.c: feeding a message to the SHA accelerator in pieces. What the hardware
    receives must be the padded message of section 5.1.1 of FIPS 180-4. */
module Sha256 {
  import opened Bytes

  const BLOCK: nat := 64
  const TWO16: nat := 0x1_0000
  const TWO32: nat := 0x1_0000_0000
  const TWO64: nat := 0x1_0000_0000_0000_0000

  /** A context as a value: the bytes pushed to the device, those waiting in the buffer,
      and the message length in bits as the 64-bit counter holds it. */
  datatype Context = Context(pushed: seq<Byte>, buffer: seq<Byte>, total: nat)

  const EMPTY := Context([], [], 0)

  /** A whole number of blocks. */
  predicate InBlocks(n: nat) {
    n % BLOCK == 0
  }

  ghost predicate Valid(c: Context) {
    |c.buffer| < BLOCK && InBlocks(|c.pushed|) && c.total < TWO64
  }

  /** All bytes seen so far. */
  function Seen(c: Context): seq<Byte> {
    c.pushed + c.buffer
  }

  /** Arithmetic of the 64-bit counter. */
  function Wrapped(x: nat): (y: nat)
    ensures y < TWO64
  {
    x % TWO64
  }

  /** The part of n bytes that makes whole blocks. */
  function Whole(n: nat): (w: nat)
    ensures InBlocks(w) && w <= n < w + BLOCK
  {
    n / BLOCK * BLOCK
  }

  /** Feeding data: whole blocks of what is waiting are pushed. */
  function Fed(c: Context, data: seq<Byte>): Context {
    var all := c.buffer + data;
    var whole := Whole(|all|);
    Context(c.pushed + all[..whole], all[whole..], Wrapped(c.total + 8 * |data|))
  }

  lemma FedSeen(c: Context, data: seq<Byte>)
    requires Valid(c)
    ensures Valid(Fed(c, data)) && Seen(Fed(c, data)) == Seen(c) + data
  {
    hide Wrapped, Whole, InBlocks;
    var all := c.buffer + data;
    var whole := Whole(|all|);
    WholeSum(|c.pushed|, whole);
    assert all[..whole] + all[whole..] == all;
    assert c.pushed + all == Seen(c) + data;
  }

  lemma WholeSum(a: nat, b: nat)
    requires InBlocks(a) && InBlocks(b)
    ensures InBlocks(a + b)
  {
  }

  /** A context is determined by what it has seen and its counter. */
  lemma SeenDetermines(c: Context, d: Context)
    requires Valid(c) && Valid(d) && Seen(c) == Seen(d) && c.total == d.total
    ensures c == d
  {
    assert |c.pushed| + |c.buffer| == |d.pushed| + |d.buffer|;
    assert |c.pushed| == |d.pushed|;
    assert c.pushed == Seen(c)[..|c.pushed|] == d.pushed;
    assert c.buffer == Seen(c)[|c.pushed|..] == d.buffer;
  }

  lemma WrappedTwice(x: nat, y: nat)
    ensures Wrapped(Wrapped(x) + y) == Wrapped(x + y)
  {
  }

  lemma FedTotal(c: Context, a: seq<Byte>, b: seq<Byte>)
    ensures Fed(Fed(c, a), b).total == Fed(c, a + b).total
  {
    hide Wrapped, Whole;
    WrappedTwice(c.total + 8 * |a|, 8 * |b|);
  }

  /** Feeding in two calls is feeding at once: the split of a message does not matter. */
  lemma FedTwice(c: Context, a: seq<Byte>, b: seq<Byte>)
    requires Valid(c)
    ensures Fed(Fed(c, a), b) == Fed(c, a + b)
  {
    FedTotal(c, a, b);
    FedSeen(c, a);
    FedSeen(Fed(c, a), b);
    FedSeen(c, a + b);
    hide Fed;
    assert Seen(c) + a + b == Seen(c) + (a + b);
    SeenDetermines(Fed(Fed(c, a), b), Fed(c, a + b));
  }

  /** The number of padding bytes before the length, as `sha256_final` computes it. */
  function BytesToPad(bufferLen: nat): nat
    requires bufferLen < BLOCK
  {
    if 120 - bufferLen > 64 then 120 - bufferLen - 64 else 120 - bufferLen
  }

  /** The n low bytes, most significant first. */
  function BigEndian(x: nat, n: nat): (s: seq<Byte>)
    ensures |s| == n
  {
    if n == 0 then [] else BigEndian(x / 0x100, n - 1) + [x % 0x100]
  }

  /** The 32-bit word whose little-endian bytes are a, b, c, d. */
  function Word(a: Byte, b: Byte, c: Byte, d: Byte): (x: nat)
    ensures x < TWO32
  {
    a as int + 0x100 * b as int + 0x1_0000 * c as int + 0x100_0000 * d as int
  }

  /** 32-bit rotations by eight bits. */
  function RotateRight8(x: nat): (y: nat)
    requires x < TWO32
    ensures y < TWO32
  {
    x / 0x100 + (x % 0x100) * 0x100_0000
  }

  function RotateLeft8(x: nat): (y: nat)
    requires x < TWO32
    ensures y < TWO32
  {
    (x % 0x100_0000) * 0x100 + x / 0x100_0000
  }

  /** The BYTESWAP macro; the masks ff00ff00 and 00ff00ff keep bytes 3 and 1, 2 and 0. */
  function ByteSwap(x: nat): (y: nat)
    requires x < TWO32
    ensures y < TWO32
  {
    var r := LittleEndian(RotateRight8(x), 4);
    var l := LittleEndian(RotateLeft8(x), 4);
    Word(l[0], r[1], l[2], r[3])
  }

  function ByteSwap64(x: nat): nat
    requires x < TWO64
  {
    ByteSwap(x % TWO32) * TWO32 + ByteSwap(x / TWO32)
  }

  lemma OneByte(a: Byte, q: nat, n: nat)
    ensures LittleEndian(a as int + 0x100 * q, n + 1) == [a] + LittleEndian(q, n)
    ensures BigEndian(a as int + 0x100 * q, n + 1) == BigEndian(q, n) + [a]
  {
  }

  lemma WordInMemory(a: Byte, b: Byte, c: Byte, d: Byte, q: nat, n: nat)
    ensures LittleEndian(Word(a, b, c, d) + TWO32 * q, n + 4) == [a, b, c, d] + LittleEndian(q, n)
    ensures BigEndian(Word(a, b, c, d) + TWO32 * q, n + 4) == BigEndian(q, n) + [d, c, b, a]
  {
    hide LittleEndian, BigEndian;
    var q1 := d as int + 0x100 * q;
    var q2 := c as int + 0x100 * q1;
    var q3 := b as int + 0x100 * q2;
    OneByte(d, q, n);
    OneByte(c, q1, n + 1);
    OneByte(b, q2, n + 2);
    OneByte(a, q3, n + 3);
  }

  lemma RotatedRight(a: Byte, b: Byte, c: Byte, d: Byte)
    ensures RotateRight8(Word(a, b, c, d)) == Word(b, c, d, a)
  {
    DividedByte(a, b as int + 0x100 * c as int + 0x1_0000 * d as int);
  }

  lemma RotatedLeft(a: Byte, b: Byte, c: Byte, d: Byte)
    ensures RotateLeft8(Word(a, b, c, d)) == Word(d, a, b, c)
  {
    DividedThreeBytes(a as int + 0x100 * b as int + 0x1_0000 * c as int, d);
  }

  lemma DividedByte(low: nat, high: nat)
    requires low < 0x100
    ensures (low + 0x100 * high) / 0x100 == high && (low + 0x100 * high) % 0x100 == low
  {
  }

  lemma DividedThreeBytes(low: nat, high: nat)
    requires low < 0x100_0000
    ensures (low + 0x100_0000 * high) / 0x100_0000 == high && (low + 0x100_0000 * high) % 0x100_0000 == low
  {
  }

  lemma ByteSwapReverses(a: Byte, b: Byte, c: Byte, d: Byte)
    ensures ByteSwap(Word(a, b, c, d)) == Word(d, c, b, a)
  {
    RotatedRight(a, b, c, d);
    RotatedLeft(a, b, c, d);
    WordInMemory(b, c, d, a, 0, 0);
    WordInMemory(d, a, b, c, 0, 0);
    hide RotateRight8, RotateLeft8, Word, LittleEndian;
  }

  lemma WordOf(x: nat) returns (a: Byte, b: Byte, c: Byte, d: Byte)
    requires x < TWO32
    ensures x == Word(a, b, c, d)
  {
    var (x1, x2) := (x / 0x100, x / 0x100 / 0x100);
    a, b, c, d := x % 0x100, x1 % 0x100, x2 % 0x100, x2 / 0x100;
  }

  lemma HalvesSwap(lo: nat, hi: nat)
    requires lo < TWO32 && hi < TWO32
    ensures ByteSwap64(lo + TWO32 * hi) == ByteSwap(hi) + TWO32 * ByteSwap(lo)
  {
    assert (lo + TWO32 * hi) % TWO32 == lo && (lo + TWO32 * hi) / TWO32 == hi;
  }

  lemma TwoWords(a: Byte, b: Byte, c: Byte, d: Byte, e: Byte, f: Byte, g: Byte, h: Byte)
    ensures LittleEndian(Word(a, b, c, d) + TWO32 * Word(e, f, g, h), 8) == [a, b, c, d, e, f, g, h]
    ensures BigEndian(Word(a, b, c, d) + TWO32 * Word(e, f, g, h), 8) == [h, g, f, e, d, c, b, a]
  {
    WordInMemory(a, b, c, d, Word(e, f, g, h), 4);
    WordInMemory(e, f, g, h, 0, 0);
    assert LittleEndian(0, 0) == [] && BigEndian(0, 0) == [];
    hide Word, LittleEndian, BigEndian;
    assert [a, b, c, d] + ([e, f, g, h] + []) == [a, b, c, d, e, f, g, h];
    assert ([] + [h, g, f, e]) + [d, c, b, a] == [h, g, f, e, d, c, b, a];
  }

  /** In memory, the swapped counter is the big-endian length. */
  lemma SwappedIsBigEndian(x: nat)
    requires x < TWO64
    ensures LittleEndian(ByteSwap64(x), 8) == BigEndian(x, 8)
  {
    hide Word, ByteSwap, LittleEndian, BigEndian, ByteSwap64;
    var lo, hi := x % TWO32, x / TWO32;
    var a, b, c, d := WordOf(lo);
    var e, f, g, h := WordOf(hi);
    assert x == Word(a, b, c, d) + TWO32 * Word(e, f, g, h);
    HalvesSwap(lo, hi);
    ByteSwapReverses(a, b, c, d);
    ByteSwapReverses(e, f, g, h);
    TwoWords(h, g, f, e, d, c, b, a);
    TwoWords(a, b, c, d, e, f, g, h);
  }

  /** `sha256_final`: padding, then the length counted before the padding. */
  function Finished(c: Context): Context
    requires Valid(c)
  {
    Fed(Fed(c, ([0x80] + Zeros(63))[..BytesToPad(|c.buffer|)]), LittleEndian(ByteSwap64(c.total), 8))
  }

  /** k zero bytes after the 0x80 leave room for exactly the length at the end of a block. */
  predicate Fits(n: nat, k: nat) {
    (n + 1 + k + 8) % BLOCK == 0
  }

  /** The number of zero bytes FIPS 180-4 asks for is the least that fits. */
  ghost predicate LeastZeros(n: nat, k: nat) {
    Fits(n, k) && forall j: nat :: j < k ==> !Fits(n, j)
  }

  ghost predicate IsPadded(message: seq<Byte>, padded: seq<Byte>) {
    exists k: nat :: LeastZeros(|message|, k) && padded == message + [0x80] + Zeros(k) + BigEndian(8 * |message|, 8)
  }

  /** The data counter set in `sha256_init`, a field of 16 bits. */
  function DataCount(inputLen: nat): nat {
    (inputLen + BLOCK + 8) / BLOCK % TWO16
  }

  /** The longest message whose block count fits the field. */
  const LONGEST: nat := 4194231

  /** Feeding a list of pieces. */
  function FedAll(c: Context, parts: seq<seq<Byte>>): Context {
    if parts == [] then c else Fed(FedAll(c, parts[..|parts| - 1]), parts[|parts| - 1])
  }

  function Joined(parts: seq<seq<Byte>>): seq<Byte> {
    if parts == [] then [] else Joined(parts[..|parts| - 1]) + parts[|parts| - 1]
  }

  lemma {:induction false} FedAllIsFedOnce(parts: seq<seq<Byte>>)
    ensures FedAll(EMPTY, parts) == Fed(EMPTY, Joined(parts)) && Valid(FedAll(EMPTY, parts))
  {
    if parts != [] {
      FedAllIsFedOnce(parts[..|parts| - 1]);
      FedTwice(EMPTY, Joined(parts[..|parts| - 1]), parts[|parts| - 1]);
      FedSeen(EMPTY, Joined(parts));
    }
  }

  lemma PadLength(n: nat, bufferLen: nat)
    requires bufferLen == n % BLOCK
    ensures 1 <= BytesToPad(bufferLen) <= BLOCK && LeastZeros(n, BytesToPad(bufferLen) - 1)
    ensures InBlocks(n + BytesToPad(bufferLen) + 8)
    ensures var blocks := (n + BytesToPad(bufferLen) + 8) / BLOCK;
            DataCount(n) == blocks % TWO16 && (DataCount(n) == blocks <==> n <= LONGEST)
  {
  }

  /** When what was fed fills whole blocks, nothing is left waiting. */
  lemma WholeBlocks(c: Context, rest: seq<Byte>)
    requires Valid(c) && InBlocks(|Seen(c) + rest|)
    ensures Fed(c, rest).buffer == [] && Fed(c, rest).pushed == Seen(c) + rest
  {
    FedSeen(c, rest);
    hide Fed, InBlocks;
    var done := Fed(c, rest);
    NoRemainder(|done.pushed|, |done.buffer|);
  }

  lemma NoRemainder(whole: nat, rest: nat)
    requires InBlocks(whole) && rest < BLOCK && InBlocks(whole + rest)
    ensures rest == 0
  {
  }

  lemma FedFromEmpty(m: seq<Byte>)
    requires 8 * |m| < TWO64
    ensures var c := Fed(EMPTY, m); Valid(c) && Seen(c) == m && c.total == 8 * |m| && |c.buffer| == |m| % BLOCK
  {
  }

  /** The padding array and the byte-swapped length are what the standard appends. */
  lemma Suffix(c: Context, n: nat)
    requires Valid(c) && n == BytesToPad(|c.buffer|) <= BLOCK && n >= 1
    ensures Finished(c) == Fed(c, [0x80] + Zeros(n - 1) + BigEndian(c.total, 8))
  {
    var pad: seq<Byte> := ([0x80] + Zeros(63))[..n];
    assert pad == [0x80] + Zeros(n - 1);
    SwappedIsBigEndian(c.total);
    FedTwice(c, pad, BigEndian(c.total, 8));
    hide Fed, LittleEndian, BigEndian, ByteSwap64;
  }

  lemma FinishedPads(m: seq<Byte>, c: Context)
    requires Valid(c) && Seen(c) == m && c.total == 8 * |m| && |c.buffer| == |m| % BLOCK
    ensures Finished(c).buffer == [] && IsPadded(m, Finished(c).pushed)
    ensures DataCount(|m|) == |Finished(c).pushed| / BLOCK <==> |m| <= LONGEST
  {
    hide Fed, Finished, BigEndian, BytesToPad, Zeros, Fits, DataCount;
    PadLength(|m|, |c.buffer|);
    var n := BytesToPad(|c.buffer|);
    var rest: seq<Byte> := [0x80] + Zeros(n - 1) + BigEndian(c.total, 8);
    Suffix(c, n);
    assert |m + rest| == |m| + n + 8;
    WholeBlocks(c, rest);
    assert m + rest == m + [0x80] + Zeros(n - 1) + BigEndian(8 * |m|, 8);
  }

  /** For every message below 2^61 bytes and every split of it into updates, the device
      receives exactly the padded message. It was told to expect that number of blocks if and
      only if the message has at most 4194231 bytes. */
  lemma DeviceReceivesPaddedMessage(parts: seq<seq<Byte>>)
    requires 8 * |Joined(parts)| < TWO64
    ensures Valid(FedAll(EMPTY, parts))
    ensures var done := Finished(FedAll(EMPTY, parts));
            && done.buffer == []
            && IsPadded(Joined(parts), done.pushed)
            && (DataCount(|Joined(parts)|) == |done.pushed| / BLOCK <==> |Joined(parts)| <= LONGEST)
  {
    FedAllIsFedOnce(parts);
    FedFromEmpty(Joined(parts));
    FinishedPads(Joined(parts), FedAll(EMPTY, parts));
  }

  /** One byte more, and 65536 blocks follow the announcement of none. */
  lemma CountWraps(m: seq<Byte>)
    requires |m| == LONGEST + 1
    ensures Valid(Fed(EMPTY, m)) && DataCount(|m|) == 0 && |Finished(Fed(EMPTY, m)).pushed| == 65536 * BLOCK
  {
    hide Fed, Finished, Valid, Seen, BytesToPad, DataCount;
    FedFromEmpty(m);
    var c := Fed(EMPTY, m);
    PaddedLength(m, c);
    WrapArithmetic(|m|, |c.buffer|);
  }

  lemma WrapArithmetic(n: nat, bufferLen: nat)
    requires n == LONGEST + 1 && bufferLen == n % BLOCK
    ensures n + BytesToPad(bufferLen) + 8 == 65536 * BLOCK && DataCount(n) == 0
  {
  }

  lemma PaddedLength(m: seq<Byte>, c: Context)
    requires Valid(c) && Seen(c) == m && c.total == 8 * |m| && |c.buffer| == |m| % BLOCK
    ensures |Finished(c).pushed| == |m| + BytesToPad(|c.buffer|) + 8
  {
    hide Fed, Finished, BigEndian, BytesToPad, Zeros, Fits, DataCount;
    PadLength(|m|, |c.buffer|);
    var n := BytesToPad(|c.buffer|);
    var rest: seq<Byte> := [0x80] + Zeros(n - 1) + BigEndian(c.total, 8);
    Suffix(c, n);
    assert |m + rest| == |m| + n + 8;
    WholeBlocks(c, rest);
  }

  /** One turn of the loop of `sha256_update`: fill the buffer, push it when full. */
  lemma FillBuffer(c: Context, piece: seq<Byte>)
    requires Valid(c) && |c.buffer| + |piece| <= BLOCK
    ensures Valid(Fed(c, piece))
    ensures var b := c.buffer + piece;
            Fed(c, piece) == if |b| == BLOCK
                             then Context(c.pushed + b, [], Wrapped(c.total + 8 * |piece|))
                             else Context(c.pushed, b, Wrapped(c.total + 8 * |piece|))
  {
  }

  /** `sha256_context_t` together with the device's input FIFO. */
  class Hasher {
    const buffer: array<Byte>
    var bufferLen: nat
    var totalLen: nat
    /** Every byte written to `sha_data_in1`, in order. */
    var pushed: seq<Byte>
    /** The number of blocks the device was told to expect. */
    var dataCount: nat

    ghost predicate Ready()
      reads this, buffer
    {
      buffer.Length == BLOCK && bufferLen < BLOCK && Valid(Context(pushed, buffer[..bufferLen], totalLen))
    }

    ghost function State(): Context
      reads this, buffer
      requires bufferLen <= buffer.Length
    {
      Context(pushed, buffer[..bufferLen], totalLen)
    }

    constructor (inputLen: nat)
      ensures Ready() && State() == EMPTY && dataCount == DataCount(inputLen) && fresh(buffer)
    {
      buffer := new Byte[BLOCK](_ => 0);
      bufferLen := 0;
      totalLen := 0;
      pushed := [];
      dataCount := (inputLen + BLOCK + 8) / BLOCK % TWO16;
    }

    /** The memcpy of one loop turn. */
    method Copy(input: seq<Byte>, from: nat, n: nat)
      requires buffer.Length == BLOCK && bufferLen + n <= BLOCK && from + n <= |input|
      modifies buffer
      ensures buffer[..bufferLen + n] == old(buffer[..bufferLen]) + input[from..from + n]
    {
      for i := 0 to n
        invariant buffer[..bufferLen + i] == old(buffer[..bufferLen]) + input[from..from + i]
      {
        buffer[bufferLen + i] := input[from + i];
        assert buffer[..bufferLen + i + 1] == buffer[..bufferLen + i] + [input[from + i]];
      }
    }

    /** One loop turn: copy a piece that fits, count it, push the block once it is full. */
    method Absorb(input: seq<Byte>, from: nat, n: nat)
      requires Ready() && from + n <= |input| && bufferLen + n <= BLOCK
      modifies this, buffer
      ensures Ready() && State() == Fed(old(State()), input[from..from + n]) && dataCount == old(dataCount)
    {
      hide Fed, Wrapped, Valid;
      FillBuffer(State(), input[from..from + n]);
      Copy(input, from, n);
      totalLen := Wrapped(totalLen + n * 8);
      bufferLen := bufferLen + n;
      if bufferLen == BLOCK {
        assert buffer[..] == buffer[..BLOCK];
        pushed := pushed + buffer[..];
        bufferLen := 0;
      }
      assert State() == Fed(old(State()), input[from..from + n]);
    }

    method Update(input: seq<Byte>)
      requires Ready()
      modifies this, buffer
      ensures Ready() && State() == Fed(old(State()), input) && dataCount == old(dataCount)
    {
      hide Fed;
      var done := 0;
      FedNothing(State());
      while done < |input|
        invariant done <= |input| && Ready() && dataCount == old(dataCount)
        invariant State() == Fed(old(State()), input[..done])
      {
        var n := BLOCK - bufferLen;
        if n > |input| - done {
          n := |input| - done;
        }
        FedTwice(old(State()), input[..done], input[done..done + n]);
        assert input[..done] + input[done..done + n] == input[..done + n];
        Absorb(input, done, n);
        done := done + n;
      }
      assert input[..done] == input;
    }

    method Final()
      requires Ready()
      modifies this, buffer
      ensures Ready() && State() == Finished(old(State())) && dataCount == old(dataCount)
    {
      var bytesToPad := 120 - bufferLen;
      if bytesToPad > 64 {
        bytesToPad := bytesToPad - 64;
      }
      var lengthPad := ByteSwap64(totalLen);
      Update(([0x80] + Zeros(63))[..bytesToPad]);
      Update(LittleEndian(lengthPad, 8));
    }
  }

  lemma FedNothing(c: Context)
    requires Valid(c)
    ensures Fed(c, []) == c
  {
  }

  /** A whole run: initialise for the message, feed it in any pieces, finish. */
  method HashParts(parts: seq<seq<Byte>>) returns (h: Hasher)
    requires 8 * |Joined(parts)| < TWO64
    ensures fresh(h) && h.bufferLen == 0 && IsPadded(Joined(parts), h.pushed)
    ensures h.dataCount == |h.pushed| / BLOCK <==> |Joined(parts)| <= LONGEST
  {
    h := new Hasher(|Joined(parts)|);
    for i := 0 to |parts|
      invariant fresh(h) && fresh(h.buffer) && h.Ready() && h.dataCount == DataCount(|Joined(parts)|)
      invariant h.State() == FedAll(EMPTY, parts[..i])
    {
      h.Update(parts[i]);
      assert parts[..i + 1][..i] == parts[..i];
    }
    assert parts[..|parts|] == parts;
    DeviceReceivesPaddedMessage(parts);
    h.Final();
  }
}
