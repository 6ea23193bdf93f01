/** AES as FIPS 197 defines it, over a state of four columns. Row r of a column is the byte
    8 * (3 - r) bits up. Only the S-box is taken from the program's tables;
    `SBox` proves it to be the one of section 5.1.1. */
module Fips197 {
  import opened AesTables
  import opened AesRows
  import opened Gf256

  type Quad = q: seq<bv32> | |q| == 4 witness [0, 0, 0, 0]
  type Bytes16 = b: seq<bv8> | |b| == 16 witness seq(16, _ => 0)

  function SubWord(w: bv32): bv32 {
    Word(S(Byte3(w)), S(Byte2(w)), S(Byte1(w)), S(Byte0(w)))
  }

  function InvSubWord(w: bv32): bv32 {
    Word(InvS(Byte3(w)), InvS(Byte2(w)), InvS(Byte1(w)), InvS(Byte0(w)))
  }

  function RotWord(w: bv32): bv32 {
    Word(Byte2(w), Byte1(w), Byte0(w), Byte3(w))
  }

  function SubBytes(q: Quad): Quad {
    [SubWord(q[0]), SubWord(q[1]), SubWord(q[2]), SubWord(q[3])]
  }

  function InvSubBytes(q: Quad): Quad {
    [InvSubWord(q[0]), InvSubWord(q[1]), InvSubWord(q[2]), InvSubWord(q[3])]
  }

  function MixColumns(q: Quad): Quad {
    [MixColumn(q[0]), MixColumn(q[1]), MixColumn(q[2]), MixColumn(q[3])]
  }

  function InvMixColumns(q: Quad): Quad {
    [InvMixColumn(q[0]), InvMixColumn(q[1]), InvMixColumn(q[2]), InvMixColumn(q[3])]
  }

  /** Row r moves r columns to the left. */
  function ShiftRows(q: Quad): Quad {
    [ShiftedColumn(q, 0), ShiftedColumn(q, 1), ShiftedColumn(q, 2), ShiftedColumn(q, 3)]
  }

  function ShiftedColumn(q: Quad, i: nat): bv32
    requires i < 4
  {
    Word(Byte3(q[i]), Byte2(q[(i + 1) % 4]), Byte1(q[(i + 2) % 4]), Byte0(q[(i + 3) % 4]))
  }

  /** Row r moves r columns to the right. */
  function InvShiftRows(q: Quad): Quad {
    [UnshiftedColumn(q, 0), UnshiftedColumn(q, 1), UnshiftedColumn(q, 2), UnshiftedColumn(q, 3)]
  }

  function UnshiftedColumn(q: Quad, i: nat): bv32
    requires i < 4
  {
    Word(Byte3(q[i]), Byte2(q[(i + 3) % 4]), Byte1(q[(i + 2) % 4]), Byte0(q[(i + 1) % 4]))
  }

  function AddRoundKey(q: Quad, k: Quad): Quad {
    [Xor(q[0], k[0]), Xor(q[1], k[1]), Xor(q[2], k[2]), Xor(q[3], k[3])]
  }

  predicate KeySize(n: nat) {
    n == 16 || n == 24 || n == 32
  }

  type Key = k: seq<bv8> | KeySize(|k|) witness seq(16, _ => 0)

  function Nk(key: Key): nat { |key| / 4 }
  function Rounds(key: Key): nat { Nk(key) + 6 }

  function KeyColumn(b: seq<bv8>, i: nat): bv32
    requires 4 * i + 4 <= |b|
  {
    Word(b[4 * i], b[4 * i + 1], b[4 * i + 2], b[4 * i + 3])
  }

  /** x^j in GF(2^8). */
  function PowerOfX(j: nat): bv8 {
    if j == 0 then 1 else XTime(PowerOfX(j - 1))
  }

  /** Word i of the expanded key, section 5.2. */
  function KeyWord(key: Key, i: nat): bv32 {
    if i < Nk(key) then KeyColumn(key, i)
    else Xor(KeyWord(key, i - Nk(key)), KeyTemp(key, i, KeyWord(key, i - 1)))
  }

  function KeyTemp(key: Key, i: nat, prev: bv32): bv32
    requires i >= Nk(key)
  {
    if i % Nk(key) == 0 then Xor(SubWord(RotWord(prev)), Word(PowerOfX(i / Nk(key) - 1), 0, 0, 0))
    else if Nk(key) > 6 && i % Nk(key) == 4 then SubWord(prev)
    else prev
  }

  function RoundKey(key: Key, r: nat): Quad {
    [KeyWord(key, 4 * r), KeyWord(key, 4 * r + 1), KeyWord(key, 4 * r + 2), KeyWord(key, 4 * r + 3)]
  }

  function Columns(b: Bytes16): Quad {
    [KeyColumn(b, 0), KeyColumn(b, 1), KeyColumn(b, 2), KeyColumn(b, 3)]
  }

  function ToBytes(q: Quad): Bytes16 {
    WordBytes(q[0]) + WordBytes(q[1]) + WordBytes(q[2]) + WordBytes(q[3])
  }

  function WordBytes(w: bv32): (b: seq<bv8>)
    ensures |b| == 4
  {
    [Byte3(w), Byte2(w), Byte1(w), Byte0(w)]
  }

  /** The state after the first r rounds of the cipher, section 5.1. */
  function EncState(key: Key, p: Quad, r: nat): Quad {
    if r == 0 then AddRoundKey(p, RoundKey(key, 0))
    else AddRoundKey(MixColumns(ShiftRows(SubBytes(EncState(key, p, r - 1)))), RoundKey(key, r))
  }

  function CipherState(key: Key, p: Quad): Quad {
    AddRoundKey(ShiftRows(SubBytes(EncState(key, p, Rounds(key) - 1))), RoundKey(key, Rounds(key)))
  }

  /** Encryption of one block. */
  function Cipher(key: Key, p: Bytes16): Bytes16 {
    ToBytes(CipherState(key, Columns(p)))
  }

  /** The round keys of the equivalent inverse cipher, section 5.3.5. */
  function DecKey(key: Key, r: nat): Quad
    requires r <= Rounds(key)
  {
    if r == 0 || r == Rounds(key) then RoundKey(key, Rounds(key) - r)
    else InvMixColumns(RoundKey(key, Rounds(key) - r))
  }

  function DecState(key: Key, c: Quad, r: nat): Quad
    requires r <= Rounds(key)
  {
    if r == 0 then AddRoundKey(c, DecKey(key, 0))
    else AddRoundKey(InvMixColumns(InvShiftRows(InvSubBytes(DecState(key, c, r - 1)))), DecKey(key, r))
  }

  function InvCipherState(key: Key, c: Quad): Quad {
    AddRoundKey(InvShiftRows(InvSubBytes(DecState(key, c, Rounds(key) - 1))), DecKey(key, Rounds(key)))
  }

  /** Decryption of one block by the equivalent inverse cipher. */
  function InvCipher(key: Key, c: Bytes16): Bytes16 {
    ToBytes(InvCipherState(key, Columns(c)))
  }

  // Each inverse step undoes its step.

  lemma InvSubWordUndoes(w: bv32)
    ensures InvSubWord(SubWord(w)) == w
  {
    InvSBoxUndoes(Byte3(w));
    InvSBoxUndoes(Byte2(w));
    InvSBoxUndoes(Byte1(w));
    InvSBoxUndoes(Byte0(w));
    WordOfBytes(w);
    BytesOfWord(S(Byte3(w)), S(Byte2(w)), S(Byte1(w)), S(Byte0(w)));
  }

  lemma InvSBoxUndoes(x: bv8)
    ensures InvS(S(x)) == x
  {
    InvSUndoesS(x);
  }

  lemma InvSubBytesUndoes(q: Quad)
    ensures InvSubBytes(SubBytes(q)) == q
  {
    hide SubWord, InvSubWord;
    InvSubWordUndoes(q[0]);
    InvSubWordUndoes(q[1]);
    InvSubWordUndoes(q[2]);
    InvSubWordUndoes(q[3]);
  }

  lemma InvShiftRowsUndoes(q: Quad)
    ensures InvShiftRows(ShiftRows(q)) == q
  {
    hide Byte0, Byte1, Byte2, Byte3, Word;
    BytesOfWord(Byte3(q[0]), Byte2(q[1]), Byte1(q[2]), Byte0(q[3]));
    BytesOfWord(Byte3(q[1]), Byte2(q[2]), Byte1(q[3]), Byte0(q[0]));
    BytesOfWord(Byte3(q[2]), Byte2(q[3]), Byte1(q[0]), Byte0(q[1]));
    BytesOfWord(Byte3(q[3]), Byte2(q[0]), Byte1(q[1]), Byte0(q[2]));
    WordOfBytes(q[0]);
    WordOfBytes(q[1]);
    WordOfBytes(q[2]);
    WordOfBytes(q[3]);
  }

  lemma InvMixColumnsUndoes(q: Quad)
    ensures InvMixColumns(MixColumns(q)) == q
  {
    hide MixColumn, InvMixColumn;
    InvMixColumnUndoes(q[0]);
    InvMixColumnUndoes(q[1]);
    InvMixColumnUndoes(q[2]);
    InvMixColumnUndoes(q[3]);
  }

  lemma InvMixColumnsLinear(q: Quad, k: Quad)
    ensures InvMixColumns(AddRoundKey(q, k)) == AddRoundKey(InvMixColumns(q), InvMixColumns(k))
  {
    hide InvMixColumn, Xor;
    InvMixColumnLinear(q[0], k[0]);
    InvMixColumnLinear(q[1], k[1]);
    InvMixColumnLinear(q[2], k[2]);
    InvMixColumnLinear(q[3], k[3]);
  }

  lemma AddRoundKeyUndoes(q: Quad, k: Quad)
    ensures AddRoundKey(AddRoundKey(q, k), k) == q
  {
    hide Xor;
    XorUndoes(q[0], k[0]);
    XorUndoes(q[1], k[1]);
    XorUndoes(q[2], k[2]);
    XorUndoes(q[3], k[3]);
  }

  /** After r rounds of decryption the state is the one encryption had, before its last
      MixColumns, r rounds before the end. */
  lemma {:induction false} DecryptionRetraces(key: Key, p: Quad, r: nat)
    requires r < Rounds(key)
    ensures DecState(key, CipherState(key, p), r) == ShiftRows(SubBytes(EncState(key, p, Rounds(key) - 1 - r)))
  {
    hide SubBytes, InvSubBytes, ShiftRows, InvShiftRows, MixColumns, InvMixColumns, AddRoundKey, RoundKey;
    var n := Rounds(key);
    if r == 0 {
      AddRoundKeyUndoes(ShiftRows(SubBytes(EncState(key, p, n - 1))), RoundKey(key, n));
    } else {
      DecryptionRetraces(key, p, r - 1);
      var e := EncState(key, p, n - r);
      InvSubBytesUndoes(e);
      InvShiftRowsUndoes(SubBytes(e));
      InvSubShiftCommute(ShiftRows(SubBytes(e)));
      assert InvShiftRows(InvSubBytes(ShiftRows(SubBytes(e)))) == e;
      var m := MixColumns(ShiftRows(SubBytes(EncState(key, p, n - 1 - r))));
      assert e == AddRoundKey(m, RoundKey(key, n - r));
      AddRoundKeyUndoes(m, RoundKey(key, n - r));
      InvMixColumnsLinear(e, RoundKey(key, n - r));
      InvMixColumnsUndoes(ShiftRows(SubBytes(EncState(key, p, n - 1 - r))));
    }
  }

  lemma InvSubShiftCommute(q: Quad)
    ensures InvShiftRows(InvSubBytes(q)) == InvSubBytes(InvShiftRows(q))
  {
    hide Byte0, Byte1, Byte2, Byte3, Word, InvS;
    InvSubShiftColumn(q, 0);
    InvSubShiftColumn(q, 1);
    InvSubShiftColumn(q, 2);
    InvSubShiftColumn(q, 3);
  }

  lemma InvSubShiftColumn(q: Quad, i: nat)
    requires i < 4
    ensures UnshiftedColumn(InvSubBytes(q), i) == InvSubWord(UnshiftedColumn(q, i))
  {
    hide Byte0, Byte1, Byte2, Byte3, Word, InvS;
    forall j: nat | j < 4
      ensures InvSubBytes(q)[j] == InvSubWord(q[j])
    {
    }
    var (u, v, w) := (q[(i + 3) % 4], q[(i + 2) % 4], q[(i + 1) % 4]);
    BytesOfWord(Byte3(q[i]), Byte2(u), Byte1(v), Byte0(w));
    BytesOfWord(InvS(Byte3(q[i])), InvS(Byte2(q[i])), InvS(Byte1(q[i])), InvS(Byte0(q[i])));
    BytesOfWord(InvS(Byte3(u)), InvS(Byte2(u)), InvS(Byte1(u)), InvS(Byte0(u)));
    BytesOfWord(InvS(Byte3(v)), InvS(Byte2(v)), InvS(Byte1(v)), InvS(Byte0(v)));
    BytesOfWord(InvS(Byte3(w)), InvS(Byte2(w)), InvS(Byte1(w)), InvS(Byte0(w)));
  }

  lemma ColumnsOfBytes(q: Quad)
    ensures Columns(ToBytes(q)) == q
  {
  }

  lemma BytesOfColumns(b: Bytes16)
    ensures ToBytes(Columns(b)) == b
  {
    hide Byte0, Byte1, Byte2, Byte3, Word;
    BytesOfWord(b[0], b[1], b[2], b[3]);
    BytesOfWord(b[4], b[5], b[6], b[7]);
    BytesOfWord(b[8], b[9], b[10], b[11]);
    BytesOfWord(b[12], b[13], b[14], b[15]);
  }

  /** Decryption inverts encryption, for every key of every size and every block. */
  lemma InvCipherInverts(key: Key, p: Bytes16)
    ensures InvCipher(key, Cipher(key, p)) == p
  {
    hide SubBytes, InvSubBytes, ShiftRows, InvShiftRows, MixColumns, InvMixColumns, AddRoundKey, RoundKey, Columns,
      ToBytes;
    var q := Columns(p);
    ColumnsOfBytes(CipherState(key, q));
    DecryptionRetraces(key, q, Rounds(key) - 1);
    var e := EncState(key, q, 0);
    InvSubBytesUndoes(e);
    InvShiftRowsUndoes(SubBytes(e));
    InvSubShiftCommute(ShiftRows(SubBytes(e)));
    AddRoundKeyUndoes(q, RoundKey(key, 0));
    BytesOfColumns(p);
  }
}
