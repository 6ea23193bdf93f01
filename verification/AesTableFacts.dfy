/** Every word of the twelve lookup tables is the column that FIPS 197 prescribes for its
    index, so one table lookup per byte does SubBytes, ShiftRows and MixColumns at once. */
module AesTableFacts {
  import opened AesTables
  import opened AesRows
  import opened Gf256
  import opened Fips197

  lemma RotatedWord(a: bv8, b: bv8, c: bv8, d: bv8)
    ensures Rotated(Word(a, b, c, d), 1) == Word(d, a, b, c)
    ensures Rotated(Word(a, b, c, d), 2) == Word(c, d, a, b)
    ensures Rotated(Word(a, b, c, d), 3) == Word(b, c, d, a)
  {
    hide Word, Byte0, Byte1, Byte2, Byte3;
    BytesOfWord(a, b, c, d);
  }

  lemma EncryptionColumns(x: bv8)
    ensures var s := S(x);
            && T1(x) == Word(XTime(s), s, s, Times3(s)) && T2(x) == Word(Times3(s), XTime(s), s, s)
            && T3(x) == Word(s, Times3(s), XTime(s), s) && T4(x) == Word(s, s, Times3(s), XTime(s))
  {
    hide S, T1, T2, T3, T4, T5, T6, T7, T8, U1, U2, U3, U4, Word, XTime, Times3, Rotated;
    T1Table(x);
    Rotated1(x);
    Rotated2(x);
    Rotated3(x);
    RotatedWord(XTime(S(x)), S(x), S(x), Times3(S(x)));
  }

  lemma KeyColumns(x: bv8)
    ensures U1(x) == Word(Times14(x), Times9(x), Times13(x), Times11(x))
    ensures U2(x) == Word(Times11(x), Times14(x), Times9(x), Times13(x))
    ensures U3(x) == Word(Times13(x), Times11(x), Times14(x), Times9(x))
    ensures U4(x) == Word(Times9(x), Times13(x), Times11(x), Times14(x))
  {
    hide T1, T2, T3, T4, T5, T6, T7, T8, U1, U2, U3, U4, Word, Times9, Times11, Times13, Times14, Rotated;
    U1Table(x);
    Rotated1(x);
    Rotated2(x);
    Rotated3(x);
    RotatedWord(Times14(x), Times9(x), Times13(x), Times11(x));
  }

  lemma DecryptionColumns(x: bv8)
    ensures T5(x) == U1(InvS(x)) && T6(x) == U2(InvS(x)) && T7(x) == U3(InvS(x)) && T8(x) == U4(InvS(x))
  {
    hide InvS, T1, T2, T3, T4, T5, T6, T7, T8, U1, U2, U3, U4, InvColumn, Rotated;
    T5Table(x);
    U1Table(InvS(x));
    Rotated1(x);
    Rotated2(x);
    Rotated3(x);
    Rotated1(InvS(x));
    Rotated2(InvS(x));
    Rotated3(InvS(x));
  }

  lemma WordsAddUp(p0: bv8, p1: bv8, p2: bv8, p3: bv8, q0: bv8, q1: bv8, q2: bv8, q3: bv8,
                   r0: bv8, r1: bv8, r2: bv8, r3: bv8, s0: bv8, s1: bv8, s2: bv8, s3: bv8)
    ensures Xor(Xor(Xor(Word(p0, p1, p2, p3), Word(q0, q1, q2, q3)), Word(r0, r1, r2, r3)), Word(s0, s1, s2, s3))
            == Word(Sum4(p0, q0, r0, s0), Sum4(p1, q1, r1, s1), Sum4(p2, q2, r2, s2), Sum4(p3, q3, r3, s3))
  {
    hide Xor, Word, Add;
    WordOfSums(p0, p1, p2, p3, q0, q1, q2, q3);
    WordOfSums(Add(p0, q0), Add(p1, q1), Add(p2, q2), Add(p3, q3), r0, r1, r2, r3);
    WordOfSums(Add(Add(p0, q0), r0), Add(Add(p1, q1), r1), Add(Add(p2, q2), r2), Add(Add(p3, q3), r3),
               s0, s1, s2, s3);
    AddMoves(Add(p0, q0), r0, s0);
    AddMoves(Add(p1, q1), r1, s1);
    AddMoves(Add(p2, q2), r2, s2);
    AddMoves(Add(p3, q3), r3, s3);
  }

  /** The four lookups of one column of an encryption round. */
  lemma EncryptionLookups(p: bv8, q: bv8, r: bv8, s: bv8)
    ensures Xor(Xor(Xor(T1(p), T2(q)), T3(r)), T4(s)) == MixColumn(Word(S(p), S(q), S(r), S(s)))
  {
    hide T1, T2, T3, T4, S, Xor, Word, Sum4, XTime, Times3, Byte0, Byte1, Byte2, Byte3;
    EncryptionColumns(p);
    EncryptionColumns(q);
    EncryptionColumns(r);
    EncryptionColumns(s);
    var (a, b, c, d) := (S(p), S(q), S(r), S(s));
    WordsAddUp(XTime(a), a, a, Times3(a), Times3(b), XTime(b), b, b,
               c, Times3(c), XTime(c), c, d, d, Times3(d), XTime(d));
    MixRowRotated(a, b, c, d);
    BytesOfWord(a, b, c, d);
  }

  /** The four lookups that turn an encryption round key into a decryption round key. */
  lemma KeyLookups(a: bv8, b: bv8, c: bv8, d: bv8)
    ensures Xor(Xor(Xor(U1(a), U2(b)), U3(c)), U4(d)) == InvMixColumn(Word(a, b, c, d))
  {
    hide U1, U2, U3, U4, Xor, Word, Sum4, Times9, Times11, Times13, Times14, Byte0, Byte1, Byte2, Byte3;
    KeyColumns(a);
    KeyColumns(b);
    KeyColumns(c);
    KeyColumns(d);
    WordsAddUp(Times14(a), Times9(a), Times13(a), Times11(a), Times11(b), Times14(b), Times9(b), Times13(b),
               Times13(c), Times11(c), Times14(c), Times9(c), Times9(d), Times13(d), Times11(d), Times14(d));
    InvMixRowRotated(a, b, c, d);
    BytesOfWord(a, b, c, d);
  }

  lemma InvMixRowRotated(a: bv8, b: bv8, c: bv8, d: bv8)
    ensures InvMixRow(b, c, d, a) == Sum4(Times9(a), Times14(b), Times11(c), Times13(d))
    ensures InvMixRow(c, d, a, b) == Sum4(Times13(a), Times9(b), Times14(c), Times11(d))
    ensures InvMixRow(d, a, b, c) == Sum4(Times11(a), Times13(b), Times9(c), Times14(d))
  {
    hide Add, Times9, Times11, Times13, Times14;
    AddSwap(Times9(a), Times14(b), Times11(c), Times13(d));
    AddSwap(Times13(a), Times9(b), Times14(c), Times11(d));
    AddSwap(Times9(b), Times14(c), Times11(d), Times13(a));
    AddSwap(Times14(d), Times11(a), Times13(b), Times9(c));
  }

  /** The four lookups of one column of a decryption round. */
  lemma DecryptionLookups(p: bv8, q: bv8, r: bv8, s: bv8)
    ensures Xor(Xor(Xor(T5(p), T6(q)), T7(r)), T8(s)) == InvMixColumn(Word(InvS(p), InvS(q), InvS(r), InvS(s)))
  {
    hide T5, T6, T7, T8, U1, U2, U3, U4, InvS, Xor, Word, InvMixColumn;
    DecryptionColumns(p);
    DecryptionColumns(q);
    DecryptionColumns(r);
    DecryptionColumns(s);
    KeyLookups(InvS(p), InvS(q), InvS(r), InvS(s));
  }

  /** Column i after SubBytes and ShiftRows. */
  lemma SubShiftColumn(t: Quad, i: nat)
    requires i < 4
    ensures ShiftRows(SubBytes(t))[i] ==
            Word(S(Byte3(t[i])), S(Byte2(t[(i + 1) % 4])), S(Byte1(t[(i + 2) % 4])), S(Byte0(t[(i + 3) % 4])))
  {
    hide S, Byte0, Byte1, Byte2, Byte3, Word;
    var s := SubBytes(t);
    assert forall j: nat :: j < 4 ==> s[j] == SubWord(t[j]);
    assert ShiftRows(s)[i] == ShiftedColumn(s, i);
    SubWordBytes(t[i]);
    SubWordBytes(t[(i + 1) % 4]);
    SubWordBytes(t[(i + 2) % 4]);
    SubWordBytes(t[(i + 3) % 4]);
  }

  lemma SubWordBytes(w: bv32)
    ensures Byte3(SubWord(w)) == S(Byte3(w)) && Byte2(SubWord(w)) == S(Byte2(w))
    ensures Byte1(SubWord(w)) == S(Byte1(w)) && Byte0(SubWord(w)) == S(Byte0(w))
    ensures Byte3(InvSubWord(w)) == InvS(Byte3(w)) && Byte2(InvSubWord(w)) == InvS(Byte2(w))
    ensures Byte1(InvSubWord(w)) == InvS(Byte1(w)) && Byte0(InvSubWord(w)) == InvS(Byte0(w))
  {
    hide S, InvS, Byte0, Byte1, Byte2, Byte3, Word;
    BytesOfWord(S(Byte3(w)), S(Byte2(w)), S(Byte1(w)), S(Byte0(w)));
    BytesOfWord(InvS(Byte3(w)), InvS(Byte2(w)), InvS(Byte1(w)), InvS(Byte0(w)));
  }

  /** Column i after InvSubBytes and InvShiftRows. */
  lemma InvSubShiftedColumn(t: Quad, i: nat)
    requires i < 4
    ensures InvShiftRows(InvSubBytes(t))[i] ==
            Word(InvS(Byte3(t[i])), InvS(Byte2(t[(i + 3) % 4])),
                 InvS(Byte1(t[(i + 2) % 4])), InvS(Byte0(t[(i + 1) % 4])))
  {
    hide InvS, Byte0, Byte1, Byte2, Byte3, Word;
    var s := InvSubBytes(t);
    assert forall j: nat :: j < 4 ==> s[j] == InvSubWord(t[j]);
    assert InvShiftRows(s)[i] == UnshiftedColumn(s, i);
    SubWordBytes(t[i]);
    SubWordBytes(t[(i + 1) % 4]);
    SubWordBytes(t[(i + 2) % 4]);
    SubWordBytes(t[(i + 3) % 4]);
  }

  lemma {:induction false} RoundConstantIsPower(i: nat)
    requires i < 30
    ensures RoundConstant(i) == PowerOfX(i)
  {
    if i > 0 {
      hide XTime, RoundConstant;
      RoundConstantIsPower(i - 1);
      NextRoundConstant(i);
    }
  }

  lemma NextRoundConstant(i: nat)
    requires 0 < i < 30
    ensures RoundConstant(i) == XTime(RoundConstant(i - 1))
  {
  }
}
