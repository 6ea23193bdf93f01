/** The S-box of tools/kflash.py is the one of section 5.1.1 of FIPS 197: an affine transform of
    the multiplicative inverse in GF(2^8). */
module SBox {
  import opened AesTables
  import opened AesRows
  import opened Gf256

  function Bit(b: bv8, i: bv4, a: bv8): bv8
    requires i < 8
  {
    if (b >> i) & 1 == 1 then a else 0
  }

  /** The product in GF(2^8), section 4.2: a times x^i, summed over the bits i of b. */
  function Product(a: bv8, b: bv8): bv8 {
    var a1 := XTime(a);
    var a2 := XTime(a1);
    var a3 := XTime(a2);
    var a4 := XTime(a3);
    var a5 := XTime(a4);
    var a6 := XTime(a5);
    var a7 := XTime(a6);
    Add(Sum4(Bit(b, 0, a), Bit(b, 1, a1), Bit(b, 2, a2), Bit(b, 3, a3)),
        Sum4(Bit(b, 4, a4), Bit(b, 5, a5), Bit(b, 6, a6), Bit(b, 7, a7)))
  }

  /** The affine transform. */
  function Affine(y: bv8): bv8 {
    y ^ y.RotateLeft(1) ^ y.RotateLeft(2) ^ y.RotateLeft(3) ^ y.RotateLeft(4) ^ 0x63
  }

  function Unaffine(s: bv8): bv8 {
    s.RotateLeft(1) ^ s.RotateLeft(3) ^ s.RotateLeft(6) ^ 0x05
  }

  lemma AffineUndoes(s: bv8)
    ensures Affine(Unaffine(s)) == s
  {
  }

  /** s is what FIPS 197 puts at index x, or x is 0. */
  predicate Inverse(x: bv8, s: bv8) {
    x != 0 ==> Product(x, Unaffine(s)) == 1
  }

  lemma InverseRow0(x: bv8)
    ensures Inverse(InRow(x, 0x00), SRow0(x))
  {
  }

  lemma InverseRow1(x: bv8)
    ensures Inverse(InRow(x, 0x10), SRow1(x))
  {
  }

  lemma InverseRow2(x: bv8)
    ensures Inverse(InRow(x, 0x20), SRow2(x))
  {
  }

  lemma InverseRow3(x: bv8)
    ensures Inverse(InRow(x, 0x30), SRow3(x))
  {
  }

  lemma InverseRow4(x: bv8)
    ensures Inverse(InRow(x, 0x40), SRow4(x))
  {
  }

  lemma InverseRow5(x: bv8)
    ensures Inverse(InRow(x, 0x50), SRow5(x))
  {
  }

  lemma InverseRow6(x: bv8)
    ensures Inverse(InRow(x, 0x60), SRow6(x))
  {
  }

  lemma InverseRow7(x: bv8)
    ensures Inverse(InRow(x, 0x70), SRow7(x))
  {
  }

  lemma InverseRow8(x: bv8)
    ensures Inverse(InRow(x, 0x80), SRow8(x))
  {
  }

  lemma InverseRow9(x: bv8)
    ensures Inverse(InRow(x, 0x90), SRow9(x))
  {
  }

  lemma InverseRow10(x: bv8)
    ensures Inverse(InRow(x, 0xA0), SRow10(x))
  {
  }

  lemma InverseRow11(x: bv8)
    ensures Inverse(InRow(x, 0xB0), SRow11(x))
  {
  }

  lemma InverseRow12(x: bv8)
    ensures Inverse(InRow(x, 0xC0), SRow12(x))
  {
  }

  lemma InverseRow13(x: bv8)
    ensures Inverse(InRow(x, 0xD0), SRow13(x))
  {
  }

  lemma InverseRow14(x: bv8)
    ensures Inverse(InRow(x, 0xE0), SRow14(x))
  {
  }

  lemma InverseRow15(x: bv8)
    ensures Inverse(InRow(x, 0xF0), SRow15(x))
  {
  }

  /** The same choice made among indices and among entries that belong together. */
  lemma SelectInverse(h: bv8, x0: bv8, x1: bv8, x2: bv8, x3: bv8, x4: bv8, x5: bv8, x6: bv8, x7: bv8, x8: bv8,
    x9: bv8, x10: bv8, x11: bv8, x12: bv8, x13: bv8, x14: bv8, x15: bv8, s0: bv8, s1: bv8, s2: bv8, s3: bv8, s4: bv8,
    s5: bv8, s6: bv8, s7: bv8, s8: bv8, s9: bv8, s10: bv8, s11: bv8, s12: bv8, s13: bv8, s14: bv8, s15: bv8)
    requires Inverse(x0, s0) && Inverse(x1, s1) && Inverse(x2, s2) && Inverse(x3, s3)
    requires Inverse(x4, s4) && Inverse(x5, s5) && Inverse(x6, s6) && Inverse(x7, s7)
    requires Inverse(x8, s8) && Inverse(x9, s9) && Inverse(x10, s10) && Inverse(x11, s11)
    requires Inverse(x12, s12) && Inverse(x13, s13) && Inverse(x14, s14) && Inverse(x15, s15)
    ensures Inverse(Select8(h, x0, x1, x2, x3, x4, x5, x6, x7, x8, x9, x10, x11, x12, x13, x14, x15),
              Select8(h, s0, s1, s2, s3, s4, s5, s6, s7, s8, s9, s10, s11, s12, s13, s14, s15))
  {
    hide Inverse;
  }

  /** Every entry of the table is the affine transform of the inverse of its index, with 0
      taken for its own inverse. */
  lemma SBoxIsInverse(x: bv8) returns (y: bv8)
    ensures if x == 0 then y == 0 else Product(x, y) == 1
    ensures S(x) == Affine(y)
  {
    y := Unaffine(S(x));
    EntriesAreInverse(x);
    AffineUndoes(S(x));
    assert S(0) == 0x63;
    hide S, Product;
  }

  lemma EntriesAreInverse(x: bv8)
    ensures Inverse(x, S(x))
  {
    hide Inverse, Select8, InRow;
    hide SRow0, SRow1, SRow2, SRow3, SRow4, SRow5, SRow6, SRow7, SRow8, SRow9, SRow10, SRow11, SRow12, SRow13, SRow14,
      SRow15;
    InverseRow0(x);
    InverseRow1(x);
    InverseRow2(x);
    InverseRow3(x);
    InverseRow4(x);
    InverseRow5(x);
    InverseRow6(x);
    InverseRow7(x);
    InverseRow8(x);
    InverseRow9(x);
    InverseRow10(x);
    InverseRow11(x);
    InverseRow12(x);
    InverseRow13(x);
    InverseRow14(x);
    InverseRow15(x);
    Rejoined(x);
    SelectInverse(x >> 4, InRow(x, 0x00), InRow(x, 0x10), InRow(x, 0x20), InRow(x, 0x30), InRow(x, 0x40),
      InRow(x, 0x50), InRow(x, 0x60), InRow(x, 0x70), InRow(x, 0x80), InRow(x, 0x90), InRow(x, 0xA0), InRow(x, 0xB0),
      InRow(x, 0xC0), InRow(x, 0xD0), InRow(x, 0xE0), InRow(x, 0xF0), SRow0(x), SRow1(x), SRow2(x), SRow3(x),
      SRow4(x), SRow5(x), SRow6(x), SRow7(x), SRow8(x), SRow9(x), SRow10(x), SRow11(x), SRow12(x), SRow13(x),
      SRow14(x), SRow15(x));
  }
}
