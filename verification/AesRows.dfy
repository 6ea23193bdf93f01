/** The lookup tables row by row: each entry of the first table of a kind is the column that
    FIPS 197 prescribes, and the other three tables are that one rotated. */
module AesRows {
  import opened AesTables
  import opened Gf256

  /** One byte's share of MixColumns. */
  function Column(y: bv8): bv32 {
    Word(XTime(y), y, y, Times3(y))
  }

  /** One byte's share of InvMixColumns. */
  function InvColumn(y: bv8): bv32 {
    Word(Times14(y), Times9(y), Times13(y), Times11(y))
  }

  /** A word turned right by one, two or three bytes. */
  function Rotated(w: bv32, n: nat): bv32 {
    if n == 1 then Word(Byte0(w), Byte3(w), Byte2(w), Byte1(w))
    else if n == 2 then Word(Byte1(w), Byte0(w), Byte3(w), Byte2(w))
    else Word(Byte2(w), Byte1(w), Byte0(w), Byte3(w))
  }

  // A choice among sixteen values goes through any function.

  lemma SelectColumn(x: bv8, s0: bv8, s1: bv8, s2: bv8, s3: bv8, s4: bv8, s5: bv8, s6: bv8, s7: bv8, s8: bv8, s9: bv8,
    s10: bv8, s11: bv8, s12: bv8, s13: bv8, s14: bv8, s15: bv8)
    ensures Column(Select8(x, s0, s1, s2, s3, s4, s5, s6, s7, s8, s9, s10, s11, s12, s13, s14, s15)) ==
            Select32(x, Column(s0), Column(s1), Column(s2), Column(s3), Column(s4), Column(s5), Column(s6),
              Column(s7), Column(s8), Column(s9), Column(s10), Column(s11), Column(s12), Column(s13), Column(s14),
              Column(s15))
  {
    hide Column;
  }

  lemma SelectInvColumn(x: bv8, s0: bv8, s1: bv8, s2: bv8, s3: bv8, s4: bv8, s5: bv8, s6: bv8, s7: bv8, s8: bv8,
    s9: bv8, s10: bv8, s11: bv8, s12: bv8, s13: bv8, s14: bv8, s15: bv8)
    ensures InvColumn(Select8(x, s0, s1, s2, s3, s4, s5, s6, s7, s8, s9, s10, s11, s12, s13, s14, s15)) ==
            Select32(x, InvColumn(s0), InvColumn(s1), InvColumn(s2), InvColumn(s3), InvColumn(s4), InvColumn(s5),
              InvColumn(s6), InvColumn(s7), InvColumn(s8), InvColumn(s9), InvColumn(s10), InvColumn(s11),
              InvColumn(s12), InvColumn(s13), InvColumn(s14), InvColumn(s15))
  {
    hide InvColumn;
  }

  lemma SelectRotated(x: bv8, n: nat, s0: bv32, s1: bv32, s2: bv32, s3: bv32, s4: bv32, s5: bv32, s6: bv32, s7: bv32,
    s8: bv32, s9: bv32, s10: bv32, s11: bv32, s12: bv32, s13: bv32, s14: bv32, s15: bv32)
    ensures Rotated(Select32(x, s0, s1, s2, s3, s4, s5, s6, s7, s8, s9, s10, s11, s12, s13, s14, s15), n) ==
            Select32(x, Rotated(s0, n), Rotated(s1, n), Rotated(s2, n), Rotated(s3, n), Rotated(s4, n),
              Rotated(s5, n), Rotated(s6, n), Rotated(s7, n), Rotated(s8, n), Rotated(s9, n), Rotated(s10, n),
              Rotated(s11, n), Rotated(s12, n), Rotated(s13, n), Rotated(s14, n), Rotated(s15, n))
  {
    hide Rotated;
  }

  lemma SelectInvS(x: bv8, s0: bv8, s1: bv8, s2: bv8, s3: bv8, s4: bv8, s5: bv8, s6: bv8, s7: bv8, s8: bv8, s9: bv8,
    s10: bv8, s11: bv8, s12: bv8, s13: bv8, s14: bv8, s15: bv8)
    ensures InvS(Select8(x, s0, s1, s2, s3, s4, s5, s6, s7, s8, s9, s10, s11, s12, s13, s14, s15)) ==
            Select8(x, InvS(s0), InvS(s1), InvS(s2), InvS(s3), InvS(s4), InvS(s5), InvS(s6), InvS(s7), InvS(s8),
              InvS(s9), InvS(s10), InvS(s11), InvS(s12), InvS(s13), InvS(s14), InvS(s15))
  {
    hide InvS;
  }

  /** The index whose high half is row and whose low half is that of x. */
  function InRow(x: bv8, row: bv8): bv8 {
    (x & 0x0F) | row
  }

  lemma Rejoined(x: bv8)
    ensures Select8(x >> 4, InRow(x, 0x00), InRow(x, 0x10), InRow(x, 0x20), InRow(x, 0x30), InRow(x, 0x40),
              InRow(x, 0x50), InRow(x, 0x60), InRow(x, 0x70), InRow(x, 0x80), InRow(x, 0x90), InRow(x, 0xA0),
              InRow(x, 0xB0), InRow(x, 0xC0), InRow(x, 0xD0), InRow(x, 0xE0), InRow(x, 0xF0)) == x
  {
  }

  lemma T1Column0(x: bv8)
    ensures T1Row0(x) == Column(SRow0(x))
  {
  }

  lemma U1Column0(x: bv8)
    ensures U1Row0(x) == InvColumn(InRow(x, 0x00))
  {
  }

  lemma T5Entries0()
    ensures InvColumn(0x52) == 0x51f4a750 && InvColumn(0x09) == 0x7e416553 && InvColumn(0x6a) == 0x1a17a4c3
    ensures InvColumn(0xd5) == 0x3a275e96 && InvColumn(0x30) == 0x3bab6bcb && InvColumn(0x36) == 0x1f9d45f1
    ensures InvColumn(0xa5) == 0xacfa58ab && InvColumn(0x38) == 0x4be30393 && InvColumn(0xbf) == 0x2030fa55
    ensures InvColumn(0x40) == 0xad766df6 && InvColumn(0xa3) == 0x88cc7691 && InvColumn(0x9e) == 0xf5024c25
    ensures InvColumn(0x81) == 0x4fe5d7fc && InvColumn(0xf3) == 0xc52acbd7 && InvColumn(0xd7) == 0x26354480
    ensures InvColumn(0xfb) == 0xb562a38f
  {
  }

  lemma T5Column0(x: bv8)
    ensures T5Row0(x) == InvColumn(InvSRow0(x))
  {
    hide InvColumn, Select8, Select32;
    T5Entries0();
    SelectInvColumn(x, 0x52, 0x09, 0x6a, 0xd5, 0x30, 0x36, 0xa5, 0x38, 0xbf, 0x40, 0xa3, 0x9e, 0x81, 0xf3, 0xd7, 0xfb);
  }

  lemma Rotations0(x: bv8)
    ensures T2Row0(x) == Rotated(T1Row0(x), 1) && T6Row0(x) == Rotated(T5Row0(x), 1)
    ensures T3Row0(x) == Rotated(T1Row0(x), 2) && T7Row0(x) == Rotated(T5Row0(x), 2)
    ensures T4Row0(x) == Rotated(T1Row0(x), 3) && T8Row0(x) == Rotated(T5Row0(x), 3)
    ensures U2Row0(x) == Rotated(U1Row0(x), 1) && U3Row0(x) == Rotated(U1Row0(x), 2)
    ensures U4Row0(x) == Rotated(U1Row0(x), 3)
  {
  }

  lemma InvS0(x: bv8)
    ensures InvS(SRow0(x)) == InRow(x, 0x00)
  {
  }

  lemma T1Column1(x: bv8)
    ensures T1Row1(x) == Column(SRow1(x))
  {
  }

  lemma U1Column1(x: bv8)
    ensures U1Row1(x) == InvColumn(InRow(x, 0x10))
  {
  }

  lemma T5Entries1()
    ensures InvColumn(0x7c) == 0xdeb15a49 && InvColumn(0xe3) == 0x25ba1b67 && InvColumn(0x39) == 0x45ea0e98
    ensures InvColumn(0x82) == 0x5dfec0e1 && InvColumn(0x9b) == 0xc32f7502 && InvColumn(0x2f) == 0x814cf012
    ensures InvColumn(0xff) == 0x8d4697a3 && InvColumn(0x87) == 0x6bd3f9c6 && InvColumn(0x34) == 0x038f5fe7
    ensures InvColumn(0x8e) == 0x15929c95 && InvColumn(0x43) == 0xbf6d7aeb && InvColumn(0x44) == 0x955259da
    ensures InvColumn(0xc4) == 0xd4be832d && InvColumn(0xde) == 0x587421d3 && InvColumn(0xe9) == 0x49e06929
    ensures InvColumn(0xcb) == 0x8ec9c844
  {
  }

  lemma T5Column1(x: bv8)
    ensures T5Row1(x) == InvColumn(InvSRow1(x))
  {
    hide InvColumn, Select8, Select32;
    T5Entries1();
    SelectInvColumn(x, 0x7c, 0xe3, 0x39, 0x82, 0x9b, 0x2f, 0xff, 0x87, 0x34, 0x8e, 0x43, 0x44, 0xc4, 0xde, 0xe9, 0xcb);
  }

  lemma Rotations1(x: bv8)
    ensures T2Row1(x) == Rotated(T1Row1(x), 1) && T6Row1(x) == Rotated(T5Row1(x), 1)
    ensures T3Row1(x) == Rotated(T1Row1(x), 2) && T7Row1(x) == Rotated(T5Row1(x), 2)
    ensures T4Row1(x) == Rotated(T1Row1(x), 3) && T8Row1(x) == Rotated(T5Row1(x), 3)
    ensures U2Row1(x) == Rotated(U1Row1(x), 1) && U3Row1(x) == Rotated(U1Row1(x), 2)
    ensures U4Row1(x) == Rotated(U1Row1(x), 3)
  {
  }

  lemma InvS1(x: bv8)
    ensures InvS(SRow1(x)) == InRow(x, 0x10)
  {
  }

  lemma T1Column2(x: bv8)
    ensures T1Row2(x) == Column(SRow2(x))
  {
  }

  lemma U1Column2(x: bv8)
    ensures U1Row2(x) == InvColumn(InRow(x, 0x20))
  {
  }

  lemma T5Entries2()
    ensures InvColumn(0x54) == 0x75c2896a && InvColumn(0x7b) == 0xf48e7978 && InvColumn(0x94) == 0x99583e6b
    ensures InvColumn(0x32) == 0x27b971dd && InvColumn(0xa6) == 0xbee14fb6 && InvColumn(0xc2) == 0xf088ad17
    ensures InvColumn(0x23) == 0xc920ac66 && InvColumn(0x3d) == 0x7dce3ab4 && InvColumn(0xee) == 0x63df4a18
    ensures InvColumn(0x4c) == 0xe51a3182 && InvColumn(0x95) == 0x97513360 && InvColumn(0x0b) == 0x62537f45
    ensures InvColumn(0x42) == 0xb16477e0 && InvColumn(0xfa) == 0xbb6bae84 && InvColumn(0xc3) == 0xfe81a01c
    ensures InvColumn(0x4e) == 0xf9082b94
  {
  }

  lemma T5Column2(x: bv8)
    ensures T5Row2(x) == InvColumn(InvSRow2(x))
  {
    hide InvColumn, Select8, Select32;
    T5Entries2();
    SelectInvColumn(x, 0x54, 0x7b, 0x94, 0x32, 0xa6, 0xc2, 0x23, 0x3d, 0xee, 0x4c, 0x95, 0x0b, 0x42, 0xfa, 0xc3, 0x4e);
  }

  lemma Rotations2(x: bv8)
    ensures T2Row2(x) == Rotated(T1Row2(x), 1) && T6Row2(x) == Rotated(T5Row2(x), 1)
    ensures T3Row2(x) == Rotated(T1Row2(x), 2) && T7Row2(x) == Rotated(T5Row2(x), 2)
    ensures T4Row2(x) == Rotated(T1Row2(x), 3) && T8Row2(x) == Rotated(T5Row2(x), 3)
    ensures U2Row2(x) == Rotated(U1Row2(x), 1) && U3Row2(x) == Rotated(U1Row2(x), 2)
    ensures U4Row2(x) == Rotated(U1Row2(x), 3)
  {
  }

  lemma InvS2(x: bv8)
    ensures InvS(SRow2(x)) == InRow(x, 0x20)
  {
  }

  lemma T1Column3(x: bv8)
    ensures T1Row3(x) == Column(SRow3(x))
  {
  }

  lemma U1Column3(x: bv8)
    ensures U1Row3(x) == InvColumn(InRow(x, 0x30))
  {
  }

  lemma T5Entries3()
    ensures InvColumn(0x08) == 0x70486858 && InvColumn(0x2e) == 0x8f45fd19 && InvColumn(0xa1) == 0x94de6c87
    ensures InvColumn(0x66) == 0x527bf8b7 && InvColumn(0x28) == 0xab73d323 && InvColumn(0xd9) == 0x724b02e2
    ensures InvColumn(0x24) == 0xe31f8f57 && InvColumn(0xb2) == 0x6655ab2a && InvColumn(0x76) == 0xb2eb2807
    ensures InvColumn(0x5b) == 0x2fb5c203 && InvColumn(0xa2) == 0x86c57b9a && InvColumn(0x49) == 0xd33708a5
    ensures InvColumn(0x6d) == 0x302887f2 && InvColumn(0x8b) == 0x23bfa5b2 && InvColumn(0xd1) == 0x02036aba
    ensures InvColumn(0x25) == 0xed16825c
  {
  }

  lemma T5Column3(x: bv8)
    ensures T5Row3(x) == InvColumn(InvSRow3(x))
  {
    hide InvColumn, Select8, Select32;
    T5Entries3();
    SelectInvColumn(x, 0x08, 0x2e, 0xa1, 0x66, 0x28, 0xd9, 0x24, 0xb2, 0x76, 0x5b, 0xa2, 0x49, 0x6d, 0x8b, 0xd1, 0x25);
  }

  lemma Rotations3(x: bv8)
    ensures T2Row3(x) == Rotated(T1Row3(x), 1) && T6Row3(x) == Rotated(T5Row3(x), 1)
    ensures T3Row3(x) == Rotated(T1Row3(x), 2) && T7Row3(x) == Rotated(T5Row3(x), 2)
    ensures T4Row3(x) == Rotated(T1Row3(x), 3) && T8Row3(x) == Rotated(T5Row3(x), 3)
    ensures U2Row3(x) == Rotated(U1Row3(x), 1) && U3Row3(x) == Rotated(U1Row3(x), 2)
    ensures U4Row3(x) == Rotated(U1Row3(x), 3)
  {
  }

  lemma InvS3(x: bv8)
    ensures InvS(SRow3(x)) == InRow(x, 0x30)
  {
  }

  lemma T1Column4(x: bv8)
    ensures T1Row4(x) == Column(SRow4(x))
  {
  }

  lemma U1Column4(x: bv8)
    ensures U1Row4(x) == InvColumn(InRow(x, 0x40))
  {
  }

  lemma T5Entries4()
    ensures InvColumn(0x72) == 0x8acf1c2b && InvColumn(0xf8) == 0xa779b492 && InvColumn(0xf6) == 0xf307f2f0
    ensures InvColumn(0x64) == 0x4e69e2a1 && InvColumn(0x86) == 0x65daf4cd && InvColumn(0x68) == 0x0605bed5
    ensures InvColumn(0x98) == 0xd134621f && InvColumn(0x16) == 0xc4a6fe8a && InvColumn(0xd4) == 0x342e539d
    ensures InvColumn(0xa4) == 0xa2f355a0 && InvColumn(0x5c) == 0x058ae132 && InvColumn(0xcc) == 0xa4f6eb75
    ensures InvColumn(0x5d) == 0x0b83ec39 && InvColumn(0x65) == 0x4060efaa && InvColumn(0xb6) == 0x5e719f06
    ensures InvColumn(0x92) == 0xbd6e1051
  {
  }

  lemma T5Column4(x: bv8)
    ensures T5Row4(x) == InvColumn(InvSRow4(x))
  {
    hide InvColumn, Select8, Select32;
    T5Entries4();
    SelectInvColumn(x, 0x72, 0xf8, 0xf6, 0x64, 0x86, 0x68, 0x98, 0x16, 0xd4, 0xa4, 0x5c, 0xcc, 0x5d, 0x65, 0xb6, 0x92);
  }

  lemma Rotations4(x: bv8)
    ensures T2Row4(x) == Rotated(T1Row4(x), 1) && T6Row4(x) == Rotated(T5Row4(x), 1)
    ensures T3Row4(x) == Rotated(T1Row4(x), 2) && T7Row4(x) == Rotated(T5Row4(x), 2)
    ensures T4Row4(x) == Rotated(T1Row4(x), 3) && T8Row4(x) == Rotated(T5Row4(x), 3)
    ensures U2Row4(x) == Rotated(U1Row4(x), 1) && U3Row4(x) == Rotated(U1Row4(x), 2)
    ensures U4Row4(x) == Rotated(U1Row4(x), 3)
  {
  }

  lemma InvS4(x: bv8)
    ensures InvS(SRow4(x)) == InRow(x, 0x40)
  {
  }

  lemma T1Column5(x: bv8)
    ensures T1Row5(x) == Column(SRow5(x))
  {
  }

  lemma U1Column5(x: bv8)
    ensures U1Row5(x) == InvColumn(InRow(x, 0x50))
  {
  }

  lemma T5Entries5()
    ensures InvColumn(0x6c) == 0x3e218af9 && InvColumn(0x70) == 0x96dd063d && InvColumn(0x48) == 0xdd3e05ae
    ensures InvColumn(0x50) == 0x4de6bd46 && InvColumn(0xfd) == 0x91548db5 && InvColumn(0xed) == 0x71c45d05
    ensures InvColumn(0xb9) == 0x0406d46f && InvColumn(0xda) == 0x605015ff && InvColumn(0x5e) == 0x1998fb24
    ensures InvColumn(0x15) == 0xd6bde997 && InvColumn(0x46) == 0x894043cc && InvColumn(0x57) == 0x67d99e77
    ensures InvColumn(0xa7) == 0xb0e842bd && InvColumn(0x8d) == 0x07898b88 && InvColumn(0x9d) == 0xe7195b38
    ensures InvColumn(0x84) == 0x79c8eedb
  {
  }

  lemma T5Column5(x: bv8)
    ensures T5Row5(x) == InvColumn(InvSRow5(x))
  {
    hide InvColumn, Select8, Select32;
    T5Entries5();
    SelectInvColumn(x, 0x6c, 0x70, 0x48, 0x50, 0xfd, 0xed, 0xb9, 0xda, 0x5e, 0x15, 0x46, 0x57, 0xa7, 0x8d, 0x9d, 0x84);
  }

  lemma Rotations5(x: bv8)
    ensures T2Row5(x) == Rotated(T1Row5(x), 1) && T6Row5(x) == Rotated(T5Row5(x), 1)
    ensures T3Row5(x) == Rotated(T1Row5(x), 2) && T7Row5(x) == Rotated(T5Row5(x), 2)
    ensures T4Row5(x) == Rotated(T1Row5(x), 3) && T8Row5(x) == Rotated(T5Row5(x), 3)
    ensures U2Row5(x) == Rotated(U1Row5(x), 1) && U3Row5(x) == Rotated(U1Row5(x), 2)
    ensures U4Row5(x) == Rotated(U1Row5(x), 3)
  {
  }

  lemma InvS5(x: bv8)
    ensures InvS(SRow5(x)) == InRow(x, 0x50)
  {
  }

  lemma T1Column6(x: bv8)
    ensures T1Row6(x) == Column(SRow6(x))
  {
  }

  lemma U1Column6(x: bv8)
    ensures U1Row6(x) == InvColumn(InRow(x, 0x60))
  {
  }

  lemma T5Entries6()
    ensures InvColumn(0x90) == 0xa17c0a47 && InvColumn(0xd8) == 0x7c420fe9 && InvColumn(0xab) == 0xf8841ec9
    ensures InvColumn(0x00) == 0x00000000 && InvColumn(0x8c) == 0x09808683 && InvColumn(0xbc) == 0x322bed48
    ensures InvColumn(0xd3) == 0x1e1170ac && InvColumn(0x0a) == 0x6c5a724e && InvColumn(0xf7) == 0xfd0efffb
    ensures InvColumn(0xe4) == 0x0f853856 && InvColumn(0x58) == 0x3daed51e && InvColumn(0x05) == 0x362d3927
    ensures InvColumn(0xb8) == 0x0a0fd964 && InvColumn(0xb3) == 0x685ca621 && InvColumn(0x45) == 0x9b5b54d1
    ensures InvColumn(0x06) == 0x24362e3a
  {
  }

  lemma T5Column6(x: bv8)
    ensures T5Row6(x) == InvColumn(InvSRow6(x))
  {
    hide InvColumn, Select8, Select32;
    T5Entries6();
    SelectInvColumn(x, 0x90, 0xd8, 0xab, 0x00, 0x8c, 0xbc, 0xd3, 0x0a, 0xf7, 0xe4, 0x58, 0x05, 0xb8, 0xb3, 0x45, 0x06);
  }

  lemma Rotations6(x: bv8)
    ensures T2Row6(x) == Rotated(T1Row6(x), 1) && T6Row6(x) == Rotated(T5Row6(x), 1)
    ensures T3Row6(x) == Rotated(T1Row6(x), 2) && T7Row6(x) == Rotated(T5Row6(x), 2)
    ensures T4Row6(x) == Rotated(T1Row6(x), 3) && T8Row6(x) == Rotated(T5Row6(x), 3)
    ensures U2Row6(x) == Rotated(U1Row6(x), 1) && U3Row6(x) == Rotated(U1Row6(x), 2)
    ensures U4Row6(x) == Rotated(U1Row6(x), 3)
  {
  }

  lemma InvS6(x: bv8)
    ensures InvS(SRow6(x)) == InRow(x, 0x60)
  {
  }

  lemma T1Column7(x: bv8)
    ensures T1Row7(x) == Column(SRow7(x))
  {
  }

  lemma U1Column7(x: bv8)
    ensures U1Row7(x) == InvColumn(InRow(x, 0x70))
  {
  }

  lemma T5Entries7()
    ensures InvColumn(0xd0) == 0x0c0a67b1 && InvColumn(0x2c) == 0x9357e70f && InvColumn(0x1e) == 0xb4ee96d2
    ensures InvColumn(0x8f) == 0x1b9b919e && InvColumn(0xca) == 0x80c0c54f && InvColumn(0x3f) == 0x61dc20a2
    ensures InvColumn(0x0f) == 0x5a774b69 && InvColumn(0x02) == 0x1c121a16 && InvColumn(0xc1) == 0xe293ba0a
    ensures InvColumn(0xaf) == 0xc0a02ae5 && InvColumn(0xbd) == 0x3c22e043 && InvColumn(0x03) == 0x121b171d
    ensures InvColumn(0x01) == 0x0e090d0b && InvColumn(0x13) == 0xf28bc7ad && InvColumn(0x8a) == 0x2db6a8b9
    ensures InvColumn(0x6b) == 0x141ea9c8
  {
  }

  lemma T5Column7(x: bv8)
    ensures T5Row7(x) == InvColumn(InvSRow7(x))
  {
    hide InvColumn, Select8, Select32;
    T5Entries7();
    SelectInvColumn(x, 0xd0, 0x2c, 0x1e, 0x8f, 0xca, 0x3f, 0x0f, 0x02, 0xc1, 0xaf, 0xbd, 0x03, 0x01, 0x13, 0x8a, 0x6b);
  }

  lemma Rotations7(x: bv8)
    ensures T2Row7(x) == Rotated(T1Row7(x), 1) && T6Row7(x) == Rotated(T5Row7(x), 1)
    ensures T3Row7(x) == Rotated(T1Row7(x), 2) && T7Row7(x) == Rotated(T5Row7(x), 2)
    ensures T4Row7(x) == Rotated(T1Row7(x), 3) && T8Row7(x) == Rotated(T5Row7(x), 3)
    ensures U2Row7(x) == Rotated(U1Row7(x), 1) && U3Row7(x) == Rotated(U1Row7(x), 2)
    ensures U4Row7(x) == Rotated(U1Row7(x), 3)
  {
  }

  lemma InvS7(x: bv8)
    ensures InvS(SRow7(x)) == InRow(x, 0x70)
  {
  }

  lemma T1Column8(x: bv8)
    ensures T1Row8(x) == Column(SRow8(x))
  {
  }

  lemma U1Column8(x: bv8)
    ensures U1Row8(x) == InvColumn(InRow(x, 0x80))
  {
  }

  lemma T5Entries8()
    ensures InvColumn(0x3a) == 0x57f11985 && InvColumn(0x91) == 0xaf75074c && InvColumn(0x11) == 0xee99ddbb
    ensures InvColumn(0x41) == 0xa37f60fd && InvColumn(0x4f) == 0xf701269f && InvColumn(0x67) == 0x5c72f5bc
    ensures InvColumn(0xdc) == 0x44663bc5 && InvColumn(0xea) == 0x5bfb7e34 && InvColumn(0x97) == 0x8b432976
    ensures InvColumn(0xf2) == 0xcb23c6dc && InvColumn(0xcf) == 0xb6edfc68 && InvColumn(0xce) == 0xb8e4f163
    ensures InvColumn(0xf0) == 0xd731dcca && InvColumn(0xb4) == 0x42638510 && InvColumn(0xe6) == 0x13972240
    ensures InvColumn(0x73) == 0x84c61120
  {
  }

  lemma T5Column8(x: bv8)
    ensures T5Row8(x) == InvColumn(InvSRow8(x))
  {
    hide InvColumn, Select8, Select32;
    T5Entries8();
    SelectInvColumn(x, 0x3a, 0x91, 0x11, 0x41, 0x4f, 0x67, 0xdc, 0xea, 0x97, 0xf2, 0xcf, 0xce, 0xf0, 0xb4, 0xe6, 0x73);
  }

  lemma Rotations8(x: bv8)
    ensures T2Row8(x) == Rotated(T1Row8(x), 1) && T6Row8(x) == Rotated(T5Row8(x), 1)
    ensures T3Row8(x) == Rotated(T1Row8(x), 2) && T7Row8(x) == Rotated(T5Row8(x), 2)
    ensures T4Row8(x) == Rotated(T1Row8(x), 3) && T8Row8(x) == Rotated(T5Row8(x), 3)
    ensures U2Row8(x) == Rotated(U1Row8(x), 1) && U3Row8(x) == Rotated(U1Row8(x), 2)
    ensures U4Row8(x) == Rotated(U1Row8(x), 3)
  {
  }

  lemma InvS8(x: bv8)
    ensures InvS(SRow8(x)) == InRow(x, 0x80)
  {
  }

  lemma T1Column9(x: bv8)
    ensures T1Row9(x) == Column(SRow9(x))
  {
  }

  lemma U1Column9(x: bv8)
    ensures U1Row9(x) == InvColumn(InRow(x, 0x90))
  {
  }

  lemma T5Entries9()
    ensures InvColumn(0x96) == 0x854a247d && InvColumn(0xac) == 0xd2bb3df8 && InvColumn(0x74) == 0xaef93211
    ensures InvColumn(0x22) == 0xc729a16d && InvColumn(0xe7) == 0x1d9e2f4b && InvColumn(0xad) == 0xdcb230f3
    ensures InvColumn(0x35) == 0x0d8652ec && InvColumn(0x85) == 0x77c1e3d0 && InvColumn(0xe2) == 0x2bb3166c
    ensures InvColumn(0xf9) == 0xa970b999 && InvColumn(0x37) == 0x119448fa && InvColumn(0xe8) == 0x47e96422
    ensures InvColumn(0x1c) == 0xa8fc8cc4 && InvColumn(0x75) == 0xa0f03f1a && InvColumn(0xdf) == 0x567d2cd8
    ensures InvColumn(0x6e) == 0x223390ef
  {
  }

  lemma T5Column9(x: bv8)
    ensures T5Row9(x) == InvColumn(InvSRow9(x))
  {
    hide InvColumn, Select8, Select32;
    T5Entries9();
    SelectInvColumn(x, 0x96, 0xac, 0x74, 0x22, 0xe7, 0xad, 0x35, 0x85, 0xe2, 0xf9, 0x37, 0xe8, 0x1c, 0x75, 0xdf, 0x6e);
  }

  lemma Rotations9(x: bv8)
    ensures T2Row9(x) == Rotated(T1Row9(x), 1) && T6Row9(x) == Rotated(T5Row9(x), 1)
    ensures T3Row9(x) == Rotated(T1Row9(x), 2) && T7Row9(x) == Rotated(T5Row9(x), 2)
    ensures T4Row9(x) == Rotated(T1Row9(x), 3) && T8Row9(x) == Rotated(T5Row9(x), 3)
    ensures U2Row9(x) == Rotated(U1Row9(x), 1) && U3Row9(x) == Rotated(U1Row9(x), 2)
    ensures U4Row9(x) == Rotated(U1Row9(x), 3)
  {
  }

  lemma InvS9(x: bv8)
    ensures InvS(SRow9(x)) == InRow(x, 0x90)
  {
  }

  lemma T1Column10(x: bv8)
    ensures T1Row10(x) == Column(SRow10(x))
  {
  }

  lemma U1Column10(x: bv8)
    ensures U1Row10(x) == InvColumn(InRow(x, 0xA0))
  {
  }

  lemma T5Entries10()
    ensures InvColumn(0x47) == 0x87494ec7 && InvColumn(0xf1) == 0xd938d1c1 && InvColumn(0x1a) == 0x8ccaa2fe
    ensures InvColumn(0x71) == 0x98d40b36 && InvColumn(0x1d) == 0xa6f581cf && InvColumn(0x29) == 0xa57ade28
    ensures InvColumn(0xc5) == 0xdab78e26 && InvColumn(0x89) == 0x3fadbfa4 && InvColumn(0x6f) == 0x2c3a9de4
    ensures InvColumn(0xb7) == 0x5078920d && InvColumn(0x62) == 0x6a5fcc9b && InvColumn(0x0e) == 0x547e4662
    ensures InvColumn(0xaa) == 0xf68d13c2 && InvColumn(0x18) == 0x90d8b8e8 && InvColumn(0xbe) == 0x2e39f75e
    ensures InvColumn(0x1b) == 0x82c3aff5
  {
  }

  lemma T5Column10(x: bv8)
    ensures T5Row10(x) == InvColumn(InvSRow10(x))
  {
    hide InvColumn, Select8, Select32;
    T5Entries10();
    SelectInvColumn(x, 0x47, 0xf1, 0x1a, 0x71, 0x1d, 0x29, 0xc5, 0x89, 0x6f, 0xb7, 0x62, 0x0e, 0xaa, 0x18, 0xbe, 0x1b);
  }

  lemma Rotations10(x: bv8)
    ensures T2Row10(x) == Rotated(T1Row10(x), 1) && T6Row10(x) == Rotated(T5Row10(x), 1)
    ensures T3Row10(x) == Rotated(T1Row10(x), 2) && T7Row10(x) == Rotated(T5Row10(x), 2)
    ensures T4Row10(x) == Rotated(T1Row10(x), 3) && T8Row10(x) == Rotated(T5Row10(x), 3)
    ensures U2Row10(x) == Rotated(U1Row10(x), 1) && U3Row10(x) == Rotated(U1Row10(x), 2)
    ensures U4Row10(x) == Rotated(U1Row10(x), 3)
  {
  }

  lemma InvS10(x: bv8)
    ensures InvS(SRow10(x)) == InRow(x, 0xA0)
  {
  }

  lemma T1Column11(x: bv8)
    ensures T1Row11(x) == Column(SRow11(x))
  {
  }

  lemma U1Column11(x: bv8)
    ensures U1Row11(x) == InvColumn(InRow(x, 0xB0))
  {
  }

  lemma T5Entries11()
    ensures InvColumn(0xfc) == 0x9f5d80be && InvColumn(0x56) == 0x69d0937c && InvColumn(0x3e) == 0x6fd52da9
    ensures InvColumn(0x4b) == 0xcf2512b3 && InvColumn(0xc6) == 0xc8ac993b && InvColumn(0xd2) == 0x10187da7
    ensures InvColumn(0x79) == 0xe89c636e && InvColumn(0x20) == 0xdb3bbb7b && InvColumn(0x9a) == 0xcd267809
    ensures InvColumn(0xdb) == 0x6e5918f4 && InvColumn(0xc0) == 0xec9ab701 && InvColumn(0xfe) == 0x834f9aa8
    ensures InvColumn(0x78) == 0xe6956e65 && InvColumn(0xcd) == 0xaaffe67e && InvColumn(0x5a) == 0x21bccf08
    ensures InvColumn(0xf4) == 0xef15e8e6
  {
  }

  lemma T5Column11(x: bv8)
    ensures T5Row11(x) == InvColumn(InvSRow11(x))
  {
    hide InvColumn, Select8, Select32;
    T5Entries11();
    SelectInvColumn(x, 0xfc, 0x56, 0x3e, 0x4b, 0xc6, 0xd2, 0x79, 0x20, 0x9a, 0xdb, 0xc0, 0xfe, 0x78, 0xcd, 0x5a, 0xf4);
  }

  lemma Rotations11(x: bv8)
    ensures T2Row11(x) == Rotated(T1Row11(x), 1) && T6Row11(x) == Rotated(T5Row11(x), 1)
    ensures T3Row11(x) == Rotated(T1Row11(x), 2) && T7Row11(x) == Rotated(T5Row11(x), 2)
    ensures T4Row11(x) == Rotated(T1Row11(x), 3) && T8Row11(x) == Rotated(T5Row11(x), 3)
    ensures U2Row11(x) == Rotated(U1Row11(x), 1) && U3Row11(x) == Rotated(U1Row11(x), 2)
    ensures U4Row11(x) == Rotated(U1Row11(x), 3)
  {
  }

  lemma InvS11(x: bv8)
    ensures InvS(SRow11(x)) == InRow(x, 0xB0)
  {
  }

  lemma T1Column12(x: bv8)
    ensures T1Row12(x) == Column(SRow12(x))
  {
  }

  lemma U1Column12(x: bv8)
    ensures U1Row12(x) == InvColumn(InRow(x, 0xC0))
  {
  }

  lemma T5Entries12()
    ensures InvColumn(0x1f) == 0xbae79bd9 && InvColumn(0xdd) == 0x4a6f36ce && InvColumn(0xa8) == 0xea9f09d4
    ensures InvColumn(0x33) == 0x29b07cd6 && InvColumn(0x88) == 0x31a4b2af && InvColumn(0x07) == 0x2a3f2331
    ensures InvColumn(0xc7) == 0xc6a59430 && InvColumn(0x31) == 0x35a266c0 && InvColumn(0xb1) == 0x744ebc37
    ensures InvColumn(0x12) == 0xfc82caa6 && InvColumn(0x10) == 0xe090d0b0 && InvColumn(0x59) == 0x33a7d815
    ensures InvColumn(0x27) == 0xf104984a && InvColumn(0x80) == 0x41ecdaf7 && InvColumn(0xec) == 0x7fcd500e
    ensures InvColumn(0x5f) == 0x1791f62f
  {
  }

  lemma T5Column12(x: bv8)
    ensures T5Row12(x) == InvColumn(InvSRow12(x))
  {
    hide InvColumn, Select8, Select32;
    T5Entries12();
    SelectInvColumn(x, 0x1f, 0xdd, 0xa8, 0x33, 0x88, 0x07, 0xc7, 0x31, 0xb1, 0x12, 0x10, 0x59, 0x27, 0x80, 0xec, 0x5f);
  }

  lemma Rotations12(x: bv8)
    ensures T2Row12(x) == Rotated(T1Row12(x), 1) && T6Row12(x) == Rotated(T5Row12(x), 1)
    ensures T3Row12(x) == Rotated(T1Row12(x), 2) && T7Row12(x) == Rotated(T5Row12(x), 2)
    ensures T4Row12(x) == Rotated(T1Row12(x), 3) && T8Row12(x) == Rotated(T5Row12(x), 3)
    ensures U2Row12(x) == Rotated(U1Row12(x), 1) && U3Row12(x) == Rotated(U1Row12(x), 2)
    ensures U4Row12(x) == Rotated(U1Row12(x), 3)
  {
  }

  lemma InvS12(x: bv8)
    ensures InvS(SRow12(x)) == InRow(x, 0xC0)
  {
  }

  lemma T1Column13(x: bv8)
    ensures T1Row13(x) == Column(SRow13(x))
  {
  }

  lemma U1Column13(x: bv8)
    ensures U1Row13(x) == InvColumn(InRow(x, 0xD0))
  {
  }

  lemma T5Entries13()
    ensures InvColumn(0x60) == 0x764dd68d && InvColumn(0x51) == 0x43efb04d && InvColumn(0x7f) == 0xccaa4d54
    ensures InvColumn(0xa9) == 0xe49604df && InvColumn(0x19) == 0x9ed1b5e3 && InvColumn(0xb5) == 0x4c6a881b
    ensures InvColumn(0x4a) == 0xc12c1fb8 && InvColumn(0x0d) == 0x4665517f && InvColumn(0x2d) == 0x9d5eea04
    ensures InvColumn(0xe5) == 0x018c355d && InvColumn(0x7a) == 0xfa877473 && InvColumn(0x9f) == 0xfb0b412e
    ensures InvColumn(0x93) == 0xb3671d5a && InvColumn(0xc9) == 0x92dbd252 && InvColumn(0x9c) == 0xe9105633
    ensures InvColumn(0xef) == 0x6dd64713
  {
  }

  lemma T5Column13(x: bv8)
    ensures T5Row13(x) == InvColumn(InvSRow13(x))
  {
    hide InvColumn, Select8, Select32;
    T5Entries13();
    SelectInvColumn(x, 0x60, 0x51, 0x7f, 0xa9, 0x19, 0xb5, 0x4a, 0x0d, 0x2d, 0xe5, 0x7a, 0x9f, 0x93, 0xc9, 0x9c, 0xef);
  }

  lemma Rotations13(x: bv8)
    ensures T2Row13(x) == Rotated(T1Row13(x), 1) && T6Row13(x) == Rotated(T5Row13(x), 1)
    ensures T3Row13(x) == Rotated(T1Row13(x), 2) && T7Row13(x) == Rotated(T5Row13(x), 2)
    ensures T4Row13(x) == Rotated(T1Row13(x), 3) && T8Row13(x) == Rotated(T5Row13(x), 3)
    ensures U2Row13(x) == Rotated(U1Row13(x), 1) && U3Row13(x) == Rotated(U1Row13(x), 2)
    ensures U4Row13(x) == Rotated(U1Row13(x), 3)
  {
  }

  lemma InvS13(x: bv8)
    ensures InvS(SRow13(x)) == InRow(x, 0xD0)
  {
  }

  lemma T1Column14(x: bv8)
    ensures T1Row14(x) == Column(SRow14(x))
  {
  }

  lemma U1Column14(x: bv8)
    ensures U1Row14(x) == InvColumn(InRow(x, 0xE0))
  {
  }

  lemma T5Entries14()
    ensures InvColumn(0xa0) == 0x9ad7618c && InvColumn(0xe0) == 0x37a10c7a && InvColumn(0x3b) == 0x59f8148e
    ensures InvColumn(0x4d) == 0xeb133c89 && InvColumn(0xae) == 0xcea927ee && InvColumn(0x2a) == 0xb761c935
    ensures InvColumn(0xf5) == 0xe11ce5ed && InvColumn(0xb0) == 0x7a47b13c && InvColumn(0xc8) == 0x9cd2df59
    ensures InvColumn(0xeb) == 0x55f2733f && InvColumn(0xbb) == 0x1814ce79 && InvColumn(0x3c) == 0x73c737bf
    ensures InvColumn(0x83) == 0x53f7cdea && InvColumn(0x53) == 0x5ffdaa5b && InvColumn(0x99) == 0xdf3d6f14
    ensures InvColumn(0x61) == 0x7844db86
  {
  }

  lemma T5Column14(x: bv8)
    ensures T5Row14(x) == InvColumn(InvSRow14(x))
  {
    hide InvColumn, Select8, Select32;
    T5Entries14();
    SelectInvColumn(x, 0xa0, 0xe0, 0x3b, 0x4d, 0xae, 0x2a, 0xf5, 0xb0, 0xc8, 0xeb, 0xbb, 0x3c, 0x83, 0x53, 0x99, 0x61);
  }

  lemma Rotations14(x: bv8)
    ensures T2Row14(x) == Rotated(T1Row14(x), 1) && T6Row14(x) == Rotated(T5Row14(x), 1)
    ensures T3Row14(x) == Rotated(T1Row14(x), 2) && T7Row14(x) == Rotated(T5Row14(x), 2)
    ensures T4Row14(x) == Rotated(T1Row14(x), 3) && T8Row14(x) == Rotated(T5Row14(x), 3)
    ensures U2Row14(x) == Rotated(U1Row14(x), 1) && U3Row14(x) == Rotated(U1Row14(x), 2)
    ensures U4Row14(x) == Rotated(U1Row14(x), 3)
  {
  }

  lemma InvS14(x: bv8)
    ensures InvS(SRow14(x)) == InRow(x, 0xE0)
  {
  }

  lemma T1Column15(x: bv8)
    ensures T1Row15(x) == Column(SRow15(x))
  {
  }

  lemma U1Column15(x: bv8)
    ensures U1Row15(x) == InvColumn(InRow(x, 0xF0))
  {
  }

  lemma T5Entries15()
    ensures InvColumn(0x17) == 0xcaaff381 && InvColumn(0x2b) == 0xb968c43e && InvColumn(0x04) == 0x3824342c
    ensures InvColumn(0x7e) == 0xc2a3405f && InvColumn(0xba) == 0x161dc372 && InvColumn(0x77) == 0xbce2250c
    ensures InvColumn(0xd6) == 0x283c498b && InvColumn(0x26) == 0xff0d9541 && InvColumn(0xe1) == 0x39a80171
    ensures InvColumn(0x69) == 0x080cb3de && InvColumn(0x14) == 0xd8b4e49c && InvColumn(0x63) == 0x6456c190
    ensures InvColumn(0x55) == 0x7bcb8461 && InvColumn(0x21) == 0xd532b670 && InvColumn(0x0c) == 0x486c5c74
    ensures InvColumn(0x7d) == 0xd0b85742
  {
  }

  lemma T5Column15(x: bv8)
    ensures T5Row15(x) == InvColumn(InvSRow15(x))
  {
    hide InvColumn, Select8, Select32;
    T5Entries15();
    SelectInvColumn(x, 0x17, 0x2b, 0x04, 0x7e, 0xba, 0x77, 0xd6, 0x26, 0xe1, 0x69, 0x14, 0x63, 0x55, 0x21, 0x0c, 0x7d);
  }

  lemma Rotations15(x: bv8)
    ensures T2Row15(x) == Rotated(T1Row15(x), 1) && T6Row15(x) == Rotated(T5Row15(x), 1)
    ensures T3Row15(x) == Rotated(T1Row15(x), 2) && T7Row15(x) == Rotated(T5Row15(x), 2)
    ensures T4Row15(x) == Rotated(T1Row15(x), 3) && T8Row15(x) == Rotated(T5Row15(x), 3)
    ensures U2Row15(x) == Rotated(U1Row15(x), 1) && U3Row15(x) == Rotated(U1Row15(x), 2)
    ensures U4Row15(x) == Rotated(U1Row15(x), 3)
  {
  }

  lemma InvS15(x: bv8)
    ensures InvS(SRow15(x)) == InRow(x, 0xF0)
  {
  }

  // Whole tables.

  lemma T1Table(x: bv8)
    ensures T1(x) == Column(S(x))
  {
    hide T1Row0, T1Row1, T1Row2, T1Row3, T1Row4, T1Row5, T1Row6, T1Row7, T1Row8, T1Row9, T1Row10, T1Row11, T1Row12,
      T1Row13, T1Row14, T1Row15, SRow0, SRow1, SRow2, SRow3, SRow4, SRow5, SRow6, SRow7, SRow8, SRow9, SRow10, SRow11,
      SRow12, SRow13, SRow14, SRow15;
    hide Column, Select8, Select32;
    T1Column0(x); T1Column1(x); T1Column2(x); T1Column3(x); T1Column4(x); T1Column5(x); T1Column6(x); T1Column7(x);
    T1Column8(x); T1Column9(x); T1Column10(x); T1Column11(x); T1Column12(x); T1Column13(x); T1Column14(x);
    T1Column15(x);
    SelectColumn(x >> 4, SRow0(x), SRow1(x), SRow2(x), SRow3(x), SRow4(x), SRow5(x), SRow6(x), SRow7(x), SRow8(x),
      SRow9(x), SRow10(x), SRow11(x), SRow12(x), SRow13(x), SRow14(x), SRow15(x));
  }

  lemma U1Table(x: bv8)
    ensures U1(x) == InvColumn(x)
  {
    hide U1Row0, U1Row1, U1Row2, U1Row3, U1Row4, U1Row5, U1Row6, U1Row7, U1Row8, U1Row9, U1Row10, U1Row11, U1Row12,
      U1Row13, U1Row14, U1Row15;
    hide InvColumn, Select8, Select32, InRow;
    U1Column0(x); U1Column1(x); U1Column2(x); U1Column3(x); U1Column4(x); U1Column5(x); U1Column6(x); U1Column7(x);
    U1Column8(x); U1Column9(x); U1Column10(x); U1Column11(x); U1Column12(x); U1Column13(x); U1Column14(x);
    U1Column15(x);
    Rejoined(x);
    SelectInvColumn(x >> 4, InRow(x, 0x00), InRow(x, 0x10), InRow(x, 0x20), InRow(x, 0x30), InRow(x, 0x40),
      InRow(x, 0x50), InRow(x, 0x60), InRow(x, 0x70), InRow(x, 0x80), InRow(x, 0x90), InRow(x, 0xA0), InRow(x, 0xB0),
      InRow(x, 0xC0), InRow(x, 0xD0), InRow(x, 0xE0), InRow(x, 0xF0));
  }

  lemma T5Table(x: bv8)
    ensures T5(x) == InvColumn(InvS(x))
  {
    hide T5Row0, T5Row1, T5Row2, T5Row3, T5Row4, T5Row5, T5Row6, T5Row7, T5Row8, T5Row9, T5Row10, T5Row11, T5Row12,
      T5Row13, T5Row14, T5Row15, InvSRow0, InvSRow1, InvSRow2, InvSRow3, InvSRow4, InvSRow5, InvSRow6, InvSRow7,
      InvSRow8, InvSRow9, InvSRow10, InvSRow11, InvSRow12, InvSRow13, InvSRow14, InvSRow15;
    hide InvColumn, Select8, Select32;
    T5Column0(x); T5Column1(x); T5Column2(x); T5Column3(x); T5Column4(x); T5Column5(x); T5Column6(x); T5Column7(x);
    T5Column8(x); T5Column9(x); T5Column10(x); T5Column11(x); T5Column12(x); T5Column13(x); T5Column14(x);
    T5Column15(x);
    SelectInvColumn(x >> 4, InvSRow0(x), InvSRow1(x), InvSRow2(x), InvSRow3(x), InvSRow4(x), InvSRow5(x), InvSRow6(x),
      InvSRow7(x), InvSRow8(x), InvSRow9(x), InvSRow10(x), InvSRow11(x), InvSRow12(x), InvSRow13(x), InvSRow14(x),
      InvSRow15(x));
  }

  lemma Rotated1(x: bv8)
    ensures T2(x) == Rotated(T1(x), 1) && T6(x) == Rotated(T5(x), 1) && U2(x) == Rotated(U1(x), 1)
  {
    hide T1Row0, T1Row1, T1Row2, T1Row3, T1Row4, T1Row5, T1Row6, T1Row7, T1Row8, T1Row9, T1Row10, T1Row11, T1Row12,
      T1Row13, T1Row14, T1Row15, T2Row0, T2Row1, T2Row2, T2Row3, T2Row4, T2Row5, T2Row6, T2Row7, T2Row8, T2Row9,
      T2Row10, T2Row11, T2Row12, T2Row13, T2Row14, T2Row15, T5Row0, T5Row1, T5Row2, T5Row3, T5Row4, T5Row5, T5Row6,
      T5Row7, T5Row8, T5Row9, T5Row10, T5Row11, T5Row12, T5Row13, T5Row14, T5Row15, T6Row0, T6Row1, T6Row2, T6Row3,
      T6Row4, T6Row5, T6Row6, T6Row7, T6Row8, T6Row9, T6Row10, T6Row11, T6Row12, T6Row13, T6Row14, T6Row15, U1Row0,
      U1Row1, U1Row2, U1Row3, U1Row4, U1Row5, U1Row6, U1Row7, U1Row8, U1Row9, U1Row10, U1Row11, U1Row12, U1Row13,
      U1Row14, U1Row15, U2Row0, U2Row1, U2Row2, U2Row3, U2Row4, U2Row5, U2Row6, U2Row7, U2Row8, U2Row9, U2Row10,
      U2Row11, U2Row12, U2Row13, U2Row14, U2Row15;
    hide Rotated, Select32;
    Rotations0(x); Rotations1(x); Rotations2(x); Rotations3(x); Rotations4(x); Rotations5(x); Rotations6(x);
    Rotations7(x); Rotations8(x); Rotations9(x); Rotations10(x); Rotations11(x); Rotations12(x); Rotations13(x);
    Rotations14(x); Rotations15(x);
    SelectRotated(x >> 4, 1, T1Row0(x), T1Row1(x), T1Row2(x), T1Row3(x), T1Row4(x), T1Row5(x), T1Row6(x), T1Row7(x),
      T1Row8(x), T1Row9(x), T1Row10(x), T1Row11(x), T1Row12(x), T1Row13(x), T1Row14(x), T1Row15(x));
    SelectRotated(x >> 4, 1, T5Row0(x), T5Row1(x), T5Row2(x), T5Row3(x), T5Row4(x), T5Row5(x), T5Row6(x), T5Row7(x),
      T5Row8(x), T5Row9(x), T5Row10(x), T5Row11(x), T5Row12(x), T5Row13(x), T5Row14(x), T5Row15(x));
    SelectRotated(x >> 4, 1, U1Row0(x), U1Row1(x), U1Row2(x), U1Row3(x), U1Row4(x), U1Row5(x), U1Row6(x), U1Row7(x),
      U1Row8(x), U1Row9(x), U1Row10(x), U1Row11(x), U1Row12(x), U1Row13(x), U1Row14(x), U1Row15(x));
  }

  lemma Rotated2(x: bv8)
    ensures T3(x) == Rotated(T1(x), 2) && T7(x) == Rotated(T5(x), 2) && U3(x) == Rotated(U1(x), 2)
  {
    hide T1Row0, T1Row1, T1Row2, T1Row3, T1Row4, T1Row5, T1Row6, T1Row7, T1Row8, T1Row9, T1Row10, T1Row11, T1Row12,
      T1Row13, T1Row14, T1Row15, T3Row0, T3Row1, T3Row2, T3Row3, T3Row4, T3Row5, T3Row6, T3Row7, T3Row8, T3Row9,
      T3Row10, T3Row11, T3Row12, T3Row13, T3Row14, T3Row15, T5Row0, T5Row1, T5Row2, T5Row3, T5Row4, T5Row5, T5Row6,
      T5Row7, T5Row8, T5Row9, T5Row10, T5Row11, T5Row12, T5Row13, T5Row14, T5Row15, T7Row0, T7Row1, T7Row2, T7Row3,
      T7Row4, T7Row5, T7Row6, T7Row7, T7Row8, T7Row9, T7Row10, T7Row11, T7Row12, T7Row13, T7Row14, T7Row15, U1Row0,
      U1Row1, U1Row2, U1Row3, U1Row4, U1Row5, U1Row6, U1Row7, U1Row8, U1Row9, U1Row10, U1Row11, U1Row12, U1Row13,
      U1Row14, U1Row15, U3Row0, U3Row1, U3Row2, U3Row3, U3Row4, U3Row5, U3Row6, U3Row7, U3Row8, U3Row9, U3Row10,
      U3Row11, U3Row12, U3Row13, U3Row14, U3Row15;
    hide Rotated, Select32;
    Rotations0(x); Rotations1(x); Rotations2(x); Rotations3(x); Rotations4(x); Rotations5(x); Rotations6(x);
    Rotations7(x); Rotations8(x); Rotations9(x); Rotations10(x); Rotations11(x); Rotations12(x); Rotations13(x);
    Rotations14(x); Rotations15(x);
    SelectRotated(x >> 4, 2, T1Row0(x), T1Row1(x), T1Row2(x), T1Row3(x), T1Row4(x), T1Row5(x), T1Row6(x), T1Row7(x),
      T1Row8(x), T1Row9(x), T1Row10(x), T1Row11(x), T1Row12(x), T1Row13(x), T1Row14(x), T1Row15(x));
    SelectRotated(x >> 4, 2, T5Row0(x), T5Row1(x), T5Row2(x), T5Row3(x), T5Row4(x), T5Row5(x), T5Row6(x), T5Row7(x),
      T5Row8(x), T5Row9(x), T5Row10(x), T5Row11(x), T5Row12(x), T5Row13(x), T5Row14(x), T5Row15(x));
    SelectRotated(x >> 4, 2, U1Row0(x), U1Row1(x), U1Row2(x), U1Row3(x), U1Row4(x), U1Row5(x), U1Row6(x), U1Row7(x),
      U1Row8(x), U1Row9(x), U1Row10(x), U1Row11(x), U1Row12(x), U1Row13(x), U1Row14(x), U1Row15(x));
  }

  lemma Rotated3(x: bv8)
    ensures T4(x) == Rotated(T1(x), 3) && T8(x) == Rotated(T5(x), 3) && U4(x) == Rotated(U1(x), 3)
  {
    hide T1Row0, T1Row1, T1Row2, T1Row3, T1Row4, T1Row5, T1Row6, T1Row7, T1Row8, T1Row9, T1Row10, T1Row11, T1Row12,
      T1Row13, T1Row14, T1Row15, T4Row0, T4Row1, T4Row2, T4Row3, T4Row4, T4Row5, T4Row6, T4Row7, T4Row8, T4Row9,
      T4Row10, T4Row11, T4Row12, T4Row13, T4Row14, T4Row15, T5Row0, T5Row1, T5Row2, T5Row3, T5Row4, T5Row5, T5Row6,
      T5Row7, T5Row8, T5Row9, T5Row10, T5Row11, T5Row12, T5Row13, T5Row14, T5Row15, T8Row0, T8Row1, T8Row2, T8Row3,
      T8Row4, T8Row5, T8Row6, T8Row7, T8Row8, T8Row9, T8Row10, T8Row11, T8Row12, T8Row13, T8Row14, T8Row15, U1Row0,
      U1Row1, U1Row2, U1Row3, U1Row4, U1Row5, U1Row6, U1Row7, U1Row8, U1Row9, U1Row10, U1Row11, U1Row12, U1Row13,
      U1Row14, U1Row15, U4Row0, U4Row1, U4Row2, U4Row3, U4Row4, U4Row5, U4Row6, U4Row7, U4Row8, U4Row9, U4Row10,
      U4Row11, U4Row12, U4Row13, U4Row14, U4Row15;
    hide Rotated, Select32;
    Rotations0(x); Rotations1(x); Rotations2(x); Rotations3(x); Rotations4(x); Rotations5(x); Rotations6(x);
    Rotations7(x); Rotations8(x); Rotations9(x); Rotations10(x); Rotations11(x); Rotations12(x); Rotations13(x);
    Rotations14(x); Rotations15(x);
    SelectRotated(x >> 4, 3, T1Row0(x), T1Row1(x), T1Row2(x), T1Row3(x), T1Row4(x), T1Row5(x), T1Row6(x), T1Row7(x),
      T1Row8(x), T1Row9(x), T1Row10(x), T1Row11(x), T1Row12(x), T1Row13(x), T1Row14(x), T1Row15(x));
    SelectRotated(x >> 4, 3, T5Row0(x), T5Row1(x), T5Row2(x), T5Row3(x), T5Row4(x), T5Row5(x), T5Row6(x), T5Row7(x),
      T5Row8(x), T5Row9(x), T5Row10(x), T5Row11(x), T5Row12(x), T5Row13(x), T5Row14(x), T5Row15(x));
    SelectRotated(x >> 4, 3, U1Row0(x), U1Row1(x), U1Row2(x), U1Row3(x), U1Row4(x), U1Row5(x), U1Row6(x), U1Row7(x),
      U1Row8(x), U1Row9(x), U1Row10(x), U1Row11(x), U1Row12(x), U1Row13(x), U1Row14(x), U1Row15(x));
  }

  lemma InvSUndoesS(x: bv8)
    ensures InvS(S(x)) == x
  {
    hide SRow0, SRow1, SRow2, SRow3, SRow4, SRow5, SRow6, SRow7, SRow8, SRow9, SRow10, SRow11, SRow12, SRow13, SRow14,
      SRow15;
    hide InvS, Select8, InRow;
    InvS0(x); InvS1(x); InvS2(x); InvS3(x); InvS4(x); InvS5(x); InvS6(x); InvS7(x); InvS8(x); InvS9(x); InvS10(x);
    InvS11(x); InvS12(x); InvS13(x); InvS14(x); InvS15(x);
    Rejoined(x);
    SelectInvS(x >> 4, SRow0(x), SRow1(x), SRow2(x), SRow3(x), SRow4(x), SRow5(x), SRow6(x), SRow7(x), SRow8(x),
      SRow9(x), SRow10(x), SRow11(x), SRow12(x), SRow13(x), SRow14(x), SRow15(x));
  }
}
