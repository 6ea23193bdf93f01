/** The examples of FIPS 197: the key expansions of appendix A and the encryptions of appendix C,
    step by step as the appendices print them. */
module AesVectors {
  import opened AesTables
  import opened Gf256
  import opened Fips197
  import opened Wrappers
  import Aes

  // The S-box, figure 7.

  predicate Figure7Row0() {
    && S(0x00) == 0x63 && S(0x01) == 0x7c && S(0x02) == 0x77 && S(0x03) == 0x7b
    && S(0x04) == 0xf2 && S(0x05) == 0x6b && S(0x06) == 0x6f && S(0x07) == 0xc5
    && S(0x08) == 0x30 && S(0x09) == 0x01 && S(0x0a) == 0x67 && S(0x0b) == 0x2b
    && S(0x0c) == 0xfe && S(0x0d) == 0xd7 && S(0x0e) == 0xab && S(0x0f) == 0x76
  }

  lemma SBoxRow0()
    ensures Figure7Row0()
  {
    hide S;
    RowIs0();
  }

  lemma RowIs0()
    ensures forall x: bv8 :: x >> 4 == 0 ==> S(x) == SRow0(x)
  {
    hide SRow0, SRow1, SRow2, SRow3, SRow4, SRow5, SRow6, SRow7, SRow8, SRow9, SRow10, SRow11, SRow12, SRow13,
      SRow14, SRow15;
  }

  predicate Figure7Row1() {
    && S(0x10) == 0xca && S(0x11) == 0x82 && S(0x12) == 0xc9 && S(0x13) == 0x7d
    && S(0x14) == 0xfa && S(0x15) == 0x59 && S(0x16) == 0x47 && S(0x17) == 0xf0
    && S(0x18) == 0xad && S(0x19) == 0xd4 && S(0x1a) == 0xa2 && S(0x1b) == 0xaf
    && S(0x1c) == 0x9c && S(0x1d) == 0xa4 && S(0x1e) == 0x72 && S(0x1f) == 0xc0
  }

  lemma SBoxRow1()
    ensures Figure7Row1()
  {
    hide S;
    RowIs1();
  }

  lemma RowIs1()
    ensures forall x: bv8 :: x >> 4 == 1 ==> S(x) == SRow1(x)
  {
    hide SRow0, SRow1, SRow2, SRow3, SRow4, SRow5, SRow6, SRow7, SRow8, SRow9, SRow10, SRow11, SRow12, SRow13,
      SRow14, SRow15;
  }

  predicate Figure7Row2() {
    && S(0x20) == 0xb7 && S(0x21) == 0xfd && S(0x22) == 0x93 && S(0x23) == 0x26
    && S(0x24) == 0x36 && S(0x25) == 0x3f && S(0x26) == 0xf7 && S(0x27) == 0xcc
    && S(0x28) == 0x34 && S(0x29) == 0xa5 && S(0x2a) == 0xe5 && S(0x2b) == 0xf1
    && S(0x2c) == 0x71 && S(0x2d) == 0xd8 && S(0x2e) == 0x31 && S(0x2f) == 0x15
  }

  lemma SBoxRow2()
    ensures Figure7Row2()
  {
    hide S;
    RowIs2();
  }

  lemma RowIs2()
    ensures forall x: bv8 :: x >> 4 == 2 ==> S(x) == SRow2(x)
  {
    hide SRow0, SRow1, SRow2, SRow3, SRow4, SRow5, SRow6, SRow7, SRow8, SRow9, SRow10, SRow11, SRow12, SRow13,
      SRow14, SRow15;
  }

  predicate Figure7Row3() {
    && S(0x30) == 0x04 && S(0x31) == 0xc7 && S(0x32) == 0x23 && S(0x33) == 0xc3
    && S(0x34) == 0x18 && S(0x35) == 0x96 && S(0x36) == 0x05 && S(0x37) == 0x9a
    && S(0x38) == 0x07 && S(0x39) == 0x12 && S(0x3a) == 0x80 && S(0x3b) == 0xe2
    && S(0x3c) == 0xeb && S(0x3d) == 0x27 && S(0x3e) == 0xb2 && S(0x3f) == 0x75
  }

  lemma SBoxRow3()
    ensures Figure7Row3()
  {
    hide S;
    RowIs3();
  }

  lemma RowIs3()
    ensures forall x: bv8 :: x >> 4 == 3 ==> S(x) == SRow3(x)
  {
    hide SRow0, SRow1, SRow2, SRow3, SRow4, SRow5, SRow6, SRow7, SRow8, SRow9, SRow10, SRow11, SRow12, SRow13,
      SRow14, SRow15;
  }

  predicate Figure7Row4() {
    && S(0x40) == 0x09 && S(0x41) == 0x83 && S(0x42) == 0x2c && S(0x43) == 0x1a
    && S(0x44) == 0x1b && S(0x45) == 0x6e && S(0x46) == 0x5a && S(0x47) == 0xa0
    && S(0x48) == 0x52 && S(0x49) == 0x3b && S(0x4a) == 0xd6 && S(0x4b) == 0xb3
    && S(0x4c) == 0x29 && S(0x4d) == 0xe3 && S(0x4e) == 0x2f && S(0x4f) == 0x84
  }

  lemma SBoxRow4()
    ensures Figure7Row4()
  {
    hide S;
    RowIs4();
  }

  lemma RowIs4()
    ensures forall x: bv8 :: x >> 4 == 4 ==> S(x) == SRow4(x)
  {
    hide SRow0, SRow1, SRow2, SRow3, SRow4, SRow5, SRow6, SRow7, SRow8, SRow9, SRow10, SRow11, SRow12, SRow13,
      SRow14, SRow15;
  }

  predicate Figure7Row5() {
    && S(0x50) == 0x53 && S(0x51) == 0xd1 && S(0x52) == 0x00 && S(0x53) == 0xed
    && S(0x54) == 0x20 && S(0x55) == 0xfc && S(0x56) == 0xb1 && S(0x57) == 0x5b
    && S(0x58) == 0x6a && S(0x59) == 0xcb && S(0x5a) == 0xbe && S(0x5b) == 0x39
    && S(0x5c) == 0x4a && S(0x5d) == 0x4c && S(0x5e) == 0x58 && S(0x5f) == 0xcf
  }

  lemma SBoxRow5()
    ensures Figure7Row5()
  {
    hide S;
    RowIs5();
  }

  lemma RowIs5()
    ensures forall x: bv8 :: x >> 4 == 5 ==> S(x) == SRow5(x)
  {
    hide SRow0, SRow1, SRow2, SRow3, SRow4, SRow5, SRow6, SRow7, SRow8, SRow9, SRow10, SRow11, SRow12, SRow13,
      SRow14, SRow15;
  }

  predicate Figure7Row6() {
    && S(0x60) == 0xd0 && S(0x61) == 0xef && S(0x62) == 0xaa && S(0x63) == 0xfb
    && S(0x64) == 0x43 && S(0x65) == 0x4d && S(0x66) == 0x33 && S(0x67) == 0x85
    && S(0x68) == 0x45 && S(0x69) == 0xf9 && S(0x6a) == 0x02 && S(0x6b) == 0x7f
    && S(0x6c) == 0x50 && S(0x6d) == 0x3c && S(0x6e) == 0x9f && S(0x6f) == 0xa8
  }

  lemma SBoxRow6()
    ensures Figure7Row6()
  {
    hide S;
    RowIs6();
  }

  lemma RowIs6()
    ensures forall x: bv8 :: x >> 4 == 6 ==> S(x) == SRow6(x)
  {
    hide SRow0, SRow1, SRow2, SRow3, SRow4, SRow5, SRow6, SRow7, SRow8, SRow9, SRow10, SRow11, SRow12, SRow13,
      SRow14, SRow15;
  }

  predicate Figure7Row7() {
    && S(0x70) == 0x51 && S(0x71) == 0xa3 && S(0x72) == 0x40 && S(0x73) == 0x8f
    && S(0x74) == 0x92 && S(0x75) == 0x9d && S(0x76) == 0x38 && S(0x77) == 0xf5
    && S(0x78) == 0xbc && S(0x79) == 0xb6 && S(0x7a) == 0xda && S(0x7b) == 0x21
    && S(0x7c) == 0x10 && S(0x7d) == 0xff && S(0x7e) == 0xf3 && S(0x7f) == 0xd2
  }

  lemma SBoxRow7()
    ensures Figure7Row7()
  {
    hide S;
    RowIs7();
  }

  lemma RowIs7()
    ensures forall x: bv8 :: x >> 4 == 7 ==> S(x) == SRow7(x)
  {
    hide SRow0, SRow1, SRow2, SRow3, SRow4, SRow5, SRow6, SRow7, SRow8, SRow9, SRow10, SRow11, SRow12, SRow13,
      SRow14, SRow15;
  }

  predicate Figure7Row8() {
    && S(0x80) == 0xcd && S(0x81) == 0x0c && S(0x82) == 0x13 && S(0x83) == 0xec
    && S(0x84) == 0x5f && S(0x85) == 0x97 && S(0x86) == 0x44 && S(0x87) == 0x17
    && S(0x88) == 0xc4 && S(0x89) == 0xa7 && S(0x8a) == 0x7e && S(0x8b) == 0x3d
    && S(0x8c) == 0x64 && S(0x8d) == 0x5d && S(0x8e) == 0x19 && S(0x8f) == 0x73
  }

  lemma SBoxRow8()
    ensures Figure7Row8()
  {
    hide S;
    RowIs8();
  }

  lemma RowIs8()
    ensures forall x: bv8 :: x >> 4 == 8 ==> S(x) == SRow8(x)
  {
    hide SRow0, SRow1, SRow2, SRow3, SRow4, SRow5, SRow6, SRow7, SRow8, SRow9, SRow10, SRow11, SRow12, SRow13,
      SRow14, SRow15;
  }

  predicate Figure7Row9() {
    && S(0x90) == 0x60 && S(0x91) == 0x81 && S(0x92) == 0x4f && S(0x93) == 0xdc
    && S(0x94) == 0x22 && S(0x95) == 0x2a && S(0x96) == 0x90 && S(0x97) == 0x88
    && S(0x98) == 0x46 && S(0x99) == 0xee && S(0x9a) == 0xb8 && S(0x9b) == 0x14
    && S(0x9c) == 0xde && S(0x9d) == 0x5e && S(0x9e) == 0x0b && S(0x9f) == 0xdb
  }

  lemma SBoxRow9()
    ensures Figure7Row9()
  {
    hide S;
    RowIs9();
  }

  lemma RowIs9()
    ensures forall x: bv8 :: x >> 4 == 9 ==> S(x) == SRow9(x)
  {
    hide SRow0, SRow1, SRow2, SRow3, SRow4, SRow5, SRow6, SRow7, SRow8, SRow9, SRow10, SRow11, SRow12, SRow13,
      SRow14, SRow15;
  }

  predicate Figure7Row10() {
    && S(0xa0) == 0xe0 && S(0xa1) == 0x32 && S(0xa2) == 0x3a && S(0xa3) == 0x0a
    && S(0xa4) == 0x49 && S(0xa5) == 0x06 && S(0xa6) == 0x24 && S(0xa7) == 0x5c
    && S(0xa8) == 0xc2 && S(0xa9) == 0xd3 && S(0xaa) == 0xac && S(0xab) == 0x62
    && S(0xac) == 0x91 && S(0xad) == 0x95 && S(0xae) == 0xe4 && S(0xaf) == 0x79
  }

  lemma SBoxRow10()
    ensures Figure7Row10()
  {
    hide S;
    RowIs10();
  }

  lemma RowIs10()
    ensures forall x: bv8 :: x >> 4 == 10 ==> S(x) == SRow10(x)
  {
    hide SRow0, SRow1, SRow2, SRow3, SRow4, SRow5, SRow6, SRow7, SRow8, SRow9, SRow10, SRow11, SRow12, SRow13,
      SRow14, SRow15;
  }

  predicate Figure7Row11() {
    && S(0xb0) == 0xe7 && S(0xb1) == 0xc8 && S(0xb2) == 0x37 && S(0xb3) == 0x6d
    && S(0xb4) == 0x8d && S(0xb5) == 0xd5 && S(0xb6) == 0x4e && S(0xb7) == 0xa9
    && S(0xb8) == 0x6c && S(0xb9) == 0x56 && S(0xba) == 0xf4 && S(0xbb) == 0xea
    && S(0xbc) == 0x65 && S(0xbd) == 0x7a && S(0xbe) == 0xae && S(0xbf) == 0x08
  }

  lemma SBoxRow11()
    ensures Figure7Row11()
  {
    hide S;
    RowIs11();
  }

  lemma RowIs11()
    ensures forall x: bv8 :: x >> 4 == 11 ==> S(x) == SRow11(x)
  {
    hide SRow0, SRow1, SRow2, SRow3, SRow4, SRow5, SRow6, SRow7, SRow8, SRow9, SRow10, SRow11, SRow12, SRow13,
      SRow14, SRow15;
  }

  predicate Figure7Row12() {
    && S(0xc0) == 0xba && S(0xc1) == 0x78 && S(0xc2) == 0x25 && S(0xc3) == 0x2e
    && S(0xc4) == 0x1c && S(0xc5) == 0xa6 && S(0xc6) == 0xb4 && S(0xc7) == 0xc6
    && S(0xc8) == 0xe8 && S(0xc9) == 0xdd && S(0xca) == 0x74 && S(0xcb) == 0x1f
    && S(0xcc) == 0x4b && S(0xcd) == 0xbd && S(0xce) == 0x8b && S(0xcf) == 0x8a
  }

  lemma SBoxRow12()
    ensures Figure7Row12()
  {
    hide S;
    RowIs12();
  }

  lemma RowIs12()
    ensures forall x: bv8 :: x >> 4 == 12 ==> S(x) == SRow12(x)
  {
    hide SRow0, SRow1, SRow2, SRow3, SRow4, SRow5, SRow6, SRow7, SRow8, SRow9, SRow10, SRow11, SRow12, SRow13,
      SRow14, SRow15;
  }

  predicate Figure7Row13() {
    && S(0xd0) == 0x70 && S(0xd1) == 0x3e && S(0xd2) == 0xb5 && S(0xd3) == 0x66
    && S(0xd4) == 0x48 && S(0xd5) == 0x03 && S(0xd6) == 0xf6 && S(0xd7) == 0x0e
    && S(0xd8) == 0x61 && S(0xd9) == 0x35 && S(0xda) == 0x57 && S(0xdb) == 0xb9
    && S(0xdc) == 0x86 && S(0xdd) == 0xc1 && S(0xde) == 0x1d && S(0xdf) == 0x9e
  }

  lemma SBoxRow13()
    ensures Figure7Row13()
  {
    hide S;
    RowIs13();
  }

  lemma RowIs13()
    ensures forall x: bv8 :: x >> 4 == 13 ==> S(x) == SRow13(x)
  {
    hide SRow0, SRow1, SRow2, SRow3, SRow4, SRow5, SRow6, SRow7, SRow8, SRow9, SRow10, SRow11, SRow12, SRow13,
      SRow14, SRow15;
  }

  predicate Figure7Row14() {
    && S(0xe0) == 0xe1 && S(0xe1) == 0xf8 && S(0xe2) == 0x98 && S(0xe3) == 0x11
    && S(0xe4) == 0x69 && S(0xe5) == 0xd9 && S(0xe6) == 0x8e && S(0xe7) == 0x94
    && S(0xe8) == 0x9b && S(0xe9) == 0x1e && S(0xea) == 0x87 && S(0xeb) == 0xe9
    && S(0xec) == 0xce && S(0xed) == 0x55 && S(0xee) == 0x28 && S(0xef) == 0xdf
  }

  lemma SBoxRow14()
    ensures Figure7Row14()
  {
    hide S;
    RowIs14();
  }

  lemma RowIs14()
    ensures forall x: bv8 :: x >> 4 == 14 ==> S(x) == SRow14(x)
  {
    hide SRow0, SRow1, SRow2, SRow3, SRow4, SRow5, SRow6, SRow7, SRow8, SRow9, SRow10, SRow11, SRow12, SRow13,
      SRow14, SRow15;
  }

  predicate Figure7Row15() {
    && S(0xf0) == 0x8c && S(0xf1) == 0xa1 && S(0xf2) == 0x89 && S(0xf3) == 0x0d
    && S(0xf4) == 0xbf && S(0xf5) == 0xe6 && S(0xf6) == 0x42 && S(0xf7) == 0x68
    && S(0xf8) == 0x41 && S(0xf9) == 0x99 && S(0xfa) == 0x2d && S(0xfb) == 0x0f
    && S(0xfc) == 0xb0 && S(0xfd) == 0x54 && S(0xfe) == 0xbb && S(0xff) == 0x16
  }

  lemma SBoxRow15()
    ensures Figure7Row15()
  {
    hide S;
    RowIs15();
  }

  lemma RowIs15()
    ensures forall x: bv8 :: x >> 4 == 15 ==> S(x) == SRow15(x)
  {
    hide SRow0, SRow1, SRow2, SRow3, SRow4, SRow5, SRow6, SRow7, SRow8, SRow9, SRow10, SRow11, SRow12, SRow13,
      SRow14, SRow15;
  }

  lemma SBoxValues()
    ensures Figure7Row0() && Figure7Row1() && Figure7Row2() && Figure7Row3()
    ensures Figure7Row4() && Figure7Row5() && Figure7Row6() && Figure7Row7()
    ensures Figure7Row8() && Figure7Row9() && Figure7Row10() && Figure7Row11()
    ensures Figure7Row12() && Figure7Row13() && Figure7Row14() && Figure7Row15()
  {
    hide S;
    SBoxRow0();
    SBoxRow1();
    SBoxRow2();
    SBoxRow3();
    SBoxRow4();
    SBoxRow5();
    SBoxRow6();
    SBoxRow7();
    SBoxRow8();
    SBoxRow9();
    SBoxRow10();
    SBoxRow11();
    SBoxRow12();
    SBoxRow13();
    SBoxRow14();
    SBoxRow15();
  }

  // One word of an expanded key from the word Nk back and the one before.

  lemma NextWord(key: Key, i: nat, back: bv32, prev: bv32, w: bv32)
    requires i >= Nk(key) && i % Nk(key) != 0 && !(Nk(key) == 8 && i % 8 == 4)
    requires KeyWord(key, i - Nk(key)) == back && KeyWord(key, i - 1) == prev && Xor(back, prev) == w
    ensures KeyWord(key, i) == w
  {
    hide Xor;
  }

  lemma GivenWord(key: Key, i: nat)
    requires i < Nk(key)
    ensures KeyWord(key, i) == KeyColumn(key, i)
  {
    hide KeyColumn;
  }

  lemma MiddleWord(key: Key, i: nat, back: bv32, prev: bv32, sub: bv32, w: bv32)
    requires Nk(key) == 8 && i >= 8 && i % 8 == 4
    requires KeyWord(key, i - 8) == back && KeyWord(key, i - 1) == prev && SubWord(prev) == sub && Xor(back, sub) == w
    ensures KeyWord(key, i) == w
  {
    hide Xor, SubWord;
  }

  lemma FirstWord(key: Key, i: nat, back: bv32, prev: bv32, rot: bv32, sub: bv32, rcon: bv32, mixed: bv32, w: bv32)
    requires i >= Nk(key) && i % Nk(key) == 0 && KeyWord(key, i - Nk(key)) == back && KeyWord(key, i - 1) == prev
    requires RotWord(prev) == rot && SubWord(rot) == sub && Word(PowerOfX(i / Nk(key) - 1), 0, 0, 0) == rcon
    requires Xor(sub, rcon) == mixed && Xor(back, mixed) == w
    ensures KeyWord(key, i) == w
  {
    hide Xor, SubWord, RotWord, Word;
  }

  /** Rcon. */
  lemma Powers()
    ensures PowerOfX(0) == 0x01 && PowerOfX(1) == 0x02
    ensures PowerOfX(2) == 0x04 && PowerOfX(3) == 0x08
    ensures PowerOfX(4) == 0x10 && PowerOfX(5) == 0x20
    ensures PowerOfX(6) == 0x40 && PowerOfX(7) == 0x80
    ensures PowerOfX(8) == 0x1b && PowerOfX(9) == 0x36
  {
    assert XTime(0x01) == 0x02;
    assert XTime(0x02) == 0x04;
    assert XTime(0x04) == 0x08;
    assert XTime(0x08) == 0x10;
    assert XTime(0x10) == 0x20;
    assert XTime(0x20) == 0x40;
    assert XTime(0x40) == 0x80;
    assert XTime(0x80) == 0x1b;
    assert XTime(0x1b) == 0x36;
  }

  // The key of appendix A.1.

  function KeyA1(): Key {
    WordBytes(0x2b7e1516) + WordBytes(0x28aed2a6) + WordBytes(0xabf71588) + WordBytes(0x09cf4f3c)
  }

  lemma WordsA1Turn0(key: Key)
    requires key == KeyA1()
    ensures KeyWord(key, 0) == 0x2b7e1516 && KeyWord(key, 1) == 0x28aed2a6 && KeyWord(key, 2) == 0xabf71588
    ensures KeyWord(key, 3) == 0x09cf4f3c
  {
    hide KeyWord;
    ColumnsA1();
    hide KeyA1, KeyColumn;
    GivenWord(key, 0);
    GivenWord(key, 1);
    GivenWord(key, 2);
    GivenWord(key, 3);
  }

  lemma ColumnsA1()
    ensures |KeyA1()| == 16
    ensures KeyColumn(KeyA1(), 0) == 0x2b7e1516 && KeyColumn(KeyA1(), 1) == 0x28aed2a6
    ensures KeyColumn(KeyA1(), 2) == 0xabf71588 && KeyColumn(KeyA1(), 3) == 0x09cf4f3c
  {
  }

  lemma WordsA1Turn1(key: Key)
    requires key == KeyA1()
    ensures KeyWord(key, 4) == 0xa0fafe17 && KeyWord(key, 5) == 0x88542cb1 && KeyWord(key, 6) == 0x23a33939
    ensures KeyWord(key, 7) == 0x2a6c7605
  {
    hide S, KeyWord, PowerOfX;
    SBoxValues();
    Powers();
    WordsA1Turn0(key);
    hide KeyA1;
    FirstWord(key, 4, 0x2b7e1516, 0x09cf4f3c, 0xcf4f3c09, 0x8a84eb01, 0x01000000,
              0x8b84eb01, 0xa0fafe17);
    NextWord(key, 5, 0x28aed2a6, 0xa0fafe17, 0x88542cb1);
    NextWord(key, 6, 0xabf71588, 0x88542cb1, 0x23a33939);
    NextWord(key, 7, 0x09cf4f3c, 0x23a33939, 0x2a6c7605);
  }

  lemma WordsA1Turn2(key: Key)
    requires key == KeyA1()
    ensures KeyWord(key, 8) == 0xf2c295f2 && KeyWord(key, 9) == 0x7a96b943 && KeyWord(key, 10) == 0x5935807a
    ensures KeyWord(key, 11) == 0x7359f67f
  {
    hide S, KeyWord, PowerOfX;
    SBoxValues();
    Powers();
    WordsA1Turn1(key);
    hide KeyA1;
    FirstWord(key, 8, 0xa0fafe17, 0x2a6c7605, 0x6c76052a, 0x50386be5, 0x02000000,
              0x52386be5, 0xf2c295f2);
    NextWord(key, 9, 0x88542cb1, 0xf2c295f2, 0x7a96b943);
    NextWord(key, 10, 0x23a33939, 0x7a96b943, 0x5935807a);
    NextWord(key, 11, 0x2a6c7605, 0x5935807a, 0x7359f67f);
  }

  lemma WordsA1Turn3(key: Key)
    requires key == KeyA1()
    ensures KeyWord(key, 12) == 0x3d80477d && KeyWord(key, 13) == 0x4716fe3e && KeyWord(key, 14) == 0x1e237e44
    ensures KeyWord(key, 15) == 0x6d7a883b
  {
    hide S, KeyWord, PowerOfX;
    SBoxValues();
    Powers();
    WordsA1Turn2(key);
    hide KeyA1;
    FirstWord(key, 12, 0xf2c295f2, 0x7359f67f, 0x59f67f73, 0xcb42d28f, 0x04000000,
              0xcf42d28f, 0x3d80477d);
    NextWord(key, 13, 0x7a96b943, 0x3d80477d, 0x4716fe3e);
    NextWord(key, 14, 0x5935807a, 0x4716fe3e, 0x1e237e44);
    NextWord(key, 15, 0x7359f67f, 0x1e237e44, 0x6d7a883b);
  }

  lemma WordsA1Turn4(key: Key)
    requires key == KeyA1()
    ensures KeyWord(key, 16) == 0xef44a541 && KeyWord(key, 17) == 0xa8525b7f && KeyWord(key, 18) == 0xb671253b
    ensures KeyWord(key, 19) == 0xdb0bad00
  {
    hide S, KeyWord, PowerOfX;
    SBoxValues();
    Powers();
    WordsA1Turn3(key);
    hide KeyA1;
    FirstWord(key, 16, 0x3d80477d, 0x6d7a883b, 0x7a883b6d, 0xdac4e23c, 0x08000000,
              0xd2c4e23c, 0xef44a541);
    NextWord(key, 17, 0x4716fe3e, 0xef44a541, 0xa8525b7f);
    NextWord(key, 18, 0x1e237e44, 0xa8525b7f, 0xb671253b);
    NextWord(key, 19, 0x6d7a883b, 0xb671253b, 0xdb0bad00);
  }

  lemma WordsA1Turn5(key: Key)
    requires key == KeyA1()
    ensures KeyWord(key, 20) == 0xd4d1c6f8 && KeyWord(key, 21) == 0x7c839d87 && KeyWord(key, 22) == 0xcaf2b8bc
    ensures KeyWord(key, 23) == 0x11f915bc
  {
    hide S, KeyWord, PowerOfX;
    SBoxValues();
    Powers();
    WordsA1Turn4(key);
    hide KeyA1;
    FirstWord(key, 20, 0xef44a541, 0xdb0bad00, 0x0bad00db, 0x2b9563b9, 0x10000000,
              0x3b9563b9, 0xd4d1c6f8);
    NextWord(key, 21, 0xa8525b7f, 0xd4d1c6f8, 0x7c839d87);
    NextWord(key, 22, 0xb671253b, 0x7c839d87, 0xcaf2b8bc);
    NextWord(key, 23, 0xdb0bad00, 0xcaf2b8bc, 0x11f915bc);
  }

  lemma WordsA1Turn6(key: Key)
    requires key == KeyA1()
    ensures KeyWord(key, 24) == 0x6d88a37a && KeyWord(key, 25) == 0x110b3efd && KeyWord(key, 26) == 0xdbf98641
    ensures KeyWord(key, 27) == 0xca0093fd
  {
    hide S, KeyWord, PowerOfX;
    SBoxValues();
    Powers();
    WordsA1Turn5(key);
    hide KeyA1;
    FirstWord(key, 24, 0xd4d1c6f8, 0x11f915bc, 0xf915bc11, 0x99596582, 0x20000000,
              0xb9596582, 0x6d88a37a);
    NextWord(key, 25, 0x7c839d87, 0x6d88a37a, 0x110b3efd);
    NextWord(key, 26, 0xcaf2b8bc, 0x110b3efd, 0xdbf98641);
    NextWord(key, 27, 0x11f915bc, 0xdbf98641, 0xca0093fd);
  }

  lemma WordsA1Turn7(key: Key)
    requires key == KeyA1()
    ensures KeyWord(key, 28) == 0x4e54f70e && KeyWord(key, 29) == 0x5f5fc9f3 && KeyWord(key, 30) == 0x84a64fb2
    ensures KeyWord(key, 31) == 0x4ea6dc4f
  {
    hide S, KeyWord, PowerOfX;
    SBoxValues();
    Powers();
    WordsA1Turn6(key);
    hide KeyA1;
    FirstWord(key, 28, 0x6d88a37a, 0xca0093fd, 0x0093fdca, 0x63dc5474, 0x40000000,
              0x23dc5474, 0x4e54f70e);
    NextWord(key, 29, 0x110b3efd, 0x4e54f70e, 0x5f5fc9f3);
    NextWord(key, 30, 0xdbf98641, 0x5f5fc9f3, 0x84a64fb2);
    NextWord(key, 31, 0xca0093fd, 0x84a64fb2, 0x4ea6dc4f);
  }

  lemma WordsA1Turn8(key: Key)
    requires key == KeyA1()
    ensures KeyWord(key, 32) == 0xead27321 && KeyWord(key, 33) == 0xb58dbad2 && KeyWord(key, 34) == 0x312bf560
    ensures KeyWord(key, 35) == 0x7f8d292f
  {
    hide S, KeyWord, PowerOfX;
    SBoxValues();
    Powers();
    WordsA1Turn7(key);
    hide KeyA1;
    FirstWord(key, 32, 0x4e54f70e, 0x4ea6dc4f, 0xa6dc4f4e, 0x2486842f, 0x80000000,
              0xa486842f, 0xead27321);
    NextWord(key, 33, 0x5f5fc9f3, 0xead27321, 0xb58dbad2);
    NextWord(key, 34, 0x84a64fb2, 0xb58dbad2, 0x312bf560);
    NextWord(key, 35, 0x4ea6dc4f, 0x312bf560, 0x7f8d292f);
  }

  lemma WordsA1Turn9(key: Key)
    requires key == KeyA1()
    ensures KeyWord(key, 36) == 0xac7766f3 && KeyWord(key, 37) == 0x19fadc21 && KeyWord(key, 38) == 0x28d12941
    ensures KeyWord(key, 39) == 0x575c006e
  {
    hide S, KeyWord, PowerOfX;
    SBoxValues();
    Powers();
    WordsA1Turn8(key);
    hide KeyA1;
    FirstWord(key, 36, 0xead27321, 0x7f8d292f, 0x8d292f7f, 0x5da515d2, 0x1b000000,
              0x46a515d2, 0xac7766f3);
    NextWord(key, 37, 0xb58dbad2, 0xac7766f3, 0x19fadc21);
    NextWord(key, 38, 0x312bf560, 0x19fadc21, 0x28d12941);
    NextWord(key, 39, 0x7f8d292f, 0x28d12941, 0x575c006e);
  }

  lemma WordsA1Turn10(key: Key)
    requires key == KeyA1()
    ensures KeyWord(key, 40) == 0xd014f9a8 && KeyWord(key, 41) == 0xc9ee2589 && KeyWord(key, 42) == 0xe13f0cc8
    ensures KeyWord(key, 43) == 0xb6630ca6
  {
    hide S, KeyWord, PowerOfX;
    SBoxValues();
    Powers();
    WordsA1Turn9(key);
    hide KeyA1;
    FirstWord(key, 40, 0xac7766f3, 0x575c006e, 0x5c006e57, 0x4a639f5b, 0x36000000,
              0x7c639f5b, 0xd014f9a8);
    NextWord(key, 41, 0x19fadc21, 0xd014f9a8, 0xc9ee2589);
    NextWord(key, 42, 0x28d12941, 0xc9ee2589, 0xe13f0cc8);
    NextWord(key, 43, 0x575c006e, 0xe13f0cc8, 0xb6630ca6);
  }

  function ScheduleA1(r: nat): Quad {
    match r
    case 0 => [0x2b7e1516, 0x28aed2a6, 0xabf71588, 0x09cf4f3c]
    case 1 => [0xa0fafe17, 0x88542cb1, 0x23a33939, 0x2a6c7605]
    case 2 => [0xf2c295f2, 0x7a96b943, 0x5935807a, 0x7359f67f]
    case 3 => [0x3d80477d, 0x4716fe3e, 0x1e237e44, 0x6d7a883b]
    case 4 => [0xef44a541, 0xa8525b7f, 0xb671253b, 0xdb0bad00]
    case 5 => [0xd4d1c6f8, 0x7c839d87, 0xcaf2b8bc, 0x11f915bc]
    case 6 => [0x6d88a37a, 0x110b3efd, 0xdbf98641, 0xca0093fd]
    case 7 => [0x4e54f70e, 0x5f5fc9f3, 0x84a64fb2, 0x4ea6dc4f]
    case 8 => [0xead27321, 0xb58dbad2, 0x312bf560, 0x7f8d292f]
    case 9 => [0xac7766f3, 0x19fadc21, 0x28d12941, 0x575c006e]
    case _ => [0xd014f9a8, 0xc9ee2589, 0xe13f0cc8, 0xb6630ca6]
  }

  /** Every round key of appendix A.1. */
  lemma ExpansionA1(key: Key, r: nat)
    requires key == KeyA1() && r <= 10
    ensures RoundKey(key, r) == ScheduleA1(r)
  {
    hide KeyWord;
    WordsA1Turn0(key);
    WordsA1Turn1(key);
    WordsA1Turn2(key);
    WordsA1Turn3(key);
    WordsA1Turn4(key);
    WordsA1Turn5(key);
    WordsA1Turn6(key);
    WordsA1Turn7(key);
    WordsA1Turn8(key);
    WordsA1Turn9(key);
    WordsA1Turn10(key);
    hide KeyA1;
  }

  // The key of appendix A.2.

  function KeyA2(): Key {
    WordBytes(0x8e73b0f7) + WordBytes(0xda0e6452) + WordBytes(0xc810f32b) + WordBytes(0x809079e5) +
    WordBytes(0x62f8ead2) + WordBytes(0x522c6b7b)
  }

  lemma WordsA2Turn0(key: Key)
    requires key == KeyA2()
    ensures KeyWord(key, 0) == 0x8e73b0f7 && KeyWord(key, 1) == 0xda0e6452 && KeyWord(key, 2) == 0xc810f32b
    ensures KeyWord(key, 3) == 0x809079e5 && KeyWord(key, 4) == 0x62f8ead2 && KeyWord(key, 5) == 0x522c6b7b
  {
    hide KeyWord;
    ColumnsA2();
    hide KeyA2, KeyColumn;
    GivenWord(key, 0);
    GivenWord(key, 1);
    GivenWord(key, 2);
    GivenWord(key, 3);
    GivenWord(key, 4);
    GivenWord(key, 5);
  }

  lemma ColumnsA2()
    ensures |KeyA2()| == 24
    ensures KeyColumn(KeyA2(), 0) == 0x8e73b0f7 && KeyColumn(KeyA2(), 1) == 0xda0e6452
    ensures KeyColumn(KeyA2(), 2) == 0xc810f32b && KeyColumn(KeyA2(), 3) == 0x809079e5
    ensures KeyColumn(KeyA2(), 4) == 0x62f8ead2 && KeyColumn(KeyA2(), 5) == 0x522c6b7b
  {
  }

  lemma WordsA2Turn1(key: Key)
    requires key == KeyA2()
    ensures KeyWord(key, 6) == 0xfe0c91f7 && KeyWord(key, 7) == 0x2402f5a5 && KeyWord(key, 8) == 0xec12068e
    ensures KeyWord(key, 9) == 0x6c827f6b && KeyWord(key, 10) == 0x0e7a95b9 && KeyWord(key, 11) == 0x5c56fec2
  {
    hide S, KeyWord, PowerOfX;
    SBoxValues();
    Powers();
    WordsA2Turn0(key);
    hide KeyA2;
    FirstWord(key, 6, 0x8e73b0f7, 0x522c6b7b, 0x2c6b7b52, 0x717f2100, 0x01000000,
              0x707f2100, 0xfe0c91f7);
    NextWord(key, 7, 0xda0e6452, 0xfe0c91f7, 0x2402f5a5);
    NextWord(key, 8, 0xc810f32b, 0x2402f5a5, 0xec12068e);
    NextWord(key, 9, 0x809079e5, 0xec12068e, 0x6c827f6b);
    NextWord(key, 10, 0x62f8ead2, 0x6c827f6b, 0x0e7a95b9);
    NextWord(key, 11, 0x522c6b7b, 0x0e7a95b9, 0x5c56fec2);
  }

  lemma WordsA2Turn2(key: Key)
    requires key == KeyA2()
    ensures KeyWord(key, 12) == 0x4db7b4bd && KeyWord(key, 13) == 0x69b54118 && KeyWord(key, 14) == 0x85a74796
    ensures KeyWord(key, 15) == 0xe92538fd && KeyWord(key, 16) == 0xe75fad44 && KeyWord(key, 17) == 0xbb095386
  {
    hide S, KeyWord, PowerOfX;
    SBoxValues();
    Powers();
    WordsA2Turn1(key);
    hide KeyA2;
    FirstWord(key, 12, 0xfe0c91f7, 0x5c56fec2, 0x56fec25c, 0xb1bb254a, 0x02000000,
              0xb3bb254a, 0x4db7b4bd);
    NextWord(key, 13, 0x2402f5a5, 0x4db7b4bd, 0x69b54118);
    NextWord(key, 14, 0xec12068e, 0x69b54118, 0x85a74796);
    NextWord(key, 15, 0x6c827f6b, 0x85a74796, 0xe92538fd);
    NextWord(key, 16, 0x0e7a95b9, 0xe92538fd, 0xe75fad44);
    NextWord(key, 17, 0x5c56fec2, 0xe75fad44, 0xbb095386);
  }

  lemma WordsA2Turn3(key: Key)
    requires key == KeyA2()
    ensures KeyWord(key, 18) == 0x485af057 && KeyWord(key, 19) == 0x21efb14f && KeyWord(key, 20) == 0xa448f6d9
    ensures KeyWord(key, 21) == 0x4d6dce24 && KeyWord(key, 22) == 0xaa326360 && KeyWord(key, 23) == 0x113b30e6
  {
    hide S, KeyWord, PowerOfX;
    SBoxValues();
    Powers();
    WordsA2Turn2(key);
    hide KeyA2;
    FirstWord(key, 18, 0x4db7b4bd, 0xbb095386, 0x095386bb, 0x01ed44ea, 0x04000000,
              0x05ed44ea, 0x485af057);
    NextWord(key, 19, 0x69b54118, 0x485af057, 0x21efb14f);
    NextWord(key, 20, 0x85a74796, 0x21efb14f, 0xa448f6d9);
    NextWord(key, 21, 0xe92538fd, 0xa448f6d9, 0x4d6dce24);
    NextWord(key, 22, 0xe75fad44, 0x4d6dce24, 0xaa326360);
    NextWord(key, 23, 0xbb095386, 0xaa326360, 0x113b30e6);
  }

  lemma WordsA2Turn4(key: Key)
    requires key == KeyA2()
    ensures KeyWord(key, 24) == 0xa25e7ed5 && KeyWord(key, 25) == 0x83b1cf9a && KeyWord(key, 26) == 0x27f93943
    ensures KeyWord(key, 27) == 0x6a94f767 && KeyWord(key, 28) == 0xc0a69407 && KeyWord(key, 29) == 0xd19da4e1
  {
    hide S, KeyWord, PowerOfX;
    SBoxValues();
    Powers();
    WordsA2Turn3(key);
    hide KeyA2;
    FirstWord(key, 24, 0x485af057, 0x113b30e6, 0x3b30e611, 0xe2048e82, 0x08000000,
              0xea048e82, 0xa25e7ed5);
    NextWord(key, 25, 0x21efb14f, 0xa25e7ed5, 0x83b1cf9a);
    NextWord(key, 26, 0xa448f6d9, 0x83b1cf9a, 0x27f93943);
    NextWord(key, 27, 0x4d6dce24, 0x27f93943, 0x6a94f767);
    NextWord(key, 28, 0xaa326360, 0x6a94f767, 0xc0a69407);
    NextWord(key, 29, 0x113b30e6, 0xc0a69407, 0xd19da4e1);
  }

  lemma WordsA2Turn5(key: Key)
    requires key == KeyA2()
    ensures KeyWord(key, 30) == 0xec1786eb && KeyWord(key, 31) == 0x6fa64971 && KeyWord(key, 32) == 0x485f7032
    ensures KeyWord(key, 33) == 0x22cb8755 && KeyWord(key, 34) == 0xe26d1352 && KeyWord(key, 35) == 0x33f0b7b3
  {
    hide S, KeyWord, PowerOfX;
    SBoxValues();
    Powers();
    WordsA2Turn4(key);
    hide KeyA2;
    FirstWord(key, 30, 0xa25e7ed5, 0xd19da4e1, 0x9da4e1d1, 0x5e49f83e, 0x10000000,
              0x4e49f83e, 0xec1786eb);
    NextWord(key, 31, 0x83b1cf9a, 0xec1786eb, 0x6fa64971);
    NextWord(key, 32, 0x27f93943, 0x6fa64971, 0x485f7032);
    NextWord(key, 33, 0x6a94f767, 0x485f7032, 0x22cb8755);
    NextWord(key, 34, 0xc0a69407, 0x22cb8755, 0xe26d1352);
    NextWord(key, 35, 0xd19da4e1, 0xe26d1352, 0x33f0b7b3);
  }

  lemma WordsA2Turn6(key: Key)
    requires key == KeyA2()
    ensures KeyWord(key, 36) == 0x40beeb28 && KeyWord(key, 37) == 0x2f18a259 && KeyWord(key, 38) == 0x6747d26b
    ensures KeyWord(key, 39) == 0x458c553e && KeyWord(key, 40) == 0xa7e1466c && KeyWord(key, 41) == 0x9411f1df
  {
    hide S, KeyWord, PowerOfX;
    SBoxValues();
    Powers();
    WordsA2Turn5(key);
    hide KeyA2;
    FirstWord(key, 36, 0xec1786eb, 0x33f0b7b3, 0xf0b7b333, 0x8ca96dc3, 0x20000000,
              0xaca96dc3, 0x40beeb28);
    NextWord(key, 37, 0x6fa64971, 0x40beeb28, 0x2f18a259);
    NextWord(key, 38, 0x485f7032, 0x2f18a259, 0x6747d26b);
    NextWord(key, 39, 0x22cb8755, 0x6747d26b, 0x458c553e);
    NextWord(key, 40, 0xe26d1352, 0x458c553e, 0xa7e1466c);
    NextWord(key, 41, 0x33f0b7b3, 0xa7e1466c, 0x9411f1df);
  }

  lemma WordsA2Turn7(key: Key)
    requires key == KeyA2()
    ensures KeyWord(key, 42) == 0x821f750a && KeyWord(key, 43) == 0xad07d753 && KeyWord(key, 44) == 0xca400538
    ensures KeyWord(key, 45) == 0x8fcc5006 && KeyWord(key, 46) == 0x282d166a && KeyWord(key, 47) == 0xbc3ce7b5
  {
    hide S, KeyWord, PowerOfX;
    SBoxValues();
    Powers();
    WordsA2Turn6(key);
    hide KeyA2;
    FirstWord(key, 42, 0x40beeb28, 0x9411f1df, 0x11f1df94, 0x82a19e22, 0x40000000,
              0xc2a19e22, 0x821f750a);
    NextWord(key, 43, 0x2f18a259, 0x821f750a, 0xad07d753);
    NextWord(key, 44, 0x6747d26b, 0xad07d753, 0xca400538);
    NextWord(key, 45, 0x458c553e, 0xca400538, 0x8fcc5006);
    NextWord(key, 46, 0xa7e1466c, 0x8fcc5006, 0x282d166a);
    NextWord(key, 47, 0x9411f1df, 0x282d166a, 0xbc3ce7b5);
  }

  lemma WordsA2Turn8(key: Key)
    requires key == KeyA2()
    ensures KeyWord(key, 48) == 0xe98ba06f && KeyWord(key, 49) == 0x448c773c && KeyWord(key, 50) == 0x8ecc7204
    ensures KeyWord(key, 51) == 0x01002202
  {
    hide S, KeyWord, PowerOfX;
    SBoxValues();
    Powers();
    WordsA2Turn7(key);
    hide KeyA2;
    FirstWord(key, 48, 0x821f750a, 0xbc3ce7b5, 0x3ce7b5bc, 0xeb94d565, 0x80000000,
              0x6b94d565, 0xe98ba06f);
    NextWord(key, 49, 0xad07d753, 0xe98ba06f, 0x448c773c);
    NextWord(key, 50, 0xca400538, 0x448c773c, 0x8ecc7204);
    NextWord(key, 51, 0x8fcc5006, 0x8ecc7204, 0x01002202);
  }

  function ScheduleA2(r: nat): Quad {
    match r
    case 0 => [0x8e73b0f7, 0xda0e6452, 0xc810f32b, 0x809079e5]
    case 1 => [0x62f8ead2, 0x522c6b7b, 0xfe0c91f7, 0x2402f5a5]
    case 2 => [0xec12068e, 0x6c827f6b, 0x0e7a95b9, 0x5c56fec2]
    case 3 => [0x4db7b4bd, 0x69b54118, 0x85a74796, 0xe92538fd]
    case 4 => [0xe75fad44, 0xbb095386, 0x485af057, 0x21efb14f]
    case 5 => [0xa448f6d9, 0x4d6dce24, 0xaa326360, 0x113b30e6]
    case 6 => [0xa25e7ed5, 0x83b1cf9a, 0x27f93943, 0x6a94f767]
    case 7 => [0xc0a69407, 0xd19da4e1, 0xec1786eb, 0x6fa64971]
    case 8 => [0x485f7032, 0x22cb8755, 0xe26d1352, 0x33f0b7b3]
    case 9 => [0x40beeb28, 0x2f18a259, 0x6747d26b, 0x458c553e]
    case 10 => [0xa7e1466c, 0x9411f1df, 0x821f750a, 0xad07d753]
    case 11 => [0xca400538, 0x8fcc5006, 0x282d166a, 0xbc3ce7b5]
    case _ => [0xe98ba06f, 0x448c773c, 0x8ecc7204, 0x01002202]
  }

  /** Every round key of appendix A.2. */
  lemma ExpansionA2(key: Key, r: nat)
    requires key == KeyA2() && r <= 12
    ensures RoundKey(key, r) == ScheduleA2(r)
  {
    hide KeyWord;
    WordsA2Turn0(key);
    WordsA2Turn1(key);
    WordsA2Turn2(key);
    WordsA2Turn3(key);
    WordsA2Turn4(key);
    WordsA2Turn5(key);
    WordsA2Turn6(key);
    WordsA2Turn7(key);
    WordsA2Turn8(key);
    hide KeyA2;
  }

  // The key of appendix A.3.

  function KeyA3(): Key {
    WordBytes(0x603deb10) + WordBytes(0x15ca71be) + WordBytes(0x2b73aef0) + WordBytes(0x857d7781) +
    WordBytes(0x1f352c07) + WordBytes(0x3b6108d7) + WordBytes(0x2d9810a3) + WordBytes(0x0914dff4)
  }

  lemma WordsA3Turn0(key: Key)
    requires key == KeyA3()
    ensures KeyWord(key, 0) == 0x603deb10 && KeyWord(key, 1) == 0x15ca71be && KeyWord(key, 2) == 0x2b73aef0
    ensures KeyWord(key, 3) == 0x857d7781 && KeyWord(key, 4) == 0x1f352c07 && KeyWord(key, 5) == 0x3b6108d7
    ensures KeyWord(key, 6) == 0x2d9810a3 && KeyWord(key, 7) == 0x0914dff4
  {
    hide KeyWord;
    ColumnsA3();
    hide KeyA3, KeyColumn;
    GivenWord(key, 0);
    GivenWord(key, 1);
    GivenWord(key, 2);
    GivenWord(key, 3);
    GivenWord(key, 4);
    GivenWord(key, 5);
    GivenWord(key, 6);
    GivenWord(key, 7);
  }

  lemma ColumnsA3()
    ensures |KeyA3()| == 32
    ensures KeyColumn(KeyA3(), 0) == 0x603deb10 && KeyColumn(KeyA3(), 1) == 0x15ca71be
    ensures KeyColumn(KeyA3(), 2) == 0x2b73aef0 && KeyColumn(KeyA3(), 3) == 0x857d7781
    ensures KeyColumn(KeyA3(), 4) == 0x1f352c07 && KeyColumn(KeyA3(), 5) == 0x3b6108d7
    ensures KeyColumn(KeyA3(), 6) == 0x2d9810a3 && KeyColumn(KeyA3(), 7) == 0x0914dff4
  {
  }

  lemma WordsA3Turn1(key: Key)
    requires key == KeyA3()
    ensures KeyWord(key, 8) == 0x9ba35411 && KeyWord(key, 9) == 0x8e6925af && KeyWord(key, 10) == 0xa51a8b5f
    ensures KeyWord(key, 11) == 0x2067fcde && KeyWord(key, 12) == 0xa8b09c1a && KeyWord(key, 13) == 0x93d194cd
    ensures KeyWord(key, 14) == 0xbe49846e && KeyWord(key, 15) == 0xb75d5b9a
  {
    hide S, KeyWord, PowerOfX;
    SBoxValues();
    Powers();
    WordsA3Turn0(key);
    hide KeyA3;
    FirstWord(key, 8, 0x603deb10, 0x0914dff4, 0x14dff409, 0xfa9ebf01, 0x01000000,
              0xfb9ebf01, 0x9ba35411);
    NextWord(key, 9, 0x15ca71be, 0x9ba35411, 0x8e6925af);
    NextWord(key, 10, 0x2b73aef0, 0x8e6925af, 0xa51a8b5f);
    NextWord(key, 11, 0x857d7781, 0xa51a8b5f, 0x2067fcde);
    MiddleWord(key, 12, 0x1f352c07, 0x2067fcde, 0xb785b01d, 0xa8b09c1a);
    NextWord(key, 13, 0x3b6108d7, 0xa8b09c1a, 0x93d194cd);
    NextWord(key, 14, 0x2d9810a3, 0x93d194cd, 0xbe49846e);
    NextWord(key, 15, 0x0914dff4, 0xbe49846e, 0xb75d5b9a);
  }

  lemma WordsA3Turn2(key: Key)
    requires key == KeyA3()
    ensures KeyWord(key, 16) == 0xd59aecb8 && KeyWord(key, 17) == 0x5bf3c917 && KeyWord(key, 18) == 0xfee94248
    ensures KeyWord(key, 19) == 0xde8ebe96 && KeyWord(key, 20) == 0xb5a9328a && KeyWord(key, 21) == 0x2678a647
    ensures KeyWord(key, 22) == 0x98312229 && KeyWord(key, 23) == 0x2f6c79b3
  {
    hide S, KeyWord, PowerOfX;
    SBoxValues();
    Powers();
    WordsA3Turn1(key);
    hide KeyA3;
    FirstWord(key, 16, 0x9ba35411, 0xb75d5b9a, 0x5d5b9ab7, 0x4c39b8a9, 0x02000000,
              0x4e39b8a9, 0xd59aecb8);
    NextWord(key, 17, 0x8e6925af, 0xd59aecb8, 0x5bf3c917);
    NextWord(key, 18, 0xa51a8b5f, 0x5bf3c917, 0xfee94248);
    NextWord(key, 19, 0x2067fcde, 0xfee94248, 0xde8ebe96);
    MiddleWord(key, 20, 0xa8b09c1a, 0xde8ebe96, 0x1d19ae90, 0xb5a9328a);
    NextWord(key, 21, 0x93d194cd, 0xb5a9328a, 0x2678a647);
    NextWord(key, 22, 0xbe49846e, 0x2678a647, 0x98312229);
    NextWord(key, 23, 0xb75d5b9a, 0x98312229, 0x2f6c79b3);
  }

  lemma WordsA3Turn3(key: Key)
    requires key == KeyA3()
    ensures KeyWord(key, 24) == 0x812c81ad && KeyWord(key, 25) == 0xdadf48ba && KeyWord(key, 26) == 0x24360af2
    ensures KeyWord(key, 27) == 0xfab8b464 && KeyWord(key, 28) == 0x98c5bfc9 && KeyWord(key, 29) == 0xbebd198e
    ensures KeyWord(key, 30) == 0x268c3ba7 && KeyWord(key, 31) == 0x09e04214
  {
    hide S, KeyWord, PowerOfX;
    SBoxValues();
    Powers();
    WordsA3Turn2(key);
    hide KeyA3;
    FirstWord(key, 24, 0xd59aecb8, 0x2f6c79b3, 0x6c79b32f, 0x50b66d15, 0x04000000,
              0x54b66d15, 0x812c81ad);
    NextWord(key, 25, 0x5bf3c917, 0x812c81ad, 0xdadf48ba);
    NextWord(key, 26, 0xfee94248, 0xdadf48ba, 0x24360af2);
    NextWord(key, 27, 0xde8ebe96, 0x24360af2, 0xfab8b464);
    MiddleWord(key, 28, 0xb5a9328a, 0xfab8b464, 0x2d6c8d43, 0x98c5bfc9);
    NextWord(key, 29, 0x2678a647, 0x98c5bfc9, 0xbebd198e);
    NextWord(key, 30, 0x98312229, 0xbebd198e, 0x268c3ba7);
    NextWord(key, 31, 0x2f6c79b3, 0x268c3ba7, 0x09e04214);
  }

  lemma WordsA3Turn4(key: Key)
    requires key == KeyA3()
    ensures KeyWord(key, 32) == 0x68007bac && KeyWord(key, 33) == 0xb2df3316 && KeyWord(key, 34) == 0x96e939e4
    ensures KeyWord(key, 35) == 0x6c518d80 && KeyWord(key, 36) == 0xc814e204 && KeyWord(key, 37) == 0x76a9fb8a
    ensures KeyWord(key, 38) == 0x5025c02d && KeyWord(key, 39) == 0x59c58239
  {
    hide S, KeyWord, PowerOfX;
    SBoxValues();
    Powers();
    WordsA3Turn3(key);
    hide KeyA3;
    FirstWord(key, 32, 0x812c81ad, 0x09e04214, 0xe0421409, 0xe12cfa01, 0x08000000,
              0xe92cfa01, 0x68007bac);
    NextWord(key, 33, 0xdadf48ba, 0x68007bac, 0xb2df3316);
    NextWord(key, 34, 0x24360af2, 0xb2df3316, 0x96e939e4);
    NextWord(key, 35, 0xfab8b464, 0x96e939e4, 0x6c518d80);
    MiddleWord(key, 36, 0x98c5bfc9, 0x6c518d80, 0x50d15dcd, 0xc814e204);
    NextWord(key, 37, 0xbebd198e, 0xc814e204, 0x76a9fb8a);
    NextWord(key, 38, 0x268c3ba7, 0x76a9fb8a, 0x5025c02d);
    NextWord(key, 39, 0x09e04214, 0x5025c02d, 0x59c58239);
  }

  lemma WordsA3Turn5(key: Key)
    requires key == KeyA3()
    ensures KeyWord(key, 40) == 0xde136967 && KeyWord(key, 41) == 0x6ccc5a71 && KeyWord(key, 42) == 0xfa256395
    ensures KeyWord(key, 43) == 0x9674ee15 && KeyWord(key, 44) == 0x5886ca5d && KeyWord(key, 45) == 0x2e2f31d7
    ensures KeyWord(key, 46) == 0x7e0af1fa && KeyWord(key, 47) == 0x27cf73c3
  {
    hide S, KeyWord, PowerOfX;
    SBoxValues();
    Powers();
    WordsA3Turn4(key);
    hide KeyA3;
    FirstWord(key, 40, 0x68007bac, 0x59c58239, 0xc5823959, 0xa61312cb, 0x10000000,
              0xb61312cb, 0xde136967);
    NextWord(key, 41, 0xb2df3316, 0xde136967, 0x6ccc5a71);
    NextWord(key, 42, 0x96e939e4, 0x6ccc5a71, 0xfa256395);
    NextWord(key, 43, 0x6c518d80, 0xfa256395, 0x9674ee15);
    MiddleWord(key, 44, 0xc814e204, 0x9674ee15, 0x90922859, 0x5886ca5d);
    NextWord(key, 45, 0x76a9fb8a, 0x5886ca5d, 0x2e2f31d7);
    NextWord(key, 46, 0x5025c02d, 0x2e2f31d7, 0x7e0af1fa);
    NextWord(key, 47, 0x59c58239, 0x7e0af1fa, 0x27cf73c3);
  }

  lemma WordsA3Turn6(key: Key)
    requires key == KeyA3()
    ensures KeyWord(key, 48) == 0x749c47ab && KeyWord(key, 49) == 0x18501dda && KeyWord(key, 50) == 0xe2757e4f
    ensures KeyWord(key, 51) == 0x7401905a && KeyWord(key, 52) == 0xcafaaae3 && KeyWord(key, 53) == 0xe4d59b34
    ensures KeyWord(key, 54) == 0x9adf6ace && KeyWord(key, 55) == 0xbd10190d
  {
    hide S, KeyWord, PowerOfX;
    SBoxValues();
    Powers();
    WordsA3Turn5(key);
    hide KeyA3;
    FirstWord(key, 48, 0xde136967, 0x27cf73c3, 0xcf73c327, 0x8a8f2ecc, 0x20000000,
              0xaa8f2ecc, 0x749c47ab);
    NextWord(key, 49, 0x6ccc5a71, 0x749c47ab, 0x18501dda);
    NextWord(key, 50, 0xfa256395, 0x18501dda, 0xe2757e4f);
    NextWord(key, 51, 0x9674ee15, 0xe2757e4f, 0x7401905a);
    MiddleWord(key, 52, 0x5886ca5d, 0x7401905a, 0x927c60be, 0xcafaaae3);
    NextWord(key, 53, 0x2e2f31d7, 0xcafaaae3, 0xe4d59b34);
    NextWord(key, 54, 0x7e0af1fa, 0xe4d59b34, 0x9adf6ace);
    NextWord(key, 55, 0x27cf73c3, 0x9adf6ace, 0xbd10190d);
  }

  lemma WordsA3Turn7(key: Key)
    requires key == KeyA3()
    ensures KeyWord(key, 56) == 0xfe4890d1 && KeyWord(key, 57) == 0xe6188d0b && KeyWord(key, 58) == 0x046df344
    ensures KeyWord(key, 59) == 0x706c631e
  {
    hide S, KeyWord, PowerOfX;
    SBoxValues();
    Powers();
    WordsA3Turn6(key);
    hide KeyA3;
    FirstWord(key, 56, 0x749c47ab, 0xbd10190d, 0x10190dbd, 0xcad4d77a, 0x40000000,
              0x8ad4d77a, 0xfe4890d1);
    NextWord(key, 57, 0x18501dda, 0xfe4890d1, 0xe6188d0b);
    NextWord(key, 58, 0xe2757e4f, 0xe6188d0b, 0x046df344);
    NextWord(key, 59, 0x7401905a, 0x046df344, 0x706c631e);
  }

  function ScheduleA3(r: nat): Quad {
    match r
    case 0 => [0x603deb10, 0x15ca71be, 0x2b73aef0, 0x857d7781]
    case 1 => [0x1f352c07, 0x3b6108d7, 0x2d9810a3, 0x0914dff4]
    case 2 => [0x9ba35411, 0x8e6925af, 0xa51a8b5f, 0x2067fcde]
    case 3 => [0xa8b09c1a, 0x93d194cd, 0xbe49846e, 0xb75d5b9a]
    case 4 => [0xd59aecb8, 0x5bf3c917, 0xfee94248, 0xde8ebe96]
    case 5 => [0xb5a9328a, 0x2678a647, 0x98312229, 0x2f6c79b3]
    case 6 => [0x812c81ad, 0xdadf48ba, 0x24360af2, 0xfab8b464]
    case 7 => [0x98c5bfc9, 0xbebd198e, 0x268c3ba7, 0x09e04214]
    case 8 => [0x68007bac, 0xb2df3316, 0x96e939e4, 0x6c518d80]
    case 9 => [0xc814e204, 0x76a9fb8a, 0x5025c02d, 0x59c58239]
    case 10 => [0xde136967, 0x6ccc5a71, 0xfa256395, 0x9674ee15]
    case 11 => [0x5886ca5d, 0x2e2f31d7, 0x7e0af1fa, 0x27cf73c3]
    case 12 => [0x749c47ab, 0x18501dda, 0xe2757e4f, 0x7401905a]
    case 13 => [0xcafaaae3, 0xe4d59b34, 0x9adf6ace, 0xbd10190d]
    case _ => [0xfe4890d1, 0xe6188d0b, 0x046df344, 0x706c631e]
  }

  /** Every round key of appendix A.3. */
  lemma ExpansionA3(key: Key, r: nat)
    requires key == KeyA3() && r <= 14
    ensures RoundKey(key, r) == ScheduleA3(r)
  {
    hide KeyWord;
    WordsA3Turn0(key);
    WordsA3Turn1(key);
    WordsA3Turn2(key);
    WordsA3Turn3(key);
    WordsA3Turn4(key);
    WordsA3Turn5(key);
    WordsA3Turn6(key);
    WordsA3Turn7(key);
    hide KeyA3;
  }

  // Encryption, one round at a time.

  lemma NextState(key: Key, p: Quad, r: nat, start: Quad, box: Quad, row: Quad, col: Quad, k: Quad, end: Quad)
    requires r >= 1 && EncState(key, p, r - 1) == start && RoundKey(key, r) == k
    requires SubBytes(start) == box && ShiftRows(box) == row && MixColumns(row) == col && AddRoundKey(col, k) == end
    ensures EncState(key, p, r) == end
  {
    hide SubBytes, ShiftRows, MixColumns, AddRoundKey, RoundKey;
  }

  lemma LastState(key: Key, p: Bytes16, start: Quad, box: Quad, row: Quad, k: Quad, end: Quad)
    requires EncState(key, Columns(p), Rounds(key) - 1) == start && RoundKey(key, Rounds(key)) == k
    requires SubBytes(start) == box && ShiftRows(box) == row && AddRoundKey(row, k) == end
    ensures Cipher(key, p) == ToBytes(end)
  {
    hide SubBytes, ShiftRows, AddRoundKey, RoundKey, EncState, Columns, ToBytes;
  }

  /** The plaintext of all three examples. */
  function Input(): Bytes16 {
    [0x00, 0x11, 0x22, 0x33, 0x44, 0x55, 0x66, 0x77,
     0x88, 0x99, 0xaa, 0xbb, 0xcc, 0xdd, 0xee, 0xff]
  }

  function InputColumns(): Quad {
    [0x00112233, 0x44556677, 0x8899aabb, 0xccddeeff]
  }

  lemma InputIs()
    ensures Columns(Input()) == InputColumns()
  {
  }

  // The key of appendix C.1.

  function KeyC1(): Key {
    WordBytes(0x00010203) + WordBytes(0x04050607) + WordBytes(0x08090a0b) + WordBytes(0x0c0d0e0f)
  }

  lemma WordsC1Turn0(key: Key)
    requires key == KeyC1()
    ensures KeyWord(key, 0) == 0x00010203 && KeyWord(key, 1) == 0x04050607 && KeyWord(key, 2) == 0x08090a0b
    ensures KeyWord(key, 3) == 0x0c0d0e0f
  {
    hide KeyWord;
    ColumnsC1();
    hide KeyC1, KeyColumn;
    GivenWord(key, 0);
    GivenWord(key, 1);
    GivenWord(key, 2);
    GivenWord(key, 3);
  }

  lemma ColumnsC1()
    ensures |KeyC1()| == 16
    ensures KeyColumn(KeyC1(), 0) == 0x00010203 && KeyColumn(KeyC1(), 1) == 0x04050607
    ensures KeyColumn(KeyC1(), 2) == 0x08090a0b && KeyColumn(KeyC1(), 3) == 0x0c0d0e0f
  {
  }

  lemma WordsC1Turn1(key: Key)
    requires key == KeyC1()
    ensures KeyWord(key, 4) == 0xd6aa74fd && KeyWord(key, 5) == 0xd2af72fa && KeyWord(key, 6) == 0xdaa678f1
    ensures KeyWord(key, 7) == 0xd6ab76fe
  {
    hide S, KeyWord, PowerOfX;
    SBoxValues();
    Powers();
    WordsC1Turn0(key);
    hide KeyC1;
    FirstWord(key, 4, 0x00010203, 0x0c0d0e0f, 0x0d0e0f0c, 0xd7ab76fe, 0x01000000,
              0xd6ab76fe, 0xd6aa74fd);
    NextWord(key, 5, 0x04050607, 0xd6aa74fd, 0xd2af72fa);
    NextWord(key, 6, 0x08090a0b, 0xd2af72fa, 0xdaa678f1);
    NextWord(key, 7, 0x0c0d0e0f, 0xdaa678f1, 0xd6ab76fe);
  }

  lemma WordsC1Turn2(key: Key)
    requires key == KeyC1()
    ensures KeyWord(key, 8) == 0xb692cf0b && KeyWord(key, 9) == 0x643dbdf1 && KeyWord(key, 10) == 0xbe9bc500
    ensures KeyWord(key, 11) == 0x6830b3fe
  {
    hide S, KeyWord, PowerOfX;
    SBoxValues();
    Powers();
    WordsC1Turn1(key);
    hide KeyC1;
    FirstWord(key, 8, 0xd6aa74fd, 0xd6ab76fe, 0xab76fed6, 0x6238bbf6, 0x02000000,
              0x6038bbf6, 0xb692cf0b);
    NextWord(key, 9, 0xd2af72fa, 0xb692cf0b, 0x643dbdf1);
    NextWord(key, 10, 0xdaa678f1, 0x643dbdf1, 0xbe9bc500);
    NextWord(key, 11, 0xd6ab76fe, 0xbe9bc500, 0x6830b3fe);
  }

  lemma WordsC1Turn3(key: Key)
    requires key == KeyC1()
    ensures KeyWord(key, 12) == 0xb6ff744e && KeyWord(key, 13) == 0xd2c2c9bf && KeyWord(key, 14) == 0x6c590cbf
    ensures KeyWord(key, 15) == 0x0469bf41
  {
    hide S, KeyWord, PowerOfX;
    SBoxValues();
    Powers();
    WordsC1Turn2(key);
    hide KeyC1;
    FirstWord(key, 12, 0xb692cf0b, 0x6830b3fe, 0x30b3fe68, 0x046dbb45, 0x04000000,
              0x006dbb45, 0xb6ff744e);
    NextWord(key, 13, 0x643dbdf1, 0xb6ff744e, 0xd2c2c9bf);
    NextWord(key, 14, 0xbe9bc500, 0xd2c2c9bf, 0x6c590cbf);
    NextWord(key, 15, 0x6830b3fe, 0x6c590cbf, 0x0469bf41);
  }

  lemma WordsC1Turn4(key: Key)
    requires key == KeyC1()
    ensures KeyWord(key, 16) == 0x47f7f7bc && KeyWord(key, 17) == 0x95353e03 && KeyWord(key, 18) == 0xf96c32bc
    ensures KeyWord(key, 19) == 0xfd058dfd
  {
    hide S, KeyWord, PowerOfX;
    SBoxValues();
    Powers();
    WordsC1Turn3(key);
    hide KeyC1;
    FirstWord(key, 16, 0xb6ff744e, 0x0469bf41, 0x69bf4104, 0xf90883f2, 0x08000000,
              0xf10883f2, 0x47f7f7bc);
    NextWord(key, 17, 0xd2c2c9bf, 0x47f7f7bc, 0x95353e03);
    NextWord(key, 18, 0x6c590cbf, 0x95353e03, 0xf96c32bc);
    NextWord(key, 19, 0x0469bf41, 0xf96c32bc, 0xfd058dfd);
  }

  lemma WordsC1Turn5(key: Key)
    requires key == KeyC1()
    ensures KeyWord(key, 20) == 0x3caaa3e8 && KeyWord(key, 21) == 0xa99f9deb && KeyWord(key, 22) == 0x50f3af57
    ensures KeyWord(key, 23) == 0xadf622aa
  {
    hide S, KeyWord, PowerOfX;
    SBoxValues();
    Powers();
    WordsC1Turn4(key);
    hide KeyC1;
    FirstWord(key, 20, 0x47f7f7bc, 0xfd058dfd, 0x058dfdfd, 0x6b5d5454, 0x10000000,
              0x7b5d5454, 0x3caaa3e8);
    NextWord(key, 21, 0x95353e03, 0x3caaa3e8, 0xa99f9deb);
    NextWord(key, 22, 0xf96c32bc, 0xa99f9deb, 0x50f3af57);
    NextWord(key, 23, 0xfd058dfd, 0x50f3af57, 0xadf622aa);
  }

  lemma WordsC1Turn6(key: Key)
    requires key == KeyC1()
    ensures KeyWord(key, 24) == 0x5e390f7d && KeyWord(key, 25) == 0xf7a69296 && KeyWord(key, 26) == 0xa7553dc1
    ensures KeyWord(key, 27) == 0x0aa31f6b
  {
    hide S, KeyWord, PowerOfX;
    SBoxValues();
    Powers();
    WordsC1Turn5(key);
    hide KeyC1;
    FirstWord(key, 24, 0x3caaa3e8, 0xadf622aa, 0xf622aaad, 0x4293ac95, 0x20000000,
              0x6293ac95, 0x5e390f7d);
    NextWord(key, 25, 0xa99f9deb, 0x5e390f7d, 0xf7a69296);
    NextWord(key, 26, 0x50f3af57, 0xf7a69296, 0xa7553dc1);
    NextWord(key, 27, 0xadf622aa, 0xa7553dc1, 0x0aa31f6b);
  }

  lemma WordsC1Turn7(key: Key)
    requires key == KeyC1()
    ensures KeyWord(key, 28) == 0x14f9701a && KeyWord(key, 29) == 0xe35fe28c && KeyWord(key, 30) == 0x440adf4d
    ensures KeyWord(key, 31) == 0x4ea9c026
  {
    hide S, KeyWord, PowerOfX;
    SBoxValues();
    Powers();
    WordsC1Turn6(key);
    hide KeyC1;
    FirstWord(key, 28, 0x5e390f7d, 0x0aa31f6b, 0xa31f6b0a, 0x0ac07f67, 0x40000000,
              0x4ac07f67, 0x14f9701a);
    NextWord(key, 29, 0xf7a69296, 0x14f9701a, 0xe35fe28c);
    NextWord(key, 30, 0xa7553dc1, 0xe35fe28c, 0x440adf4d);
    NextWord(key, 31, 0x0aa31f6b, 0x440adf4d, 0x4ea9c026);
  }

  lemma WordsC1Turn8(key: Key)
    requires key == KeyC1()
    ensures KeyWord(key, 32) == 0x47438735 && KeyWord(key, 33) == 0xa41c65b9 && KeyWord(key, 34) == 0xe016baf4
    ensures KeyWord(key, 35) == 0xaebf7ad2
  {
    hide S, KeyWord, PowerOfX;
    SBoxValues();
    Powers();
    WordsC1Turn7(key);
    hide KeyC1;
    FirstWord(key, 32, 0x14f9701a, 0x4ea9c026, 0xa9c0264e, 0xd3baf72f, 0x80000000,
              0x53baf72f, 0x47438735);
    NextWord(key, 33, 0xe35fe28c, 0x47438735, 0xa41c65b9);
    NextWord(key, 34, 0x440adf4d, 0xa41c65b9, 0xe016baf4);
    NextWord(key, 35, 0x4ea9c026, 0xe016baf4, 0xaebf7ad2);
  }

  lemma WordsC1Turn9(key: Key)
    requires key == KeyC1()
    ensures KeyWord(key, 36) == 0x549932d1 && KeyWord(key, 37) == 0xf0855768 && KeyWord(key, 38) == 0x1093ed9c
    ensures KeyWord(key, 39) == 0xbe2c974e
  {
    hide S, KeyWord, PowerOfX;
    SBoxValues();
    Powers();
    WordsC1Turn8(key);
    hide KeyC1;
    FirstWord(key, 36, 0x47438735, 0xaebf7ad2, 0xbf7ad2ae, 0x08dab5e4, 0x1b000000,
              0x13dab5e4, 0x549932d1);
    NextWord(key, 37, 0xa41c65b9, 0x549932d1, 0xf0855768);
    NextWord(key, 38, 0xe016baf4, 0xf0855768, 0x1093ed9c);
    NextWord(key, 39, 0xaebf7ad2, 0x1093ed9c, 0xbe2c974e);
  }

  lemma WordsC1Turn10(key: Key)
    requires key == KeyC1()
    ensures KeyWord(key, 40) == 0x13111d7f && KeyWord(key, 41) == 0xe3944a17 && KeyWord(key, 42) == 0xf307a78b
    ensures KeyWord(key, 43) == 0x4d2b30c5
  {
    hide S, KeyWord, PowerOfX;
    SBoxValues();
    Powers();
    WordsC1Turn9(key);
    hide KeyC1;
    FirstWord(key, 40, 0x549932d1, 0xbe2c974e, 0x2c974ebe, 0x71882fae, 0x36000000,
              0x47882fae, 0x13111d7f);
    NextWord(key, 41, 0xf0855768, 0x13111d7f, 0xe3944a17);
    NextWord(key, 42, 0x1093ed9c, 0xe3944a17, 0xf307a78b);
    NextWord(key, 43, 0xbe2c974e, 0xf307a78b, 0x4d2b30c5);
  }

  function ScheduleC1(r: nat): Quad {
    match r
    case 0 => [0x00010203, 0x04050607, 0x08090a0b, 0x0c0d0e0f]
    case 1 => [0xd6aa74fd, 0xd2af72fa, 0xdaa678f1, 0xd6ab76fe]
    case 2 => [0xb692cf0b, 0x643dbdf1, 0xbe9bc500, 0x6830b3fe]
    case 3 => [0xb6ff744e, 0xd2c2c9bf, 0x6c590cbf, 0x0469bf41]
    case 4 => [0x47f7f7bc, 0x95353e03, 0xf96c32bc, 0xfd058dfd]
    case 5 => [0x3caaa3e8, 0xa99f9deb, 0x50f3af57, 0xadf622aa]
    case 6 => [0x5e390f7d, 0xf7a69296, 0xa7553dc1, 0x0aa31f6b]
    case 7 => [0x14f9701a, 0xe35fe28c, 0x440adf4d, 0x4ea9c026]
    case 8 => [0x47438735, 0xa41c65b9, 0xe016baf4, 0xaebf7ad2]
    case 9 => [0x549932d1, 0xf0855768, 0x1093ed9c, 0xbe2c974e]
    case _ => [0x13111d7f, 0xe3944a17, 0xf307a78b, 0x4d2b30c5]
  }

  /** Every round key of appendix C.1. */
  lemma ExpansionC1(key: Key, r: nat)
    requires key == KeyC1() && r <= 10
    ensures RoundKey(key, r) == ScheduleC1(r)
  {
    hide KeyWord;
    WordsC1Turn0(key);
    WordsC1Turn1(key);
    WordsC1Turn2(key);
    WordsC1Turn3(key);
    WordsC1Turn4(key);
    WordsC1Turn5(key);
    WordsC1Turn6(key);
    WordsC1Turn7(key);
    WordsC1Turn8(key);
    WordsC1Turn9(key);
    WordsC1Turn10(key);
    hide KeyC1;
  }

  lemma StateC1Round0(key: Key)
    requires key == KeyC1()
    ensures EncState(key, InputColumns(), 0) == [0x00102030, 0x40506070, 0x8090a0b0, 0xc0d0e0f0]
  {
    hide RoundKey;
    ExpansionC1(key, 0);
  }

  lemma StateC1Round1(key: Key)
    requires key == KeyC1()
    ensures EncState(key, InputColumns(), 1) == [0x89d810e8, 0x855ace68, 0x2d1843d8, 0xcb128fe4]
  {
    hide S, EncState, RoundKey, InputColumns;
    SBoxValues();
    ExpansionC1(key, 1);
    StateC1Round0(key);
    hide KeyC1;
    NextState(key, InputColumns(), 1,
              [0x00102030, 0x40506070, 0x8090a0b0, 0xc0d0e0f0],
              [0x63cab704, 0x0953d051, 0xcd60e0e7, 0xba70e18c],
              [0x6353e08c, 0x0960e104, 0xcd70b751, 0xbacad0e7],
              [0x5f726415, 0x57f5bc92, 0xf7be3b29, 0x1db9f91a],
              [0xd6aa74fd, 0xd2af72fa, 0xdaa678f1, 0xd6ab76fe],
              [0x89d810e8, 0x855ace68, 0x2d1843d8, 0xcb128fe4]);
  }

  lemma StateC1Round2(key: Key)
    requires key == KeyC1()
    ensures EncState(key, InputColumns(), 2) == [0x4915598f, 0x55e5d7a0, 0xdaca94fa, 0x1f0a63f7]
  {
    hide S, EncState, RoundKey, InputColumns;
    SBoxValues();
    ExpansionC1(key, 2);
    StateC1Round1(key);
    hide KeyC1;
    NextState(key, InputColumns(), 2,
              [0x89d810e8, 0x855ace68, 0x2d1843d8, 0xcb128fe4],
              [0xa761ca9b, 0x97be8b45, 0xd8ad1a61, 0x1fc97369],
              [0xa7be1a69, 0x97ad739b, 0xd8c9ca45, 0x1f618b61],
              [0xff879684, 0x31d86a51, 0x645151fa, 0x773ad009],
              [0xb692cf0b, 0x643dbdf1, 0xbe9bc500, 0x6830b3fe],
              [0x4915598f, 0x55e5d7a0, 0xdaca94fa, 0x1f0a63f7]);
  }

  lemma StateC1Round3(key: Key)
    requires key == KeyC1()
    ensures EncState(key, InputColumns(), 3) == [0xfa636a28, 0x25b339c9, 0x40668a31, 0x57244d17]
  {
    hide S, EncState, RoundKey, InputColumns;
    SBoxValues();
    ExpansionC1(key, 3);
    StateC1Round2(key);
    hide KeyC1;
    NextState(key, InputColumns(), 3,
              [0x4915598f, 0x55e5d7a0, 0xdaca94fa, 0x1f0a63f7],
              [0x3b59cb73, 0xfcd90ee0, 0x5774222d, 0xc067fb68],
              [0x3bd92268, 0xfc74fb73, 0x5767cbe0, 0xc0590e2d],
              [0x4c9c1e66, 0xf771f076, 0x2c3f868e, 0x534df256],
              [0xb6ff744e, 0xd2c2c9bf, 0x6c590cbf, 0x0469bf41],
              [0xfa636a28, 0x25b339c9, 0x40668a31, 0x57244d17]);
  }

  lemma StateC1Round4(key: Key)
    requires key == KeyC1()
    ensures EncState(key, InputColumns(), 4) == [0x24724023, 0x6966b3fa, 0x6ed27532, 0x88425b6c]
  {
    hide S, EncState, RoundKey, InputColumns;
    SBoxValues();
    ExpansionC1(key, 4);
    StateC1Round3(key);
    hide KeyC1;
    NextState(key, InputColumns(), 4,
              [0xfa636a28, 0x25b339c9, 0x40668a31, 0x57244d17],
              [0x2dfb0234, 0x3f6d12dd, 0x09337ec7, 0x5b36e3f0],
              [0x2d6d7ef0, 0x3f33e334, 0x093602dd, 0x5bfb12c7],
              [0x6385b79f, 0xfc538df9, 0x97be478e, 0x7547d691],
              [0x47f7f7bc, 0x95353e03, 0xf96c32bc, 0xfd058dfd],
              [0x24724023, 0x6966b3fa, 0x6ed27532, 0x88425b6c]);
  }

  lemma StateC1Round5(key: Key)
    requires key == KeyC1()
    ensures EncState(key, InputColumns(), 5) == [0xc81677bc, 0x9b7ac93b, 0x25027992, 0xb0261996]
  {
    hide S, EncState, RoundKey, InputColumns;
    SBoxValues();
    ExpansionC1(key, 5);
    StateC1Round4(key);
    hide KeyC1;
    NextState(key, InputColumns(), 5,
              [0x24724023, 0x6966b3fa, 0x6ed27532, 0x88425b6c],
              [0x36400926, 0xf9336d2d, 0x9fb59d23, 0xc42c3950],
              [0x36339d50, 0xf9b53926, 0x9f2c092d, 0xc4406d23],
              [0xf4bcd454, 0x32e554d0, 0x75f1d6c5, 0x1dd03b3c],
              [0x3caaa3e8, 0xa99f9deb, 0x50f3af57, 0xadf622aa],
              [0xc81677bc, 0x9b7ac93b, 0x25027992, 0xb0261996]);
  }

  lemma StateC1Round6(key: Key)
    requires key == KeyC1()
    ensures EncState(key, InputColumns(), 6) == [0xc62fe109, 0xf75eedc3, 0xcc79395d, 0x84f9cf5d]
  {
    hide S, EncState, RoundKey, InputColumns;
    SBoxValues();
    ExpansionC1(key, 6);
    StateC1Round5(key);
    hide KeyC1;
    NextState(key, InputColumns(), 6,
              [0xc81677bc, 0x9b7ac93b, 0x25027992, 0xb0261996],
              [0xe847f565, 0x14dadde2, 0x3f77b64f, 0xe7f7d490],
              [0xe8dab690, 0x1477d465, 0x3ff7f5e2, 0xe747dd4f],
              [0x9816ee74, 0x00f87f55, 0x6b2c049c, 0x8e5ad036],
              [0x5e390f7d, 0xf7a69296, 0xa7553dc1, 0x0aa31f6b],
              [0xc62fe109, 0xf75eedc3, 0xcc79395d, 0x84f9cf5d]);
  }

  lemma StateC1Round7(key: Key)
    requires key == KeyC1()
    ensures EncState(key, InputColumns(), 7) == [0xd1876c0f, 0x79c4300a, 0xb45594ad, 0xd66ff41f]
  {
    hide S, EncState, RoundKey, InputColumns;
    SBoxValues();
    ExpansionC1(key, 7);
    StateC1Round6(key);
    hide KeyC1;
    NextState(key, InputColumns(), 7,
              [0xc62fe109, 0xf75eedc3, 0xcc79395d, 0x84f9cf5d],
              [0xb415f801, 0x6858552e, 0x4bb6124c, 0x5f998a4c],
              [0xb458124c, 0x68b68a01, 0x4b99f82e, 0x5f15554c],
              [0xc57e1c15, 0x9a9bd286, 0xf05f4be0, 0x98c63439],
              [0x14f9701a, 0xe35fe28c, 0x440adf4d, 0x4ea9c026],
              [0xd1876c0f, 0x79c4300a, 0xb45594ad, 0xd66ff41f]);
  }

  lemma StateC1Round8(key: Key)
    requires key == KeyC1()
    ensures EncState(key, InputColumns(), 8) == [0xfde3bad2, 0x05e5d0d7, 0x3547964e, 0xf1fe37f1]
  {
    hide S, EncState, RoundKey, InputColumns;
    SBoxValues();
    ExpansionC1(key, 8);
    StateC1Round7(key);
    hide KeyC1;
    NextState(key, InputColumns(), 8,
              [0xd1876c0f, 0x79c4300a, 0xb45594ad, 0xd66ff41f],
              [0x3e175076, 0xb61c0467, 0x8dfc2295, 0xf6a8bfc0],
              [0x3e1c22c0, 0xb6fcbf76, 0x8da85067, 0xf6170495],
              [0xbaa03de7, 0xa1f9b56e, 0xd5512cba, 0x5f414d23],
              [0x47438735, 0xa41c65b9, 0xe016baf4, 0xaebf7ad2],
              [0xfde3bad2, 0x05e5d0d7, 0x3547964e, 0xf1fe37f1]);
  }

  lemma StateC1Round9(key: Key)
    requires key == KeyC1()
    ensures EncState(key, InputColumns(), 9) == [0xbd6e7c3d, 0xf2b5779e, 0x0b61216e, 0x8b10b689]
  {
    hide S, EncState, RoundKey, InputColumns;
    SBoxValues();
    ExpansionC1(key, 9);
    StateC1Round8(key);
    hide KeyC1;
    NextState(key, InputColumns(), 9,
              [0xfde3bad2, 0x05e5d0d7, 0x3547964e, 0xf1fe37f1],
              [0x5411f4b5, 0x6bd9700e, 0x96a0902f, 0xa1bb9aa1],
              [0x54d990a1, 0x6ba09ab5, 0x96bbf40e, 0xa111702f],
              [0xe9f74eec, 0x023020f6, 0x1bf2ccf2, 0x353c21c7],
              [0x549932d1, 0xf0855768, 0x1093ed9c, 0xbe2c974e],
              [0xbd6e7c3d, 0xf2b5779e, 0x0b61216e, 0x8b10b689]);
  }

  /** Appendix C.1. */
  lemma CipherC1()
    ensures Cipher(KeyC1(), Input()) ==
            [0x69, 0xc4, 0xe0, 0xd8, 0x6a, 0x7b, 0x04, 0x30,
             0xd8, 0xcd, 0xb7, 0x80, 0x70, 0xb4, 0xc5, 0x5a]
  {
    hide S, EncState, RoundKey, Columns, Cipher;
    SBoxValues();
    InputIs();
    ExpansionC1(KeyC1(), 10);
    StateC1Round9(KeyC1());
    LastState(KeyC1(), Input(),
              [0xbd6e7c3d, 0xf2b5779e, 0x0b61216e, 0x8b10b689],
              [0x7a9f1027, 0x89d5f50b, 0x2beffd9f, 0x3dca4ea7],
              [0x7ad5fda7, 0x89ef4e27, 0x2bca100b, 0x3d9ff59f],
              [0x13111d7f, 0xe3944a17, 0xf307a78b, 0x4d2b30c5],
              [0x69c4e0d8, 0x6a7b0430, 0xd8cdb780, 0x70b4c55a]);
  }

  // The key of appendix C.2.

  function KeyC2(): Key {
    WordBytes(0x00010203) + WordBytes(0x04050607) + WordBytes(0x08090a0b) + WordBytes(0x0c0d0e0f) +
    WordBytes(0x10111213) + WordBytes(0x14151617)
  }

  lemma WordsC2Turn0(key: Key)
    requires key == KeyC2()
    ensures KeyWord(key, 0) == 0x00010203 && KeyWord(key, 1) == 0x04050607 && KeyWord(key, 2) == 0x08090a0b
    ensures KeyWord(key, 3) == 0x0c0d0e0f && KeyWord(key, 4) == 0x10111213 && KeyWord(key, 5) == 0x14151617
  {
    hide KeyWord;
    ColumnsC2();
    hide KeyC2, KeyColumn;
    GivenWord(key, 0);
    GivenWord(key, 1);
    GivenWord(key, 2);
    GivenWord(key, 3);
    GivenWord(key, 4);
    GivenWord(key, 5);
  }

  lemma ColumnsC2()
    ensures |KeyC2()| == 24
    ensures KeyColumn(KeyC2(), 0) == 0x00010203 && KeyColumn(KeyC2(), 1) == 0x04050607
    ensures KeyColumn(KeyC2(), 2) == 0x08090a0b && KeyColumn(KeyC2(), 3) == 0x0c0d0e0f
    ensures KeyColumn(KeyC2(), 4) == 0x10111213 && KeyColumn(KeyC2(), 5) == 0x14151617
  {
  }

  lemma WordsC2Turn1(key: Key)
    requires key == KeyC2()
    ensures KeyWord(key, 6) == 0x5846f2f9 && KeyWord(key, 7) == 0x5c43f4fe && KeyWord(key, 8) == 0x544afef5
    ensures KeyWord(key, 9) == 0x5847f0fa && KeyWord(key, 10) == 0x4856e2e9 && KeyWord(key, 11) == 0x5c43f4fe
  {
    hide S, KeyWord, PowerOfX;
    SBoxValues();
    Powers();
    WordsC2Turn0(key);
    hide KeyC2;
    FirstWord(key, 6, 0x00010203, 0x14151617, 0x15161714, 0x5947f0fa, 0x01000000,
              0x5847f0fa, 0x5846f2f9);
    NextWord(key, 7, 0x04050607, 0x5846f2f9, 0x5c43f4fe);
    NextWord(key, 8, 0x08090a0b, 0x5c43f4fe, 0x544afef5);
    NextWord(key, 9, 0x0c0d0e0f, 0x544afef5, 0x5847f0fa);
    NextWord(key, 10, 0x10111213, 0x5847f0fa, 0x4856e2e9);
    NextWord(key, 11, 0x14151617, 0x4856e2e9, 0x5c43f4fe);
  }

  lemma WordsC2Turn2(key: Key)
    requires key == KeyC2()
    ensures KeyWord(key, 12) == 0x40f949b3 && KeyWord(key, 13) == 0x1cbabd4d && KeyWord(key, 14) == 0x48f043b8
    ensures KeyWord(key, 15) == 0x10b7b342 && KeyWord(key, 16) == 0x58e151ab && KeyWord(key, 17) == 0x04a2a555
  {
    hide S, KeyWord, PowerOfX;
    SBoxValues();
    Powers();
    WordsC2Turn1(key);
    hide KeyC2;
    FirstWord(key, 12, 0x5846f2f9, 0x5c43f4fe, 0x43f4fe5c, 0x1abfbb4a, 0x02000000,
              0x18bfbb4a, 0x40f949b3);
    NextWord(key, 13, 0x5c43f4fe, 0x40f949b3, 0x1cbabd4d);
    NextWord(key, 14, 0x544afef5, 0x1cbabd4d, 0x48f043b8);
    NextWord(key, 15, 0x5847f0fa, 0x48f043b8, 0x10b7b342);
    NextWord(key, 16, 0x4856e2e9, 0x10b7b342, 0x58e151ab);
    NextWord(key, 17, 0x5c43f4fe, 0x58e151ab, 0x04a2a555);
  }

  lemma WordsC2Turn3(key: Key)
    requires key == KeyC2()
    ensures KeyWord(key, 18) == 0x7effb541 && KeyWord(key, 19) == 0x6245080c && KeyWord(key, 20) == 0x2ab54bb4
    ensures KeyWord(key, 21) == 0x3a02f8f6 && KeyWord(key, 22) == 0x62e3a95d && KeyWord(key, 23) == 0x66410c08
  {
    hide S, KeyWord, PowerOfX;
    SBoxValues();
    Powers();
    WordsC2Turn2(key);
    hide KeyC2;
    FirstWord(key, 18, 0x40f949b3, 0x04a2a555, 0xa2a55504, 0x3a06fcf2, 0x04000000,
              0x3e06fcf2, 0x7effb541);
    NextWord(key, 19, 0x1cbabd4d, 0x7effb541, 0x6245080c);
    NextWord(key, 20, 0x48f043b8, 0x6245080c, 0x2ab54bb4);
    NextWord(key, 21, 0x10b7b342, 0x2ab54bb4, 0x3a02f8f6);
    NextWord(key, 22, 0x58e151ab, 0x3a02f8f6, 0x62e3a95d);
    NextWord(key, 23, 0x04a2a555, 0x62e3a95d, 0x66410c08);
  }

  lemma WordsC2Turn4(key: Key)
    requires key == KeyC2()
    ensures KeyWord(key, 24) == 0xf5018572 && KeyWord(key, 25) == 0x97448d7e && KeyWord(key, 26) == 0xbdf1c6ca
    ensures KeyWord(key, 27) == 0x87f33e3c && KeyWord(key, 28) == 0xe5109761 && KeyWord(key, 29) == 0x83519b69
  {
    hide S, KeyWord, PowerOfX;
    SBoxValues();
    Powers();
    WordsC2Turn3(key);
    hide KeyC2;
    FirstWord(key, 24, 0x7effb541, 0x66410c08, 0x410c0866, 0x83fe3033, 0x08000000,
              0x8bfe3033, 0xf5018572);
    NextWord(key, 25, 0x6245080c, 0xf5018572, 0x97448d7e);
    NextWord(key, 26, 0x2ab54bb4, 0x97448d7e, 0xbdf1c6ca);
    NextWord(key, 27, 0x3a02f8f6, 0xbdf1c6ca, 0x87f33e3c);
    NextWord(key, 28, 0x62e3a95d, 0x87f33e3c, 0xe5109761);
    NextWord(key, 29, 0x66410c08, 0xe5109761, 0x83519b69);
  }

  lemma WordsC2Turn5(key: Key)
    requires key == KeyC2()
    ensures KeyWord(key, 30) == 0x34157c9e && KeyWord(key, 31) == 0xa351f1e0 && KeyWord(key, 32) == 0x1ea0372a
    ensures KeyWord(key, 33) == 0x99530916 && KeyWord(key, 34) == 0x7c439e77 && KeyWord(key, 35) == 0xff12051e
  {
    hide S, KeyWord, PowerOfX;
    SBoxValues();
    Powers();
    WordsC2Turn4(key);
    hide KeyC2;
    FirstWord(key, 30, 0xf5018572, 0x83519b69, 0x519b6983, 0xd114f9ec, 0x10000000,
              0xc114f9ec, 0x34157c9e);
    NextWord(key, 31, 0x97448d7e, 0x34157c9e, 0xa351f1e0);
    NextWord(key, 32, 0xbdf1c6ca, 0xa351f1e0, 0x1ea0372a);
    NextWord(key, 33, 0x87f33e3c, 0x1ea0372a, 0x99530916);
    NextWord(key, 34, 0xe5109761, 0x99530916, 0x7c439e77);
    NextWord(key, 35, 0x83519b69, 0x7c439e77, 0xff12051e);
  }

  lemma WordsC2Turn6(key: Key)
    requires key == KeyC2()
    ensures KeyWord(key, 36) == 0xdd7e0e88 && KeyWord(key, 37) == 0x7e2fff68 && KeyWord(key, 38) == 0x608fc842
    ensures KeyWord(key, 39) == 0xf9dcc154 && KeyWord(key, 40) == 0x859f5f23 && KeyWord(key, 41) == 0x7a8d5a3d
  {
    hide S, KeyWord, PowerOfX;
    SBoxValues();
    Powers();
    WordsC2Turn5(key);
    hide KeyC2;
    FirstWord(key, 36, 0x34157c9e, 0xff12051e, 0x12051eff, 0xc96b7216, 0x20000000,
              0xe96b7216, 0xdd7e0e88);
    NextWord(key, 37, 0xa351f1e0, 0xdd7e0e88, 0x7e2fff68);
    NextWord(key, 38, 0x1ea0372a, 0x7e2fff68, 0x608fc842);
    NextWord(key, 39, 0x99530916, 0x608fc842, 0xf9dcc154);
    NextWord(key, 40, 0x7c439e77, 0xf9dcc154, 0x859f5f23);
    NextWord(key, 41, 0xff12051e, 0x859f5f23, 0x7a8d5a3d);
  }

  lemma WordsC2Turn7(key: Key)
    requires key == KeyC2()
    ensures KeyWord(key, 42) == 0xc0c02952 && KeyWord(key, 43) == 0xbeefd63a && KeyWord(key, 44) == 0xde601e78
    ensures KeyWord(key, 45) == 0x27bcdf2c && KeyWord(key, 46) == 0xa223800f && KeyWord(key, 47) == 0xd8aeda32
  {
    hide S, KeyWord, PowerOfX;
    SBoxValues();
    Powers();
    WordsC2Turn6(key);
    hide KeyC2;
    FirstWord(key, 42, 0xdd7e0e88, 0x7a8d5a3d, 0x8d5a3d7a, 0x5dbe27da, 0x40000000,
              0x1dbe27da, 0xc0c02952);
    NextWord(key, 43, 0x7e2fff68, 0xc0c02952, 0xbeefd63a);
    NextWord(key, 44, 0x608fc842, 0xbeefd63a, 0xde601e78);
    NextWord(key, 45, 0xf9dcc154, 0xde601e78, 0x27bcdf2c);
    NextWord(key, 46, 0x859f5f23, 0x27bcdf2c, 0xa223800f);
    NextWord(key, 47, 0x7a8d5a3d, 0xa223800f, 0xd8aeda32);
  }

  lemma WordsC2Turn8(key: Key)
    requires key == KeyC2()
    ensures KeyWord(key, 48) == 0xa4970a33 && KeyWord(key, 49) == 0x1a78dc09 && KeyWord(key, 50) == 0xc418c271
    ensures KeyWord(key, 51) == 0xe3a41d5d
  {
    hide S, KeyWord, PowerOfX;
    SBoxValues();
    Powers();
    WordsC2Turn7(key);
    hide KeyC2;
    FirstWord(key, 48, 0xc0c02952, 0xd8aeda32, 0xaeda32d8, 0xe4572361, 0x80000000,
              0x64572361, 0xa4970a33);
    NextWord(key, 49, 0xbeefd63a, 0xa4970a33, 0x1a78dc09);
    NextWord(key, 50, 0xde601e78, 0x1a78dc09, 0xc418c271);
    NextWord(key, 51, 0x27bcdf2c, 0xc418c271, 0xe3a41d5d);
  }

  function ScheduleC2(r: nat): Quad {
    match r
    case 0 => [0x00010203, 0x04050607, 0x08090a0b, 0x0c0d0e0f]
    case 1 => [0x10111213, 0x14151617, 0x5846f2f9, 0x5c43f4fe]
    case 2 => [0x544afef5, 0x5847f0fa, 0x4856e2e9, 0x5c43f4fe]
    case 3 => [0x40f949b3, 0x1cbabd4d, 0x48f043b8, 0x10b7b342]
    case 4 => [0x58e151ab, 0x04a2a555, 0x7effb541, 0x6245080c]
    case 5 => [0x2ab54bb4, 0x3a02f8f6, 0x62e3a95d, 0x66410c08]
    case 6 => [0xf5018572, 0x97448d7e, 0xbdf1c6ca, 0x87f33e3c]
    case 7 => [0xe5109761, 0x83519b69, 0x34157c9e, 0xa351f1e0]
    case 8 => [0x1ea0372a, 0x99530916, 0x7c439e77, 0xff12051e]
    case 9 => [0xdd7e0e88, 0x7e2fff68, 0x608fc842, 0xf9dcc154]
    case 10 => [0x859f5f23, 0x7a8d5a3d, 0xc0c02952, 0xbeefd63a]
    case 11 => [0xde601e78, 0x27bcdf2c, 0xa223800f, 0xd8aeda32]
    case _ => [0xa4970a33, 0x1a78dc09, 0xc418c271, 0xe3a41d5d]
  }

  /** Every round key of appendix C.2. */
  lemma ExpansionC2(key: Key, r: nat)
    requires key == KeyC2() && r <= 12
    ensures RoundKey(key, r) == ScheduleC2(r)
  {
    hide KeyWord;
    WordsC2Turn0(key);
    WordsC2Turn1(key);
    WordsC2Turn2(key);
    WordsC2Turn3(key);
    WordsC2Turn4(key);
    WordsC2Turn5(key);
    WordsC2Turn6(key);
    WordsC2Turn7(key);
    WordsC2Turn8(key);
    hide KeyC2;
  }

  lemma StateC2Round0(key: Key)
    requires key == KeyC2()
    ensures EncState(key, InputColumns(), 0) == [0x00102030, 0x40506070, 0x8090a0b0, 0xc0d0e0f0]
  {
    hide RoundKey;
    ExpansionC2(key, 0);
  }

  lemma StateC2Round1(key: Key)
    requires key == KeyC2()
    ensures EncState(key, InputColumns(), 1) == [0x4f637606, 0x43e0aa85, 0xaff8c9d0, 0x41fa0de4]
  {
    hide S, EncState, RoundKey, InputColumns;
    SBoxValues();
    ExpansionC2(key, 1);
    StateC2Round0(key);
    hide KeyC2;
    NextState(key, InputColumns(), 1,
              [0x00102030, 0x40506070, 0x8090a0b0, 0xc0d0e0f0],
              [0x63cab704, 0x0953d051, 0xcd60e0e7, 0xba70e18c],
              [0x6353e08c, 0x0960e104, 0xcd70b751, 0xbacad0e7],
              [0x5f726415, 0x57f5bc92, 0xf7be3b29, 0x1db9f91a],
              [0x10111213, 0x14151617, 0x5846f2f9, 0x5c43f4fe],
              [0x4f637606, 0x43e0aa85, 0xaff8c9d0, 0x41fa0de4]);
  }

  lemma StateC2Round2(key: Key)
    requires key == KeyC2()
    ensures EncState(key, InputColumns(), 2) == [0xcb02818c, 0x17d2af9c, 0x62aa6442, 0x8bb25fd7]
  {
    hide S, EncState, RoundKey, InputColumns;
    SBoxValues();
    ExpansionC2(key, 2);
    StateC2Round1(key);
    hide KeyC2;
    NextState(key, InputColumns(), 2,
              [0x4f637606, 0x43e0aa85, 0xaff8c9d0, 0x41fa0de4],
              [0x84fb386f, 0x1ae1ac97, 0x7941dd70, 0x832dd769],
              [0x84e1dd69, 0x1a41d76f, 0x792d3897, 0x83fbac70],
              [0x9f487f79, 0x4f955f66, 0x2afc86ab, 0xd7f1ab29],
              [0x544afef5, 0x5847f0fa, 0x4856e2e9, 0x5c43f4fe],
              [0xcb02818c, 0x17d2af9c, 0x62aa6442, 0x8bb25fd7]);
  }

  lemma StateC2Round3(key: Key)
    requires key == KeyC2()
    ensures EncState(key, InputColumns(), 3) == [0xf75c7778, 0xa327c8ed, 0x8cfebfc1, 0xa6c37f53]
  {
    hide S, EncState, RoundKey, InputColumns;
    SBoxValues();
    ExpansionC2(key, 3);
    StateC2Round2(key);
    hide KeyC2;
    NextState(key, InputColumns(), 3,
              [0xcb02818c, 0x17d2af9c, 0x62aa6442, 0x8bb25fd7],
              [0x1f770c64, 0xf0b579de, 0xaaac432c, 0x3d37cf0e],
              [0x1fb5430e, 0xf0accf64, 0xaa370cde, 0x3d77792c],
              [0xb7a53ecb, 0xbf9d75a0, 0xc40efc79, 0xb674cc11],
              [0x40f949b3, 0x1cbabd4d, 0x48f043b8, 0x10b7b342],
              [0xf75c7778, 0xa327c8ed, 0x8cfebfc1, 0xa6c37f53]);
  }

  lemma StateC2Round4(key: Key)
    requires key == KeyC2()
    ensures EncState(key, InputColumns(), 4) == [0x22ffc916, 0xa8147441, 0x6496f19c, 0x64ae2532]
  {
    hide S, EncState, RoundKey, InputColumns;
    SBoxValues();
    ExpansionC2(key, 4);
    StateC2Round3(key);
    hide KeyC2;
    NextState(key, InputColumns(), 4,
              [0xf75c7778, 0xa327c8ed, 0x8cfebfc1, 0xa6c37f53],
              [0x684af5bc, 0x0acce855, 0x64bb0878, 0x242ed2ed],
              [0x68cc08ed, 0x0abbd2bc, 0x642ef555, 0x244ae878],
              [0x7a1e98bd, 0xacb6d114, 0x1a6944dd, 0x06eb2d3e],
              [0x58e151ab, 0x04a2a555, 0x7effb541, 0x6245080c],
              [0x22ffc916, 0xa8147441, 0x6496f19c, 0x64ae2532]);
  }

  lemma StateC2Round5(key: Key)
    requires key == KeyC2()
    ensures EncState(key, InputColumns(), 5) == [0x80121e07, 0x76fd1d8a, 0x8d8c31bc, 0x965d1fee]
  {
    hide S, EncState, RoundKey, InputColumns;
    SBoxValues();
    ExpansionC2(key, 5);
    StateC2Round4(key);
    hide KeyC2;
    NextState(key, InputColumns(), 5,
              [0x22ffc916, 0xa8147441, 0x6496f19c, 0x64ae2532],
              [0x9316dd47, 0xc2fa9283, 0x4390a1de, 0x43e43f23],
              [0x93faa123, 0xc2903f47, 0x43e4dd83, 0x431692de],
              [0xaaa755b3, 0x4cffe57c, 0xef6f98e1, 0xf01c13e6],
              [0x2ab54bb4, 0x3a02f8f6, 0x62e3a95d, 0x66410c08],
              [0x80121e07, 0x76fd1d8a, 0x8d8c31bc, 0x965d1fee]);
  }

  lemma StateC2Round6(key: Key)
    requires key == KeyC2()
    ensures EncState(key, InputColumns(), 6) == [0x671ef1fd, 0x4e2a1e03, 0xdfdcb1ef, 0x3d789b30]
  {
    hide S, EncState, RoundKey, InputColumns;
    SBoxValues();
    ExpansionC2(key, 6);
    StateC2Round5(key);
    hide KeyC2;
    NextState(key, InputColumns(), 6,
              [0x80121e07, 0x76fd1d8a, 0x8d8c31bc, 0x965d1fee],
              [0xcdc972c5, 0x3854a47e, 0x5d64c765, 0x904cc028],
              [0xcd54c728, 0x3864c0c5, 0x5d4c727e, 0x90c9a465],
              [0x921f748f, 0xd96e937d, 0x622d7725, 0xba8ba50c],
              [0xf5018572, 0x97448d7e, 0xbdf1c6ca, 0x87f33e3c],
              [0x671ef1fd, 0x4e2a1e03, 0xdfdcb1ef, 0x3d789b30]);
  }

  lemma StateC2Round7(key: Key)
    requires key == KeyC2()
    ensures EncState(key, InputColumns(), 7) == [0x0c0370d0, 0x0c01e622, 0x166b8acc, 0xd6db3a2c]
  {
    hide S, EncState, RoundKey, InputColumns;
    SBoxValues();
    ExpansionC2(key, 7);
    StateC2Round6(key);
    hide KeyC2;
    NextState(key, InputColumns(), 7,
              [0x671ef1fd, 0x4e2a1e03, 0xdfdcb1ef, 0x3d789b30],
              [0x8572a154, 0x2fe5727b, 0x9e86c8df, 0x27bc1404],
              [0x85e5c804, 0x2f861454, 0x9ebca17b, 0x277272df],
              [0xe913e7b1, 0x8f507d4b, 0x227ef652, 0x758acbcc],
              [0xe5109761, 0x83519b69, 0x34157c9e, 0xa351f1e0],
              [0x0c0370d0, 0x0c01e622, 0x166b8acc, 0xd6db3a2c]);
  }

  lemma StateC2Round8(key: Key)
    requires key == KeyC2()
    ensures EncState(key, InputColumns(), 8) == [0x7255dad3, 0x0fb80310, 0xe00d6c6b, 0x40d0527c]
  {
    hide S, EncState, RoundKey, InputColumns;
    SBoxValues();
    ExpansionC2(key, 8);
    StateC2Round7(key);
    hide KeyC2;
    NextState(key, InputColumns(), 8,
              [0x0c0370d0, 0x0c01e622, 0x166b8acc, 0xd6db3a2c],
              [0xfe7b5170, 0xfe7c8e93, 0x477f7e4b, 0xf6b98071],
              [0xfe7c7e71, 0xfe7f8070, 0x47b95193, 0xf67b8e4b],
              [0x6cf5edf9, 0x96eb0a06, 0x9c4ef21c, 0xbfc25762],
              [0x1ea0372a, 0x99530916, 0x7c439e77, 0xff12051e],
              [0x7255dad3, 0x0fb80310, 0xe00d6c6b, 0x40d0527c]);
  }

  lemma StateC2Round9(key: Key)
    requires key == KeyC2()
    ensures EncState(key, InputColumns(), 9) == [0xa906b254, 0x968af4e9, 0xb4bdb2d2, 0xf0c44336]
  {
    hide S, EncState, RoundKey, InputColumns;
    SBoxValues();
    ExpansionC2(key, 9);
    StateC2Round8(key);
    hide KeyC2;
    NextState(key, InputColumns(), 9,
              [0x7255dad3, 0x0fb80310, 0xe00d6c6b, 0x40d0527c],
              [0x40fc5766, 0x766c7bca, 0xe1d7507f, 0x09700010],
              [0x406c5010, 0x76d70066, 0xe17057ca, 0x09fc7b7f],
              [0x7478bcdc, 0xe8a50b81, 0xd4327a90, 0x09188262],
              [0xdd7e0e88, 0x7e2fff68, 0x608fc842, 0xf9dcc154],
              [0xa906b254, 0x968af4e9, 0xb4bdb2d2, 0xf0c44336]);
  }

  lemma StateC2Round10(key: Key)
    requires key == KeyC2()
    ensures EncState(key, InputColumns(), 10) == [0x88ec930e, 0xf5e7e4b6, 0xcc32f4c9, 0x06d29414]
  {
    hide S, EncState, RoundKey, InputColumns;
    SBoxValues();
    ExpansionC2(key, 10);
    StateC2Round9(key);
    hide KeyC2;
    NextState(key, InputColumns(), 10,
              [0xa906b254, 0x968af4e9, 0xb4bdb2d2, 0xf0c44336],
              [0xd36f3720, 0x907ebf1e, 0x8d7a37b5, 0x8c1c1a05],
              [0xd37e3705, 0x907a1a20, 0x8d1c371e, 0x8c6fbfb5],
              [0x0d73cc2d, 0x8f6abe8b, 0x0cf2dd9b, 0xb83d422e],
              [0x859f5f23, 0x7a8d5a3d, 0xc0c02952, 0xbeefd63a],
              [0x88ec930e, 0xf5e7e4b6, 0xcc32f4c9, 0x06d29414]);
  }

  lemma StateC2Round11(key: Key)
    requires key == KeyC2()
    ensures EncState(key, InputColumns(), 11) == [0xafb73eeb, 0x1cd1b851, 0x62280f27, 0xfb20d585]
  {
    hide S, EncState, RoundKey, InputColumns;
    SBoxValues();
    ExpansionC2(key, 11);
    StateC2Round10(key);
    hide KeyC2;
    NextState(key, InputColumns(), 11,
              [0x88ec930e, 0xf5e7e4b6, 0xcc32f4c9, 0x06d29414],
              [0xc4cedcab, 0xe694694e, 0x4b23bfdd, 0x6fb522fa],
              [0xc494bffa, 0xe62322ab, 0x4bb5dc4e, 0x6fce69dd],
              [0x71d72093, 0x3b6d677d, 0xc00b8f28, 0x238e0fb7],
              [0xde601e78, 0x27bcdf2c, 0xa223800f, 0xd8aeda32],
              [0xafb73eeb, 0x1cd1b851, 0x62280f27, 0xfb20d585]);
  }

  /** Appendix C.2. */
  lemma CipherC2()
    ensures Cipher(KeyC2(), Input()) ==
            [0xdd, 0xa9, 0x7c, 0xa4, 0x86, 0x4c, 0xdf, 0xe0,
             0x6e, 0xaf, 0x70, 0xa0, 0xec, 0x0d, 0x71, 0x91]
  {
    hide S, EncState, RoundKey, Columns, Cipher;
    SBoxValues();
    InputIs();
    ExpansionC2(KeyC2(), 12);
    StateC2Round11(KeyC2());
    LastState(KeyC2(), Input(),
              [0xafb73eeb, 0x1cd1b851, 0x62280f27, 0xfb20d585],
              [0x79a9b2e9, 0x9c3e6cd1, 0xaa3476cc, 0x0fb70397],
              [0x793e7697, 0x9c3403e9, 0xaab7b2d1, 0x0fa96ccc],
              [0xa4970a33, 0x1a78dc09, 0xc418c271, 0xe3a41d5d],
              [0xdda97ca4, 0x864cdfe0, 0x6eaf70a0, 0xec0d7191]);
  }

  // The key of appendix C.3.

  function KeyC3(): Key {
    WordBytes(0x00010203) + WordBytes(0x04050607) + WordBytes(0x08090a0b) + WordBytes(0x0c0d0e0f) +
    WordBytes(0x10111213) + WordBytes(0x14151617) + WordBytes(0x18191a1b) + WordBytes(0x1c1d1e1f)
  }

  lemma WordsC3Turn0(key: Key)
    requires key == KeyC3()
    ensures KeyWord(key, 0) == 0x00010203 && KeyWord(key, 1) == 0x04050607 && KeyWord(key, 2) == 0x08090a0b
    ensures KeyWord(key, 3) == 0x0c0d0e0f && KeyWord(key, 4) == 0x10111213 && KeyWord(key, 5) == 0x14151617
    ensures KeyWord(key, 6) == 0x18191a1b && KeyWord(key, 7) == 0x1c1d1e1f
  {
    hide KeyWord;
    ColumnsC3();
    hide KeyC3, KeyColumn;
    GivenWord(key, 0);
    GivenWord(key, 1);
    GivenWord(key, 2);
    GivenWord(key, 3);
    GivenWord(key, 4);
    GivenWord(key, 5);
    GivenWord(key, 6);
    GivenWord(key, 7);
  }

  lemma ColumnsC3()
    ensures |KeyC3()| == 32
    ensures KeyColumn(KeyC3(), 0) == 0x00010203 && KeyColumn(KeyC3(), 1) == 0x04050607
    ensures KeyColumn(KeyC3(), 2) == 0x08090a0b && KeyColumn(KeyC3(), 3) == 0x0c0d0e0f
    ensures KeyColumn(KeyC3(), 4) == 0x10111213 && KeyColumn(KeyC3(), 5) == 0x14151617
    ensures KeyColumn(KeyC3(), 6) == 0x18191a1b && KeyColumn(KeyC3(), 7) == 0x1c1d1e1f
  {
  }

  lemma WordsC3Turn1(key: Key)
    requires key == KeyC3()
    ensures KeyWord(key, 8) == 0xa573c29f && KeyWord(key, 9) == 0xa176c498 && KeyWord(key, 10) == 0xa97fce93
    ensures KeyWord(key, 11) == 0xa572c09c && KeyWord(key, 12) == 0x1651a8cd && KeyWord(key, 13) == 0x0244beda
    ensures KeyWord(key, 14) == 0x1a5da4c1 && KeyWord(key, 15) == 0x0640bade
  {
    hide S, KeyWord, PowerOfX;
    SBoxValues();
    Powers();
    WordsC3Turn0(key);
    hide KeyC3;
    FirstWord(key, 8, 0x00010203, 0x1c1d1e1f, 0x1d1e1f1c, 0xa472c09c, 0x01000000,
              0xa572c09c, 0xa573c29f);
    NextWord(key, 9, 0x04050607, 0xa573c29f, 0xa176c498);
    NextWord(key, 10, 0x08090a0b, 0xa176c498, 0xa97fce93);
    NextWord(key, 11, 0x0c0d0e0f, 0xa97fce93, 0xa572c09c);
    MiddleWord(key, 12, 0x10111213, 0xa572c09c, 0x0640bade, 0x1651a8cd);
    NextWord(key, 13, 0x14151617, 0x1651a8cd, 0x0244beda);
    NextWord(key, 14, 0x18191a1b, 0x0244beda, 0x1a5da4c1);
    NextWord(key, 15, 0x1c1d1e1f, 0x1a5da4c1, 0x0640bade);
  }

  lemma WordsC3Turn2(key: Key)
    requires key == KeyC3()
    ensures KeyWord(key, 16) == 0xae87dff0 && KeyWord(key, 17) == 0x0ff11b68 && KeyWord(key, 18) == 0xa68ed5fb
    ensures KeyWord(key, 19) == 0x03fc1567 && KeyWord(key, 20) == 0x6de1f148 && KeyWord(key, 21) == 0x6fa54f92
    ensures KeyWord(key, 22) == 0x75f8eb53 && KeyWord(key, 23) == 0x73b8518d
  {
    hide S, KeyWord, PowerOfX;
    SBoxValues();
    Powers();
    WordsC3Turn1(key);
    hide KeyC3;
    FirstWord(key, 16, 0xa573c29f, 0x0640bade, 0x40bade06, 0x09f41d6f, 0x02000000,
              0x0bf41d6f, 0xae87dff0);
    NextWord(key, 17, 0xa176c498, 0xae87dff0, 0x0ff11b68);
    NextWord(key, 18, 0xa97fce93, 0x0ff11b68, 0xa68ed5fb);
    NextWord(key, 19, 0xa572c09c, 0xa68ed5fb, 0x03fc1567);
    MiddleWord(key, 20, 0x1651a8cd, 0x03fc1567, 0x7bb05985, 0x6de1f148);
    NextWord(key, 21, 0x0244beda, 0x6de1f148, 0x6fa54f92);
    NextWord(key, 22, 0x1a5da4c1, 0x6fa54f92, 0x75f8eb53);
    NextWord(key, 23, 0x0640bade, 0x75f8eb53, 0x73b8518d);
  }

  lemma WordsC3Turn3(key: Key)
    requires key == KeyC3()
    ensures KeyWord(key, 24) == 0xc656827f && KeyWord(key, 25) == 0xc9a79917 && KeyWord(key, 26) == 0x6f294cec
    ensures KeyWord(key, 27) == 0x6cd5598b && KeyWord(key, 28) == 0x3de23a75 && KeyWord(key, 29) == 0x524775e7
    ensures KeyWord(key, 30) == 0x27bf9eb4 && KeyWord(key, 31) == 0x5407cf39
  {
    hide S, KeyWord, PowerOfX;
    SBoxValues();
    Powers();
    WordsC3Turn2(key);
    hide KeyC3;
    FirstWord(key, 24, 0xae87dff0, 0x73b8518d, 0xb8518d73, 0x6cd15d8f, 0x04000000,
              0x68d15d8f, 0xc656827f);
    NextWord(key, 25, 0x0ff11b68, 0xc656827f, 0xc9a79917);
    NextWord(key, 26, 0xa68ed5fb, 0xc9a79917, 0x6f294cec);
    NextWord(key, 27, 0x03fc1567, 0x6f294cec, 0x6cd5598b);
    MiddleWord(key, 28, 0x6de1f148, 0x6cd5598b, 0x5003cb3d, 0x3de23a75);
    NextWord(key, 29, 0x6fa54f92, 0x3de23a75, 0x524775e7);
    NextWord(key, 30, 0x75f8eb53, 0x524775e7, 0x27bf9eb4);
    NextWord(key, 31, 0x73b8518d, 0x27bf9eb4, 0x5407cf39);
  }

  lemma WordsC3Turn4(key: Key)
    requires key == KeyC3()
    ensures KeyWord(key, 32) == 0x0bdc905f && KeyWord(key, 33) == 0xc27b0948 && KeyWord(key, 34) == 0xad5245a4
    ensures KeyWord(key, 35) == 0xc1871c2f && KeyWord(key, 36) == 0x45f5a660 && KeyWord(key, 37) == 0x17b2d387
    ensures KeyWord(key, 38) == 0x300d4d33 && KeyWord(key, 39) == 0x640a820a
  {
    hide S, KeyWord, PowerOfX;
    SBoxValues();
    Powers();
    WordsC3Turn3(key);
    hide KeyC3;
    FirstWord(key, 32, 0xc656827f, 0x5407cf39, 0x07cf3954, 0xc58a1220, 0x08000000,
              0xcd8a1220, 0x0bdc905f);
    NextWord(key, 33, 0xc9a79917, 0x0bdc905f, 0xc27b0948);
    NextWord(key, 34, 0x6f294cec, 0xc27b0948, 0xad5245a4);
    NextWord(key, 35, 0x6cd5598b, 0xad5245a4, 0xc1871c2f);
    MiddleWord(key, 36, 0x3de23a75, 0xc1871c2f, 0x78179c15, 0x45f5a660);
    NextWord(key, 37, 0x524775e7, 0x45f5a660, 0x17b2d387);
    NextWord(key, 38, 0x27bf9eb4, 0x17b2d387, 0x300d4d33);
    NextWord(key, 39, 0x5407cf39, 0x300d4d33, 0x640a820a);
  }

  lemma WordsC3Turn5(key: Key)
    requires key == KeyC3()
    ensures KeyWord(key, 40) == 0x7ccff71c && KeyWord(key, 41) == 0xbeb4fe54 && KeyWord(key, 42) == 0x13e6bbf0
    ensures KeyWord(key, 43) == 0xd261a7df && KeyWord(key, 44) == 0xf01afafe && KeyWord(key, 45) == 0xe7a82979
    ensures KeyWord(key, 46) == 0xd7a5644a && KeyWord(key, 47) == 0xb3afe640
  {
    hide S, KeyWord, PowerOfX;
    SBoxValues();
    Powers();
    WordsC3Turn4(key);
    hide KeyC3;
    FirstWord(key, 40, 0x0bdc905f, 0x640a820a, 0x0a820a64, 0x67136743, 0x10000000,
              0x77136743, 0x7ccff71c);
    NextWord(key, 41, 0xc27b0948, 0x7ccff71c, 0xbeb4fe54);
    NextWord(key, 42, 0xad5245a4, 0xbeb4fe54, 0x13e6bbf0);
    NextWord(key, 43, 0xc1871c2f, 0x13e6bbf0, 0xd261a7df);
    MiddleWord(key, 44, 0x45f5a660, 0xd261a7df, 0xb5ef5c9e, 0xf01afafe);
    NextWord(key, 45, 0x17b2d387, 0xf01afafe, 0xe7a82979);
    NextWord(key, 46, 0x300d4d33, 0xe7a82979, 0xd7a5644a);
    NextWord(key, 47, 0x640a820a, 0xd7a5644a, 0xb3afe640);
  }

  lemma WordsC3Turn6(key: Key)
    requires key == KeyC3()
    ensures KeyWord(key, 48) == 0x2541fe71 && KeyWord(key, 49) == 0x9bf50025 && KeyWord(key, 50) == 0x8813bbd5
    ensures KeyWord(key, 51) == 0x5a721c0a && KeyWord(key, 52) == 0x4e5a6699 && KeyWord(key, 53) == 0xa9f24fe0
    ensures KeyWord(key, 54) == 0x7e572baa && KeyWord(key, 55) == 0xcdf8cdea
  {
    hide S, KeyWord, PowerOfX;
    SBoxValues();
    Powers();
    WordsC3Turn5(key);
    hide KeyC3;
    FirstWord(key, 48, 0x7ccff71c, 0xb3afe640, 0xafe640b3, 0x798e096d, 0x20000000,
              0x598e096d, 0x2541fe71);
    NextWord(key, 49, 0xbeb4fe54, 0x2541fe71, 0x9bf50025);
    NextWord(key, 50, 0x13e6bbf0, 0x9bf50025, 0x8813bbd5);
    NextWord(key, 51, 0xd261a7df, 0x8813bbd5, 0x5a721c0a);
    MiddleWord(key, 52, 0xf01afafe, 0x5a721c0a, 0xbe409c67, 0x4e5a6699);
    NextWord(key, 53, 0xe7a82979, 0x4e5a6699, 0xa9f24fe0);
    NextWord(key, 54, 0xd7a5644a, 0xa9f24fe0, 0x7e572baa);
    NextWord(key, 55, 0xb3afe640, 0x7e572baa, 0xcdf8cdea);
  }

  lemma WordsC3Turn7(key: Key)
    requires key == KeyC3()
    ensures KeyWord(key, 56) == 0x24fc79cc && KeyWord(key, 57) == 0xbf0979e9 && KeyWord(key, 58) == 0x371ac23c
    ensures KeyWord(key, 59) == 0x6d68de36
  {
    hide S, KeyWord, PowerOfX;
    SBoxValues();
    Powers();
    WordsC3Turn6(key);
    hide KeyC3;
    FirstWord(key, 56, 0x2541fe71, 0xcdf8cdea, 0xf8cdeacd, 0x41bd87bd, 0x40000000,
              0x01bd87bd, 0x24fc79cc);
    NextWord(key, 57, 0x9bf50025, 0x24fc79cc, 0xbf0979e9);
    NextWord(key, 58, 0x8813bbd5, 0xbf0979e9, 0x371ac23c);
    NextWord(key, 59, 0x5a721c0a, 0x371ac23c, 0x6d68de36);
  }

  function ScheduleC3(r: nat): Quad {
    match r
    case 0 => [0x00010203, 0x04050607, 0x08090a0b, 0x0c0d0e0f]
    case 1 => [0x10111213, 0x14151617, 0x18191a1b, 0x1c1d1e1f]
    case 2 => [0xa573c29f, 0xa176c498, 0xa97fce93, 0xa572c09c]
    case 3 => [0x1651a8cd, 0x0244beda, 0x1a5da4c1, 0x0640bade]
    case 4 => [0xae87dff0, 0x0ff11b68, 0xa68ed5fb, 0x03fc1567]
    case 5 => [0x6de1f148, 0x6fa54f92, 0x75f8eb53, 0x73b8518d]
    case 6 => [0xc656827f, 0xc9a79917, 0x6f294cec, 0x6cd5598b]
    case 7 => [0x3de23a75, 0x524775e7, 0x27bf9eb4, 0x5407cf39]
    case 8 => [0x0bdc905f, 0xc27b0948, 0xad5245a4, 0xc1871c2f]
    case 9 => [0x45f5a660, 0x17b2d387, 0x300d4d33, 0x640a820a]
    case 10 => [0x7ccff71c, 0xbeb4fe54, 0x13e6bbf0, 0xd261a7df]
    case 11 => [0xf01afafe, 0xe7a82979, 0xd7a5644a, 0xb3afe640]
    case 12 => [0x2541fe71, 0x9bf50025, 0x8813bbd5, 0x5a721c0a]
    case 13 => [0x4e5a6699, 0xa9f24fe0, 0x7e572baa, 0xcdf8cdea]
    case _ => [0x24fc79cc, 0xbf0979e9, 0x371ac23c, 0x6d68de36]
  }

  /** Every round key of appendix C.3. */
  lemma ExpansionC3(key: Key, r: nat)
    requires key == KeyC3() && r <= 14
    ensures RoundKey(key, r) == ScheduleC3(r)
  {
    hide KeyWord;
    WordsC3Turn0(key);
    WordsC3Turn1(key);
    WordsC3Turn2(key);
    WordsC3Turn3(key);
    WordsC3Turn4(key);
    WordsC3Turn5(key);
    WordsC3Turn6(key);
    WordsC3Turn7(key);
    hide KeyC3;
  }

  lemma StateC3Round0(key: Key)
    requires key == KeyC3()
    ensures EncState(key, InputColumns(), 0) == [0x00102030, 0x40506070, 0x8090a0b0, 0xc0d0e0f0]
  {
    hide RoundKey;
    ExpansionC3(key, 0);
  }

  lemma StateC3Round1(key: Key)
    requires key == KeyC3()
    ensures EncState(key, InputColumns(), 1) == [0x4f637606, 0x43e0aa85, 0xefa72132, 0x01a4e705]
  {
    hide S, EncState, RoundKey, InputColumns;
    SBoxValues();
    ExpansionC3(key, 1);
    StateC3Round0(key);
    hide KeyC3;
    NextState(key, InputColumns(), 1,
              [0x00102030, 0x40506070, 0x8090a0b0, 0xc0d0e0f0],
              [0x63cab704, 0x0953d051, 0xcd60e0e7, 0xba70e18c],
              [0x6353e08c, 0x0960e104, 0xcd70b751, 0xbacad0e7],
              [0x5f726415, 0x57f5bc92, 0xf7be3b29, 0x1db9f91a],
              [0x10111213, 0x14151617, 0x18191a1b, 0x1c1d1e1f],
              [0x4f637606, 0x43e0aa85, 0xefa72132, 0x01a4e705]);
  }

  lemma StateC3Round2(key: Key)
    requires key == KeyC3()
    ensures EncState(key, InputColumns(), 2) == [0x1859fbc2, 0x8a1c00a0, 0x78ed8aad, 0xc42f6109]
  {
    hide S, EncState, RoundKey, InputColumns;
    SBoxValues();
    ExpansionC3(key, 2);
    StateC3Round1(key);
    hide KeyC3;
    NextState(key, InputColumns(), 2,
              [0x4f637606, 0x43e0aa85, 0xefa72132, 0x01a4e705],
              [0x84fb386f, 0x1ae1ac97, 0xdf5cfd23, 0x7c49946b],
              [0x84e1fd6b, 0x1a5c946f, 0xdf493897, 0x7cfbac23],
              [0xbd2a395d, 0x2b6ac438, 0xd192443e, 0x615da195],
              [0xa573c29f, 0xa176c498, 0xa97fce93, 0xa572c09c],
              [0x1859fbc2, 0x8a1c00a0, 0x78ed8aad, 0xc42f6109]);
  }

  lemma StateC3Round3(key: Key)
    requires key == KeyC3()
    ensures EncState(key, InputColumns(), 3) == [0x975c66c1, 0xcb9f3fa8, 0xa93a28df, 0x8ee10f63]
  {
    hide S, EncState, RoundKey, InputColumns;
    SBoxValues();
    ExpansionC3(key, 3);
    StateC3Round2(key);
    hide KeyC3;
    NextState(key, InputColumns(), 3,
              [0x1859fbc2, 0x8a1c00a0, 0x78ed8aad, 0xc42f6109],
              [0xadcb0f25, 0x7e9c63e0, 0xbc557e95, 0x1c15ef01],
              [0xad9c7e01, 0x7e55ef25, 0xbc150fe0, 0x1ccb6395],
              [0x810dce0c, 0xc9db8172, 0xb3678c1e, 0x88a1b5bd],
              [0x1651a8cd, 0x0244beda, 0x1a5da4c1, 0x0640bade],
              [0x975c66c1, 0xcb9f3fa8, 0xa93a28df, 0x8ee10f63]);
  }

  lemma StateC3Round4(key: Key)
    requires key == KeyC3()
    ensures EncState(key, InputColumns(), 4) == [0x1c05f271, 0xa417e04f, 0xf921c5c1, 0x04701554]
  {
    hide S, EncState, RoundKey, InputColumns;
    SBoxValues();
    ExpansionC3(key, 4);
    StateC3Round3(key);
    hide KeyC3;
    NextState(key, InputColumns(), 4,
              [0x975c66c1, 0xcb9f3fa8, 0xa93a28df, 0x8ee10f63],
              [0x884a3378, 0x1fdb75c2, 0xd380349e, 0x19f876fb],
              [0x88db34fb, 0x1f807678, 0xd3f833c2, 0x194a759e],
              [0xb2822d81, 0xabe6fb27, 0x5faf103a, 0x078c0033],
              [0xae87dff0, 0x0ff11b68, 0xa68ed5fb, 0x03fc1567],
              [0x1c05f271, 0xa417e04f, 0xf921c5c1, 0x04701554]);
  }

  lemma StateC3Round5(key: Key)
    requires key == KeyC3()
    ensures EncState(key, InputColumns(), 5) == [0xc357aae1, 0x1b45b7b0, 0xa2c7bd28, 0xa8dc99fa]
  {
    hide S, EncState, RoundKey, InputColumns;
    SBoxValues();
    ExpansionC3(key, 5);
    StateC3Round4(key);
    hide KeyC3;
    NextState(key, InputColumns(), 5,
              [0x1c05f271, 0xa417e04f, 0xf921c5c1, 0x04701554],
              [0x9c6b89a3, 0x49f0e184, 0x99fda678, 0xf2515920],
              [0x9cf0a620, 0x49fd59a3, 0x99518984, 0xf26be178],
              [0xaeb65ba9, 0x74e0f822, 0xd73f567b, 0xdb64c877],
              [0x6de1f148, 0x6fa54f92, 0x75f8eb53, 0x73b8518d],
              [0xc357aae1, 0x1b45b7b0, 0xa2c7bd28, 0xa8dc99fa]);
  }

  lemma StateC3Round6(key: Key)
    requires key == KeyC3()
    ensures EncState(key, InputColumns(), 6) == [0x7f074143, 0xcb4e243e, 0xc10c815d, 0x8375d54c]
  {
    hide S, EncState, RoundKey, InputColumns;
    SBoxValues();
    ExpansionC3(key, 6);
    StateC3Round5(key);
    hide KeyC3;
    NextState(key, InputColumns(), 6,
              [0xc357aae1, 0x1b45b7b0, 0xa2c7bd28, 0xa8dc99fa],
              [0x2e5bacf8, 0xaf6ea9e7, 0x3ac67a34, 0xc286ee2d],
              [0x2e6e7a2d, 0xafc6eef8, 0x3a86ace7, 0xc25ba934],
              [0xb951c33c, 0x02e9bd29, 0xae25cdb1, 0xefa08cc7],
              [0xc656827f, 0xc9a79917, 0x6f294cec, 0x6cd5598b],
              [0x7f074143, 0xcb4e243e, 0xc10c815d, 0x8375d54c]);
  }

  lemma StateC3Round7(key: Key)
    requires key == KeyC3()
    ensures EncState(key, InputColumns(), 7) == [0xd653a469, 0x6ca0bc0f, 0x5acaab5d, 0xb96c5e7d]
  {
    hide S, EncState, RoundKey, InputColumns;
    SBoxValues();
    ExpansionC3(key, 7);
    StateC3Round6(key);
    hide KeyC3;
    NextState(key, InputColumns(), 7,
              [0x7f074143, 0xcb4e243e, 0xc10c815d, 0x8375d54c],
              [0xd2c5831a, 0x1f2f36b2, 0x78fe0c4c, 0xec9d0329],
              [0xd22f0c29, 0x1ffe031a, 0x789d83b2, 0xecc5364c],
              [0xebb19e1c, 0x3ee7c9e8, 0x7d7535e9, 0xed6b9144],
              [0x3de23a75, 0x524775e7, 0x27bf9eb4, 0x5407cf39],
              [0xd653a469, 0x6ca0bc0f, 0x5acaab5d, 0xb96c5e7d]);
  }

  lemma StateC3Round8(key: Key)
    requires key == KeyC3()
    ensures EncState(key, InputColumns(), 8) == [0x5aa85839, 0x5fd28d7d, 0x05e1a388, 0x68f3b9c5]
  {
    hide S, EncState, RoundKey, InputColumns;
    SBoxValues();
    ExpansionC3(key, 8);
    StateC3Round7(key);
    hide KeyC3;
    NextState(key, InputColumns(), 8,
              [0xd653a469, 0x6ca0bc0f, 0x5acaab5d, 0xb96c5e7d],
              [0xf6ed49f9, 0x50e06576, 0xbe74624c, 0x565058ff],
              [0xf6e062ff, 0x507458f9, 0xbe504976, 0x56ed654c],
              [0x5174c866, 0x9da98435, 0xa8b3e62c, 0xa974a5ea],
              [0x0bdc905f, 0xc27b0948, 0xad5245a4, 0xc1871c2f],
              [0x5aa85839, 0x5fd28d7d, 0x05e1a388, 0x68f3b9c5]);
  }

  lemma StateC3Round9(key: Key)
    requires key == KeyC3()
    ensures EncState(key, InputColumns(), 9) == [0x4a824851, 0xc57e7e47, 0x643de50c, 0x2af3e8c9]
  {
    hide S, EncState, RoundKey, InputColumns;
    SBoxValues();
    ExpansionC3(key, 9);
    StateC3Round8(key);
    hide KeyC3;
    NextState(key, InputColumns(), 9,
              [0x5aa85839, 0x5fd28d7d, 0x05e1a388, 0x68f3b9c5],
              [0xbec26a12, 0xcfb55dff, 0x6bf80ac4, 0x450d56a6],
              [0xbeb50aa6, 0xcff85612, 0x6b0d6aff, 0x45c25dc4],
              [0x0f77ee31, 0xd2ccadc0, 0x5430a83f, 0x4ef96ac3],
              [0x45f5a660, 0x17b2d387, 0x300d4d33, 0x640a820a],
              [0x4a824851, 0xc57e7e47, 0x643de50c, 0x2af3e8c9]);
  }

  lemma StateC3Round10(key: Key)
    requires key == KeyC3()
    ensures EncState(key, InputColumns(), 10) == [0xc14907f6, 0xca3b3aa0, 0x70e9aa31, 0x3b52b5ec]
  {
    hide S, EncState, RoundKey, InputColumns;
    SBoxValues();
    ExpansionC3(key, 10);
    StateC3Round9(key);
    hide KeyC3;
    NextState(key, InputColumns(), 10,
              [0x4a824851, 0xc57e7e47, 0x643de50c, 0x2af3e8c9],
              [0xd61352d1, 0xa6f3f3a0, 0x4327d9fe, 0xe50d9bdd],
              [0xd6f3d9dd, 0xa6279bd1, 0x430d52a0, 0xe513f3fe],
              [0xbd86f0ea, 0x748fc4f4, 0x630f11c1, 0xe9331233],
              [0x7ccff71c, 0xbeb4fe54, 0x13e6bbf0, 0xd261a7df],
              [0xc14907f6, 0xca3b3aa0, 0x70e9aa31, 0x3b52b5ec]);
  }

  lemma StateC3Round11(key: Key)
    requires key == KeyC3()
    ensures EncState(key, InputColumns(), 11) == [0x5f9c6abf, 0xbac634aa, 0x50409fa7, 0x66677653]
  {
    hide S, EncState, RoundKey, InputColumns;
    SBoxValues();
    ExpansionC3(key, 11);
    StateC3Round10(key);
    hide KeyC3;
    NextState(key, InputColumns(), 11,
              [0xc14907f6, 0xca3b3aa0, 0x70e9aa31, 0x3b52b5ec],
              [0x783bc542, 0x74e280e0, 0x511eacc7, 0xe200d5ce],
              [0x78e2acce, 0x741ed542, 0x5100c5e0, 0xe23b80c7],
              [0xaf869041, 0x5d6e1dd3, 0x87e5fbed, 0xd5c89013],
              [0xf01afafe, 0xe7a82979, 0xd7a5644a, 0xb3afe640],
              [0x5f9c6abf, 0xbac634aa, 0x50409fa7, 0x66677653]);
  }

  lemma StateC3Round12(key: Key)
    requires key == KeyC3()
    ensures EncState(key, InputColumns(), 12) == [0x51660495, 0x43539503, 0x14fb86e4, 0x01922521]
  {
    hide S, EncState, RoundKey, InputColumns;
    SBoxValues();
    ExpansionC3(key, 12);
    StateC3Round11(key);
    hide KeyC3;
    NextState(key, InputColumns(), 12,
              [0x5f9c6abf, 0xbac634aa, 0x50409fa7, 0x66677653],
              [0xcfde0208, 0xf4b418ac, 0x5309db5c, 0x338538ed],
              [0xcfb4dbed, 0xf4093808, 0x538502ac, 0x33de185c],
              [0x7427fae4, 0xd8a69526, 0x9ce83d31, 0x5be0392b],
              [0x2541fe71, 0x9bf50025, 0x8813bbd5, 0x5a721c0a],
              [0x51660495, 0x43539503, 0x14fb86e4, 0x01922521]);
  }

  lemma StateC3Round13(key: Key)
    requires key == KeyC3()
    ensures EncState(key, InputColumns(), 13) == [0x627bceb9, 0x999d5aaa, 0xc945ecf4, 0x23f56da5]
  {
    hide S, EncState, RoundKey, InputColumns;
    SBoxValues();
    ExpansionC3(key, 13);
    StateC3Round12(key);
    hide KeyC3;
    NextState(key, InputColumns(), 13,
              [0x51660495, 0x43539503, 0x14fb86e4, 0x01922521],
              [0xd133f22a, 0x1aed2a7b, 0xfa0f4469, 0x7c4f3ffd],
              [0xd1ed44fd, 0x1a0f3f2a, 0xfa4ff27b, 0x7c332a69],
              [0x2c21a820, 0x306f154a, 0xb712c75e, 0xee0da04f],
              [0x4e5a6699, 0xa9f24fe0, 0x7e572baa, 0xcdf8cdea],
              [0x627bceb9, 0x999d5aaa, 0xc945ecf4, 0x23f56da5]);
  }

  /** Appendix C.3. */
  lemma CipherC3()
    ensures Cipher(KeyC3(), Input()) ==
            [0x8e, 0xa2, 0xb7, 0xca, 0x51, 0x67, 0x45, 0xbf,
             0xea, 0xfc, 0x49, 0x90, 0x4b, 0x49, 0x60, 0x89]
  {
    hide S, EncState, RoundKey, Columns, Cipher;
    SBoxValues();
    InputIs();
    ExpansionC3(KeyC3(), 14);
    StateC3Round13(KeyC3());
    LastState(KeyC3(), Input(),
              [0x627bceb9, 0x999d5aaa, 0xc945ecf4, 0x23f56da5],
              [0xaa218b56, 0xee5ebeac, 0xdd6ecebf, 0x26e63c06],
              [0xaa5ece06, 0xee6e3c56, 0xdde68bac, 0x2621bebf],
              [0x24fc79cc, 0xbf0979e9, 0x371ac23c, 0x6d68de36],
              [0x8ea2b7ca, 0x516745bf, 0xeafc4990, 0x4b496089]);
  }

  /** The program on the example of appendix C.1. */
  method EncryptC1() returns (r: Option<seq<bv8>>)
    ensures r == Some([0x69, 0xc4, 0xe0, 0xd8, 0x6a, 0x7b, 0x04, 0x30,
                       0xd8, 0xcd, 0xb7, 0x80, 0x70, 0xb4, 0xc5, 0x5a])
  {
    hide Cipher;
    CipherC1();
    var aes := new Aes.AES(KeyC1());
    r := aes.Encrypt(Input());
  }
}
