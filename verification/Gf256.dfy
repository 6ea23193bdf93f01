/** Bytes as elements of GF(2^8), section 4 of FIPS 197, and the two column matrices. */
module Gf256 {
  function Byte3(w: bv32): bv8 { ((w >> 24) & 0xff) as bv8 }
  function Byte2(w: bv32): bv8 { ((w >> 16) & 0xff) as bv8 }
  function Byte1(w: bv32): bv8 { ((w >> 8) & 0xff) as bv8 }
  function Byte0(w: bv32): bv8 { (w & 0xff) as bv8 }

  function Word(a: bv8, b: bv8, c: bv8, d: bv8): bv32 {
    ((a as bv32) << 24) | ((b as bv32) << 16) | ((c as bv32) << 8) | (d as bv32)
  }

  predicate TopBit(a: bv8) {
    a & 0x80 != 0
  }

  /** A left shift by one bit. */
  function Double(a: bv8): bv8 {
    a + a
  }

  /** Multiplication by x in GF(2^8), section 4.2.1. */
  function XTime(a: bv8): bv8 {
    if TopBit(a) then Add(Double(a), 0x1b) else Double(a)
  }

  function Xor(v: bv32, w: bv32): bv32 {
    v ^ w
  }

  /** Addition in GF(2^8). */
  function Add(a: bv8, b: bv8): bv8 {
    a ^ b
  }

  function Sum4(a: bv8, b: bv8, c: bv8, d: bv8): bv8 {
    Add(Add(a, b), Add(c, d))
  }

  function Times3(a: bv8): bv8 { Add(XTime(a), a) }
  function Times9(a: bv8): bv8 { Add(XTime(XTime(XTime(a))), a) }
  function Times11(a: bv8): bv8 { Add(XTime(Add(XTime(XTime(a)), a)), a) }
  function Times13(a: bv8): bv8 { Add(XTime(XTime(Add(XTime(a), a))), a) }
  function Times14(a: bv8): bv8 { XTime(Add(XTime(Add(XTime(a), a)), a)) }

  /** One row of the MixColumns matrix, section 5.1.3. */
  function MixRow(a: bv8, b: bv8, c: bv8, d: bv8): bv8 {
    Sum4(XTime(a), Times3(b), c, d)
  }

  /** One row of the InvMixColumns matrix, section 5.3.3. */
  function InvMixRow(a: bv8, b: bv8, c: bv8, d: bv8): bv8 {
    Sum4(Times14(a), Times11(b), Times13(c), Times9(d))
  }

  function MixColumn(w: bv32): bv32 {
    var (a, b, c, d) := (Byte3(w), Byte2(w), Byte1(w), Byte0(w));
    Word(MixRow(a, b, c, d), MixRow(b, c, d, a), MixRow(c, d, a, b), MixRow(d, a, b, c))
  }

  function InvMixColumn(w: bv32): bv32 {
    var (a, b, c, d) := (Byte3(w), Byte2(w), Byte1(w), Byte0(w));
    Word(InvMixRow(a, b, c, d), InvMixRow(b, c, d, a), InvMixRow(c, d, a, b), InvMixRow(d, a, b, c))
  }

  lemma WordOfBytes(w: bv32)
    ensures Word(Byte3(w), Byte2(w), Byte1(w), Byte0(w)) == w
  {
  }

  lemma BytesOfWord(a: bv8, b: bv8, c: bv8, d: bv8)
    ensures Byte3(Word(a, b, c, d)) == a && Byte2(Word(a, b, c, d)) == b
    ensures Byte1(Word(a, b, c, d)) == c && Byte0(Word(a, b, c, d)) == d
  {
  }

  // InvMixColumns undoes MixColumns: every product is linear, so the coefficients of the
  // product of the two matrices can be checked one byte at a time.

  lemma AddSwap(a: bv8, b: bv8, c: bv8, d: bv8)
    ensures Add(Add(a, b), Add(c, d)) == Add(Add(a, c), Add(b, d))
    ensures Add(Add(a, b), Add(c, d)) == Add(Add(b, c), Add(d, a))
  {
  }

  lemma AddZero(a: bv8)
    ensures Sum4(a, 0, 0, 0) == a
  {
  }

  lemma AddSum4(a: bv8, b: bv8, c: bv8, d: bv8, a': bv8, b': bv8, c': bv8, d': bv8)
    ensures Add(Sum4(a, b, c, d), Sum4(a', b', c', d')) == Sum4(Add(a, a'), Add(b, b'), Add(c, c'), Add(d, d'))
  {
    hide Add;
    AddSwap(Add(a, b), Add(c, d), Add(a', b'), Add(c', d'));
    AddSwap(a, b, a', b');
    AddSwap(c, d, c', d');
  }

  lemma DoubleLinear(a: bv8, b: bv8)
    ensures Double(Add(a, b)) == Add(Double(a), Double(b))
    ensures TopBit(Add(a, b)) == (TopBit(a) != TopBit(b))
  {
  }

  lemma AddMoves(a: bv8, b: bv8, c: bv8)
    ensures Add(Add(a, c), b) == Add(Add(a, b), c) && Add(a, Add(b, c)) == Add(Add(a, b), c)
    ensures Add(Add(a, c), Add(b, c)) == Add(a, b)
  {
  }

  lemma XTimeLinear(a: bv8, b: bv8)
    ensures XTime(Add(a, b)) == Add(XTime(a), XTime(b))
  {
    hide Add, Double, TopBit;
    DoubleLinear(a, b);
    AddMoves(Double(a), Double(b), 0x1b);
  }

  lemma ProductsLinear(a: bv8, b: bv8)
    ensures Times3(Add(a, b)) == Add(Times3(a), Times3(b))
    ensures Times9(Add(a, b)) == Add(Times9(a), Times9(b)) && Times11(Add(a, b)) == Add(Times11(a), Times11(b))
    ensures Times13(Add(a, b)) == Add(Times13(a), Times13(b)) && Times14(Add(a, b)) == Add(Times14(a), Times14(b))
  {
    hide Add, XTime;
    var (a2, b2) := (XTime(a), XTime(b));
    var (a4, b4) := (XTime(a2), XTime(b2));
    var (a6, b6) := (XTime(Add(a2, a)), XTime(Add(b2, b)));
    XTimeLinear(a, b);
    XTimeLinear(a2, b2);
    XTimeLinear(a4, b4);
    AddSwap(a2, b2, a, b);
    AddSwap(XTime(a4), XTime(b4), a, b);
    AddSwap(a4, b4, a, b);
    XTimeLinear(Add(a4, a), Add(b4, b));
    AddSwap(XTime(Add(a4, a)), XTime(Add(b4, b)), a, b);
    XTimeLinear(Add(a2, a), Add(b2, b));
    XTimeLinear(a6, b6);
    AddSwap(XTime(a6), XTime(b6), a, b);
    AddSwap(a6, b6, a, b);
    XTimeLinear(Add(a6, a), Add(b6, b));
  }

  lemma ProductsLinear4(a: bv8, b: bv8, c: bv8, d: bv8)
    ensures Times9(Sum4(a, b, c, d)) == Sum4(Times9(a), Times9(b), Times9(c), Times9(d))
    ensures Times11(Sum4(a, b, c, d)) == Sum4(Times11(a), Times11(b), Times11(c), Times11(d))
    ensures Times13(Sum4(a, b, c, d)) == Sum4(Times13(a), Times13(b), Times13(c), Times13(d))
    ensures Times14(Sum4(a, b, c, d)) == Sum4(Times14(a), Times14(b), Times14(c), Times14(d))
  {
    hide Add, Times9, Times11, Times13, Times14;
    ProductsLinear(a, b);
    ProductsLinear(c, d);
    ProductsLinear(Add(a, b), Add(c, d));
  }

  // The product of the two matrices, one coefficient at a time, as sums of x, 2x, 4x, 8x, 16x.

  lemma Expanded(x: bv8)
    ensures var (x1, x2, x3) := (XTime(x), XTime(XTime(x)), XTime(XTime(XTime(x))));
            && Times9(x) == Add(x3, x) && Times11(x) == Add(Add(x3, x1), x)
            && Times13(x) == Add(Add(x3, x2), x) && Times14(x) == Add(Add(x3, x2), x1)
  {
    hide Add, XTime;
    var (x1, x2) := (XTime(x), XTime(XTime(x)));
    XTimeLinear(x2, x);
    XTimeLinear(x1, x);
    XTimeLinear(x2, x1);
    XTimeLinear(Add(x2, x1), x);
  }

  lemma DiagonalCancels(x: bv8, x1: bv8, x2: bv8, x3: bv8, x4: bv8)
    ensures Sum4(Add(Add(x4, x3), x2), Add(Add(x3, x1), x), Add(Add(x3, x2), x), Add(Add(x4, x1), Add(x3, x))) == x
  {
    DiagonalFirst(x, x1, x2, x3, x4);
    DiagonalSecond(x, x1, x2, x3, x4);
    hide Add;
    var (p, q) := (Add(x4, x2), Add(x1, x));
    AddCommutes(p, q);
    AddCommutes(p, x1);
    AddMoves(q, x1, p);
    Absorbed(x1, x);
  }

  lemma DiagonalFirst(x: bv8, x1: bv8, x2: bv8, x3: bv8, x4: bv8)
    ensures Add(Add(Add(x4, x3), x2), Add(Add(x3, x1), x)) == Add(Add(x4, x2), Add(x1, x))
  {
    hide Add;
    AddMoves(x4, x2, x3);
    AddMoves(x3, x1, x);
    AddCommutes(x3, Add(x1, x));
    AddMoves(Add(x4, x2), Add(x1, x), x3);
  }

  lemma DiagonalSecond(x: bv8, x1: bv8, x2: bv8, x3: bv8, x4: bv8)
    ensures Add(Add(Add(x3, x2), x), Add(Add(x4, x1), Add(x3, x))) == Add(Add(x4, x2), x1)
  {
    hide Add;
    AddCommutes(x3, x2);
    AddMoves(x2, x3, x);
    AddMoves(x2, Add(x4, x1), Add(x3, x));
    AddMoves(x2, x4, x1);
    AddCommutes(x2, x4);
  }

  lemma Absorbed(a: bv8, b: bv8)
    ensures Add(Add(a, b), a) == b
  {
  }

  lemma SecondCancels(x: bv8, x1: bv8, x2: bv8, x3: bv8, x4: bv8)
    ensures Sum4(Add(Add(Add(x4, x3), x2), Add(Add(x3, x2), x1)), Add(Add(x4, x2), x1), Add(Add(x3, x2), x), Add(x3,
            x)) == 0
  {
  }

  lemma ThirdCancels(x: bv8, x1: bv8, x2: bv8, x3: bv8, x4: bv8)
    ensures Sum4(Add(Add(x3, x2), x1), Add(Add(Add(x4, x2), x1), Add(Add(x3, x1), x)), Add(Add(x4, x3), x1), Add(x3,
            x)) == 0
  {
  }

  lemma FourthCancels(x: bv8, x1: bv8, x2: bv8, x3: bv8, x4: bv8)
    ensures Sum4(Add(Add(x3, x2), x1), Add(Add(x3, x1), x), Add(Add(Add(x4, x3), x1), Add(Add(x3, x2), x)), Add(x4,
            x1)) == 0
  {
    FirstHalf(x, x1, x2, x3);
    SecondHalf(x, x1, x2, x3, x4);
    SelfCancels(Add(x2, x));
    hide Add;
  }

  lemma FirstHalf(x: bv8, x1: bv8, x2: bv8, x3: bv8)
    ensures Add(Add(Add(x3, x2), x1), Add(Add(x3, x1), x)) == Add(x2, x)
  {
    AddMoves(x3, x, x1);
    AddMoves(Add(x3, x2), Add(x3, x), x1);
    AddMoves(x2, x, x3);
    AddCommutes(x3, x2);
    AddCommutes(x3, x);
    hide Add;
  }

  lemma SecondHalf(x: bv8, x1: bv8, x2: bv8, x3: bv8, x4: bv8)
    ensures Add(Add(Add(Add(x4, x3), x1), Add(Add(x3, x2), x)), Add(x4, x1)) == Add(x2, x)
  {
    AddMoves(x4, x1, x3);
    AddCancels(Add(x4, x1), x3, Add(Add(x3, x2), x));
    AddCancels(x3, x2, x);
    AddCommutes(x3, Add(Add(x3, x2), x));
    hide Add;
  }

  lemma AddCommutes(a: bv8, b: bv8)
    ensures Add(a, b) == Add(b, a)
  {
  }

  lemma AddCancels(a: bv8, b: bv8, c: bv8)
    ensures Add(Add(Add(a, b), c), a) == Add(b, c)
  {
  }

  lemma SelfCancels(a: bv8)
    ensures Add(a, a) == 0
  {
  }

  lemma MatrixProducts(x: bv8)
    ensures Sum4(Times14(XTime(x)), Times11(x), Times13(x), Times9(Times3(x))) == x
    ensures Sum4(Times14(Times3(x)), Times11(XTime(x)), Times13(x), Times9(x)) == 0
    ensures Sum4(Times14(x), Times11(Times3(x)), Times13(XTime(x)), Times9(x)) == 0
    ensures Sum4(Times14(x), Times11(x), Times13(Times3(x)), Times9(XTime(x))) == 0
  {
    hide Add, XTime, Times9, Times11, Times13, Times14, Sum4;
    var (x1, x2, x3) := (XTime(x), XTime(XTime(x)), XTime(XTime(XTime(x))));
    var x4 := XTime(x3);
    Expanded(x);
    Expanded(x1);
    ProductsLinear(x1, x);
    DiagonalCancels(x, x1, x2, x3, x4);
    SecondCancels(x, x1, x2, x3, x4);
    ThirdCancels(x, x1, x2, x3, x4);
    FourthCancels(x, x1, x2, x3, x4);
  }

  lemma Transpose(a: seq<bv8>, b: seq<bv8>, c: seq<bv8>, d: seq<bv8>)
    requires |a| == |b| == |c| == |d| == 4
    ensures Sum4(Sum4(a[0], a[1], a[2], a[3]), Sum4(b[0], b[1], b[2], b[3]), Sum4(c[0], c[1], c[2], c[3]),
            Sum4(d[0], d[1], d[2], d[3]))
            == Sum4(Sum4(a[0], b[0], c[0], d[0]), Sum4(a[1], b[1], c[1], d[1]), Sum4(a[2], b[2], c[2], d[2]),
              Sum4(a[3], b[3], c[3], d[3]))
  {
    AddSum4(a[0], a[1], a[2], a[3], b[0], b[1], b[2], b[3]);
    AddSum4(c[0], c[1], c[2], c[3], d[0], d[1], d[2], d[3]);
    AddSum4(Add(a[0], b[0]), Add(a[1], b[1]), Add(a[2], b[2]), Add(a[3], b[3]),
            Add(c[0], d[0]), Add(c[1], d[1]), Add(c[2], d[2]), Add(c[3], d[3]));
    hide Add;
  }

  lemma MixRowRotated(a: bv8, b: bv8, c: bv8, d: bv8)
    ensures MixRow(b, c, d, a) == Sum4(a, XTime(b), Times3(c), d)
    ensures MixRow(c, d, a, b) == Sum4(a, b, XTime(c), Times3(d))
    ensures MixRow(d, a, b, c) == Sum4(Times3(a), b, c, XTime(d))
  {
    hide Add, XTime, Times3;
    AddSwap(a, XTime(b), Times3(c), d);
    AddSwap(a, b, XTime(c), Times3(d));
    AddSwap(XTime(c), Times3(d), a, b);
    AddSwap(b, XTime(c), Times3(d), a);
    AddSwap(XTime(d), Times3(a), b, c);
  }

  lemma InvMixRowUndoes(a: bv8, b: bv8, c: bv8, d: bv8)
    ensures InvMixRow(MixRow(a, b, c, d), MixRow(b, c, d, a), MixRow(c, d, a, b), MixRow(d, a, b, c)) == a
  {
    hide Add, Sum4, Times3, Times9, Times11, Times13, Times14, XTime;
    MixRowRotated(a, b, c, d);
    ProductsLinear4(XTime(a), Times3(b), c, d);
    ProductsLinear4(a, XTime(b), Times3(c), d);
    ProductsLinear4(a, b, XTime(c), Times3(d));
    ProductsLinear4(Times3(a), b, c, XTime(d));
    Transpose([Times14(XTime(a)), Times14(Times3(b)), Times14(c), Times14(d)],
              [Times11(a), Times11(XTime(b)), Times11(Times3(c)), Times11(d)],
              [Times13(a), Times13(b), Times13(XTime(c)), Times13(Times3(d))],
              [Times9(Times3(a)), Times9(b), Times9(c), Times9(XTime(d))]);
    MatrixProducts(a);
    MatrixProducts(b);
    MatrixProducts(c);
    MatrixProducts(d);
    AddZero(a);
  }

  lemma InvMixColumnUndoes(w: bv32)
    ensures InvMixColumn(MixColumn(w)) == w
  {
    WordOfBytes(w);
    hide MixRow, InvMixRow, Byte0, Byte1, Byte2, Byte3, Word;
    var (a, b, c, d) := (Byte3(w), Byte2(w), Byte1(w), Byte0(w));
    BytesOfWord(MixRow(a, b, c, d), MixRow(b, c, d, a), MixRow(c, d, a, b), MixRow(d, a, b, c));
    InvMixRowUndoes(a, b, c, d);
    InvMixRowUndoes(b, c, d, a);
    InvMixRowUndoes(c, d, a, b);
    InvMixRowUndoes(d, a, b, c);
  }

  lemma RawBytesOfXor(v: bv32, w: bv32)
    ensures Byte3(v ^ w) == Add(Byte3(v), Byte3(w)) && Byte2(v ^ w) == Add(Byte2(v), Byte2(w))
    ensures Byte1(v ^ w) == Add(Byte1(v), Byte1(w)) && Byte0(v ^ w) == Add(Byte0(v), Byte0(w))
  {
  }

  lemma BytesOfXor(v: bv32, w: bv32)
    ensures Byte3(Xor(v, w)) == Add(Byte3(v), Byte3(w)) && Byte2(Xor(v, w)) == Add(Byte2(v), Byte2(w))
    ensures Byte1(Xor(v, w)) == Add(Byte1(v), Byte1(w)) && Byte0(Xor(v, w)) == Add(Byte0(v), Byte0(w))
  {
    hide Add, Byte0, Byte1, Byte2, Byte3;
    RawBytesOfXor(v, w);
  }

  lemma XorUndoes(v: bv32, w: bv32)
    ensures Xor(Xor(v, w), w) == v
  {
  }

  lemma WordOfSums(a: bv8, b: bv8, c: bv8, d: bv8, a': bv8, b': bv8, c': bv8, d': bv8)
    ensures Word(Add(a, a'), Add(b, b'), Add(c, c'), Add(d, d')) == Xor(Word(a, b, c, d), Word(a', b', c', d'))
  {
  }

  lemma InvMixRowLinear(a: bv8, b: bv8, c: bv8, d: bv8, a': bv8, b': bv8, c': bv8, d': bv8)
    ensures InvMixRow(Add(a, a'), Add(b, b'), Add(c, c'), Add(d, d')) ==
            Add(InvMixRow(a, b, c, d), InvMixRow(a', b', c', d'))
  {
    hide Add, Sum4, Times9, Times11, Times13, Times14;
    ProductsLinear(a, a');
    ProductsLinear(b, b');
    ProductsLinear(c, c');
    ProductsLinear(d, d');
    AddSum4(Times14(a), Times11(b), Times13(c), Times9(d), Times14(a'), Times11(b'), Times13(c'), Times9(d'));
  }

  lemma InvMixColumnLinear(v: bv32, w: bv32)
    ensures InvMixColumn(Xor(v, w)) == Xor(InvMixColumn(v), InvMixColumn(w))
  {
    hide Add, Xor, InvMixRow, Byte0, Byte1, Byte2, Byte3, Word;
    BytesOfXor(v, w);
    var (a, b, c, d) := (Byte3(v), Byte2(v), Byte1(v), Byte0(v));
    var (a', b', c', d') := (Byte3(w), Byte2(w), Byte1(w), Byte0(w));
    InvMixRowLinear(a, b, c, d, a', b', c', d');
    InvMixRowLinear(b, c, d, a, b', c', d', a');
    InvMixRowLinear(c, d, a, b, c', d', a', b');
    InvMixRowLinear(d, a, b, c, d', a', b', c');
    WordOfSums(InvMixRow(a, b, c, d), InvMixRow(b, c, d, a), InvMixRow(c, d, a, b), InvMixRow(d, a, b, c),
               InvMixRow(a', b', c', d'), InvMixRow(b', c', d', a'), InvMixRow(c', d', a', b'), InvMixRow(d', a',
                 b', c'));
  }
}
