/** Facts about products and quotients of reals. A product is kept behind a name, so that proofs
    that use one stay linear. */
module Reals {
  function Product(a: real, b: real): real {
    a * b
  }

  lemma ProductIs(a: real, b: real)
    ensures Product(a, b) == a * b
  {
  }

  lemma Less(a: real, b: real, x: real)
    requires x >= 0.0 && a <= b
    ensures Product(a, x) <= Product(b, x)
  {
    assert (b - a) * x >= 0.0;
  }

  lemma LessStrictly(a: real, b: real, x: real)
    requires x > 0.0 && a < b
    ensures Product(a, x) < Product(b, x)
  {
    assert (b - a) * x > 0.0;
  }

  lemma Sum(a: real, b: real, x: real)
    ensures Product(a + b, x) == Product(a, x) + Product(b, x)
  {
  }

  lemma Quotient(a: real, x: real)
    requires x != 0.0
    ensures Product(a / x, x) == a
  {
  }

  lemma Commutes(a: real, b: real)
    ensures Product(a, b) == Product(b, a)
  {
  }

  /** Comparing a quotient is comparing products. */
  lemma Compare(a: real, b: real, x: real)
    requires x > 0.0
    ensures a / x <= b <==> a <= Product(b, x)
    ensures b <= a / x <==> Product(b, x) <= a
  {
    hide Product;
    var q := a / x;
    Quotient(a, x);
    if q <= b {
      Less(q, b, x);
    } else {
      LessStrictly(b, q, x);
    }
    if b <= q {
      Less(b, q, x);
    } else {
      LessStrictly(q, b, x);
    }
  }

  /** The same with a number b for which the product is linear. */
  lemma CompareWith(a: real, b: real, x: real)
    requires x > 0.0
    ensures a / x <= b <==> a <= b * x
    ensures b <= a / x <==> b * x <= a
  {
    Compare(a, b, x);
    ProductIs(b, x);
  }

  lemma Quotients(a: real, x: real, most: real)
    requires a >= 0.0 && 1.0 <= x <= most
    ensures a / most <= a / x <= a
  {
    hide Product;
    CompareWith(a, 0.0, x);
    var q := a / x;
    Quotient(a, x);
    Commutes(q, x);
    Commutes(q, most);
    Less(1.0, x, q);
    ProductIs(1.0, q);
    Less(x, most, q);
    Compare(a, q, most);
  }
}
