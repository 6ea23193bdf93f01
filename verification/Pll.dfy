/** drivers/sysctl.c: the search for PLL dividers. The source computes in `double`; the model
    computes in exact reals. */
module Pll {
  import opened Wrappers
  import R = Reals

  const VCO_MIN: real := 350000000.0
  const VCO_MAX: real := 1750000000.0
  const REF_MIN: real := 13671900.0
  const REF_MAX: real := 1750000000.0
  const IN0: real := 26000000.0
  const NR_MAX: int := 16
  const NF_MAX: int := 64
  const NO_MAX: int := 16
  const NB_MAX: int := 64
  const TERR: real := 1.0 / 64.0
  const LITTLE: real := 0.000001
  const TINY: real := 0.0000000000000001

  /** Reference divider, feedback multiplier, output divider and bandwidth. */
  datatype Dividers = Dividers(nr: int, nf: int, no: int, nb: int)

  function Abs(x: real): real {
    if x < 0.0 then -x else x
  }

  /** `rint`: to the nearest, halves to even. */
  function Rint(x: real): (r: int)
    ensures r as real - 0.5 <= x <= r as real + 0.5
  {
    var f := x.Floor;
    if x - f as real < 0.5 || (x - f as real == 0.5 && f % 2 == 0) then f else f + 1
  }

  function Ceil(x: real): (r: int)
    ensures r as real - 1.0 < x <= r as real
  {
    -((-x).Floor)
  }

  function Smaller(a: int, b: int): int {
    if a < b then a else b
  }

  predicate InRange(d: Dividers) {
    1 <= d.nr <= NR_MAX && 1 <= d.nf <= NF_MAX && 1 <= d.no <= NO_MAX && 1 <= d.nb <= NB_MAX
  }

  function Vco(fin: real, d: Dividers): real
    requires d.nr >= 1
  {
    fin / d.nr as real * d.nf as real
  }

  /** The frequency the hardware makes: FIN / NR * NF / OD. */
  function Output(fin: real, d: Dividers): real
    requires d.nr >= 1 && d.no >= 1
  {
    Vco(fin, d) / d.no as real
  }

  /** Scaling by the output divider leaves the frequency alone. */
  lemma SameRatio(fin: real, d: Dividers, nfi: int, nr: int)
    requires d.nr >= 1 && d.no >= 1 && nr >= 1 && d.nf * nr == nfi * (d.nr * d.no)
    ensures Output(fin, d) == fin * (nfi as real / nr as real)
  {
  }

  /** The source's error is the relative error of the output frequency. */
  lemma ErrorIsRelative(fin: real, fout: real, nval: real)
    requires fin > 0.0 && fout > 0.0
    ensures nval / (fout / fin) == fin * nval / fout
  {
  }

  /** A setting within the limits of the hardware whose relative error is err. */
  ghost predicate Sound(fin: real, fout: real, d: Dividers, err: real)
    requires fout > 0.0
  {
    && InRange(d)
    && VCO_MIN <= Vco(fin, d) <= VCO_MAX
    && fin / d.nr as real >= REF_MIN
    && Output(fin, d) / fout == 1.0 - err
    && (d.nf == 64 ==> d.no % 2 == 0)
  }

  /** The largest divisor of nr from top down. */
  function Largest(nr: int, top: int): (no: int)
    requires nr >= 1 && top >= 1
    ensures 1 <= no <= top && nr % no == 0
    ensures forall d | no < d <= top :: nr % d != 0
    decreases top
  {
    if top == 1 || nr % top == 0 then top else Largest(nr, top - 1)
  }

  /** The loop over output dividers. */
  method LargestDivisor(nr: int, top: int) returns (no: int)
    requires nr >= 1 && top >= 1
    ensures no == Largest(nr, top)
    ensures 1 <= no <= top && nr % no == 0
    ensures forall d | no < d <= top :: nr % d != 0
  {
    no := top;
    while no > 1
      invariant 1 <= no <= top && Largest(nr, top) == Largest(nr, no)
    {
      if nr / no >= 1 && nr % no == 0 {
        return;
      }
      if nr / no < 1 {
        SmallRemainder(nr, no);
      }
      no := no - 1;
    }
  }

  lemma SmallRemainder(nr: int, no: int)
    requires nr >= 1 && no >= 1 && nr / no < 1
    ensures nr % no == nr
  {
  }

  lemma Quotient(a: int, b: int)
    requires 1 <= b <= a
    ensures a / b >= 1 && b * (a / b) <= a
  {
  }

  lemma Exact(nr: int, no: int)
    requires nr >= 1 && no >= 1 && nr % no == 0
    ensures nr / no >= 1 && nr / no * no == nr
  {
  }

  /** Raising the output divider, either together with the multiplier or by taking no, the largest
      one that divides nr, out of the reference divider; the ratio of output to input stays
      nfi / nr. */
  function Scale(nr: int, nfi: int, most: int, least: int, no: int, first: bool): (r: Option<Dividers>)
    requires nr >= 1 && 1 <= nfi < NF_MAX && most >= 1 && 1 <= no <= Smaller(most, NO_MAX) && nr % no == 0
    ensures r.Some? ==> r.value.nr >= 1 && r.value.nf >= 1 && 1 <= r.value.no <= NO_MAX
    ensures r.Some? ==> r.value.nf * nr == nfi * (r.value.nr * r.value.no)
    ensures r.Some? && r.value.nf == 64 ==> r.value.no % 2 == 0
    ensures first ==> r.Some?
  {
    Quotient(Smaller(most, NO_MAX), no);
    Quotient(NF_MAX, nfi);
    var nor := Smaller(Smaller(most, NO_MAX) / no, NF_MAX / nfi);
    var product := no * nor;
    if (product < most / 2 || product < least) && product < NF_MAX / nfi then
      var both := Smaller(Smaller(NF_MAX / nfi, NO_MAX), most);
      ScaledBoth(nr, nfi, both);
      if both <= 1 || first then Some(Dividers(nr, nfi * both, both, nfi * both)) else None
    else
      Exact(nr, no);
      ScaledOut(nr, nfi, no, nor);
      TimesLess(no, nor, Smaller(most, NO_MAX) / no);
      if product <= NO_MAX && (nor <= 1 || first) then Some(Dividers(nr / no, nfi * nor, product, nfi * nor)) else None
  }

  /** d is nfi / nr raised k times, with output divider step * k, and k is as large as multiplier
      and output divider allow. */
  predicate RaisedFully(nfi: int, most: int, d: Dividers, step: int, k: int) {
    && k >= 1 && d.nf == nfi * k && d.nf <= 64 && d.no == step * k && d.no <= 16 && d.no <= most
    && (nfi * (k + 1) > 64 || step * (k + 1) > 16 || step * (k + 1) > most)
  }

  /** The VCO is raised as far as it goes, either undividing the reference or leaving it. */
  lemma ScaleIsMaximal(nr: int, nfi: int, most: int, least: int, no: int, first: bool) returns (k: int)
    requires nr >= 1 && 1 <= nfi < NF_MAX && most >= 1 && 1 <= no <= Smaller(most, NO_MAX) && nr % no == 0
    ensures var r := Scale(nr, nfi, most, least, no, first);
            r.Some? ==> (r.value.nr == nr && RaisedFully(nfi, most, r.value, 1, k))
                        || (r.value.nr * no == nr && RaisedFully(nfi, most, r.value, no, k))
  {
    hide RaisedFully;
    var top := Smaller(most, NO_MAX);
    Quotient(top, no);
    Quotient(NF_MAX, nfi);
    Exact(nr, no);
    var nor := Smaller(top / no, NF_MAX / nfi);
    var both := Smaller(Smaller(NF_MAX / nfi, NO_MAX), most);
    RaisedOut(nr, nfi, most, no, nor);
    RaisedBoth(nr, nfi, most, both);
    k := if (no * nor < most / 2 || no * nor < least) && no * nor < NF_MAX / nfi then both else nor;
  }

  lemma RaisedOut(nr: int, nfi: int, most: int, no: int, nor: int)
    requires 1 <= nfi < NF_MAX && most >= 1 && 1 <= no <= Smaller(most, NO_MAX)
    requires nor == Smaller(Smaller(most, NO_MAX) / no, NF_MAX / nfi)
    ensures RaisedFully(nfi, most, Dividers(nr / no, nfi * nor, no * nor, nfi * nor), no, nor)
  {
    var top := Smaller(most, NO_MAX);
    OneMoreTime(top, no);
    OneMoreTime(NF_MAX, nfi);
    TimesLess(no, nor, top / no);
    TimesLess(nfi, nor, NF_MAX / nfi);
  }

  lemma RaisedBoth(nr: int, nfi: int, most: int, both: int)
    requires 1 <= nfi < NF_MAX && most >= 1 && both == Smaller(Smaller(NF_MAX / nfi, NO_MAX), most)
    ensures RaisedFully(nfi, most, Dividers(nr, nfi * both, both, nfi * both), 1, both)
  {
    OneMoreTime(NF_MAX, nfi);
    TimesLess(nfi, both, NF_MAX / nfi);
  }

  lemma OneMoreTime(a: int, b: int)
    requires 1 <= b <= a
    ensures a / b >= 1 && b * (a / b) <= a && b * (a / b + 1) > a
  {
    var q := a / b;
    assert a == b * q + a % b;
    assert b * (q + 1) == b * q + b;
  }

  lemma ScaledBoth(nr: int, nfi: int, no: int)
    requires nfi >= 1 && no >= 1
    ensures nfi * no >= 1 && (nfi * no) * nr == nfi * (nr * no)
    ensures nfi < 64 && nfi * no == 64 ==> no % 2 == 0
  {
    if nfi < 64 && nfi * no == 64 {
      EvenFactor(nfi, no, 64);
    }
  }

  /** A factor of a power of two, other than 1, is even. */
  lemma {:induction false} EvenFactor(n: int, k: int, m: int)
    requires n >= 1 && k >= 2 && n * k == m && m in {2, 4, 8, 16, 32, 64}
    ensures k % 2 == 0
    decreases m
  {
    OddTimes(n, k);
    if n % 2 == 0 {
      Halved(n, k, m);
      EvenFactor(n / 2, k, m / 2);
    }
  }

  lemma OddTimes(n: int, k: int)
    ensures n % 2 == 1 && k % 2 == 1 ==> (n * k) % 2 == 1
  {
    var (a, b) := (n / 2, k / 2);
    assert (2 * a + 1) * (2 * b + 1) == 2 * (2 * a * b + a + b) + 1;
  }

  lemma Halved(n: int, k: int, m: int)
    requires n >= 1 && k >= 2 && n % 2 == 0 && n * k == m
    ensures n / 2 >= 1 && n / 2 * k == m / 2 && m >= 4
  {
    var a := n / 2;
    assert n * k == 2 * (a * k);
  }

  lemma ScaledOut(nr: int, nfi: int, no: int, nor: int)
    requires no >= 1 && nfi >= 1 && nor >= 1 && nr / no * no == nr
    ensures nfi * nor >= 1 && no * nor >= 1 && (nfi * nor) * nr == nfi * (nr / no * (no * nor))
    ensures nfi < 64 && nfi * nor == 64 ==> (no * nor) % 2 == 0
  {
    if nfi < 64 && nfi * nor == 64 {
      EvenFactor(nfi, nor, 64);
      assert no * nor == 2 * (no * (nor / 2));
    }
  }

  // One turn of the search.

  /** The setting kept so far and its error. */
  datatype Kept = Kept(d: Dividers, err: real)

  /** `merr`. */
  function Bound(kept: Option<Kept>): real {
    if kept.Some? then Abs(kept.value.err) else TERR
  }

  function Reference(fin: real, fout: real, nfi: int): int
    requires fin > 0.0 && fout > 0.0
  {
    Rint(nfi as real / (fout / fin))
  }

  function Error(fin: real, fout: real, nfi: int): real
    requires fin > 0.0 && fout > 0.0 && Reference(fin, fout, nfi) >= 1
  {
    1.0 - nfi as real / Reference(fin, fout, nfi) as real / (fout / fin)
  }

  /** A multiplier near enough to go on to the output dividers. */
  predicate Tried(fin: real, fout: real, nfi: int, merr: real)
    requires fin > 0.0 && fout > 0.0
  {
    var nr := Reference(fin, fout, nfi);
    && nr >= 1 && fin / nr as real <= REF_MAX
    && (Abs(Error(fin, fout, nfi)) < merr * (1.0 + LITTLE) || Abs(Error(fin, fout, nfi)) < TINY)
  }

  /** `not`: at most this output divider, as far as the VCO goes. */
  function Most(fout: real): int
    requires fout > 0.0
  {
    (VCO_MAX / fout).Floor
  }

  /** The tests on a scaled setting d with error err. */
  predicate Accepted(fin: real, d: Dividers, err: real, kept: Option<Kept>)
    requires d.nr >= 1
  {
    && d.nb <= NB_MAX
    && VCO_MIN <= Vco(fin, d) <= VCO_MAX
    && fin / d.nr as real >= REF_MIN && d.nr <= NR_MAX
    && (Abs(err) < Bound(kept) * (1.0 - LITTLE) || d.no > (if kept.Some? then kept.value.d.no else 0))
    && (kept.Some? ==> d.nr <= kept.value.d.nr)
  }

  /** The rest of the body of the search loop: the setting for one multiplier with output
      divider no, if it is to replace the one kept. */
  function Consider(fin: real, fout: real, nfi: int, kept: Option<Kept>, no: int): (r: Option<Kept>)
    requires fin > 0.0 && 0.0 < fout <= VCO_MAX && 0 <= nfi < NF_MAX && Tried(fin, fout, nfi, Bound(kept))
    requires 1 <= no <= Smaller(Most(fout), NO_MAX) && Reference(fin, fout, nfi) % no == 0
    ensures r.Some? ==> Sound(fin, fout, r.value.d, r.value.err) && r.value.err == Error(fin, fout, nfi)
  {
    hide Vco, Output;
    AtLeastOne(fout);
    var nr := Reference(fin, fout, nfi);
    MultiplierPositive(nfi, fout / fin);
    var scaled := Scale(nr, nfi, Most(fout), Ceil(VCO_MIN / fout), no, kept.None?);
    if scaled.Some? && Accepted(fin, scaled.value, Error(fin, fout, nfi), kept) then
      RelativeError(fin, fout, scaled.value, nfi, nr);
      Some(Kept(scaled.value, Error(fin, fout, nfi)))
    else None
  }

  lemma RelativeError(fin: real, fout: real, d: Dividers, nfi: int, nr: int)
    requires fin > 0.0 && fout > 0.0 && d.nr >= 1 && d.no >= 1 && nr >= 1 && d.nf * nr == nfi * (d.nr * d.no)
    ensures Output(fin, d) / fout == nfi as real / nr as real / (fout / fin)
  {
    SameRatio(fin, d, nfi, nr);
    ErrorIsRelative(fin, fout, nfi as real / nr as real);
  }

  lemma MultiplierPositive(nfi: int, val: real)
    requires val > 0.0 && nfi >= 0 && Rint(nfi as real / val) >= 1
    ensures nfi >= 1
  {
  }

  lemma AtLeast(a: real, b: real)
    requires 0.0 < b <= a
    ensures a / b >= 1.0
  {
  }

  /** The largest output divider is at least 1 exactly for requests the VCO can reach; for any
      other the search would go on to divide by 0. */
  lemma AtLeastOne(fout: real)
    requires fout > 0.0
    ensures (VCO_MAX / fout).Floor >= 1 <==> fout <= VCO_MAX
  {
    var x := VCO_MAX / fout;
    assert x * fout == VCO_MAX;
    if fout <= VCO_MAX {
      AtLeast(VCO_MAX, fout);
    } else {
      assert (1.0 - x) * fout > 0.0;
    }
  }

  /** What one turn leaves kept. */
  function Turn(fin: real, fout: real, nfi: int, kept: Option<Kept>): (r: Option<Kept>)
    requires fin > 0.0 && 0.0 < fout <= VCO_MAX && 0 <= nfi < NF_MAX
    requires kept.Some? ==> Sound(fin, fout, kept.value.d, kept.value.err)
    ensures r.Some? ==> Sound(fin, fout, r.value.d, r.value.err)
    ensures kept.Some? ==> r.Some?
    ensures r != kept ==> Tried(fin, fout, nfi, Bound(kept)) && r.Some? && r.value.err == Error(fin, fout, nfi)
  {
    AtLeastOne(fout);
    var better :=
      if Tried(fin, fout, nfi, Bound(kept)) then
        Consider(fin, fout, nfi, kept, Largest(Reference(fin, fout, nfi), Smaller(Most(fout), NO_MAX)))
      else None;
    if better.Some? then better else kept
  }

  /** What all turns from nfi on leave kept. */
  function Turns(fin: real, fout: real, nfi: int, kept: Option<Kept>): (r: Option<Kept>)
    requires fin > 0.0 && 0.0 < fout <= VCO_MAX && 0 <= nfi
    requires kept.Some? ==> Sound(fin, fout, kept.value.d, kept.value.err)
    ensures r.Some? ==> Sound(fin, fout, r.value.d, r.value.err)
    ensures kept.Some? ==> r.Some?
    decreases NF_MAX - nfi
  {
    if nfi >= NF_MAX then kept else Turns(fin, fout, nfi + 1, Turn(fin, fout, nfi, kept))
  }

  // When the search finds a setting.

  /** Some multiplier from nfi on would be accepted as the first. */
  ghost predicate Acceptable(fin: real, fout: real, nfi: int)
    requires fin > 0.0 && 0.0 < fout <= VCO_MAX && 0 <= nfi
  {
    exists n: int | nfi <= n < NF_MAX :: Turn(fin, fout, n, None).Some?
  }

  /** Nothing is given up again, so what is found first decides whether anything is found. */
  lemma {:induction false} TurnsFind(fin: real, fout: real, nfi: int)
    requires fin > 0.0 && 0.0 < fout <= VCO_MAX && 0 <= nfi
    ensures Turns(fin, fout, nfi, None).Some? <==> Acceptable(fin, fout, nfi)
    decreases NF_MAX - nfi
  {
    hide Turn;
    if nfi < NF_MAX {
      var kept := Turn(fin, fout, nfi, None);
      if kept.None? {
        TurnsFind(fin, fout, nfi + 1);
      }
    }
  }

  /** An error so near a 64th that the search keeps it and the last test refuses it. */
  predicate Borderline(fin: real, fout: real, nfi: int)
    requires fin > 0.0 && fout > 0.0
  {
    && Reference(fin, fout, nfi) >= 1
    && TERR * (1.0 - LITTLE) <= Abs(Error(fin, fout, nfi)) < TERR * (1.0 + LITTLE)
  }

  /** A setting passes the last test. */
  predicate Passes(kept: Option<Kept>) {
    kept.Some? && Abs(kept.value.err) < TERR * (1.0 - LITTLE)
  }

  lemma TurnPasses(fin: real, fout: real, nfi: int, kept: Option<Kept>)
    requires fin > 0.0 && 0.0 < fout <= VCO_MAX && 0 <= nfi < NF_MAX && !Borderline(fin, fout, nfi)
    requires kept.Some? ==> Sound(fin, fout, kept.value.d, kept.value.err)
    requires kept.None? || Passes(kept)
    ensures var r := Turn(fin, fout, nfi, kept); r.None? || Passes(r)
  {
    hide Turn, Sound, Error, Reference;
  }

  /** Without a borderline multiplier everything kept passes the last test. */
  lemma {:induction false} TurnsPass(fin: real, fout: real, nfi: int, kept: Option<Kept>)
    requires fin > 0.0 && 0.0 < fout <= VCO_MAX && 0 <= nfi
    requires kept.Some? ==> Sound(fin, fout, kept.value.d, kept.value.err)
    requires forall n: int | nfi <= n < NF_MAX :: !Borderline(fin, fout, n)
    requires kept.None? || Passes(kept)
    ensures var r := Turns(fin, fout, nfi, kept); r.None? || Passes(r)
    decreases NF_MAX - nfi
  {
    hide Turn, Sound, Borderline, Passes;
    if nfi < NF_MAX {
      TurnPasses(fin, fout, nfi, kept);
      TurnsPass(fin, fout, nfi + 1, Turn(fin, fout, nfi, kept));
    }
  }

  // What the search finds from the crystal, in terms of the settings there are.

  /** How far multiplier nf and output divider no miss a request, relatively. */
  function Miss(freq: real, nf: int, no: int): real
    requires freq > 0.0 && no >= 1
  {
    1.0 - Output(IN0, Dividers(1, nf, no, nf)) / freq
  }

  /** The reference divider the search aims at, before rounding. */
  function Aim(freq: real, nf: int): real
    requires freq > 0.0
  {
    nf as real / (freq / IN0)
  }

  lemma MissAim(freq: real, nf: int, no: int)
    requires freq > 0.0 && no >= 1
    ensures Miss(freq, nf, no) == 1.0 - Aim(freq, nf) / no as real
    ensures Reference(IN0, freq, nf) == no ==> Error(IN0, freq, nf) == Miss(freq, nf, no)
  {
    hide Output;
    RelativeError(IN0, freq, Dividers(1, nf, no, nf), nf, no);
    SwapDivisors(nf as real, no as real, freq / IN0);
  }

  lemma SwapDivisors(a: real, b: real, c: real)
    requires b > 0.0 && c > 0.0
    ensures a / b / c == a / c / b
  {
    Regroup(a, b, c);
    Regroup(a, c, b);
    R.Commutes(b, c);
    R.Less(0.0, b, c);
    R.ProductIs(0.0, c);
    R.LessStrictly(0.0, b, c);
    hide R.Product;
    var (p, q, x) := (a / b / c, a / c / b, R.Product(b, c));
    if p < q {
      R.LessStrictly(p, q, x);
    } else if q < p {
      R.LessStrictly(q, p, x);
    }
  }

  /** A setting within a 64th, and a little more, of a request. */
  predicate Close(freq: real, nf: int, no: int) {
    && freq > 0.0 && 14 <= nf <= 63 && 1 <= no <= 16
    && Abs(Miss(freq, nf, no)) < TERR * (1.0 + LITTLE)
  }

  /** The search meets it with reference divider no, for a request the VCO can reach. */
  lemma CloseIsMet(freq: real, nf: int, no: int)
    requires Close(freq, nf, no)
    ensures Reference(IN0, freq, nf) == no && Error(IN0, freq, nf) == Miss(freq, nf, no)
    ensures freq <= VCO_MAX && no <= Most(freq) && Tried(IN0, freq, nf, TERR)
  {
    hide Output;
    MissAim(freq, nf, no);
    var (aim, x) := (Aim(freq, nf), no as real);
    AimNear(aim, no);
    CloseReaches(freq, nf, no);
    R.Quotients(IN0, x, x);
  }

  lemma AimNear(aim: real, no: int)
    requires 1 <= no <= 16 && Abs(1.0 - aim / no as real) < TERR * (1.0 + LITTLE)
    ensures Rint(aim) == no && aim > 0.984 * no as real
  {
    var x := no as real;
    hide Rint;
    R.CompareWith(aim, 1.0 - TERR * (1.0 + LITTLE), x);
    R.CompareWith(aim, 1.0 + TERR * (1.0 + LITTLE), x);
  }

  lemma CloseReaches(freq: real, nf: int, no: int)
    requires Close(freq, nf, no) && Aim(freq, nf) > 0.984 * no as real
    ensures freq <= VCO_MAX && no <= Most(freq)
  {
    hide R.Product, Miss;
    var (aim, x) := (Aim(freq, nf), no as real);
    AimTimes(freq, nf);
    R.Less(0.984 * x, aim, freq);
    Constant(0.984, x, freq);
    R.Compare(VCO_MAX, x, freq);
    R.Less(1.0, x, freq);
    R.ProductIs(1.0, freq);
  }

  lemma Constant(c: real, a: real, x: real)
    ensures R.Product(c * a, x) == c * R.Product(a, x)
  {
  }

  lemma AimTimes(freq: real, nf: int)
    requires freq > 0.0
    ensures R.Product(Aim(freq, nf), freq) == 26000000.0 * nf as real
  {
    var (n, val) := (nf as real, freq / IN0);
    R.CompareWith(freq, 0.0, IN0);
    R.Quotient(freq, IN0);
    R.Quotient(n, val);
    var aim := n / val;
    assert aim * val == n;
    assert freq == 26000000.0 * val;
    assert aim * freq == 26000000.0 * (aim * val);
  }

  /** How often such a setting is doubled, tripled and so on to raise the VCO. */
  function Extra(freq: real, nf: int, no: int): int
    requires freq > 0.0 && nf >= 1 && no >= 1
  {
    Smaller(Smaller(Most(freq), 16) / no, 64 / nf)
  }

  lemma LargestSelf(no: int, top: int)
    requires 1 <= no <= top
    ensures Largest(no, top) == no
  {
    hide Largest;
    assert no % no == 0;
  }

  lemma LeastMost(freq: real)
    requires freq > 0.0
    ensures 5 * (Ceil(VCO_MIN / freq) - 1) < Most(freq) + 1
  {
    hide Ceil;
    FiveTimes(freq);
  }

  lemma FiveTimes(freq: real)
    requires freq > 0.0
    ensures VCO_MAX / freq == 5.0 * (VCO_MIN / freq)
  {
  }

  /** A whole number of times no that fits top is more than half of it. */
  lemma MoreThanHalf(no: int, top: int)
    requires 1 <= no <= top
    ensures top / no >= 1 && no * (top / no) <= top && 2 * (no * (top / no)) > top
    ensures top == 16 ==> no * (top / no) >= 9
  {
    var q := top / no;
    assert top == no * q + top % no;
    assert no * q >= no;
  }

  /** The second branch of the scaling is taken. */
  lemma ScaleClose(most: int, least: int, nf: int, no: int, first: bool)
    requires 14 <= nf <= 63 && 1 <= no <= 16 && no <= most && 5 * (least - 1) < most + 1
    ensures var nor := Smaller(Smaller(most, 16) / no, 64 / nf);
            && nor >= 1 && nf * nor <= 64 && no * nor <= 16
            && (nf > 32 ==> nor == 1)
            && Scale(no, nf, most, least, no, first)
               == if nor <= 1 || first then Some(Dividers(1, nf * nor, no * nor, nf * nor)) else None
  {
    var top := Smaller(most, 16);
    MoreThanHalf(no, top);
    MoreThanHalf(nf, 64);
    var nor := Smaller(top / no, 64 / nf);
    TimesLess(no, nor, top / no);
    TimesLess(nf, nor, 64 / nf);
    assert 64 / nf <= 4;
    if nor == 64 / nf {
      assert no * nor >= 64 / nf;
    }
    assert no / no == 1;
  }

  lemma TimesLess(a: int, x: int, y: int)
    requires a >= 1 && 1 <= x <= y
    ensures a * x <= a * y && a * x >= x && a * x >= a
  {
  }

  lemma VcoOfCrystal(nf: int, no: int)
    requires 14 <= nf <= 64
    ensures VCO_MIN <= Vco(IN0, Dividers(1, nf, no, nf)) <= VCO_MAX && IN0 / 1.0 >= REF_MIN
  {
  }

  /** A turn that meets such a setting. */
  lemma TurnClose(freq: real, nf: int, no: int, kept: Option<Kept>)
    requires Close(freq, nf, no) && freq <= VCO_MAX
    requires kept.Some? ==> Sound(IN0, freq, kept.value.d, kept.value.err)
    ensures var r := Turn(IN0, freq, nf, kept);
            && r.Some? && (r == kept || r.value.err == Miss(freq, nf, no))
            && (kept.None? ==>
                  var nor := Extra(freq, nf, no);
                  r == Some(Kept(Dividers(1, nf * nor, no * nor, nf * nor), Miss(freq, nf, no))))
            && (nf > 32 && Abs(Miss(freq, nf, no)) < Bound(kept) * (1.0 - LITTLE) ==>
                  r.value.err == Miss(freq, nf, no))
  {
    hide Vco, Output, Reference, Error, Largest, Scale, Most;
    CloseIsMet(freq, nf, no);
    LargestSelf(no, Smaller(Most(freq), 16));
    LeastMost(freq);
    ScaleClose(Most(freq), Ceil(VCO_MIN / freq), nf, no, kept.None?);
    var nor := Extra(freq, nf, no);
    TimesLess(nf, nor, nor);
    VcoOfCrystal(nf * nor, no * nor);
    hide Ceil;
  }

  /** A setting that passes the last test. */
  predicate Near(freq: real, nf: int, no: int) {
    && freq > 0.0 && 14 <= nf <= 63 && 1 <= no <= 16
    && Abs(Miss(freq, nf, no)) < TERR * (1.0 - LITTLE)
  }

  /** The search has not passed its multiplier when it starts. */
  lemma NearIsAhead(freq: real, nf: int, no: int)
    requires Near(freq, nf, no)
    ensures 0 <= (freq / IN0).Floor <= nf && freq <= VCO_MAX
  {
    hide Output, Miss;
    CloseIsMet(freq, nf, no);
    MissAim(freq, nf, no);
    StartsBelow(IN0, freq);
    var (val, x) := (freq / IN0, no as real);
    R.CompareWith(freq, 0.0, IN0);
    R.CompareWith(Aim(freq, nf), 1.0 - TERR * (1.0 - LITTLE), x);
    assert Aim(freq, nf) > 63.0 / 64.0;
    R.CompareWith(nf as real, 63.0 / 64.0, val);
  }

  // Errors hardly grow once a setting is kept.

  /** How much at most in one turn. */
  const GROWTH: real := LITTLE / 50.0

  lemma TurnDrift(freq: real, nfi: int, kept: Option<Kept>, e: real)
    requires 0.0 < freq <= VCO_MAX && 0 <= nfi < NF_MAX
    requires kept.Some? && Sound(IN0, freq, kept.value.d, kept.value.err)
    requires Abs(kept.value.err) <= e <= 1.0 / 50.0 && TINY <= e
    ensures var r := Turn(IN0, freq, nfi, kept); r.Some? && Abs(r.value.err) <= e + GROWTH
  {
    hide Turn, Sound, Error, Reference;
  }

  lemma {:induction false} TurnsDrift(freq: real, nfi: int, kept: Option<Kept>, e: real)
    requires 0.0 < freq <= VCO_MAX && 0 <= nfi <= NF_MAX
    requires kept.Some? && Sound(IN0, freq, kept.value.d, kept.value.err)
    requires Abs(kept.value.err) <= e && TINY <= e && e + 64.0 * GROWTH <= 1.0 / 50.0 + nfi as real * GROWTH
    ensures var r := Turns(IN0, freq, nfi, kept);
            r.Some? && Abs(r.value.err) <= e + (64 - nfi) as real * GROWTH
    decreases NF_MAX - nfi
  {
    hide Turn, Sound, Abs;
    if nfi < NF_MAX {
      TurnDrift(freq, nfi, kept, e);
      TurnsDrift(freq, nfi + 1, Turn(IN0, freq, nfi, kept), e + GROWTH);
    }
  }

  /** Having met a setting, the search keeps none much worse. */
  lemma MetIsKept(freq: real, nf: int, no: int, kept: Option<Kept>)
    requires Near(freq, nf, no) && nf > 32 && freq <= VCO_MAX
    requires kept.Some? ==> Sound(IN0, freq, kept.value.d, kept.value.err)
    ensures var r := Turn(IN0, freq, nf, kept); r.Some? && Abs(r.value.err) <= Abs(Miss(freq, nf, no)) + LITTLE / 32.0
  {
    hide Turn, Sound, Miss, Extra;
    assert Close(freq, nf, no);
    TurnClose(freq, nf, no, kept);
  }

  lemma {:induction false} TurnsMeet(freq: real, nfi: int, kept: Option<Kept>, nf: int, no: int)
    requires Near(freq, nf, no) && nf > 32 && freq <= VCO_MAX && 0 <= nfi <= nf
    requires kept.Some? ==> Sound(IN0, freq, kept.value.d, kept.value.err)
    ensures var r := Turns(IN0, freq, nfi, kept);
            r.Some? && Abs(r.value.err) <= Abs(Miss(freq, nf, no)) + 2.0 * LITTLE
    decreases nf - nfi
  {
    hide Turn, Sound, Miss;
    var next := Turn(IN0, freq, nfi, kept);
    if nfi < nf {
      TurnsMeet(freq, nfi + 1, next, nf, no);
    } else {
      MetIsKept(freq, nf, no, kept);
      TurnsDrift(freq, nf + 1, next, Abs(Miss(freq, nf, no)) + LITTLE / 32.0);
    }
  }

  /** What the search keeps for a request to the crystal. */
  function FromCrystal(freq: real): Option<Kept>
    requires 0.0 < freq <= VCO_MAX
  {
    StartsBelow(IN0, freq);
    Turns(IN0, freq, (freq / IN0).Floor, None)
  }

  /** How good it is: hardly worse than any setting with a multiplier from 33 to 63. */
  lemma NearlyTheBest(freq: real, nf: int, no: int)
    requires Near(freq, nf, no) && nf > 32
    ensures freq <= VCO_MAX && FromCrystal(freq).Some?
    ensures Abs(FromCrystal(freq).value.err) <= Abs(Miss(freq, nf, no)) + 2.0 * LITTLE
  {
    hide Turns, Miss;
    NearIsAhead(freq, nf, no);
    TurnsMeet(freq, (freq / IN0).Floor, None, nf, no);
  }

  // Which requests succeed.

  /** What passes the last test is one of the settings that are near. */
  lemma FoundIsNear(freq: real) returns (nf: int, no: int)
    requires 0.0 < freq <= VCO_MAX && Passes(FromCrystal(freq))
    ensures Near(freq, nf, no)
  {
    hide Turns;
    var kept := FromCrystal(freq).value;
    SoundFromCrystal(freq, kept);
    nf, no := kept.d.nf, kept.d.no;
    if nf == 64 {
      HalfTheDividers(freq, no / 2);
      nf, no := 32, no / 2;
    }
  }

  lemma SoundFromCrystal(freq: real, kept: Kept)
    requires freq > 0.0 && Sound(IN0, freq, kept.d, kept.err)
    ensures kept.d.nr == 1 && 14 <= kept.d.nf <= 64 && 1 <= kept.d.no <= 16
    ensures Miss(freq, kept.d.nf, kept.d.no) == kept.err && (kept.d.nf == 64 ==> kept.d.no % 2 == 0)
  {
    ReferenceUndivided(kept.d.nr);
    SameOutput(kept.d);
    hide Output;
  }

  lemma SameOutput(d: Dividers)
    requires d.nr == 1 && d.no >= 1
    ensures Output(IN0, d) == Output(IN0, Dividers(1, d.nf, d.no, d.nf))
  {
  }

  lemma HalfTheDividers(freq: real, no: int)
    requires freq > 0.0 && no >= 1
    ensures Miss(freq, 64, 2 * no) == Miss(freq, 32, no)
  {
    SameRatio(IN0, Dividers(1, 64, 2 * no, 64), 32, no);
    SameRatio(IN0, Dividers(1, 32, no, 32), 32, no);
    hide Output;
  }

  /** A near setting makes the request succeed, unless some multiplier is borderline. */
  lemma NearIsFound(freq: real, nf: int, no: int)
    requires Near(freq, nf, no)
    requires forall n: int | (freq / IN0).Floor <= n < 64 :: !Borderline(IN0, freq, n)
    ensures freq <= VCO_MAX && Passes(FromCrystal(freq))
  {
    hide Turns, Turn, Miss, Borderline, Extra;
    NearIsAhead(freq, nf, no);
    var start := (freq / IN0).Floor;
    assert Close(freq, nf, no);
    TurnClose(freq, nf, no, None);
    TurnsFind(IN0, freq, start);
    TurnsPass(IN0, freq, start, None);
  }

  /** n is near m times val. */
  lemma MultipleMisses(freq: real, n: int, m: int)
    requires freq > 0.0 && 14 <= n <= 63 && 1 <= m <= 16
    requires R.Product(m as real, freq / IN0) > 0.0
    requires 65.0 * Abs(n as real - R.Product(m as real, freq / IN0)) <= R.Product(m as real, freq / IN0)
    ensures Near(freq, n, m) && Abs(Miss(freq, n, m)) <= 1.0 / 65.0
  {
    hide R.Product, Output;
    MissAim(freq, n, m);
    var (x, val) := (m as real, freq / IN0);
    R.CompareWith(freq, 0.0, IN0);
    SwapDivisors(n as real, x, val);
    Regroup(n as real, x, val);
    hide Miss, Aim;
    Within65(n as real / x / val, R.Product(x, val), n as real);
  }

  lemma Within65(q: real, x: real, n: real)
    requires x > 0.0 && R.Product(q, x) == n && 65.0 * Abs(n - x) <= x
    ensures Abs(1.0 - q) <= 1.0 / 65.0
  {
    hide R.Product;
    var t := 1.0 / 65.0;
    if q < 1.0 - t {
      R.LessStrictly(q, 1.0 - t, x);
    }
    if q > 1.0 + t {
      R.LessStrictly(1.0 + t, q, x);
    }
    R.ProductIs(1.0 - t, x);
    R.ProductIs(1.0 + t, x);
  }

  /** Some multiple of a ratio between 2.03125 and 63.5 lies within a half of a number from 33 to
      63, but for ratios around 32. */
  lemma HighMultiple(val: real) returns (m: int, n: int)
    requires 2.03125 <= val <= 63.5 && !(31.75 <= val < 32.5)
    ensures 1 <= m <= 16 && 33 <= n <= 63 && R.Product(m as real, val) >= 32.5
    ensures -0.5 <= n as real - R.Product(m as real, val) <= 0.5
  {
    hide R.Product;
    if val <= 31.0 {
      m := HighSmallest(val);
      n := (R.Product(m as real, val) + 0.5).Floor;
    } else if val < 31.75 {
      m := 2;
      R.ProductIs(2.0, val);
      n := (2.0 * val + 0.5).Floor;
    } else {
      m := 1;
      R.ProductIs(1.0, val);
      n := if val < 63.0 then (val + 0.5).Floor else 63;
    }
  }

  lemma HighSmallest(val: real) returns (m: int)
    requires 2.03125 <= val <= 31.0
    ensures 1 <= m <= 16 && 32.5 <= R.Product(m as real, val) < 63.5
  {
    hide R.Product;
    var q := 32.5 / val;
    m := Ceil(q);
    R.CompareWith(32.5, 0.0, val);
    R.CompareWith(32.5, 16.0, val);
    R.Compare(32.5, m as real, val);
    R.Compare(32.5, m as real - 1.0, val);
    R.Sum(m as real, -1.0, val);
    R.ProductIs(-1.0, val);
  }

  /** Every request from 52.8125 MHz to 1651 MHz succeeds. */
  lemma MiddleSucceeds(freq: real)
    requires 52812500.0 <= freq <= 1651000000.0
    ensures Passes(FromCrystal(freq))
  {
    hide Turns, Turn, Miss, R.Product;
    var val := freq / IN0;
    if 31.75 <= val < 32.5 {
      AroundThirtyTwo(freq);
    } else {
      R.CompareWith(freq, 2.03125, IN0);
      R.CompareWith(freq, 63.5, IN0);
      var m, n := HighMultiple(val);
      MultipleMisses(freq, n, m);
      NearlyTheBest(freq, n, m);
    }
  }

  /** Around 32 times the crystal the multiplier 32 is the first to be kept. */
  lemma AroundThirtyTwo(freq: real)
    requires 0.0 < freq <= VCO_MAX && 31.75 <= freq / IN0 < 32.5
    ensures Passes(FromCrystal(freq))
  {
    hide Turn, Miss, Extra, Sound, Passes, Near, Abs;
    ThirtyTwoFirst(freq);
    ThirtyTwoMisses(freq);
    TurnClose(freq, 32, 1, None);
    var kept := Turn(IN0, freq, 32, None);
    TurnsDrift(freq, 33, kept, 1.0 / 65.0);
    DriftPasses(Turns(IN0, freq, 33, kept));
  }

  lemma ThirtyTwoFirst(freq: real)
    requires 0.0 < freq <= VCO_MAX && 31.75 <= freq / IN0 < 32.5
    ensures FromCrystal(freq) == Turns(IN0, freq, 32, None)
  {
    hide Turn, Sound;
    var val := freq / IN0;
    if val.Floor == 31 {
      ThirtyOneIsFar(freq);
      assert Turn(IN0, freq, 31, None) == None;
    }
  }

  lemma ThirtyTwoMisses(freq: real)
    requires freq > 0.0 && 31.75 <= freq / IN0 < 32.5
    ensures Close(freq, 32, 1) && Abs(Miss(freq, 32, 1)) <= 1.0 / 65.0
  {
    hide Miss, R.Product;
    R.ProductIs(1.0, freq / IN0);
    MultipleMisses(freq, 32, 1);
  }

  lemma DriftPasses(kept: Option<Kept>)
    requires kept.Some? && Abs(kept.value.err) <= 1.0 / 65.0 + 31.0 * GROWTH
    ensures Passes(kept)
  {
  }

  lemma ThirtyOneIsFar(freq: real)
    requires freq > 0.0 && 31.75 <= freq / IN0 < 32.0
    ensures !Tried(IN0, freq, 31, TERR)
  {
    hide Rint;
    var val := freq / IN0;
    R.CompareWith(31.0, 0.9, val);
    R.CompareWith(31.0, 0.98, val);
    assert Reference(IN0, freq, 31) == 1;
  }

  // An exact setting is kept exactly.

  /** For a frequency in Hz an error below the least one counted is none. */
  lemma TinyIsZero(freq: int, nfi: int)
    requires 1 <= freq < 0x1_0000_0000 && 0 <= nfi < NF_MAX && Reference(IN0, freq as real, nfi) >= 1
    requires Abs(Error(IN0, freq as real, nfi)) < TINY
    ensures Error(IN0, freq as real, nfi) == 0.0
  {
    var nr := Reference(IN0, freq as real, nfi);
    MissAim(freq as real, nfi, nr);
    AimTimes(freq as real, nfi);
    RoundedProduct(freq, nfi, nr);
    Ratio(Aim(freq as real, nfi), nr, freq, nfi);
  }

  lemma RoundedProduct(freq: int, nfi: int, nr: int)
    requires 1 <= freq < 0x1_0000_0000 && 0 <= nfi < NF_MAX && nr == Reference(IN0, freq as real, nfi)
    ensures R.Product(nr as real, freq as real) <= 6000000000.0
  {
    hide R.Product, Rint;
    var (aim, f) := (Aim(freq as real, nfi), freq as real);
    AimTimes(f, nfi);
    R.Less(nr as real, aim + 0.5, f);
    R.Sum(aim, 0.5, f);
    R.ProductIs(0.5, f);
  }

  lemma Ratio(aim: real, nr: int, freq: int, nfi: int)
    requires nr >= 1 && freq >= 1 && R.Product(aim, freq as real) == 26000000.0 * nfi as real
    requires R.Product(nr as real, freq as real) <= 6000000000.0 && Abs(1.0 - aim / nr as real) < TINY
    ensures 1.0 - aim / nr as real == 0.0
  {
    hide R.Product;
    var (x, f) := (nr as real, freq as real);
    WholeProduct(nr, freq);
    Constant(1.0 - TINY, x, f);
    Constant(1.0 + TINY, x, f);
    R.CompareWith(aim, 1.0 - TINY, x);
    R.CompareWith(aim, 1.0 + TINY, x);
    R.Less((1.0 - TINY) * x, aim, f);
    R.Less(aim, (1.0 + TINY) * x, f);
    assert nr * freq == 26000000 * nfi;
    SameProduct(aim, x, f);
  }

  lemma WholeProduct(a: int, b: int)
    ensures R.Product(a as real, b as real) == (a * b) as real
  {
  }

  lemma SameProduct(a: real, b: real, x: real)
    requires x > 0.0 && b > 0.0 && R.Product(a, x) == R.Product(b, x)
    ensures a / b == 1.0
  {
    hide R.Product;
    if a < b {
      R.LessStrictly(a, b, x);
    } else if b < a {
      R.LessStrictly(b, a, x);
    }
  }

  lemma {:induction false} TurnsZero(freq: int, nfi: int, kept: Option<Kept>)
    requires 1 <= freq && freq as real <= VCO_MAX && 0 <= nfi <= NF_MAX
    requires kept.Some? && Sound(IN0, freq as real, kept.value.d, kept.value.err) && kept.value.err == 0.0
    ensures Turns(IN0, freq as real, nfi, kept).Some? && Turns(IN0, freq as real, nfi, kept).value.err == 0.0
    decreases NF_MAX - nfi
  {
    hide Turn, Sound, Error, Reference;
    if nfi < NF_MAX {
      var next := Turn(IN0, freq as real, nfi, kept);
      if next != kept {
        TinyIsZero(freq, nfi);
      }
      TurnsZero(freq, nfi + 1, next);
    }
  }

  lemma {:induction false} TurnsExact(freq: int, nfi: int, kept: Option<Kept>, nf: int, no: int)
    requires 1 <= freq && freq as real <= VCO_MAX && 0 <= nfi <= nf && 33 <= nf <= 63 && 1 <= no <= 16
    requires Miss(freq as real, nf, no) == 0.0
    requires kept.Some? ==> Sound(IN0, freq as real, kept.value.d, kept.value.err)
    ensures Turns(IN0, freq as real, nfi, kept).Some? && Turns(IN0, freq as real, nfi, kept).value.err == 0.0
    decreases nf - nfi
  {
    hide Turn, Sound, Miss, Extra;
    var next := Turn(IN0, freq as real, nfi, kept);
    if nfi < nf {
      TurnsExact(freq, nfi + 1, next, nf, no);
    } else {
      assert Close(freq as real, nf, no);
      TurnClose(freq as real, nf, no, kept);
      TurnsZero(freq, nf + 1, next);
    }
  }

  /** If some multiplier from 33 to 63 and some divider give the request exactly, so does what is
      kept. */
  lemma ExactIsKept(freq: int, nf: int, no: int)
    requires freq >= 1 && 33 <= nf <= 63 && 1 <= no <= 16 && Miss(freq as real, nf, no) == 0.0
    ensures freq as real <= VCO_MAX && Passes(FromCrystal(freq as real)) && FromCrystal(freq as real).value.err == 0.0
  {
    hide Turns, Miss;
    assert Near(freq as real, nf, no);
    NearIsAhead(freq as real, nf, no);
    TurnsExact(freq, (freq as real / IN0).Floor, None, nf, no);
  }

  // The request of the boot code.

  lemma Far800(nfi: int)
    requires nfi == 30 || 32 <= nfi <= 61 || nfi == 63
    ensures Reference(IN0, 800000000.0, nfi) == if nfi < 47 then 1 else 2
    ensures Abs(Error(IN0, 800000000.0, nfi)) >= if nfi == 30 then 0.02 else 0.008
  {
    hide Abs, Rint;
    assert 800000000.0 / IN0 == 400.0 / 13.0;
    assert nfi as real / (400.0 / 13.0) == 0.0325 * nfi as real;
    assert Reference(IN0, 800000000.0, nfi) == if nfi < 47 then 1 else 2;
    Error800(nfi);
  }

  lemma Error800(nfi: int)
    requires nfi == 30 || 32 <= nfi <= 61 || nfi == 63
    requires Reference(IN0, 800000000.0, nfi) == if nfi < 47 then 1 else 2
    ensures Abs(Error(IN0, 800000000.0, nfi)) >= if nfi == 30 then 0.02 else 0.008
  {
    hide Rint;
    assert 800000000.0 / IN0 == 400.0 / 13.0;
  }

  function Kept800(): Kept {
    Kept(Dividers(1, 62, 2, 62), -0.0075)
  }

  lemma First800()
    ensures Turn(IN0, 800000000.0, 31, None) == Some(Kept800())
  {
    assert Miss(800000000.0, 31, 1) == -0.0075;
    assert Most(800000000.0) == 2;
    hide Miss, Turn, Most;
    TurnClose(800000000.0, 31, 1, None);
  }

  lemma Kept800IsSound()
    ensures Sound(IN0, 800000000.0, Kept800().d, Kept800().err)
  {
  }

  lemma Again800()
    requires Sound(IN0, 800000000.0, Kept800().d, Kept800().err)
    ensures Turn(IN0, 800000000.0, 62, Some(Kept800())) == Some(Kept800())
  {
  }

  lemma {:induction false} Rest800(nfi: int)
    requires 32 <= nfi <= 64 && Sound(IN0, 800000000.0, Kept800().d, Kept800().err)
    ensures Turns(IN0, 800000000.0, nfi, Some(Kept800())) == Some(Kept800())
    decreases 64 - nfi
  {
    hide Turn, Sound, Error, Reference;
    if nfi < 64 {
      if nfi == 62 {
        Again800();
      } else {
        Far800(nfi);
      }
      Rest800(nfi + 1);
    }
  }

  /** 800 MHz, what the boot code asks for, gives 26 MHz * 62 / 2. */
  lemma Boot800()
    ensures FromCrystal(800000000.0) == Some(Kept800())
  {
    hide Turn, Sound, Error, Reference, Kept800;
    assert (800000000.0 / IN0).Floor == 30;
    Far800(30);
    First800();
    Kept800IsSound();
    Rest800(32);
  }

  // When the search divides by zero.

  /** Some turn goes on to the output dividers while nothing is kept. */
  ghost predicate Reached(fin: real, fout: real)
    requires fin > 0.0 && fout > 0.0
  {
    exists n: int | (fout / fin).Floor <= n < NF_MAX :: Tried(fin, fout, n, TERR)
  }

  /** Rounding a multiple m of val gives a multiplier whose reference divider is m. */
  lemma Rounded(val: real, m: int, n: int)
    requires val > 1.0 && m >= 1
    requires -0.5 * val < n as real - R.Product(m as real, val) < 0.5 * val
    ensures Rint(n as real / val) == m
  {
    var (a, b) := (n as real, m as real);
    hide Rint, R.Product;
    R.Sum(b, 0.5, val);
    R.Sum(b, -0.5, val);
    R.ProductIs(0.5, val);
    R.ProductIs(-0.5, val);
    R.Compare(a, b + 0.5, val);
    R.Compare(a, b - 0.5, val);
  }

  /** Some multiple of val lies near a number below 64, to a 64th of itself. */
  lemma NearMultiple(val: real) returns (m: int, n: int)
    requires 1.0 < val < 64.0
    ensures m >= 1 && val.Floor <= n < NF_MAX
    ensures -0.5 * val < n as real - R.Product(m as real, val) < 0.5 * val
    ensures NearTo(R.Product(m as real, val), n as real)
  {
    hide R.Product;
    if val <= 31.5 {
      m := SmallestMultiple(val);
      n := NearNumber(R.Product(m as real, val), val);
    } else if val < 31.75 {
      m, n := 2, 63;
      R.ProductIs(2.0, val);
    } else {
      m := 1;
      n := if val < 63.5 then Rint(val) else 63;
      R.ProductIs(1.0, val);
    }
  }

  /** To a 64th of x. */
  predicate NearTo(x: real, n: real) {
    -x <= 64.0 * (x - n) <= x
  }

  lemma NearNumber(x: real, val: real) returns (n: int)
    requires 32.0 <= x < 63.5 && 1.0 < val <= x
    ensures val.Floor <= n < NF_MAX && -0.5 * val < n as real - x < 0.5 * val
    ensures NearTo(x, n as real)
  {
    n := Rint(x);
  }

  lemma SmallestMultiple(val: real) returns (m: int)
    requires 1.0 < val <= 31.5
    ensures m >= 1 && 32.0 <= R.Product(m as real, val) < 63.5 && val <= R.Product(m as real, val)
  {
    hide R.Product;
    var q := 32.0 / val;
    m := Ceil(q);
    R.CompareWith(32.0, 0.0, val);
    R.Compare(32.0, m as real, val);
    R.Compare(32.0, m as real - 1.0, val);
    R.Sum(m as real, -1.0, val);
    R.ProductIs(-1.0, val);
    R.Less(1.0, m as real, val);
    R.ProductIs(1.0, val);
  }

  /** Beyond the VCO limit, with an input no PLL exceeds, the loop gets to the output dividers
      exactly for requests below 64 times the input. */
  lemma ReachedIff(fin: real, fout: real)
    requires 0.0 < fin <= REF_MAX && fout > VCO_MAX
    ensures Reached(fin, fout) <==> fout < 64.0 * fin
  {
    StartsBelow(fin, fout);
    if fout < 64.0 * fin {
      var val := fout / fin;
      ValueBetween(fin, fout);
      var m, n := NearMultiple(val);
      NearIsTried(fin, fout, m, n);
    }
  }

  lemma NearIsTried(fin: real, fout: real, m: int, n: int)
    requires 0.0 < fin <= REF_MAX && fin < fout && fout / fin > 1.0 && m >= 1
    requires -0.5 * (fout / fin) < n as real - R.Product(m as real, fout / fin) < 0.5 * (fout / fin)
    requires NearTo(R.Product(m as real, fout / fin), n as real)
    ensures Tried(fin, fout, n, TERR)
  {
    NearError(fout / fin, m, n);
    hide Rint, Abs, R.Product, NearTo;
    R.Quotients(fin, m as real, m as real);
  }

  lemma NearError(val: real, m: int, n: int)
    requires val > 1.0 && m >= 1
    requires -0.5 * val < n as real - R.Product(m as real, val) < 0.5 * val
    requires NearTo(R.Product(m as real, val), n as real)
    ensures Rint(n as real / val) == m && Abs(1.0 - n as real / m as real / val) <= TERR
  {
    Rounded(val, m, n);
    hide Rint, NearTo;
    NearFraction(n as real, m as real, val);
  }

  lemma NearFraction(n: real, m: real, val: real)
    requires m >= 1.0 && val > 1.0 && NearTo(R.Product(m, val), n)
    ensures Abs(1.0 - n / m / val) <= TERR
  {
    hide R.Product;
    R.Less(1.0, m, val);
    R.ProductIs(1.0, val);
    Regroup(n, m, val);
    Within(n / m / val, R.Product(m, val), n);
  }

  lemma Regroup(n: real, m: real, val: real)
    requires m > 0.0 && val > 0.0
    ensures R.Product(n / m / val, R.Product(m, val)) == n
  {
    var (p, q) := (n / m, n / m / val);
    R.Quotient(n, m);
    R.Quotient(p, val);
    assert q * val * m == q * (m * val);
  }

  lemma Within(q: real, x: real, n: real)
    requires x > 0.0 && R.Product(q, x) == n && NearTo(x, n)
    ensures Abs(1.0 - q) <= TERR
  {
    hide R.Product;
    if q < 1.0 - TERR {
      R.LessStrictly(q, 1.0 - TERR, x);
    }
    if q > 1.0 + TERR {
      R.LessStrictly(1.0 + TERR, q, x);
    }
    R.ProductIs(1.0 - TERR, x);
    R.ProductIs(1.0 + TERR, x);
  }

  lemma ValueBetween(fin: real, fout: real)
    requires 0.0 < fin < fout < 64.0 * fin
    ensures 1.0 < fout / fin < 64.0
  {
    R.CompareWith(fout, 1.0, fin);
    R.CompareWith(fout, 64.0, fin);
  }

  /** PLL0 or PLL1 at 1014 MHz, fed into PLL2 and asked for twice that, makes it divide by zero. */
  lemma ZeroDivider() returns (fin: int, g: Register)
    ensures FitsFields(g) && fin == Output(IN0, Setting(g)).Floor == 1014000000
    ensures Reached(fin as real, 2028000000.0) && Most(2028000000.0) == 0
  {
    g := Register(0, 38, 0, 38);
    fin := 1014000000;
    ReachedIff(1014000000.0, 2028000000.0);
    AtLeastOne(2028000000.0);
  }

  datatype Outcome = Found(d: Dividers) | NotFound | DividedByZero

  lemma Divided(fin: real, fout: real)
    requires fin > 0.0 && fout > 0.0
    ensures fin <= REF_MAX ==> (fout > VCO_MAX && Reached(fin, fout) <==> VCO_MAX < fout < 64.0 * fin)
  {
    if fin <= REF_MAX && fout > VCO_MAX {
      ReachedIff(fin, fout);
    }
  }

  /** A turn that gets to the output dividers. */
  method Advance(fin: real, fout: real, nfi: int, kept: Option<Kept>) returns (r: Option<Kept>)
    requires fin > 0.0 && 0.0 < fout <= VCO_MAX && 0 <= nfi < NF_MAX && Tried(fin, fout, nfi, Bound(kept))
    requires kept.Some? ==> Sound(fin, fout, kept.value.d, kept.value.err)
    ensures r == Turn(fin, fout, nfi, kept)
  {
    AtLeastOne(fout);
    var no := LargestDivisor(Reference(fin, fout, nfi), Smaller(Most(fout), NO_MAX));
    var better := Consider(fin, fout, nfi, kept, no);
    r := if better.Some? then better else kept;
  }

  lemma SoundWithin(fin: real, fout: real, kept: Kept)
    requires fout > 0.0 && Sound(fin, fout, kept.d, kept.err)
    ensures InRange(kept.d) && VCO_MIN <= Vco(fin, kept.d) <= VCO_MAX && fin / kept.d.nr as real >= REF_MIN
    ensures Output(fin, kept.d) / fout == 1.0 - kept.err
  {
  }

  /** The search, for every input and every request. It divides by zero exactly when a turn gets
      to the output dividers for a request beyond the VCO limit. What it finds is within the
      limits and within a 64th of the request; it finds something exactly when some multiplier is
      acceptable, but for borderline errors. */
  method Search(fin: real, fout: real) returns (r: Outcome)
    requires fin > 0.0 && fout > 0.0
    ensures r.DividedByZero? <==> fout > VCO_MAX && Reached(fin, fout)
    ensures fin <= REF_MAX ==> (r.DividedByZero? <==> VCO_MAX < fout < 64.0 * fin)
    ensures r.Found? ==> InRange(r.d) && VCO_MIN <= Vco(fin, r.d) <= VCO_MAX
    ensures r.Found? ==> Abs(1.0 - Output(fin, r.d) / fout) < TERR && fin / r.d.nr as real >= REF_MIN
    ensures (fout / fin).Floor >= 0
    ensures fout <= VCO_MAX ==>
              var kept := Turns(fin, fout, (fout / fin).Floor, None);
              if Passes(kept) then r == Found(kept.value.d) else r.NotFound?
    ensures r.Found? ==> fout <= VCO_MAX && Acceptable(fin, fout, (fout / fin).Floor)
    ensures r.NotFound? && fout <= VCO_MAX && Acceptable(fin, fout, (fout / fin).Floor) ==>
              exists n: int | (fout / fin).Floor <= n < NF_MAX :: Borderline(fin, fout, n)
  {
    hide Turn, Tried, Sound, Borderline, Vco, Output, InRange, Acceptable;
    var kept: Option<Kept> := None;
    var nfi := (fout / fin).Floor;
    StartsBelow(fin, fout);
    AtLeastOne(fout);
    ghost var start := nfi;
    while nfi < NF_MAX
      invariant start <= nfi
      invariant kept.Some? ==> fout <= VCO_MAX && Sound(fin, fout, kept.value.d, kept.value.err)
      invariant fout <= VCO_MAX ==> Turns(fin, fout, start, None) == Turns(fin, fout, nfi, kept)
      invariant fout > VCO_MAX ==> forall n: int | start <= n < nfi :: !Tried(fin, fout, n, TERR)
    {
      if Tried(fin, fout, nfi, Bound(kept)) {
        if Most(fout) < 1 {
          Divided(fin, fout);
          return DividedByZero;
        }
        kept := Advance(fin, fout, nfi, kept);
      }
      nfi := nfi + 1;
    }
    r := if Passes(kept) then Found(kept.value.d) else NotFound;
    if kept.Some? {
      SoundWithin(fin, fout, kept.value);
    }
    if fout <= VCO_MAX {
      TurnsFind(fin, fout, start);
      if !exists n: int | start <= n < NF_MAX :: Borderline(fin, fout, n) {
        TurnsPass(fin, fout, start, None);
      }
    }
    Divided(fin, fout);
    hide Vco, Output, Turns, Acceptable, Reached;
  }

  lemma StartsBelow(fin: real, fout: real)
    requires fin > 0.0 && fout > 0.0
    ensures (fout / fin).Floor >= 0 && ((fout / fin).Floor < 64 ==> fout < 64.0 * fin)
  {
    var val := fout / fin;
    assert val * fin == fout;
    if val < 64.0 {
      assert val * fin < 64.0 * fin;
    }
  }

  /** With the 26 MHz crystal the reference stays above its minimum only undivided. */
  lemma ReferenceUndivided(nr: int)
    requires nr >= 1 && IN0 / nr as real >= REF_MIN
    ensures nr == 1
  {
  }

  /** Every `int` the search computes from a double fits in 32 bits: from the crystal for every
      request, from a PLL for requests of 50 Hz and more. */
  lemma ConversionsFit(fin: int, freq: int, nfi: int)
    requires 1 <= freq < 0x1_0000_0000 && 0 <= nfi < NF_MAX
    requires fin == 26000000 || (3 <= fin <= 1664000000 && freq >= 50)
    ensures 0 <= Reference(fin as real, freq as real, nfi) < 0x8000_0000
    ensures 0 <= Most(freq as real) < 0x8000_0000 && 0 <= Ceil(VCO_MIN / freq as real) < 0x8000_0000
    ensures 0 <= (freq as real / fin as real).Floor < 0x8000_0000
  {
    var (a, b, n) := (fin as real, freq as real, nfi as real);
    hide Rint, Ceil;
    R.CompareWith(b, 0.0, a);
    R.CompareWith(b, 2147483647.0, a);
    R.CompareWith(VCO_MAX, 0.0, b);
    R.CompareWith(VCO_MAX, 2147483647.0, b);
    R.CompareWith(VCO_MIN, 0.0, b);
    R.CompareWith(VCO_MIN, 2147483646.0, b);
    var val := b / a;
    R.CompareWith(n, 0.0, val);
    R.CompareWith(n, 2147483647.0, val);
    R.CompareWith(b, 64.0 / 2147483647.0, a);
  }

  /** One setting reaches its request, in a search of one turn. */
  lemma FoundOnce()
    ensures Turns(IN0, 1638000000.0, (1638000000.0 / IN0).Floor, None) == Some(Kept(Dividers(1, 63, 1, 63), 0.0))
  {
  }

  /** Another is kept and then refused. */
  lemma BorderlineHappens()
    ensures var kept := Turns(IN0, 1663999999.0, (1663999999.0 / IN0).Floor, None); kept.Some? && !Passes(kept)
  {
  }

  /** The register fields hold one less than the value, in 4, 6, 4 and 6 bits. */
  datatype Register = Register(clkr: int, clkf: int, clkod: int, bwadj: int)

  predicate FitsFields(g: Register) {
    0 <= g.clkr < 16 && 0 <= g.clkf < 64 && 0 <= g.clkod < 16 && 0 <= g.bwadj < 64
  }

  function Setting(g: Register): (d: Dividers)
    ensures FitsFields(g) ==> InRange(d)
  {
    Dividers(g.clkr + 1, g.clkf + 1, g.clkod + 1, g.bwadj + 1)
  }

  /** What PLL0 and PLL1 read as. */
  lemma ReadingBounded(g: Register)
    requires FitsFields(g)
    ensures 101562 <= Output(IN0, Setting(g)).Floor <= 1664000000
  {
    var d := Setting(g);
    VcoBounded(d);
    hide Setting, Vco;
    R.Quotients(Vco(IN0, d), d.no as real, 16.0);
  }

  lemma VcoBounded(d: Dividers)
    requires InRange(d)
    ensures 1625000.0 <= Vco(IN0, d) <= 1664000000.0
  {
    hide R.Product;
    R.Quotients(IN0, d.nr as real, 16.0);
    ProductBounded(IN0 / d.nr as real, d.nf as real);
    R.ProductIs(IN0 / d.nr as real, d.nf as real);
  }

  lemma ProductBounded(x: real, y: real)
    requires 1625000.0 <= x <= 26000000.0 && 1.0 <= y <= 64.0
    ensures 1625000.0 <= R.Product(x, y) <= 1664000000.0
  {
    hide R.Product;
    R.Commutes(x, y);
    R.Less(1.0, y, x);
    R.Less(y, 64.0, x);
    R.ProductIs(1.0, x);
    R.ProductIs(64.0, x);
  }

  datatype Which = PLL0 | PLL1 | PLL2

  /** `sysctl_clock_source_t`; the last stands for PLL2 and ACLK, which no PLL takes. */
  datatype Source = Crystal | FromPLL0 | FromPLL1 | OtherSource

  /** The frequency set, 0 for none, or a division by zero. */
  datatype Reply = Frequency(freq: int) | ZeroDivision

  class Sysctl {
    var pll0: Register
    var pll1: Register
    var pll2: Register
    var select: int

    predicate Valid()
      reads this
    {
      FitsFields(pll0) && FitsFields(pll1) && FitsFields(pll2) && 0 <= select < 4
    }

    function At(pll: Which): Register
      reads this
    {
      match pll
      case PLL0 => pll0
      case PLL1 => pll1
      case PLL2 => pll2
    }

    /** The frequency of a source of PLL2, 0 for what it does not take. */
    function Input(source: Source): int
      requires Valid()
      reads this
    {
      match source
      case Crystal => 26000000
      case FromPLL0 => Output(IN0, Setting(pll0)).Floor
      case FromPLL1 => Output(IN0, Setting(pll1)).Floor
      case OtherSource => 0
    }

    /** `get_source_pll2`. */
    function Selected(): Source
      reads this
    {
      if select == 0 then Crystal else if select == 1 then FromPLL0 else if select == 2 then FromPLL1 else OtherSource
    }

    /** The frequency that comes into a PLL. */
    function Feed(pll: Which): int
      requires Valid()
      reads this
    {
      if pll == PLL2 then Input(Selected()) else 26000000
    }

    /** `sysctl_pll_get_freq`. */
    method GetFreq(pll: Which) returns (freq: int)
      requires Valid()
      ensures freq == Output(Feed(pll) as real, Setting(At(pll))).Floor
      decreases pll == PLL2
    {
      hide Vco, Output;
      var g := At(pll);
      var fin := 26000000;
      if pll == PLL2 {
        if select >= 3 {
          ZeroFeed(Setting(g));
          return 0;
        }
        fin := SourceFreq(Selected());
      }
      freq := Output(fin as real, Setting(g)).Floor;
    }

    /** `sysctl_clock_source_get_freq` for the sources of PLL2. */
    method SourceFreq(source: Source) returns (freq: int)
      requires Valid() && source != OtherSource
      ensures freq == Input(source)
      decreases true, 0
    {
      if source == Crystal {
        return 26000000;
      }
      freq := GetFreq(if source == FromPLL0 then PLL0 else PLL1);
    }

    /** `sysctl_pll_source_set_freq`, for every source and every frequency but 0. PLL0 and PLL1 take
        the crystal only. On success the output is within a 64th of the request and the VCO within
        its limits; otherwise nothing is written. Only PLL2 on a PLL can divide by zero, and does
        so exactly when the request is beyond the VCO limit and below 64 times the input. */
    method SetFreq(pll: Which, source: Source, freq: int) returns (r: Reply)
      requires Valid() && 1 <= freq < 0x1_0000_0000
      modifies this
      ensures Valid()
      ensures forall other: Which | other != pll :: At(other) == old(At(other))
      ensures pll != PLL2 ==> select == old(select)
      ensures r == ZeroDivision <==>
              pll == PLL2 && source != Crystal && VCO_MAX < freq as real < 64.0 * old(Input(source)) as real
      ensures r.Frequency? && r.freq != 0 ==>
                && (pll == PLL2 ==> Selected() == source) && Feed(pll) == old(Input(source)) && Feed(pll) > 0
                && r.freq == Output(Feed(pll) as real, Setting(At(pll))).Floor
                && InRange(Setting(At(pll))) && (source == Crystal ==> Setting(At(pll)).nr == 1)
                && VCO_MIN <= Vco(Feed(pll) as real, Setting(At(pll))) <= VCO_MAX
                && Abs(1.0 - Output(Feed(pll) as real, Setting(At(pll))) / freq as real) < TERR
      ensures !(r.Frequency? && r.freq != 0) ==> At(pll) == old(At(pll)) && select == old(select)
      ensures source == Crystal && 52812500 <= freq <= 1651000000 ==> r.Frequency? && r.freq != 0
      ensures source == Crystal && r.Frequency? && r.freq != 0 ==>
                && SomethingNear(freq as real)
                && NoneMuchBetter(freq as real, 1.0 - Output(26000000.0, Setting(At(pll))) / freq as real)
      ensures r.Frequency? && r.freq != 0 ==>
                && Feed(pll) > 0 && freq as real <= VCO_MAX && Best(Feed(pll), freq).Some?
                && Setting(At(pll)) == Best(Feed(pll), freq).value.d
      ensures r.Frequency? ==> (
                r.freq != 0 <==>
                && (pll != PLL2 ==> source == Crystal) && old(Input(source)) > 0 && freq as real <= VCO_MAX
                && Passes(Best(old(Input(source)), freq)))
    {
      hide Vco, Output, Turns, Acceptable, Reached, Borderline, SomethingNear, NoneMuchBetter, Abs;
      if source == Crystal {
        CrystalLaws(freq);
      }
      if source == OtherSource || (pll != PLL2 && source != Crystal) {
        return Frequency(0);
      }
      var fin := SourceFreq(source);
      FeedBounded(source);
      var found := Search(fin as real, freq as real);
      if found.DividedByZero? {
        return ZeroDivision;
      }
      if found.NotFound? {
        return Frequency(0);
      }
      var d := found.d;
      if source == Crystal {
        ReferenceUndivided(d.nr);
      }
      OutputLarge(fin as real, d);
      var g := Register(d.nr - 1, d.nf - 1, d.no - 1, d.nb - 1);
      assert Setting(g) == d;
      match pll {
        case PLL0 => pll0 := g;
        case PLL1 => pll1 := g;
        case PLL2 =>
          select := if source == Crystal then 0 else if source == FromPLL0 then 1 else 2;
          pll2 := g;
      }
      var f := GetFreq(pll);
      r := Frequency(f);
    }

    /** The boot code's request: PLL0 at 800 MHz. */
    method Boot() returns (r: Reply)
      requires Valid()
      modifies this
      ensures Valid() && r == Frequency(806000000) && Setting(pll0) == Dividers(1, 62, 2, 62)
      ensures pll1 == old(pll1) && pll2 == old(pll2) && select == old(select)
    {
      hide Turns, Vco, SomethingNear, NoneMuchBetter, Borderline;
      Boot800();
      assert Output(26000000.0, Dividers(1, 62, 2, 62)) == 806000000.0 by {
        Output806();
      }
      hide Output;
      var p1, p2 := At(PLL1), At(PLL2);
      r := SetFreq(PLL0, Crystal, 800000000);
      assert At(PLL1) == p1 && At(PLL2) == p2;
    }

    lemma FeedBounded(source: Source)
      requires Valid() && source != OtherSource
      ensures 101562 <= Input(source) <= 1664000000
    {
      ReadingBounded(pll0);
      ReadingBounded(pll1);
    }
  }

  /** What is known of a request to the crystal. */
  lemma CrystalLaws(freq: int)
    requires 1 <= freq < 0x1_0000_0000
    ensures 52812500 <= freq <= 1651000000 ==> Passes(Best(26000000, freq))
    ensures freq as real <= VCO_MAX && Passes(Best(26000000, freq)) ==>
              var kept := Best(26000000, freq).value;
              && InRange(kept.d) && SomethingNear(freq as real)
              && NoneMuchBetter(freq as real, 1.0 - Output(26000000.0, kept.d) / freq as real)
  {
    hide Turns, Miss, Output, Vco;
    var f := freq as real;
    if 52812500 <= freq <= 1651000000 {
      MiddleSucceeds(f);
    }
    if f <= VCO_MAX && Passes(Best(26000000, freq)) {
      assert Best(26000000, freq) == FromCrystal(f);
      SoundWithin(IN0, f, FromCrystal(f).value);
      var nf, no := FoundIsNear(f);
      var err := 1.0 - Output(IN0, FromCrystal(f).value.d) / f;
      forall nf, no | nf > 32 && Near(f, nf, no)
        ensures Abs(err) <= Abs(Miss(f, nf, no)) + 2.0 * LITTLE
      {
        NearlyTheBest(f, nf, no);
      }
    }
  }

  ghost predicate SomethingNear(freq: real) {
    exists nf, no :: Near(freq, nf, no)
  }

  /** No setting with a multiplier from 33 to 63 misses by less than err does, but for 0.000002. */
  ghost predicate NoneMuchBetter(freq: real, err: real) {
    forall nf, no | nf > 32 && Near(freq, nf, no) :: Abs(err) <= Abs(Miss(freq, nf, no)) + 0.000002
  }

  /** What the search keeps. */
  function Best(fin: int, freq: int): Option<Kept>
    requires fin > 0 && 0.0 < freq as real <= VCO_MAX
  {
    StartsBelow(fin as real, freq as real);
    Turns(fin as real, freq as real, (freq as real / fin as real).Floor, None)
  }

  lemma Output806()
    ensures Output(26000000.0, Dividers(1, 62, 2, 62)) == 806000000.0
  {
  }

  lemma ZeroFeed(d: Dividers)
    requires InRange(d)
    ensures Output(0.0, d).Floor == 0
  {
  }

  /** A setting within the limits never reads back as 0. */
  lemma OutputLarge(fin: real, d: Dividers)
    requires InRange(d) && VCO_MIN <= Vco(fin, d)
    ensures Output(fin, d) >= 1.0
  {
    hide Vco;
    R.Quotients(Vco(fin, d), d.no as real, 16.0);
  }
}
