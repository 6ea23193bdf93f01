/** fs/exec.c: the argument block of `do_execve`. Strings are copied backwards into an array
    of pages, the pages are mapped at the top of the user segment, and pointer tables are
    built below them by reading the strings forwards. */
module Exec {
  import opened Bytes

  const PAGE: nat := 4096
  const USER: nat := 0xC000_0000
  const ARG_PAGES: nat := 32
  const LIMIT: nat := 0x400_0000
  const USER_PAGES: nat := 16384
  /** The bytes for strings; the last eight of the 32 pages are kept free. */
  const AREA: nat := 32 * 4096 - 8

  /** How a copy ends; Overrun is an access outside the array of pages. */
  datatype Outcome = Done | NoPage | Overrun

  type Page = s: seq<Byte> | |s| == PAGE witness Zeros(PAGE)

  // Memory behind a table of page numbers; 0 stands for no page.

  function Index(a: nat): nat
    requires a >= USER
  {
    (a - USER) / PAGE
  }

  /** `p % PAGE_SIZE`; the user segment starts on a page boundary. */
  function Offset(a: nat): (o: nat)
    ensures o < PAGE
  {
    a % PAGE
  }

  predicate Resident(table: seq<nat>, a: nat) {
    a >= USER && Index(a) < |table| && table[Index(a)] != 0
  }

  /** Pages in a table exist and no two entries share one. */
  ghost predicate Owned(table: seq<nat>, phys: map<nat, Page>) {
    && (forall i | 0 <= i < |table| && table[i] != 0 :: table[i] in phys)
    && (forall i, j | 0 <= i < |table| && 0 <= j < |table| && i != j && table[i] != 0 :: table[i] != table[j])
  }

  /** The free pages: usable, distinct, and in no table. */
  ghost predicate Spare(table: seq<nat>, free: seq<nat>) {
    && (forall i | 0 <= i < |free| :: free[i] != 0 && free[i] !in table)
    && (forall i, j | 0 <= i < |free| && 0 <= j < |free| && i != j :: free[i] != free[j])
  }

  /** What a read at an address gives. A page that is not there reads as zeros: the fault
      would bring in a cleared one. */
  ghost function Load(table: seq<nat>, phys: map<nat, Page>, a: nat): Byte
    requires Owned(table, phys)
  {
    if Resident(table, a) then phys[table[Index(a)]][Offset(a)] else 0
  }

  function Store(table: seq<nat>, phys: map<nat, Page>, a: nat, v: Byte): map<nat, Page>
    requires Resident(table, a) && table[Index(a)] in phys
  {
    var n := table[Index(a)];
    phys[n := phys[n][Offset(a) := v]]
  }

  /** A store changes what its own address reads and nothing else. */
  lemma StoreLoads(table: seq<nat>, phys: map<nat, Page>, a: nat, v: Byte)
    requires Owned(table, phys) && Resident(table, a)
    ensures table[Index(a)] in phys
    ensures var p := Store(table, phys, a, v);
            Owned(table, p) && forall b: nat :: Load(table, p, b) == if b == a then v else Load(table, phys, b)
  {
  }

  /** A cleared page put where there was none changes no read. */
  lemma PageInLoads(table: seq<nat>, phys: map<nat, Page>, i: nat, n: nat)
    requires Owned(table, phys) && i < |table| && table[i] == 0 && n != 0 && n !in table
    ensures var (t, p) := (table[i := n], phys[n := Zeros(PAGE)]);
            Owned(t, p) && forall b: nat :: Load(t, p, b) == Load(table, phys, b)
  {
  }

  /** Nothing changed outside [lo, hi). */
  ghost predicate SameOutside(table: seq<nat>, before: map<nat, Page>, now: seq<nat>, after: map<nat, Page>, lo: nat,
      hi: nat)
    requires Owned(table, before) && Owned(now, after)
  {
    forall b: nat | b < lo || hi <= b :: Load(now, after, b) == Load(table, before, b)
  }

  /** Only the byte at a changed. */
  ghost predicate WroteByte(table: seq<nat>, before: map<nat, Page>, now: seq<nat>, after: map<nat, Page>, a: nat,
      v: Byte)
    requires Owned(table, before) && Owned(now, after)
  {
    forall b: nat :: Load(now, after, b) == if b == a then v else Load(table, before, b)
  }

  /** Only the bytes s at a changed. */
  ghost predicate Wrote(table: seq<nat>, before: map<nat, Page>, now: seq<nat>, after: map<nat, Page>, a: nat,
      s: seq<Byte>)
    requires Owned(table, before) && Owned(now, after)
  {
    forall b: nat :: Load(now, after, b) == if a <= b < a + |s| then s[b - a] else Load(table, before, b)
  }

  lemma WroteNothing(table: seq<nat>, before: map<nat, Page>, now: seq<nat>, after: map<nat, Page>, a: nat)
    requires Owned(table, before) && Owned(now, after) && SameOutside(table, before, now, after, a, a)
    ensures Wrote(table, before, now, after, a, [])
  {
  }

  lemma WroteMore(table: seq<nat>, before: map<nat, Page>, now: seq<nat>, middle: map<nat, Page>,
      after: map<nat, Page>, a: nat, s: seq<Byte>, i: nat)
    requires Owned(table, before) && Owned(now, middle) && Owned(now, after) && i < |s|
    requires Wrote(table, before, now, middle, a, s[..i])
    requires forall b: nat :: Load(now, after, b) == if b == a + i then s[i] else Load(now, middle, b)
    ensures Wrote(table, before, now, after, a, s[..i + 1])
  {
    hide Load, Owned;
  }

  lemma WroteLong(table: seq<nat>, before: map<nat, Page>, now: seq<nat>, after: map<nat, Page>, a: nat, s: seq<Byte>)
    requires Owned(table, before) && Owned(now, after) && |s| == 8 && Wrote(table, before, now, after, a, s)
    ensures SameOutside(table, before, now, after, a, a + 8) && Holds(now, after, a, s)
  {
  }

  lemma SameAlong(t0: seq<nat>, m0: map<nat, Page>, t1: seq<nat>, m1: map<nat, Page>, t2: seq<nat>,
      m2: map<nat, Page>, lo: nat, mid: nat)
    requires Owned(t0, m0) && Owned(t1, m1) && Owned(t2, m2) && lo <= mid
    requires SameOutside(t0, m0, t1, m1, lo, mid) && SameOutside(t1, m1, t2, m2, mid, mid + 8)
    ensures SameOutside(t0, m0, t2, m2, lo, mid + 8)
  {
  }

  // How many pages are taken.

  /** The entries of a table in an interval that have no page. */
  ghost function Missing(table: seq<nat>, lo: nat, hi: nat): nat
    requires hi <= |table|
    decreases hi - lo
  {
    if lo >= hi then 0 else (if table[lo] == 0 then 1 else 0) + Missing(table, lo + 1, hi)
  }

  /** The table and the number of free pages before pages were taken. */
  datatype Begun = Begun(table: seq<nat>, free: nat)

  /** Since then exactly the missing pages from lo to hi have been put in. */
  ghost predicate Took(b: Begun, table: seq<nat>, free: nat, lo: nat, hi: nat) {
    && lo <= hi <= |table| == |b.table|
    && (forall i | lo <= i < hi :: table[i] != 0)
    && (forall i | 0 <= i < lo || hi <= i < |table| :: table[i] == b.table[i])
    && free + Missing(b.table, lo, hi) == b.free
  }

  /** There were too few pages for that interval. */
  ghost predicate TooFew(b: Begun, lo: nat, hi: nat) {
    hi <= |b.table| && b.free < Missing(b.table, lo, hi)
  }

  lemma {:induction false} MissingSplit(table: seq<nat>, lo: nat, mid: nat, hi: nat)
    requires lo <= mid <= hi <= |table|
    ensures Missing(table, lo, hi) == Missing(table, lo, mid) + Missing(table, mid, hi)
    decreases mid - lo
  {
    if lo < mid {
      MissingSplit(table, lo + 1, mid, hi);
    }
  }

  lemma {:induction false} AllMissing(table: seq<nat>, lo: nat, hi: nat)
    requires lo <= hi <= |table| && forall i | lo <= i < hi :: table[i] == 0
    ensures Missing(table, lo, hi) == hi - lo
    decreases hi - lo
  {
    if lo < hi {
      AllMissing(table, lo + 1, hi);
    }
  }

  lemma {:induction false} NoneMissing(table: seq<nat>, lo: nat, hi: nat)
    requires lo <= hi <= |table| && forall i | lo <= i < hi :: table[i] != 0
    ensures Missing(table, lo, hi) == 0
    decreases hi - lo
  {
    if lo < hi {
      NoneMissing(table, lo + 1, hi);
    }
  }

  /** An interval that is made wider needs no fewer pages. */
  lemma WiderTooFew(b: Begun, lo: nat, lower: nat, hi: nat)
    requires TooFew(b, lo, hi) && lower <= lo <= hi
    ensures TooFew(b, lower, hi)
  {
    MissingSplit(b.table, lower, lo, hi);
  }

  function Smaller(a: nat, b: nat): nat {
    if a < b then a else b
  }

  function Larger(a: nat, b: nat): nat {
    if a < b then b else a
  }

  /** i is in the interval or next to it. */
  predicate Beside(lo: nat, hi: nat, i: nat) {
    lo <= i + 1 && i <= hi && (lo == hi ==> i + 1 == lo || i == hi)
  }

  /** Entry i has a page now, a new one if need be, unless there was none to have. */
  ghost predicate TookOne(table: seq<nat>, free: nat, now: seq<nat>, left: nat, i: nat) {
    && i < |table| == |now|
    && if table[i] != 0 then now == table && left == free
       else if free == 0 then now == table && left == 0
       else left == free - 1 && now[i] != 0 && now == table[i := now[i]]
  }

  /** Looking up one entry in or next to the interval: what was there stays or a page goes in. */
  lemma Touch(b: Begun, table: seq<nat>, free: nat, lo: nat, hi: nat, i: nat, now: seq<nat>, left: nat)
    requires Took(b, table, free, lo, hi) && Beside(lo, hi, i) && TookOne(table, free, now, left, i)
    ensures if now[i] != 0 then Took(b, now, left, Smaller(lo, i), Larger(hi, i + 1))
            else TooFew(b, Smaller(lo, i), Larger(hi, i + 1))
  {
    MissingAt(b.table, lo, hi, i);
  }

  lemma Present(table: seq<nat>, free: nat, i: nat)
    requires i < |table| && table[i] != 0
    ensures TookOne(table, free, table, free, i)
  {
  }

  lemma MissingAt(table: seq<nat>, lo: nat, hi: nat, i: nat)
    requires lo <= hi <= |table| && Beside(lo, hi, i) && i < |table|
    ensures Missing(table, Smaller(lo, i), Larger(hi, i + 1))
            == Missing(table, lo, hi) + if (lo <= i < hi) || table[i] != 0 then 0 else 1
  {
    if i >= hi {
      MissingSplit(table, lo, hi, i + 1);
    }
  }

  /** The first page that lies wholly at or above an address. */
  function Up(a: nat): nat
    requires a >= USER
  {
    (a - USER + PAGE - 1) / PAGE
  }

  /** The lowest page written when the bytes from p up to top have been. */
  function Low(p: nat, top: nat): nat
    requires USER <= p <= top
  {
    if p == top then Up(top) else Index(p)
  }

  /** The same for a copy that is to end at p, which may lie before the area. */
  function Lowest(p: int, top: nat): nat
    requires p <= top && USER <= top
  {
    if p < USER then 0 else Low(p, top)
  }

  /** The page after the last one written when the bytes from start up to a have been. */
  function High(start: nat, a: nat): nat
    requires USER <= start <= a
  {
    if a == start then Index(start) else Up(a)
  }

  lemma NextDown(p: nat, top: nat)
    requires USER < p <= top
    ensures Beside(Low(p, top), Up(top), Index(p - 1)) && Low(p, top) <= Up(top)
    ensures Smaller(Low(p, top), Index(p - 1)) == Low(p - 1, top) && Larger(Up(top), Index(p - 1) + 1) == Up(top)
  {
  }

  lemma LowestMonotone(p: int, q: int, top: nat)
    requires p <= q <= top && USER <= top
    ensures Lowest(p, top) <= Lowest(q, top) <= Up(top)
  {
  }

  lemma LowestAt(p: int, top: nat)
    requires p <= top && USER <= top
    ensures Lowest(p, top) == if p < USER then Low(USER, top) else Low(p, top)
  {
  }

  lemma SameLowest(p: int, end: int, top: nat)
    requires end <= p < USER <= top
    ensures Lowest(p, top) == Lowest(end, top)
  {
  }

  lemma EarlierTooFew(b: Begun, p: int, end: int, top: nat)
    requires USER <= top && end <= p <= top && TooFew(b, Lowest(p, top), Up(top))
    ensures TooFew(b, Lowest(end, top), Up(top))
  {
    LowestMonotone(end, p, top);
    WiderTooFew(b, Lowest(p, top), Lowest(end, top), Up(top));
  }

  lemma StillTooFew(b: Begun, p: nat, end: int, top: nat)
    requires USER <= p <= top && end <= p && TooFew(b, Low(p, top), Up(top))
    ensures TooFew(b, Lowest(end, top), Up(top))
  {
    LowestMonotone(end, p, top);
    WiderTooFew(b, Low(p, top), Lowest(end, top), Up(top));
  }

  lemma NextUp(start: nat, a: nat)
    requires USER <= start <= a && start % 8 == 0 && a % 8 == 0
    ensures Beside(Index(start), High(start, a), Index(a)) && Index(start) <= High(start, a)
    ensures Smaller(Index(start), Index(a)) == Index(start)
    ensures Larger(High(start, a), Index(a) + 1) == High(start, a + 8)
  {
    AlignedUp(a);
  }

  lemma AlignedUp(a: nat)
    requires USER <= a && a % 8 == 0
    ensures Up(a + 8) == Index(a) + 1 && Index(a) <= Up(a) <= Index(a) + 1
  {
    var q := (a - USER) / 8;
    assert a - USER == 8 * q;
    var (r, t) := (q / 512, q % 512);
    assert q == 512 * r + t;
    PageOf(a - USER, r, 8 * t);
    PageOf(a + 8 - USER + PAGE - 1, r + 1, 8 * t + 7);
  }

  lemma HigherTooFew(b: Begun, lo: nat, hi: nat, higher: nat)
    requires TooFew(b, lo, hi) && lo <= hi <= higher <= |b.table|
    ensures TooFew(b, lo, higher)
  {
    MissingSplit(b.table, lo, hi, higher);
  }

  lemma HighMonotone(start: nat, a: nat, end: nat)
    requires USER <= start <= a <= end <= USER + LIMIT && start % 8 == 0 && a % 8 == 0
    ensures Index(start) <= High(start, a) <= High(start, end) <= USER_PAGES
  {
    NextUp(start, a);
  }

  lemma InSegment(a: nat)
    requires USER <= a < USER + LIMIT
    ensures Index(a) < USER_PAGES
  {
  }

  lemma NothingTook(table: seq<nat>, free: nat, start: nat)
    requires USER <= start && Index(start) <= |table|
    ensures Took(Begun(table, free), table, free, Index(start), High(start, start))
  {
  }

  lemma TookEnough(b: Begun, table: seq<nat>, free: nat, lo: nat, hi: nat)
    requires Took(b, table, free, lo, hi)
    ensures !TooFew(b, lo, hi)
  {
  }

  /** A table that was to end at a and did not get its pages. */
  lemma TableTooFew(b: Begun, start: nat, a: nat, end: nat)
    requires USER <= start <= a <= end <= USER + LIMIT && start % 8 == 0 && a % 8 == 0 && |b.table| == USER_PAGES
    requires TooFew(b, Index(start), High(start, a))
    ensures TooFew(b, Index(start), High(start, end))
  {
    HighMonotone(start, a, end);
    HigherTooFew(b, Index(start), High(start, a), High(start, end));
  }

  /** The bytes at an address. */
  ghost predicate Holds(table: seq<nat>, phys: map<nat, Page>, a: nat, s: seq<Byte>)
    requires Owned(table, phys)
  {
    forall i | 0 <= i < |s| :: Load(table, phys, a + i) == s[i]
  }

  // What copying leaves.

  datatype Memory = Memory(table: seq<nat>, phys: map<nat, Page>)

  /** s lies at p, up to p0, nothing from p0 on changed since m0, and the pages from p up to top
      were put in. */
  ghost predicate Copied(b: Begun, top: nat, m0: Memory, p0: nat, m: Memory, left: nat, p: nat, s: seq<Byte>) {
    && USER <= p <= p0 <= top && p == p0 - |s|
    && Owned(m0.table, m0.phys) && Owned(m.table, m.phys)
    && Holds(m.table, m.phys, p, s)
    && SameOutside(m0.table, m0.phys, m.table, m.phys, 0, p0)
    && Took(b, m.table, left, Low(p, top), Up(top))
  }

  lemma NothingCopied(b: Begun, top: nat, m: Memory, left: nat, p: nat)
    requires USER <= p <= top && Owned(m.table, m.phys) && Took(b, m.table, left, Low(p, top), Up(top))
    ensures Copied(b, top, m, p, m, left, p, [])
  {
  }

  lemma CopiedTook(b: Begun, top: nat, m0: Memory, p0: nat, m: Memory, left: nat, p: nat, s: seq<Byte>)
    requires Copied(b, top, m0, p0, m, left, p, s)
    ensures USER <= p == p0 - |s| <= p0 <= top && Took(b, m.table, left, Low(p, top), Up(top))
  {
  }

  lemma CopiedByte(b: Begun, top: nat, m0: Memory, p0: nat, m1: Memory, l1: nat, m2: Memory, l2: nat, p: nat,
      s: seq<Byte>, k: nat)
    requires k < |s| && Copied(b, top, m0, p0, m1, l1, p + 1, s[k + 1..])
    requires USER <= p && Owned(m1.table, m1.phys) && Owned(m2.table, m2.phys)
    requires WroteByte(m1.table, m1.phys, m2.table, m2.phys, p, s[k])
    requires Took(b, m2.table, l2, Low(p, top), Up(top))
    ensures Copied(b, top, m0, p0, m2, l2, p, s[k..])
  {
    hide Load, Took, Low, Up, Owned;
  }

  lemma CopiedBoth(b: Begun, top: nat, m0: Memory, p0: nat, m1: Memory, l1: nat, p1: nat, rest: seq<Byte>,
      m2: Memory, l2: nat, p2: nat, s: seq<Byte>)
    requires Copied(b, top, m0, p0, m1, l1, p1, rest) && Copied(b, top, m1, p1, m2, l2, p2, s)
    ensures Copied(b, top, m0, p0, m2, l2, p2, s + rest)
  {
    hide Load, Took, Low, Up, Owned;
  }

  // Strings.

  /** A C string holds no NUL before its end, and lies in the 64 MB of a user segment. */
  predicate IsString(s: seq<Byte>) {
    0 !in s && |s| < LIMIT
  }

  predicate AreStrings(strings: seq<seq<Byte>>) {
    forall k | 0 <= k < |strings| :: IsString(strings[k])
  }

  lemma EndsInNul(s: seq<Byte>)
    requires IsString(s)
    ensures |s| + 1 < 0x8000_0000 && forall i | 0 <= i <= |s| :: (s + [0])[i] == 0 <==> i == |s|
  {
  }

  /** Strings one after the other, each with its NUL. */
  function Flat(strings: seq<seq<Byte>>): seq<Byte> {
    if strings == [] then [] else strings[0] + [0] + Flat(strings[1..])
  }

  lemma FlatOfNone(strings: seq<seq<Byte>>)
    ensures Flat(strings[|strings|..]) == [] == Flat(strings[..0])
  {
  }

  lemma {:induction false} FlatAppend(a: seq<seq<Byte>>, b: seq<seq<Byte>>)
    ensures Flat(a + b) == Flat(a) + Flat(b)
  {
    if a == [] {
      assert a + b == b;
    } else {
      assert (a + b)[1..] == a[1..] + b;
      FlatAppend(a[1..], b);
    }
  }

  class Machine {
    const page: array<nat>
    const user: array<nat>
    var phys: map<nat, Page>
    /** The pages `get_free_page` will hand out, in order. */
    var free: seq<nat>

    constructor (pool: seq<nat>)
      requires forall i | 0 <= i < |pool| :: pool[i] != 0
      requires forall i, j | 0 <= i < |pool| && 0 <= j < |pool| && i != j :: pool[i] != pool[j]
      ensures Filling() && free == pool && fresh(page) && fresh(user) && user != page && page[..] == NoPages()
      ensures user.Length == USER_PAGES && forall i | 0 <= i < USER_PAGES :: user[i] == 0
    {
      page := new nat[ARG_PAGES](_ => 0);
      user := new nat[USER_PAGES](_ => 0);
      phys := map[];
      free := pool;
    }

    ghost predicate Filling()
      reads this, page
    {
      page.Length == ARG_PAGES && Owned(page[..], phys) && Spare(page[..], free)
    }

    method GetFreePage() returns (n: nat)
      modifies this`phys, this`free
      ensures old(free) == [] ==> n == 0 && phys == old(phys) && free == []
      ensures old(free) != [] ==> n == old(free)[0] && phys == old(phys)[n := Zeros(PAGE)] && free == old(free)[1..]
    {
      if free == [] {
        return 0;
      }
      n := free[0];
      phys := phys[n := Zeros(PAGE)];
      free := free[1..];
    }

    /** The page for a new address in `copy_strings`: the one in the array or a fresh one. */
    method FindPage(p: nat) returns (pag: nat)
      requires Filling() && USER <= p && Index(p) < ARG_PAGES
      modifies this`phys, this`free, page
      ensures Filling() && pag == page[Index(p)]
      ensures forall b: nat :: Load(page[..], phys, b) == old(Load(page[..], phys, b))
      ensures TookOne(old(page[..]), |old(free)|, page[..], |free|, Index(p))
    {
      pag := page[Index(p)];
      if pag == 0 {
        ghost var table := page[..];
        hide Index, Load, Zeros;
        pag := GetFreePage();
        page[Index(p)] := pag;
        assert page[..] == table[Index(p) := pag];
        if pag != 0 {
          PageInLoads(table, old(phys), Index(p), pag);
        }
      }
    }

    /** Where `offset` and `pag` point while p goes down: a zero offset makes the next byte
        look its page up again. */
    ghost predicate Cursor(p: nat, offset: nat, pag: nat)
      reads this, page
      requires page.Length == ARG_PAGES
    {
      offset == 0 || (Resident(page[..], p) && offset == Offset(p) && pag == page[Index(p)])
    }

    lemma NewCursor(p: nat, pag: nat)
      requires page.Length == ARG_PAGES
      ensures Cursor(p, 0, pag)
    {
    }

    /** One turn of the innermost loop of `copy_strings`. */
    method CopyByte(v: Byte, p0: nat, offset0: nat, pag0: nat, ghost b0: Begun, ghost top: nat)
      returns (ok: bool, p: nat, offset: nat, pag: nat)
      requires Filling() && USER < p0 <= top <= USER + ARG_PAGES * PAGE && Cursor(p0, offset0, pag0)
      requires Took(b0, page[..], |free|, Low(p0, top), Up(top))
      modifies this`phys, this`free, page
      ensures Filling() && p == p0 - 1
      ensures ok ==> Cursor(p, offset, pag) && WroteByte(old(page[..]), old(phys), page[..], phys, p, v)
      ensures if ok then Took(b0, page[..], |free|, Low(p, top), Up(top)) else TooFew(b0, Low(p, top), Up(top))
    {
      p := p0 - 1;
      StepDown(p0);
      NextDown(p0, top);
      pag := pag0;
      hide Index, Offset, Load, Low, Up, Took, TooFew, TookOne, Beside;
      ghost var (table, left) := (page[..], |free|);
      if offset0 == 0 {
        offset := Offset(p);
        pag := FindPage(p);
        Touch(b0, table, left, Low(p0, top), Up(top), Index(p), page[..], |free|);
        if pag == 0 {
          return false, p, offset, pag;
        }
      } else {
        offset := offset0 - 1;
        Present(table, left, Index(p));
        Touch(b0, table, left, Low(p0, top), Up(top), Index(p), page[..], |free|);
      }
      StoreLoads(page[..], phys, p, v);
      phys := phys[pag := phys[pag][offset := v]];
      ok := true;
    }

    /** The length of a string with its NUL. */
    method Length(text: seq<Byte>) returns (len: nat)
      requires |text| > 0 && forall i | 0 <= i < |text| :: text[i] == 0 <==> i == |text| - 1
      ensures len == |text|
    {
      len := 1;
      while text[len - 1] != 0
        invariant 1 <= len <= |text|
        decreases |text| - len
      {
        len := len + 1;
      }
    }

    /** The length loop and the copy loop for one string. Pages run out only if there were too few
        for a copy down to where the string would begin, or down to the beginning of the area. */
    method CopyString(s: seq<Byte>, p0: nat, offset0: nat, pag0: nat, ghost b0: Begun, ghost top: nat)
      returns (outcome: Outcome, p: nat, offset: nat, pag: nat)
      requires Filling() && IsString(s) && USER <= p0 <= top <= USER + ARG_PAGES * PAGE && Cursor(p0, offset0, pag0)
      requires Took(b0, page[..], |free|, Low(p0, top), Up(top))
      modifies this`phys, this`free, page
      ensures Filling()
      ensures outcome == Done ==>
                && Copied(b0, top, Memory(old(page[..]), old(phys)), p0, Memory(page[..], phys), |free|, p, s + [0])
                && Cursor(p, offset, pag)
      ensures outcome == NoPage ==> TooFew(b0, Lowest(p0 - |s| - 1, top), Up(top))
      ensures outcome == Overrun ==> p0 < USER + |s| + 1 && Took(b0, page[..], |free|, Low(USER, top), Up(top))
    {
      hide Load, Index, Offset, Owned, Spare, IsString, Took, TooFew, Low, Up, Lowest, Cursor, Copied, WroteByte;
      var text := s + [0];
      EndsInNul(s);
      var len := Length(text);
      GuardNeverFires(p0, len);
      p, offset, pag := p0, offset0, pag0;
      ghost var m0 := Memory(page[..], phys);
      NothingCopied(b0, top, m0, |free|, p);
      assert text[len..] == [];
      while len > 0
        invariant 0 <= len <= |text| && USER <= p == p0 - (|text| - len) && Filling() && Cursor(p, offset, pag)
        invariant Copied(b0, top, m0, p0, Memory(page[..], phys), |free|, p, text[len..])
      {
        ghost var (before, left) := (Memory(page[..], phys), |free|);
        CopiedTook(b0, top, m0, p0, before, left, p, text[len..]);
        if p == USER {
          return Overrun, p, offset, pag;
        }
        len := len - 1;
        var ok;
        ok, p, offset, pag := CopyByte(text[len], p, offset, pag, b0, top);
        if !ok {
          StillTooFew(b0, p, p0 - |text|, top);
          return NoPage, p, offset, pag;
        }
        CopiedByte(b0, top, m0, p0, before, left, Memory(page[..], phys), |free|, p, text, len);
      }
      assert text[0..] == text;
      outcome := Done;
    }

    /** `copy_strings`: from the last to the first, each string is put in front of what is there.
        It returns 0 exactly when p0 is 0 or there are too few pages for the bytes from where the
        strings begin, or from the beginning of the area, up to top, where the first of a row of
        calls began. Given the pages, it succeeds exactly when the strings fit below p0; if not, it
        goes on to an address before the area, whose page lies outside the array. */
    method CopyStrings(argv: seq<seq<Byte>>, p0: nat, ghost b0: Begun, ghost top: nat)
        returns (outcome: Outcome, p: nat)
      requires Filling() && AreStrings(argv) && USER <= top <= USER + ARG_PAGES * PAGE
      requires p0 == 0 || (USER <= p0 <= top && Took(b0, page[..], |free|, Low(p0, top), Up(top)))
      modifies this`phys, this`free, page
      ensures Filling() && (outcome == NoPage <==> p == 0)
      ensures p0 == 0 ==> outcome == NoPage && free == old(free)
      ensures p0 != 0 ==> (outcome == NoPage <==> TooFew(b0, Lowest(p0 - |Flat(argv)|, top), Up(top)))
      ensures p0 != 0 && outcome != NoPage ==> (outcome == Done <==> USER + |Flat(argv)| <= p0)
      ensures outcome == Done ==>
                Copied(b0, top, Memory(old(page[..]), old(phys)), p0, Memory(page[..], phys), |free|, p, Flat(argv))
    {
      hide Load, Index, Offset, IsString, Owned, Spare, Flat, Low, Up, Lowest, Took, TooFew, Cursor, Copied;
      if p0 == 0 {
        return NoPage, 0;
      }
      p := p0;
      var offset, pag := 0, 0;
      var argc := |argv|;
      ghost var m0 := Memory(page[..], phys);
      NothingCopied(b0, top, m0, |free|, p);
      FlatOfNone(argv);
      NewCursor(p, pag);
      while argc > 0
        invariant 0 <= argc <= |argv| && Filling() && Cursor(p, offset, pag)
        invariant Copied(b0, top, m0, p0, Memory(page[..], phys), |free|, p, Flat(argv[argc..]))
      {
        argc := argc - 1;
        FlatRest(argv, argc);
        ghost var (before, left, end) := (Memory(page[..], phys), |free|, p - |argv[argc]| - 1);
        CopiedTook(b0, top, m0, p0, before, left, p, Flat(argv[argc + 1..]));
        outcome, p, offset, pag := CopyString(argv[argc], p, offset, pag, b0, top);
        if outcome == NoPage {
          EarlierTooFew(b0, end, p0 - |Flat(argv)|, top);
          return NoPage, 0;
        } else if outcome == Overrun {
          LowestAt(p0 - |Flat(argv)|, top);
          TookEnough(b0, page[..], |free|, Low(USER, top), Up(top));
          return Overrun, USER;
        }
        CopiedBoth(b0, top, m0, p0, before, left, end + |argv[argc]| + 1, Flat(argv[argc + 1..]),
                   Memory(page[..], phys), |free|, p, argv[argc] + [0]);
      }
      assert argv[0..] == argv;
      CopiedTook(b0, top, m0, p0, Memory(page[..], phys), |free|, p, Flat(argv));
      LowestAt(p, top);
      TookEnough(b0, page[..], |free|, Low(p, top), Up(top));
      outcome := Done;
    }

    // The user segment.

    ghost predicate Mapped()
      reads this, user
    {
      user.Length == USER_PAGES && Owned(user[..], phys) && Spare(user[..], free)
    }

    /** `change_ldt`: the pages go to the top of the segment, the last one highest. */
    method ChangeLdt() returns (limit: nat)
      requires Filling() && user.Length == USER_PAGES && user != page
      requires forall i | 0 <= i < USER_PAGES :: user[i] == 0
      modifies user
      ensures Mapped() && limit == LIMIT
      ensures forall j | 0 <= j < USER_PAGES ::
                user[j] == if j >= USER_PAGES - ARG_PAGES then page[j - (USER_PAGES - ARG_PAGES)] else 0
      ensures forall a: nat | USER <= a < USER + ARG_PAGES * PAGE ::
              Load(user[..], phys, a + LIMIT - ARG_PAGES * PAGE) == Load(page[..], phys, a)
    {
      var i := ARG_PAGES;
      while i > 0
        invariant 0 <= i <= ARG_PAGES
        invariant forall j | 0 <= j < USER_PAGES ::
                    user[j] == if j >= USER_PAGES - ARG_PAGES + i then page[j - (USER_PAGES - ARG_PAGES)] else 0
      {
        i := i - 1;
        if page[i] != 0 {
          user[USER_PAGES - ARG_PAGES + i] := page[i];
        }
      }
      Relocated(page[..], user[..], phys, free);
      limit := LIMIT;
    }

    /** The page fault of a write to user memory. */
    method FaultIn(a: nat) returns (ok: bool)
      requires Mapped() && USER <= a && Index(a) < USER_PAGES
      modifies this`phys, this`free, user
      ensures Mapped() && (ok <==> Resident(user[..], a)) && (ok <==> user[Index(a)] != 0)
      ensures TookOne(old(user[..]), |old(free)|, user[..], |free|, Index(a))
      ensures SameOutside(old(user[..]), old(phys), user[..], phys, a, a)
    {
      if user[Index(a)] == 0 {
        ghost var table := user[..];
        hide Index, Load, Zeros;
        var n := GetFreePage();
        if n == 0 {
          return false;
        }
        user[Index(a)] := n;
        assert user[..] == table[Index(a) := n];
        PageInLoads(table, old(phys), Index(a), n);
      }
      ok := true;
    }

    /** `put_fs_64long` on an aligned address. */
    method PutLong(v: nat, a: nat, ghost b0: Begun, ghost start: nat) returns (ok: bool)
      requires Mapped() && USER <= start <= a <= USER + LIMIT - 8 && a % 8 == 0 && start % 8 == 0
      requires Took(b0, user[..], |free|, Index(start), High(start, a))
      modifies this`phys, this`free, user
      ensures Mapped()
      ensures if ok then Took(b0, user[..], |free|, Index(start), High(start, a + 8))
              else TooFew(b0, Index(start), High(start, a + 8))
      ensures ok ==> Wrote(old(user[..]), old(phys), user[..], phys, a, LittleEndian(v, 8))
    {
      hide LittleEndian, Load, Index, Offset, Took, TooFew, TookOne, Beside, High, Owned, Spare, Wrote;
      AlignedInPage(a, 0);
      NextUp(start, a);
      var bytes := LittleEndian(v, 8);
      ghost var (table, left, before) := (user[..], |free|, phys);
      ok := FaultIn(a);
      Touch(b0, table, left, Index(start), High(start, a), Index(a), user[..], |free|);
      if !ok {
        return;
      }
      WroteNothing(table, before, user[..], phys, a);
      assert bytes[..0] == [];
      for i := 0 to 8
        invariant Mapped() && Resident(user[..], a)
        invariant Took(b0, user[..], |free|, Index(start), High(start, a + 8))
        invariant Wrote(table, before, user[..], phys, a, bytes[..i])
      {
        AlignedInPage(a, i);
        StoreLoads(user[..], phys, a + i, bytes[i]);
        ghost var middle := phys;
        phys := Store(user[..], phys, a + i, bytes[i]);
        WroteMore(table, before, user[..], middle, phys, a, bytes, i);
      }
      assert bytes[..8] == bytes;
    }

    /** `get_fs_byte`. */
    method GetByte(a: nat) returns (v: Byte)
      requires Mapped()
      ensures v == Load(user[..], phys, a)
    {
      if a >= USER && Index(a) < USER_PAGES && user[Index(a)] != 0 {
        v := phys[user[Index(a)]][Offset(a)];
      } else {
        v := 0;
      }
    }

    /** The inner loop of `create_tables`: to just past the NUL. */
    method SkipString(ghost s: seq<Byte>, p0: nat) returns (p: nat)
      requires Mapped() && IsString(s) && Holds(user[..], phys, p0, s + [0])
      ensures p == p0 + |s| + 1
    {
      p := p0;
      var v := GetByte(p);
      p := p + 1;
      assert (s + [0])[|s|] == 0;
      while v != 0
        invariant p0 < p <= p0 + |s| + 1 && v == (s + [0])[p - p0 - 1]
        decreases p0 + |s| + 1 - p
      {
        v := GetByte(p);
        assert Load(user[..], phys, p0 + (p - p0)) == (s + [0])[p - p0];
        p := p + 1;
      }
    }

    /** One turn of a loop of `create_tables`. */
    method PointToOne(strings: seq<seq<Byte>>, k: nat, p0: nat, at: nat, ghost b0: Begun, ghost start: nat,
        ghost m0: Memory)
      returns (ok: bool, p: nat)
      requires Mapped() && AreStrings(strings) && k < |strings|
      requires at % 8 == 0 && at + 8 * (|strings| + 1) <= p0 <= USER + LIMIT && USER <= start <= at && start % 8 == 0
      requires Pointed(b0, start, m0, Memory(user[..], phys), |free|, p0, at, strings, k)
      modifies this`phys, this`free, user
      ensures Mapped()
      ensures if ok then p == p0 + |Flat(strings[..k + 1])|
                         && Pointed(b0, start, m0, Memory(user[..], phys), |free|, p0, at, strings, k + 1)
              else TooFew(b0, Index(start), High(start, at + 8 * (k + 1)))
    {
      hide Load, LittleEndian, IsString, Holds, Flat, Owned, Spare, Took, TooFew, Index, High, SameOutside, Wrote,
        Pointed;
      p := p0 + |Flat(strings[..k])|;
      ghost var (before, left) := (Memory(user[..], phys), |free|);
      PointedTook(b0, start, m0, before, left, p0, at, strings, k);
      ok := PutLong(p, at + 8 * k, b0, start);
      if ok {
        PointedMore(b0, start, m0, before, left, Memory(user[..], phys), |free|, p0, at, strings, k);
        p := SkipString(strings[k], p);
      }
    }

    /** One of the two loops of `create_tables`, with the 0 that ends the table. */
    method PointToEach(strings: seq<seq<Byte>>, p0: nat, at: nat, ghost b0: Begun, ghost start: nat)
      returns (ok: bool, p: nat)
      requires Mapped() && AreStrings(strings) && Holds(user[..], phys, p0, Flat(strings))
      requires at % 8 == 0 && at + 8 * (|strings| + 1) <= p0 <= USER + LIMIT && USER <= start <= at && start % 8 == 0
      requires Took(b0, user[..], |free|, Index(start), High(start, at))
      modifies this`phys, this`free, user
      ensures Mapped()
      ensures if ok then Took(b0, user[..], |free|, Index(start), High(start, at + 8 * (|strings| + 1)))
              else TooFew(b0, Index(start), High(start, at + 8 * (|strings| + 1)))
      ensures ok ==> p == p0 + |Flat(strings)| && TableOf(user[..], phys, at, p0, strings, |strings|)
      ensures ok ==> Holds(user[..], phys, at + 8 * |strings|, LittleEndian(0, 8))
      ensures ok ==> SameOutside(old(user[..]), old(phys), user[..], phys, at, at + 8 * (|strings| + 1))
    {
      hide Load, LittleEndian, IsString, Index, High, TooFew, Took, Owned, Spare, Holds, Flat, TableOf, SameOutside,
        Wrote, Pointed, AreStrings;
      p := p0;
      var k := 0;
      FlatOfNone(strings);
      ghost var m0 := Memory(user[..], phys);
      NothingPointed(b0, start, m0, |free|, p0, at, strings);
      while k < |strings|
        invariant 0 <= k <= |strings| && Mapped() && p == p0 + |Flat(strings[..k])|
        invariant Pointed(b0, start, m0, Memory(user[..], phys), |free|, p0, at, strings, k)
      {
        ok, p := PointToOne(strings, k, p0, at, b0, start, m0);
        if !ok {
          TableTooFew(b0, start, at + 8 * (k + 1), at + 8 * (|strings| + 1));
          return;
        }
        k := k + 1;
      }
      assert strings[..k] == strings;
      ghost var (before, left) := (Memory(user[..], phys), |free|);
      PointedTook(b0, start, m0, before, left, p0, at, strings, k);
      ok := PutLong(0, at + 8 * k, b0, start);
      if ok {
        PointedEnd(b0, start, m0, before, left, Memory(user[..], phys), p0, at, strings);
      }
    }

    /** Both loops of `create_tables`, the tables next to each other at sp. */
    method FillTables(p: nat, sp: nat, envTable: nat, argv: seq<seq<Byte>>, envp: seq<seq<Byte>>, ghost b0: Begun)
      returns (ok: bool)
      requires Mapped() && AreStrings(argv) && AreStrings(envp) && Holds(user[..], phys, p, Flat(argv) + Flat(envp))
      requires sp % 8 == 0 && envTable % 8 == 0 && USER <= sp && envTable == sp + 8 * (|argv| + 1)
      requires envTable + 8 * (|envp| + 1) <= p && p + |Flat(argv)| + |Flat(envp)| <= USER + LIMIT
      requires b0 == Begun(user[..], |free|)
      modifies this`phys, this`free, user
      ensures Mapped() && (ok <==> !TooFew(b0, Index(sp), High(sp, envTable + 8 * (|envp| + 1))))
      ensures ok ==> PointerTable(user[..], phys, sp, argv, p) && PointerTable(user[..], phys, envTable, envp, p)
    {
      hide Load, LittleEndian, IsString, Flat, Holds, TableOf, PointerTable, Owned, Spare, Index, High, Took, TooFew,
        SameOutside, AreStrings;
      InSegment(sp);
      NothingTook(user[..], |free|, sp);
      HoldsSplit(user[..], phys, p, Flat(argv), Flat(envp));
      var q;
      ok, q := PointToEach(argv, p, sp, b0, sp);
      if !ok {
        TableTooFew(b0, sp, envTable, envTable + 8 * (|envp| + 1));
        return;
      }
      HoldsKept(old(user[..]), old(phys), user[..], phys, sp, envTable, p, Flat(argv));
      HoldsKept(old(user[..]), old(phys), user[..], phys, sp, envTable, q, Flat(envp));
      ghost var (table, before, end) := (user[..], phys, q);
      ok, q := PointToEach(envp, q, envTable, b0, sp);
      if !ok {
        return;
      }
      TookEnough(b0, user[..], |free|, Index(sp), High(sp, envTable + 8 * (|envp| + 1)));
      ghost var top := envTable + 8 * (|envp| + 1);
      FirstTableStays(table, before, user[..], phys, sp, p, argv, envTable, top);
      HoldsKept(table, before, user[..], phys, envTable, top, end, Flat(envp));
      TablePoints(user[..], phys, envTable, end, envp);
      LowerFloor(user[..], phys, envTable, envp, end, p);
    }

    /** `create_tables` on strings of argv then envp at p. */
    method CreateTables(p: nat, argv: seq<seq<Byte>>, envp: seq<seq<Byte>>) returns (ok: bool, sp: nat)
      requires Mapped() && AreStrings(argv) && AreStrings(envp) && Holds(user[..], phys, p, Flat(argv) + Flat(envp))
      requires USER + 8 * (|argv| + |envp| + 3) <= p && p + |Flat(argv)| + |Flat(envp)| <= USER + LIMIT
      modifies this`phys, this`free, user
      ensures Mapped() && USER <= sp == Aligned(p) - 8 * (|argv| + |envp| + 2)
      ensures ok <==> !TooFew(Begun(old(user[..]), |old(free)|), Index(sp), Up(Aligned(p)))
      ensures ok ==> ArgumentBlock(user[..], phys, sp, argv, envp)
    {
      hide Flat, Holds, PointerTable, Owned, Spare, AreStrings, TooFew, Up, Index;
      sp := Aligned(p);
      sp := sp - 8 * (|envp| + 1);
      var envTable := sp;
      sp := sp - 8 * (|argv| + 1);
      ok := FillTables(p, sp, envTable, argv, envp, Begun(user[..], |free|));
      if ok {
        LowerFloor(user[..], phys, sp, argv, p, envTable + 8 * (|envp| + 1));
        LowerFloor(user[..], phys, envTable, envp, p, envTable + 8 * (|envp| + 1));
      }
    }

    /** The part of `do_execve` that copies: the page table is cleared, then envp and argv go in. */
    method CopyAll(argv: seq<seq<Byte>>, envp: seq<seq<Byte>>) returns (outcome: Outcome, p: nat)
      requires page.Length == ARG_PAGES && Spare([], free) && AreStrings(argv) && AreStrings(envp)
      modifies this`phys, this`free, page
      ensures Filling()
      ensures outcome == Overrun <==> |Flat(argv)| + |Flat(envp)| > AREA && |old(free)| >= ARG_PAGES
      ensures outcome == Done <==>
              var n := |Flat(argv)| + |Flat(envp)|;
              n <= AREA && |old(free)| >= ARG_PAGES - Low(USER + AREA - n, USER + AREA)
      ensures outcome == Done ==>
                && USER <= p == USER + AREA - |Flat(argv)| - |Flat(envp)|
                && Holds(page[..], phys, p, Flat(argv) + Flat(envp))
                && Took(Begun(NoPages(), |old(free)|), page[..], |free|, Low(p, USER + AREA), ARG_PAGES)
    {
      hide Load, IsString, Flat, Owned, Spare, TooFew, Took, Low, Lowest, Up, NoPages, AreStrings, Index, SameOutside;
      ghost var b0 := Begun(NoPages(), |free|);
      ClearPages();
      CopyNeeds(|free|, |Flat(envp)|, |Flat(argv)|);
      outcome, p := CopyBoth(argv, envp, USER + AREA, b0);
    }

    /** envp and then argv in front of it. */
    method CopyBoth(argv: seq<seq<Byte>>, envp: seq<seq<Byte>>, top: nat, ghost b0: Begun)
      returns (outcome: Outcome, p: nat)
      requires Filling() && AreStrings(argv) && AreStrings(envp) && USER <= top <= USER + ARG_PAGES * PAGE
      requires Took(b0, page[..], |free|, Low(top, top), Up(top))
      modifies this`phys, this`free, page
      ensures Filling()
      ensures outcome == NoPage <==> TooFew(b0, Lowest(top - |Flat(envp)| - |Flat(argv)|, top), Up(top))
      ensures outcome == Done ==>
                Copied(b0, top, Memory(old(page[..]), old(phys)), top, Memory(page[..], phys), |free|, p,
                       Flat(argv) + Flat(envp))
      ensures outcome == Overrun ==> top - |Flat(envp)| - |Flat(argv)| < USER
    {
      hide Load, IsString, Flat, Owned, Spare, TooFew, Took, Low, Lowest, Up, Copied, AreStrings, Index;
      ghost var (m, n) := (|Flat(envp)|, |Flat(argv)|);
      outcome, p := CopyStrings(envp, top, b0, top);
      if outcome == Overrun {
        SameLowest(top - m, top - m - n, top);
        return;
      }
      ghost var (before, left, q) := (Memory(page[..], phys), |free|, p);
      if outcome == NoPage {
        EarlierTooFew(b0, top - m, top - m - n, top);
      } else {
        CopiedTook(b0, top, Memory(old(page[..]), old(phys)), top, before, left, p, Flat(envp));
      }
      outcome, p := CopyStrings(argv, p, b0, top);
      if outcome == Done {
        CopiedBoth(b0, top, Memory(old(page[..]), old(phys)), top, before, left, q, Flat(envp),
                   Memory(page[..], phys), |free|, p, Flat(argv));
      }
    }

    method ClearPages()
      requires page.Length == ARG_PAGES && Spare([], free)
      modifies page
      ensures Filling() && page[..] == NoPages()
    {
      for i := 0 to ARG_PAGES
        invariant forall j | 0 <= j < i :: page[j] == 0
      {
        page[i] := 0;
      }
    }

    /** The argument block of `do_execve`. On success the new program finds at its stack pointer
        what `execve` was given. The outcome is determined by the strings and the number of free
        pages: given 32 pages, strings that do not fit make it leave the page array; strings that
        fit get through exactly when there is a page for every page from sp to the end of the
        segment. */
    method Execve(argv: seq<seq<Byte>>, envp: seq<seq<Byte>>) returns (outcome: Outcome, sp: nat)
      requires page.Length == ARG_PAGES && Spare([], free)
      requires user.Length == USER_PAGES && user != page && AreStrings(argv) && AreStrings(envp)
      requires forall i | 0 <= i < USER_PAGES :: user[i] == 0
      modifies this`phys, this`free, page, user
      ensures outcome == Overrun <==> |Flat(argv)| + |Flat(envp)| > AREA && |old(free)| >= ARG_PAGES
      ensures outcome == Done <==>
              && |Flat(argv)| + |Flat(envp)| <= AREA
              && |old(free)| >= USER_PAGES - Index(StackPointer(argv, envp))
      ensures outcome == Done ==>
                sp == StackPointer(argv, envp) && Mapped() && ArgumentBlock(user[..], phys, sp, argv, envp)
    {
      hide Load, IsString, Flat, ArgumentBlock, Owned, Spare, TooFew, Took, Low, Up, Index, StackPointer;
      sp := 0;
      ghost var pages := |free|;
      var p;
      outcome, p := CopyAll(argv, envp);
      FlatLength(argv);
      FlatLength(envp);
      if |Flat(argv)| + |Flat(envp)| <= AREA {
        StackBelow(argv, envp);
      }
      if outcome != Done {
        return;
      }
      var limit := ChangeLdt();
      HoldsShifted(page[..], user[..], phys, p, Flat(argv) + Flat(envp));
      p := p + limit - ARG_PAGES * PAGE;
      ghost var (table, left) := (user[..], |free|);
      var ok;
      ok, sp := CreateTables(p, argv, envp);
      StackPointerIs(argv, envp, p, sp);
      PagesLeft(page[..], table, pages, left, p + ARG_PAGES * PAGE - LIMIT, sp, Aligned(p));
      outcome := if ok then Done else NoPage;
    }
  }

  /** What copying m bytes and then n more to an empty table takes. */
  lemma CopyNeeds(free: nat, m: nat, n: nat)
    ensures var (b, top) := (Begun(NoPages(), free), USER + AREA);
            && Up(top) == ARG_PAGES
            && Took(b, b.table, free, Low(top, top), Up(top))
            && (TooFew(b, Lowest(top - m - n, top), Up(top)) <==> free < ARG_PAGES - Lowest(top - m - n, top))
            && Lowest(top - m - n, top) == if m + n > AREA then 0 else Low(top - m - n, top)
  {
    var top := USER + AREA;
    LowestMonotone(top - m - n, top, top);
    PagesNeeded(free, Lowest(top - m - n, top));
  }

  /** `p & ~7`. */
  function Aligned(a: nat): (r: nat)
    ensures r % 8 == 0 && r <= a < r + 8
  {
    a / 8 * 8
  }

  /** Where `create_tables` puts argv. */
  function StackPointer(argv: seq<seq<Byte>>, envp: seq<seq<Byte>>): (sp: nat)
    requires |Flat(argv)| + |Flat(envp)| <= AREA
    ensures USER <= sp && sp % 8 == 0
  {
    FlatLength(argv);
    FlatLength(envp);
    Aligned(USER + LIMIT - 8 - |Flat(argv)| - |Flat(envp)|) - 8 * (|argv| + |envp| + 2)
  }

  /** Stack pointer and strings lie in the segment, the strings' pages at its end. */
  lemma StackBelow(argv: seq<seq<Byte>>, envp: seq<seq<Byte>>)
    requires |Flat(argv)| + |Flat(envp)| <= AREA
    ensures var n := |Flat(argv)| + |Flat(envp)|;
            Index(StackPointer(argv, envp)) <= USER_PAGES - ARG_PAGES + Low(USER + AREA - n, USER + AREA)
  {
    hide Flat, Aligned;
    FlatLength(argv);
    FlatLength(envp);
  }

  lemma StackPointerIs(argv: seq<seq<Byte>>, envp: seq<seq<Byte>>, p: nat, sp: nat)
    requires |Flat(argv)| + |Flat(envp)| <= AREA && p == USER + LIMIT - 8 - |Flat(argv)| - |Flat(envp)|
    requires sp == Aligned(p) - 8 * (|argv| + |envp| + 2)
    ensures sp == StackPointer(argv, envp)
  {
    hide Aligned, Flat;
  }

  /** With the strings at p mapped, the tables get their pages exactly when there was one for
      every page from sp on. */
  lemma PagesLeft(page: seq<nat>, user: seq<nat>, pages: nat, left: nat, p: nat, sp: nat, end: nat)
    requires |page| == ARG_PAGES && |user| == USER_PAGES && USER <= p <= USER + AREA
    requires Took(Begun(NoPages(), pages), page, left, Low(p, USER + AREA), ARG_PAGES)
    requires forall j | 0 <= j < USER_PAGES ::
               user[j] == if j >= USER_PAGES - ARG_PAGES then page[j - (USER_PAGES - ARG_PAGES)] else 0
    requires end == Aligned(p + LIMIT - ARG_PAGES * PAGE) && USER <= sp <= end
    requires Index(sp) <= USER_PAGES - ARG_PAGES + Low(p, USER + AREA)
    ensures TooFew(Begun(user, left), Index(sp), Up(end)) <==> pages < USER_PAGES - Index(sp)
  {
    var mapped := USER_PAGES - ARG_PAGES + Low(p, USER + AREA);
    EndAbove(p, end);
    hide Index, Up, Low, NoPages;
    EmptyTable();
    AllMissing(NoPages(), Low(p, USER + AREA), ARG_PAGES);
    MissingSplit(user, Index(sp), mapped, Up(end));
    AllMissing(user, Index(sp), mapped);
    NoneMissing(user, mapped, Up(end));
  }

  lemma EndAbove(p: nat, end: nat)
    requires USER <= p <= USER + AREA && end == Aligned(p + LIMIT - ARG_PAGES * PAGE)
    ensures USER <= end && USER_PAGES - ARG_PAGES + Low(p, USER + AREA) <= Up(end) <= USER_PAGES
    ensures Low(p, USER + AREA) <= ARG_PAGES == Up(USER + AREA)
  {
  }

  function NoPages(): seq<nat> {
    seq(ARG_PAGES, _ => 0)
  }

  lemma EmptyTable()
    ensures |NoPages()| == ARG_PAGES && forall i | 0 <= i < ARG_PAGES :: NoPages()[i] == 0
  {
  }

  /** From an empty table, the pages up to the end of the area. */
  lemma PagesNeeded(free: nat, lo: nat)
    requires lo <= ARG_PAGES
    ensures TooFew(Begun(NoPages(), free), lo, ARG_PAGES) <==> free < ARG_PAGES - lo
  {
    AllMissing(NoPages(), lo, ARG_PAGES);
  }

  /** The check for too long a string in `copy_strings`: it never fires, because p is an address
      beyond the reach of any `int`. */
  lemma GuardNeverFires(p: nat, len: nat)
    requires USER <= p && len < 0x8000_0000
    ensures !(p - len < 0)
  {
  }

  /** A string one byte too long for the whole area passes it all the same. */
  lemma GuardMissesOverrun() returns (s: seq<Byte>)
    ensures IsString(s) && !(USER + AREA - (|s| + 1) < 0) && USER + AREA - (|s| + 1) < USER
  {
    s := seq(AREA, _ => 1);
  }

  /** That string makes `copy_strings` leave the page array, though there are pages for the whole
      area. */
  method OverrunHappens() returns (outcome: Outcome)
    ensures outcome == Overrun
  {
    hide Flat, TooFew, Took, Low, Lowest, Up, NoPages, Owned, Copied, IsString;
    var pool := seq<nat>(ARG_PAGES, i => i + 1);
    var m := new Machine(pool);
    var s := seq<Byte>(AREA, _ => 1);
    TooLong(s);
    CopyNeeds(ARG_PAGES, |Flat([s])|, 0);
    ghost var b0 := Begun(NoPages(), ARG_PAGES);
    var p;
    outcome, p := m.CopyStrings([s], USER + AREA, b0, USER + AREA);
  }

  lemma TooLong(s: seq<Byte>)
    requires |s| == AREA && 0 !in s
    ensures AreStrings([s]) && |Flat([s])| == AREA + 1
  {
    assert [s][1..] == [];
  }

  lemma StepDown(p: nat)
    requires USER < p <= USER + ARG_PAGES * PAGE
    ensures Index(p - 1) < ARG_PAGES && (Offset(p) != 0 ==> Index(p - 1) == Index(p) && Offset(p - 1) == Offset(p) - 1)
  {
  }

  lemma FlatRest(argv: seq<seq<Byte>>, k: nat)
    requires k < |argv|
    ensures Flat(argv[k..]) == argv[k] + [0] + Flat(argv[k + 1..]) && |Flat(argv)| >= |Flat(argv[k..])|
  {
    assert argv[k..][1..] == argv[k + 1..];
    assert argv == argv[..k] + argv[k..];
    FlatAppend(argv[..k], argv[k..]);
  }

  lemma PageOf(x: nat, r: nat, t: nat)
    requires x == 4096 * r + t && t < 4096
    ensures x / PAGE == r
  {
  }

  lemma AlignedInPage(a: nat, i: nat)
    requires USER <= a <= USER + LIMIT - 8 && a % 8 == 0 && i < 8
    ensures Index(a) < USER_PAGES && Index(a + i) == Index(a)
  {
    var q := (a - USER) / 8;
    assert a - USER == 8 * q;
    var (r, t) := (q / 512, q % 512);
    assert q == 512 * r + t;
    PageOf(a - USER, r, 8 * t);
    PageOf(a + i - USER, r, 8 * t + i);
  }

  /** The same pages seen through the table shifted to the top of the segment. */
  lemma Relocated(page: seq<nat>, user: seq<nat>, phys: map<nat, Page>, free: seq<nat>)
    requires |page| == ARG_PAGES && |user| == USER_PAGES && Owned(page, phys) && Spare(page, free)
    requires forall j | 0 <= j < USER_PAGES ::
               user[j] == if j >= USER_PAGES - ARG_PAGES then page[j - (USER_PAGES - ARG_PAGES)] else 0
    ensures Owned(user, phys) && Spare(user, free)
    ensures forall a: nat | USER <= a < USER + ARG_PAGES * PAGE ::
            Load(user, phys, a + LIMIT - ARG_PAGES * PAGE) == Load(page, phys, a)
  {
  }

  /** Entry k of a table is the address of string k. */
  ghost predicate TableOf(table: seq<nat>, phys: map<nat, Page>, at: nat, p: nat, strings: seq<seq<Byte>>, n: nat)
    requires Owned(table, phys) && n <= |strings|
  {
    forall k | 0 <= k < n :: Holds(table, phys, at + 8 * k, LittleEndian(p + |Flat(strings[..k])|, 8))
  }

  /** Pointers to the first k strings are in the table at at, the strings are in place, and
      nothing but those pointers changed since m0. */
  ghost predicate Pointed(b: Begun, start: nat, m0: Memory, m: Memory, left: nat, p0: nat, at: nat,
      strings: seq<seq<Byte>>, k: nat)
  {
    && Owned(m0.table, m0.phys) && Owned(m.table, m.phys) && k <= |strings| && USER <= start <= at
    && TableOf(m.table, m.phys, at, p0, strings, k) && Holds(m.table, m.phys, p0, Flat(strings))
    && SameOutside(m0.table, m0.phys, m.table, m.phys, at, at + 8 * k)
    && Took(b, m.table, left, Index(start), High(start, at + 8 * k))
  }

  lemma NothingPointed(b: Begun, start: nat, m: Memory, left: nat, p0: nat, at: nat, strings: seq<seq<Byte>>)
    requires Owned(m.table, m.phys) && Holds(m.table, m.phys, p0, Flat(strings)) && USER <= start <= at
    requires Took(b, m.table, left, Index(start), High(start, at)) && |m.table| == USER_PAGES
    ensures Pointed(b, start, m, m, left, p0, at, strings, 0) && |b.table| == USER_PAGES
  {
  }

  lemma PointedTook(b: Begun, start: nat, m0: Memory, m: Memory, left: nat, p0: nat, at: nat,
      strings: seq<seq<Byte>>, k: nat)
    requires Pointed(b, start, m0, m, left, p0, at, strings, k)
    ensures USER <= start <= at && Took(b, m.table, left, Index(start), High(start, at + 8 * k))
  {
  }

  /** One more pointer. */
  lemma PointedMore(b: Begun, start: nat, m0: Memory, m1: Memory, l1: nat, m2: Memory, l2: nat, p0: nat, at: nat,
      strings: seq<seq<Byte>>, k: nat)
    requires k < |strings| && Pointed(b, start, m0, m1, l1, p0, at, strings, k) && at + 8 * (k + 1) <= p0
    requires Owned(m1.table, m1.phys) && Owned(m2.table, m2.phys)
    requires Wrote(m1.table, m1.phys, m2.table, m2.phys, at + 8 * k, LittleEndian(p0 + |Flat(strings[..k])|, 8))
    requires USER <= start <= at && Took(b, m2.table, l2, Index(start), High(start, at + 8 * (k + 1)))
    ensures Pointed(b, start, m0, m2, l2, p0, at, strings, k + 1)
    ensures Holds(m2.table, m2.phys, p0 + |Flat(strings[..k])|, strings[k] + [0])
    ensures |Flat(strings[..k + 1])| == |Flat(strings[..k])| + |strings[k]| + 1
  {
    hide Load, LittleEndian, Holds, Flat, Owned, Took, Index, High, SameOutside, Wrote, TableOf;
    FlatAt(strings, k);
    TableGrows(m1.table, m1.phys, m2.table, m2.phys, at, p0, strings, k);
    WroteLong(m1.table, m1.phys, m2.table, m2.phys, at + 8 * k, LittleEndian(p0 + |Flat(strings[..k])|, 8));
    HoldsKept(m1.table, m1.phys, m2.table, m2.phys, at + 8 * k, at + 8 * k + 8, p0, Flat(strings));
    HoldsPart(m2.table, m2.phys, p0, Flat(strings), |Flat(strings[..k])|, strings[k] + [0]);
    SameAlong(m0.table, m0.phys, m1.table, m1.phys, m2.table, m2.phys, at, at + 8 * k);
  }

  /** The 0 at the end. */
  lemma PointedEnd(b: Begun, start: nat, m0: Memory, m1: Memory, l1: nat, m2: Memory, p0: nat, at: nat,
      strings: seq<seq<Byte>>)
    requires Pointed(b, start, m0, m1, l1, p0, at, strings, |strings|)
    requires Owned(m0.table, m0.phys) && Owned(m1.table, m1.phys) && Owned(m2.table, m2.phys)
    requires Wrote(m1.table, m1.phys, m2.table, m2.phys, at + 8 * |strings|, LittleEndian(0, 8))
    ensures TableOf(m2.table, m2.phys, at, p0, strings, |strings|)
    ensures Holds(m2.table, m2.phys, at + 8 * |strings|, LittleEndian(0, 8))
    ensures SameOutside(m0.table, m0.phys, m2.table, m2.phys, at, at + 8 * (|strings| + 1))
  {
    hide Load, LittleEndian, Holds, Flat, Owned, Took, Index, High, SameOutside, Wrote, TableOf;
    var end := at + 8 * |strings|;
    WroteLong(m1.table, m1.phys, m2.table, m2.phys, end, LittleEndian(0, 8));
    SameAlong(m0.table, m0.phys, m1.table, m1.phys, m2.table, m2.phys, at, end);
    TableKept(m1.table, m1.phys, m2.table, m2.phys, at, p0, strings, |strings|, end, end + 8);
  }

  lemma FlatAt(strings: seq<seq<Byte>>, k: nat)
    requires k < |strings|
    ensures Flat(strings[..k + 1]) == Flat(strings[..k]) + (strings[k] + [0])
    ensures var n := |Flat(strings[..k])|;
            n + |strings[k]| + 1 <= |Flat(strings)| && Flat(strings)[n..n + |strings[k]| + 1] == strings[k] + [0]
  {
    assert strings[..k + 1] == strings[..k] + [strings[k]];
    FlatAppend(strings[..k], [strings[k]]);
    assert Flat([strings[k]]) == strings[k] + [0] + [];
    assert strings == strings[..k + 1] + strings[k + 1..];
    FlatAppend(strings[..k + 1], strings[k + 1..]);
  }

  lemma HoldsPart(table: seq<nat>, phys: map<nat, Page>, p: nat, s: seq<Byte>, n: nat, part: seq<Byte>)
    requires Owned(table, phys) && Holds(table, phys, p, s) && n + |part| <= |s| && s[n..n + |part|] == part
    ensures Holds(table, phys, p + n, part)
  {
  }

  lemma TableKept(table: seq<nat>, before: map<nat, Page>, now: seq<nat>, after: map<nat, Page>, at: nat, p: nat,
      strings: seq<seq<Byte>>, n: nat, lo: nat, hi: nat)
    requires Owned(table, before) && Owned(now, after) && n <= |strings| && TableOf(table, before, at, p, strings, n)
    requires SameOutside(table, before, now, after, lo, hi) && at + 8 * n <= lo
    ensures TableOf(now, after, at, p, strings, n)
  {
  }

  lemma TableGrows(table: seq<nat>, before: map<nat, Page>, now: seq<nat>, after: map<nat, Page>, at: nat, p: nat,
      strings: seq<seq<Byte>>, n: nat)
    requires Owned(table, before) && Owned(now, after) && n < |strings| && TableOf(table, before, at, p, strings, n)
    requires Wrote(table, before, now, after, at + 8 * n, LittleEndian(p + |Flat(strings[..n])|, 8))
    ensures TableOf(now, after, at, p, strings, n + 1)
  {
  }

  ghost function EightAt(table: seq<nat>, phys: map<nat, Page>, a: nat): seq<Byte>
    requires Owned(table, phys)
  {
    [Load(table, phys, a), Load(table, phys, a + 1), Load(table, phys, a + 2), Load(table, phys, a + 3),
     Load(table, phys, a + 4), Load(table, phys, a + 5), Load(table, phys, a + 6), Load(table, phys, a + 7)]
  }

  /** The eight bytes at an address as a number. */
  ghost function ReadLong(table: seq<nat>, phys: map<nat, Page>, a: nat): nat
    requires Owned(table, phys)
  {
    Value(EightAt(table, phys, a))
  }

  /** A table of pointers ended by 0, pointer k to a NUL-terminated copy of string k that lies
      at or above floor. */
  ghost predicate PointerTable(table: seq<nat>, phys: map<nat, Page>, at: nat, strings: seq<seq<Byte>>, floor: nat)
    requires Owned(table, phys)
  {
    && ReadLong(table, phys, at + 8 * |strings|) == 0
    && forall k | 0 <= k < |strings| :: PointsTo(table, phys, at + 8 * k, strings[k], floor)
  }

  ghost predicate PointsTo(table: seq<nat>, phys: map<nat, Page>, at: nat, s: seq<Byte>, floor: nat)
    requires Owned(table, phys)
  {
    ReadLong(table, phys, at) >= floor && Holds(table, phys, ReadLong(table, phys, at), s + [0])
  }

  lemma LowerFloor(table: seq<nat>, phys: map<nat, Page>, at: nat, strings: seq<seq<Byte>>, floor: nat, lower: nat)
    requires Owned(table, phys) && PointerTable(table, phys, at, strings, floor) && lower <= floor
    ensures PointerTable(table, phys, at, strings, lower)
  {
  }

  /** What the new program finds at sp: argv, then envp, both ended by 0, below all strings. */
  ghost predicate ArgumentBlock(table: seq<nat>, phys: map<nat, Page>, sp: nat, argv: seq<seq<Byte>>,
      envp: seq<seq<Byte>>)
    requires Owned(table, phys)
  {
    var end := sp + 8 * (|argv| + |envp| + 2);
    && sp % 8 == 0
    && PointerTable(table, phys, sp, argv, end)
    && PointerTable(table, phys, sp + 8 * (|argv| + 1), envp, end)
  }

  lemma HoldsSplit(table: seq<nat>, phys: map<nat, Page>, p: nat, a: seq<Byte>, b: seq<Byte>)
    requires Owned(table, phys) && Holds(table, phys, p, a + b)
    ensures Holds(table, phys, p, a) && Holds(table, phys, p + |a|, b)
  {
    HoldsPart(table, phys, p, a + b, 0, a);
    HoldsPart(table, phys, p, a + b, |a|, b);
  }

  lemma HoldsKept(table: seq<nat>, before: map<nat, Page>, now: seq<nat>, after: map<nat, Page>, lo: nat, hi: nat,
      p: nat, s: seq<Byte>)
    requires Owned(table, before) && Owned(now, after) && Holds(table, before, p, s)
    requires SameOutside(table, before, now, after, lo, hi) && (p + |s| <= lo || hi <= p)
    ensures Holds(now, after, p, s)
  {
  }

  lemma HoldsShifted(page: seq<nat>, user: seq<nat>, phys: map<nat, Page>, p: nat, s: seq<Byte>)
    requires Owned(page, phys) && Owned(user, phys) && USER <= p && p + |s| <= USER + ARG_PAGES * PAGE
             && Holds(page, phys, p, s)
    requires forall a: nat | USER <= a < USER + ARG_PAGES * PAGE ::
             Load(user, phys, a + LIMIT - ARG_PAGES * PAGE) == Load(page, phys, a)
    ensures Holds(user, phys, p + LIMIT - ARG_PAGES * PAGE, s)
  {
  }

  lemma {:induction false} FlatLength(strings: seq<seq<Byte>>)
    ensures |Flat(strings)| >= |strings|
  {
    if strings != [] {
      FlatLength(strings[1..]);
    }
  }

  lemma HeldLong(table: seq<nat>, phys: map<nat, Page>, a: nat, v: nat)
    requires Owned(table, phys) && Holds(table, phys, a, LittleEndian(v, 8)) && v < 0x1_0000_0000
    ensures ReadLong(table, phys, a) == v
  {
    hide Load, LittleEndian;
    var s := LittleEndian(v, 8);
    assert s == [s[0], s[1], s[2], s[3], s[4], s[5], s[6], s[7]];
    assert EightAt(table, phys, a) == s;
    hide EightAt;
    assert Power256(8) == 0x1_0000_0000_0000_0000;
    ValueOfLittleEndian(v, 8);
  }

  lemma EntryPoints(table: seq<nat>, phys: map<nat, Page>, a: nat, p: nat, strings: seq<seq<Byte>>, k: nat)
    requires Owned(table, phys) && k < |strings| && Holds(table, phys, p, Flat(strings))
    requires Holds(table, phys, a, LittleEndian(p + |Flat(strings[..k])|, 8)) && p + |Flat(strings)| < 0x1_0000_0000
    ensures PointsTo(table, phys, a, strings[k], p)
  {
    hide Load, ReadLong, LittleEndian, Holds, Flat;
    FlatAt(strings, k);
    var n := |Flat(strings[..k])|;
    HeldLong(table, phys, a, p + n);
    HoldsPart(table, phys, p, Flat(strings), n, strings[k] + [0]);
  }

  /** A table that holds the strings' addresses is a pointer table of them. */
  lemma TablePoints(table: seq<nat>, phys: map<nat, Page>, at: nat, p: nat, strings: seq<seq<Byte>>)
    requires Owned(table, phys) && TableOf(table, phys, at, p, strings, |strings|)
             && Holds(table, phys, p, Flat(strings))
    requires Holds(table, phys, at + 8 * |strings|, LittleEndian(0, 8)) && p + |Flat(strings)| < 0x1_0000_0000
    ensures PointerTable(table, phys, at, strings, p)
  {
    hide Load, ReadLong, LittleEndian, Holds, Flat, PointsTo;
    HeldLong(table, phys, at + 8 * |strings|, 0);
    forall k | 0 <= k < |strings|
      ensures PointsTo(table, phys, at + 8 * k, strings[k], p)
    {
      EntryPoints(table, phys, at + 8 * k, p, strings, k);
    }
  }

  /** Building the second table leaves the first one and its strings in place. */
  lemma FirstTableStays(t1: seq<nat>, m1: map<nat, Page>, t2: seq<nat>, m2: map<nat, Page>, at: nat, p: nat,
      strings: seq<seq<Byte>>, lo: nat, hi: nat)
    requires Owned(t1, m1) && Owned(t2, m2) && at + 8 * (|strings| + 1) <= lo && hi <= p
             && p + |Flat(strings)| < 0x1_0000_0000
    requires Holds(t1, m1, p, Flat(strings))
    requires TableOf(t1, m1, at, p, strings, |strings|) && Holds(t1, m1, at + 8 * |strings|, LittleEndian(0, 8))
    requires SameOutside(t1, m1, t2, m2, lo, hi)
    ensures PointerTable(t2, m2, at, strings, p)
  {
    hide Load, LittleEndian, Flat, TableOf, PointerTable, Holds, SameOutside;
    HoldsKept(t1, m1, t2, m2, lo, hi, at + 8 * |strings|, LittleEndian(0, 8));
    HoldsKept(t1, m1, t2, m2, lo, hi, p, Flat(strings));
    TableKept(t1, m1, t2, m2, at, p, strings, |strings|, lo, hi);
    TablePoints(t2, m2, at, p, strings);
  }
}
