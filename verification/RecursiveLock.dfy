/** bsp/locks.c: the recursive lock built on an atomic swap, for one lock word and any number
    of cores. Every access to the lock word or the lock's record is a step of its own, and
    steps of different cores interleave freely.

    `show_error` makes an environment call, and the handler of calls from machine mode resumes
    behind it (trap/machine_exception.c), so it returns. Where it was called for want of a record,
    the code goes on to use a null pointer, and what follows is undefined. Where it was called for
    a release by the wrong core, the code goes on to free the lock word a second time. */
module RecursiveLock {
  /** The lock's `reculock_t`; used says that its lock field is set. */
  datatype Record = Record(used: bool, counter: int, core: nat)

  /** The call a core is in. Again is the `reculock_trylock` inside `reculock_lock`. */
  datatype Goal = Acquire | Try | Again | Release

  datatype Outcome = Uncalled | Acquired | Refused | Released | Mismatched

  /** What follows the swap that frees the lock word. */
  datatype After = Return(outcome: Outcome) | Wait | NullRecord | SecondFree

  datatype Pc =
    | Idle(last: Outcome)
    | Swap(goal: Goal)
    | Lookup(goal: Goal)
    | Init(goal: Goal)
    | Test(goal: Goal)
    | Count(first: bool)
    | Own
    | Drop
    | TestZero
    | ClearCore
    | ClearCounter
    | ClearLock
    | Leave(after: After)
    | Spin
    | FreeAgain
    | Undefined

  /** depths is how often each core has raised the counter less how often it has lowered it. pristine says that the
      record, if any, is still the one `_lock_init_recursive` made. */
  datatype State = State(word: int, record: Record, pcs: seq<Pc>, depths: seq<nat>, pristine: bool)

  /** The choices left to a step: the call an idle core makes, whether a slot of the shared
      table is free, and whether the counter in slot 0, which may be another lock's, reads 0. */
  datatype Choice = Choice(call: Goal, slotFree: bool, slotZero: bool)

  predicate Shaped(s: State) {
    |s.pcs| == |s.depths|
  }

  predicate CanStep(s: State, c: nat, choice: Choice) {
    c < |s.pcs| && s.pcs[c] != Undefined && choice.call != Again
  }

  function Goto(s: State, c: nat, pc: Pc): State
    requires c < |s.pcs|
  {
    s.(pcs := s.pcs[c := pc])
  }

  /** The atomic swap with -1 of `lock_trylock`. */
  function SwapStep(s: State, c: nat, goal: Goal): State
    requires c < |s.pcs|
  {
    Goto(s.(word := -1), c,
         if s.word == 0 then Lookup(goal)
         else match goal
              case Try => Idle(Refused)
              case Again => Spin
              case _ => Swap(goal))
  }

  function LookupStep(s: State, c: nat, goal: Goal): State
    requires c < |s.pcs|
  {
    Goto(s, c, if s.record.used then Test(goal) else if goal == Release then Leave(NullRecord) else Init(goal))
  }

  function InitStep(s: State, c: nat, goal: Goal, slotFree: bool): State
    requires c < |s.pcs|
  {
    if slotFree then Goto(s.(record := Record(true, 0, 0)), c, Test(goal)) else Goto(s, c, Leave(NullRecord))
  }

  /** The comparisons on the record that was found. */
  function TestStep(s: State, c: nat, goal: Goal): State
    requires c < |s.pcs|
  {
    Goto(s, c,
         if goal == Release then (if s.record.core == c then Drop else Leave(SecondFree))
         else if s.record.counter == 0 then Count(true)
         else if s.record.core == c then Count(false)
         else Leave(if goal == Try then Return(Refused) else Wait))
  }

  function CountStep(s: State, c: nat, first: bool): State
    requires c < |s.pcs| && Shaped(s)
  {
    Goto(s.(record := s.record.(counter := s.record.counter + 1), depths := s.depths[c := s.depths[c] + 1],
            pristine := false),
         c, if first then Own else Leave(Return(Acquired)))
  }

  function DropStep(s: State, c: nat): State
    requires c < |s.pcs| && Shaped(s)
  {
    var depth := if s.depths[c] > 0 then s.depths[c] - 1 else 0;
    Goto(s.(record := s.record.(counter := s.record.counter - 1), depths := s.depths[c := depth], pristine := false),
         c, TestZero)
  }

  /** Accesses to the record's fields by a core that goes straight on. */
  function FieldStep(s: State, c: nat): State
    requires c < |s.pcs|
  {
    match s.pcs[c]
    case Own => Goto(s.(record := s.record.(core := c)), c, Leave(Return(Acquired)))
    case TestZero => Goto(s, c, if s.record.counter <= 0 then ClearCore else Leave(Return(Released)))
    case ClearCore => Goto(s.(record := s.record.(core := 0)), c, ClearCounter)
    case ClearCounter => Goto(s.(record := s.record.(counter := 0)), c, ClearLock)
    case ClearLock => Goto(s.(record := s.record.(used := false)), c, Leave(Return(Released)))
    case _ => s
  }

  /** The atomic swap with 0 of `lock_unlock`, then a return, the wait loop, or `show_error`. */
  function LeaveStep(s: State, c: nat, after: After): State
    requires c < |s.pcs|
  {
    Goto(s.(word := 0), c,
         match after
         case Return(outcome) => Idle(outcome)
         case Wait => Spin
         case NullRecord => Undefined
         case SecondFree => FreeAgain)
  }

  /** The second `lock_unlock` of a release by the wrong core. */
  function FreeAgainStep(s: State, c: nat): State
    requires c < |s.pcs|
  {
    Goto(s.(word := 0), c, Idle(Mismatched))
  }

  /** The read of the counter of slot 0 in the wait loop; it takes no lock. */
  function SpinStep(s: State, c: nat, slotZero: bool): State
    requires c < |s.pcs|
  {
    if slotZero then Goto(s, c, Swap(Again)) else s
  }

  /** Cores that use the record have found one. */
  predicate NeedsRecord(pc: Pc) {
    pc.Test? || pc.Count? || pc.Own? || pc.Drop? || pc.TestZero? || pc.ClearCore? || pc.ClearCounter? || pc.ClearLock?
  }

  function Step(s: State, c: nat, choice: Choice): State
    requires Shaped(s) && CanStep(s, c, choice)
  {
    match s.pcs[c]
    case Idle(_) => Goto(s, c, Swap(choice.call))
    case Swap(goal) => SwapStep(s, c, goal)
    case Lookup(goal) => LookupStep(s, c, goal)
    case Init(goal) => InitStep(s, c, goal, choice.slotFree)
    case Test(goal) => TestStep(s, c, goal)
    case Count(first) => CountStep(s, c, first)
    case Drop => DropStep(s, c)
    case Leave(after) => LeaveStep(s, c, after)
    case Spin => SpinStep(s, c, choice.slotZero)
    case FreeAgain => FreeAgainStep(s, c)
    case Undefined => s
    case _ => FieldStep(s, c)
  }

  /** Between winning the lock word and freeing it. */
  predicate Inside(pc: Pc) {
    pc.Lookup? || pc.Init? || pc.Leave? || NeedsRecord(pc)
  }

  ghost predicate NobodyElse(s: State, c: nat) {
    forall d | 0 <= d < |s.depths| && d != c :: s.depths[d] == 0
  }

  /** The record tells the truth: without one, or with counter zero, nobody holds the lock;
      otherwise its core holds it counter deep and nobody else does. */
  ghost predicate RecordTrue(s: State) {
    if !s.record.used || s.record.counter == 0 then forall d | 0 <= d < |s.depths| :: s.depths[d] == 0
    else
      && s.record.counter > 0 && s.record.core < |s.depths|
      && s.depths[s.record.core] == s.record.counter && NobodyElse(s, s.record.core)
  }

  /** A record is kept at depth zero only before the lock was ever taken. */
  predicate RecordEarned(s: State) {
    s.record.used && s.record.counter == 0 ==> s.pristine && s.record.core == 0
  }

  /** What a core inside knows, step by step. */
  ghost predicate Knows(s: State, c: nat)
    requires Shaped(s) && c < |s.pcs|
  {
    match s.pcs[c]
    case Lookup(_) => RecordTrue(s) && RecordEarned(s)
    case Init(goal) => RecordTrue(s) && !s.record.used && goal != Release
    case Test(goal) => RecordTrue(s) && s.record.used && (goal == Release ==> RecordEarned(s))
    case Count(first) =>
      && RecordTrue(s) && s.record.used
      && (if first then s.record.counter == 0 else s.record.counter > 0 && s.record.core == c)
    case Own => s.record.used && s.record.counter == 1 == s.depths[c] && NobodyElse(s, c)
    case Drop => RecordTrue(s) && RecordEarned(s) && s.record.used && s.record.core == c
    case TestZero =>
      && s.record.used && s.record.core == c && NobodyElse(s, c)
      && (s.record.counter == s.depths[c] || (s.record.counter == -1 && s.depths[c] == 0))
    case ClearCore => s.record.used && s.depths[c] == 0 && NobodyElse(s, c)
    case ClearCounter => s.record.used && s.depths[c] == 0 && NobodyElse(s, c)
    case ClearLock => s.record.used && s.depths[c] == 0 && NobodyElse(s, c)
    case Leave(after) =>
      && RecordTrue(s) && RecordEarned(s) && Entitled(after, s.depths[c])
      && (after == Return(Released) ==> NobodyElse(s, c))
    case _ => true
  }

  /** Only a core that holds the lock returns it, only one that does not hold it fails, and
      nobody is about to free the word twice. */
  predicate Entitled(after: After, depth: nat) {
    && (after == Return(Acquired) ==> depth > 0)
    && (after == NullRecord || after == Wait ==> depth == 0)
    && after != SecondFree
  }

  /** What a core outside knows: nobody but itself changes its depth. */
  predicate Settled(pc: Pc, depth: nat) {
    && (pc == Idle(Acquired) ==> depth > 0)
    && (pc == Undefined || pc == Spin || pc == Swap(Again) ==> depth == 0)
    && pc != FreeAgain
  }

  /** Core c is releasing, and the record names another core: the code goes to `show_error`. */
  predicate Mismatch(s: State, c: nat) {
    c < |s.pcs| && s.pcs[c] == Test(Release) && s.record.core != c
  }

  /** The lock word is -1 exactly while one core, and only one, is inside. */
  ghost predicate WordTrue(s: State) {
    && (s.word == 0 || s.word == -1)
    && (s.word == 0 ==> forall c | 0 <= c < |s.pcs| :: !Inside(s.pcs[c]))
    && (s.word == -1 ==> exists c | 0 <= c < |s.pcs| :: Inside(s.pcs[c]))
    && (forall c, d | 0 <= c < |s.pcs| && 0 <= d < |s.pcs| && Inside(s.pcs[c]) && Inside(s.pcs[d]) :: c == d)
  }

  ghost predicate Invariant(s: State) {
    && Shaped(s) && WordTrue(s)
    && (s.word == 0 ==> RecordTrue(s) && RecordEarned(s))
    && (forall c | 0 <= c < |s.pcs| :: Knows(s, c) && Settled(s.pcs[c], s.depths[c]))
  }

  predicate Ready(s: State, c: nat, choice: Choice) {
    Shaped(s) && CanStep(s, c, choice)
  }

  /** A step changes the position and depth of its own core only. */
  lemma OwnCoreOnly(s: State, c: nat, choice: Choice)
    requires Ready(s, c, choice)
    ensures var t := Step(s, c, choice);
            && Shaped(t) && |t.pcs| == |s.pcs|
            && forall d | 0 <= d < |s.pcs| && d != c :: t.pcs[d] == s.pcs[d] && t.depths[d] == s.depths[d]
  {
  }

  /** How a step moves a core in and out, and the lock word with it. */
  lemma InAndOut(s: State, c: nat, choice: Choice)
    requires Ready(s, c, choice)
    ensures var (pc, t) := (s.pcs[c], Step(s, c, choice));
            && (pc.Leave? ==> t.word == 0 && !Inside(t.pcs[c]))
            && (pc.Swap? ==> t.word == -1 && (Inside(t.pcs[c]) <==> s.word == 0))
            && (!pc.Leave? && !pc.Swap? && !pc.FreeAgain? ==> t.word == s.word && (Inside(t.pcs[c]) <==> Inside(pc)))
  {
  }

  /** A step of a core outside changes neither record nor depths. */
  lemma OutsideFrame(s: State, c: nat, choice: Choice)
    requires Ready(s, c, choice) && !Inside(s.pcs[c]) && Settled(s.pcs[c], s.depths[c])
    ensures var t := Step(s, c, choice);
            && t.record == s.record && t.depths == s.depths && t.pristine == s.pristine
            && Settled(t.pcs[c], t.depths[c])
            && (Inside(t.pcs[c]) ==> s.word == 0 && t.pcs[c].Lookup?)
  {
  }

  lemma WordStep(s: State, c: nat, choice: Choice)
    requires Ready(s, c, choice) && WordTrue(s) && s.pcs[c] != FreeAgain
    ensures WordTrue(Step(s, c, choice))
  {
    OwnCoreOnly(s, c, choice);
    InAndOut(s, c, choice);
    var t := Step(s, c, choice);
    hide Step, Inside, Ready;
    if t.word == -1 {
      if s.word == 0 {
        assert Inside(t.pcs[c]);
      } else {
        var d :| 0 <= d < |s.pcs| && Inside(s.pcs[d]);
        assert Inside(t.pcs[d]);
      }
    }
  }

  /** Knowledge is about the record and the depths. */
  lemma SameKnowledge(s: State, t: State, d: nat)
    requires Shaped(s) && Shaped(t) && |s.pcs| == |t.pcs| && d < |s.pcs|
    requires t.record == s.record && t.depths == s.depths && t.pristine == s.pristine
    ensures RecordTrue(t) == RecordTrue(s) && RecordEarned(t) == RecordEarned(s)
    ensures t.pcs[d] == s.pcs[d] ==> Knows(t, d) == Knows(s, d)
    ensures t.pcs[d].Lookup? ==> Knows(t, d) == (RecordTrue(s) && RecordEarned(s))
    ensures !Inside(t.pcs[d]) ==> Knows(t, d)
  {
  }

  lemma OutsideStep(s: State, c: nat, choice: Choice)
    requires Invariant(s) && CanStep(s, c, choice) && !Inside(s.pcs[c])
    ensures Invariant(Step(s, c, choice))
  {
    assert Settled(s.pcs[c], s.depths[c]);
    OwnCoreOnly(s, c, choice);
    OutsideFrame(s, c, choice);
    WordStep(s, c, choice);
    InAndOut(s, c, choice);
    var t := Step(s, c, choice);
    hide Step, CanStep, Knows, RecordTrue, RecordEarned, Inside, WordTrue;
    forall d | 0 <= d < |t.pcs|
      ensures Knows(t, d) && Settled(t.pcs[d], t.depths[d])
    {
      SameKnowledge(s, t, d);
    }
    SameKnowledge(s, t, c);
    assert t.word == 0 ==> s.word == 0;
  }

  /** Looking the record up or making one. */
  lemma FindingKnows(s: State, c: nat, choice: Choice)
    requires Ready(s, c, choice) && !Mismatch(s, c) && Inside(s.pcs[c]) && Knows(s, c) && Settled(s.pcs[c], s.depths[c])
    requires s.pcs[c].Lookup? || s.pcs[c].Init? || s.pcs[c].Test?
    ensures var t := Step(s, c, choice);
            && Shaped(t) && c < |t.pcs| && Knows(t, c) && Settled(t.pcs[c], t.depths[c])
            && (s.pcs[c].Leave? ==> RecordTrue(t) && RecordEarned(t))
  {
  }

  /** Changing the counter and the owner. */
  lemma CountingKnows(s: State, c: nat, choice: Choice)
    requires Ready(s, c, choice) && Inside(s.pcs[c]) && Knows(s, c) && Settled(s.pcs[c], s.depths[c])
    requires s.pcs[c].Count? || s.pcs[c].Own? || s.pcs[c].Drop?
    ensures var t := Step(s, c, choice);
            && Shaped(t) && c < |t.pcs| && Knows(t, c) && Settled(t.pcs[c], t.depths[c])
            && (s.pcs[c].Leave? ==> RecordTrue(t) && RecordEarned(t))
  {
  }

  /** Clearing the record and freeing the lock word. */
  lemma ClearingKnows(s: State, c: nat, choice: Choice)
    requires Ready(s, c, choice) && Inside(s.pcs[c]) && Knows(s, c) && Settled(s.pcs[c], s.depths[c])
    requires s.pcs[c].TestZero? || s.pcs[c].ClearCore? || s.pcs[c].ClearCounter? || s.pcs[c].ClearLock?
             || s.pcs[c].Leave?
    ensures var t := Step(s, c, choice);
            && Shaped(t) && c < |t.pcs| && Knows(t, c) && Settled(t.pcs[c], t.depths[c])
            && (s.pcs[c].Leave? ==> RecordTrue(t) && RecordEarned(t))
  {
  }

  /** The stepping core inside keeps its own knowledge. */
  lemma InsideKnows(s: State, c: nat, choice: Choice)
    requires Ready(s, c, choice) && !Mismatch(s, c) && Inside(s.pcs[c]) && Knows(s, c) && Settled(s.pcs[c], s.depths[c])
    ensures var t := Step(s, c, choice);
            && Shaped(t) && c < |t.pcs| && Knows(t, c) && Settled(t.pcs[c], t.depths[c])
            && (s.pcs[c].Leave? ==> RecordTrue(t) && RecordEarned(t))
  {
    if s.pcs[c].Lookup? || s.pcs[c].Init? || s.pcs[c].Test? {
      FindingKnows(s, c, choice);
    } else if s.pcs[c].Count? || s.pcs[c].Own? || s.pcs[c].Drop? {
      CountingKnows(s, c, choice);
    } else {
      ClearingKnows(s, c, choice);
    }
    hide Knows, Step, Ready, RecordTrue, RecordEarned;
  }

  lemma InsideStep(s: State, c: nat, choice: Choice)
    requires Invariant(s) && CanStep(s, c, choice) && Inside(s.pcs[c]) && !Mismatch(s, c)
    ensures Invariant(Step(s, c, choice))
  {
    assert Knows(s, c) && Settled(s.pcs[c], s.depths[c]);
    OwnCoreOnly(s, c, choice);
    InsideKnows(s, c, choice);
    WordStep(s, c, choice);
    InAndOut(s, c, choice);
    var t := Step(s, c, choice);
    hide Step, Ready, RecordTrue, RecordEarned, NeedsRecord, NobodyElse, Mismatch;
    forall d | 0 <= d < |t.pcs|
      ensures Knows(t, d) && Settled(t.pcs[d], t.depths[d])
    {
      if d != c {
        assert Settled(s.pcs[d], s.depths[d]) && t.pcs[d] == s.pcs[d] && t.depths[d] == s.depths[d];
        assert !Inside(t.pcs[d]);
      }
    }
  }

  /** The lock word free, no record or the one `_lock_init_recursive` makes. */
  predicate Initial(s: State) {
    && Shaped(s) && s.word == 0 && s.pristine
    && s.record.counter == 0 && s.record.core == 0
    && forall c | 0 <= c < |s.pcs| :: s.pcs[c] == Idle(Uncalled) && s.depths[c] == 0
  }

  /** s can be reached from an initial state by these steps. */
  ghost predicate Reaches(steps: seq<(nat, Choice)>, s: State)
    decreases |steps|
  {
    if steps == [] then Initial(s)
    else
      var last := steps[|steps| - 1];
      exists before: State :: Reaches(steps[..|steps| - 1], before) && CanFollow(before, last, s)
  }

  ghost predicate CanFollow(s: State, step: (nat, Choice), t: State) {
    Shaped(s) && CanStep(s, step.0, step.1) && t == Step(s, step.0, step.1)
  }

  /** The same, and nobody's release was refused on the way. */
  ghost predicate Peaceful(steps: seq<(nat, Choice)>, s: State)
    decreases |steps|
  {
    if steps == [] then Initial(s)
    else
      var last := steps[|steps| - 1];
      exists before: State ::
        Peaceful(steps[..|steps| - 1], before) && CanFollow(before, last, s) && !Mismatch(before, last.0)
  }

  lemma {:induction false} PeacefulReaches(steps: seq<(nat, Choice)>, s: State)
    requires Peaceful(steps, s)
    ensures Reaches(steps, s)
    decreases |steps|
  {
    if steps != [] {
      var last := |steps| - 1;
      var before: State :|
        Peaceful(steps[..last], before) && CanFollow(before, steps[last], s) && !Mismatch(before, steps[last].0);
      PeacefulReaches(steps[..last], before);
    }
  }

  lemma PeacefulStep(s: State, step: (nat, Choice), t: State)
    requires Invariant(s) && CanFollow(s, step, t) && !Mismatch(s, step.0)
    ensures Invariant(t)
  {
    if Inside(s.pcs[step.0]) {
      InsideStep(s, step.0, step.1);
    } else {
      OutsideStep(s, step.0, step.1);
    }
  }

  lemma {:induction false} PeacefulRunKeepsInvariant(steps: seq<(nat, Choice)>, s: State)
    requires Peaceful(steps, s)
    ensures Invariant(s)
    decreases |steps|
  {
    if steps != [] {
      hide Invariant, CanFollow, Mismatch;
      var last := |steps| - 1;
      var before: State :|
        Peaceful(steps[..last], before) && CanFollow(before, steps[last], s) && !Mismatch(before, steps[last].0);
      PeacefulRunKeepsInvariant(steps[..last], before);
      PeacefulStep(before, steps[last], s);
    } else {
      hide Knows;
      InitialInvariant(s);
    }
  }

  lemma InitialInvariant(s: State)
    requires Initial(s)
    ensures Invariant(s)
  {
  }

  /** A core that is to use the record finds one in use. */
  lemma RecordInUse(steps: seq<(nat, Choice)>, s: State, c: nat)
    requires Peaceful(steps, s) && c < |s.pcs| && NeedsRecord(s.pcs[c])
    ensures s.record.used
  {
    PeacefulRunKeepsInvariant(steps, s);
    assert Knows(s, c);
  }

  lemma InsideExcludes(s: State, e: nat, c: nat, d: nat)
    requires Shaped(s) && e < |s.pcs| && Inside(s.pcs[e]) && Knows(s, e)
    requires c < |s.depths| && d < |s.depths| && s.depths[c] > 0 && s.depths[d] > 0
    ensures c == d
  {
  }

  /** Mutual exclusion: at most one core is inside, and at most one has positive depth. */
  ghost predicate Exclusive(s: State) {
    && (forall c, d | 0 <= c < |s.pcs| && 0 <= d < |s.pcs| && Inside(s.pcs[c]) && Inside(s.pcs[d]) :: c == d)
    && (forall c, d | 0 <= c < |s.depths| && 0 <= d < |s.depths| && s.depths[c] > 0 && s.depths[d] > 0 :: c == d)
  }

  lemma InvariantExcludes(s: State)
    requires Invariant(s)
    ensures Exclusive(s)
  {
    hide Knows, Settled, Inside;
    forall c, d | 0 <= c < |s.depths| && 0 <= d < |s.depths| && s.depths[c] > 0 && s.depths[d] > 0
      ensures c == d
    {
      if s.word == -1 {
        var e :| 0 <= e < |s.pcs| && Inside(s.pcs[e]);
        InsideExcludes(s, e, c, d);
      }
    }
  }

  /** As long as no release is refused, the lock excludes. */
  lemma MutualExclusion(steps: seq<(nat, Choice)>, s: State)
    requires Peaceful(steps, s)
    ensures Exclusive(s)
  {
    PeacefulRunKeepsInvariant(steps, s);
    InvariantExcludes(s);
  }

  /** While the lock word is free, the record's counter is its core's depth, and once the
      lock has been used the record exists exactly while some core holds the lock. */
  lemma RecordCounts(steps: seq<(nat, Choice)>, s: State)
    requires Peaceful(steps, s) && s.word == 0
    ensures s.record.used ==> s.record.counter >= 0
    ensures forall c | 0 <= c < |s.depths| && s.depths[c] > 0 :: s.record == Record(true, s.depths[c], c)
    ensures !s.pristine ==> (s.record.used <==> exists c | 0 <= c < |s.depths| :: s.depths[c] > 0)
  {
    PeacefulRunKeepsInvariant(steps, s);
    if s.record.used && s.record.counter > 0 {
      assert s.depths[s.record.core] > 0;
    }
  }

  /** A core that was told it has the lock has it, alone; one that is waiting, or that went on
      without a record, does not hold it. */
  lemma ReturnsAreTrue(steps: seq<(nat, Choice)>, s: State, c: nat)
    requires Peaceful(steps, s) && c < |s.pcs|
    ensures Shaped(s)
    ensures s.pcs[c] == Idle(Acquired) ==> s.depths[c] > 0 && NobodyElse(s, c)
    ensures s.pcs[c] == Undefined || s.pcs[c] == Spin ==> s.depths[c] == 0
  {
    PeacefulRunKeepsInvariant(steps, s);
    assert Settled(s.pcs[c], s.depths[c]);
    InvariantExcludes(s);
  }

  /** Nobody holds a lock that was never taken. */
  lemma {:induction false} PristineUnused(steps: seq<(nat, Choice)>, s: State)
    requires Reaches(steps, s)
    ensures Shaped(s) && (s.pristine ==> forall d | 0 <= d < |s.depths| :: s.depths[d] == 0)
    decreases |steps|
  {
    if steps != [] {
      var last := |steps| - 1;
      var before: State :| Reaches(steps[..last], before) && CanFollow(before, steps[last], s);
      PristineUnused(steps[..last], before);
    }
  }

  // When a release is refused.

  /** A release that has found a record is refused exactly when its core does not hold the lock,
      but for core 0 on a lock that nobody has taken yet; that one drops the record silently. One
      that has found no record was made by a core that does not hold the lock. */
  lemma UnmatchedRelease(steps: seq<(nat, Choice)>, s: State, c: nat)
    requires Peaceful(steps, s) && c < |s.pcs|
    ensures Shaped(s)
    ensures s.pcs[c] == Test(Release) ==> (Mismatch(s, c) <==> s.depths[c] == 0 && !(s.pristine && c == 0))
    ensures s.pcs[c] == Drop ==> (s.depths[c] == 0 <==> s.pristine && c == 0)
    ensures s.pcs[c] == Lookup(Release) && !s.record.used ==> s.depths[c] == 0
  {
    PeacefulRunKeepsInvariant(steps, s);
    assert Knows(s, c);
    PeacefulReaches(steps, s);
    PristineUnused(steps, s);
  }

  /** Callers that release only what they hold. */
  ghost predicate Orderly(steps: seq<(nat, Choice)>, s: State)
    decreases |steps|
  {
    if steps == [] then Initial(s)
    else
      var last := steps[|steps| - 1];
      exists before: State :: Orderly(steps[..|steps| - 1], before) && CanFollow(before, last, s)
        && InOrder(before, last)
  }

  /** A caller's own condition: it calls a release only when it holds the lock. */
  predicate InOrder(s: State, step: (nat, Choice)) {
    Shaped(s) && step.0 < |s.pcs| && s.pcs[step.0].Idle? && step.1.call == Release ==> s.depths[step.0] > 0
  }

  /** Cores on their way to a release hold the lock. */
  ghost predicate ReleasersHold(s: State) {
    Shaped(s) && forall c | 0 <= c < |s.pcs| :: OnTheWay(s.pcs[c]) ==> s.depths[c] > 0
  }

  predicate OnTheWay(pc: Pc) {
    pc == Swap(Release) || pc == Lookup(Release) || pc == Init(Release) || pc == Test(Release) || pc.Drop?
  }

  /** No release of an orderly caller is refused. */
  lemma {:induction false} OrderlyIsPeaceful(steps: seq<(nat, Choice)>, s: State)
    requires Orderly(steps, s)
    ensures Peaceful(steps, s) && ReleasersHold(s)
    decreases |steps|
  {
    if steps != [] {
      var last := |steps| - 1;
      var before: State :|
        Orderly(steps[..last], before) && CanFollow(before, steps[last], s) && InOrder(before, steps[last]);
      OrderlyIsPeaceful(steps[..last], before);
      PeacefulRunKeepsInvariant(steps[..last], before);
      HolderIsRecorded(before, steps[last].0);
      OrderlyStep(before, steps[last], s);
      hide Mismatch, CanFollow, Invariant, ReleasersHold;
      assert Peaceful(steps[..last], before) && CanFollow(before, steps[last], s) && !Mismatch(before, steps[last].0);
    }
  }

  lemma HolderIsRecorded(s: State, c: nat)
    requires Invariant(s) && ReleasersHold(s) && c < |s.pcs|
    ensures !Mismatch(s, c)
  {
    assert Knows(s, c);
  }

  lemma OrderlyStep(s: State, step: (nat, Choice), t: State)
    requires ReleasersHold(s) && CanFollow(s, step, t) && InOrder(s, step)
    ensures ReleasersHold(t)
  {
  }

  /** So among callers that release only what they hold, the lock excludes. */
  lemma OrderlyCallersExclude(steps: seq<(nat, Choice)>, s: State)
    requires Orderly(steps, s)
    ensures Exclusive(s)
  {
    OrderlyIsPeaceful(steps, s);
    MutualExclusion(steps, s);
  }

  // What callers see: the calls that returned.

  /** Core c returns from an acquire, or from a release, between two states. */
  function Returned(s: State, t: State, c: nat): int {
    if c >= |s.pcs| || c >= |t.pcs| || s.pcs[c] == t.pcs[c] then 0
    else if t.pcs[c] == Idle(Acquired) then 1
    else if t.pcs[c] == Idle(Released) then -1
    else 0
  }

  /** The acquires less the releases that core c has returned from. */
  function Held(states: seq<State>, c: nat): int
    decreases |states|
  {
    if |states| <= 1 then 0
    else Held(states[..|states| - 1], c) + Returned(states[|states| - 2], states[|states| - 1], c)
  }

  /** The states of a run without a refused release. */
  ghost predicate Trace(states: seq<State>)
    decreases |states|
  {
    if |states| <= 1 then |states| == 1 && Initial(states[0])
    else
      var (before, s) := (states[|states| - 2], states[|states| - 1]);
      && Trace(states[..|states| - 1])
      && exists step: (nat, Choice) :: CanFollow(before, step, s) && !Mismatch(before, step.0)
  }

  /** The states of a run whose callers release only what they hold, by their own count. */
  ghost predicate OrderlyTrace(states: seq<State>)
    decreases |states|
  {
    if |states| <= 1 then |states| == 1 && Initial(states[0])
    else
      var (before, s, fewer) := (states[|states| - 2], states[|states| - 1], states[..|states| - 1]);
      && OrderlyTrace(fewer)
      && exists step: (nat, Choice) :: CanFollow(before, step, s) && OwnRelease(fewer, step)
  }

  ghost predicate OwnRelease(states: seq<State>, step: (nat, Choice)) {
    && |states| > 0
    && (var s := states[|states| - 1];
        step.0 < |s.pcs| && s.pcs[step.0].Idle? && step.1.call == Release ==> Held(states, step.0) > 0)
  }

  /** What a core's depth is ahead of its returned calls. */
  function Ahead(pc: Pc): int {
    if pc.Own? || pc == Leave(Return(Acquired)) then 1
    else if pc.TestZero? || pc.ClearCore? || pc.ClearCounter? || pc.ClearLock? || pc == Leave(Return(Released)) then -1
    else 0
  }

  /** A step moves a core's depth and its returned calls together; only the release of a lock that
      was never taken returns without having lowered a depth. */
  lemma StepReturns(s: State, step: (nat, Choice), t: State, c: nat)
    requires CanFollow(s, step, t) && c < |s.pcs|
    ensures Shaped(t) && |t.pcs| == |s.pcs|
    ensures Returned(s, t, c) <= t.depths[c] - Ahead(t.pcs[c]) - (s.depths[c] - Ahead(s.pcs[c]))
    ensures !(s.pcs[c] == Drop && s.depths[c] == 0) ==>
              Returned(s, t, c) == t.depths[c] - Ahead(t.pcs[c]) - (s.depths[c] - Ahead(s.pcs[c]))
  {
    OwnCoreOnly(s, step.0, step.1);
    if c != step.0 {
      hide Step;
    }
  }

  lemma {:induction false} TraceIsPeaceful(states: seq<State>) returns (steps: seq<(nat, Choice)>)
    requires Trace(states)
    ensures |states| > 0 && Peaceful(steps, states[|states| - 1])
    decreases |states|
  {
    if |states| == 1 {
      steps := [];
    } else {
      hide CanFollow, Mismatch;
      var before, s := states[|states| - 2], states[|states| - 1];
      assert states[..|states| - 1][|states| - 2] == before;
      var step: (nat, Choice) :| CanFollow(before, step, s) && !Mismatch(before, step.0);
      var fewer := TraceIsPeaceful(states[..|states| - 1]);
      steps := fewer + [step];
      PeacefulLonger(fewer, step, before, s);
    }
  }

  lemma PeacefulLonger(steps: seq<(nat, Choice)>, step: (nat, Choice), before: State, after: State)
    requires Peaceful(steps, before) && CanFollow(before, step, after) && !Mismatch(before, step.0)
    ensures Peaceful(steps + [step], after)
  {
    var longer := steps + [step];
    assert longer[..|longer| - 1] == steps && longer[|longer| - 1] == step;
    assert Peaceful(longer[..|longer| - 1], before) && CanFollow(before, longer[|longer| - 1], after)
           && !Mismatch(before, longer[|longer| - 1].0);
  }

  /** No core has returned from more acquires than its depth accounts for. */
  lemma {:induction false} HeldAtMost(states: seq<State>, c: nat)
    requires Trace(states) && c < |states[|states| - 1].pcs|
    ensures var s := states[|states| - 1]; Shaped(s) && Held(states, c) <= s.depths[c] - Ahead(s.pcs[c])
    decreases |states|
  {
    if |states| > 1 {
      var fewer := states[..|states| - 1];
      var before, s := states[|states| - 2], states[|states| - 1];
      assert fewer[|fewer| - 1] == before;
      var step: (nat, Choice) :| CanFollow(before, step, s) && !Mismatch(before, step.0);
      OwnCoreOnly(before, step.0, step.1);
      hide Step;
      HeldAtMost(fewer, c);
      StepReturns(before, step, s, c);
    }
  }

  /** At most one core has returned from more acquires than releases. */
  ghost predicate HeldByOne(states: seq<State>)
    requires |states| > 0
  {
    var n := |states[|states| - 1].pcs|;
    forall c, d | 0 <= c < n && 0 <= d < n && Held(states, c) > 0 && Held(states, d) > 0 :: c == d
  }

  /** So the lock excludes its callers, as long as no release is refused. */
  lemma CallersExclude(states: seq<State>)
    requires Trace(states)
    ensures |states| > 0 && HeldByOne(states)
  {
    var steps := TraceIsPeaceful(states);
    var s := states[|states| - 1];
    PeacefulRunKeepsInvariant(steps, s);
    var n := |s.pcs|;
    forall c, d | 0 <= c < n && 0 <= d < n && Held(states, c) > 0 && Held(states, d) > 0
      ensures c == d
    {
      HeldAtMost(states, c);
      HeldAtMost(states, d);
      HoldersMeet(s, c, d);
    }
  }

  lemma HoldersMeet(s: State, c: nat, d: nat)
    requires Invariant(s) && c < |s.pcs| && d < |s.pcs|
    requires s.depths[c] > Ahead(s.pcs[c]) && s.depths[d] > Ahead(s.pcs[d])
    ensures c == d
  {
    InvariantExcludes(s);
    assert Knows(s, c) && Knows(s, d);
    hide WordTrue, RecordEarned;
  }

  // The counter counts calls.

  /** Callers that release only what they hold by their own count do so by the model's. */
  lemma {:induction false} OrderlyHeld(states: seq<State>) returns (steps: seq<(nat, Choice)>)
    requires OrderlyTrace(states)
    ensures |states| > 0 && Orderly(steps, states[|states| - 1]) && Trace(states)
    ensures var s := states[|states| - 1];
            Shaped(s) && forall c | 0 <= c < |s.pcs| :: Held(states, c) == s.depths[c] - Ahead(s.pcs[c])
    decreases |states|
  {
    hide Step, Mismatch, Peaceful, Invariant, Settled, ReleasersHold, Orderly, Ahead, Returned;
    if |states| == 1 {
      steps := [];
      HeldAtStart(states[0]);
    } else {
      var fewer := states[..|states| - 1];
      var before, s := states[|states| - 2], states[|states| - 1];
      assert fewer[|fewer| - 1] == before;
      var step: (nat, Choice) :| CanFollow(before, step, s) && OwnRelease(fewer, step);
      var shorter := OrderlyHeld(fewer);
      IdleIsNotAhead(fewer, before, step);
      OrderlyLonger(shorter, step, before, s);
      steps := shorter + [step];
      OrderlyIsPeaceful(shorter, before);
      PeacefulRunKeepsInvariant(shorter, before);
      HolderIsRecorded(before, step.0);
      SameCores(before, step, s);
      forall c | 0 <= c < |s.pcs|
        ensures Held(states, c) == s.depths[c] - Ahead(s.pcs[c])
      {
        DropsHeld(before, c);
        StepReturns(before, step, s, c);
      }
    }
  }

  lemma HeldAtStart(s: State)
    requires Initial(s)
    ensures Orderly([], s) && forall c | 0 <= c < |s.pcs| :: s.depths[c] == Ahead(s.pcs[c]) == 0
  {
  }

  lemma SameCores(s: State, step: (nat, Choice), t: State)
    requires CanFollow(s, step, t)
    ensures Shaped(s) && Shaped(t) && |s.pcs| == |t.pcs|
  {
    OwnCoreOnly(s, step.0, step.1);
  }

  lemma IdleIsNotAhead(states: seq<State>, s: State, step: (nat, Choice))
    requires |states| > 0 && states[|states| - 1] == s && Shaped(s) && OwnRelease(states, step)
    requires forall c | 0 <= c < |s.pcs| :: Held(states, c) == s.depths[c] - Ahead(s.pcs[c])
    ensures InOrder(s, step)
  {
  }

  lemma DropsHeld(s: State, c: nat)
    requires Invariant(s) && ReleasersHold(s) && c < |s.pcs|
    ensures !(s.pcs[c] == Drop && s.depths[c] == 0)
  {
  }

  lemma OrderlyLonger(steps: seq<(nat, Choice)>, step: (nat, Choice), before: State, after: State)
    requires Orderly(steps, before) && CanFollow(before, step, after) && InOrder(before, step)
    ensures Orderly(steps + [step], after)
  {
    var longer := steps + [step];
    assert longer[..|longer| - 1] == steps && longer[|longer| - 1] == step;
    assert Orderly(longer[..|longer| - 1], before) && CanFollow(before, longer[|longer| - 1], after)
           && InOrder(before, longer[|longer| - 1]);
  }

  /** While the lock word is free, the record's counter is the number of acquires its core has
      returned from less its releases, and every other core's number is zero. A record whose
      counter is not zero is there exactly while some core's number is positive. */
  lemma CounterCountsCalls(states: seq<State>)
    requires OrderlyTrace(states) && states[|states| - 1].word == 0
    ensures |states| > 0
    ensures var s := states[|states| - 1];
            forall c | 0 <= c < |s.pcs| ::
              Held(states, c) == if s.record.used && s.record.core == c then s.record.counter else 0
    ensures var s := states[|states| - 1];
            s.record.used && s.record.counter != 0 <==> exists c | 0 <= c < |s.pcs| :: Held(states, c) > 0
    ensures var s := states[|states| - 1];
            WasTaken(states) ==> (s.record.used <==> exists c | 0 <= c < |s.pcs| :: Held(states, c) > 0)
  {
    hide Held, Invariant, Orderly, Peaceful, OrderlyTrace, Trace, WasTaken;
    var steps := OrderlyHeld(states);
    var s := states[|states| - 1];
    OrderlyIsPeaceful(steps, s);
    PeacefulRunKeepsInvariant(steps, s);
    forall c | 0 <= c < |s.pcs|
      ensures Held(states, c) == if s.record.used && s.record.core == c then s.record.counter else 0
    {
      FreeRecord(s, c);
    }
    OwnerIsCore(s);
    if s.record.used && s.record.counter != 0 {
      assert Held(states, s.record.core) > 0;
    }
    if WasTaken(states) {
      TakenForGood(states);
    }
  }

  /** Some call has returned with the lock. */
  ghost predicate WasTaken(states: seq<State>) {
    exists i, c | 0 <= i < |states| && 0 <= c < |states[i].pcs| :: states[i].pcs[c] == Idle(Acquired)
  }

  lemma {:induction false} TakenForGood(states: seq<State>)
    requires Trace(states) && WasTaken(states)
    ensures |states| > 0 && !states[|states| - 1].pristine
    decreases |states|
  {
    hide CanFollow, Mismatch, Peaceful, Initial;
    var s := states[|states| - 1];
    if c :| 0 <= c < |s.pcs| && s.pcs[c] == Idle(Acquired) {
      var steps := TraceIsPeaceful(states);
      TakenNow(steps, s, c);
    } else {
      var fewer := states[..|states| - 1];
      var i, c :| 0 <= i < |states| && 0 <= c < |states[i].pcs| && states[i].pcs[c] == Idle(Acquired);
      assert fewer[i] == states[i];
      TakenForGood(fewer);
      var before := states[|states| - 2];
      assert fewer[|fewer| - 1] == before;
      var step: (nat, Choice) :| CanFollow(before, step, s) && !Mismatch(before, step.0);
      StaysTaken(before, step, s);
    }
  }

  lemma StaysTaken(s: State, step: (nat, Choice), t: State)
    requires CanFollow(s, step, t) && !s.pristine
    ensures !t.pristine
  {
  }

  lemma TakenNow(steps: seq<(nat, Choice)>, s: State, c: nat)
    requires Peaceful(steps, s) && c < |s.pcs| && s.pcs[c] == Idle(Acquired)
    ensures !s.pristine
  {
    ReturnsAreTrue(steps, s, c);
    PeacefulReaches(steps, s);
    PristineUnused(steps, s);
  }

  lemma FreeRecord(s: State, c: nat)
    requires Invariant(s) && s.word == 0 && c < |s.pcs|
    ensures Ahead(s.pcs[c]) == 0 && s.depths[c] == if s.record.used && s.record.core == c then s.record.counter else 0
  {
    hide Knows, Settled;
    AheadOutside(s, c);
  }

  lemma OwnerIsCore(s: State)
    requires Invariant(s) && s.word == 0
    ensures s.record.used && s.record.counter != 0 ==> s.record.counter > 0 && s.record.core < |s.pcs|
    ensures s.record.used && s.record.counter == 0 ==> s.pristine
  {
  }

  lemma AheadOutside(s: State, c: nat)
    requires Invariant(s) && s.word == 0 && c < |s.pcs|
    ensures Ahead(s.pcs[c]) == 0
  {
    assert !Inside(s.pcs[c]);
  }

  // A call that nobody disturbs.

  /** n steps of core c. */
  function Alone(s: State, c: nat, choice: Choice, n: nat): State
    decreases n
  {
    if n == 0 || !Ready(s, c, choice) then s else Alone(Step(s, c, choice), c, choice, n - 1)
  }

  lemma {:induction false} AloneAdds(s: State, c: nat, choice: Choice, m: nat, n: nat)
    ensures Alone(s, c, choice, m + n) == Alone(Alone(s, c, choice, m), c, choice, n)
    decreases m
  {
    hide Step;
    if m > 0 && Ready(s, c, choice) {
      AloneAdds(Step(s, c, choice), c, choice, m - 1, n);
    } else if m > 0 {
      assert Alone(s, c, choice, n) == s;
    }
  }

  lemma AloneStep(s: State, c: nat, choice: Choice, n: nat)
    requires Ready(s, c, choice) && n > 0
    ensures Alone(s, c, choice, n) == Alone(Step(s, c, choice), c, choice, n - 1)
    ensures n == 1 ==> Alone(s, c, choice, n) == Step(s, c, choice)
  {
    hide Step;
  }

  /** The state with core c somewhere else and another lock word and record. */
  function Put(s: State, c: nat, word: int, record: Record, pc: Pc): State
    requires c < |s.pcs|
  {
    s.(word := word, record := record, pcs := s.pcs[c := pc])
  }

  /** Up to the comparisons. */
  lemma FindAlone(s: State, c: nat, choice: Choice)
    requires Ready(s, c, choice) && s.word == 0 && s.pcs[c].Idle?
    requires s.record.used || (choice.slotFree && choice.call != Release)
    ensures if s.record.used then Alone(s, c, choice, 3) == Put(s, c, -1, s.record, Test(choice.call))
            else Alone(s, c, choice, 4) == Put(s, c, -1, Record(true, 0, 0), Test(choice.call))
  {
    var n := if s.record.used then 3 else 4;
    var t := Put(s, c, 0, s.record, Swap(choice.call));
    assert Step(s, c, choice) == t;
    AloneStep(s, c, choice, n);
    var u := Put(s, c, -1, s.record, Lookup(choice.call));
    assert Step(t, c, choice) == u;
    AloneStep(t, c, choice, n - 1);
    AloneStep(u, c, choice, n - 2);
    if s.record.used {
      assert Step(u, c, choice) == Put(s, c, -1, s.record, Test(choice.call));
    } else {
      var v := Put(s, c, -1, s.record, Init(choice.call));
      assert Step(u, c, choice) == v;
      AloneStep(v, c, choice, 1);
      assert Step(v, c, choice) == Put(s, c, -1, Record(true, 0, 0), Test(choice.call));
    }
  }

  /** The word and the record after a call, and where its core is. */
  ghost predicate Ends(s: State, t: State, c: nat, record: Record, pc: Pc) {
    c < |s.pcs| && t.word == 0 && t.record == record && t.pcs == s.pcs[c := pc]
  }

  /** From the comparisons of an acquire on. */
  lemma TakeAlone(s: State, c: nat, choice: Choice)
    requires Ready(s, c, choice) && (s.pcs[c] == Test(Acquire) || s.pcs[c] == Test(Try))
    ensures if s.record.counter == 0 then
              Ends(s, Alone(s, c, choice, 4), c, s.record.(counter := 1, core := c), Idle(Acquired))
            else if s.record.core == c then
              Ends(s, Alone(s, c, choice, 3), c, s.record.(counter := s.record.counter + 1), Idle(Acquired))
            else
              Ends(s, Alone(s, c, choice, 2), c, s.record, if s.pcs[c] == Test(Try) then Idle(Refused) else Spin)
  {
    hide Step, Alone, Ends, Ready;
    if s.record.counter == 0 {
      TakeFirst(s, c, choice);
    } else if s.record.core == c {
      TakeNested(s, c, choice);
    } else {
      TakeRefused(s, c, choice);
    }
  }

  lemma TakeFirst(s: State, c: nat, choice: Choice)
    requires Ready(s, c, choice) && (s.pcs[c] == Test(Acquire) || s.pcs[c] == Test(Try)) && s.record.counter == 0
    ensures Ends(s, Alone(s, c, choice, 4), c, s.record.(counter := 1, core := c), Idle(Acquired))
  {
    var t := Step(s, c, choice);
    var u := Step(t, c, choice);
    var v := Step(u, c, choice);
    assert t.pcs[c] == Count(true) && u.pcs[c] == Own && v.pcs[c] == Leave(Return(Acquired));
    assert Step(v, c, choice).pcs == s.pcs[c := Idle(Acquired)];
    AloneStep(s, c, choice, 4);
    AloneStep(t, c, choice, 3);
    AloneStep(u, c, choice, 2);
    AloneStep(v, c, choice, 1);
  }

  lemma TakeNested(s: State, c: nat, choice: Choice)
    requires Ready(s, c, choice) && (s.pcs[c] == Test(Acquire) || s.pcs[c] == Test(Try))
    requires s.record.counter != 0 && s.record.core == c
    ensures Ends(s, Alone(s, c, choice, 3), c, s.record.(counter := s.record.counter + 1), Idle(Acquired))
  {
    var t := Step(s, c, choice);
    var u := Step(t, c, choice);
    assert t.pcs[c] == Count(false) && u.pcs[c] == Leave(Return(Acquired));
    assert Step(u, c, choice).pcs == s.pcs[c := Idle(Acquired)];
    AloneStep(s, c, choice, 3);
    AloneStep(t, c, choice, 2);
    AloneStep(u, c, choice, 1);
  }

  lemma TakeRefused(s: State, c: nat, choice: Choice)
    requires Ready(s, c, choice) && (s.pcs[c] == Test(Acquire) || s.pcs[c] == Test(Try))
    requires s.record.counter != 0 && s.record.core != c
    ensures Ends(s, Alone(s, c, choice, 2), c, s.record, if s.pcs[c] == Test(Try) then Idle(Refused) else Spin)
  {
    var t := Step(s, c, choice);
    assert t.pcs[c].Leave?;
    AloneStep(s, c, choice, 2);
    AloneStep(t, c, choice, 1);
    assert Step(t, c, choice).pcs == s.pcs[c := if s.pcs[c] == Test(Try) then Idle(Refused) else Spin];
  }

  /** The lock word free, an acquire takes a lock that nobody has or that its own core has, and
      counts it; when another core has it, a try is refused and an acquire goes on to wait. */
  lemma AcquireAlone(s: State, c: nat, choice: Choice) returns (n: nat)
    requires Ready(s, c, choice) && s.word == 0 && s.pcs[c].Idle? && choice.slotFree
    requires choice.call == Acquire || choice.call == Try
    ensures var t := Alone(s, c, choice, n);
            if !s.record.used || s.record.counter == 0 then Ends(s, t, c, Record(true, 1, c), Idle(Acquired))
            else if s.record.core == c then
              Ends(s, t, c, Record(true, s.record.counter + 1, c), Idle(Acquired))
            else Ends(s, t, c, s.record, if choice.call == Try then Idle(Refused) else Spin)
  {
    hide Step, Alone;
    FindAlone(s, c, choice);
    var m := if s.record.used then 3 else 4;
    var t := Alone(s, c, choice, m);
    assert Ready(t, c, choice);
    TakeAlone(t, c, choice);
    var k := if t.record.counter == 0 then 4 else if t.record.core == c then 3 else 2;
    AloneAdds(s, c, choice, m, k);
    n := m + k;
  }

  /** From the comparison of a release on. */
  lemma DropAlone(s: State, c: nat, choice: Choice)
    requires Ready(s, c, choice) && s.pcs[c] == Test(Release) && s.record.core == c && s.record.used
    ensures if s.record.counter > 1 then
              Ends(s, Alone(s, c, choice, 4), c, Record(true, s.record.counter - 1, c), Idle(Released))
            else Ends(s, Alone(s, c, choice, 7), c, Record(false, 0, 0), Idle(Released))
  {
    var t := Step(s, c, choice);
    var u := Step(t, c, choice);
    var v := Step(u, c, choice);
    assert t.pcs[c] == Drop && u.pcs[c] == TestZero;
    AloneStep(s, c, choice, 4);
    AloneStep(t, c, choice, 3);
    AloneStep(u, c, choice, 2);
    AloneStep(v, c, choice, 1);
    AloneStep(s, c, choice, 7);
    AloneStep(t, c, choice, 6);
    AloneStep(u, c, choice, 5);
    AloneStep(v, c, choice, 4);
    if s.record.counter > 1 {
      assert Step(v, c, choice).pcs == s.pcs[c := Idle(Released)];
    } else {
      ClearAlone(v, c, choice);
      assert v.pcs[c := Idle(Released)] == s.pcs[c := Idle(Released)];
    }
  }

  lemma ClearAlone(s: State, c: nat, choice: Choice)
    requires Ready(s, c, choice) && s.pcs[c] == ClearCore
    ensures Ends(s, Alone(s, c, choice, 4), c, Record(false, 0, 0), Idle(Released))
  {
    var t := Step(s, c, choice);
    var u := Step(t, c, choice);
    var v := Step(u, c, choice);
    assert t.pcs[c] == ClearCounter && u.pcs[c] == ClearLock && v.pcs[c] == Leave(Return(Released));
    assert Step(v, c, choice).pcs == s.pcs[c := Idle(Released)];
    AloneStep(s, c, choice, 4);
    AloneStep(t, c, choice, 3);
    AloneStep(u, c, choice, 2);
    AloneStep(v, c, choice, 1);
  }

  /** The lock word free, a release by the core on record lowers the counter, and at the last one
      frees the record. */
  lemma ReleaseAlone(s: State, c: nat, choice: Choice) returns (n: nat)
    requires Ready(s, c, choice) && s.word == 0 && s.pcs[c].Idle? && choice.call == Release
    requires s.record.used && s.record.core == c
    ensures var t := Alone(s, c, choice, n);
            if s.record.counter > 1 then Ends(s, t, c, Record(true, s.record.counter - 1, c), Idle(Released))
            else Ends(s, t, c, Record(false, 0, 0), Idle(Released))
  {
    hide Step, Alone;
    FindAlone(s, c, choice);
    var t := Alone(s, c, choice, 3);
    assert Ready(t, c, choice);
    DropAlone(t, c, choice);
    var k := if s.record.counter > 1 then 4 else 7;
    AloneAdds(s, c, choice, 3, k);
    n := 3 + k;
  }

  lemma Longer(steps: seq<(nat, Choice)>, step: (nat, Choice), before: State, after: State)
    requires Reaches(steps, before) && CanFollow(before, step, after)
    ensures Reaches(steps + [step], after)
  {
    var longer := steps + [step];
    assert longer[..|longer| - 1] == steps && longer[|longer| - 1] == step;
    assert Reaches(longer[..|longer| - 1], before) && CanFollow(before, longer[|longer| - 1], after);
  }

  lemma OneMore(steps: seq<(nat, Choice)>, s: State, c: nat, call: Goal) returns (more: seq<(nat, Choice)>, t: State)
    requires Reaches(steps, s) && Ready(s, c, Choice(call, true, true))
    ensures t == Step(s, c, Choice(call, true, true)) && Reaches(more, t)
  {
    t := Step(s, c, Choice(call, true, true));
    Longer(steps, (c, Choice(call, true, true)), s, t);
    more := steps + [(c, Choice(call, true, true))];
  }

  /** A refused release always endangers the lock: whenever another core d can go on, some
      continuation has both inside at once. So the lock excludes in everything that can follow
      if and only if no release is refused. */
  lemma MismatchBreaks(steps: seq<(nat, Choice)>, s: State, c: nat, d: nat)
    returns (more: seq<(nat, Choice)>, t: State)
    requires Peaceful(steps, s) && Mismatch(s, c) && c != d && d < |s.pcs| && s.pcs[d] != Undefined
    ensures Reaches(more, t) && !Exclusive(t)
  {
    PeacefulReaches(steps, s);
    OutsideWhileInside(steps, s, c, d);
    hide Reaches, Peaceful, Exclusive;
    more, t := RefusedOnce(steps, s, c, d);
    more, t := Enters(more, t, d, c);
    more, t := Intrudes(more, t, c, d);
  }

  /** The refused core frees the word and is about to free it again. */
  lemma RefusedOnce(steps: seq<(nat, Choice)>, s: State, c: nat, d: nat)
    returns (more: seq<(nat, Choice)>, t: State)
    requires Reaches(steps, s) && Shaped(s) && Mismatch(s, c) && c != d && d < |s.pcs|
    ensures Reaches(more, t) && Shaped(t) && |t.pcs| == |s.pcs| && t.word == 0
    ensures t.pcs[c] == FreeAgain && t.pcs[d] == s.pcs[d]
  {
    hide Reaches;
    more, t := OneMore(steps, s, c, Acquire);
    more, t := OneMore(more, t, c, Acquire);
  }

  /** A core outside that finds the word free goes in. */
  lemma Enters(steps: seq<(nat, Choice)>, s: State, d: nat, c: nat)
    returns (more: seq<(nat, Choice)>, t: State)
    requires Reaches(steps, s) && Shaped(s) && c != d && c < |s.pcs| && d < |s.pcs| && s.word == 0
    requires s.pcs[d].Idle? || s.pcs[d].Spin? || s.pcs[d].Swap?
    ensures Reaches(more, t) && Shaped(t) && |t.pcs| == |s.pcs| && t.pcs[d].Lookup? && t.pcs[c] == s.pcs[c]
  {
    hide Reaches;
    more, t := steps, s;
    if !t.pcs[d].Swap? {
      more, t := OneMore(more, t, d, Acquire);
    }
    more, t := OneMore(more, t, d, Acquire);
  }

  /** The second free lets its core in beside the one that is inside. */
  lemma Intrudes(steps: seq<(nat, Choice)>, s: State, c: nat, d: nat)
    returns (more: seq<(nat, Choice)>, t: State)
    requires Reaches(steps, s) && Shaped(s) && c != d && c < |s.pcs| && d < |s.pcs|
    requires s.pcs[c] == FreeAgain && s.pcs[d].Lookup?
    ensures Reaches(more, t) && !Exclusive(t)
  {
    hide Reaches;
    more, t := OneMore(steps, s, c, Acquire);
    more, t := OneMore(more, t, c, Acquire);
    more, t := OneMore(more, t, c, Acquire);
    assert Inside(t.pcs[c]) && Inside(t.pcs[d]);
  }

  lemma OutsideWhileInside(steps: seq<(nat, Choice)>, s: State, c: nat, d: nat)
    requires Peaceful(steps, s) && Mismatch(s, c) && c != d && d < |s.pcs| && s.pcs[d] != Undefined
    ensures Shaped(s) && (s.pcs[d].Idle? || s.pcs[d].Spin? || s.pcs[d].Swap?)
  {
    PeacefulRunKeepsInvariant(steps, s);
    assert Inside(s.pcs[c]) && !Inside(s.pcs[d]) && Settled(s.pcs[d], s.depths[d]);
  }

  // Two cores end up holding the lock.

  /** Two cores. */
  function Two(word: int, record: Record, pc0: Pc, pc1: Pc, d0: nat, d1: nat, pristine: bool): State {
    State(word, record, [pc0, pc1], [d0, d1], pristine)
  }

  function By(c: nat, call: Goal): (nat, Choice) {
    (c, Choice(call, true, true))
  }

  /** Core 0 takes the lock. */
  lemma FirstAcquires(steps: seq<(nat, Choice)>) returns (more: seq<(nat, Choice)>)
    requires Reaches(steps, Two(0, Record(false, 0, 0), Idle(Uncalled), Idle(Uncalled), 0, 0, true))
    ensures Reaches(more, Two(0, Record(true, 1, 0), Idle(Acquired), Idle(Uncalled), 1, 0, false))
  {
    hide Reaches;
    var step := By(0, Acquire);
    more := steps;
    Longer(more, step,
           Two(0, Record(false, 0, 0), Idle(Uncalled), Idle(Uncalled), 0, 0, true),
           Two(0, Record(false, 0, 0), Swap(Acquire), Idle(Uncalled), 0, 0, true));
    more := more + [step];
    Longer(more, step,
           Two(0, Record(false, 0, 0), Swap(Acquire), Idle(Uncalled), 0, 0, true),
           Two(-1, Record(false, 0, 0), Lookup(Acquire), Idle(Uncalled), 0, 0, true));
    more := more + [step];
    Longer(more, step,
           Two(-1, Record(false, 0, 0), Lookup(Acquire), Idle(Uncalled), 0, 0, true),
           Two(-1, Record(false, 0, 0), Init(Acquire), Idle(Uncalled), 0, 0, true));
    more := more + [step];
    Longer(more, step,
           Two(-1, Record(false, 0, 0), Init(Acquire), Idle(Uncalled), 0, 0, true),
           Two(-1, Record(true, 0, 0), Test(Acquire), Idle(Uncalled), 0, 0, true));
    more := more + [step];
    Longer(more, step,
           Two(-1, Record(true, 0, 0), Test(Acquire), Idle(Uncalled), 0, 0, true),
           Two(-1, Record(true, 0, 0), Count(true), Idle(Uncalled), 0, 0, true));
    more := more + [step];
    Longer(more, step,
           Two(-1, Record(true, 0, 0), Count(true), Idle(Uncalled), 0, 0, true),
           Two(-1, Record(true, 1, 0), Own, Idle(Uncalled), 1, 0, false));
    more := more + [step];
    Longer(more, step,
           Two(-1, Record(true, 1, 0), Own, Idle(Uncalled), 1, 0, false),
           Two(-1, Record(true, 1, 0), Leave(Return(Acquired)), Idle(Uncalled), 1, 0, false));
    more := more + [step];
    Longer(more, step,
           Two(-1, Record(true, 1, 0), Leave(Return(Acquired)), Idle(Uncalled), 1, 0, false),
           Two(0, Record(true, 1, 0), Idle(Acquired), Idle(Uncalled), 1, 0, false));
    more := more + [step];
  }

  /** Core 1 releases it: it frees the word once and is about to free it again. */
  lemma SecondReleases(steps: seq<(nat, Choice)>) returns (more: seq<(nat, Choice)>)
    requires Reaches(steps, Two(0, Record(true, 1, 0), Idle(Acquired), Idle(Uncalled), 1, 0, false))
    ensures Reaches(more, Two(0, Record(true, 1, 0), Idle(Acquired), FreeAgain, 1, 0, false))
  {
    hide Reaches;
    var step := By(1, Release);
    more := steps;
    Longer(more, step,
           Two(0, Record(true, 1, 0), Idle(Acquired), Idle(Uncalled), 1, 0, false),
           Two(0, Record(true, 1, 0), Idle(Acquired), Swap(Release), 1, 0, false));
    more := more + [step];
    Longer(more, step,
           Two(0, Record(true, 1, 0), Idle(Acquired), Swap(Release), 1, 0, false),
           Two(-1, Record(true, 1, 0), Idle(Acquired), Lookup(Release), 1, 0, false));
    more := more + [step];
    Longer(more, step,
           Two(-1, Record(true, 1, 0), Idle(Acquired), Lookup(Release), 1, 0, false),
           Two(-1, Record(true, 1, 0), Idle(Acquired), Test(Release), 1, 0, false));
    more := more + [step];
    Longer(more, step,
           Two(-1, Record(true, 1, 0), Idle(Acquired), Test(Release), 1, 0, false),
           Two(-1, Record(true, 1, 0), Idle(Acquired), Leave(SecondFree), 1, 0, false));
    more := more + [step];
    Longer(more, step,
           Two(-1, Record(true, 1, 0), Idle(Acquired), Leave(SecondFree), 1, 0, false),
           Two(0, Record(true, 1, 0), Idle(Acquired), FreeAgain, 1, 0, false));
    more := more + [step];
  }

  /** Core 0 releases it and is about to clear the record. */
  lemma FirstReleases(steps: seq<(nat, Choice)>) returns (more: seq<(nat, Choice)>)
    requires Reaches(steps, Two(0, Record(true, 1, 0), Idle(Acquired), FreeAgain, 1, 0, false))
    ensures Reaches(more, Two(-1, Record(true, 0, 0), ClearCore, FreeAgain, 0, 0, false))
  {
    hide Reaches;
    var step := By(0, Release);
    more := steps;
    Longer(more, step,
           Two(0, Record(true, 1, 0), Idle(Acquired), FreeAgain, 1, 0, false),
           Two(0, Record(true, 1, 0), Swap(Release), FreeAgain, 1, 0, false));
    more := more + [step];
    Longer(more, step,
           Two(0, Record(true, 1, 0), Swap(Release), FreeAgain, 1, 0, false),
           Two(-1, Record(true, 1, 0), Lookup(Release), FreeAgain, 1, 0, false));
    more := more + [step];
    Longer(more, step,
           Two(-1, Record(true, 1, 0), Lookup(Release), FreeAgain, 1, 0, false),
           Two(-1, Record(true, 1, 0), Test(Release), FreeAgain, 1, 0, false));
    more := more + [step];
    Longer(more, step,
           Two(-1, Record(true, 1, 0), Test(Release), FreeAgain, 1, 0, false),
           Two(-1, Record(true, 1, 0), Drop, FreeAgain, 1, 0, false));
    more := more + [step];
    Longer(more, step,
           Two(-1, Record(true, 1, 0), Drop, FreeAgain, 1, 0, false),
           Two(-1, Record(true, 0, 0), TestZero, FreeAgain, 0, 0, false));
    more := more + [step];
    Longer(more, step,
           Two(-1, Record(true, 0, 0), TestZero, FreeAgain, 0, 0, false),
           Two(-1, Record(true, 0, 0), ClearCore, FreeAgain, 0, 0, false));
    more := more + [step];
  }

  /** Core 1 frees the word under it and goes in. */
  lemma SecondIntrudes(steps: seq<(nat, Choice)>) returns (more: seq<(nat, Choice)>)
    requires Reaches(steps, Two(-1, Record(true, 0, 0), ClearCore, FreeAgain, 0, 0, false))
    ensures Reaches(more, Two(-1, Record(true, 0, 0), ClearCore, Test(Acquire), 0, 0, false))
  {
    hide Reaches;
    var step := By(1, Acquire);
    more := steps;
    Longer(more, step,
           Two(-1, Record(true, 0, 0), ClearCore, FreeAgain, 0, 0, false),
           Two(0, Record(true, 0, 0), ClearCore, Idle(Mismatched), 0, 0, false));
    more := more + [step];
    Longer(more, step,
           Two(0, Record(true, 0, 0), ClearCore, Idle(Mismatched), 0, 0, false),
           Two(0, Record(true, 0, 0), ClearCore, Swap(Acquire), 0, 0, false));
    more := more + [step];
    Longer(more, step,
           Two(0, Record(true, 0, 0), ClearCore, Swap(Acquire), 0, 0, false),
           Two(-1, Record(true, 0, 0), ClearCore, Lookup(Acquire), 0, 0, false));
    more := more + [step];
    Longer(more, step,
           Two(-1, Record(true, 0, 0), ClearCore, Lookup(Acquire), 0, 0, false),
           Two(-1, Record(true, 0, 0), ClearCore, Test(Acquire), 0, 0, false));
    more := more + [step];
  }

  /** Core 1 takes the lock. */
  lemma SecondAcquires(steps: seq<(nat, Choice)>) returns (more: seq<(nat, Choice)>)
    requires Reaches(steps, Two(-1, Record(true, 0, 0), ClearCore, Test(Acquire), 0, 0, false))
    ensures Reaches(more, Two(0, Record(true, 1, 1), ClearCore, Idle(Acquired), 0, 1, false))
  {
    hide Reaches;
    var step := By(1, Acquire);
    more := steps;
    Longer(more, step,
           Two(-1, Record(true, 0, 0), ClearCore, Test(Acquire), 0, 0, false),
           Two(-1, Record(true, 0, 0), ClearCore, Count(true), 0, 0, false));
    more := more + [step];
    Longer(more, step,
           Two(-1, Record(true, 0, 0), ClearCore, Count(true), 0, 0, false),
           Two(-1, Record(true, 1, 0), ClearCore, Own, 0, 1, false));
    more := more + [step];
    Longer(more, step,
           Two(-1, Record(true, 1, 0), ClearCore, Own, 0, 1, false),
           Two(-1, Record(true, 1, 1), ClearCore, Leave(Return(Acquired)), 0, 1, false));
    more := more + [step];
    Longer(more, step,
           Two(-1, Record(true, 1, 1), ClearCore, Leave(Return(Acquired)), 0, 1, false),
           Two(0, Record(true, 1, 1), ClearCore, Idle(Acquired), 0, 1, false));
    more := more + [step];
  }

  /** Core 0 clears the record core 1 now relies on. */
  lemma FirstClears(steps: seq<(nat, Choice)>) returns (more: seq<(nat, Choice)>)
    requires Reaches(steps, Two(0, Record(true, 1, 1), ClearCore, Idle(Acquired), 0, 1, false))
    ensures Reaches(more, Two(0, Record(false, 0, 0), Idle(Released), Idle(Acquired), 0, 1, false))
  {
    hide Reaches;
    var step := By(0, Acquire);
    more := steps;
    Longer(more, step,
           Two(0, Record(true, 1, 1), ClearCore, Idle(Acquired), 0, 1, false),
           Two(0, Record(true, 1, 0), ClearCounter, Idle(Acquired), 0, 1, false));
    more := more + [step];
    Longer(more, step,
           Two(0, Record(true, 1, 0), ClearCounter, Idle(Acquired), 0, 1, false),
           Two(0, Record(true, 0, 0), ClearLock, Idle(Acquired), 0, 1, false));
    more := more + [step];
    Longer(more, step,
           Two(0, Record(true, 0, 0), ClearLock, Idle(Acquired), 0, 1, false),
           Two(0, Record(false, 0, 0), Leave(Return(Released)), Idle(Acquired), 0, 1, false));
    more := more + [step];
    Longer(more, step,
           Two(0, Record(false, 0, 0), Leave(Return(Released)), Idle(Acquired), 0, 1, false),
           Two(0, Record(false, 0, 0), Idle(Released), Idle(Acquired), 0, 1, false));
    more := more + [step];
  }

  /** Core 0 takes the lock too. */
  lemma FirstAcquiresAgain(steps: seq<(nat, Choice)>) returns (more: seq<(nat, Choice)>)
    requires Reaches(steps, Two(0, Record(false, 0, 0), Idle(Released), Idle(Acquired), 0, 1, false))
    ensures Reaches(more, Two(0, Record(true, 1, 0), Idle(Acquired), Idle(Acquired), 1, 1, false))
  {
    hide Reaches;
    var step := By(0, Acquire);
    more := steps;
    Longer(more, step,
           Two(0, Record(false, 0, 0), Idle(Released), Idle(Acquired), 0, 1, false),
           Two(0, Record(false, 0, 0), Swap(Acquire), Idle(Acquired), 0, 1, false));
    more := more + [step];
    Longer(more, step,
           Two(0, Record(false, 0, 0), Swap(Acquire), Idle(Acquired), 0, 1, false),
           Two(-1, Record(false, 0, 0), Lookup(Acquire), Idle(Acquired), 0, 1, false));
    more := more + [step];
    Longer(more, step,
           Two(-1, Record(false, 0, 0), Lookup(Acquire), Idle(Acquired), 0, 1, false),
           Two(-1, Record(false, 0, 0), Init(Acquire), Idle(Acquired), 0, 1, false));
    more := more + [step];
    Longer(more, step,
           Two(-1, Record(false, 0, 0), Init(Acquire), Idle(Acquired), 0, 1, false),
           Two(-1, Record(true, 0, 0), Test(Acquire), Idle(Acquired), 0, 1, false));
    more := more + [step];
    Longer(more, step,
           Two(-1, Record(true, 0, 0), Test(Acquire), Idle(Acquired), 0, 1, false),
           Two(-1, Record(true, 0, 0), Count(true), Idle(Acquired), 0, 1, false));
    more := more + [step];
    Longer(more, step,
           Two(-1, Record(true, 0, 0), Count(true), Idle(Acquired), 0, 1, false),
           Two(-1, Record(true, 1, 0), Own, Idle(Acquired), 1, 1, false));
    more := more + [step];
    Longer(more, step,
           Two(-1, Record(true, 1, 0), Own, Idle(Acquired), 1, 1, false),
           Two(-1, Record(true, 1, 0), Leave(Return(Acquired)), Idle(Acquired), 1, 1, false));
    more := more + [step];
    Longer(more, step,
           Two(-1, Record(true, 1, 0), Leave(Return(Acquired)), Idle(Acquired), 1, 1, false),
           Two(0, Record(true, 1, 0), Idle(Acquired), Idle(Acquired), 1, 1, false));
    more := more + [step];
  }

  /** A release by the wrong core can end with two cores holding the lock: both were told so. */
  lemma MismatchedReleaseBreaksLock() returns (steps: seq<(nat, Choice)>, s: State)
    ensures Reaches(steps, s) && |s.pcs| == |s.depths| == 2 && s.depths[0] == 1 && s.depths[1] == 1
    ensures s.pcs[0] == Idle(Acquired) && s.pcs[1] == Idle(Acquired)
  {
    steps := [];
    assert Initial(Two(0, Record(false, 0, 0), Idle(Uncalled), Idle(Uncalled), 0, 0, true));
    assert Reaches([], Two(0, Record(false, 0, 0), Idle(Uncalled), Idle(Uncalled), 0, 0, true));
    hide Reaches;
    steps := FirstAcquires(steps);
    steps := SecondReleases(steps);
    steps := FirstReleases(steps);
    steps := SecondIntrudes(steps);
    steps := SecondAcquires(steps);
    steps := FirstClears(steps);
    steps := FirstAcquiresAgain(steps);
    s := Two(0, Record(true, 1, 0), Idle(Acquired), Idle(Acquired), 1, 1, false);
  }

  /** One core and the record `_lock_init_recursive` makes. */
  function Single(word: int, pc: Pc): State {
    State(word, Record(true, 0, 0), [pc], [0], true)
  }

  /** The silent case happens: core 0 releases a lock just set up, and drops its record. */
  lemma UnmatchedReleaseHappens() returns (steps: seq<(nat, Choice)>, s: State)
    ensures Reaches(steps, s) && |s.pcs| == |s.depths| == 1 && s.pcs[0] == Drop && s.depths[0] == 0
  {
    steps := LookedUp();
    hide Reaches;
    Longer(steps, By(0, Release), Single(-1, Lookup(Release)), Single(-1, Test(Release)));
    steps := steps + [By(0, Release)];
    s := Single(-1, Drop);
    Longer(steps, By(0, Release), Single(-1, Test(Release)), s);
    steps := steps + [By(0, Release)];
  }

  lemma LookedUp() returns (steps: seq<(nat, Choice)>)
    ensures Reaches(steps, Single(-1, Lookup(Release)))
  {
    steps := [];
    assert Initial(Single(0, Idle(Uncalled))) && Reaches([], Single(0, Idle(Uncalled)));
    Longer(steps, By(0, Release), Single(0, Idle(Uncalled)), Single(0, Swap(Release)));
    steps := steps + [By(0, Release)];
    Longer(steps, By(0, Release), Single(0, Swap(Release)), Single(-1, Lookup(Release)));
    steps := steps + [By(0, Release)];
  }
}
