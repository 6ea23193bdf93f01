/** kernel/sched.c: the choice of the next task, the recharge of counters, the timer tick, and
    how long a runnable task can be kept waiting. */
module Scheduler {
  import opened Wrappers

  const NR_TASKS: nat := 64

  datatype RunState = Running | Interruptible | Uninterruptible | Zombie | Stopped

  datatype Task = Task(state: RunState, counter: int, priority: int)

  type Slot = Option<Task>

  /** The task table; slot 0 is the idle task. */
  type Tasks = s: seq<Slot> | |s| == NR_TASKS witness seq(NR_TASKS, _ => None)

  predicate Runnable(slot: Slot) {
    slot.Some? && slot.value.state == Running
  }

  /** Counters never leave 0 .. 2 * priority - 1. */
  predicate InBounds(slot: Slot) {
    slot.Some? ==> slot.value.priority >= 1 && 0 <= slot.value.counter <= 2 * slot.value.priority - 1
  }

  ghost predicate Valid(tasks: Tasks) {
    forall i | 0 <= i < NR_TASKS :: InBounds(tasks[i])
  }

  /** What selection and recharge rely on. */
  ghost predicate Positive(tasks: Tasks) {
    forall i | 0 <= i < NR_TASKS && tasks[i].Some? :: tasks[i].value.priority >= 1 && tasks[i].value.counter >= 0
  }

  // Selection.

  datatype Choice = Choice(c: int, next: nat)

  /** The selection loop over slots i and up. */
  function Best(tasks: Tasks, i: nat): Choice
    requires 1 <= i <= NR_TASKS
    decreases NR_TASKS - i
  {
    if i == NR_TASKS then Choice(-1, 0)
    else
      var b := Best(tasks, i + 1);
      if Runnable(tasks[i]) && tasks[i].value.counter > b.c then Choice(tasks[i].value.counter, i) else b
  }

  /** The runnable task with the largest counter, the one in the highest slot if several have
      it, and the idle task if none is runnable. */
  ghost predicate IsChoice(tasks: Tasks, i: nat, b: Choice) {
    && (forall j | i <= j < NR_TASKS && Runnable(tasks[j]) :: tasks[j].value.counter <= b.c)
    && if b.next == 0 then b.c == -1 && forall j | i <= j < NR_TASKS :: !Runnable(tasks[j])
       else
         && i <= b.next < NR_TASKS && Runnable(tasks[b.next]) && tasks[b.next].value.counter == b.c
         && forall j | b.next < j < NR_TASKS && Runnable(tasks[j]) :: tasks[j].value.counter < b.c
  }

  lemma {:induction false} BestIsChoice(tasks: Tasks, i: nat)
    requires Positive(tasks) && 1 <= i <= NR_TASKS
    ensures IsChoice(tasks, i, Best(tasks, i))
    decreases NR_TASKS - i
  {
    if i < NR_TASKS {
      BestIsChoice(tasks, i + 1);
    }
  }

  // Recharge.

  function Recharged(slot: Slot): Slot {
    if slot.None? then None else Some(slot.value.(counter := slot.value.counter / 2 + slot.value.priority))
  }

  /** Every task but the idle one. */
  function Recharge(tasks: Tasks): Tasks {
    seq(NR_TASKS, i requires 0 <= i < NR_TASKS => if i == 0 then tasks[0] else Recharged(tasks[i]))
  }

  function Deficit(t: Task): int {
    2 * t.priority - 1 - t.counter
  }

  /** A recharge halves, rounding down, what a counter lacks of its bound, and leaves at least
      the priority in it. */
  lemma RechargeHalves(slot: Slot)
    requires InBounds(slot) && slot.Some?
    ensures InBounds(Recharged(slot)) && Recharged(slot).value.counter >= slot.value.priority
    ensures Deficit(Recharged(slot).value) == Deficit(slot.value) / 2
  {
  }

  lemma RechargeValid(tasks: Tasks)
    requires Valid(tasks)
    ensures Valid(Recharge(tasks))
  {
  }

  /** After a recharge the selection cannot come out at zero again. */
  lemma OneRecharge(tasks: Tasks)
    requires Positive(tasks)
    ensures Best(Recharge(tasks), 1).c != 0
  {
    var after := Recharge(tasks);
    BestIsChoice(after, 1);
  }

  // schedule, do_timer.

  /** The first loop of `schedule`: a signal wakes an interruptible sleeper. */
  function Woken(tasks: Tasks, signalled: set<nat>): Tasks {
    seq(NR_TASKS, i requires 0 <= i < NR_TASKS =>
      if i > 0 && i in signalled && tasks[i].Some? && tasks[i].value.state == Interruptible
      then Some(tasks[i].value.(state := Running)) else tasks[i])
  }

  datatype State = State(tasks: Tasks, current: nat)

  function Schedule(tasks: Tasks, signalled: set<nat>): State {
    var woken := Woken(tasks, signalled);
    if Best(woken, 1).c != 0 then State(woken, Best(woken, 1).next)
    else State(Recharge(woken), Best(Recharge(woken), 1).next)
  }

  function Charge(tasks: Tasks, i: nat): Tasks
    requires i < NR_TASKS && tasks[i].Some?
  {
    var t := tasks[i].value;
    tasks[i := Some(t.(counter := if t.counter - 1 > 0 then t.counter - 1 else 0))]
  }

  predicate Sane(s: State) {
    s.current < NR_TASKS && s.tasks[s.current].Some? && s.tasks[0].Some?
  }

  /** `do_timer`: the tick is charged to the current task, which loses the processor only when
      its counter is used up and it was in user mode. */
  function Tick(s: State, userMode: bool, signalled: set<nat>): State
    requires Sane(s)
  {
    var charged := Charge(s.tasks, s.current);
    if s.tasks[s.current].value.counter - 1 > 0 || !userMode then State(charged, s.current)
    else Schedule(charged, signalled)
  }

  lemma WokenValid(tasks: Tasks, signalled: set<nat>)
    requires Valid(tasks)
    ensures Valid(Woken(tasks, signalled))
  {
  }

  lemma ScheduleValid(tasks: Tasks, signalled: set<nat>)
    requires Valid(tasks) && tasks[0].Some?
    ensures Valid(Schedule(tasks, signalled).tasks) && Sane(Schedule(tasks, signalled))
  {
    var woken := Woken(tasks, signalled);
    WokenValid(tasks, signalled);
    BestIsChoice(woken, 1);
    RechargeValid(woken);
    BestIsChoice(Recharge(woken), 1);
  }

  lemma ChargeValid(tasks: Tasks, i: nat)
    requires Valid(tasks) && i < NR_TASKS && tasks[i].Some?
    ensures Valid(Charge(tasks, i))
  {
  }

  lemma TickValid(s: State, userMode: bool, signalled: set<nat>)
    requires Valid(s.tasks) && Sane(s)
    ensures Valid(Tick(s, userMode, signalled).tasks) && Sane(Tick(s, userMode, signalled))
  {
    ChargeValid(s.tasks, s.current);
    ScheduleValid(Charge(s.tasks, s.current), signalled);
  }

  // What they do, task by task.

  /** next may run: a runnable task with ticks left, none with more, none as many in a higher slot;
      or idle, if no task is runnable. */
  ghost predicate Chosen(tasks: Tasks, next: nat) {
    if next == 0 then forall j | 1 <= j < 64 :: !Runnable(tasks[j])
    else
      && next < 64 && Runnable(tasks[next]) && tasks[next].value.counter > 0
      && (forall j | 1 <= j < 64 && Runnable(tasks[j]) :: tasks[j].value.counter <= tasks[next].value.counter)
      && (forall j | next < j < 64 && Runnable(tasks[j]) :: tasks[j].value.counter < tasks[next].value.counter)
  }

  /** Signals have woken their interruptible sleepers; idle is as it was. */
  ghost predicate SignalsWake(before: Tasks, after: Tasks, signalled: set<nat>) {
    && after[0] == before[0]
    && forall i | 1 <= i < 64 ::
         && (after[i].Some? <==> before[i].Some?)
         && (after[i].Some? ==>
               && after[i].value.priority == before[i].value.priority
               && after[i].value.state == if i in signalled && before[i].value.state == Interruptible then Running
                                          else before[i].value.state)
  }

  ghost predicate SameCounters(before: Tasks, after: Tasks) {
    forall i | 1 <= i < 64 && after[i].Some? && before[i].Some? :: after[i].value.counter == before[i].value.counter
  }

  /** Some task is runnable, every runnable one had used up its ticks, and each task has half of
      what it had left and its priority. */
  ghost predicate NewCounters(before: Tasks, after: Tasks) {
    && (exists i | 1 <= i < 64 :: Runnable(after[i]))
    && (forall i | 1 <= i < 64 && before[i].Some? && Runnable(after[i]) :: before[i].value.counter == 0)
    && forall i | 1 <= i < 64 && after[i].Some? && before[i].Some? ::
         after[i].value.counter == before[i].value.counter / 2 + before[i].value.priority
  }

  /** `schedule`: the task chosen, and when counters are raised. */
  lemma ScheduleLaw(tasks: Tasks, signalled: set<nat>)
    requires Valid(tasks)
    ensures var s := Schedule(tasks, signalled);
            && Chosen(s.tasks, s.current) && SignalsWake(tasks, s.tasks, signalled)
            && (SameCounters(tasks, s.tasks) || NewCounters(tasks, s.tasks))
  {
    hide Valid, Woken, Recharge, Best, Chosen, SignalsWake, SameCounters, NewCounters;
    var woken := Woken(tasks, signalled);
    WokenValid(tasks, signalled);
    WakeLaw(tasks, signalled);
    if Best(woken, 1).c == 0 {
      RechargeLaw(woken);
      RechargesAre(tasks, woken, Recharge(woken), signalled, 1);
    } else {
      PickLaw(woken);
      RechargesAre(tasks, woken, woken, signalled, 0);
    }
  }

  lemma WakeLaw(tasks: Tasks, signalled: set<nat>)
    ensures SignalsWake(tasks, Woken(tasks, signalled), signalled)
    ensures SignalsWake(tasks, Recharge(Woken(tasks, signalled)), signalled)
  {
  }

  lemma PickLaw(tasks: Tasks)
    requires Valid(tasks) && Best(tasks, 1).c != 0
    ensures Chosen(tasks, Best(tasks, 1).next)
  {
    BestIsChoice(tasks, 1);
    hide Best;
    var b := Best(tasks, 1);
    if b.next != 0 {
      assert InBounds(tasks[b.next]);
    }
  }

  lemma RechargeLaw(tasks: Tasks)
    requires Valid(tasks)
    ensures Chosen(Recharge(tasks), Best(Recharge(tasks), 1).next)
  {
    hide Recharge, Best, Chosen, Valid;
    RechargeValid(tasks);
    ValidIsPositive(tasks);
    OneRecharge(tasks);
    PickLaw(Recharge(tasks));
  }

  lemma ValidIsPositive(tasks: Tasks)
    requires Valid(tasks)
    ensures Positive(tasks)
  {
    forall i | 0 <= i < NR_TASKS && tasks[i].Some?
      ensures tasks[i].value.priority >= 1 && tasks[i].value.counter >= 0
    {
      assert InBounds(tasks[i]);
    }
  }

  lemma RechargesAre(before: Tasks, woken: Tasks, after: Tasks, signalled: set<nat>, recharges: nat)
    requires Valid(before) && woken == Woken(before, signalled) && recharges <= 1
    requires after == if recharges == 0 then woken else Recharge(woken)
    requires recharges == 1 ==> Best(woken, 1).c == 0
    ensures if recharges == 0 then SameCounters(before, after) else NewCounters(before, after)
  {
    if recharges == 1 {
      WokenValid(before, signalled);
      ValidIsPositive(woken);
      hide Valid, Best;
      BestIsChoice(woken, 1);
      assert Runnable(after[Best(woken, 1).next]);
    }
  }

  /** `do_timer`: the current task is charged one tick if it has any; it is taken off the
      processor if that used up its ticks and it was in user mode, and not otherwise. */
  lemma TickLaw(s: State, userMode: bool, signalled: set<nat>)
    requires Valid(s.tasks) && Sane(s)
    ensures var t := Tick(s, userMode, signalled);
            var task := s.tasks[s.current].value;
            var charged := s.tasks[s.current := Some(task.(counter := if task.counter > 0 then task.counter - 1
              else 0))];
            if userMode && task.counter <= 1 then
              && Chosen(t.tasks, t.current) && SignalsWake(charged, t.tasks, signalled)
              && (SameCounters(charged, t.tasks) || NewCounters(charged, t.tasks))
            else t == State(charged, s.current)
  {
    hide Schedule, Chosen, SignalsWake, SameCounters, NewCounters;
    assert InBounds(s.tasks[s.current]);
    ChargeValid(s.tasks, s.current);
    ScheduleLaw(Charge(s.tasks, s.current), signalled);
  }

  // Runs.

  datatype Step =
    | Timer(userMode: bool, signalled: set<nat>)
    /** The current task calls `schedule`. */
    | Yield(signalled: set<nat>)
    /** Tasks fall asleep, wake up, stop, exit or are reaped. */
    | Change(after: Tasks)
    /** `copy_process` into an empty slot. */
    | Fork(child: nat)

  ghost predicate Changed(before: Tasks, after: Tasks) {
    forall i | 0 <= i < NR_TASKS && after[i].Some? ::
      && before[i].Some?
      && after[i].value.counter == before[i].value.counter && after[i].value.priority == before[i].value.priority
  }

  ghost predicate Enabled(s: State, step: Step) {
    && Sane(s)
    && match step
       case Change(after) => Changed(s.tasks, after) && Sane(State(after, s.current))
       case Fork(child) => child < NR_TASKS && s.tasks[child].None?
       case _ => true
  }

  ghost function Do(s: State, step: Step): State
    requires Enabled(s, step)
  {
    match step
    case Timer(userMode, signalled) => Tick(s, userMode, signalled)
    case Yield(signalled) => Schedule(s.tasks, signalled)
    case Change(after) => State(after, s.current)
    case Fork(child) =>
      var p := s.tasks[s.current].value.priority;
      State(s.tasks[child := Some(Task(Running, p, p))], s.current)
  }

  lemma StepValid(s: State, step: Step)
    requires Valid(s.tasks) && Enabled(s, step)
    ensures Valid(Do(s, step).tasks) && Sane(Do(s, step))
  {
    match step
    case Timer(userMode, signalled) => TickValid(s, userMode, signalled);
    case Yield(signalled) => ScheduleValid(s.tasks, signalled);
    case Change(after) =>
      forall i | 0 <= i < NR_TASKS
        ensures InBounds(after[i])
      {
        assert InBounds(s.tasks[i]);
      }
    case Fork(child) =>
      assert InBounds(s.tasks[s.current]);
      var after := Do(s, step).tasks;
      forall i | 0 <= i < NR_TASKS
        ensures InBounds(after[i])
      {
        assert InBounds(s.tasks[i]);
      }
  }

  ghost predicate CanRun(s: State, steps: seq<Step>)
    decreases |steps|
  {
    steps == [] || (Enabled(s, steps[0]) && CanRun(Do(s, steps[0]), steps[1..]))
  }

  ghost function Run(s: State, steps: seq<Step>): State
    requires CanRun(s, steps)
    decreases |steps|
  {
    if steps == [] then s else Run(Do(s, steps[0]), steps[1..])
  }

  /** With priorities left alone, no run takes a counter out of its bounds. */
  lemma {:induction false} EveryRunValid(s: State, steps: seq<Step>)
    requires Valid(s.tasks) && CanRun(s, steps)
    ensures Valid(Run(s, steps).tasks)
    decreases |steps|
  {
    if steps != [] {
      StepValid(s, steps[0]);
      EveryRunValid(Do(s, steps[0]), steps[1..]);
    }
  }

  // Runs in which priorities change.

  /** `sys_nice`. */
  function Reniced(t: Task, increment: int): Task {
    if t.priority - increment > 0 then t.(priority := t.priority - increment) else t
  }

  datatype Move = Ordinary(step: Step) | Renice(increment: int)

  ghost predicate CanMove(s: State, move: Move) {
    match move
    case Ordinary(step) => Enabled(s, step)
    case Renice(_) => Sane(s)
  }

  ghost function Moved(s: State, move: Move): State
    requires CanMove(s, move)
  {
    match move
    case Ordinary(step) => Do(s, step)
    case Renice(increment) =>
      s.(tasks := s.tasks[s.current := Some(Reniced(s.tasks[s.current].value, increment))])
  }

  ghost predicate CanMoveOn(s: State, moves: seq<Move>)
    decreases |moves|
  {
    moves == [] || (CanMove(s, moves[0]) && CanMoveOn(Moved(s, moves[0]), moves[1..]))
  }

  ghost function After(s: State, moves: seq<Move>): State
    requires CanMoveOn(s, moves)
    decreases |moves|
  {
    if moves == [] then s else After(Moved(s, moves[0]), moves[1..])
  }

  /** The larger of top and what a move makes of the current task's priority. */
  ghost function Raised(s: State, move: Move, top: int): int
    requires CanMove(s, move)
  {
    var slot := Moved(s, move).tasks[s.current];
    if move.Renice? && slot.value.priority > top then slot.value.priority else top
  }

  /** The largest priority so far. */
  ghost function Highest(s: State, moves: seq<Move>, top: int): int
    requires CanMoveOn(s, moves)
    decreases |moves|
  {
    if moves == [] then top else Highest(Moved(s, moves[0]), moves[1..], Raised(s, moves[0], top))
  }

  /** Every counter is within the bound of the largest priority so far. */
  ghost predicate Within(tasks: Tasks, top: int) {
    forall i | 0 <= i < NR_TASKS && tasks[i].Some? ::
      1 <= tasks[i].value.priority <= top && 0 <= tasks[i].value.counter <= 2 * top - 1
  }

  lemma RechargeWithin(tasks: Tasks, top: int)
    requires Within(tasks, top)
    ensures Within(Recharge(tasks), top)
  {
  }

  lemma ScheduleWithin(tasks: Tasks, signalled: set<nat>, top: int)
    requires Within(tasks, top)
    ensures Within(Schedule(tasks, signalled).tasks, top)
  {
    assert Within(Woken(tasks, signalled), top);
    RechargeWithin(Woken(tasks, signalled), top);
  }

  lemma MoveWithin(s: State, move: Move, top: int)
    requires Within(s.tasks, top) && CanMove(s, move)
    ensures Within(Moved(s, move).tasks, Raised(s, move, top))
  {
    match move
    case Ordinary(Timer(userMode, signalled)) =>
      assert Within(Charge(s.tasks, s.current), top);
      ScheduleWithin(Charge(s.tasks, s.current), signalled, top);
    case Ordinary(Yield(signalled)) => ScheduleWithin(s.tasks, signalled, top);
    case _ =>
  }

  /** Whatever `sys_nice` does in between, no counter leaves the bound of the largest priority so
      far, and no schedule needs a second recharge. */
  lemma {:induction false} EveryMoveWithin(s: State, moves: seq<Move>, top: int)
    requires Within(s.tasks, top) && CanMoveOn(s, moves)
    ensures Within(After(s, moves).tasks, Highest(s, moves, top))
    ensures Best(Recharge(After(s, moves).tasks), 1).c != 0
    decreases |moves|
  {
    if moves == [] {
      OneRecharge(s.tasks);
    } else {
      MoveWithin(s, moves[0], top);
      EveryMoveWithin(Moved(s, moves[0]), moves[1..], Raised(s, moves[0], top));
    }
  }

  /** A task that lowers its priority with a full counter leaves its own bound. */
  lemma NiceLeavesBound(priority: int)
    requires priority >= 2
    ensures var t := Task(Running, 2 * priority - 1, priority);
            InBounds(Some(t)) && !InBounds(Some(Reniced(t, 1)))
  {
  }

  // Bounded waiting.

  function Left(slot: Slot): int {
    if slot.Some? then slot.value.counter else 0
  }

  function Bound(slot: Slot): int {
    if slot.Some? then 2 * slot.value.priority - 1 else 0
  }

  /** Tasks that compete with t: neither idle nor t itself. */
  predicate Rival(t: nat, i: nat) {
    i != 0 && i != t
  }

  /** The ticks left in the counters of the rivals of t below n. */
  function LeftSum(tasks: Tasks, t: nat, n: nat): int
    requires n <= NR_TASKS
  {
    if n == 0 then 0 else LeftSum(tasks, t, n - 1) + if Rival(t, n - 1) then Left(tasks[n - 1]) else 0
  }

  /** The sum of their bounds. */
  function BoundSum(tasks: Tasks, t: nat, n: nat): int
    requires n <= NR_TASKS
  {
    if n == 0 then 0 else BoundSum(tasks, t, n - 1) + if Rival(t, n - 1) then Bound(tasks[n - 1]) else 0
  }

  ghost predicate Waiting(s: State, t: nat) {
    Sane(s) && 0 < t < NR_TASKS && s.current != t && Runnable(s.tasks[t])
  }

  /** t is runnable and not chosen all along; nobody forks. */
  ghost predicate Waits(s: State, steps: seq<Step>, t: nat)
    decreases |steps|
  {
    && Waiting(s, t)
    && (steps != [] ==> Enabled(s, steps[0]) && !steps[0].Fork? && Waits(Do(s, steps[0]), steps[1..], t))
  }

  /** A tick that takes one off a rival's counter. */
  function Charged(s: State, step: Step, t: nat): nat
    requires Sane(s)
  {
    if step.Timer? && Rival(t, s.current) && s.tasks[s.current].value.counter > 0 then 1 else 0
  }

  ghost function Charges(s: State, steps: seq<Step>, t: nat): nat
    requires Waits(s, steps, t)
    decreases |steps|
  {
    if steps == [] then 0 else Charged(s, steps[0], t) + Charges(Do(s, steps[0]), steps[1..], t)
  }

  /** The most that rivals can still be charged before t is chosen. */
  function Potential(tasks: Tasks, t: nat): int
    requires t < NR_TASKS
  {
    LeftSum(tasks, t, NR_TASKS) + if Left(tasks[t]) == 0 then BoundSum(tasks, t, NR_TASKS) else 0
  }

  lemma {:induction false} SumsShrink(before: Tasks, after: Tasks, t: nat, n: nat)
    requires n <= NR_TASKS
    requires forall i | 0 <= i < n && Rival(t, i) :: Left(after[i]) <= Left(before[i])
    requires forall i | 0 <= i < n && Rival(t, i) :: Bound(after[i]) <= Bound(before[i])
    ensures LeftSum(after, t, n) <= LeftSum(before, t, n) && BoundSum(after, t, n) <= BoundSum(before, t, n)
    decreases n
  {
    if n > 0 {
      SumsShrink(before, after, t, n - 1);
    }
  }

  lemma {:induction false} LeftWithinBound(tasks: Tasks, t: nat, n: nat)
    requires Valid(tasks) && n <= NR_TASKS
    ensures 0 <= LeftSum(tasks, t, n) <= BoundSum(tasks, t, n)
    decreases n
  {
    if n > 0 {
      LeftWithinBound(tasks, t, n - 1);
      assert InBounds(tasks[n - 1]);
    }
  }

  lemma {:induction false} ChargeTakesOne(tasks: Tasks, i: nat, t: nat, n: nat)
    requires n <= NR_TASKS && i < NR_TASKS && tasks[i].Some? && tasks[i].value.counter >= 0
    ensures LeftSum(Charge(tasks, i), t, n) ==
            LeftSum(tasks, t, n) - if i < n && Rival(t, i) && tasks[i].value.counter > 0 then 1 else 0
    ensures BoundSum(Charge(tasks, i), t, n) == BoundSum(tasks, t, n)
    decreases n
  {
    if n > 0 {
      ChargeTakesOne(tasks, i, t, n - 1);
    }
  }

  lemma ChargePotential(s: State, t: nat)
    requires Valid(s.tasks) && Waiting(s, t)
    ensures Potential(Charge(s.tasks, s.current), t) ==
            Potential(s.tasks, t) - if Rival(t, s.current) && s.tasks[s.current].value.counter > 0 then 1 else 0
    ensures Charge(s.tasks, s.current)[t] == s.tasks[t]
  {
    assert InBounds(s.tasks[s.current]);
    ChargeTakesOne(s.tasks, s.current, t, NR_TASKS);
  }

  lemma WokenPotential(tasks: Tasks, signalled: set<nat>, t: nat)
    requires t < NR_TASKS && Runnable(tasks[t])
    ensures Potential(Woken(tasks, signalled), t) <= Potential(tasks, t) && Woken(tasks, signalled)[t] == tasks[t]
  {
    SumsShrink(tasks, Woken(tasks, signalled), t, NR_TASKS);
  }

  /** A recharge happens only when t, like every runnable task, has used up its counter; after
      it t has ticks again. */
  lemma RechargePotential(tasks: Tasks, t: nat)
    requires Valid(tasks) && 0 < t < NR_TASKS && Runnable(tasks[t]) && Best(tasks, 1).c == 0
    ensures Potential(Recharge(tasks), t) <= Potential(tasks, t)
  {
    BestIsChoice(tasks, 1);
    assert InBounds(tasks[t]);
    RechargeHalves(tasks[t]);
    RechargeValid(tasks);
    LeftWithinBound(Recharge(tasks), t, NR_TASKS);
    LeftWithinBound(tasks, t, NR_TASKS);
    BoundsKept(tasks, t, NR_TASKS);
  }

  lemma {:induction false} BoundsKept(tasks: Tasks, t: nat, n: nat)
    requires n <= NR_TASKS
    ensures BoundSum(Recharge(tasks), t, n) == BoundSum(tasks, t, n)
    decreases n
  {
    if n > 0 {
      BoundsKept(tasks, t, n - 1);
    }
  }

  lemma SchedulePotential(tasks: Tasks, signalled: set<nat>, t: nat)
    requires Valid(tasks) && 0 < t < NR_TASKS && Runnable(tasks[t])
    ensures Potential(Schedule(tasks, signalled).tasks, t) <= Potential(tasks, t)
  {
    WokenPotential(tasks, signalled, t);
    var woken := Woken(tasks, signalled);
    if Best(woken, 1).c == 0 {
      WokenValid(tasks, signalled);
      RechargePotential(woken, t);
    }
  }

  lemma StepPotential(s: State, step: Step, t: nat)
    requires Valid(s.tasks) && Waiting(s, t) && Enabled(s, step) && !step.Fork? && Waiting(Do(s, step), t)
    ensures Charged(s, step, t) + Potential(Do(s, step).tasks, t) <= Potential(s.tasks, t)
  {
    match step
    case Timer(userMode, signalled) =>
      ChargePotential(s, t);
      ChargeValid(s.tasks, s.current);
      SchedulePotential(Charge(s.tasks, s.current), signalled, t);
    case Yield(signalled) =>
      SchedulePotential(s.tasks, signalled, t);
    case Change(after) =>
      forall i | 0 <= i < NR_TASKS
        ensures Left(after[i]) <= Left(s.tasks[i]) && Bound(after[i]) <= Bound(s.tasks[i])
      {
        assert InBounds(s.tasks[i]);
      }
      SumsShrink(s.tasks, after, t, NR_TASKS);
  }

  lemma {:induction false} ChargesBounded(s: State, steps: seq<Step>, t: nat)
    requires Valid(s.tasks) && Waits(s, steps, t)
    ensures Charges(s, steps, t) <= Potential(s.tasks, t)
    decreases |steps|
  {
    if steps == [] {
      LeftWithinBound(s.tasks, t, NR_TASKS);
    } else {
      StepPotential(s, steps[0], t);
      StepValid(s, steps[0]);
      ChargesBounded(Do(s, steps[0]), steps[1..], t);
    }
  }

  /** A task that stays runnable is chosen before its rivals have been charged more than twice
      the sum of their bounds. */
  lemma BoundedWaiting(s: State, steps: seq<Step>, t: nat)
    requires Valid(s.tasks) && Waits(s, steps, t)
    ensures Charges(s, steps, t) <= 2 * BoundSum(s.tasks, t, NR_TASKS)
  {
    ChargesBounded(s, steps, t);
    LeftWithinBound(s.tasks, t, NR_TASKS);
  }

  // A task that stays runnable is chosen.

  /** The ticks in user mode. */
  function UserTicks(steps: seq<Step>): nat {
    if steps == [] then 0 else (if steps[0].Timer? && steps[0].userMode then 1 else 0) + UserTicks(steps[1..])
  }

  /** t is runnable all along; nobody forks. */
  ghost predicate StaysRunnable(s: State, steps: seq<Step>, t: nat)
    decreases |steps|
  {
    && Sane(s) && 0 < t < NR_TASKS && Runnable(s.tasks[t])
    && (steps != [] ==> Enabled(s, steps[0]) && !steps[0].Fork? && StaysRunnable(Do(s, steps[0]), steps[1..], t))
  }

  /** t is the current task at some point. */
  ghost predicate Runs(s: State, steps: seq<Step>, t: nat)
    requires StaysRunnable(s, steps, t)
    decreases |steps|
  {
    s.current == t || (steps != [] && Runs(Do(s, steps[0]), steps[1..], t))
  }

  lemma {:induction false} NeverRunWaits(s: State, steps: seq<Step>, t: nat)
    requires StaysRunnable(s, steps, t) && !Runs(s, steps, t)
    ensures Waits(s, steps, t)
    decreases |steps|
  {
    if steps != [] {
      NeverRunWaits(Do(s, steps[0]), steps[1..], t);
    }
  }

  /** The most ticks in user mode before t is chosen: each takes one from a rival or from idle, but
      for those that find the current task's counter used up. */
  function TickPotential(s: State, t: nat): int
    requires Sane(s) && t < NR_TASKS
  {
    2 * (Potential(s.tasks, t) + Left(s.tasks[0])) + if s.tasks[s.current].value.counter == 0 then 1 else 0
  }

  lemma ScheduledHasTicks(tasks: Tasks, signalled: set<nat>, t: nat)
    requires Valid(tasks) && tasks[0].Some? && 0 < t < NR_TASKS && Runnable(tasks[t])
    ensures var s := Schedule(tasks, signalled);
            Sane(s) && s.tasks[s.current].value.counter > 0 && s.tasks[0] == tasks[0]
  {
    hide Schedule;
    ScheduleLaw(tasks, signalled);
    var s := Schedule(tasks, signalled);
    assert Runnable(s.tasks[t]);
  }

  lemma ScheduleTicks(tasks: Tasks, signalled: set<nat>, t: nat)
    requires Valid(tasks) && tasks[0].Some? && 0 < t < NR_TASKS && Runnable(tasks[t])
    ensures var s := Schedule(tasks, signalled);
            Sane(s) && TickPotential(s, t) <= 2 * (Potential(tasks, t) + Left(tasks[0]))
  {
    hide Schedule, Potential;
    ScheduledHasTicks(tasks, signalled, t);
    SchedulePotential(tasks, signalled, t);
  }

  lemma StepTicks(s: State, step: Step, t: nat)
    requires Valid(s.tasks) && Waiting(s, t) && Enabled(s, step) && !step.Fork? && Waiting(Do(s, step), t)
    ensures TickPotential(Do(s, step), t) + UserTicks([step]) <= TickPotential(s, t)
  {
    hide Potential, Schedule, Valid;
    match step
    case Timer(userMode, signalled) =>
      TimerTicks(s, userMode, signalled, t);
    case Yield(signalled) =>
      ScheduleTicks(s.tasks, signalled, t);
    case Change(after) =>
      StepPotential(s, step, t);
  }

  lemma TimerTicks(s: State, userMode: bool, signalled: set<nat>, t: nat)
    requires Valid(s.tasks) && Waiting(s, t)
    ensures Sane(Tick(s, userMode, signalled))
    ensures TickPotential(Tick(s, userMode, signalled), t) + (if userMode then 1 else 0) <= TickPotential(s, t)
  {
    hide Potential, Schedule;
    assert InBounds(s.tasks[s.current]) && InBounds(s.tasks[0]);
    ChargePotential(s, t);
    ChargeValid(s.tasks, s.current);
    var charged := Charge(s.tasks, s.current);
    if s.tasks[s.current].value.counter - 1 <= 0 && userMode {
      ScheduleTicks(charged, signalled, t);
    }
  }

  lemma {:induction false} TicksBounded(s: State, steps: seq<Step>, t: nat)
    requires Valid(s.tasks) && Waits(s, steps, t)
    ensures UserTicks(steps) <= TickPotential(s, t)
    decreases |steps|
  {
    if steps == [] {
      LeftWithinBound(s.tasks, t, NR_TASKS);
      assert InBounds(s.tasks[0]);
    } else {
      hide Potential, TickPotential;
      StepTicks(s, steps[0], t);
      StepValid(s, steps[0]);
      TicksBounded(Do(s, steps[0]), steps[1..], t);
    }
  }

  /** A task that stays runnable gets the processor before there have been more ticks in user mode
      than four times its rivals' bounds, twice what idle has left, and one. */
  lemma RunnableRuns(s: State, steps: seq<Step>, t: nat)
    requires Valid(s.tasks) && StaysRunnable(s, steps, t)
    requires UserTicks(steps) > 4 * BoundSum(s.tasks, t, NR_TASKS) + 2 * s.tasks[0].value.counter + 1
    ensures Runs(s, steps, t)
  {
    if !Runs(s, steps, t) {
      NeverRunWaits(s, steps, t);
      TicksBounded(s, steps, t);
      LeftWithinBound(s.tasks, t, NR_TASKS);
    }
  }

  // The kernel's loops.

  class Kernel {
    const task: array<Slot>
    var current: nat

    ghost predicate Ready()
      reads this, task
    {
      task.Length == NR_TASKS && Valid(task[..]) && Sane(State(task[..], current))
    }

    /** The table at boot: the idle task alone. */
    constructor (priority: int)
      requires priority >= 1
      ensures Ready() && current == 0 && fresh(task)
    {
      task := new Slot[NR_TASKS](_ => None);
      current := 0;
      new;
      task[0] := Some(Task(Running, priority, priority));
    }

    method Wake(signalled: set<nat>)
      requires task.Length == NR_TASKS
      modifies task
      ensures task[..] == Woken(old(task[..]), signalled)
    {
      ghost var was: Tasks := task[..];
      var i := NR_TASKS - 1;
      while i > 0
        invariant 0 <= i < NR_TASKS
        invariant forall j | 0 <= j < NR_TASKS :: task[j] == if j > i then Woken(was, signalled)[j] else was[j]
      {
        if i in signalled && task[i].Some? && task[i].value.state == Interruptible {
          task[i] := Some(task[i].value.(state := Running));
        }
        i := i - 1;
      }
    }

    method Select() returns (c: int, next: nat)
      requires task.Length == NR_TASKS
      ensures Choice(c, next) == Best(task[..], 1)
    {
      c, next := -1, 0;
      var i := NR_TASKS;
      while i > 1
        invariant 1 <= i <= NR_TASKS && Choice(c, next) == Best(task[..], i)
      {
        i := i - 1;
        if task[i].Some? && task[i].value.state == Running && task[i].value.counter > c {
          c, next := task[i].value.counter, i;
        }
      }
    }

    method RechargeAll()
      requires task.Length == NR_TASKS
      modifies task
      ensures task[..] == Recharge(old(task[..]))
    {
      ghost var was: Tasks := task[..];
      var i := NR_TASKS - 1;
      while i > 0
        invariant 0 <= i < NR_TASKS
        invariant forall j | 0 <= j < NR_TASKS :: task[j] == if j > i then Recharge(was)[j] else was[j]
      {
        if task[i].Some? {
          task[i] := Some(task[i].value.(counter := task[i].value.counter / 2 + task[i].value.priority));
        }
        i := i - 1;
      }
    }

    /** `schedule`; its loop recharges at most once. */
    method DoSchedule(signalled: set<nat>) returns (recharges: nat)
      requires task.Length == NR_TASKS && Valid(task[..]) && task[0].Some?
      modifies this, task
      ensures Ready() && State(task[..], current) == Schedule(old(task[..]), signalled)
      ensures Chosen(task[..], current) && SignalsWake(old(task[..]), task[..], signalled)
      ensures recharges == 0 ==> SameCounters(old(task[..]), task[..])
      ensures recharges != 0 ==> recharges == 1 && NewCounters(old(task[..]), task[..])
    {
      ScheduleValid(task[..], signalled);
      ScheduleLaw(task[..], signalled);
      WokenValid(task[..], signalled);
      Wake(signalled);
      ghost var woken: Tasks := task[..];
      OneRecharge(woken);
      recharges := 0;
      var c, next := Select();
      while c == 0
        invariant recharges <= 1
        invariant task[..] == if recharges == 0 then woken else Recharge(woken)
        invariant Choice(c, next) == Best(task[..], 1)
        invariant recharges == 1 ==> Best(woken, 1).c == 0
        decreases 1 - recharges
      {
        RechargeAll();
        recharges := recharges + 1;
        c, next := Select();
      }
      current := next;
      RechargesAre(old(task[..]), woken, task[..], signalled, recharges);
    }

    /** The counter part of `do_timer`. */
    method DoTimer(userMode: bool, signalled: set<nat>)
      requires Ready()
      modifies this, task
      ensures Ready() && State(task[..], current) == Tick(old(State(task[..], current)), userMode, signalled)
      ensures if userMode && old(task[current].value.counter) <= 1 then Chosen(task[..], current)
              else current == old(current)
    {
      hide Schedule, Valid, Woken;
      TickLaw(State(task[..], current), userMode, signalled);
      ghost var was: Tasks := task[..];
      ChargeValid(was, current);
      var t := task[current].value;
      task[current] := Some(t.(counter := t.counter - 1));
      if t.counter - 1 > 0 {
        assert task[..] == Charge(was, current);
        return;
      }
      task[current] := Some(t.(counter := 0));
      assert task[..] == Charge(was, current);
      if !userMode {
        return;
      }
      var _ := DoSchedule(signalled);
    }

    /** `sys_nice` never lets a priority drop to zero, and touches nothing else. */
    method Nice(increment: int)
      requires Ready()
      modifies task
      ensures task.Length == NR_TASKS && task[current].Some? && task[current].value.priority >= 1
      ensures task[..] == old(task[..])[current := Some(Reniced(old(task[current].value), increment))]
      ensures Valid(task[..]) <==> old(task[current].value.counter) <= 2 * task[current].value.priority - 1
    {
      assert InBounds(task[..][current]);
      var t := task[current].value;
      if t.priority - increment > 0 {
        task[current] := Some(t.(priority := t.priority - increment));
      }
    }
  }
}
