/** Reference counts of the system file table, kept by fs/open.c, fs/fcntl.c, fs/pipe.c,
    kernel/fork.c and kernel/exit.c. A call gives up the processor only while it looks up a
    name, gets a pipe inode or puts an inode back; each of its parts in between is one step. */
module FileTable {
  import opened Sets

  const NR_OPEN: nat := 20
  const NR_FILE: nat := 64
  const NR_TASKS: nat := 64
  const EINVAL: int := 22
  const EBADF: int := 9
  const EMFILE: int := 24

  /** Task and descriptor. A slot that holds NULL is absent from a slot map. */
  type Slot = (nat, nat)
  type Slots = map<Slot, nat>

  /** A call asleep half way: `sys_open` in `open_namei`, `sys_pipe` in `get_pipe_inode`. */
  datatype Pending = Opening(fd: nat, f: nat) | Piping(fd0: nat, fd1: nat, f0: nat, f1: nat)

  datatype State = State(count: seq<nat>, filp: Slots, tasks: set<nat>, pending: map<nat, Pending>)

  /** The slots that point at an entry. */
  function Refs(filp: Slots, f: nat): set<Slot> {
    set k | k in filp && filp[k] == f
  }

  ghost predicate InRange(s: State) {
    && |s.count| == NR_FILE
    && forall k | k in s.filp :: k.0 in s.tasks && k.0 < NR_TASKS && k.1 < NR_OPEN && s.filp[k] < NR_FILE
  }

  /** Each `f_count` is the number of slots pointing at the entry. */
  ghost predicate Counted(s: State) {
    |s.count| == NR_FILE && forall f | 0 <= f < NR_FILE :: s.count[f] == |Refs(s.filp, f)|
  }

  /** The entry f is referred to by the slot k alone. */
  ghost predicate Sole(filp: Slots, k: Slot, f: nat) {
    Refs(filp, f) == {k}
  }

  /** The slots of a half-finished call, with their entries. */
  function Claims(t: nat, p: Pending): Slots {
    match p
    case Opening(fd, f) => map[(t, fd) := f]
    case Piping(fd0, fd1, f0, f1) => map[(t, fd0) := f0, (t, fd1) := f1]
  }

  /** The entries of a half-finished call belong to it alone. */
  ghost predicate OwnEntries(s: State, t: nat)
    requires t in s.pending
  {
    && (s.pending[t].Piping? ==> s.pending[t].fd0 != s.pending[t].fd1)
    && forall k | k in Claims(t, s.pending[t]) :: Sole(s.filp, k, Claims(t, s.pending[t])[k])
  }

  ghost predicate Sound(s: State) {
    InRange(s) && Counted(s) && forall t | t in s.pending :: OwnEntries(s, t)
  }

  /** The first empty slot of a task at or after fd. */
  function FreeFd(filp: Slots, t: nat, fd: nat): nat
    decreases NR_OPEN - fd
  {
    if fd >= NR_OPEN || (t, fd) !in filp then fd else FreeFd(filp, t, fd + 1)
  }

  /** The first unused entry at or after f. */
  function FreeFile(count: seq<nat>, f: nat): nat
    requires |count| == NR_FILE
    decreases NR_FILE - f
  {
    if f >= NR_FILE || count[f] == 0 then f else FreeFile(count, f + 1)
  }

  /** fd is the lowest empty slot of task t from arg on; there are twenty. */
  ghost predicate LowestFd(filp: Slots, t: nat, arg: nat, fd: nat) {
    arg <= fd < 20 && (t, fd) !in filp && forall k | arg <= k < fd :: (t, k) in filp
  }

  ghost predicate NoFd(filp: Slots, t: nat, arg: nat) {
    forall k | arg <= k < 20 :: (t, k) in filp
  }

  /** f is the lowest unused entry from arg on; there are 64. */
  ghost predicate LowestFile(count: seq<nat>, arg: nat, f: nat)
    requires |count| == 64
  {
    arg <= f < 64 && count[f] == 0 && forall k | arg <= k < f :: count[k] != 0
  }

  ghost predicate NoFile(count: seq<nat>, arg: nat)
    requires |count| == 64
  {
    forall k | arg <= k < 64 :: count[k] != 0
  }

  lemma {:induction false} FreeFdIs(filp: Slots, t: nat, arg: nat)
    ensures var fd := FreeFd(filp, t, arg); if fd < 20 then LowestFd(filp, t, arg, fd) else NoFd(filp, t, arg)
    decreases 20 - arg
  {
    if arg < 20 && (t, arg) in filp {
      FreeFdIs(filp, t, arg + 1);
    }
  }

  lemma {:induction false} FreeFileIs(count: seq<nat>, arg: nat)
    requires |count| == 64
    ensures var f := FreeFile(count, arg); if f < 64 then LowestFile(count, arg, f) else NoFile(count, arg)
    decreases 64 - arg
  {
    if arg < 64 && count[arg] != 0 {
      FreeFileIs(count, arg + 1);
    }
  }

  /** Pointing an empty slot at an entry, with its count. */
  function Attach(s: State, k: Slot, f: nat): State
    requires f < |s.count|
  {
    s.(filp := s.filp[k := f], count := s.count[f := s.count[f] + 1])
  }

  /** Clearing a slot, with the count of its entry set to n. */
  function Detach(s: State, k: Slot, n: nat): State
    requires k in s.filp && s.filp[k] < |s.count|
  {
    s.(filp := s.filp - {k}, count := s.count[s.filp[k] := n])
  }

  // The steps.

  /** `sys_open` up to `open_namei`. */
  function OpenStart(s: State, t: nat): State
    requires |s.count| == NR_FILE
  {
    var fd := FreeFd(s.filp, t, 0);
    var f := FreeFile(s.count, 0);
    if fd >= NR_OPEN || f >= NR_FILE then s
    else Attach(s, (t, fd), f).(pending := s.pending[t := Opening(fd, f)])
  }

  /** The rest of a failed `sys_open`: the count is set to 0. */
  function OpenFail(s: State, t: nat): State
    requires Sound(s) && t in s.pending && s.pending[t].Opening?
  {
    ClaimInRange(s, t, (t, s.pending[t].fd));
    var Opening(fd, f) := s.pending[t];
    s.(filp := s.filp - {(t, fd)}, count := s.count[f := 0], pending := s.pending - {t})
  }

  /** The rest of a successful `sys_open`: the count is set to 1. */
  function OpenDone(s: State, t: nat): State
    requires Sound(s) && t in s.pending && s.pending[t].Opening?
  {
    ClaimInRange(s, t, (t, s.pending[t].fd));
    s.(count := s.count[s.pending[t].f := 1], pending := s.pending - {t})
  }

  function Close(s: State, t: nat, fd: nat): State
    requires Sound(s)
  {
    if fd >= NR_OPEN || (t, fd) !in s.filp then s
    else
      CountPositive(s, (t, fd));
      Detach(s, (t, fd), s.count[s.filp[(t, fd)]] - 1)
  }

  /** `dupfd`. */
  function Dup(s: State, t: nat, fd: nat, arg: nat): State
    requires InRange(s)
  {
    var to := FreeFd(s.filp, t, arg);
    if fd >= NR_OPEN || (t, fd) !in s.filp || to >= NR_OPEN then s
    else Attach(s, (t, to), s.filp[(t, fd)])
  }

  /** `sys_pipe` up to `get_pipe_inode`: two free entries and two free slots, or nothing. */
  function PipeStart(s: State, t: nat): State
    requires |s.count| == NR_FILE
  {
    var f0 := FreeFile(s.count, 0);
    var f1 := FreeFile(s.count, f0 + 1);
    var fd0 := FreeFd(s.filp, t, 0);
    var fd1 := FreeFd(s.filp, t, fd0 + 1);
    if f1 >= NR_FILE || fd1 >= NR_OPEN || f0 >= NR_FILE || fd0 >= NR_OPEN then s
    else Attach(Attach(s, (t, fd0), f0), (t, fd1), f1).(pending := s.pending[t := Piping(fd0, fd1, f0, f1)])
  }

  function PipeFail(s: State, t: nat): State
    requires Sound(s) && t in s.pending && s.pending[t].Piping?
  {
    ClaimInRange(s, t, (t, s.pending[t].fd0));
    ClaimInRange(s, t, (t, s.pending[t].fd1));
    var Piping(fd0, fd1, f0, f1) := s.pending[t];
    s.(filp := s.filp - {(t, fd0), (t, fd1)}, count := s.count[f0 := 0][f1 := 0], pending := s.pending - {t})
  }

  function PipeDone(s: State, t: nat): State
    requires t in s.pending
  {
    s.(pending := s.pending - {t})
  }

  /** The slots of the child below n are copied and counted. */
  function CopyFiles(s: State, parent: nat, child: nat, n: nat): State
    requires InRange(s)
    ensures |CopyFiles(s, parent, child, n).count| == NR_FILE
    ensures forall fd | fd >= n :: (child, fd) in CopyFiles(s, parent, child, n).filp ==> (child, fd) in s.filp
    decreases n
  {
    if n == 0 then s.(tasks := s.tasks + {child})
    else
      var t := CopyFiles(s, parent, child, n - 1);
      if (parent, n - 1) in s.filp then Attach(t, (child, n - 1), s.filp[(parent, n - 1)]) else t
  }

  /** `copy_process`: the child's table is the parent's. */
  function Fork(s: State, parent: nat, child: nat): State
    requires InRange(s)
  {
    CopyFiles(s, parent, child, NR_OPEN)
  }

  // How references change.

  lemma CountPositive(s: State, k: Slot)
    requires Sound(s) && k in s.filp
    ensures s.filp[k] < NR_FILE && s.count[s.filp[k]] > 0
  {
    assert k in Refs(s.filp, s.filp[k]);
  }

  lemma ClaimInRange(s: State, t: nat, k: Slot)
    requires Sound(s) && t in s.pending && k in Claims(t, s.pending[t])
    ensures Claims(t, s.pending[t])[k] < NR_FILE
  {
  }

  lemma Attached(filp: Slots, k: Slot, f: nat, g: nat)
    requires k !in filp
    ensures Refs(filp[k := f], g) == if g == f then Refs(filp, g) + {k} else Refs(filp, g)
  {
  }

  lemma Detached(filp: Slots, k: Slot, g: nat)
    requires k in filp
    ensures Refs(filp - {k}, g) == Refs(filp, g) - {k}
  {
  }

  lemma AttachCounted(s: State, k: Slot, f: nat)
    requires Counted(s) && k !in s.filp && f < NR_FILE
    ensures Counted(Attach(s, k, f))
  {
    var t := Attach(s, k, f);
    forall g | 0 <= g < NR_FILE
      ensures t.count[g] == |Refs(t.filp, g)|
    {
      Attached(s.filp, k, f, g);
    }
  }

  lemma DetachCounted(s: State, k: Slot, n: nat)
    requires Counted(s) && k in s.filp && s.filp[k] < NR_FILE && n + 1 == s.count[s.filp[k]]
    ensures Counted(Detach(s, k, n))
  {
    var t := Detach(s, k, n);
    forall g | 0 <= g < NR_FILE
      ensures t.count[g] == |Refs(t.filp, g)|
    {
      Detached(s.filp, k, g);
    }
  }

  /** A call that is asleep keeps its entries when another task attaches an entry that is
      unused or that it already had. */
  lemma AttachOwn(s: State, k: Slot, f: nat, u: nat)
    requires u in s.pending && OwnEntries(s, u) && k !in s.filp && f < |s.count|
    requires Refs(s.filp, f) == {} || exists j :: j in Refs(s.filp, f) && j.0 != u
    ensures OwnEntries(Attach(s, k, f), u)
  {
  }

  lemma DetachOwn(s: State, t: State, gone: set<Slot>, u: nat)
    requires u in s.pending && u in t.pending && s.pending[u] == t.pending[u] && OwnEntries(s, u)
    requires t.filp == s.filp - gone && forall k | k in gone :: k.0 != u
    ensures OwnEntries(t, u)
  {
  }

  lemma {:induction false} FreeFdFree(filp: Slots, t: nat, fd: nat)
    ensures var r := FreeFd(filp, t, fd);
            r >= fd && (r < NR_OPEN ==> (t, r) !in filp) && forall i | fd <= i < r && i < NR_OPEN :: (t, i) in filp
    decreases NR_OPEN - fd
  {
    if fd < NR_OPEN && (t, fd) in filp {
      FreeFdFree(filp, t, fd + 1);
    }
  }

  lemma {:induction false} FreeFileFree(count: seq<nat>, f: nat)
    requires |count| == NR_FILE
    ensures var r := FreeFile(count, f);
            r >= f && (r < NR_FILE ==> count[r] == 0) && forall i | f <= i < r && i < NR_FILE :: count[i] > 0
    decreases NR_FILE - f
  {
    if f < NR_FILE && count[f] > 0 {
      FreeFileFree(count, f + 1);
    }
  }

  lemma Unreferred(s: State, f: nat)
    requires Counted(s) && f < NR_FILE && s.count[f] == 0
    ensures Refs(s.filp, f) == {}
  {
  }

  lemma OpenStartSound(s: State, t: nat)
    requires Sound(s) && t in s.tasks && t < NR_TASKS && t !in s.pending
    ensures Sound(OpenStart(s, t))
  {
    var (fd, f) := (FreeFd(s.filp, t, 0), FreeFile(s.count, 0));
    FreeFdFree(s.filp, t, 0);
    FreeFileFree(s.count, 0);
    if fd < NR_OPEN && f < NR_FILE {
      Unreferred(s, f);
      AttachCounted(s, (t, fd), f);
      Attached(s.filp, (t, fd), f, f);
      var r := OpenStart(s, t);
      forall u | u in r.pending
        ensures OwnEntries(r, u)
      {
        if u != t {
          AttachOwn(s, (t, fd), f, u);
        }
      }
    }
  }

  /** Clearing a slot whose entry has no other and zeroing the count agree. */
  lemma DropSole(s: State, k: Slot, f: nat)
    requires Counted(s) && f < NR_FILE && Sole(s.filp, k, f)
    ensures k in s.filp && s.filp[k] == f && s.count[f] == 1 && Counted(Detach(s, k, 0))
  {
    assert k in Refs(s.filp, f);
    assert s.count[f] == |Refs(s.filp, f)| == 1;
    DetachCounted(s, k, 0);
  }

  lemma OpenEndSound(s: State, t: nat)
    requires Sound(s) && t in s.pending && s.pending[t].Opening?
    ensures Sound(OpenFail(s, t)) && Sound(OpenDone(s, t))
  {
    var Opening(fd, f) := s.pending[t];
    assert (t, fd) in Claims(t, s.pending[t]);
    DropSole(s, (t, fd), f);
    var r := OpenFail(s, t);
    assert r.filp == Detach(s, (t, fd), 0).filp && r.count == Detach(s, (t, fd), 0).count;
    forall u | u in r.pending
      ensures OwnEntries(r, u)
    {
      DetachOwn(s, r, {(t, fd)}, u);
    }
    assert OpenDone(s, t).count == s.count;
    forall u | u in OpenDone(s, t).pending
      ensures OwnEntries(OpenDone(s, t), u)
    {
      assert OwnEntries(s, u);
    }
  }

  lemma CloseSound(s: State, t: nat, fd: nat)
    requires Sound(s) && t !in s.pending
    ensures Sound(Close(s, t, fd))
  {
    if fd < NR_OPEN && (t, fd) in s.filp {
      CountPositive(s, (t, fd));
      DetachCounted(s, (t, fd), s.count[s.filp[(t, fd)]] - 1);
      var r := Close(s, t, fd);
      forall u | u in r.pending
        ensures OwnEntries(r, u)
      {
        DetachOwn(s, r, {(t, fd)}, u);
      }
    }
  }

  lemma AttachSound(s: State, k: Slot, from: Slot)
    requires Sound(s) && from in s.filp && from.0 !in s.pending
    requires k !in s.filp && k.0 in s.tasks && k.0 < NR_TASKS && k.1 < NR_OPEN
    ensures Sound(Attach(s, k, s.filp[from]))
  {
    var f := s.filp[from];
    AttachCounted(s, k, f);
    var r := Attach(s, k, f);
    assert from in Refs(s.filp, f);
    forall u | u in r.pending
      ensures OwnEntries(r, u)
    {
      AttachOwn(s, k, f, u);
    }
  }

  lemma DupSound(s: State, t: nat, fd: nat, arg: nat)
    requires Sound(s) && t !in s.pending
    ensures Sound(Dup(s, t, fd, arg))
  {
    var to := FreeFd(s.filp, t, arg);
    FreeFdFree(s.filp, t, arg);
    if fd < NR_OPEN && (t, fd) in s.filp && to < NR_OPEN {
      AttachSound(s, (t, to), (t, fd));
    }
  }

  /** What the copying has done so far. */
  ghost predicate Copied(s: State, r: State, parent: nat, child: nat, n: nat) {
    && r.pending == s.pending && r.tasks == s.tasks + {child}
    && (forall k | k in s.filp :: k in r.filp && r.filp[k] == s.filp[k])
    && (forall k | k in r.filp :: k in s.filp || (k.0 == child && k.1 < n && (parent, k.1) in s.filp))
    && (forall fd | 0 <= fd < n && (parent, fd) in s.filp ::
          (child, fd) in r.filp && r.filp[(child, fd)] == s.filp[(parent, fd)])
  }

  lemma NoneOfChild(s: State, child: nat)
    requires Sound(s) && child !in s.tasks
    ensures InRange(s) && forall k | k in s.filp :: k.0 != child
  {
  }

  /** The child's descriptors are the parent's, everyone else's are untouched. */
  lemma {:induction false} CopyFilesSound(s: State, parent: nat, child: nat, n: nat)
    requires Sound(s) && parent !in s.pending && child !in s.tasks && child < NR_TASKS && n <= NR_OPEN
    ensures Sound(CopyFiles(s, parent, child, n))
    ensures Copied(s, CopyFiles(s, parent, child, n), parent, child, n)
    decreases n
  {
    hide Sound, Copied, Attach;
    NoneOfChild(s, child);
    if n == 0 {
      NothingCopied(s, parent, child);
    } else {
      CopyFilesSound(s, parent, child, n - 1);
      CopyOneSound(s, CopyFiles(s, parent, child, n - 1), parent, child, n - 1);
    }
  }

  lemma NothingCopied(s: State, parent: nat, child: nat)
    requires Sound(s) && child < NR_TASKS
    ensures var r := s.(tasks := s.tasks + {child}); Sound(r) && Copied(s, r, parent, child, 0)
  {
    SameSlots(s, s.(tasks := s.tasks + {child}));
  }

  lemma CopyOneSound(s: State, r: State, parent: nat, child: nat, n: nat)
    requires Sound(r) && parent !in s.pending && child < NR_TASKS && n < NR_OPEN && |r.count| == NR_FILE && InRange(s)
    requires Copied(s, r, parent, child, n) && (forall k | k in s.filp :: k.0 != child)
    ensures var t := if (parent, n) in s.filp then Attach(r, (child, n), s.filp[(parent, n)]) else r;
            Sound(t) && Copied(s, t, parent, child, n + 1)
  {
    hide Sound;
    CopiedOneMore(s, r, parent, child, n);
    if (parent, n) in s.filp {
      AttachSound(r, (child, n), (parent, n));
    }
  }

  lemma CopiedOneMore(s: State, r: State, parent: nat, child: nat, n: nat)
    requires Copied(s, r, parent, child, n) && (forall k | k in s.filp :: k.0 != child)
    ensures (child, n) !in r.filp
    ensures if (parent, n) in s.filp then
              && (parent, n) in r.filp && r.filp[(parent, n)] == s.filp[(parent, n)]
              && (s.filp[(parent, n)] < |r.count| ==>
                    Copied(s, Attach(r, (child, n), s.filp[(parent, n)]), parent, child, n + 1))
            else Copied(s, r, parent, child, n + 1)
  {
  }

  lemma PipeStartSound(s: State, t: nat)
    requires Sound(s) && t in s.tasks && t < NR_TASKS && t !in s.pending
    ensures Sound(PipeStart(s, t))
  {
    var r := PipeStart(s, t);
    if r != s {
      var Piping(fd0, fd1, f0, f1) := r.pending[t];
      FreeFdFree(s.filp, t, 0);
      FreeFdFree(s.filp, t, fd0 + 1);
      FreeFileFree(s.count, 0);
      FreeFileFree(s.count, f0 + 1);
      hide FreeFd, FreeFile;
      Unreferred(s, f0);
      Unreferred(s, f1);
      PipeAttached(s, t, fd0, fd1, f0, f1);
      forall u | u in r.pending
        ensures OwnEntries(r, u)
      {
        if u != t {
          assert OwnEntries(Attach(Attach(s, (t, fd0), f0), (t, fd1), f1), u);
        }
      }
    }
  }

  lemma PipeAttached(s: State, t: nat, fd0: nat, fd1: nat, f0: nat, f1: nat)
    requires Sound(s) && fd0 != fd1 && f0 != f1 && f0 < NR_FILE && f1 < NR_FILE
    requires (t, fd0) !in s.filp && (t, fd1) !in s.filp && Refs(s.filp, f0) == {} && Refs(s.filp, f1) == {}
    ensures var r := Attach(Attach(s, (t, fd0), f0), (t, fd1), f1);
            && Counted(r) && Sole(r.filp, (t, fd0), f0) && Sole(r.filp, (t, fd1), f1)
            && forall u | u in s.pending :: OwnEntries(r, u)
  {
    var q := Attach(s, (t, fd0), f0);
    AttachCounted(s, (t, fd0), f0);
    AttachCounted(q, (t, fd1), f1);
    Attached(s.filp, (t, fd0), f0, f0);
    Attached(s.filp, (t, fd0), f0, f1);
    Attached(q.filp, (t, fd1), f1, f0);
    Attached(q.filp, (t, fd1), f1, f1);
    forall u | u in s.pending
      ensures OwnEntries(Attach(q, (t, fd1), f1), u)
    {
      AttachOwn(s, (t, fd0), f0, u);
      AttachOwn(q, (t, fd1), f1, u);
    }
  }

  lemma PipeFailSound(s: State, t: nat)
    requires Sound(s) && t in s.pending && s.pending[t].Piping?
    ensures Sound(PipeFail(s, t))
  {
    var Piping(fd0, fd1, f0, f1) := s.pending[t];
    assert (t, fd0) in Claims(t, s.pending[t]) && (t, fd1) in Claims(t, s.pending[t]);
    DropSole(s, (t, fd0), f0);
    var q := Detach(s, (t, fd0), 0);
    Detached(s.filp, (t, fd0), f1);
    DropSole(q, (t, fd1), f1);
    var r := PipeFail(s, t);
    assert r.filp == Detach(q, (t, fd1), 0).filp && r.count == Detach(q, (t, fd1), 0).count;
    forall u | u in r.pending
      ensures OwnEntries(r, u)
    {
      DetachOwn(s, r, {(t, fd0), (t, fd1)}, u);
    }
  }

  // Runs.

  /** dup2 is a Close and then a Dup, exit a Close for each descriptor in use. Reap frees the
      slot of a task that has closed everything. */
  datatype Step =
    | DoOpenStart(task: nat)
    | DoOpenEnd(task: nat, found: bool)
    | DoClose(task: nat, fd: nat)
    | DoDup(task: nat, fd: nat, arg: nat)
    | DoPipeStart(task: nat)
    | DoPipeEnd(task: nat, gotInode: bool)
    | DoFork(task: nat, child: nat)
    | DoReap(task: nat)

  predicate Enabled(s: State, step: Step) {
    && step.task in s.tasks && step.task < NR_TASKS
    && match step
       case DoOpenEnd(t, _) => t in s.pending && s.pending[t].Opening?
       case DoPipeEnd(t, _) => t in s.pending && s.pending[t].Piping?
       case DoFork(t, child) => t !in s.pending && child !in s.tasks && child < NR_TASKS
       case DoReap(t) => t !in s.pending && forall k | k in s.filp :: k.0 != t
       case _ => step.task !in s.pending
  }

  function Do(s: State, step: Step): State
    requires Sound(s) && Enabled(s, step)
  {
    match step
    case DoOpenStart(t) => OpenStart(s, t)
    case DoOpenEnd(t, found) => if found then OpenDone(s, t) else OpenFail(s, t)
    case DoClose(t, fd) => Close(s, t, fd)
    case DoDup(t, fd, arg) => Dup(s, t, fd, arg)
    case DoPipeStart(t) => PipeStart(s, t)
    case DoPipeEnd(t, gotInode) => if gotInode then PipeDone(s, t) else PipeFail(s, t)
    case DoFork(t, child) => Fork(s, t, child)
    case DoReap(t) => s.(tasks := s.tasks - {t})
  }

  lemma StepSound(s: State, step: Step)
    requires Sound(s) && Enabled(s, step)
    ensures Sound(Do(s, step))
  {
    match step
    case DoOpenStart(t) => OpenStartSound(s, t);
    case DoOpenEnd(t, found) => OpenEndSound(s, t);
    case DoClose(t, fd) => CloseSound(s, t, fd);
    case DoDup(t, fd, arg) => DupSound(s, t, fd, arg);
    case DoPipeStart(t) => PipeStartSound(s, t);
    case DoPipeEnd(t, gotInode) => if gotInode { SameSlots(s, Do(s, step)); } else { PipeFailSound(s, t); }
    case DoFork(t, child) => CopyFilesSound(s, t, child, NR_OPEN);
    case DoReap(t) => SameSlots(s, Do(s, step));
  }

  lemma SameSlots(s: State, r: State)
    requires Sound(s) && InRange(r) && r.filp == s.filp && r.count == s.count
    requires forall u | u in r.pending :: u in s.pending && r.pending[u] == s.pending[u]
    ensures Sound(r)
  {
  }

  /** The table at boot, with the first task. */
  function Boot(): State {
    State(seq(NR_FILE, _ => 0), map[], {0}, map[])
  }

  ghost predicate Reaches(steps: seq<Step>, s: State)
    decreases |steps|
  {
    if steps == [] then s == Boot()
    else
      var last := steps[|steps| - 1];
      exists before: State :: Reaches(steps[..|steps| - 1], before) && Follows(before, last, s)
  }

  ghost predicate Follows(s: State, step: Step, r: State) {
    Sound(s) && Enabled(s, step) && r == Do(s, step)
  }

  /** After every run of opens, closes, dups, pipes, forks and exits, finished or asleep half
      way, each count is the number of slots pointing at the entry. */
  lemma {:induction false} EveryRunSound(steps: seq<Step>, s: State)
    requires Reaches(steps, s)
    ensures Sound(s)
    decreases |steps|
  {
    if steps == [] {
      assert forall f :: Refs(Boot().filp, f) == {};
    } else {
      var last := |steps| - 1;
      var before: State :| Reaches(steps[..last], before) && Follows(before, steps[last], s);
      EveryRunSound(steps[..last], before);
      StepSound(before, steps[last]);
    }
  }

  /** No run closes an entry whose count is 0, the panic of `sys_close`, and no entry given
      to a new open is in use. */
  lemma NoPanicNoReuse(steps: seq<Step>, s: State, k: Slot)
    requires Reaches(steps, s)
    ensures |s.count| == NR_FILE
    ensures k in s.filp ==> s.filp[k] < NR_FILE && s.count[s.filp[k]] > 0 && s.filp[k] != FreeFile(s.count, 0)
  {
    EveryRunSound(steps, s);
    FreeFileFree(s.count, 0);
    if k in s.filp {
      CountPositive(s, k);
    }
  }

  function RowOf(t: nat, n: nat): set<Slot> {
    set fd | 0 <= fd < n :: (t, fd)
  }

  function RowsTo(n: nat): set<Slot> {
    set t, fd | 0 <= t < n && 0 <= fd < NR_OPEN :: (t, fd)
  }

  lemma {:induction false} RowSize(t: nat, n: nat)
    ensures |RowOf(t, n)| == n
    decreases n
  {
    if n > 0 {
      RowSize(t, n - 1);
      assert RowOf(t, n) == RowOf(t, n - 1) + {(t, n - 1)};
    }
  }

  lemma {:induction false} RowsSize(n: nat)
    ensures |RowsTo(n)| == n * NR_OPEN
    decreases n
  {
    if n > 0 {
      RowsSize(n - 1);
      RowSize(n - 1, NR_OPEN);
      assert RowsTo(n) == RowsTo(n - 1) + RowOf(n - 1, NR_OPEN);
      assert RowsTo(n - 1) !! RowOf(n - 1, NR_OPEN);
    }
  }

  /** A count never exceeds the number of slots there are, so the 16-bit field never wraps. */
  lemma CountsBounded(s: State, f: nat)
    requires Sound(s) && f < NR_FILE
    ensures s.count[f] <= NR_TASKS * NR_OPEN < 0x10000
  {
    RowsSize(NR_TASKS);
    SubsetSize(Refs(s.filp, f), RowsTo(NR_TASKS));
  }

  // The system calls.

  class Files {
    const count: array<nat>
    var filp: Slots
    var tasks: set<nat>
    /** The locals of the calls that are asleep. */
    var pending: map<nat, Pending>

    ghost function Value(): State
      reads this, count
    {
      State(count[..], filp, tasks, pending)
    }

    constructor ()
      ensures Value() == Boot() && Sound(Value()) && fresh(count)
    {
      count := new nat[NR_FILE](_ => 0);
      filp := map[];
      tasks := {0};
      pending := map[];
      new;
      assert count[..] == Boot().count;
      EveryRunSound([], Boot());
    }

    method FindFd(t: nat, from: nat) returns (fd: nat)
      ensures fd == FreeFd(filp, t, from)
    {
      fd := from;
      while fd < NR_OPEN && (t, fd) in filp
        invariant FreeFd(filp, t, from) == FreeFd(filp, t, fd)
        decreases NR_OPEN - fd
      {
        fd := fd + 1;
      }
    }

    method FindFile(from: nat) returns (f: nat)
      requires count.Length == NR_FILE
      ensures f == FreeFile(count[..], from)
    {
      f := from;
      while f < NR_FILE && count[f] != 0
        invariant FreeFile(count[..], from) == FreeFile(count[..], f)
        decreases NR_FILE - f
      {
        f := f + 1;
      }
    }

    /** `sys_open` up to the name lookup; a result below 0 is an error and changes nothing. */
    method OpenBegin(t: nat) returns (r: int)
      requires Sound(Value()) && t in tasks && t < NR_TASKS && t !in pending
      modifies this, count
      ensures Sound(Value()) && Value() == OpenStart(old(Value()), t)
      ensures r == -EINVAL || (t in pending && pending[t].Opening? && r == pending[t].fd)
      ensures r == -EINVAL <==> Value() == old(Value())
      ensures count.Length == 64 && (r == -22 <==> NoFd(old(filp), t, 0) || NoFile(old(count[..]), 0))
      ensures r != -22 ==>
                && t in pending && pending[t].Opening?
                && LowestFd(old(filp), t, 0, r) && LowestFile(old(count[..]), 0, pending[t].f)
                && filp == old(filp)[(t, r) := pending[t].f] && count[..] == old(count[..])[pending[t].f := 1]
    {
      OpenStartSound(Value(), t);
      FreeFdIs(filp, t, 0);
      FreeFileIs(count[..], 0);
      var fd := FindFd(t, 0);
      if fd >= NR_OPEN {
        return -EINVAL;
      }
      var f := FindFile(0);
      if f >= NR_FILE {
        return -EINVAL;
      }
      filp := filp[(t, fd) := f];
      count[f] := count[f] + 1;
      pending := pending[t := Opening(fd, f)];
      r := fd;
    }

    /** `sys_open` after the name lookup. */
    method OpenEnd(t: nat, found: bool)
      requires Sound(Value()) && t in pending && pending[t].Opening?
      modifies this, count
      ensures Sound(Value())
      ensures Value() == if found then OpenDone(old(Value()), t) else OpenFail(old(Value()), t)
      ensures filp == (if found then old(filp) else old(filp) - {(t, old(pending)[t].fd)})
      ensures tasks == old(tasks) && pending == old(pending) - {t}
    {
      OpenEndSound(Value(), t);
      ClaimInRange(Value(), t, (t, pending[t].fd));
      var Opening(fd, f) := pending[t];
      if found {
        count[f] := 1;
      } else {
        filp := filp - {(t, fd)};
        count[f] := 0;
      }
      pending := pending - {t};
    }

    method SysClose(t: nat, fd: nat) returns (r: int)
      requires Sound(Value()) && t !in pending
      modifies this, count
      ensures Sound(Value()) && Value() == Close(old(Value()), t, fd)
      ensures r == if fd >= 20 || (t, fd) !in old(filp) then -22 else 0
      ensures filp == (if r == 0 then old(filp) - {(t, fd)} else old(filp))
      ensures tasks == old(tasks) && pending == old(pending)
    {
      CloseSound(Value(), t, fd);
      if fd >= NR_OPEN || (t, fd) !in filp {
        return -EINVAL;
      }
      CountPositive(Value(), (t, fd));
      var f := filp[(t, fd)];
      filp := filp - {(t, fd)};
      count[f] := count[f] - 1;
      r := 0;
    }

    method DupFd(t: nat, fd: nat, arg: nat) returns (r: int)
      requires Sound(Value()) && t !in pending
      modifies this, count
      ensures Sound(Value()) && Value() == Dup(old(Value()), t, fd, arg)
      ensures var to := FreeFd(old(filp), t, arg);
              r == if fd >= NR_OPEN || (t, fd) !in old(filp) then -EBADF
                   else if arg >= NR_OPEN then -EINVAL
                   else if to >= NR_OPEN then -EMFILE
                   else to
      ensures r == -9 <==> fd >= 20 || (t, fd) !in old(filp)
      ensures r != -9 ==> (r == -22 <==> arg >= 20) && (r == -24 <==> arg < 20 && NoFd(old(filp), t, arg))
      ensures if r < 0 then filp == old(filp)
              else LowestFd(old(filp), t, arg, r) && filp == old(filp)[(t, r) := old(filp)[(t, fd)]]
      ensures tasks == old(tasks) && pending == old(pending)
    {
      FreeFdIs(filp, t, arg);
      DupSound(Value(), t, fd, arg);
      FreeFdFree(filp, t, arg);
      if fd >= NR_OPEN || (t, fd) !in filp {
        return -EBADF;
      }
      if arg >= NR_OPEN {
        return -EINVAL;
      }
      var to := FindFd(t, arg);
      if to >= NR_OPEN {
        return -EMFILE;
      }
      var f := filp[(t, fd)];
      filp := filp[(t, to) := f];
      count[f] := count[f] + 1;
      r := to;
    }

    /** `sys_dup2` when nothing else runs during its close. */
    method SysDup2(t: nat, oldfd: nat, newfd: nat) returns (r: int)
      requires Sound(Value()) && t !in pending
      modifies this, count
      ensures Sound(Value()) && Value() == Dup(Close(old(Value()), t, newfd), t, oldfd, newfd)
      ensures oldfd < NR_OPEN && (t, oldfd) in old(filp) && newfd < NR_OPEN && newfd != oldfd ==>
                r == newfd && (t, newfd) in filp && filp[(t, newfd)] == old(filp)[(t, oldfd)]
    {
      var _ := SysClose(t, newfd);
      r := DupFd(t, oldfd, newfd);
    }

    /** `do_exit` closes every descriptor of the task, and touches no other task's. */
    method CloseAll(t: nat)
      requires Sound(Value()) && t !in pending
      modifies this, count
      ensures Sound(Value()) && tasks == old(tasks) && pending == old(pending)
      ensures filp == map k | k in old(filp) && k.0 != t :: old(filp)[k]
    {
      for i := 0 to NR_OPEN
        invariant Sound(Value()) && tasks == old(tasks) && pending == old(pending)
        invariant filp == map k | k in old(filp) && (k.0 != t || k.1 >= i) :: old(filp)[k]
      {
        if (t, i) in filp {
          var _ := SysClose(t, i);
        }
      }
    }

    /** The part of `copy_process` that shares the open files: the task structure is copied
        whole, then every entry in it is counted. */
    method ForkFiles(parent: nat, child: nat)
      requires Sound(Value()) && parent in tasks && parent !in pending && child !in tasks && child < NR_TASKS
      modifies this, count
      ensures Sound(Value()) && Value() == Fork(old(Value()), parent, child)
      ensures Copied(old(Value()), Value(), parent, child, NR_OPEN)
    {
      CopyFilesSound(Value(), parent, child, NR_OPEN);
      ForkCopies(Value(), parent, child);
      hide Sound, Copied, Bumped, CopyFiles, Duplicate;
      tasks := tasks + {child};
      CopySlots(parent, child);
      CountFiles(child);
    }

    /** The slots of `*p = *current`, into a task that has none. */
    method CopySlots(parent: nat, child: nat)
      requires parent != child
      modifies this`filp
      ensures filp == Duplicate(old(filp), parent, child, NR_OPEN)
    {
      ghost var start := filp;
      for i := 0 to NR_OPEN
        invariant filp == Duplicate(start, parent, child, i)
        invariant forall k: Slot | k.0 == parent :: (k in filp <==> k in start) && (k in filp ==> filp[k] == start[k])
      {
        if (parent, i) in filp {
          filp := filp[(child, i) := filp[(parent, i)]];
        }
      }
    }

    method CountFiles(child: nat)
      requires count.Length == NR_FILE && forall k | k in filp :: filp[k] < NR_FILE
      modifies count
      ensures count[..] == Bumped(old(count[..]), filp, child, NR_OPEN)
    {
      for i := 0 to NR_OPEN
        invariant count[..] == Bumped(old(count[..]), filp, child, i)
      {
        if (child, i) in filp {
          count[filp[(child, i)]] := count[filp[(child, i)]] + 1;
        }
      }
    }

    /** The first loop of `sys_pipe`. */
    method TakeTwoFiles() returns (j: nat, f0: nat, f1: nat)
      requires count.Length == NR_FILE
      modifies count
      ensures var c := old(count[..]);
              && j <= 2
              && (j == 0 ==> FreeFile(c, 0) >= NR_FILE && count[..] == c)
              && (j > 0 ==> f0 == FreeFile(c, 0) < NR_FILE)
              && (j == 1 ==> FreeFile(c, f0 + 1) >= NR_FILE && count[..] == c[f0 := 1])
              && (j == 2 ==> f1 == FreeFile(c, f0 + 1) < NR_FILE && count[..] == c[f0 := 1][f1 := 1])
    {
      ghost var c := count[..];
      f0, f1, j := 0, 0, 0;
      var i := 0;
      while j < 2 && i < NR_FILE
        invariant j <= 2 && i <= NR_FILE
        invariant j == 0 ==> FreeFile(c, 0) == FreeFile(c, i) && count[..] == c
        invariant j > 0 ==> f0 == FreeFile(c, 0) < i
        invariant j == 1 ==> FreeFile(c, f0 + 1) == FreeFile(c, i) && count[..] == c[f0 := 1]
        invariant j == 2 ==> f1 == FreeFile(c, f0 + 1) < i && count[..] == c[f0 := 1][f1 := 1]
      {
        assert j < 2 ==> count[..][i] == c[i];
        if count[i] == 0 {
          if j == 0 {
            f0 := i;
          } else {
            f1 := i;
          }
          count[i] := count[i] + 1;
          j := j + 1;
        }
        i := i + 1;
      }
    }

    /** The second loop of `sys_pipe`. */
    method TakeTwoFds(t: nat, f0: nat, f1: nat) returns (j: nat, fd0: nat, fd1: nat)
      modifies this`filp
      ensures var p := old(filp);
              && j <= 2
              && (j == 0 ==> FreeFd(p, t, 0) >= NR_OPEN && filp == p)
              && (j > 0 ==> fd0 == FreeFd(p, t, 0) < NR_OPEN)
              && (j == 1 ==> FreeFd(p, t, fd0 + 1) >= NR_OPEN && filp == p[(t, fd0) := f0])
              && (j == 2 ==> fd1 == FreeFd(p, t, fd0 + 1) < NR_OPEN && filp == p[(t, fd0) := f0][(t, fd1) := f1])
    {
      ghost var p: Slots := filp;
      fd0, fd1, j := 0, 0, 0;
      var i := 0;
      while j < 2 && i < NR_OPEN
        invariant j <= 2 && i <= NR_OPEN
        invariant j == 0 ==> FreeFd(p, t, 0) == FreeFd(p, t, i) && filp == p
        invariant j > 0 ==> fd0 == FreeFd(p, t, 0) < i
        invariant j == 1 ==> FreeFd(p, t, fd0 + 1) == FreeFd(p, t, i) && filp == p[(t, fd0) := f0]
        invariant j == 2 ==> fd1 == FreeFd(p, t, fd0 + 1) < i && filp == p[(t, fd0) := f0][(t, fd1) := f1]
      {
        if (t, i) !in filp {
          filp := filp[(t, i) := if j == 0 then f0 else f1];
          if j == 0 {
            fd0 := i;
          } else {
            fd1 := i;
          }
          j := j + 1;
        }
        i := i + 1;
      }
    }

    /** Two entries or none: a single one is given back. */
    method TakeFilesOrNone() returns (ok: bool, f0: nat, f1: nat)
      requires count.Length == NR_FILE
      modifies count
      ensures var c := old(count[..]);
              if ok then
                && f0 == FreeFile(c, 0) && f1 == FreeFile(c, f0 + 1) && f0 < f1 < NR_FILE && c[f0] == c[f1] == 0
                && count[..] == c[f0 := 1][f1 := 1]
              else count[..] == c && (FreeFile(c, 0) >= NR_FILE || FreeFile(c, FreeFile(c, 0) + 1) >= NR_FILE)
    {
      ghost var c := count[..];
      FreeFileFree(c, 0);
      FreeFileFree(c, FreeFile(c, 0) + 1);
      hide FreeFile;
      var j;
      j, f0, f1 := TakeTwoFiles();
      if j == 1 {
        count[f0] := 0;
        assert count[..] == c;
      }
      ok := j == 2;
    }

    method GiveBack(ghost c: seq<nat>, f0: nat, f1: nat)
      requires f0 < f1 < count.Length == |c| && c[f0] == c[f1] == 0 && count[..] == c[f0 := 1][f1 := 1]
      modifies count
      ensures count[..] == c
    {
      count[f1] := 0;
      count[f0] := 0;
    }

    /** Two slots or none. */
    method TakeFdsOrNone(t: nat, f0: nat, f1: nat) returns (ok: bool, fd0: nat, fd1: nat)
      modifies this`filp
      ensures var p := old(filp);
              if ok then
                && fd0 == FreeFd(p, t, 0) && fd1 == FreeFd(p, t, fd0 + 1) && fd0 < fd1 < NR_OPEN
                && filp == p[(t, fd0) := f0][(t, fd1) := f1]
              else filp == p && (FreeFd(p, t, 0) >= NR_OPEN || FreeFd(p, t, FreeFd(p, t, 0) + 1) >= NR_OPEN)
    {
      ghost var p: Slots := filp;
      FreeFdFree(p, t, 0);
      FreeFdFree(p, t, FreeFd(p, t, 0) + 1);
      hide FreeFd;
      var j;
      j, fd0, fd1 := TakeTwoFds(t, f0, f1);
      if j == 1 {
        filp := filp - {(t, fd0)};
        assert filp == p;
      }
      ok := j == 2;
    }

    /** `sys_pipe` up to the inode. When entries or slots run out, whatever was taken is given
        back. */
    method PipeBegin(t: nat) returns (r: int)
      requires Sound(Value()) && t in tasks && t < NR_TASKS && t !in pending
      modifies this, count
      ensures Sound(Value()) && Value() == PipeStart(old(Value()), t)
      ensures r == 0 || r == -1
      ensures r == -1 <==> Value() == old(Value())
      ensures count.Length == 64
      ensures r == 0 ==>
                && t in pending && pending[t].Piping?
                && (var Piping(fd0, fd1, f0, f1) := pending[t];
                    && LowestFd(old(filp), t, 0, fd0) && LowestFd(old(filp), t, fd0 + 1, fd1)
                    && LowestFile(old(count[..]), 0, f0) && LowestFile(old(count[..]), f0 + 1, f1)
                    && filp == old(filp)[(t, fd0) := f0][(t, fd1) := f1]
                    && count[..] == old(count[..])[f0 := 1][f1 := 1])
      ensures r == -1 ==> FewerThanTwo(old(filp), t, old(count[..]))
    {
      ghost var before := Value();
      PipeStartSound(before, t);
      assert count.Length == 64;
      hide Sound, FreeFd, FreeFile, PipeStart;
      FreeForTwo(filp, t, count[..]);
      var ok, f0, f1, fd0, fd1 := TakeBoth(t);
      if ok {
        pending := pending[t := Piping(fd0, fd1, f0, f1)];
        PipeGranted(before, t, f0, f1, fd0, fd1);
        assert t in pending && t !in before.pending;
        r := 0;
      } else {
        PipeRefused(before, t);
        r := -1;
      }
    }

    /** Both loops, with their undoing. */
    method TakeBoth(t: nat) returns (ok: bool, f0: nat, f1: nat, fd0: nat, fd1: nat)
      requires count.Length == NR_FILE
      modifies this`filp, count
      ensures var c: seq<nat> := old(count[..]);
              var p: Slots := old(filp);
              if ok then
                && f0 == FreeFile(c, 0) && f1 == FreeFile(c, f0 + 1) && f0 < f1 < NR_FILE && c[f0] == c[f1] == 0
                && fd0 == FreeFd(p, t, 0) && fd1 == FreeFd(p, t, fd0 + 1) && fd0 < fd1 < NR_OPEN
                && count[..] == c[f0 := 1][f1 := 1] && filp == p[(t, fd0) := f0][(t, fd1) := f1]
              else
                && count[..] == c && filp == p
                && (|| FreeFile(c, 0) >= NR_FILE || FreeFile(c, FreeFile(c, 0) + 1) >= NR_FILE
                    || FreeFd(p, t, 0) >= NR_OPEN || FreeFd(p, t, FreeFd(p, t, 0) + 1) >= NR_OPEN)
    {
      hide FreeFd, FreeFile;
      ghost var c := count[..];
      ok, f0, f1 := TakeFilesOrNone();
      fd0, fd1 := 0, 0;
      if ok {
        ok, fd0, fd1 := TakeFdsOrNone(t, f0, f1);
        if !ok {
          GiveBack(c, f0, f1);
        }
      }
    }

    /** `sys_pipe` once `get_pipe_inode` has returned. */
    method PipeEnd(t: nat, gotInode: bool)
      requires Sound(Value()) && t in pending && pending[t].Piping?
      modifies this, count
      ensures Sound(Value())
      ensures Value() == if gotInode then PipeDone(old(Value()), t) else PipeFail(old(Value()), t)
      ensures var call := old(pending)[t];
              filp == (if gotInode then old(filp) else old(filp) - {(t, call.fd0), (t, call.fd1)})
      ensures tasks == old(tasks) && pending == old(pending) - {t}
    {
      PipeFailSound(Value(), t);
      SameSlots(Value(), PipeDone(Value(), t));
      ClaimInRange(Value(), t, (t, pending[t].fd0));
      ClaimInRange(Value(), t, (t, pending[t].fd1));
      var Piping(fd0, fd1, f0, f1) := pending[t];
      hide Sound;
      if !gotInode {
        filp := filp - {(t, fd0)} - {(t, fd1)};
        count[f0] := 0;
        count[f1] := 0;
        assert filp == old(filp) - {(t, fd0), (t, fd1)};
      }
      pending := pending - {t};
    }
  }

  lemma PipeRefused(s: State, t: nat)
    requires |s.count| == NR_FILE
    requires var f0 := FreeFile(s.count, 0);
             var fd0 := FreeFd(s.filp, t, 0);
             f0 >= NR_FILE || fd0 >= NR_OPEN || FreeFile(s.count, f0 + 1) >= NR_FILE
               || FreeFd(s.filp, t, fd0 + 1) >= NR_OPEN
    ensures PipeStart(s, t) == s
  {
  }

  /** There are no two empty slots, or no two unused entries. */
  ghost predicate FewerThanTwo(filp: Slots, t: nat, count: seq<nat>)
    requires |count| == 64
  {
    || (forall i, j | 0 <= i < j < 20 :: (t, i) in filp || (t, j) in filp)
    || (forall i, j | 0 <= i < j < 64 :: count[i] != 0 || count[j] != 0)
  }

  lemma FreeForTwo(filp: Slots, t: nat, count: seq<nat>)
    requires |count| == 64
    ensures var (fd0, f0) := (FreeFd(filp, t, 0), FreeFile(count, 0));
            var (fd1, f1) := (FreeFd(filp, t, fd0 + 1), FreeFile(count, f0 + 1));
            if fd0 < 20 && fd1 < 20 && f0 < 64 && f1 < 64 then
              && LowestFd(filp, t, 0, fd0) && LowestFd(filp, t, fd0 + 1, fd1)
              && LowestFile(count, 0, f0) && LowestFile(count, f0 + 1, f1)
            else FewerThanTwo(filp, t, count)
  {
    FreeFdIs(filp, t, 0);
    FreeFileIs(count, 0);
    FreeFdIs(filp, t, FreeFd(filp, t, 0) + 1);
    FreeFileIs(count, FreeFile(count, 0) + 1);
    hide FreeFd, FreeFile;
  }

  lemma PipeGranted(s: State, t: nat, f0: nat, f1: nat, fd0: nat, fd1: nat)
    requires |s.count| == NR_FILE && f0 == FreeFile(s.count, 0) && f1 == FreeFile(s.count, f0 + 1) && f0 < f1 < NR_FILE
    requires fd0 == FreeFd(s.filp, t, 0) && fd1 == FreeFd(s.filp, t, fd0 + 1) && fd0 < fd1 < NR_OPEN
    requires s.count[f0] == 0 && s.count[f1] == 0
    ensures PipeStart(s, t) == State(s.count[f0 := 1][f1 := 1], s.filp[(t, fd0) := f0][(t, fd1) := f1], s.tasks,
                                     s.pending[t := Piping(fd0, fd1, f0, f1)])
  {
  }

  /** The counting loop of `copy_process`. */
  function Bumped(count: seq<nat>, filp: Slots, child: nat, n: nat): (r: seq<nat>)
    requires |count| == NR_FILE && forall k | k in filp :: filp[k] < NR_FILE
    ensures |r| == NR_FILE
  {
    if n == 0 then count
    else
      var c := Bumped(count, filp, child, n - 1);
      if (child, n - 1) in filp then c[filp[(child, n - 1)] := c[filp[(child, n - 1)]] + 1] else c
  }

  lemma {:induction false} BumpedIsCopied(s: State, filp: Slots, parent: nat, child: nat, n: nat)
    requires InRange(s) && (forall k | k in filp :: filp[k] < NR_FILE) && n <= NR_OPEN
    requires forall fd | 0 <= fd < NR_OPEN :: (child, fd) in filp <==> (parent, fd) in s.filp
    requires forall fd | 0 <= fd < NR_OPEN && (parent, fd) in s.filp :: filp[(child, fd)] == s.filp[(parent, fd)]
    ensures CopyFiles(s, parent, child, n).count == Bumped(s.count, filp, child, n)
    decreases n
  {
    if n > 0 {
      BumpedIsCopied(s, filp, parent, child, n - 1);
    }
  }

  /** The child's slots as the copy of the task structure leaves them. */
  function Duplicate(filp: Slots, parent: nat, child: nat, n: nat): Slots {
    if n == 0 then filp
    else
      var d := Duplicate(filp, parent, child, n - 1);
      if (parent, n - 1) in filp then d[(child, n - 1) := filp[(parent, n - 1)]] else d
  }

  lemma {:induction false} DuplicateIsCopied(s: State, parent: nat, child: nat, n: nat)
    requires InRange(s) && n <= NR_OPEN
    ensures CopyFiles(s, parent, child, n).filp == Duplicate(s.filp, parent, child, n)
    ensures CopyFiles(s, parent, child, n).tasks == s.tasks + {child}
    ensures CopyFiles(s, parent, child, n).pending == s.pending
    decreases n
  {
    if n > 0 {
      DuplicateIsCopied(s, parent, child, n - 1);
    }
  }

  lemma ForkCopies(s: State, parent: nat, child: nat)
    requires Sound(s) && parent !in s.pending && child !in s.tasks && child < NR_TASKS
    ensures var filp := Duplicate(s.filp, parent, child, NR_OPEN);
            && (forall k | k in filp :: filp[k] < NR_FILE)
            && Fork(s, parent, child) == State(Bumped(s.count, filp, child, NR_OPEN), filp, s.tasks + {child},
              s.pending)
  {
    CopyFilesSound(s, parent, child, NR_OPEN);
    DuplicateIsCopied(s, parent, child, NR_OPEN);
    var filp := Duplicate(s.filp, parent, child, NR_OPEN);
    hide Duplicate, CopyFiles, Bumped;
    BumpedIsCopied(s, filp, parent, child, NR_OPEN);
  }
}
