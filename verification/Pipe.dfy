/** fs/pipe.c: the ring of one page, and readers and writers that run on it. One step of a run is
    one turn of a caller's outer loop; since a caller gives up the processor only in `sleep_on`,
    what the kernel can do is among these runs. */
module Pipe {
  import opened Bytes
  import opened Wrappers

  const PAGE: nat := 4096

  function Min(a: nat, b: nat): nat {
    if a < b then a else b
  }

  /** PIPE_SIZE: the difference masked to the page size. */
  function Size(head: nat, tail: nat): (n: nat)
    requires head < PAGE && tail < PAGE
    ensures n == if tail <= head then head - tail else head + PAGE - tail
  {
    (head - tail) % PAGE
  }

  /** Advancing an index by a chunk, masked to the page size. */
  function Next(at: nat, n: nat): (r: nat)
    requires at < PAGE && at + n <= PAGE
    ensures r == if at + n == PAGE then 0 else at + n
  {
    (at + n) % PAGE
  }

  /** The page with its two indices. */
  datatype Ring = Ring(page: seq<Byte>, head: nat, tail: nat)

  predicate Good(r: Ring) {
    |r.page| == PAGE && r.head < PAGE && r.tail < PAGE
  }

  function Used(r: Ring): nat
    requires Good(r)
  {
    Size(r.head, r.tail)
  }

  /** The unread bytes, oldest first. */
  function Unread(r: Ring): (q: seq<Byte>)
    requires Good(r)
    ensures |q| == Used(r)
  {
    if r.tail <= r.head then r.page[r.tail..r.head] else r.page[r.tail..] + r.page[..r.head]
  }

  /** A buffer with bytes written over it. */
  function Over(buf: seq<Byte>, at: nat, bytes: seq<Byte>): (r: seq<Byte>)
    requires at + |bytes| <= |buf|
    ensures |r| == |buf|
  {
    buf[..at] + bytes + buf[at + |bytes|..]
  }

  lemma OverTwice(buf: seq<Byte>, at: nat, a: seq<Byte>, b: seq<Byte>)
    requires at + |a| + |b| <= |buf|
    ensures Over(Over(buf, at, a), at + |a|, b) == Over(buf, at, a + b)
  {
  }

  // Chunks.

  /** How much one turn of `read_pipe` takes when count bytes are still wanted. */
  function ReadSize(r: Ring, count: nat): (n: nat)
    requires Good(r)
    ensures r.tail + n <= PAGE && n <= count && n <= Used(r)
    ensures count > 0 && Used(r) > 0 ==> n > 0
  {
    Min(Min(PAGE - r.tail, count), Used(r))
  }

  /** How much one turn of `write_pipe` puts in when count bytes are left. */
  function WriteSize(r: Ring, count: nat): (n: nat)
    requires Good(r)
    ensures r.head + n <= PAGE && n <= count && n <= PAGE - 1 - Used(r)
    ensures count > 0 && Used(r) < PAGE - 1 ==> n > 0
  {
    Min(Min(PAGE - r.head, count), PAGE - 1 - Used(r))
  }

  function TakeChunk(r: Ring, n: nat): Ring
    requires Good(r) && r.tail + n <= PAGE
  {
    r.(tail := Next(r.tail, n))
  }

  function PutChunk(r: Ring, bytes: seq<Byte>): Ring
    requires Good(r) && r.head + |bytes| <= PAGE
  {
    Ring(Over(r.page, r.head, bytes), Next(r.head, |bytes|), r.tail)
  }

  /** A chunk that fits before the page end and in the unread bytes is their oldest part. */
  lemma ChunkTakes(r: Ring, n: nat)
    requires Good(r) && r.tail + n <= PAGE && n <= Used(r)
    ensures Good(TakeChunk(r, n))
    ensures Unread(r) == r.page[r.tail..r.tail + n] + Unread(TakeChunk(r, n))
  {
    hide Size, Next;
    var (t, end) := (TakeChunk(r, n), r.tail + n);
    if r.tail <= r.head {
      assert Unread(t) == r.page[end..r.head];
    } else {
      assert r.page[r.tail..] == r.page[r.tail..end] + r.page[end..];
      assert Unread(t) == r.page[end..] + r.page[..r.head];
    }
  }

  /** A chunk that fits before the page end and in the free space is appended. */
  lemma ChunkAppends(r: Ring, bytes: seq<Byte>)
    requires Good(r) && r.head + |bytes| <= PAGE && |bytes| <= PAGE - 1 - Used(r)
    ensures Good(PutChunk(r, bytes)) && Unread(PutChunk(r, bytes)) == Unread(r) + bytes
  {
    hide Size, Next;
    var (t, end) := (PutChunk(r, bytes), r.head + |bytes|);
    assert t.page[r.head..end] == bytes;
    if r.tail <= r.head {
      assert r.page[r.tail..r.head] == t.page[r.tail..r.head];
      assert t.page[r.tail..end] == t.page[r.tail..r.head] + bytes;
    } else {
      assert r.page[r.tail..] == t.page[r.tail..];
      assert t.page[..end] == r.page[..r.head] + bytes;
    }
  }

  /** Such a chunk is written to cells from head on, none of them unread. */
  lemma ChunkSparesUnread(r: Ring, bytes: seq<Byte>, i: nat)
    requires Good(r) && r.head + |bytes| <= PAGE && |bytes| <= PAGE - 1 - Used(r)
    requires i < PAGE && PutChunk(r, bytes).page[i] != r.page[i]
    ensures r.head <= i < r.head + |bytes| && Size(i, r.tail) >= Used(r)
  {
    hide Size, Next;
  }

  class PipeInode {
    const page: array<Byte>
    var head: nat
    var tail: nat

    predicate Valid()
      reads this
    {
      page.Length == PAGE && head < PAGE && tail < PAGE
    }

    function State(): (r: Ring)
      reads this, page
      requires Valid()
      ensures Good(r)
    {
      Ring(page[..], head, tail)
    }

    constructor ()
      ensures Valid() && State() == EmptyRing() && fresh(page)
    {
      page := new Byte[PAGE](_ => 0);
      head := 0;
      tail := 0;
      new;
      assert page[..] == EmptyRing().page;
    }

    /** One turn of the outer loop of `read_pipe` with something to read. */
    method ReadChunk(buf: array<Byte>, at: nat, count: nat) returns (chars: nat)
      requires Valid() && count > 0 && Used(State()) > 0 && at + count <= buf.Length && buf != page
      modifies this`tail, buf
      ensures Valid() && chars == ReadSize(old(State()), count) && State() == TakeChunk(old(State()), chars)
      ensures buf[..] == Over(old(buf[..]), at, old(State()).page[old(tail)..old(tail) + chars])
    {
      hide Size, Next;
      chars := PAGE - tail;
      if chars > count {
        chars := count;
      }
      if chars > Size(head, tail) {
        chars := Size(head, tail);
      }
      var from := tail;
      tail := Next(tail, chars);
      CopyOut(buf, at, from, chars);
      assert page[..][from..from + chars] == page[from..from + chars];
    }

    /** The byte loop of `read_pipe`. */
    method CopyOut(buf: array<Byte>, at: nat, from: nat, n: nat)
      requires page.Length == PAGE && buf != page && at + n <= buf.Length && from + n <= PAGE
      modifies buf
      ensures buf[..] == Over(old(buf[..]), at, page[from..from + n])
    {
      ghost var was := buf[..];
      for i := 0 to n
        invariant buf[..] == Over(was, at, page[from..from + i])
      {
        buf[at + i] := page[from + i];
      }
    }

    /** One turn of the outer loop of `write_pipe` with room left. */
    method WriteChunk(buf: seq<Byte>, at: nat, count: nat) returns (chars: nat)
      requires Valid() && count > 0 && Used(State()) < PAGE - 1 && at + count <= |buf|
      modifies this`head, page
      ensures Valid() && chars == WriteSize(old(State()), count)
      ensures State() == PutChunk(old(State()), buf[at..at + chars])
    {
      hide Size, Next;
      chars := PAGE - head;
      if chars > count {
        chars := count;
      }
      if chars > PAGE - 1 - Size(head, tail) {
        chars := PAGE - 1 - Size(head, tail);
      }
      var to := head;
      head := Next(head, chars);
      CopyIn(buf, at, to, chars);
    }

    /** The byte loop of `write_pipe`. */
    method CopyIn(buf: seq<Byte>, at: nat, to: nat, n: nat)
      requires page.Length == PAGE && at + n <= |buf| && to + n <= PAGE
      modifies page
      ensures page[..] == Over(old(page[..]), to, buf[at..at + n])
    {
      ghost var was := page[..];
      for i := 0 to n
        invariant page[..] == Over(was, to, buf[at..at + i])
      {
        page[to + i] := buf[at + i];
      }
    }

    /** What `read_pipe` does up to its next sleep or its return when it still wants count bytes;
        twoEnds is `i_count == 2`. It takes the oldest bytes there are, and sleeps or gives up
        only on an empty ring. In a run, s0, it is a row of turns of its caller. */
    method ReadTurn(buf: array<Byte>, at: nat, count: nat, twoEnds: bool, ghost s0: System, ghost who: nat)
      returns (read: nat, asleep: bool, ghost s: System, ghost n: nat)
      requires Valid() && at + count <= buf.Length && buf != page
      requires Reading(s0, who, count) && s0.ring == State()
      modifies this`tail, buf
      ensures Valid() && read == Min(count, |old(Unread(State()))|)
      ensures Unread(State()) == old(Unread(State()))[read..]
      ensures buf[..] == Over(old(buf[..]), at, old(Unread(State()))[..read])
      ensures asleep == (read < count && twoEnds)
      ensures Turned(s0, who, twoEnds, n, s) && s.ring == State()
      ensures s.processes == ReadOn(s0, who, old(Unread(State()))[..read], !asleep)
    {
      hide Size, Unread, Over, Turned, Good, ReadOn, Reading;
      ghost var (was, queue) := (buf[..], Unread(State()));
      read := 0;
      s, n := s0, 0;
      ReadNothing(was, at, queue, s0, who, count, twoEnds);
      while read < count
        invariant Valid() && read <= count && read <= |queue|
        invariant Unread(State()) == queue[read..] && buf[..] == Over(was, at, queue[..read])
        invariant Turned(s0, who, twoEnds, n, s) && s.ring == State() && Reading(s, who, count - read)
        invariant s.processes == ReadOn(s0, who, queue[..read], false)
      {
        if Size(head, tail) == 0 {
          asleep := twoEnds;
          if !asleep {
            s := ReadReturns(s0, who, twoEnds, queue[..read], count, n, s);
            n := n + 1;
          }
          return;
        }
        ghost var done := read;
        read := ReadMore(buf, at, read, count, was, queue);
        s := ReadOnMore(s0, who, twoEnds, queue, done, count, n, s);
        n := n + 1;
      }
      s := ReadReturns(s0, who, twoEnds, queue[..read], count, n, s);
      n := n + 1;
      asleep := false;
    }

    method ReadMore(buf: array<Byte>, at: nat, done: nat, count: nat, ghost was: seq<Byte>, ghost queue: seq<Byte>)
      returns (read: nat)
      requires Valid() && at + count <= buf.Length == |was| && buf != page
      requires done < count && Used(State()) > 0 && done <= |queue| && Unread(State()) == queue[done..]
      requires buf[..] == Over(was, at, queue[..done])
      modifies this`tail, buf
      ensures Valid() && done < read <= count && read <= |queue| && Unread(State()) == queue[read..]
      ensures buf[..] == Over(was, at, queue[..read])
      ensures read == done + ReadSize(old(State()), count - done) && State() == TakeChunk(old(State()), read - done)
    {
      hide Size, Unread, Over;
      ghost var r := State();
      var chars := ReadChunk(buf, at + done, count - done);
      read := done + chars;
      ChunkTakes(r, chars);
      ghost var chunk := r.page[r.tail..r.tail + chars];
      OverTwice(was, at, queue[..done], chunk);
      assert queue == queue[..done] + chunk + Unread(State());
      assert queue[..done] + chunk == queue[..read];
    }

    /** The same for `write_pipe`. It puts in as much as fits, in order, and sleeps or gives up
        only on a full ring. */
    method WriteTurn(buf: seq<Byte>, at: nat, twoEnds: bool, ghost s0: System, ghost who: nat)
      returns (written: nat, asleep: bool, ghost s: System, ghost n: nat)
      requires Valid() && at <= |buf|
      requires Writing(s0, who, buf, at) && s0.ring == State()
      modifies this`head, page
      ensures Valid() && written == Min(|buf| - at, 4095 - |old(Unread(State()))|)
      ensures Unread(State()) == old(Unread(State())) + buf[at..at + written]
      ensures asleep == (written < |buf| - at && twoEnds)
      ensures Turned(s0, who, twoEnds, n, s) && s.ring == State()
      ensures s.processes == WriteOn(s0, who, buf, at + written, !asleep)
    {
      hide Size, Unread, PutChunk, WriteSize, Turned, Good, WriteOn, Writing;
      written := 0;
      s, n := s0, 0;
      WroteNothing(s0, who, buf, at, twoEnds);
      while at + written < |buf|
        invariant Valid() && at + written <= |buf|
        invariant Unread(State()) == old(Unread(State())) + buf[at..at + written]
        invariant Turned(s0, who, twoEnds, n, s) && s.ring == State() && Writing(s, who, buf, at + written)
        invariant s.processes == WriteOn(s0, who, buf, at + written, false)
      {
        if Size(head, tail) == PAGE - 1 {
          asleep := twoEnds;
          if !asleep {
            s := WriteReturns(s0, who, twoEnds, buf, at + written, n, s);
            n := n + 1;
          }
          return;
        }
        ghost var r := State();
        var chars := WriteChunk(buf, at + written, |buf| - at - written);
        ChunkAppends(r, buf[at + written..at + written + chars]);
        assert buf[at..at + written] + buf[at + written..at + written + chars] == buf[at..at + written + chars];
        s := WriteOnMore(s0, who, twoEnds, buf, at + written, n, s);
        n := n + 1;
        written := written + chars;
      }
      s := WriteReturns(s0, who, twoEnds, buf, at + written, n, s);
      n := n + 1;
      asleep := false;
    }
  }

  function EmptyRing(): (r: Ring)
    ensures Good(r) && Unread(r) == []
  {
    Ring(seq(PAGE, _ => 0), 0, 0)
  }

  // Runs.

  /** A call in progress, with the value it returned once it has. */
  datatype Process =
    | Reader(count: nat, got: seq<Byte>, result: Option<int>)
    | Writer(data: seq<Byte>, written: nat, result: Option<int>)

  datatype Event = Put(who: nat, bytes: seq<Byte>) | Got(who: nat, bytes: seq<Byte>)

  /** Any number of callers on one ring, and everything that went in and out of it. */
  datatype System = System(ring: Ring, processes: map<nat, Process>, log: seq<Event>)

  /** A new call, or one turn of a caller's outer loop. */
  datatype Step = Call(who: nat, process: Process) | Turn(who: nat, twoEnds: bool)

  predicate Enabled(processes: map<nat, Process>, step: Step) {
    match step
    case Call(who, Reader(count, got, result)) => who !in processes && got == [] && result == None
    case Call(who, Writer(data, written, result)) => who !in processes && written == 0 && result == None
    case Turn(who, _) => who in processes && processes[who].result == None
  }

  /** The ring is in shape and no caller has moved more than it asked for. */
  predicate Bounded(s: System) {
    && Good(s.ring)
    && forall who | who in s.processes ::
         match s.processes[who]
         case Reader(count, got, _) => |got| <= count
         case Writer(data, written, _) => written <= |data|
  }

  /** A reader that has all it wants returns; one that finds the ring empty sleeps, or returns
      what it has when there is no writer; any other takes a chunk. */
  function ReaderTurn(s: System, who: nat, twoEnds: bool): System
    requires Bounded(s) && who in s.processes && s.processes[who].Reader?
  {
    var p := s.processes[who];
    if |p.got| == p.count || (Used(s.ring) == 0 && !twoEnds) then
      s.(processes := s.processes[who := Reader(p.count, p.got, Some(|p.got|))])
    else if Used(s.ring) == 0 then s
    else
      var n := ReadSize(s.ring, p.count - |p.got|);
      var bytes := s.ring.page[s.ring.tail..s.ring.tail + n];
      System(TakeChunk(s.ring, n), s.processes[who := Reader(p.count, p.got + bytes, None)], s.log + [Got(who, bytes)])
  }

  function WrittenOrError(written: nat): int {
    if written > 0 then written else -1
  }

  /** A writer that has put in everything returns; one that finds the ring full sleeps, or
      returns what it wrote, -1 for nothing, when there is no reader; any other puts a chunk. */
  function WriterTurn(s: System, who: nat, twoEnds: bool): System
    requires Bounded(s) && who in s.processes && s.processes[who].Writer?
  {
    var p := s.processes[who];
    if p.written == |p.data| then s.(processes := s.processes[who := Writer(p.data, p.written, Some(p.written))])
    else if Used(s.ring) == PAGE - 1 then
      if twoEnds then s
      else s.(processes := s.processes[who := Writer(p.data, p.written, Some(WrittenOrError(p.written)))])
    else
      var end := p.written + WriteSize(s.ring, |p.data| - p.written);
      var bytes := p.data[p.written..end];
      System(PutChunk(s.ring, bytes), s.processes[who := Writer(p.data, end, None)], s.log + [Put(who, bytes)])
  }

  function Do(s: System, step: Step): System
    requires Enabled(s.processes, step) && Bounded(s)
  {
    match step
    case Call(who, process) => s.(processes := s.processes[who := process])
    case Turn(who, twoEnds) =>
      if s.processes[who].Reader? then ReaderTurn(s, who, twoEnds) else WriterTurn(s, who, twoEnds)
  }

  /** All bytes accepted, in the order they went in. */
  function Accepted(log: seq<Event>): seq<Byte> {
    if log == [] then [] else
      Accepted(log[..|log| - 1]) + if log[|log| - 1].Put? then log[|log| - 1].bytes else []
  }

  /** All bytes delivered, in the order they came out. */
  function Delivered(log: seq<Event>): seq<Byte> {
    if log == [] then [] else
      Delivered(log[..|log| - 1]) + if log[|log| - 1].Got? then log[|log| - 1].bytes else []
  }

  /** What one caller put in or got out. */
  function Of(log: seq<Event>, who: nat): seq<Byte> {
    if log == [] then [] else
      Of(log[..|log| - 1], who) + if log[|log| - 1].who == who then log[|log| - 1].bytes else []
  }

  /** What a caller has moved so far, by its own account. */
  function Moved(s: System, who: nat): seq<Byte>
    requires Bounded(s)
  {
    if who !in s.processes then []
    else match s.processes[who]
         case Reader(_, got, _) => got
         case Writer(data, written, _) => data[..written]
  }

  /** First in, first out, and every caller's account agrees with the log. */
  ghost predicate Fifo(s: System) {
    && Bounded(s)
    && Accepted(s.log) == Delivered(s.log) + Unread(s.ring)
    && forall who :: Of(s.log, who) == Moved(s, who)
  }

  lemma Logged(log: seq<Event>, e: Event)
    ensures Accepted(log + [e]) == Accepted(log) + if e.Put? then e.bytes else []
    ensures Delivered(log + [e]) == Delivered(log) + if e.Got? then e.bytes else []
    ensures forall who :: Of(log + [e], who) == Of(log, who) + if e.who == who then e.bytes else []
  {
    assert (log + [e])[..|log|] == log;
  }

  /** A caller moves a chunk: the ring and its own account change accordingly. */
  lemma ChunkFifo(s: System, t: System, e: Event, p: Process)
    requires Fifo(s) && Bounded(t) && e.who in s.processes
    requires t.log == s.log + [e] && t.processes == s.processes[e.who := p]
    requires if e.Put? then Unread(t.ring) == Unread(s.ring) + e.bytes else Unread(s.ring) == e.bytes + Unread(t.ring)
    requires Moved(t, e.who) == Moved(s, e.who) + e.bytes
    ensures Fifo(t)
  {
    Logged(s.log, e);
    hide Accepted, Delivered, Of, Unread;
    forall w
      ensures Of(t.log, w) == Moved(t, w)
    {
      assert Of(s.log, w) == Moved(s, w);
    }
  }

  /** A caller that moves nothing leaves everything as it was. */
  lemma ResultFifo(s: System, t: System, who: nat, p: Process)
    requires Fifo(s) && Bounded(t) && t.ring == s.ring && t.log == s.log && t.processes == s.processes[who := p]
    requires Moved(t, who) == Moved(s, who)
    ensures Fifo(t)
  {
    hide Accepted, Delivered, Of, Unread;
    forall w
      ensures Of(t.log, w) == Moved(t, w)
    {
      assert Of(s.log, w) == Moved(s, w);
    }
  }

  lemma ReaderTurnFifo(s: System, who: nat, twoEnds: bool)
    requires Fifo(s) && who in s.processes && s.processes[who].Reader?
    ensures Fifo(ReaderTurn(s, who, twoEnds))
  {
    hide Accepted, Delivered, Of, Unread, ReadSize, TakeChunk;
    var (p, t) := (s.processes[who], ReaderTurn(s, who, twoEnds));
    if t.log == s.log {
      ResultFifo(s, t, who, t.processes[who]);
    } else {
      var n := ReadSize(s.ring, p.count - |p.got|);
      ChunkTakes(s.ring, n);
      ChunkFifo(s, t, Got(who, s.ring.page[s.ring.tail..s.ring.tail + n]), t.processes[who]);
    }
  }

  lemma WriterTurnFifo(s: System, who: nat, twoEnds: bool)
    requires Fifo(s) && who in s.processes && s.processes[who].Writer?
    ensures Fifo(WriterTurn(s, who, twoEnds))
  {
    hide Accepted, Delivered, Of, Unread, WriteSize, PutChunk;
    var (p, t) := (s.processes[who], WriterTurn(s, who, twoEnds));
    if t.log == s.log {
      ResultFifo(s, t, who, t.processes[who]);
    } else {
      var end := p.written + WriteSize(s.ring, |p.data| - p.written);
      ChunkAppends(s.ring, p.data[p.written..end]);
      assert p.data[..end] == p.data[..p.written] + p.data[p.written..end];
      ChunkFifo(s, t, Put(who, p.data[p.written..end]), t.processes[who]);
    }
  }

  lemma StepFifo(s: System, step: Step)
    requires Fifo(s) && Enabled(s.processes, step)
    ensures Fifo(Do(s, step))
  {
    hide ReaderTurn, WriterTurn;
    match step
    case Call(who, process) => ResultFifo(s, Do(s, step), who, process);
    case Turn(who, twoEnds) =>
      if s.processes[who].Reader? {
        ReaderTurnFifo(s, who, twoEnds);
      } else {
        WriterTurnFifo(s, who, twoEnds);
      }
  }

  function Start(): System {
    System(EmptyRing(), map[], [])
  }

  /** A run: every step of the list was enabled when it was taken. */
  ghost predicate Reaches(steps: seq<Step>, s: System)
    decreases |steps|
  {
    if steps == [] then s == Start()
    else
      var last := steps[|steps| - 1];
      exists before: System :: Reaches(steps[..|steps| - 1], before) && Follows(before, last, s)
  }

  ghost predicate Follows(s: System, step: Step, t: System) {
    Bounded(s) && Enabled(s.processes, step) && t == Do(s, step)
  }

  /** Whatever the interleaving of however many readers and writers, the bytes delivered
      followed by those unread in the page are the bytes accepted, and each caller's bytes keep
      their order. */
  lemma {:induction false} EveryRunIsFifo(steps: seq<Step>, s: System)
    requires Reaches(steps, s)
    ensures Fifo(s)
    decreases |steps|
  {
    if steps != [] {
      var last := |steps| - 1;
      var before: System :| Reaches(steps[..last], before) && Follows(before, steps[last], s);
      EveryRunIsFifo(steps[..last], before);
      StepFifo(before, steps[last]);
    }
  }

  /** From s to t at most one chunk was moved: it lies within the page, a chunk put in touches
      no unread cell, and a chunk taken out changes no cell. */
  ghost predicate ChunkInPage(s: System, t: System)
    requires Good(s.ring)
  {
    || (t.ring == s.ring && t.log == s.log)
    || (&& |t.log| == |s.log| + 1 && t.log[..|s.log|] == s.log && Good(t.ring)
        && var bytes := t.log[|s.log|].bytes;
           if t.log[|s.log|].Put? then
             && s.ring.head + |bytes| <= PAGE && |bytes| <= PAGE - 1 - Used(s.ring)
             && t.ring == PutChunk(s.ring, bytes)
             && forall i | 0 <= i < PAGE && t.ring.page[i] != s.ring.page[i] :: Size(i, s.ring.tail) >= Used(s.ring)
           else
             && s.ring.tail + |bytes| <= PAGE && |bytes| <= Used(s.ring)
             && t.ring == TakeChunk(s.ring, |bytes|) && bytes == s.ring.page[s.ring.tail..s.ring.tail + |bytes|])
  }

  /** In every reachable state, whatever step comes next. */
  lemma EveryChunkInPage(steps: seq<Step>, s: System, step: Step)
    requires Reaches(steps, s) && Enabled(s.processes, step)
    ensures Fifo(s) && ChunkInPage(s, Do(s, step))
  {
    EveryRunIsFifo(steps, s);
    StepInPage(s, step);
  }

  lemma StepInPage(s: System, step: Step)
    requires Bounded(s) && Enabled(s.processes, step)
    ensures ChunkInPage(s, Do(s, step))
  {
    var t := Do(s, step);
    if t.log != s.log && s.processes[step.who].Writer? {
      var bytes := t.log[|s.log|].bytes;
      forall i | 0 <= i < PAGE && t.ring.page[i] != s.ring.page[i]
        ensures Size(i, s.ring.tail) >= Used(s.ring)
      {
        ChunkSparesUnread(s.ring, bytes, i);
      }
    }
  }

  /** A caller returns short only when the other end is gone: a reader then leaves the ring
      empty, a writer leaves it full. */
  lemma ShortReturn(s: System, who: nat, twoEnds: bool)
    requires Bounded(s) && Enabled(s.processes, Turn(who, twoEnds))
    ensures match Do(s, Turn(who, twoEnds)).processes[who]
            case Reader(count, got, Some(v)) => v == |got| && (v == count || (!twoEnds && Unread(s.ring) == []))
            case Writer(data, written, Some(v)) =>
              || v == |data| == written
              || (!twoEnds && |Unread(s.ring)| == 4095 && v == if written == 0 then -1 else written)
            case _ => true
  {
  }

  // A caller up to its next sleep is a row of its turns.

  /** n turns of one caller lead from s to t. */
  ghost predicate Turned(s: System, who: nat, twoEnds: bool, n: nat, t: System)
    decreases n
  {
    if n == 0 then t == s
    else exists before: System :: Turned(s, who, twoEnds, n - 1, before) && Follows(before, Turn(who, twoEnds), t)
  }

  /** After a run they are a run. */
  lemma {:induction false} TurnedReaches(steps: seq<Step>, s: System, who: nat, twoEnds: bool, n: nat, t: System)
    returns (more: seq<Step>)
    requires Reaches(steps, s) && Turned(s, who, twoEnds, n, t)
    ensures |more| == |steps| + n && more[..|steps|] == steps && Reaches(more, t)
    ensures forall i | |steps| <= i < |more| :: more[i] == Turn(who, twoEnds)
    decreases n
  {
    hide Reaches, Follows;
    if n == 0 {
      more := steps;
    } else {
      var before: System :| Turned(s, who, twoEnds, n - 1, before) && Follows(before, Turn(who, twoEnds), t);
      var fewer := TurnedReaches(steps, s, who, twoEnds, n - 1, before);
      more := fewer + [Turn(who, twoEnds)];
      assert more[..|fewer|] == fewer && more[..|fewer| + 1] == more && more[..|steps|] == fewer[..|steps|];
      Longer(more, |fewer|, before, t);
    }
  }

  /** who is reading and wants count bytes more. */
  ghost predicate Reading(s: System, who: nat, count: nat) {
    && Bounded(s) && who in s.processes && s.processes[who].Reader?
    && s.processes[who].result == None && s.processes[who].count == |s.processes[who].got| + count
  }

  /** The callers after who has read bytes more. */
  ghost function ReadOn(s: System, who: nat, bytes: seq<Byte>, returned: bool): map<nat, Process>
    requires who in s.processes && s.processes[who].Reader?
  {
    var (p, got) := (s.processes[who], s.processes[who].got + bytes);
    s.processes[who := Reader(p.count, got, if returned then Some(|got|) else None)]
  }

  lemma ReadNothing(was: seq<Byte>, at: nat, queue: seq<Byte>, s: System, who: nat, count: nat, twoEnds: bool)
    requires at <= |was| && Reading(s, who, count)
    ensures was == Over(was, at, queue[..0]) && Turned(s, who, twoEnds, 0, s)
    ensures who in s.processes && s.processes[who].Reader? && s.processes == ReadOn(s, who, queue[..0], false)
  {
    assert s.processes[who].got + [] == s.processes[who].got;
  }

  lemma OneTurnMore(s0: System, who: nat, twoEnds: bool, n: nat, s: System, t: System)
    requires Turned(s0, who, twoEnds, n, s) && Follows(s, Turn(who, twoEnds), t)
    ensures Turned(s0, who, twoEnds, n + 1, t)
  {
    hide Follows;
    assert Turned(s0, who, twoEnds, n + 1 - 1, s) && Follows(s, Turn(who, twoEnds), t);
  }

  lemma ReadOnMore(s0: System, who: nat, twoEnds: bool, queue: seq<Byte>, done: nat, count: nat, n: nat, s: System)
    returns (t: System)
    requires Turned(s0, who, twoEnds, n, s) && done < count && done <= |queue| && Reading(s, who, count - done)
    requires Used(s.ring) > 0 && Unread(s.ring) == queue[done..]
    requires who in s0.processes && s0.processes[who].Reader? && s.processes == ReadOn(s0, who, queue[..done], false)
    ensures var size := ReadSize(s.ring, count - done);
            && done + size <= |queue| && Turned(s0, who, twoEnds, n + 1, t) && t.ring == TakeChunk(s.ring, size)
            && Reading(t, who, count - done - size) && t.processes == ReadOn(s0, who, queue[..done + size], false)
  {
    hide Unread, Size, Next, ReadSize, Turned, TakeChunk;
    var size := ReadSize(s.ring, count - done);
    t := ReaderTurn(s, who, twoEnds);
    OneTurnMore(s0, who, twoEnds, n, s, t);
    ChunkTakes(s.ring, size);
    Appended(s.ring.page[s.ring.tail..s.ring.tail + size], Unread(t.ring), queue, done, s0.processes[who].got);
  }

  lemma Appended(chunk: seq<Byte>, rest: seq<Byte>, queue: seq<Byte>, done: nat, got: seq<Byte>)
    requires done <= |queue| && queue[done..] == chunk + rest
    ensures done + |chunk| <= |queue| && got + queue[..done] + chunk == got + queue[..done + |chunk|]
  {
    assert queue == queue[..done] + chunk + rest;
  }

  lemma ReadReturns(s0: System, who: nat, twoEnds: bool, bytes: seq<Byte>, count: nat, n: nat, s: System)
    returns (t: System)
    requires Turned(s0, who, twoEnds, n, s) && |bytes| <= count && Reading(s, who, count - |bytes|)
    requires |bytes| == count || (Used(s.ring) == 0 && !twoEnds)
    requires who in s0.processes && s0.processes[who].Reader? && s.processes == ReadOn(s0, who, bytes, false)
    ensures Turned(s0, who, twoEnds, n + 1, t) && t.ring == s.ring && t.processes == ReadOn(s0, who, bytes, true)
  {
    hide Turned, Size;
    t := ReaderTurn(s, who, twoEnds);
    OneTurnMore(s0, who, twoEnds, n, s, t);
  }

  /** who is writing data and has written that many bytes. */
  ghost predicate Writing(s: System, who: nat, data: seq<Byte>, written: nat) {
    Bounded(s) && who in s.processes && s.processes[who] == Writer(data, written, None)
  }

  /** The callers after who has written data up to written. */
  ghost function WriteOn(s: System, who: nat, data: seq<Byte>, written: nat, returned: bool): map<nat, Process> {
    var result := if written == |data| then written else WrittenOrError(written);
    s.processes[who := Writer(data, written, if returned then Some(result) else None)]
  }

  lemma WroteNothing(s: System, who: nat, data: seq<Byte>, at: nat, twoEnds: bool)
    requires Writing(s, who, data, at)
    ensures Turned(s, who, twoEnds, 0, s) && s.processes == WriteOn(s, who, data, at, false)
  {
  }

  lemma WriteOnMore(s0: System, who: nat, twoEnds: bool, data: seq<Byte>, at: nat, n: nat, s: System)
    returns (t: System)
    requires Turned(s0, who, twoEnds, n, s) && Writing(s, who, data, at) && at < |data| && Used(s.ring) < PAGE - 1
    requires s.processes == WriteOn(s0, who, data, at, false)
    ensures var size := WriteSize(s.ring, |data| - at);
            && Turned(s0, who, twoEnds, n + 1, t) && t.ring == PutChunk(s.ring, data[at..at + size])
            && Writing(t, who, data, at + size) && t.processes == WriteOn(s0, who, data, at + size, false)
  {
    hide Size, Next, WriteSize, Turned, PutChunk;
    t := WriterTurn(s, who, twoEnds);
    OneTurnMore(s0, who, twoEnds, n, s, t);
    PutKeepsGood(s.ring, data[at..at + WriteSize(s.ring, |data| - at)]);
  }

  lemma PutKeepsGood(r: Ring, bytes: seq<Byte>)
    requires Good(r) && r.head + |bytes| <= PAGE
    ensures Good(PutChunk(r, bytes))
  {
  }

  lemma WriteReturns(s0: System, who: nat, twoEnds: bool, data: seq<Byte>, at: nat, n: nat, s: System)
    returns (t: System)
    requires Turned(s0, who, twoEnds, n, s) && Writing(s, who, data, at)
    requires at == |data| || (Used(s.ring) == PAGE - 1 && !twoEnds)
    requires s.processes == WriteOn(s0, who, data, at, false)
    ensures Turned(s0, who, twoEnds, n + 1, t) && t.ring == s.ring && t.processes == WriteOn(s0, who, data, at, true)
  {
    hide Turned, Size;
    t := WriterTurn(s, who, twoEnds);
    OneTurnMore(s0, who, twoEnds, n, s, t);
  }

  /** The callers on a real page: every step does on the inode what the run does on the ring. */
  class Callers {
    const inode: PipeInode
    var processes: map<nat, Process>
    ghost var log: seq<Event>

    ghost predicate Valid()
      reads this, inode
    {
      inode.Valid()
    }

    ghost function Value(): System
      reads this, inode, inode.page
      requires Valid()
    {
      System(inode.State(), processes, log)
    }

    constructor ()
      ensures Valid() && Value() == Start() && fresh(inode) && fresh(inode.page)
    {
      inode := new PipeInode();
      processes := map[];
      log := [];
    }

    method Advance(step: Step)
      requires Valid() && Bounded(Value()) && Enabled(processes, step)
      modifies this, inode, inode.page
      ensures Valid() && Value() == Do(old(Value()), step)
    {
      match step
      case Call(who, process) => processes := processes[who := process];
      case Turn(who, twoEnds) =>
        if processes[who].Reader? {
          ReaderAdvance(who, twoEnds);
        } else {
          WriterAdvance(who, twoEnds);
        }
    }

    method ReaderAdvance(who: nat, twoEnds: bool)
      requires Valid() && Bounded(Value()) && who in processes && processes[who].Reader?
      modifies this, inode, inode.page
      ensures Valid() && Value() == ReaderTurn(old(Value()), who, twoEnds)
    {
      hide Size, Next, ReadSize, TakeChunk;
      var p := processes[who];
      if |p.got| == p.count {
        processes := processes[who := Reader(p.count, p.got, Some(|p.got|))];
        return;
      }
      if Size(inode.head, inode.tail) == 0 {
        if !twoEnds {
          processes := processes[who := Reader(p.count, p.got, Some(|p.got|))];
        }
        return;
      }
      var buf := new Byte[p.count - |p.got|](_ => 0);
      ghost var ring := inode.State();
      var n := inode.ReadChunk(buf, 0, p.count - |p.got|);
      assert buf[..n] == buf[..][..n] == ring.page[ring.tail..ring.tail + n];
      processes := processes[who := Reader(p.count, p.got + buf[..n], None)];
      log := log + [Got(who, buf[..n])];
    }

    method WriterAdvance(who: nat, twoEnds: bool)
      requires Valid() && Bounded(Value()) && who in processes && processes[who].Writer?
      modifies this, inode, inode.page
      ensures Valid() && Value() == WriterTurn(old(Value()), who, twoEnds)
    {
      hide Size, Next, WriteSize, PutChunk;
      var p := processes[who];
      if p.written == |p.data| {
        processes := processes[who := Writer(p.data, p.written, Some(p.written))];
        return;
      }
      if PAGE - 1 - Size(inode.head, inode.tail) == 0 {
        if !twoEnds {
          processes := processes[who := Writer(p.data, p.written, Some(WrittenOrError(p.written)))];
        }
        return;
      }
      var n := inode.WriteChunk(p.data, p.written, |p.data| - p.written);
      processes := processes[who := Writer(p.data, p.written + n, None)];
      log := log + [Put(who, p.data[p.written..p.written + n])];
    }
  }

  /** Steps taken on a real page, as far as they are enabled, are a run, so they are first in,
      first out. */
  method Play(steps: seq<Step>) returns (callers: Callers, done: nat)
    ensures callers.Valid() && done <= |steps|
    ensures Reaches(steps[..done], callers.Value()) && Fifo(callers.Value())
    ensures done < |steps| ==> !Enabled(callers.processes, steps[done])
  {
    hide Do, Fifo;
    callers := new Callers();
    done := 0;
    EveryRunIsFifo([], Start());
    assert steps[..0] == [];
    while done < |steps| && Enabled(callers.processes, steps[done])
      invariant callers.Valid() && fresh(callers) && fresh(callers.inode) && fresh(callers.inode.page)
      invariant done <= |steps| && Reaches(steps[..done], callers.Value()) && Fifo(callers.Value())
    {
      ghost var before := callers.Value();
      FifoBounded(before);
      callers.Advance(steps[done]);
      Longer(steps, done, before, callers.Value());
      EveryRunIsFifo(steps[..done + 1], callers.Value());
      done := done + 1;
    }
  }

  lemma FifoBounded(s: System)
    requires Fifo(s)
    ensures Bounded(s)
  {
  }

  lemma Longer(steps: seq<Step>, n: nat, before: System, after: System)
    requires n < |steps| && Reaches(steps[..n], before) && Follows(before, steps[n], after)
    ensures Reaches(steps[..n + 1], after)
  {
    var longer := steps[..n + 1];
    assert longer[..|longer| - 1] == steps[..n] && longer[|longer| - 1] == steps[n];
    assert Reaches(longer[..|longer| - 1], before) && Follows(before, longer[|longer| - 1], after);
  }
}
