/** SLIP framing in tools/kflash.py: `MAIXLoader.write` and `slip_reader`, the PROTOCOL
    section of RFC 1055. */
module Slip {
  import opened Bytes
  import opened Wrappers

  const END: Byte := 0xC0
  const ESC: Byte := 0xDB
  const ESC_END: Byte := 0xDC
  const ESC_ESC: Byte := 0xDD

  datatype Error = Timeout | BadHead | BadEscape

  /** `bytes.replace` of one byte by two. */
  function Replace(s: seq<Byte>, b: Byte, with: seq<Byte>): seq<Byte> {
    if s == [] then [] else (if s[0] == b then with else [s[0]]) + Replace(s[1..], b, with)
  }

  /** The two replacements of `write`, in the source's order. */
  function Body(packet: seq<Byte>): seq<Byte> {
    Replace(Replace(packet, ESC, [ESC, ESC_ESC]), END, [ESC, ESC_END])
  }

  function Frame(packet: seq<Byte>): seq<Byte> {
    [END] + Body(packet) + [END]
  }

  /** What RFC 1055 says to send for one byte. */
  function Escaped(b: Byte): seq<Byte> {
    if b == END then [ESC, ESC_END] else if b == ESC then [ESC, ESC_ESC] else [b]
  }

  lemma {:induction false} ReplaceAppend(s: seq<Byte>, t: seq<Byte>, b: Byte, with: seq<Byte>)
    ensures Replace(s + t, b, with) == Replace(s, b, with) + Replace(t, b, with)
  {
    if s == [] {
      assert s + t == t;
    } else {
      assert (s + t)[1..] == s[1..] + t;
      ReplaceAppend(s[1..], t, b, with);
    }
  }

  /** The two whole-packet replacements escape byte by byte. */
  lemma BodyByByte(packet: seq<Byte>)
    requires packet != []
    ensures Body(packet) == Escaped(packet[0]) + Body(packet[1..])
  {
    var head := if packet[0] == ESC then [ESC, ESC_ESC] else [packet[0]];
    ReplaceAppend(head, Replace(packet[1..], ESC, [ESC, ESC_ESC]), END, [ESC, ESC_END]);
    assert Replace([packet[0]], END, [ESC, ESC_END]) == if packet[0] == END then [ESC, ESC_END] else [packet[0]];
    assert Replace([ESC, ESC_ESC], END, [ESC, ESC_END]) == [ESC, ESC_ESC] by {
      assert [ESC, ESC_ESC][1..] == [ESC_ESC];
      assert Replace([ESC_ESC], END, [ESC, ESC_END]) == [ESC_ESC];
    }
  }

  /** No frame body contains the frame delimiter. */
  lemma {:induction false} BodyHasNoEnd(packet: seq<Byte>)
    ensures END !in Body(packet)
  {
    if packet != [] {
      BodyByByte(packet);
      BodyHasNoEnd(packet[1..]);
    }
  }

  /** The local variables of the reader between bytes. */
  datatype Reader = Reader(partial: Option<seq<Byte>>, inEscape: bool)

  const IDLE := Reader(None, false)

  datatype Result = Read(reader: Reader, packets: seq<seq<Byte>>) | Failed(error: Error, packets: seq<seq<Byte>>)

  /** The loop body of `slip_reader`. */
  function Step(r: Reader, b: Byte): Result {
    if r.partial == None then
      if b == END then Read(r.(partial := Some([])), []) else Failed(BadHead, [])
    else if r.inEscape then
      if b == ESC_END then Read(Reader(Some(r.partial.value + [END]), false), [])
      else if b == ESC_ESC then Read(Reader(Some(r.partial.value + [ESC]), false), [])
      else Failed(BadEscape, [])
    else if b == ESC then Read(r.(inEscape := true), [])
    else if b == END then Read(r.(partial := None), [r.partial.value])
    else Read(r.(partial := Some(r.partial.value + [b])), [])
  }

  /** Feeding a string of bytes; stops at the first error. */
  function Feed(r: Reader, bytes: seq<Byte>): Result
    decreases |bytes|
  {
    if bytes == [] then Read(r, [])
    else match Step(r, bytes[0])
      case Failed(e, ps) => Failed(e, ps)
      case Read(r', ps) => Then(ps, Feed(r', bytes[1..]))
  }

  /** A result after the packets `ps`. */
  function Then(ps: seq<seq<Byte>>, rest: Result): Result {
    rest.(packets := ps + rest.packets)
  }

  /** Feeding one read after another; an empty read is a timeout. */
  function FeedAll(r: Reader, chunks: seq<seq<Byte>>): Result
    decreases |chunks|
  {
    if chunks == [] then Read(r, [])
    else if chunks[0] == [] then Failed(Timeout, [])
    else match Feed(r, chunks[0])
      case Failed(e, ps) => Failed(e, ps)
      case Read(r', ps) => Then(ps, FeedAll(r', chunks[1..]))
  }

  lemma ThenThen(ps: seq<seq<Byte>>, qs: seq<seq<Byte>>, rest: Result)
    ensures Then(ps, Then(qs, rest)) == Then(ps + qs, rest) && Then([], rest) == rest
  {
  }

  /** Feeding in two parts is the same as feeding at once. */
  lemma {:induction false} FeedInParts(r: Reader, a: seq<Byte>, b: seq<Byte>)
    ensures Feed(r, a + b) ==
            match Feed(r, a)
            case Failed(e, ps) => Failed(e, ps)
            case Read(r', ps) => Then(ps, Feed(r', b))
    decreases |a|
  {
    if a == [] {
      assert a + b == b;
      ThenThen([], [], Feed(r, b));
    } else {
      assert (a + b)[1..] == a[1..] + b;
      match Step(r, a[0])
      case Failed(_, _) =>
      case Read(r', ps) =>
        FeedInParts(r', a[1..], b);
        match Feed(r', a[1..])
        case Failed(_, _) =>
        case Read(r2, qs) => ThenThen(ps, qs, Feed(r2, b));
    }
  }

  function Concat(parts: seq<seq<Byte>>): seq<Byte> {
    if parts == [] then [] else parts[0] + Concat(parts[1..])
  }

  function Frames(packets: seq<seq<Byte>>): seq<Byte> {
    if packets == [] then [] else Frame(packets[0]) + Frames(packets[1..])
  }

  /** However the bytes are split into non-empty reads, the reader does the same. */
  lemma {:induction false} ChunkingDoesNotMatter(r: Reader, chunks: seq<seq<Byte>>)
    requires forall i :: 0 <= i < |chunks| ==> chunks[i] != []
    ensures FeedAll(r, chunks) == Feed(r, Concat(chunks))
    decreases |chunks|
  {
    if chunks != [] {
      FeedInParts(r, chunks[0], Concat(chunks[1..]));
      match Feed(r, chunks[0])
      case Failed(_, _) =>
      case Read(r', _) => ChunkingDoesNotMatter(r', chunks[1..]);
    }
  }

  /** Inside a frame, the body of a packet is decoded onto what was read before. */
  lemma {:induction false} BodyDecodes(before: seq<Byte>, packet: seq<Byte>)
    ensures Feed(Reader(Some(before), false), Body(packet)) == Read(Reader(Some(before + packet), false), [])
    decreases |packet|
  {
    hide Feed, Body, Escaped;
    var r := Reader(Some(before), false);
    if packet == [] {
      assert before + packet == before;
      BodyOfNothing();
      FedNothing(r);
    } else {
      BodyByByte(packet);
      EscapedDecodes(before, packet[0]);
      FeedInParts(r, Escaped(packet[0]), Body(packet[1..]));
      BodyDecodes(before + [packet[0]], packet[1..]);
      assert before + [packet[0]] + packet[1..] == before + packet;
    }
  }

  lemma FedNothing(r: Reader)
    ensures Feed(r, []) == Read(r, [])
  {
  }

  lemma EscapedDecodes(before: seq<Byte>, b: Byte)
    ensures Feed(Reader(Some(before), false), Escaped(b)) == Read(Reader(Some(before + [b]), false), [])
  {
    var e := Escaped(b);
    var r := Reader(Some(before), false);
    if |e| == 2 {
      assert e[1..] == [e[1]];
      assert Feed(Reader(Some(before), true), [e[1]]) == Read(Reader(Some(before + [b]), false), []);
    }
  }

  lemma FrameDecodes(packet: seq<Byte>)
    ensures Feed(IDLE, Frame(packet)) == Read(IDLE, [packet])
  {
    assert Frame(packet) == [END] + (Body(packet) + [END]);
    FeedInParts(IDLE, [END], Body(packet) + [END]);
    BodyDecodes([], packet);
    assert [] + packet == packet;
    FeedInParts(Reader(Some([]), false), Body(packet), [END]);
    assert Feed(Reader(Some(packet), false), [END]) == Read(IDLE, [packet]);
  }

  lemma {:induction false} FramesDecode(packets: seq<seq<Byte>>)
    ensures Feed(IDLE, Frames(packets)) == Read(IDLE, packets)
  {
    if packets != [] {
      FeedInParts(IDLE, Frame(packets[0]), Frames(packets[1..]));
      FrameDecodes(packets[0]);
      FramesDecode(packets[1..]);
      assert [packets[0]] + packets[1..] == packets;
    }
  }

  /** Round trip: any packet list, delivered in any non-empty reads, is read back exactly. */
  lemma RoundTrip(packets: seq<seq<Byte>>, chunks: seq<seq<Byte>>)
    requires Concat(chunks) == Frames(packets) && forall i :: 0 <= i < |chunks| ==> chunks[i] != []
    ensures FeedAll(IDLE, chunks) == Read(IDLE, packets)
  {
    ChunkingDoesNotMatter(IDLE, chunks);
    FramesDecode(packets);
  }

  // What can be read, and where reading fails.

  /** The bytes of RFC 1055. */
  lemma FrameInBytes()
    ensures Frame([0x41, 0xC0, 0xDB, 0xDC, 0xDD]) == [0xC0, 0x41, 0xDB, 0xDC, 0xDB, 0xDD, 0xDC, 0xDD, 0xC0]
  {
    BodyByByte([0x41, 0xC0, 0xDB, 0xDC, 0xDD]);
    BodyByByte([0xC0, 0xDB, 0xDC, 0xDD]);
    BodyByByte([0xDB, 0xDC, 0xDD]);
    BodyByByte([0xDC, 0xDD]);
    BodyByByte([0xDD]);
    hide Replace;
    BodyOfNothing();
    assert [0x41, 0xC0, 0xDB, 0xDC, 0xDD][1..] == [0xC0, 0xDB, 0xDC, 0xDD];
    assert [0xC0, 0xDB, 0xDC, 0xDD][1..] == [0xDB, 0xDC, 0xDD];
    assert [0xDB, 0xDC, 0xDD][1..] == [0xDC, 0xDD];
    assert [0xDC, 0xDD][1..] == [0xDD];
    assert [0xDD][1..] == [];
  }

  lemma BodyOfNothing()
    ensures Body([]) == []
  {
  }

  /** The beginning of a frame that has been read so far. */
  function Begun(r: Reader): seq<Byte> {
    if r.partial == None then [] else [0xC0] + Body(r.partial.value) + if r.inEscape then [0xDB] else []
  }

  /** Whole frames and the beginning of another. */
  function Wire(packets: seq<seq<Byte>>, r: Reader): seq<Byte> {
    Frames(packets) + Begun(r)
  }

  lemma {:induction false} BodyAppend(packet: seq<Byte>, b: Byte)
    ensures Body(packet + [b]) == Body(packet) + Escaped(b)
    decreases |packet|
  {
    hide Body;
    if packet == [] {
      BodyByByte([b]);
      BodyOfNothing();
      assert packet + [b] == [b] && [b][1..] == [];
    } else {
      BodyByByte(packet);
      BodyByByte(packet + [b]);
      assert (packet + [b])[1..] == packet[1..] + [b];
      BodyAppend(packet[1..], b);
    }
  }

  lemma {:induction false} FramesAppend(packets: seq<seq<Byte>>, packet: seq<Byte>)
    ensures Frames(packets + [packet]) == Frames(packets) + Frame(packet)
    decreases |packets|
  {
    hide Frame;
    if packets == [] {
      assert packets + [packet] == [packet];
    } else {
      assert (packets + [packet])[1..] == packets[1..] + [packet];
      FramesAppend(packets[1..], packet);
    }
  }

  /** A byte that is read makes the bytes so far those of the next state. */
  lemma StepIsWire(packets: seq<seq<Byte>>, r: Reader, b: Byte)
    requires Step(r, b).Read? && (r.partial == None ==> !r.inEscape)
    ensures var Read(next, ps) := Step(r, b);
            Wire(packets, r) + [b] == Wire(packets + ps, next) && (next.partial == None ==> !next.inEscape)
  {
    hide Body, Frames;
    BodyOfNothing();
    var Read(next, ps) := Step(r, b);
    if ps != [] {
      FramesAppend(packets, r.partial.value);
    } else {
      assert packets + ps == packets;
      if r.partial != None && next.partial != r.partial {
        var c := next.partial.value[|r.partial.value|];
        BodyAppend(r.partial.value, c);
      }
    }
  }

  /** The reader has read these packets and is here if and only if the bytes were just those. */
  lemma ReadIsWire(bytes: seq<Byte>, packets: seq<seq<Byte>>, r: Reader)
    ensures Feed(IDLE, bytes) == Read(r, packets) <==>
            bytes == Wire(packets, r) && (r.partial == None ==> !r.inEscape)
  {
    if Feed(IDLE, bytes) == Read(r, packets) {
      FedIsWire(bytes);
    }
    if bytes == Wire(packets, r) && (r.partial == None ==> !r.inEscape) {
      WireIsFed(packets, r);
    }
  }

  lemma {:induction false} FedIsWire(bytes: seq<Byte>)
    requires Feed(IDLE, bytes).Read?
    ensures var Read(r, packets) := Feed(IDLE, bytes);
            bytes == Wire(packets, r) && (r.partial == None ==> !r.inEscape)
    decreases |bytes|
  {
    hide Step, Begun, Frames;
    if bytes == [] {
      EmptyWire();
    } else {
      var (front, b) := (bytes[..|bytes| - 1], bytes[|bytes| - 1]);
      assert bytes == front + [b];
      FeedInParts(IDLE, front, [b]);
      FedIsWire(front);
      var Read(r, packets) := Feed(IDLE, front);
      FeedByte(r, b);
      StepIsWire(packets, r, b);
    }
  }

  lemma EmptyWire()
    ensures Wire([], IDLE) == []
  {
  }

  lemma FeedByte(r: Reader, b: Byte)
    ensures Feed(r, [b]) == Step(r, b)
  {
    hide Step;
    assert [b][1..] == [];
    if Step(r, b).Read? {
      assert Step(r, b).packets + [] == Step(r, b).packets;
    }
  }

  lemma WireIsFed(packets: seq<seq<Byte>>, r: Reader)
    requires r.partial == None ==> !r.inEscape
    ensures Feed(IDLE, Wire(packets, r)) == Read(r, packets)
  {
    hide Body, Frames;
    FeedInParts(IDLE, Frames(packets), Begun(r));
    FramesDecode(packets);
    BegunIsFed(r);
    assert packets + [] == packets;
  }

  lemma BegunIsFed(r: Reader)
    requires r.partial == None ==> !r.inEscape
    ensures Feed(IDLE, Begun(r)) == Read(r, [])
  {
    if r.partial != None {
      hide Body;
      var (start, body) := (Reader(Some([]), false), Body(r.partial.value));
      var rest := if r.inEscape then [ESC] else [];
      assert Begun(r) == [END] + (body + rest);
      FeedInParts(IDLE, [END], body + rest);
      FeedByte(IDLE, END);
      FeedInParts(start, body, rest);
      BodyDecodes([], r.partial.value);
      assert [] + r.partial.value == r.partial.value;
      if r.inEscape {
        FeedByte(Reader(r.partial, false), ESC);
      }
    }
  }

  /** The byte on which reading fails, and how. */
  predicate BadByte(r: Reader, b: Byte, e: Error) {
    || (e == BadHead && r.partial == None && b != 0xC0)
    || (e == BadEscape && r.partial != None && r.inEscape && b != 0xDC && b != 0xDD)
  }

  /** Reading fails if and only if, after whole frames and the beginning of another, something
      other than a frame begins or an escape is followed by neither of its two bytes. What was
      read before is delivered. */
  lemma FailsOnBadByte(bytes: seq<Byte>, e: Error, packets: seq<seq<Byte>>)
    ensures Feed(IDLE, bytes) == Failed(e, packets) <==>
            exists i: nat, r: Reader :: i < |bytes| && FailsAt(bytes, e, packets, i, r)
  {
    hide Feed, FailsAt;
    if Feed(IDLE, bytes) == Failed(e, packets) {
      var i, r := FirstBadByte(bytes);
    }
    if i: nat, r: Reader :| i < |bytes| && FailsAt(bytes, e, packets, i, r) {
      BadByteFails(bytes, e, packets, i, r);
    }
  }

  lemma BadByteFails(bytes: seq<Byte>, e: Error, packets: seq<seq<Byte>>, i: nat, r: Reader)
    requires i < |bytes| && FailsAt(bytes, e, packets, i, r)
    ensures Feed(IDLE, bytes) == Failed(e, packets)
  {
    hide Wire, Feed;
    WireIsFed(packets, r);
    var rest := [bytes[i]] + bytes[i + 1..];
    assert bytes == bytes[..i] + rest;
    FeedInParts(IDLE, bytes[..i], rest);
    FeedInParts(r, [bytes[i]], bytes[i + 1..]);
    FeedByte(r, bytes[i]);
    assert packets + [] == packets;
  }

  predicate FailsAt(bytes: seq<Byte>, e: Error, packets: seq<seq<Byte>>, i: nat, r: Reader)
    requires i < |bytes|
  {
    bytes[..i] == Wire(packets, r) && BadByte(r, bytes[i], e) && (r.partial == None ==> !r.inEscape)
  }

  lemma {:induction false} FirstBadByte(bytes: seq<Byte>) returns (i: nat, r: Reader)
    requires Feed(IDLE, bytes).Failed?
    ensures i < |bytes| && FailsAt(bytes, Feed(IDLE, bytes).error, Feed(IDLE, bytes).packets, i, r)
    decreases |bytes|
  {
    hide Wire;
    var (front, b) := (bytes[..|bytes| - 1], bytes[|bytes| - 1]);
    assert bytes == front + [b];
    FeedInParts(IDLE, front, [b]);
    if Feed(IDLE, front).Failed? {
      i, r := FirstBadByte(front);
      assert front[..i] == bytes[..i];
    } else {
      FedIsWire(front);
      i, r := |bytes| - 1, Feed(IDLE, front).reader;
      FeedByte(r, b);
      assert Feed(IDLE, front).packets + [] == Feed(IDLE, front).packets;
    }
  }

  /** The generator as an object: `Feed` is one read from the port. */
  class SlipReader {
    var partial: Option<seq<Byte>>
    var inEscape: bool

    constructor ()
      ensures State() == IDLE
    {
      partial, inEscape := None, false;
    }

    function State(): Reader
      reads this
    {
      Reader(partial, inEscape)
    }

    method Accept(chunk: seq<Byte>) returns (packets: seq<seq<Byte>>, error: Option<Error>)
      modifies this
      ensures chunk == [] ==> packets == [] && error == Some(Timeout) && State() == old(State())
      ensures chunk != [] ==>
                match Feed(old(State()), chunk)
                case Failed(e, ps) => error == Some(e) && packets == ps
                case Read(r, ps) => error == None && packets == ps && State() == r
    {
      packets, error := [], None;
      if chunk == [] {
        return [], Some(Timeout);
      }
      ghost var r0 := State();
      var i := 0;
      hide Feed, Then;
      FeedFromStart(r0, chunk);
      while i < |chunk|
        invariant 0 <= i <= |chunk|
        invariant Feed(r0, chunk) == Then(packets, Feed(State(), chunk[i..]))
      {
        var b := chunk[i];
        FeedOne(packets, State(), chunk, i);
        if partial == None {
          if b == END {
            partial := Some([]);
          } else {
            return packets, Some(BadHead);
          }
        } else if inEscape {
          inEscape := false;
          if b == ESC_END {
            partial := Some(partial.value + [END]);
          } else if b == ESC_ESC {
            partial := Some(partial.value + [ESC]);
          } else {
            return packets, Some(BadEscape);
          }
        } else if b == ESC {
          inEscape := true;
        } else if b == END {
          packets := packets + [partial.value];
          partial := None;
        } else {
          partial := Some(partial.value + [b]);
        }
        i := i + 1;
      }
      FeedAtEnd(packets, State(), chunk);
    }
  }

  lemma FeedFromStart(r: Reader, chunk: seq<Byte>)
    ensures Feed(r, chunk) == Then([], Feed(r, chunk[0..]))
  {
    assert chunk[0..] == chunk;
  }

  lemma FeedAtEnd(packets: seq<seq<Byte>>, r: Reader, chunk: seq<Byte>)
    ensures Then(packets, Feed(r, chunk[|chunk|..])) == Read(r, packets)
  {
    assert packets + [] == packets;
  }

  /** Taking the next byte of a chunk is a step of the reader. */
  lemma FeedOne(packets: seq<seq<Byte>>, r: Reader, chunk: seq<Byte>, i: nat)
    requires i < |chunk|
    ensures Then(packets, Feed(r, chunk[i..])) ==
            match Step(r, chunk[i])
            case Failed(e, ps) => Failed(e, packets + ps)
            case Read(next, ps) => Then(packets + ps, Feed(next, chunk[i + 1..]))
    ensures packets + [] == packets
  {
    assert chunk[i..][0] == chunk[i] && chunk[i..][1..] == chunk[i + 1..];
    if Step(r, chunk[i]).Read? {
      var Read(next, ps) := Step(r, chunk[i]);
      ThenThen(packets, ps, Feed(next, chunk[i + 1..]));
    }
  }
}
