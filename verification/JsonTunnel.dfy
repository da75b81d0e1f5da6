/**
 The JSON stream over USB: bytes of a local socket travel inside fixed-size packets
 between audio and empty ones, and are written to the local socket at the far end
 with partial writes (src/connection/usb/libusb.rs, android/read.rs, android/write.rs).
 */
module JsonTunnel {
  import opened Sequences
  import opened Bytes
  import opened UsbProtocol
  import JsonStream

  /** `Down` is from Linux to Android, `Up` the other way. */
  datatype Direction = Down | Up

  function MaxDataSize(d: Direction): nat {
    match d
    case Down => USB_PACKET_MAX_DATA_SIZE
    case Up => USB_IN_PACKET_MAX_DATA_SIZE
  }

  datatype Kind = Json | Audio | Empty | NextIsWrite

  function Code(d: Direction, kind: Kind): Byte {
    match d
    case Down =>
      (match kind
       case Json => OutJsonStream.Code()
       case Audio => OutAudioData.Code()
       case Empty => OutEmpty.Code()
       case NextIsWrite => OutNextIsWrite.Code())
    case Up => if kind.Json? then InJsonStream.Code() else InEmpty.Code()
  }

  /** The transfer of one packet. */
  function Wrap(d: Direction, kind: Kind, data: seq<Byte>): seq<Byte>
    requires |data| <= MaxDataSize(d)
  {
    Encode(Code(d, kind), data, if d.Down? then USB_OUT_PACKET_SIZE else USB_IN_PACKET_SIZE)
  }

  /** The part of the JSON stream in one transfer, as the far end decodes it. */
  function JsonIn(d: Direction, transfer: seq<Byte>): Option<seq<Byte>>
    requires USB_HEADER_SIZE <= |transfer|
  {
    match d
    case Down =>
      (match DecodeOut(transfer)
       case Received(OutJsonStream, data) => Some(data)
       case _ => None)
    case Up =>
      (match DecodeIn(transfer)
       case Received(InJsonStream, data) => Some(data)
       case _ => None)
  }

  /** A tunnel in one direction: what was read from the near socket, is on the wire, is being written, was written. */
  datatype Tunnel = Tunnel(read: seq<Byte>, wire: seq<seq<Byte>>, inHand: seq<Byte>, written: seq<Byte>)

  const START := Tunnel([], [], [], [])

  /** A write that would block changes nothing and is retried. */
  datatype Step =
    | ReadNear(piece: seq<Byte>)
    | SendOther(kind: Kind, data: seq<Byte>)
    | Receive
    | WriteFar(count: nat)

  predicate WellFormed(t: Tunnel) {
    forall i :: 0 <= i < |t.wire| ==> USB_HEADER_SIZE <= |t.wire[i]|
  }

  /** The far end takes the next transfer only when it has written all of the last one. */
  predicate Allowed(d: Direction, t: Tunnel, s: Step) {
    match s
    case ReadNear(piece) => 0 < |piece| <= MaxDataSize(d)
    case SendOther(kind, data) => !kind.Json? && |data| <= MaxDataSize(d)
    case Receive => t.wire != [] && t.inHand == []
    case WriteFar(count) => 0 < count <= |t.inHand|
  }

  function Apply(d: Direction, t: Tunnel, s: Step): (after: Tunnel)
    requires WellFormed(t) && Allowed(d, t, s)
    ensures WellFormed(after)
  {
    match s
    case ReadNear(piece) => t.(read := t.read + piece, wire := t.wire + [Wrap(d, Json, piece)])
    case SendOther(kind, data) => t.(wire := t.wire + [Wrap(d, kind, data)])
    case Receive => t.(wire := t.wire[1..], inHand := JsonIn(d, t.wire[0]).UnwrapOr([]))
    case WriteFar(count) => t.(inHand := t.inHand[count..], written := t.written + t.inHand[..count])
  }

  /** The state after a run, if every step of it is allowed. */
  function After(d: Direction, steps: seq<Step>): (t: Option<Tunnel>)
    ensures t.Some? ==> WellFormed(t.value)
  {
    if steps == [] then Some(START)
    else
      var before, last := After(d, steps[..|steps| - 1]), steps[|steps| - 1];
      if before.Some? && Allowed(d, before.value, last) then Some(Apply(d, before.value, last)) else None
  }

  /** The JSON stream on the wire. */
  function OnWire(d: Direction, wire: seq<seq<Byte>>): seq<Byte>
    requires forall i :: 0 <= i < |wire| ==> USB_HEADER_SIZE <= |wire[i]|
  {
    if wire == [] then [] else JsonIn(d, wire[0]).UnwrapOr([]) + OnWire(d, wire[1..])
  }

  lemma {:induction false} OnWireAppend(d: Direction, wire: seq<seq<Byte>>, last: seq<Byte>)
    requires USB_HEADER_SIZE <= |last| && forall i :: 0 <= i < |wire| ==> USB_HEADER_SIZE <= |wire[i]|
    ensures OnWire(d, wire + [last]) == OnWire(d, wire) + JsonIn(d, last).UnwrapOr([])
  {
    var longer := wire + [last];
    if wire == [] {
      assert longer == [last];
      assert OnWire(d, longer[1..]) == [];
    } else {
      assert longer[1..] == wire[1..] + [last];
      OnWireAppend(d, wire[1..], last);
      ConcatAssociative(JsonIn(d, wire[0]).UnwrapOr([]), OnWire(d, wire[1..]), JsonIn(d, last).UnwrapOr([]));
    }
  }

  lemma OnWireNone(d: Direction)
    ensures OnWire(d, []) == []
  {
  }

  lemma WrapIsRead(d: Direction, kind: Kind, data: seq<Byte>)
    requires |data| <= MaxDataSize(d)
    ensures USB_HEADER_SIZE <= |Wrap(d, kind, data)|
    ensures JsonIn(d, Wrap(d, kind, data)) == if kind.Json? then Some(data) else None
    ensures kind.Json? && data != [] ==> Sound(d, Wrap(d, kind, data))
    ensures !kind.Json? ==> Sound(d, Wrap(d, kind, data))
  {
    match d
    case Down =>
      var packetType := match kind case Json => OutJsonStream case Audio => OutAudioData case Empty => OutEmpty
                        case NextIsWrite => OutNextIsWrite;
      OutRoundTrip(packetType, data);
    case Up => InRoundTrip(if kind.Json? then InJsonStream else InEmpty, data);
  }

  /** The far end decodes the transfer, and if it is part of the JSON stream it is not empty. */
  predicate Sound(d: Direction, transfer: seq<Byte>) {
    && |transfer| == (if d.Down? then USB_OUT_PACKET_SIZE else USB_IN_PACKET_SIZE)
    && (if d.Down? then DecodeOut(transfer).Received? else DecodeIn(transfer).Received?)
    && JsonIn(d, transfer) != Some([])
  }

  /**
   Nothing is lost, repeated or reordered, every transfer can be decoded, and no JSON
   packet is empty: a write of zero bytes at the far end means that its socket is closed.
   */
  ghost predicate Transparent(d: Direction, t: Tunnel)
    requires WellFormed(t)
  {
    && t.written + (t.inHand + OnWire(d, t.wire)) == t.read
    && forall i :: 0 <= i < |t.wire| ==> Sound(d, t.wire[i])
  }

  lemma StepTransparent(d: Direction, t: Tunnel, s: Step)
    requires WellFormed(t) && Transparent(d, t) && Allowed(d, t, s)
    ensures Transparent(d, Apply(d, t, s))
  {
    hide Wrap, JsonIn, Sound;
    match s
    case ReadNear(piece) =>
      WrapIsRead(d, Json, piece);
      OnWireAppend(d, t.wire, Wrap(d, Json, piece));
      assert t.written + (t.inHand + (OnWire(d, t.wire) + piece)) == t.read + piece;
    case SendOther(kind, data) =>
      WrapIsRead(d, kind, data);
      OnWireAppend(d, t.wire, Wrap(d, kind, data));
    case Receive =>
    case WriteFar(count) =>
      var rest := t.inHand[count..] + OnWire(d, t.wire);
      assert t.inHand + OnWire(d, t.wire) == t.inHand[..count] + rest;
      ConcatAssociative(t.written, t.inHand[..count], rest);
  }

  /** At every step of every run, the far socket has been written a prefix of what the near one was read. */
  lemma {:induction false} TunnelTransparent(d: Direction, steps: seq<Step>)
    requires After(d, steps).Some?
    ensures Transparent(d, After(d, steps).value)
    ensures After(d, steps).value.written <= After(d, steps).value.read
  {
    if steps != [] {
      var front := steps[..|steps| - 1];
      TunnelTransparent(d, front);
      StepTransparent(d, After(d, front).value, steps[|steps| - 1]);
    }
  }

  /** The states of a tunnel in its runs. */
  ghost predicate Reachable(d: Direction, t: Tunnel) {
    exists steps :: After(d, steps) == Some(t)
  }

  lemma ReachableTransparent(d: Direction, t: Tunnel)
    requires Reachable(d, t)
    ensures WellFormed(t) && Transparent(d, t) && t.written <= t.read
  {
    var steps :| After(d, steps) == Some(t);
    TunnelTransparent(d, steps);
  }

  lemma ReachableStart(d: Direction)
    ensures Reachable(d, START)
  {
    assert After(d, []) == Some(START);
  }

  lemma ReachableStep(d: Direction, t: Tunnel, s: Step)
    requires Reachable(d, t) && WellFormed(t) && Allowed(d, t, s)
    ensures Reachable(d, Apply(d, t, s))
  {
    hide Allowed, Apply;
    var steps :| After(d, steps) == Some(t);
    assert (steps + [s])[..|steps|] == steps;
    assert After(d, steps + [s]) == Some(Apply(d, t, s));
  }

  /** The near end puts one packet on the wire. */
  lemma NearRound(d: Direction, t: Tunnel, kind: Kind, data: seq<Byte>)
    requires Reachable(d, t) && |data| <= MaxDataSize(d) && (kind.Json? ==> data != [])
    ensures Reachable(d, t.(read := t.read + if kind.Json? then data else [], wire := t.wire + [Wrap(d, kind, data)]))
  {
    hide Wrap;
    ReachableTransparent(d, t);
    if kind.Json? {
      ReachableStep(d, t, ReadNear(data));
    } else {
      assert t.read + [] == t.read;
      ReachableStep(d, t, SendOther(kind, data));
    }
  }

  /** The far end goes on writing. */
  lemma FarWrites(d: Direction, t: Tunnel, rest: seq<Byte>, written: seq<Byte>)
    requires Reachable(d, t) && written + rest == t.written + t.inHand && t.written <= written
    ensures Reachable(d, t.(inHand := rest, written := written))
  {
    ReachableTransparent(d, t);
    var count := |written| - |t.written|;
    assert written == (written + rest)[..|written|] == t.written + t.inHand[..count];
    assert rest == (written + rest)[|written|..] == t.inHand[count..];
    if count > 0 {
      ReachableStep(d, t, WriteFar(count));
    } else {
      assert t.inHand[0..] == t.inHand && t.written + [] == t.written;
    }
  }

  /** The far end takes one transfer and writes the data of it as far as it gets. */
  lemma FarRound(d: Direction, t: Tunnel, rest: seq<Byte>, written: seq<Byte>)
    requires Reachable(d, t) && WellFormed(t) && t.wire != [] && t.inHand == []
    requires written + rest == t.written + JsonIn(d, t.wire[0]).UnwrapOr([]) && t.written <= written
    ensures Reachable(d, t.(wire := t.wire[1..], inHand := rest, written := written))
  {
    hide JsonIn;
    ReachableStep(d, t, Receive);
    FarWrites(d, Apply(d, t, Receive), rest, written);
  }

  /**
   The whole stack: messages framed at one end, tunnelled, and read at the other end
   in any pieces are decoded as a prefix of the messages, without an error.
   */
  lemma StackTransparent<M(!new)>(serde: JsonStream.Serde<M>, messages: seq<M>, d: Direction, t: Tunnel, consumed: seq<Byte>)
    requires serde.Inverse() && JsonStream.AllFramable(serde, messages)
    requires Reachable(d, t)
    requires t.read <= JsonStream.Frames(serde, messages) && consumed <= t.written
    ensures JsonStream.Parse(serde, consumed).events <= JsonStream.Events(messages)
    ensures !JsonStream.Parse(serde, consumed).reader.Stopped?
  {
    ReachableTransparent(d, t);
    JsonStream.PrefixRoundTrip(serde, messages, consumed);
  }

  // ----- The local sockets -----

  /** What a nonblocking socket has ready; an accepted write takes at least one byte of nonempty data. */
  datatype ReadOutcome = Available(max: nat) | NothingYet | ReadBroken

  datatype WriteOutcome = Accepted(max: nat) | FullBuffer | PeerClosed | WriteBroken

  datatype SocketRead = Bytes(bytes: seq<Byte>) | EndOfStream | ReadWouldBlock | ReadError

  datatype SocketWrite = Count(count: nat) | WriteWouldBlock | WriteError

  class JsonSocket {
    /** Everything the local peer is still going to write, and everything written to it. */
    var unread: seq<Byte>
    var written: seq<Byte>

    constructor (fromPeer: seq<Byte>)
      ensures unread == fromPeer && written == []
    {
      unread, written := fromPeer, [];
    }

    method Read(limit: nat, outcome: ReadOutcome) returns (r: SocketRead)
      requires limit > 0
      modifies `unread
      ensures r.Bytes? ==> 0 < |r.bytes| <= limit && old(unread) == r.bytes + unread
      ensures !r.Bytes? ==> unread == old(unread)
      ensures outcome.NothingYet? ==> r == ReadWouldBlock
      ensures outcome.ReadBroken? ==> r == ReadError
      ensures outcome.Available? ==> if old(unread) == [] then r == EndOfStream else r.Bytes?
    {
      match outcome {
        case NothingYet => r := ReadWouldBlock;
        case ReadBroken => r := ReadError;
        case Available(max) =>
          if unread == [] {
            return EndOfStream;
          }
          var n := if max == 0 then 1 else max;
          n := if n < limit then n else limit;
          n := if n < |unread| then n else |unread|;
          r := Bytes(unread[..n]);
          unread := unread[n..];
      }
    }

    /** Writing nothing reports a count of zero, like a closed peer. */
    method Write(data: seq<Byte>, outcome: WriteOutcome) returns (r: SocketWrite)
      modifies `written
      ensures r.Count? ==> r.count <= |data| && written == old(written) + data[..r.count]
      ensures !r.Count? ==> written == old(written)
      ensures outcome.Accepted? ==>
                r.Count? && (r.count == 0 <==> data == []) && (r.count < |data| ==> r.count == outcome.max || r.count == 1)
      ensures outcome.PeerClosed? ==> r == Count(0)
      ensures outcome.FullBuffer? ==> r == WriteWouldBlock
      ensures outcome.WriteBroken? ==> r == WriteError
    {
      match outcome {
        case FullBuffer => r := WriteWouldBlock;
        case WriteBroken => r := WriteError;
        case PeerClosed => r := Count(0);
          assert written == written + data[..0];
        case Accepted(max) =>
          var n := if max == 0 then 1 else max;
          n := if n < |data| then n else |data|;
          written := written + data[..n];
          r := Count(n);
      }
    }
  }

  /** How a write loop ends; `Waiting` when the socket has not taken everything yet. */
  datatype WriteLoop = Done | Waiting | Disconnected | Failed

  /** How many writes took something. */
  function AcceptedIn(writes: seq<WriteOutcome>): nat {
    if writes == [] then 0
    else AcceptedIn(writes[..|writes| - 1]) + if writes[|writes| - 1].Accepted? then 1 else 0
  }

  lemma AcceptedMore(writes: seq<WriteOutcome>, i: nat)
    requires i < |writes|
    ensures AcceptedIn(writes[..i + 1]) == AcceptedIn(writes[..i]) + if writes[i].Accepted? then 1 else 0
  {
    assert writes[..i + 1][..i] == writes[..i];
  }

  /**
   After the first `used` writes all but `rest` of `data` was taken, at least a byte by
   each that was accepted. Only the last of them may be the one that ended the loop.
   */
  ghost predicate WentOn(data: seq<Byte>, writes: seq<WriteOutcome>, rest: seq<Byte>, used: nat) {
    && used <= |writes|
    && (forall k :: 0 <= k < used - 1 ==> writes[k].Accepted? || writes[k].FullBuffer?)
    && |rest| + AcceptedIn(writes[..used]) <= |data|
  }

  /** Why the loop ended: all is written, the writes so far are used up, the peer is gone, or the socket is broken. */
  ghost predicate Ended(data: seq<Byte>, writes: seq<WriteOutcome>, rest: seq<Byte>, used: nat, end: WriteLoop) {
    && WentOn(data, writes, rest, used)
    && match end
       case Done => rest == [] && (used > 0 ==> writes[used - 1].Accepted?)
       case Waiting =>
         rest != [] && used == |writes| && (used > 0 ==> writes[used - 1].Accepted? || writes[used - 1].FullBuffer?)
       case Disconnected => used > 0 && writes[used - 1].PeerClosed?
       case Failed => used > 0 && writes[used - 1].WriteBroken?
  }

  ghost predicate Went(data: seq<Byte>, writes: seq<WriteOutcome>, rest: seq<Byte>, end: WriteLoop) {
    exists used :: Ended(data, writes, rest, used, end)
  }

  /** Of `data` all but `rest` has been handed to the socket. */
  ghost predicate Handed(before: seq<Byte>, data: seq<Byte>, after: seq<Byte>, rest: seq<Byte>) {
    after + rest == before + data && before <= after
  }

  lemma HandedMore(before: seq<Byte>, data: seq<Byte>, between: seq<Byte>, rest: seq<Byte>, count: nat)
    requires Handed(before, data, between, rest) && count <= |rest|
    ensures Handed(before, data, between + rest[..count], rest[count..])
  {
    ConcatAssociative(between, rest[..count], rest[count..]);
    assert rest[..count] + rest[count..] == rest;
  }

  lemma HandedPrefix(before: seq<Byte>, data: seq<Byte>, after: seq<Byte>, rest: seq<Byte>)
    requires Handed(before, data, after, rest)
    ensures after <= before + data
    ensures rest == [] ==> after == before + data
  {
    assert (after + rest)[..|after|] == after;
  }
}
