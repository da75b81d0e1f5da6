/**
 Packets over a TCP data connection: a big-endian 16-bit length and the bytes
 (src/connection/data/tcp.rs). The socket of the sender is nonblocking, and so is
 that of the receiver until it has its first packet: a call that cannot finish
 leaves a frame cut off in the stream, or has lost the bytes it read.
 */
module TcpData {
  import opened Sequences
  import opened Bytes
  import opened Config
  import opened DataConnection

  function Frame(packet: seq<Byte>): seq<Byte>
    requires |packet| <= MAX_PACKET_SIZE
  {
    U16ToBe(|packet|) + packet
  }

  ghost predicate Fits(packets: seq<seq<Byte>>, limit: nat) {
    forall i :: 0 <= i < |packets| ==> |packets[i]| <= limit
  }

  /** The byte stream of a sequence of packets. */
  ghost function FrameAll(packets: seq<seq<Byte>>): seq<Byte>
    requires Fits(packets, MAX_PACKET_SIZE)
  {
    if packets == [] then [] else Frame(packets[0]) + FrameAll(packets[1..])
  }

  /** The part of a frame that a full or broken socket has taken; all of it would be a success. */
  function Cut(packet: seq<Byte>, taken: nat): (part: seq<Byte>)
    requires |packet| <= MAX_PACKET_SIZE
    ensures part <= Frame(packet) && |part| < |Frame(packet)|
    ensures part == [] <==> taken == 0
  {
    Frame(packet)[..if taken < |packet| + 1 then taken else |packet| + 1]
  }

  datatype Received = Packet(packet: seq<Byte>, rest: seq<Byte>) | UnexpectedEof | NothingYet(rest: seq<Byte>)

  /** One packet from the head of the stream, read into a buffer of `limit` bytes. */
  function Receive(stream: seq<Byte>, limit: nat): (r: Received)
    ensures !r.NothingYet?
  {
    if |stream| < 2 then UnexpectedEof
    else
      var size := U16FromBe(stream[..2]);
      var splitSize := if size < limit then size else limit;
      if |stream| < 2 + splitSize then UnexpectedEof
      else Packet(stream[2..2 + splitSize], stream[2 + splitSize..])
  }

  /**
   A nonblocking receive when `arrived` bytes of the stream are there; more than it
   holds means that its end is seen. Bytes of an unfinished packet are lost.
   */
  function ReceiveSome(stream: seq<Byte>, limit: nat, arrived: nat): Received {
    if arrived > |stream| then Receive(stream, limit)
    else
      match Receive(stream[..arrived], limit)
      case Packet(packet, rest) => Packet(packet, rest + stream[arrived..])
      case _ => NothingYet(stream[arrived..])
  }

  /** A receive reads the size and then the packet, each from what is there. */
  lemma ReceiveInParts(stream: seq<Byte>, limit: nat, nonblocking: bool, arrived: nat)
    ensures var r := if nonblocking then ReceiveSome(stream, limit, arrived) else Receive(stream, limit);
            var waits := nonblocking && arrived <= |stream|;
            var here := if waits then arrived else |stream|;
            var nothing := if waits then NothingYet(stream[here..]) else UnexpectedEof;
            if here < 2 then r == nothing
            else
              var size := U16FromBe(stream[..2]);
              var splitSize := if size < limit then size else limit;
              if here < 2 + splitSize then r == nothing
              else r == Packet(stream[2..2 + splitSize], stream[2 + splitSize..])
  {
    if nonblocking && 2 <= arrived <= |stream| {
      var part := stream[..arrived];
      assert part[..2] == stream[..2];
      var size := U16FromBe(stream[..2]);
      var splitSize := if size < limit then size else limit;
      if 2 + splitSize <= arrived {
        assert part[2..2 + splitSize] == stream[2..2 + splitSize];
        assert part[2 + splitSize..] + stream[arrived..] == stream[2 + splitSize..];
      }
    }
  }

  lemma SliceOfRest(stream: seq<Byte>, start: nat, count: nat)
    requires start <= |stream|
    ensures start + count <= |stream| ==>
              stream[start..][..count] == stream[start..start + count] && stream[start..][count..] == stream[start + count..]
    ensures forall n: nat :: n <= |stream| - start ==> stream[start..][n..] == stream[start + n..]
  {
  }

  datatype RecvResult = Size(size: nat) | Eof | NoData

  class TcpDataConnection {
    /** Everything written to the peer. */
    var written: seq<Byte>
    /** The bytes from the peer that have not been read yet. */
    var unread: seq<Byte>
    var nonblocking: bool

    constructor (fromPeer: seq<Byte>)
      ensures written == [] && unread == fromPeer && !nonblocking
    {
      written, unread, nonblocking := [], fromPeer, false;
    }

    /** The socket takes at most `room` bytes. */
    method WriteAll(data: seq<Byte>, room: nat) returns (ok: bool)
      modifies `written
      ensures ok <==> |data| <= room
      ensures written == old(written) + if ok then data else data[..room]
    {
      ok := |data| <= room;
      written := written + if ok then data else data[..room];
    }

    /** `outcome` is the socket's answer to the two writes. */
    method SendPacket(packet: seq<Byte>, outcome: SendOutcome) returns (r: SendOutcome)
      requires |packet| <= MAX_PACKET_SIZE
      modifies `written
      ensures r == outcome
      ensures written == old(written) + if outcome.Sent? then Frame(packet) else Cut(packet, outcome.taken)
    {
      var packetSize: U16 := |packet|;
      var room := if outcome.Sent? then 2 + |packet| else |Cut(packet, outcome.taken)|;
      ghost var before := written;
      var ok := WriteAll(U16ToBe(packetSize), room);
      if ok {
        ConcatAssociative(before, U16ToBe(packetSize), packet);
        ConcatAssociative(before, U16ToBe(packetSize), packet[..room - 2]);
        ok := WriteAll(packet, room - 2);
      }
      r := outcome;
    }

    /** The arrived part of the stream; a blocking socket waits for all of it. */
    function Arrived(arrived: nat): seq<Byte>
      reads `unread, `nonblocking
    {
      if nonblocking && arrived <= |unread| then unread[..arrived] else unread
    }

    /** Fills the front of the buffer, or takes what has arrived. */
    method ReadExact(target: array<Byte>, count: nat, arrived: nat) returns (r: RecvResult)
      requires count <= target.Length
      modifies `unread, target
      ensures var n := if count <= |old(Arrived(arrived))| then count else |old(Arrived(arrived))|;
              && unread == old(unread)[n..]
              && target[..] == old(unread)[..n] + old(target[n..])
              && r == if n == count then Size(count) else if nonblocking && arrived <= |old(unread)| then NoData else Eof
    {
      var here := Arrived(arrived);
      var n := if count <= |here| then count else |here|;
      for i := 0 to n
        invariant unread == old(unread)
        invariant forall j :: 0 <= j < i ==> target[j] == unread[j]
        invariant forall j :: i <= j < target.Length ==> target[j] == old(target[j])
      {
        target[i] := unread[i];
      }
      assert target[..] == unread[..n] + old(target[n..]);
      r := if n == count then Size(count) else if nonblocking && arrived <= |unread| then NoData else Eof;
      unread := unread[n..];
    }

    /** Bytes of the buffer after the packet are untouched; after an error its front is unspecified. */
    method RecvPacket(buffer: array<Byte>, arrived: nat) returns (r: RecvResult)
      modifies `unread, buffer
      ensures match if nonblocking then ReceiveSome(old(unread), buffer.Length, arrived)
                    else Receive(old(unread), buffer.Length)
              case Packet(packet, rest) =>
                && r == Size(|packet|)
                && unread == rest
                && buffer[..] == packet + old(buffer[|packet|..])
              case UnexpectedEof => r == Eof && unread == []
              case NothingYet(rest) => r == NoData && unread == rest
    {
      hide Receive, ReceiveSome;
      var sizeBytes := new Byte[2];
      ghost var stream := unread;
      ReceiveInParts(stream, buffer.Length, nonblocking, arrived);
      r := ReadExact(sizeBytes, 2, arrived);
      if !r.Size? {
        return;
      }
      assert sizeBytes[..] == stream[..2];
      var size := U16FromBe(sizeBytes[..]);
      var splitSize := if size < buffer.Length then size else buffer.Length;
      var left := if arrived < 2 then 0 else arrived - 2;
      SliceOfRest(stream, 2, splitSize);
      r := ReadExact(buffer, splitSize, left);
    }
  }

  /**
   Reading one framed packet gives the part that fits the buffer; the stream is
   left at the next frame exactly when the whole packet fits, and otherwise the
   unread bytes of this packet stay at its head.
   */
  lemma ReceiveFrame(packet: seq<Byte>, rest: seq<Byte>, limit: nat)
    requires |packet| <= MAX_PACKET_SIZE
    ensures var kept := if |packet| < limit then |packet| else limit;
            Receive(Frame(packet) + rest, limit) == Packet(packet[..kept], packet[kept..] + rest)
    ensures Receive(Frame(packet) + rest, limit) == Packet(packet, rest) <==> |packet| <= limit
  {
    var stream := Frame(packet) + rest;
    assert stream[..2] == U16ToBe(|packet|);
    assert stream[2..] == packet + rest;
    var kept := if |packet| < limit then |packet| else limit;
    assert stream[2..2 + kept] == packet[..kept];
    assert stream[2 + kept..] == packet[kept..] + rest;
    assert |packet| <= limit ==> packet[..kept] == packet && packet[kept..] + rest == rest;
  }

  /** Reading until the stream ends. */
  ghost function ReceiveAll(stream: seq<Byte>, limit: nat): seq<seq<Byte>>
    decreases |stream|
  {
    match Receive(stream, limit)
    case UnexpectedEof => []
    case Packet(packet, rest) => [packet] + ReceiveAll(rest, limit)
  }

  /** Framing is transparent for every sequence of packets that fit the receive buffer. */
  lemma {:induction false} FramingRoundTrip(packets: seq<seq<Byte>>, limit: nat)
    requires Fits(packets, MAX_PACKET_SIZE) && Fits(packets, limit)
    ensures ReceiveAll(FrameAll(packets), limit) == packets
  {
    if packets != [] {
      FramingRoundTrip(packets[1..], limit);
      ReceiveFrame(packets[0], FrameAll(packets[1..]), limit);
    }
  }

  /** `packets` in whole frames, and after them less than one more frame. */
  ghost predicate Holds(stream: seq<Byte>, packets: seq<seq<Byte>>, limit: nat)
    requires Fits(packets, MAX_PACKET_SIZE)
  {
    && FrameAll(packets) <= stream
    && Receive(stream[|FrameAll(packets)|..], limit).UnexpectedEof?
  }

  /** Less than one frame of a packet that fits the buffer. */
  ghost predicate Unfinished(tail: seq<Byte>, limit: nat) {
    exists packet :: |packet| <= limit && |packet| <= MAX_PACKET_SIZE && Begins(tail, packet)
  }

  ghost predicate Begins(tail: seq<Byte>, packet: seq<Byte>)
    requires |packet| <= MAX_PACKET_SIZE
  {
    tail <= Frame(packet) && |tail| < |Frame(packet)|
  }

  lemma UnfinishedGivesNothing(stream: seq<Byte>, tail: seq<Byte>, limit: nat)
    requires stream <= tail && Unfinished(tail, limit)
    ensures Receive(stream, limit) == UnexpectedEof
  {
    var packet :| |packet| <= limit && |packet| <= MAX_PACKET_SIZE && Begins(tail, packet);
    assert |stream| >= 2 ==> stream[..2] == Frame(packet)[..2] == U16ToBe(|packet|);
  }

  lemma InsideFrame(stream: seq<Byte>, packet: seq<Byte>, others: seq<Byte>, limit: nat)
    requires |packet| <= limit && |packet| <= MAX_PACKET_SIZE
    requires stream <= Frame(packet) + others && |stream| < |Frame(packet)|
    ensures Receive(stream, limit) == UnexpectedEof
  {
    hide Frame, Receive;
    assert stream == (Frame(packet) + others)[..|stream|] == Frame(packet)[..|stream|];
    assert Begins(stream, packet);
    UnfinishedGivesNothing(stream, stream, limit);
  }

  lemma AfterFrame(stream: seq<Byte>, frame: seq<Byte>, others: seq<Byte>)
    requires stream <= frame + others && |frame| <= |stream|
    ensures stream == frame + stream[|frame|..] && stream[|frame|..] <= others
  {
    assert stream == (frame + others)[..|stream|];
  }

  lemma HoldsNone(stream: seq<Byte>, limit: nat)
    requires Receive(stream, limit) == UnexpectedEof
    ensures Holds(stream, [], limit)
  {
    assert stream[0..] == stream;
  }

  /**
   A connection that breaks anywhere, also where the sender has left a frame
   unfinished at the end, still delivers whole packets, the first ones in order.
   */
  lemma {:induction false} BrokenStream(stream: seq<Byte>, packets: seq<seq<Byte>>, tail: seq<Byte>, limit: nat)
    returns (n: nat)
    requires Fits(packets, MAX_PACKET_SIZE) && Fits(packets, limit) && Unfinished(tail, limit)
    requires stream <= FrameAll(packets) + tail
    ensures n <= |packets| && Holds(stream, packets[..n], limit)
    ensures FrameAll(packets) <= stream ==> n == |packets|
    decreases |packets|
  {
    hide Frame, Receive, Unfinished, Holds;
    n := 0;
    if packets == [] {
      assert [] + tail == tail;
      UnfinishedGivesNothing(stream, tail, limit);
      HoldsNone(stream, limit);
    } else {
      var frame, others := Frame(packets[0]), FrameAll(packets[1..]) + tail;
      ConcatAssociative(frame, FrameAll(packets[1..]), tail);
      if |frame| <= |stream| {
        AfterFrame(stream, frame, others);
        if FrameAll(packets) <= stream {
          assert FrameAll(packets[1..]) <= stream[|frame|..];
        }
        var m := BrokenStream(stream[|frame|..], packets[1..], tail, limit);
        n := m + 1;
        HoldsOneMore(packets[0], stream[|frame|..], packets[1..][..m], limit);
        assert packets[..n] == [packets[0]] + packets[1..][..m];
      } else {
        InsideFrame(stream, packets[0], others, limit);
        HoldsNone(stream, limit);
        assert packets[..0] == [];
      }
    }
  }

  lemma HoldsOneMore(packet: seq<Byte>, tail: seq<Byte>, packets: seq<seq<Byte>>, limit: nat)
    requires |packet| <= MAX_PACKET_SIZE && Fits(packets, MAX_PACKET_SIZE) && Holds(tail, packets, limit)
    ensures Holds(Frame(packet) + tail, [packet] + packets, limit)
  {
    var longer := [packet] + packets;
    assert longer[1..] == packets;
    var rest := tail[|FrameAll(packets)|..];
    assert FrameAll(longer) == Frame(packet) + FrameAll(packets);
    assert Frame(packet) + tail == FrameAll(longer) + rest;
  }

  /** What follows the first of the packets held. */
  lemma HoldsFirst(stream: seq<Byte>, packets: seq<seq<Byte>>, limit: nat)
    requires Fits(packets, MAX_PACKET_SIZE) && Fits(packets, limit) && Holds(stream, packets, limit)
    ensures packets == [] ==> Receive(stream, limit) == UnexpectedEof
    ensures packets != [] ==>
              && Receive(stream, limit).Packet?
              && Receive(stream, limit).packet == packets[0]
              && Holds(Receive(stream, limit).rest, packets[1..], limit)
  {
    if packets == [] {
      assert stream[0..] == stream;
    } else {
      var frame, others := Frame(packets[0]), FrameAll(packets[1..]);
      var last := stream[|FrameAll(packets)|..];
      var rest := others + last;
      ConcatAssociative(frame, others, last);
      assert stream == frame + rest;
      ReceiveFrame(packets[0], rest, limit);
      assert rest[|others|..] == last;
    }
  }

  lemma {:induction false} FrameAllAppend(packets: seq<seq<Byte>>, last: seq<Byte>)
    requires Fits(packets, MAX_PACKET_SIZE) && |last| <= MAX_PACKET_SIZE
    ensures FrameAll(packets + [last]) == FrameAll(packets) + Frame(last)
  {
    var longer := packets + [last];
    if packets == [] {
      assert longer == [last];
      assert longer[1..] == [];
      calc {
        FrameAll(longer);
        Frame(last) + FrameAll([]);
        Frame(last);
      }
    } else {
      assert longer[1..] == packets[1..] + [last];
      FrameAllAppend(packets[1..], last);
      calc {
        FrameAll(longer);
        Frame(packets[0]) + FrameAll(longer[1..]);
        Frame(packets[0]) + (FrameAll(packets[1..]) + Frame(last));
        { ConcatAssociative(Frame(packets[0]), FrameAll(packets[1..]), Frame(last)); }
        FrameAll(packets) + Frame(last);
      }
    }
  }
}
