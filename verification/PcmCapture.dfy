/**
 The sender: capture fragments of any size are cut into fixed payloads, numbered
 and handed to the data connection (`PAStreamManager` in
 src/audio/pulseaudio/stream.rs). PulseAudio and the connection are the
 environment: the first supplies fragments, the second an outcome for each send.
 */
module PcmCapture {
  import opened Sequences
  import opened Bytes
  import opened Config
  import opened DataConnection
  import opened TcpData

  /** A packet handed to the data connection, and what became of it. */
  datatype Attempt = Attempt(packet: seq<Byte>, outcome: SendOutcome)

  datatype StreamResult = Ok | SocketError | NotEnoughBytesForOneSample

  datatype PeekResult = Empty | Data(bytes: seq<Byte>) | Hole | PeekError

  /** One round of the read loop: what peeking returned and whether discarding worked. */
  datatype Peek = Peek(result: PeekResult, discarded: bool)

  type Network = nat -> SendOutcome

  function Payloads(input: seq<Byte>): seq<seq<Byte>> {
    Chunks(input, RAW_PCM_AUDIO_UDP_DATA_SIZE_IN_BYTES)
  }

  function Residual(input: seq<Byte>): seq<Byte> {
    Rest(input, RAW_PCM_AUDIO_UDP_DATA_SIZE_IN_BYTES)
  }

  /** Packet `i` carries the number `i` modulo 2^32, whether or not earlier packets were dropped. */
  function NumberedPacket(i: nat, payload: seq<Byte>): seq<Byte> {
    U32ToBe(i % TWO_TO_THE_32) + payload
  }

  /** What the sender does with the captured bytes, as a function of their concatenation alone. */
  function Attempts(network: Network, input: seq<Byte>): (attempts: seq<Attempt>)
    ensures |attempts| == |Payloads(input)|
  {
    var payloads := Payloads(input);
    seq(|payloads|, i requires 0 <= i < |payloads| => Attempt(NumberedPacket(i, payloads[i]), network(i)))
  }

  function Dropped(attempts: seq<Attempt>): nat {
    if attempts == [] then 0
    else Dropped(attempts[..|attempts| - 1]) + if attempts[|attempts| - 1].outcome.WouldBlock? then 1 else 0
  }

  /** The packets that reach the connection, in order. */
  function SentPackets(attempts: seq<Attempt>): seq<seq<Byte>> {
    if attempts == [] then []
    else
      var last := attempts[|attempts| - 1];
      SentPackets(attempts[..|attempts| - 1]) + if last.outcome.Sent? then [last.packet] else []
  }

  predicate Failure(attempts: seq<Attempt>) {
    exists i :: 0 <= i < |attempts| && attempts[i].outcome.Failed?
  }

  /** The bytes that one call of the read loop takes from PulseAudio when nothing goes wrong. */
  function Available(peeks: seq<Peek>): seq<Byte> {
    if peeks == [] || peeks[0].result.Empty? then []
    else (if peeks[0].result.Data? then peeks[0].result.bytes else []) + Available(peeks[1..])
  }

  /** Nothing goes wrong at PulseAudio up to the first empty peek, and every fragment holds whole samples. */
  predicate Clean(peeks: seq<Peek>) {
    peeks == [] || peeks[0].result.Empty? ||
    (!peeks[0].result.PeekError? &&
     peeks[0].discarded &&
     (peeks[0].result.Data? ==> |peeks[0].result.bytes| % 2 == 0) &&
     Clean(peeks[1..]))
  }

  /** The data connection of a recording: over TCP the frames that it writes are followed. */
  datatype DataSender = TcpSender(tcp: TcpDataConnection) | PacketSender

  predicate AllFit(attempts: seq<Attempt>) {
    forall i :: 0 <= i < |attempts| ==> |attempts[i].packet| <= MAX_PACKET_SIZE
  }

  /** What the attempts have written to a byte stream: whole frames, and what a full socket took of the others. */
  function Wire(attempts: seq<Attempt>): seq<Byte>
    requires AllFit(attempts)
  {
    if attempts == [] then []
    else
      var Attempt(packet, outcome) := attempts[|attempts| - 1];
      Wire(attempts[..|attempts| - 1]) + if outcome.Sent? then Frame(packet) else Cut(packet, outcome.taken)
  }

  ghost predicate Framed(attempts: seq<Attempt>, written: seq<Byte>) {
    AllFit(attempts) && written == Wire(attempts)
  }

  /** No frame is cut off before the last one. */
  predicate Untorn(attempts: seq<Attempt>) {
    forall i :: 0 <= i < |attempts| - 1 && !attempts[i].outcome.Sent? ==> attempts[i].outcome.taken == 0
  }

  function LastCut(attempts: seq<Attempt>): (part: seq<Byte>)
    requires AllFit(attempts)
    ensures part != [] ==> attempts != [] && Begins(part, attempts[|attempts| - 1].packet)
  {
    if attempts == [] || attempts[|attempts| - 1].outcome.Sent? then []
    else Cut(attempts[|attempts| - 1].packet, attempts[|attempts| - 1].outcome.taken)
  }

  /** Without a torn frame the stream is the frames of the packets sent, and a part of the last attempt. */
  lemma {:induction false} UntornWire(attempts: seq<Attempt>)
    requires AllFit(attempts) && Untorn(attempts)
    ensures Fits(SentPackets(attempts), MAX_PACKET_SIZE)
    ensures Wire(attempts) == FrameAll(SentPackets(attempts)) + LastCut(attempts)
  {
    hide Frame, Cut;
    if attempts != [] {
      var front, last := attempts[..|attempts| - 1], attempts[|attempts| - 1];
      UntornWire(front);
      assert LastCut(front) == [];
      assert Wire(front) + [] == Wire(front);
      if last.outcome.Sent? {
        FrameAllAppend(SentPackets(front), last.packet);
        assert FrameAll(SentPackets(attempts)) + [] == FrameAll(SentPackets(attempts));
      } else {
        assert SentPackets(front) + [] == SentPackets(front);
        assert Wire(front) == FrameAll(SentPackets(front)) + [] == FrameAll(SentPackets(front));
      }
    }
  }

  class PAStreamManager {
    var record: bool
    var enableRecording: bool
    var rawPcmBuffer: seq<Byte>
    var audioPacketDropCount: nat
    var audioPacketCounter: U32
    var audioPacketBuffer: seq<Byte>
    /** How often the recording stream was asked to disconnect. */
    var disconnects: nat
    /** The data connection of the current recording: its outcomes and what it was given. */
    var connection: DataSender
    var network: Network
    var attempts: seq<Attempt>
    /** Every byte taken from the current recording stream. */
    ghost var captured: seq<Byte>

    ghost function Carrier(): set<object>
      reads `connection
    {
      if connection.TcpSender? then {connection.tcp} else {}
    }

    /** The byte stream of a TCP connection is what the attempts wrote to it. */
    ghost predicate Delivered()
      reads `connection, `attempts, Carrier()
    {
      connection.TcpSender? ==> Framed(attempts, connection.tcp.written)
    }

    ghost predicate Counted()
      reads `network, `attempts, `captured, `audioPacketCounter, `audioPacketDropCount
    {
      && attempts == Attempts(network, captured)
      && audioPacketCounter == |attempts| % TWO_TO_THE_32
      && audioPacketDropCount == Dropped(attempts)
    }

    /** All input is in packets handed over or in the buffer, which is not full. */
    ghost predicate InStep()
      reads `network, `attempts, `captured, `audioPacketCounter, `audioPacketDropCount, `rawPcmBuffer
    {
      Counted() && rawPcmBuffer == Residual(captured) && !Failure(attempts)
    }

    /** The last send failed, and its payload is still in the buffer. */
    ghost predicate Halted()
      reads `network, `attempts, `captured, `audioPacketCounter, `audioPacketDropCount, `rawPcmBuffer
    {
      && Counted()
      && attempts != []
      && Failure(attempts)
      && attempts[|attempts| - 1].outcome.Failed?
      && Residual(captured) == []
      && rawPcmBuffer == Payloads(captured)[|attempts| - 1]
    }

    ghost predicate Valid()
      reads this, Carrier()
    {
      (InStep() || Halted()) && (enableRecording ==> InStep()) && Delivered()
    }

    constructor ()
      ensures Valid() && enableRecording && !record && captured == []
    {
      record, enableRecording := false, true;
      rawPcmBuffer, audioPacketBuffer := [], [];
      audioPacketDropCount, audioPacketCounter := 0, 0;
      network, attempts, captured := i => Sent, [], [];
      connection, disconnects := PacketSender, 0;
    }

    method RequestStartRecordStream(connection: DataSender, network: Network)
      requires connection.TcpSender? ==> connection.tcp.written == []
      modifies this
      ensures InStep() && Valid() && record && enableRecording
      ensures this.connection == connection && this.network == network && captured == [] && attempts == []
    {
      record, this.connection, this.network, attempts := true, connection, network, [];
      enableRecording := true;
      audioPacketDropCount := 0;
      audioPacketCounter := 0;
      audioPacketBuffer := [];
      rawPcmBuffer := [];
      captured := [];
    }

    method HandleData(data: seq<Byte>) returns (r: StreamResult)
      requires PACKET_COUNTER_SIZE + |data| <= MAX_PACKET_SIZE
      requires Delivered()
      modifies `audioPacketBuffer, `audioPacketCounter, `attempts, `audioPacketDropCount, Carrier()
      ensures Delivered()
      ensures attempts == old(attempts) +
                [Attempt(U32ToBe(old(audioPacketCounter)) + data, network(|old(attempts)|))]
      ensures audioPacketCounter == (old(audioPacketCounter) + 1) % TWO_TO_THE_32
      ensures audioPacketDropCount ==
                old(audioPacketDropCount) + if network(|old(attempts)|).WouldBlock? then 1 else 0
      ensures r == if network(|old(attempts)|).Failed? then SocketError else Ok
    {
      audioPacketBuffer := [];

      var packetNumber := audioPacketCounter;
      audioPacketCounter := (audioPacketCounter + 1) % TWO_TO_THE_32;

      audioPacketBuffer := audioPacketBuffer + U32ToBe(packetNumber);
      audioPacketBuffer := audioPacketBuffer + data;

      assert audioPacketBuffer == U32ToBe(packetNumber) + data;
      var outcome := network(|attempts|);
      if connection.TcpSender? {
        FramedAppend(attempts, Attempt(audioPacketBuffer, outcome), connection.tcp.written);
        var _ := connection.tcp.SendPacket(audioPacketBuffer, outcome);
      }
      attempts := attempts + [Attempt(audioPacketBuffer, outcome)];
      match outcome {
        case Sent =>
        case WouldBlock(_) => audioPacketDropCount := audioPacketDropCount + 1;
        case Failed(_) => return SocketError;
      }
      r := Ok;
    }

    /** The body of the byte loop. */
    method PushByte(byte: Byte) returns (r: StreamResult)
      requires InStep() && Delivered()
      modifies `rawPcmBuffer, `audioPacketBuffer, `audioPacketCounter, `attempts, `audioPacketDropCount, `captured,
               Carrier()
      ensures Delivered()
      ensures r.Ok? || r.SocketError?
      ensures if r.Ok? then InStep() else Halted()
      ensures captured == old(captured) + [byte]
    {
      CapturedByte(network, captured, byte);
      hide Attempts, Dropped, Failure, Payloads, Residual, U32ToBe, Framed;
      captured := captured + [byte];
      rawPcmBuffer := rawPcmBuffer + [byte];
      r := Ok;

      if |rawPcmBuffer| == RAW_PCM_AUDIO_UDP_DATA_SIZE_IN_BYTES {
        ghost var before := attempts;
        CounterStep(|before|);
        r := HandleData(rawPcmBuffer);
        assert attempts == before + [Attempt(NumberedPacket(|before|, rawPcmBuffer), network(|before|))];
        if r.Ok? {
          rawPcmBuffer := [];
        }
      }
    }

    method HandleRawPcmData(data: seq<Byte>) returns (r: StreamResult)
      requires InStep() && Delivered()
      modifies `rawPcmBuffer, `audioPacketBuffer, `audioPacketCounter, `attempts, `audioPacketDropCount, `captured,
               Carrier()
      ensures Delivered()
      ensures r.NotEnoughBytesForOneSample? <==> |data| % 2 != 0
      ensures r.NotEnoughBytesForOneSample? ==> InStep() && captured == old(captured)
      ensures r.Ok? ==> InStep() && captured == old(captured) + data
      ensures r.SocketError? ==> Halted() && old(captured) < captured <= old(captured) + data
    {
      hide InStep, Halted, Delivered;
      if |data| % 2 != 0 {
        return NotEnoughBytesForOneSample;
      }

      for i := 0 to |data|
        invariant InStep() && Delivered() && captured == old(captured) + data[..i]
      {
        r := PushByte(data[i]);
        assert captured == old(captured) + data[..i + 1];
        if !r.Ok? {
          return;
        }
      }
      r := Ok;
    }

    /** No send of the current recording fails. */
    ghost predicate NeverFails()
      reads `network
    {
      forall k: nat :: !network(k).Failed?
    }

    lemma HaltedIsNotInStep()
      ensures Halted() ==> !InStep() && !NeverFails()
    {
      if Halted() {
        assert attempts[|attempts| - 1].outcome == network(|attempts| - 1);
      }
    }

    method StopRecording()
      requires record
      modifies `disconnects
      ensures disconnects == old(disconnects) + 1
    {
      disconnects := disconnects + 1;
    }

    method HandleRecordingStreamRead(peeks: seq<Peek>)
      requires record && Valid()
      modifies `enableRecording, `rawPcmBuffer, `audioPacketBuffer, `audioPacketCounter, `attempts,
               `audioPacketDropCount, `captured, `disconnects, Carrier()
      ensures Valid()
      ensures disconnects == old(disconnects) + if old(enableRecording) && !enableRecording then 1 else 0
      ensures old(captured) <= captured <= old(captured) + Available(peeks)
      ensures enableRecording ==> old(enableRecording) && captured == old(captured) + Available(peeks)
      ensures !old(enableRecording) ==> captured == old(captured)
      ensures enableRecording <==> old(enableRecording) && Clean(peeks) && InStep()
      ensures old(enableRecording) && Clean(peeks) && NeverFails() ==> enableRecording
    {
      hide InStep, Halted, Available, Delivered, NeverFails;
      if !enableRecording {
        return;
      }

      var i := 0;
      while i < |peeks| && !peeks[i].result.Empty?
        invariant 0 <= i <= |peeks|
        invariant InStep() && Delivered() && enableRecording && disconnects == old(disconnects)
        invariant captured + Available(peeks[i..]) == old(captured) + Available(peeks)
        invariant old(captured) <= captured <= old(captured) + Available(peeks)
        invariant Clean(peeks) <==> Clean(peeks[i..])
      {
        AvailableFrom(peeks, i);
        assert peeks[i..][1..] == peeks[i + 1..];
        match peeks[i].result {
          case PeekError =>
            enableRecording := false;
            StopRecording();
            return;
          case Data(bytes) =>
            var result := HandleRawPcmData(bytes);
            if !result.Ok? {
              HaltedIsNotInStep();
              enableRecording := false;
              StopRecording();
              return;
            }
          case Hole =>
        }
        if !peeks[i].discarded {
          enableRecording := false;
          StopRecording();
          return;
        }
        i := i + 1;
      }
      AvailableEnd(peeks, i);
    }
  }

  lemma FramedAppend(attempts: seq<Attempt>, last: Attempt, written: seq<Byte>)
    requires Framed(attempts, written) && |last.packet| <= MAX_PACKET_SIZE
    ensures Framed(attempts + [last],
                   written + if last.outcome.Sent? then Frame(last.packet) else Cut(last.packet, last.outcome.taken))
  {
    assert (attempts + [last])[..|attempts|] == attempts;
  }

  lemma CounterStep(n: nat)
    ensures (n % TWO_TO_THE_32 + 1) % TWO_TO_THE_32 == (n + 1) % TWO_TO_THE_32
  {
  }

  lemma AvailableFrom(peeks: seq<Peek>, i: nat)
    requires i < |peeks| && !peeks[i].result.Empty?
    ensures Available(peeks[i..]) ==
              (if peeks[i].result.Data? then peeks[i].result.bytes else []) + Available(peeks[i + 1..])
  {
    assert peeks[i..][1..] == peeks[i + 1..];
  }

  lemma AvailableEnd(peeks: seq<Peek>, i: nat)
    requires i <= |peeks| && (i < |peeks| ==> peeks[i].result.Empty?)
    ensures Available(peeks[i..]) == []
  {
  }

  /** One captured byte either waits in the buffer or completes the next packet. */
  lemma CapturedByte(network: Network, input: seq<Byte>, byte: Byte)
    ensures var longer, waiting := input + [byte], Residual(input) + [byte];
            var attempts := Attempts(network, input);
            && |waiting| <= RAW_PCM_AUDIO_UDP_DATA_SIZE_IN_BYTES
            && (|waiting| < RAW_PCM_AUDIO_UDP_DATA_SIZE_IN_BYTES ==>
                  Residual(longer) == waiting && Attempts(network, longer) == attempts)
            && (|waiting| == RAW_PCM_AUDIO_UDP_DATA_SIZE_IN_BYTES ==>
                  var last := Attempt(NumberedPacket(|attempts|, waiting), network(|attempts|));
                  && Residual(longer) == []
                  && Payloads(longer) == Payloads(input) + [waiting]
                  && Attempts(network, longer) == attempts + [last]
                  && Dropped(attempts + [last]) == Dropped(attempts) + (if last.outcome.WouldBlock? then 1 else 0)
                  && (Failure(attempts + [last]) <==> Failure(attempts) || last.outcome.Failed?))
  {
    ChunksSnoc(input, RAW_PCM_AUDIO_UDP_DATA_SIZE_IN_BYTES, byte);
    var attempts, waiting := Attempts(network, input), Residual(input) + [byte];
    if |waiting| == RAW_PCM_AUDIO_UDP_DATA_SIZE_IN_BYTES {
      AttemptsAppended(attempts, Attempt(NumberedPacket(|attempts|, waiting), network(|attempts|)));
    }
  }

  lemma AttemptsAppended(attempts: seq<Attempt>, last: Attempt)
    ensures Dropped(attempts + [last]) == Dropped(attempts) + if last.outcome.WouldBlock? then 1 else 0
    ensures SentPackets(attempts + [last]) == SentPackets(attempts) + if last.outcome.Sent? then [last.packet] else []
    ensures Failure(attempts + [last]) <==> Failure(attempts) || last.outcome.Failed?
  {
    assert (attempts + [last])[..|attempts|] == attempts;
    assert (attempts + [last])[|attempts|] == last;
    if Failure(attempts) {
      var i :| 0 <= i < |attempts| && attempts[i].outcome.Failed?;
      assert (attempts + [last])[i].outcome.Failed?;
    }
  }

  /**
   Nothing is lost before the connection: the payloads and the residual are the input,
   and packet `i` is its big-endian number modulo 2^32 and then payload `i`.
   */
  lemma Conservation(network: Network, input: seq<Byte>)
    ensures Flatten(Payloads(input)) + Residual(input) == input
    ensures |Residual(input)| < RAW_PCM_AUDIO_UDP_DATA_SIZE_IN_BYTES
    ensures |Attempts(network, input)| == |Payloads(input)|
    ensures forall i :: 0 <= i < |Attempts(network, input)| ==>
              var packet := Attempts(network, input)[i].packet;
              && |packet| == PCM_AUDIO_PACKET_SIZE_IN_BYTES
              && U32FromBe(packet[..4]) == i % 0x1_0000_0000
              && packet[4..] == Payloads(input)[i]
  {
    ChunksPartition(input, RAW_PCM_AUDIO_UDP_DATA_SIZE_IN_BYTES);
    hide U32FromBe, U32ToBe;
    forall i | 0 <= i < |Attempts(network, input)|
      ensures var packet := Attempts(network, input)[i].packet;
              && |packet| == PCM_AUDIO_PACKET_SIZE_IN_BYTES
              && U32FromBe(packet[..4]) == i % 0x1_0000_0000
              && packet[4..] == Payloads(input)[i]
    {
      var payload, number := Payloads(input)[i], U32ToBe(i % TWO_TO_THE_32);
      assert |payload| == RAW_PCM_AUDIO_UDP_DATA_SIZE_IN_BYTES;
      assert Attempts(network, input)[i].packet == NumberedPacket(i, payload) == number + payload;
      assert (number + payload)[..4] == number && (number + payload)[4..] == payload;
    }
  }

  /** Without a failure every attempt is either sent or counted as dropped. */
  lemma {:induction false} SentOrDropped(attempts: seq<Attempt>)
    requires !Failure(attempts)
    ensures |SentPackets(attempts)| + Dropped(attempts) == |attempts|
  {
    if attempts != [] {
      var front, last := attempts[..|attempts| - 1], attempts[|attempts| - 1];
      assert attempts == front + [last];
      AttemptsAppended(front, last);
      SentOrDropped(front);
    }
  }
}
