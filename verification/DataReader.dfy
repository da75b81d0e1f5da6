/**
 The reading thread of an unreliable connection: packets are ordered, decoded and
 cut into blocks for the speaker callback (`DataReaderThread::data_reading_logic`
 in src/audio/oboe.rs).

 The environment is a script of receive results, an answer to each `try_send` on
 the block channel, and the moment at which the quit flag is seen.
 */
module DataReader {
  import opened Sequences
  import opened Bytes
  import opened Config
  import opened AudioPackets
  import Playback

  type Received = s: seq<Byte> | s != [] witness [0]

  /** What receiving a packet returned; nothing at all means that the peer is gone. */
  datatype Incoming = Disconnected | WouldBlock | ReceiveError | Datagram(packet: Received)

  datatype Event = BufferingDone | DataReaderReadingError | DataReaderSendingError

  /**
   `Refused`: the block channel stayed full. `Panicked`: a packet without a whole
   counter, or with an odd number of audio bytes.
   */
  datatype Outcome = Running | Finished | Refused | Panicked

  const TRY_SEND_LIMIT: nat := 500

  /** Two's complement wrap-around of 32-bit arithmetic. */
  function WrapI32(n: int): I32 {
    AsI32(n % TWO_TO_THE_32)
  }

  /** Division that truncates toward zero. */
  function Truncated(n: int, d: int): int
    requires d > 0
  {
    if n >= 0 then n / d else -(-n / d)
  }

  /** How many blocks are buffered before the stream is started. */
  function InitialBlockCount(framesPerBurst: I32): I32 {
    Truncated(WrapI32(OBOE_BUFFER_BURST_COUNT * framesPerBurst), AUDIO_BLOCK_FRAME_COUNT)
  }

  /**
   The number of the block that ends buffering. A count that is not positive is
   only met after the 32-bit counter has wrapped around.
   */
  function BufferingEnd(initialBlockCount: I32): (n: nat)
    ensures n > 0
  {
    if initialBlockCount > 0 then initialBlockCount else initialBlockCount + TWO_TO_THE_32
  }

  /**
   The blocks buffered at first hold the frames of two bursts, up to less than one
   block; the product wraps as a 32-bit number.
   */
  lemma BurstsBuffered(framesPerBurst: I32)
    ensures var n := InitialBlockCount(framesPerBurst);
            && (0 <= 2 * framesPerBurst < 0x8000_0000 ==> 8 * n <= 2 * framesPerBurst < 8 * n + 8)
            && (-0x8000_0000 <= 2 * framesPerBurst < 0 ==> 8 * n - 8 < 2 * framesPerBurst <= 8 * n)
            && (0x8000_0000 <= 2 * framesPerBurst ==> n <= 0)
            && (2 * framesPerBurst < -0x8000_0000 ==> n >= 0)
  {
  }

  function Blocked(samples: seq<Sample>): seq<seq<Sample>> {
    Chunks(samples, AUDIO_BLOCK_SAMPLE_COUNT)
  }

  function Unblocked(samples: seq<Sample>): seq<Sample> {
    Rest(samples, AUDIO_BLOCK_SAMPLE_COUNT)
  }

  class DataReaderThread {
    const reliable: bool
    const initialBlockCount: I32
    /** Whether the channel was full at each `try_send`. */
    const full: nat -> bool
    /** Whether the quit flag was set at each look at it. */
    const quit: nat -> bool

    const audioPacketManager: AudioPacketManager
    var audioDataBuffer: seq<Sample>
    const bufferI16: array<Sample>
    var trySendCounter: nat
    var bufferingCounter: Option<I32>
    var packetLossCounter: nat
    /** What the thread has put into the channel and sent to the Oboe thread. */
    var pcmDataQueue: seq<Playback.Block>
    var events: seq<Event>

    var tries: nat
    var looks: nat
    /** Every sample of every packet kept so far. */
    ghost var decoded: seq<Sample>

    ghost predicate Valid()
      reads `audioDataBuffer, `trySendCounter, `bufferingCounter, `pcmDataQueue, `decoded
    {
      && bufferI16.Length == AUDIO_BLOCK_SAMPLE_COUNT
      && trySendCounter == 0
      && Flatten(pcmDataQueue) + audioDataBuffer == decoded
      && BufferingMatches(|pcmDataQueue|)
    }

    /** None of these looks at the quit flag saw it. */
    ghost predicate NoneSaw(from: nat, to: int) {
      forall k :: from <= k < to ==> !quit(k)
    }

    /** The last look at the quit flag, and no one before it since `from`, saw it. */
    ghost predicate LastSaw(from: nat)
      reads `looks
    {
      from < looks && quit(looks - 1) && NoneSaw(from, looks - 1)
    }

    /** The channel was full at each of the last tries. */
    ghost predicate StayedFull()
      reads `tries
    {
      TRY_SEND_LIMIT <= tries && forall k :: tries - TRY_SEND_LIMIT <= k < tries ==> full(k)
    }

    /** The packet manager and the loss counter are those of a run that received `read`. */
    ghost predicate Ordered(read: seq<seq<Byte>>)
      requires AllNumbered(read)
      reads `packetLossCounter, audioPacketManager
    {
      !reliable ==>
        && audioPacketManager.State() == AfterAll(Bit15, START, Counters(read))
        && packetLossCounter == Account(Bit15, START, Counters(read)).reported
    }

    /** The state after the packets `read`, if the thread is still running. */
    ghost predicate Tracks(read: seq<seq<Byte>>)
      reads `audioDataBuffer, `trySendCounter, `bufferingCounter, `pcmDataQueue, `decoded, `packetLossCounter,
            audioPacketManager
    {
      && Valid()
      && AllNumbered(read)
      && Ordered(read)
      && decoded == KeptAudio(reliable, read)
      && |audioDataBuffer| < AUDIO_BLOCK_SAMPLE_COUNT
    }

    /** The buffering counter counts the blocks queued, until the initial count is met. */
    ghost predicate BufferingMatches(blocks: nat)
      reads `bufferingCounter
    {
      bufferingCounter ==
      if blocks < BufferingEnd(initialBlockCount) then Some(WrapI32(blocks)) else None
    }

    constructor (reliable: bool, framesPerBurst: I32, full: nat -> bool, quit: nat -> bool)
      ensures fresh(audioPacketManager) && fresh(bufferI16)
      ensures this.reliable == reliable && initialBlockCount == InitialBlockCount(framesPerBurst)
      ensures this.full == full && this.quit == quit
      ensures Tracks([]) && pcmDataQueue == [] && events == []
    {
      this.reliable, this.initialBlockCount := reliable, InitialBlockCount(framesPerBurst);
      this.full, this.quit := full, quit;
      audioPacketManager := new AudioPacketManager();
      bufferI16 := new Sample[AUDIO_BLOCK_SAMPLE_COUNT](i => 0);
      audioDataBuffer, pcmDataQueue, events, decoded := [], [], [], [];
      trySendCounter, packetLossCounter, tries, looks := 0, 0, 0, 0;
      bufferingCounter := Some(0);
      new;
    }

    /** Retries until the channel takes the block; it is queued once, or never. */
    method SendBlock(block: Playback.Block) returns (sent: bool)
      requires trySendCounter < TRY_SEND_LIMIT
      modifies `tries, `trySendCounter, `pcmDataQueue, `events
      ensures sent ==> pcmDataQueue == old(pcmDataQueue) + [block] && events == old(events) && trySendCounter == 0
      ensures !sent ==> pcmDataQueue == old(pcmDataQueue) && events == old(events) + [DataReaderSendingError]
      ensures !sent ==> forall k :: old(tries) <= k < tries ==> full(k)
      ensures !sent ==> tries - old(tries) == TRY_SEND_LIMIT - old(trySendCounter)
      ensures sent ==> old(tries) < tries && !full(tries - 1) && forall k :: old(tries) <= k < tries - 1 ==> full(k)
    {
      while true
        invariant trySendCounter < TRY_SEND_LIMIT
        invariant tries - old(tries) == trySendCounter - old(trySendCounter) >= 0
        invariant pcmDataQueue == old(pcmDataQueue) && events == old(events)
        invariant forall k :: old(tries) <= k < tries ==> full(k)
        decreases TRY_SEND_LIMIT - trySendCounter
      {
        var isFull := full(tries);
        tries := tries + 1;
        if !isFull {
          pcmDataQueue := pcmDataQueue + [block];
          trySendCounter := 0;
          return true;
        }
        trySendCounter := trySendCounter + 1;
        if trySendCounter == TRY_SEND_LIMIT {
          // The audio stream is probably broken.
          events := events + [DataReaderSendingError];
          return false;
        }
      }
    }

    /** Counts one more queued block. */
    method CountBlock()
      requires pcmDataQueue != [] && BufferingMatches(|pcmDataQueue| - 1)
      modifies `bufferingCounter, `events
      ensures BufferingMatches(|pcmDataQueue|)
      ensures events == old(events) +
                if |pcmDataQueue| == BufferingEnd(initialBlockCount) then [BufferingDone] else []
    {
      if bufferingCounter.Some? {
        WrapStep(|pcmDataQueue| - 1);
        WrapMeets(|pcmDataQueue|, initialBlockCount);
        var counter := WrapI32(bufferingCounter.value + 1);
        bufferingCounter := Some(counter);
        if counter == initialBlockCount {
          events := events + [BufferingDone];
          bufferingCounter := None;
        }
      }
    }

    /** Takes one block off the front of the buffer. */
    method PopBlock()
      requires bufferI16.Length == AUDIO_BLOCK_SAMPLE_COUNT <= |audioDataBuffer|
      modifies `audioDataBuffer, bufferI16
      ensures bufferI16[..] == old(audioDataBuffer)[..AUDIO_BLOCK_SAMPLE_COUNT]
      ensures audioDataBuffer == old(audioDataBuffer)[AUDIO_BLOCK_SAMPLE_COUNT..]
    {
      for i := 0 to bufferI16.Length
        invariant audioDataBuffer == old(audioDataBuffer)[i..]
        invariant forall j :: 0 <= j < i ==> bufferI16[j] == old(audioDataBuffer)[j]
      {
        bufferI16[i] := audioDataBuffer[0];
        audioDataBuffer := audioDataBuffer[1..];
      }
    }

    /** Moves one block from the buffer to the channel. */
    method MoveBlock() returns (sent: bool)
      requires Valid() && |audioDataBuffer| >= AUDIO_BLOCK_SAMPLE_COUNT
      modifies `audioDataBuffer, bufferI16, `trySendCounter, `bufferingCounter, `pcmDataQueue, `events, `tries
      ensures Flatten(pcmDataQueue) <= decoded
      ensures if sent then
                && Valid()
                && |pcmDataQueue| == |old(pcmDataQueue)| + 1
                && old(pcmDataQueue) <= pcmDataQueue
                && events == old(events) + NewEvents(|old(pcmDataQueue)|, |pcmDataQueue|)
              else
                && pcmDataQueue == old(pcmDataQueue)
                && events == old(events) + [DataReaderSendingError]
                && StayedFull()
      ensures |audioDataBuffer| == |old(audioDataBuffer)| - AUDIO_BLOCK_SAMPLE_COUNT
    {
      hide Flatten;
      BlockMoved(pcmDataQueue, audioDataBuffer, AUDIO_BLOCK_SAMPLE_COUNT);
      PopBlock();
      sent := SendBlock(bufferI16[..]);
      if sent {
        CountBlock();
      }
    }

    /** Moves full blocks from the buffer to the channel, until the quit flag is seen after one of them. */
    method DrainBlocks() returns (outcome: Outcome)
      requires Valid()
      modifies `audioDataBuffer, bufferI16, `trySendCounter, `bufferingCounter, `pcmDataQueue, `events, `tries, `looks
      ensures old(pcmDataQueue) <= pcmDataQueue && outcome != Panicked
      ensures Flatten(pcmDataQueue) <= decoded
      ensures outcome == Running ==> Valid() && |audioDataBuffer| < AUDIO_BLOCK_SAMPLE_COUNT
      ensures events == old(events) + NewEvents(|old(pcmDataQueue)|, |pcmDataQueue|) +
                        if outcome == Refused then [DataReaderSendingError] else []
      ensures outcome == Running ==> NoneSaw(old(looks), looks)
      ensures outcome == Finished ==> LastSaw(old(looks))
      ensures outcome == Refused ==> NoneSaw(old(looks), looks) && StayedFull()
      ensures looks - old(looks) == |pcmDataQueue| - |old(pcmDataQueue)|
    {
      hide Flatten, NewEvents, Valid, StayedFull;
      NewEventsNone(|pcmDataQueue|);
      ValidQueue();
      while |audioDataBuffer| >= AUDIO_BLOCK_SAMPLE_COUNT
        invariant Valid() && Flatten(pcmDataQueue) <= decoded && old(pcmDataQueue) <= pcmDataQueue
        invariant events == old(events) + NewEvents(|old(pcmDataQueue)|, |pcmDataQueue|)
        invariant NoneSaw(old(looks), looks)
        invariant looks - old(looks) == |pcmDataQueue| - |old(pcmDataQueue)|
        decreases |audioDataBuffer|
      {
        NewEventsStep(|old(pcmDataQueue)|, |pcmDataQueue|);
        var sent := MoveBlock();
        if !sent {
          return Refused;
        }

        var seen := quit(looks);
        looks := looks + 1;
        if seen {
          return Finished;
        }
      }
      outcome := Running;
    }

    /** Whether the packet is to be played; a reliable connection is not checked. */
    method OrderPacket(packetCounter: U32, ghost before: seq<seq<Byte>>, ghost packet: seq<Byte>) returns (keep: bool)
      requires Numbered(packet) && packetCounter == Counter(packet)
      requires AllNumbered(before) && Ordered(before)
      modifies `packetLossCounter, audioPacketManager
      ensures AllNumbered(before + [packet]) && Ordered(before + [packet])
      ensures keep <==> Keeps(reliable, before, packet)
    {
      if reliable {
        return true;
      }
      ManagerSnoc(before, packet);
      hide AfterAll, Account, Check;
      var status := audioPacketManager.CheckPacket(packetCounter);
      match status {
        case Normal => keep := true;
        case Discard => keep := false;
        case PacketLoss(packetLoss) =>
          packetLossCounter := packetLossCounter + packetLoss;
          keep := true;
      }
    }

    /** One packet: order it, decode it and pass on the blocks that are complete. */
    method HandlePacket(packet: seq<Byte>, ghost before: seq<seq<Byte>>) returns (outcome: Outcome)
      requires Tracks(before)
      modifies `audioDataBuffer, bufferI16, `trySendCounter, `bufferingCounter, `pcmDataQueue, `events, `tries, `looks,
               `packetLossCounter, `decoded, audioPacketManager
      ensures AllNumbered(before)
      ensures old(pcmDataQueue) <= pcmDataQueue
      ensures outcome == Panicked <==> !Readable(reliable, before, packet)
      ensures outcome == Panicked ==> pcmDataQueue == old(pcmDataQueue) && events == old(events)
      ensures outcome == Running ==> Tracks(before + [packet])
      ensures outcome == Finished || outcome == Refused ==>
                && AllNumbered(before + [packet])
                && Flatten(pcmDataQueue) <= KeptAudio(reliable, before + [packet])
      ensures events == old(events) + NewEvents(|old(pcmDataQueue)|, |pcmDataQueue|) +
                        if outcome == Refused then [DataReaderSendingError] else []
      ensures outcome == Running || outcome == Panicked ==> NoneSaw(old(looks), looks)
      ensures outcome == Finished ==> LastSaw(old(looks))
      ensures outcome == Refused ==> NoneSaw(old(looks), looks) && StayedFull()
      ensures looks - old(looks) == |pcmDataQueue| - |old(pcmDataQueue)|
    {
      hide AfterAll, Account, Check, KeptAudio, Flatten, Chunks, NewEvents, Ordered, Keeps, StayedFull;
      NewEventsNone(|pcmDataQueue|);
      if |packet| < PACKET_COUNTER_SIZE {
        return Panicked;
      }
      var packetCounterBytes, audioData := packet[..PACKET_COUNTER_SIZE], packet[PACKET_COUNTER_SIZE..];
      KeptAudioSnoc(reliable, before, packet);

      var keep := OrderPacket(U32FromBe(packetCounterBytes), before, packet);
      if !keep {
        return Running;
      }
      if |audioData| % 2 != 0 {
        return Panicked;
      }

      ConcatAssociative(Flatten(pcmDataQueue), audioDataBuffer, DecodeSamples(audioData));
      audioDataBuffer := audioDataBuffer + DecodeSamples(audioData);
      decoded := decoded + DecodeSamples(audioData);
      outcome := DrainBlocks();
    }

    /** Packets are thrown away until a receive fails or the quit flag is seen. */
    method ReadPacketsAndWaitQuit(script: seq<Incoming>) returns (discarded: nat)
      modifies `looks
      ensures discarded <= |script|
      ensures forall i :: 0 <= i < discarded - 1 ==> script[i].Datagram?
      ensures looks == old(looks) + discarded - if discarded > 0 && !script[discarded - 1].Datagram? then 1 else 0
      ensures NoneSaw(old(looks), looks - 1)
      ensures discarded < |script| ==> discarded > 0 && (script[discarded - 1].Datagram? ==> LastSaw(old(looks)))
    {
      discarded := 0;
      while discarded < |script|
        invariant discarded <= |script| && looks == old(looks) + discarded
        invariant forall i :: 0 <= i < discarded ==> script[i].Datagram?
        invariant NoneSaw(old(looks), looks)
      {
        discarded := discarded + 1;
        if !script[discarded - 1].Datagram? {
          return;
        }
        var seen := quit(looks);
        looks := looks + 1;
        if seen {
          return;
        }
      }
    }

    /** One result of a receive. */
    method HandleReceived(incoming: Incoming, ghost before: seq<seq<Byte>>) returns (outcome: Outcome)
      requires Tracks(before)
      modifies `audioDataBuffer, bufferI16, `trySendCounter, `bufferingCounter, `pcmDataQueue, `events, `tries, `looks,
               `packetLossCounter, `decoded, audioPacketManager
      ensures AllNumbered(before) && old(pcmDataQueue) == Blocked(KeptAudio(reliable, before))
      ensures old(pcmDataQueue) <= pcmDataQueue
      ensures var after := before + if incoming.Datagram? then [incoming.packet] else [];
              && (outcome == Running ==> Tracks(after))
              && (outcome != Panicked ==> AllNumbered(after) && pcmDataQueue <= Blocked(KeptAudio(reliable, after)))
      ensures outcome == Panicked <==> incoming.Datagram? && !Readable(reliable, before, incoming.packet)
      ensures outcome == Panicked ==> pcmDataQueue == old(pcmDataQueue)
      ensures Fails(incoming) ==> outcome == Finished && pcmDataQueue == old(pcmDataQueue)
      ensures events == old(events) + NewEvents(|old(pcmDataQueue)|, |pcmDataQueue|) +
                        if Fails(incoming) then [DataReaderReadingError]
                        else if outcome == Refused then [DataReaderSendingError] else []
      ensures if outcome == Finished && !Fails(incoming) then LastSaw(old(looks)) else NoneSaw(old(looks), looks)
      ensures outcome == Refused ==> StayedFull()
      ensures looks - old(looks) == |pcmDataQueue| - |old(pcmDataQueue)| + if incoming.WouldBlock? then 1 else 0
    {
      hide AfterAll, Account, Check, KeptAudio, Flatten, Chunks, Rest, NewEvents, Ordered, Keeps, StayedFull;
      NewEventsNone(|pcmDataQueue|);
      assert before + [] == before;
      BlockedQueue(pcmDataQueue, audioDataBuffer, decoded);
      match incoming {
        case Disconnected =>
          events := events + [DataReaderReadingError];
          outcome := Finished;
        case ReceiveError =>
          events := events + [DataReaderReadingError];
          outcome := Finished;
        case WouldBlock =>
          var seen := quit(looks);
          looks := looks + 1;
          outcome := if seen then Finished else Running;
        case Datagram(packet) =>
          outcome := HandlePacket(packet, before);
          if outcome == Running {
            BlockedQueue(pcmDataQueue, audioDataBuffer, decoded);
          } else if outcome != Panicked {
            QueuedBlocks(pcmDataQueue, KeptAudio(reliable, before + [packet]));
          }
      }
    }

    /**
     Reads until the script ends (`Running`), the connection fails, the channel stays
     full, the quit flag is seen, or a packet cannot be split. `consumed` is the
     number of receive results that were handled, `discarded` of those read after that.
     It finishes for one of three causes only: the last receive handled has failed, the
     quit flag was seen at the last look, or the channel was full 500 times in a row.
     There is a look at the flag after each block and whenever nothing has arrived.
     */
    method DataReadingLogic(script: seq<Incoming>) returns (outcome: Outcome, consumed: nat, discarded: nat)
      requires Tracks([]) && pcmDataQueue == [] && events == []
      modifies `audioDataBuffer, bufferI16, `trySendCounter, `bufferingCounter, `pcmDataQueue, `events, `tries, `looks,
               `packetLossCounter, `decoded, audioPacketManager
      ensures consumed + discarded <= |script| && AllNumbered(Datagrams(script[..consumed]))
      ensures outcome != Refused && (outcome != Finished ==> discarded == 0)
      ensures discarded > 0 ==> events != [] && events[|events| - 1] == DataReaderSendingError
      ensures forall i :: consumed <= i < consumed + discarded - 1 ==> script[i].Datagram?
      ensures outcome == Running ==> consumed == |script| && Tracks(Datagrams(script))
      ensures outcome == Panicked ==>
                && consumed < |script|
                && script[consumed].Datagram?
                && !Readable(reliable, Datagrams(script[..consumed]), script[consumed].packet)
      ensures var audio := KeptAudio(reliable, Datagrams(script[..consumed]));
              && (outcome == Finished ==> pcmDataQueue <= Blocked(audio))
              && (outcome != Finished ==> pcmDataQueue == Blocked(audio))
              && (outcome == Running ==> audioDataBuffer == Unblocked(audio))
      ensures outcome != Finished ==> events == NewEvents(0, |pcmDataQueue|) && NoneSaw(old(looks), looks)
      ensures discarded == 0 ==> looks == old(looks) + |pcmDataQueue| + CountIdle(script[..consumed])
      ensures outcome == Finished ==> consumed > 0
      ensures forall i :: 0 <= i < consumed && Fails(script[i]) ==> outcome == Finished && i == consumed - 1
      ensures outcome == Finished && Fails(script[consumed - 1]) ==>
                && pcmDataQueue == Blocked(KeptAudio(reliable, Datagrams(script[..consumed])))
                && events == NewEvents(0, |pcmDataQueue|) + [DataReaderReadingError]
                && discarded == 0
                && NoneSaw(old(looks), looks)
      ensures outcome == Finished && !Fails(script[consumed - 1]) ==>
                || (events == NewEvents(0, |pcmDataQueue|) && discarded == 0 && LastSaw(old(looks)))
                || (events == NewEvents(0, |pcmDataQueue|) + [DataReaderSendingError] && StayedFull())
    {
      hide AfterAll, Account, Check, KeptAudio, Flatten, Chunks, Rest, NewEvents, Ordered, Keeps, StayedFull, Readable,
           Tracks, Valid, Blocked, Unblocked, AllNumbered, Datagrams, CountIdle;
      NewEventsNone(0);
      consumed, discarded, outcome := 0, 0, Running;
      NothingReceived(script);
      while consumed < |script|
        invariant consumed <= |script| && outcome == Running && discarded == 0
        invariant Tracks(Datagrams(script[..consumed]))
        invariant events == NewEvents(0, |pcmDataQueue|)
        invariant NoneSaw(old(looks), looks)
        invariant looks == old(looks) + |pcmDataQueue| + CountIdle(script[..consumed])
        invariant forall i :: 0 <= i < consumed ==> !Fails(script[i])
      {
        DatagramsTaken(script, consumed);
        ghost var queued := |pcmDataQueue|;
        outcome := HandleReceived(script[consumed], Datagrams(script[..consumed]));
        NewEventsAdd(0, queued, |pcmDataQueue|);
        if outcome == Panicked {
          return Panicked, consumed, 0;
        }
        consumed := consumed + 1;
        if outcome == Finished {
          return Finished, consumed, 0;
        }
        if outcome == Refused {
          discarded := ReadPacketsAndWaitQuit(script[consumed..]);
          return Finished, consumed, discarded;
        }
      }
      assert script[..consumed] == script;
      TracksQueue(Datagrams(script));
    }

    lemma TracksQueue(read: seq<seq<Byte>>)
      requires Tracks(read)
      ensures AllNumbered(read)
      ensures pcmDataQueue == Blocked(KeptAudio(reliable, read)) && audioDataBuffer == Unblocked(KeptAudio(reliable, read))
    {
      hide KeptAudio, Flatten, Chunks, Rest, Ordered;
      BlockedQueue(pcmDataQueue, audioDataBuffer, decoded);
    }

    /** Queueing up to the end of buffering sends the event; nothing before or after does. */
    ghost function NewEvents(before: nat, after: nat): seq<Event> {
      if before < BufferingEnd(initialBlockCount) <= after then [BufferingDone] else []
    }

    lemma NewEventsNone(n: nat)
      ensures NewEvents(n, n) == []
    {
    }

    lemma NewEventsStep(before: nat, after: nat)
      requires before <= after
      ensures NewEvents(before, after + 1) == NewEvents(before, after) + NewEvents(after, after + 1)
    {
    }

    lemma NewEventsAdd(before: nat, between: nat, after: nat)
      requires before <= between <= after
      ensures NewEvents(before, after) == NewEvents(before, between) + NewEvents(between, after)
    {
    }

    lemma ValidQueue()
      requires Valid()
      ensures Flatten(pcmDataQueue) <= decoded
    {
    }
  }

  /** A receive that ends the thread. */
  predicate Fails(incoming: Incoming) {
    incoming.Disconnected? || incoming.ReceiveError?
  }

  function Datagrams(script: seq<Incoming>): seq<seq<Byte>> {
    if script == [] then []
    else
      var last := script[|script| - 1];
      Datagrams(script[..|script| - 1]) + if last.Datagram? then [last.packet] else []
  }

  predicate Numbered(packet: seq<Byte>) {
    |packet| >= PACKET_COUNTER_SIZE
  }

  predicate AllNumbered(packets: seq<seq<Byte>>) {
    forall i :: 0 <= i < |packets| ==> Numbered(packets[i])
  }

  function Counter(packet: seq<Byte>): U32
    requires Numbered(packet)
  {
    U32FromBe(packet[..PACKET_COUNTER_SIZE])
  }

  function Counters(packets: seq<seq<Byte>>): (counters: seq<U32>)
    requires AllNumbered(packets)
    ensures |counters| == |packets|
  {
    seq(|packets|, i requires 0 <= i < |packets| => Counter(packets[i]))
  }

  /** A reliable connection keeps every packet; otherwise the packet manager decides. */
  predicate Keeps(reliable: bool, before: seq<seq<Byte>>, packet: seq<Byte>)
    requires AllNumbered(before) && Numbered(packet)
  {
    reliable || Accepts(Bit15, AfterAll(Bit15, START, Counters(before)), Counter(packet))
  }

  /** A packet needs a counter, and whole samples if it is to be played. */
  predicate Readable(reliable: bool, before: seq<seq<Byte>>, packet: seq<Byte>)
    requires AllNumbered(before)
  {
    Numbered(packet) && (Keeps(reliable, before, packet) ==> |packet| % 2 == 0)
  }

  /** The decoded samples of the packets kept, in order of arrival. */
  function KeptAudio(reliable: bool, packets: seq<seq<Byte>>): seq<Sample>
    requires AllNumbered(packets)
  {
    if packets == [] then []
    else
      var front, last := packets[..|packets| - 1], packets[|packets| - 1];
      KeptAudio(reliable, front) +
      if Keeps(reliable, front, last) then DecodeSamples(last[PACKET_COUNTER_SIZE..]) else []
  }

  /** The samples of each packet. */
  function Decoded(packets: seq<seq<Byte>>): (audio: seq<seq<Sample>>)
    requires AllNumbered(packets)
    ensures |audio| == |packets|
  {
    seq(|packets|, i requires 0 <= i < |packets| => DecodeSamples(packets[i][PACKET_COUNTER_SIZE..]))
  }

  /** A reliable connection has no order to check: whatever the numbers are, every packet is played. */
  lemma {:induction false} ReliableKeepsAll(packets: seq<seq<Byte>>)
    requires AllNumbered(packets)
    ensures KeptAudio(true, packets) == Flatten(Decoded(packets))
  {
    if packets != [] {
      var front, last := packets[..|packets| - 1], packets[|packets| - 1];
      ReliableKeepsAll(front);
      assert Decoded(packets) == Decoded(front) + [DecodeSamples(last[PACKET_COUNTER_SIZE..])];
      FlattenAppend(Decoded(front), DecodeSamples(last[PACKET_COUNTER_SIZE..]));
    }
  }

  lemma KeptAudioSnoc(reliable: bool, front: seq<seq<Byte>>, last: seq<Byte>)
    requires AllNumbered(front) && Numbered(last)
    ensures AllNumbered(front + [last])
    ensures KeptAudio(reliable, front + [last]) ==
              KeptAudio(reliable, front) +
              if Keeps(reliable, front, last) then DecodeSamples(last[PACKET_COUNTER_SIZE..]) else []
  {
    assert (front + [last])[..|front|] == front;
  }

  lemma CountersSnoc(front: seq<seq<Byte>>, last: seq<Byte>)
    requires AllNumbered(front) && Numbered(last)
    ensures AllNumbered(front + [last])
    ensures Counters(front + [last]) == Counters(front) + [Counter(last)]
  {
  }

  /** One more arrival, for the manager and for the count of lost packets. */
  lemma ManagerSnoc(front: seq<seq<Byte>>, last: seq<Byte>)
    requires AllNumbered(front) && Numbered(last)
    ensures AllNumbered(front + [last])
    ensures var before, after := Counters(front), Counters(front + [last]);
            var e := AfterAll(Bit15, START, before);
            var status := Status(Bit15, e, Counter(last));
            && AfterAll(Bit15, START, after) == Next(Bit15, e, Counter(last))
            && Account(Bit15, START, after).reported ==
                 Account(Bit15, START, before).reported + (if status.PacketLoss? then status.lost else 0)
  {
    CountersSnoc(front, last);
    var before := Counters(front);
    AccountExpected(before);
    assert (before + [Counter(last)])[..|before|] == before;
  }

  lemma {:induction false} AccountExpected(counters: seq<U32>)
    ensures Account(Bit15, START, counters).expected == AfterAll(Bit15, START, counters)
  {
    if counters != [] {
      AccountExpected(counters[..|counters| - 1]);
    }
  }

  /** The receive results without a packet. */
  function CountIdle(script: seq<Incoming>): nat {
    if script == [] then 0
    else CountIdle(script[..|script| - 1]) + if script[|script| - 1].WouldBlock? then 1 else 0
  }

  lemma NothingReceived(script: seq<Incoming>)
    ensures Datagrams(script[..0]) == [] && CountIdle(script[..0]) == 0
  {
  }

  lemma DatagramsTaken(script: seq<Incoming>, i: nat)
    requires i < |script|
    ensures Datagrams(script[..i + 1]) ==
              Datagrams(script[..i]) + if script[i].Datagram? then [script[i].packet] else []
    ensures !script[i].Datagram? ==> Datagrams(script[..i + 1]) == Datagrams(script[..i])
    ensures CountIdle(script[..i + 1]) == CountIdle(script[..i]) + if script[i].WouldBlock? then 1 else 0
  {
    assert script[..i + 1][..i] == script[..i];
  }

  /** With less than a block left over, the queue holds every whole block. */
  lemma BlockedQueue(queue: seq<Playback.Block>, buffer: seq<Sample>, samples: seq<Sample>)
    requires Flatten(queue) + buffer == samples && |buffer| < AUDIO_BLOCK_SAMPLE_COUNT
    ensures queue == Blocked(samples) && buffer == Unblocked(samples)
  {
    ChunksUnique(samples, AUDIO_BLOCK_SAMPLE_COUNT, queue, buffer);
  }

  /** Blocks that are a prefix of the samples, laid end to end, are the first blocks of them. */
  lemma QueuedBlocks(queue: seq<Playback.Block>, samples: seq<Sample>)
    requires Flatten(queue) <= samples
    ensures queue <= Blocked(samples)
  {
    var front := Flatten(queue);
    assert front + [] == front;
    ChunksUnique(front, AUDIO_BLOCK_SAMPLE_COUNT, queue, []);
    ChunksMonotonic(front, samples[|front|..], AUDIO_BLOCK_SAMPLE_COUNT);
    assert front + samples[|front|..] == samples;
  }

  lemma WrapStep(n: nat)
    ensures WrapI32(WrapI32(n) + 1) == WrapI32(n + 1)
  {
  }

  /** Up to the end of buffering, the wrapped count meets the initial one only there. */
  lemma WrapMeets(n: nat, initialBlockCount: I32)
    requires 0 < n <= BufferingEnd(initialBlockCount)
    ensures WrapI32(n) == initialBlockCount <==> n == BufferingEnd(initialBlockCount)
  {
  }

  lemma BlockMoved(queue: seq<seq<Sample>>, buffer: seq<Sample>, n: nat)
    requires n <= |buffer|
    ensures Flatten(queue + [buffer[..n]]) + buffer[n..] == Flatten(queue) + buffer
  {
    FlattenAppend(queue, buffer[..n]);
    hide Flatten;
    ConcatAssociative(Flatten(queue), buffer[..n], buffer[n..]);
    assert buffer[..n] + buffer[n..] == buffer;
  }
}
