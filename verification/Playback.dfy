/**
 What the speaker callback plays, on values: the state behind
 src/audio/oboe/callback_mode.rs and its single-chunk step. `CallbackMode` has the
 classes that carry it out in place.

 A link or a channel holds everything that is still going to arrive on it, in
 order; `arrivals` tells, for each nonblocking receive, how much of it was there
 already: bytes of a stream, packets of a channel. Every timing of the peer is some
 choice of the two.
 */
module Playback {
  import opened Sequences
  import opened Bytes
  import opened Config
  import TcpData

  type Block = s: seq<Sample> | |s| == AUDIO_BLOCK_SAMPLE_COUNT witness Silence(AUDIO_BLOCK_SAMPLE_COUNT)
  type Payload = s: seq<Sample> | |s| == RAW_PCM_AUDIO_UDP_DATA_SIZE_IN_SAMPLES
    witness Silence(RAW_PCM_AUDIO_UDP_DATA_SIZE_IN_SAMPLES)

  type Arrivals = nat -> nat

  function Silence(n: nat): (s: seq<Sample>)
    ensures |s| == n
  {
    Repeat(0, n)
  }

  /** A reliable data connection seen from the receiver. */
  datatype Link = TcpLink(stream: seq<Byte>) | UsbLink(packets: seq<seq<Byte>>)

  /** `Overrun` is a size past the receive buffer: slicing the buffer panics. */
  datatype Arrival = Packet(bytes: seq<Byte>) | NoData | Closed | IoError | Overrun

  function LinkReceive(link: Link, limit: nat, nonblocking: bool, arrived: nat): (Link, Arrival) {
    match link
    case TcpLink(stream) =>
      (match if nonblocking then TcpData.ReceiveSome(stream, limit, arrived) else TcpData.Receive(stream, limit)
       case UnexpectedEof => (TcpLink([]), IoError)
       case NothingYet(rest) => (TcpLink(rest), NoData)
       case Packet(bytes, rest) => (TcpLink(rest), if bytes == [] then Closed else Packet(bytes)))
    case UsbLink(packets) =>
      if nonblocking && arrived == 0 then (link, NoData)
      else if packets == [] then (link, IoError)
      else
        (UsbLink(packets[1..]),
         if packets[0] == [] then Closed else if |packets[0]| > limit then Overrun else Packet(packets[0]))
  }

  /** The value of an `AudioBuffer`. */
  datatype DirectBuffer = DirectBuffer(queue: seq<Payload>, buffer: Payload, started: bool) {
    predicate Full() {
      |queue| >= DIRECT_MODE_BUFFERING_COUNT
    }

    predicate NewDataRequired() {
      if started then queue == [] else !Full()
    }

    /** Samples overwrite the front of `before`; a short packet leaves the rest of it. */
    function Overwrite(before: Payload, audio: seq<Byte>): Payload {
      var samples := DecodeSamples(audio);
      if |samples| < |before| then samples + before[|samples|..] else samples[..|before|]
    }

    function Add(packet: seq<Byte>): DirectBuffer
      requires |packet| >= PACKET_COUNTER_SIZE
    {
      var audio := packet[PACKET_COUNTER_SIZE..];
      if started then
        this.(buffer := Overwrite(buffer, audio))
      else
        var longer := this.(queue := queue + [Overwrite(Silence(RAW_PCM_AUDIO_UDP_DATA_SIZE_IN_SAMPLES), audio)]);
        longer.(started := longer.Full())
    }

    function Taken(): DirectBuffer {
      if started && queue != [] then this.(queue := queue[1..], buffer := queue[0]) else this
    }
  }

  datatype Source =
    | Blocks(channel: seq<Block>, block: Block)
    | Direct(link: Link, nonblocking: bool, buffer: DirectBuffer)

  datatype Player = Player(source: Source, written: nat, polls: nat) {
    function Size(): nat {
      if source.Blocks? then AUDIO_BLOCK_SAMPLE_COUNT else RAW_PCM_AUDIO_UDP_DATA_SIZE_IN_SAMPLES
    }

    predicate Valid() {
      written <= Size()
    }

    function Current(): (data: seq<Sample>)
      ensures |data| == Size()
    {
      if source.Blocks? then source.block else source.buffer.buffer
    }

    /** In direct mode, reading the current data first moves on to a queued payload. */
    function Settled(): Player {
      if source.Direct? then this.(source := source.(buffer := source.buffer.Taken())) else this
    }
  }

  /** A new callback state; the direct connection is switched to nonblocking before. */
  function DirectPlayer(link: Link): Player {
    Player(Direct(link, true, DirectBuffer([], Silence(RAW_PCM_AUDIO_UDP_DATA_SIZE_IN_SAMPLES), false)), 0, 0)
  }

  function BlockPlayer(channel: seq<Block>): Player {
    Player(Blocks(channel, Silence(AUDIO_BLOCK_SAMPLE_COUNT)), 0, 0)
  }

  /** `Stopped` makes the callback return its error status; `Panicked` aborts it. */
  datatype Step = Ready(player: Player) | Stopped(player: Player) | Panicked(player: Player)

  /** Called when all current data has been written. */
  function Refill(p: Player, arrivals: Arrivals): Step {
    match p.source
    case Blocks(channel, block) =>
      if channel == [] then Stopped(p) else Ready(p.(source := Blocks(channel[1..], channel[0]), written := 0))
    case Direct(link, nonblocking, buffer) =>
      if !buffer.NewDataRequired() then Ready(p.(written := 0))
      else
        var (rest, arrival) :=
          LinkReceive(link, PCM_AUDIO_PACKET_SIZE_IN_BYTES, nonblocking, arrivals(p.polls));
        var q := p.(source := p.source.(link := rest), polls := p.polls + if nonblocking then 1 else 0);
        match arrival
        case NoData => if buffer.started then Stopped(q) else Ready(q.(written := 0))
        case Closed => Stopped(q)
        case IoError => Stopped(q)
        case Overrun => Panicked(q)
        case Packet(bytes) =>
          if |bytes| < PACKET_COUNTER_SIZE then Panicked(q)
          else
            var added := buffer.Add(bytes);
            Ready(q.(source := Direct(rest, nonblocking && !added.started, added), written := 0))
  }

  datatype Chunk = Chunk(player: Player, samples: seq<Sample>) | NoChunk(step: Step)

  function Refilled(p: Player, arrivals: Arrivals): (step: Step)
    requires p.Valid()
    ensures step.Ready? ==> step.player.Valid()
  {
    if p.written == p.Size() then Refill(p, arrivals) else Ready(p)
  }

  /** What is left of the current data, as far as the request reaches. */
  function TakeChunk(q: Player, request: nat): (c: Chunk)
    requires q.Valid()
    ensures c.Chunk? && c.player.Valid()
    ensures |c.samples| <= request && (request > 0 && q.written < q.Size() ==> c.samples != [])
  {
    var unwritten := q.Current()[q.written..];
    var n := if |unwritten| < request then |unwritten| else request;
    Chunk(q.(written := q.written + n), unwritten[..n])
  }

  /** One call of `get_new_data`. */
  function Pull(p: Player, request: nat, arrivals: Arrivals): (c: Chunk)
    requires p.Valid()
    ensures c.Chunk? ==> c.player.Valid() && |c.samples| <= request && (request > 0 ==> c.samples != [])
  {
    var step := Refilled(p, arrivals);
    if step.Ready? then TakeChunk(step.player.Settled(), request) else NoChunk(step)
  }

  /** A packet is there, and it is too short for its counter or too long for the receive buffer. */
  predicate Malformed(packets: seq<seq<Byte>>) {
    packets != [] && packets[0] != [] &&
    (|packets[0]| < PACKET_COUNTER_SIZE || |packets[0]| > PCM_AUDIO_PACKET_SIZE_IN_BYTES)
  }

  /** What a receive finds in the bytes that are there: the size of a whole frame, as far as the buffer takes it. */
  function WholeFrame(there: seq<Byte>): Option<nat> {
    if |there| < 2 then None
    else
      var size: int := U16FromBe(there[..2]);
      var part: nat := if size < PCM_AUDIO_PACKET_SIZE_IN_BYTES then size else PCM_AUDIO_PACKET_SIZE_IN_BYTES;
      if |there| < 2 + part then None else Some(part)
  }

  /** The bytes that one receive can see; a nonblocking one sees the end only when all of them are there. */
  function Seen(stream: seq<Byte>, nonblocking: bool, arrived: nat): seq<Byte> {
    if nonblocking && arrived <= |stream| then stream[..arrived] else stream
  }

  /**
   When a call ends the playing over USB: only with nothing left to play. Then it panics
   on a malformed packet, and stops on an empty one, at the end of the channel, and, once
   playing has started, when there is none.
   */
  lemma UsbCallEnds(p: Player, request: nat, arrivals: Arrivals)
    requires p.Valid() && p.source.Direct? && p.source.link.UsbLink?
    ensures var c, packets := Pull(p, request, arrivals), p.source.link.packets;
            var waits := p.source.nonblocking && arrivals(p.polls) == 0;
            if p.written < p.Size() || p.source.buffer.queue != [] then c.Chunk?
            else
              && (c.NoChunk? && c.step.Panicked? <==> !waits && Malformed(packets))
              && (c.NoChunk? && c.step.Stopped? <==>
                    if waits then p.source.buffer.started else packets == [] || packets[0] == [])
              && (c.NoChunk? ==> !c.step.Ready?)
  {
    hide DecodeSamples;
  }

  /** Over TCP a frame is never too long, as what does not fit is left in the stream, and an unfinished one is as none. */
  lemma TcpCallEnds(p: Player, request: nat, arrivals: Arrivals)
    requires p.Valid() && p.source.Direct? && p.source.link.TcpLink?
    ensures var c, stream := Pull(p, request, arrivals), p.source.link.stream;
            var frame := WholeFrame(Seen(stream, p.source.nonblocking, arrivals(p.polls)));
            var waits := p.source.nonblocking && arrivals(p.polls) <= |stream|;
            if p.written < p.Size() || p.source.buffer.queue != [] then c.Chunk?
            else
              && (c.NoChunk? && c.step.Panicked? <==> frame.Some? && 0 < frame.value < 4)
              && (c.NoChunk? && c.step.Stopped? <==>
                    if frame.Some? then frame.value == 0 else waits ==> p.source.buffer.started)
              && (c.NoChunk? ==> !c.step.Ready?)
  {
    hide DecodeSamples, TcpData.Receive, TcpData.ReceiveSome;
    var stream, arrived := p.source.link.stream, arrivals(p.polls);
    TcpData.ReceiveInParts(stream, PCM_AUDIO_PACKET_SIZE_IN_BYTES, p.source.nonblocking, arrived);
    if p.source.nonblocking && 2 <= arrived <= |stream| {
      assert stream[..arrived][..2] == stream[..2];
    }
  }

  datatype Filled = Filled(step: Step, samples: seq<Sample>)

  /** One callback that asks for `n` samples. */
  function Fill(p: Player, n: nat, arrivals: Arrivals): (f: Filled)
    requires p.Valid()
    ensures |f.samples| <= n
    ensures f.step.Ready? ==> f.step.player.Valid() && |f.samples| == n
    decreases n
  {
    match Pull(p, n, arrivals)
    case NoChunk(step) => Filled(step, [])
    case Chunk(q, samples) =>
      if |samples| == n then Filled(Ready(q), samples)
      else
        var rest := Fill(q, n - |samples|, arrivals);
        Filled(rest.step, samples + rest.samples)
  }

  /** Callbacks of the given sizes, until one of them fails. */
  function Play(p: Player, requests: seq<nat>, arrivals: Arrivals): Filled
    requires p.Valid()
    decreases |requests|
  {
    if requests == [] then Filled(Ready(p), [])
    else
      var first := Fill(p, requests[0], arrivals);
      if !first.step.Ready? then first
      else
        var rest := Play(first.step.player, requests[1..], arrivals);
        Filled(rest.step, first.samples + rest.samples)
  }

  // ----- Direct mode -----

  type PcmPacket = p: seq<Byte> | |p| == PCM_AUDIO_PACKET_SIZE_IN_BYTES
    witness Repeat(0, PCM_AUDIO_PACKET_SIZE_IN_BYTES)

  /** What the link still brings is `packets`; a byte stream may break off within the next one. */
  ghost predicate Delivers(link: Link, packets: seq<PcmPacket>)
  {
    match link
    case TcpLink(stream) => TcpData.Holds(stream, packets, PCM_AUDIO_PACKET_SIZE_IN_BYTES)
    case UsbLink(queue) => queue == packets
  }

  function Audio(packet: PcmPacket): (audio: Payload) {
    DecodeSamples(packet[PACKET_COUNTER_SIZE..])
  }

  ghost function AudioOf(packets: seq<PcmPacket>): seq<Sample>
  {
    if packets == [] then [] else AudioOf(packets[..|packets| - 1]) + Audio(packets[|packets| - 1])
  }

  lemma AudioOfTaken(packets: seq<PcmPacket>, n: nat)
    requires n < |packets|
    ensures AudioOf(packets[..n + 1]) == AudioOf(packets[..n]) + Audio(packets[n])
  {
    assert packets[..n + 1][..n] == packets[..n];
  }

  lemma {:induction false} AudioOfPrefix(packets: seq<PcmPacket>, n: nat)
    requires n <= |packets|
    ensures AudioOf(packets[..n]) <= AudioOf(packets)
    decreases |packets| - n
  {
    if n == |packets| {
      assert packets[..n] == packets;
    } else {
      AudioOfTaken(packets, n);
      AudioOfPrefix(packets, n + 1);
    }
  }

  lemma ReceiveDelivered(link: Link, packets: seq<PcmPacket>)
    requires Delivers(link, packets)
    ensures var (rest, arrival) := LinkReceive(link, PCM_AUDIO_PACKET_SIZE_IN_BYTES, false, 0);
            if packets == [] then arrival == IoError
            else arrival == Packet(packets[0]) && Delivers(rest, packets[1..])
  {
    if link.TcpLink? {
      TcpData.HoldsFirst(link.stream, packets, PCM_AUDIO_PACKET_SIZE_IN_BYTES);
    }
  }

  /** Nothing has arrived at these receives. */
  ghost predicate Waited(arrivals: Arrivals, from: nat, to: nat) {
    forall i :: from <= i < to ==> arrivals(i) == 0
  }

  /** All of the first frame has arrived, or the end of the stream is seen. */
  predicate Enough(link: Link, arrived: nat) {
    link.TcpLink? ==> arrived >= FRAME_SIZE || arrived > |link.stream|
  }

  /** The first receive, from `from` on, that finds anything at all finds enough. */
  ghost predicate Steady(link: Link, arrivals: Arrivals, from: nat) {
    forall k :: from <= k && Waited(arrivals, from, k) && arrivals(k) > 0 ==> Enough(link, arrivals(k))
  }

  lemma SteadyHere(link: Link, arrivals: Arrivals, from: nat)
    requires Steady(link, arrivals, from)
    ensures arrivals(from) > 0 ==> Enough(link, arrivals(from))
    ensures arrivals(from) == 0 ==> Steady(link, arrivals, from + 1)
  {
    assert Waited(arrivals, from, from);
    if arrivals(from) == 0 {
      forall k | from + 1 <= k && Waited(arrivals, from + 1, k) ensures Waited(arrivals, from, k) {
      }
    }
  }

  /** A nonblocking receive that finds enough is a blocking one, and one that finds nothing changes nothing. */
  lemma EnoughReceives(link: Link, arrived: nat)
    ensures arrived > 0 && Enough(link, arrived) ==>
              LinkReceive(link, PCM_AUDIO_PACKET_SIZE_IN_BYTES, true, arrived) ==
              LinkReceive(link, PCM_AUDIO_PACKET_SIZE_IN_BYTES, false, 0)
    ensures arrived == 0 ==> LinkReceive(link, PCM_AUDIO_PACKET_SIZE_IN_BYTES, true, arrived) == (link, NoData)
  {
    if link.TcpLink? {
      TcpData.ReceiveInParts(link.stream, PCM_AUDIO_PACKET_SIZE_IN_BYTES, true, arrived);
      TcpData.ReceiveInParts(link.stream, PCM_AUDIO_PACKET_SIZE_IN_BYTES, false, arrived);
    }
  }

  /** Each look before the first packet that is found makes one payload of silence, and no look is made after it. */
  ghost predicate Timed(polls: nat, blocks: nat, started: bool, arrivals: Arrivals) {
    && polls == blocks
    && if started then blocks > 0 && Waited(arrivals, 0, blocks - 1) && arrivals(blocks - 1) > 0
       else Waited(arrivals, 0, blocks)
  }

  /**
   `out` has been played from a connection that delivers `packets`: `blocks`
   payloads of silence, then the first packets in full and a part of the current
   one. Between calls the queue is empty, so a call in the middle of a payload
   never fetches the next one.
   */
  ghost predicate DirectTracked(out: seq<Sample>, p: Player, packets: seq<PcmPacket>, taken: nat, blocks: nat,
                                arrivals: Arrivals)
  {
    && taken <= |packets|
    && p.Valid()
    && p.source.Direct?
    && var Direct(link, nonblocking, buffer) := p.source;
       && buffer.queue == []
       && Delivers(link, packets[taken..])
       && nonblocking == !buffer.started
       && Timed(p.polls, blocks, buffer.started, arrivals)
       && if buffer.started then
            && taken > 0
            && blocks > 0
            && buffer.buffer == Audio(packets[taken - 1])
            && out == Silence(RAW_PCM_AUDIO_UDP_DATA_SIZE_IN_SAMPLES * blocks) +
                      AudioOf(packets[..taken - 1]) + buffer.buffer[..p.written]
          else
            && taken == 0
            && Steady(link, arrivals, p.polls)
            && buffer.buffer == Silence(RAW_PCM_AUDIO_UDP_DATA_SIZE_IN_SAMPLES)
            && out == Silence(RAW_PCM_AUDIO_UDP_DATA_SIZE_IN_SAMPLES * blocks + p.written)
  }

  /** A packet of the expected size replaces a whole payload, so nothing stale is left. */
  lemma AddWhole(buffer: DirectBuffer, packet: PcmPacket)
    requires buffer.queue == []
    ensures buffer.Add(packet) == if buffer.started then DirectBuffer([], Audio(packet), true)
                                  else DirectBuffer([Audio(packet)], buffer.buffer, true)
  {
    var audio := packet[PACKET_COUNTER_SIZE..];
    assert forall before: Payload :: buffer.Overwrite(before, audio) == Audio(packet);
  }

  /** A payload keeps samples of the one before it exactly when its packet is too short. */
  lemma NoStaleSamples(buffer: DirectBuffer, audio: seq<Byte>)
    ensures (forall a: Payload, b: Payload :: buffer.Overwrite(a, audio) == buffer.Overwrite(b, audio)) <==>
              |audio| >= RAW_PCM_AUDIO_UDP_DATA_SIZE_IN_BYTES
  {
    var size := RAW_PCM_AUDIO_UDP_DATA_SIZE_IN_SAMPLES;
    var a: Payload, b: Payload := Repeat(0, size), Repeat(1, size);
    if |audio| < RAW_PCM_AUDIO_UDP_DATA_SIZE_IN_BYTES {
      assert buffer.Overwrite(a, audio)[size - 1] != buffer.Overwrite(b, audio)[size - 1];
    }
  }

  lemma RefillSilence(out: seq<Sample>, p: Player, packets: seq<PcmPacket>, blocks: nat, arrivals: Arrivals)
    returns (taken: nat, silent: nat)
    requires DirectTracked(out, p, packets, 0, blocks, arrivals) && p.written == p.Size() && !p.source.buffer.started
    ensures var step := Refill(p, arrivals);
            && !step.Panicked?
            && (step.Ready? ==>
                  && step.player.written == 0
                  && DirectTracked(out, step.player.Settled(), packets, taken, silent, arrivals))
            && (step.Stopped? ==> PlayedAll(out, AudioOf(packets)))
  {
    var Direct(link, nonblocking, buffer) := p.source;
    taken, silent := 0, blocks + 1;
    assert packets[0..] == packets;
    assert out == Silence(RAW_PCM_AUDIO_UDP_DATA_SIZE_IN_SAMPLES * (blocks + 1));
    SteadyHere(link, arrivals, p.polls);
    EnoughReceives(link, arrivals(p.polls));
    if arrivals(p.polls) > 0 {
      ReceiveDelivered(link, packets);
      if packets == [] {
        assert out == Silence(RAW_PCM_AUDIO_UDP_DATA_SIZE_IN_SAMPLES * (blocks + 1)) + AudioOf(packets);
      } else {
        taken := 1;
        AudioOfTaken(packets, 0);
        AddWhole(buffer, packets[0]);
        var added := buffer.Add(packets[0]);
        assert added.Taken() == DirectBuffer([], Audio(packets[0]), true);
        assert out + AudioOf(packets[..0]) + added.Taken().buffer[..0] == out;
      }
    }
  }

  lemma RefillPlaying(out: seq<Sample>, p: Player, packets: seq<PcmPacket>, taken: nat, blocks: nat, arrivals: Arrivals)
    requires DirectTracked(out, p, packets, taken, blocks, arrivals) && p.written == p.Size() && p.source.buffer.started
    ensures var step := Refill(p, arrivals);
            && !step.Panicked?
            && (step.Ready? ==>
                  && step.player.written == 0
                  && DirectTracked(out, step.player.Settled(), packets, taken + 1, blocks, arrivals))
            && (step.Stopped? ==> PlayedAll(out, AudioOf(packets)))
  {
    var Direct(link, nonblocking, buffer) := p.source;
    ReceiveDelivered(link, packets[taken..]);
    if taken == |packets| {
      AudioOfTaken(packets, taken - 1);
      assert packets[..taken] == packets && buffer.buffer[..p.written] == Audio(packets[taken - 1]);
      var silence := Silence(RAW_PCM_AUDIO_UDP_DATA_SIZE_IN_SAMPLES * blocks);
      ConcatAssociative(silence, AudioOf(packets[..taken - 1]), Audio(packets[taken - 1]));
      assert out == silence + AudioOf(packets);
    } else {
      assert packets[taken..][0] == packets[taken] && packets[taken..][1..] == packets[taken + 1..];
      AudioOfTaken(packets, taken - 1);
      AddWhole(buffer, packets[taken]);
      var added := buffer.Add(packets[taken]);
      var silence := Silence(RAW_PCM_AUDIO_UDP_DATA_SIZE_IN_SAMPLES * blocks);
      assert buffer.buffer[..p.written] == Audio(packets[taken - 1]);
      ConcatAssociative(silence, AudioOf(packets[..taken - 1]), Audio(packets[taken - 1]));
      assert out == silence + AudioOf(packets[..taken]) + added.buffer[..0];
    }
  }

  lemma SettledIdle(p: Player)
    requires p.source.Direct? && p.source.buffer.queue == []
    ensures p.Settled() == p
  {
  }

  lemma PullStep(p: Player, request: nat, arrivals: Arrivals)
    requires p.Valid()
    ensures var step := Refilled(p, arrivals);
            if !step.Ready? then Pull(p, request, arrivals) == NoChunk(step)
            else
              var q := step.player.Settled();
              q.Valid() && Pull(p, request, arrivals) == TakeChunk(q, request)
  {
  }

  lemma RefillTracked(out: seq<Sample>, p: Player, packets: seq<PcmPacket>, taken: nat, blocks: nat, arrivals: Arrivals)
    returns (nextTaken: nat, nextBlocks: nat)
    requires p.Valid() && DirectTracked(out, p, packets, taken, blocks, arrivals)
    ensures var step := Refilled(p, arrivals);
            && !step.Panicked?
            && (step.Ready? ==> DirectTracked(out, step.player.Settled(), packets, nextTaken, nextBlocks, arrivals))
            && (step.Stopped? ==> PlayedAll(out, AudioOf(packets)))
  {
    hide AudioOf, Refill, Delivers, PlayedAll, Timed;
    nextTaken, nextBlocks := taken, blocks;
    if p.written != p.Size() {
      SettledIdle(p);
    } else if p.source.buffer.started {
      RefillPlaying(out, p, packets, taken, blocks, arrivals);
      nextTaken := taken + 1;
    } else {
      nextTaken, nextBlocks := RefillSilence(out, p, packets, blocks, arrivals);
    }
  }

  /** One chunk keeps the account, whatever the request and whatever has arrived. */
  lemma PullTracked(out: seq<Sample>, p: Player, packets: seq<PcmPacket>, taken: nat, blocks: nat,
                    request: nat, arrivals: Arrivals)
    returns (nextTaken: nat, nextBlocks: nat)
    requires DirectTracked(out, p, packets, taken, blocks, arrivals)
    ensures var c := Pull(p, request, arrivals);
            && (c.NoChunk? ==> c.step.Stopped? && PlayedAll(out, AudioOf(packets)))
            && (c.Chunk? ==> DirectTracked(out + c.samples, c.player, packets, nextTaken, nextBlocks, arrivals))
  {
    hide *;
    TrackedValid(out, p, packets, taken, blocks, arrivals);
    PullStep(p, request, arrivals);
    nextTaken, nextBlocks := RefillTracked(out, p, packets, taken, blocks, arrivals);
    var step := Refilled(p, arrivals);
    if step.Ready? {
      ChunkTracked(out, step.player.Settled(), packets, nextTaken, nextBlocks, request, arrivals);
    }
  }

  lemma ChunkTracked(out: seq<Sample>, q: Player, packets: seq<PcmPacket>, taken: nat, blocks: nat, request: nat,
                     arrivals: Arrivals)
    requires q.Valid() && DirectTracked(out, q, packets, taken, blocks, arrivals)
    ensures var chunk := TakeChunk(q, request);
            chunk.Chunk? && DirectTracked(out + chunk.samples, chunk.player, packets, taken, blocks, arrivals)
  {
    hide AudioOf, Delivers;
    var samples := TakeChunk(q, request).samples;
    var buffer := q.source.buffer.buffer;
    assert buffer[..q.written + |samples|] == buffer[..q.written] + samples;
    if q.source.buffer.started {
      var before := Silence(RAW_PCM_AUDIO_UDP_DATA_SIZE_IN_SAMPLES * blocks) + AudioOf(packets[..taken - 1]);
      ConcatAssociative(before, buffer[..q.written], samples);
    } else {
      forall i | 0 <= i < |samples| ensures samples[i] == 0 {
        assert samples[i] == buffer[q.written + i];
      }
      assert out + samples == Silence(RAW_PCM_AUDIO_UDP_DATA_SIZE_IN_SAMPLES * blocks + q.written + |samples|);
    }
  }

  lemma TrackedValid(out: seq<Sample>, p: Player, packets: seq<PcmPacket>, taken: nat, blocks: nat, arrivals: Arrivals)
    requires DirectTracked(out, p, packets, taken, blocks, arrivals)
    ensures p.Valid()
  {
  }

  lemma FillStep(p: Player, n: nat, arrivals: Arrivals)
    requires p.Valid()
    ensures match Pull(p, n, arrivals)
            case NoChunk(step) => Fill(p, n, arrivals) == Filled(step, [])
            case Chunk(q, samples) =>
              if |samples| == n then Fill(p, n, arrivals) == Filled(Ready(q), samples)
              else
                var rest := Fill(q, n - |samples|, arrivals);
                Fill(p, n, arrivals) == Filled(rest.step, samples + rest.samples)
  {
    hide Pull;
  }

  /** The outcome of a callback that started after `out` keeps the account. */
  ghost predicate DirectFilled(out: seq<Sample>, f: Filled, packets: seq<PcmPacket>, taken: nat, blocks: nat,
                               arrivals: Arrivals)
  {
    match f.step
    case Ready(p) => DirectTracked(out + f.samples, p, packets, taken, blocks, arrivals)
    case Stopped(_) => PlayedAll(out + f.samples, AudioOf(packets))
    case Panicked(_) => false
  }

  lemma DirectFilledAfter(out: seq<Sample>, samples: seq<Sample>, rest: Filled, packets: seq<PcmPacket>,
                          taken: nat, blocks: nat, arrivals: Arrivals)
    requires DirectFilled(out + samples, rest, packets, taken, blocks, arrivals)
    ensures DirectFilled(out, Filled(rest.step, samples + rest.samples), packets, taken, blocks, arrivals)
  {
    hide DirectTracked, PlayedAll;
    ConcatAssociative(out, samples, rest.samples);
  }

  /** One chunk of a callback: either it ends there, or the rest of it follows. */
  lemma FillFirst(out: seq<Sample>, p: Player, packets: seq<PcmPacket>, taken: nat, blocks: nat, n: nat, arrivals: Arrivals)
    returns (nextTaken: nat, nextBlocks: nat)
    requires DirectTracked(out, p, packets, taken, blocks, arrivals)
    ensures match Pull(p, n, arrivals)
            case NoChunk(step) => DirectFilled(out, Filled(step, []), packets, taken, blocks, arrivals)
            case Chunk(q, samples) =>
              && DirectTracked(out + samples, q, packets, nextTaken, nextBlocks, arrivals)
              && DirectFilled(out, Filled(Ready(q), samples), packets, nextTaken, nextBlocks, arrivals)
  {
    hide DirectTracked, PlayedAll, Pull;
    nextTaken, nextBlocks := PullTracked(out, p, packets, taken, blocks, n, arrivals);
    assert out + [] == out;
  }

  lemma {:induction false} FillTracked(out: seq<Sample>, p: Player, packets: seq<PcmPacket>, taken: nat, blocks: nat,
                                       n: nat, arrivals: Arrivals)
    returns (nextTaken: nat, nextBlocks: nat)
    requires DirectTracked(out, p, packets, taken, blocks, arrivals)
    ensures DirectFilled(out, Fill(p, n, arrivals), packets, nextTaken, nextBlocks, arrivals)
    decreases n
  {
    hide *;
    TrackedValid(out, p, packets, taken, blocks, arrivals);
    FillStep(p, n, arrivals);
    nextTaken, nextBlocks := FillFirst(out, p, packets, taken, blocks, n, arrivals);
    var pulled := Pull(p, n, arrivals);
    if pulled.NoChunk? {
      nextTaken, nextBlocks := taken, blocks;
    } else if |pulled.samples| != n {
      var q, samples := pulled.player, pulled.samples;
      nextTaken, nextBlocks := FillTracked(out + samples, q, packets, nextTaken, nextBlocks, n - |samples|, arrivals);
      DirectFilledAfter(out, samples, Fill(q, n - |samples|, arrivals), packets, nextTaken, nextBlocks, arrivals);
    }
  }

  /** Silence in whole payloads, at least one, and then a prefix of the audio. */
  ghost predicate Played(out: seq<Sample>, audio: seq<Sample>)
  {
    exists blocks: nat :: blocks > 0 && PlayedAfter(out, audio, blocks)
  }

  /** Silence in whole payloads, at least one, and then all of the audio. */
  ghost predicate PlayedAll(out: seq<Sample>, audio: seq<Sample>)
  {
    exists blocks: nat :: blocks > 0 && out == Silence(RAW_PCM_AUDIO_UDP_DATA_SIZE_IN_SAMPLES * blocks) + audio
  }

  lemma AllIsPlayed(out: seq<Sample>, audio: seq<Sample>)
    requires PlayedAll(out, audio)
    ensures Played(out, audio)
  {
    var blocks: nat :| blocks > 0 && out == Silence(RAW_PCM_AUDIO_UDP_DATA_SIZE_IN_SAMPLES * blocks) + audio;
    assert PlayedAfter(out, audio, blocks);
  }

  ghost predicate PlayedAfter(out: seq<Sample>, audio: seq<Sample>, blocks: nat)
  {
    out <= Silence(RAW_PCM_AUDIO_UDP_DATA_SIZE_IN_SAMPLES * blocks) + audio
  }

  lemma TrackedPlayed(out: seq<Sample>, p: Player, packets: seq<PcmPacket>, taken: nat, blocks: nat, arrivals: Arrivals)
    requires DirectTracked(out, p, packets, taken, blocks, arrivals)
    ensures Played(out, AudioOf(packets))
  {
    var buffer := p.source.buffer;
    if buffer.started {
      AudioOfTaken(packets, taken - 1);
      AudioOfPrefix(packets, taken);
      hide AudioOf, Delivers;
      var silence := Silence(RAW_PCM_AUDIO_UDP_DATA_SIZE_IN_SAMPLES * blocks);
      ConcatAssociative(silence, AudioOf(packets[..taken - 1]), Audio(packets[taken - 1]));
      assert out <= silence + AudioOf(packets[..taken]);
      PrefixThrough(out, silence, AudioOf(packets[..taken]), AudioOf(packets));
      assert PlayedAfter(out, AudioOf(packets), blocks);
    } else {
      assert PlayedAfter(out, AudioOf(packets), blocks + 1);
    }
  }

  /**
   Direct mode: for every sequence of callback sizes, and every timing of the peer
   that does not show a beginning of the first frame only, the callback never panics
   and all that it has played is whole payloads of silence followed by a prefix of
   the audio of the packets, each once and in order. Until it stops, that is exactly
   the packets taken and the part written of the last one, after one payload of silence
   for each look up to the first one that finds a packet. It stops only when all of the
   audio has been played.
   */
  lemma DirectPlayback(link: Link, packets: seq<PcmPacket>, requests: seq<nat>, arrivals: Arrivals)
    returns (taken: nat, blocks: nat)
    requires Delivers(link, packets) && Steady(link, arrivals, 0)
    ensures var played := Play(DirectPlayer(link), requests, arrivals);
            && !played.step.Panicked?
            && Played(played.samples, AudioOf(packets))
            && (played.step.Ready? ==> DirectTracked(played.samples, played.step.player, packets, taken, blocks, arrivals))
            && (played.step.Stopped? ==> PlayedAll(played.samples, AudioOf(packets)))
  {
    assert packets[0..] == packets;
    taken, blocks := PlayTracked([], DirectPlayer(link), packets, 0, 0, requests, arrivals);
    var played := Play(DirectPlayer(link), requests, arrivals);
    assert [] + played.samples == played.samples;
  }

  lemma {:induction false} PlayTracked(out: seq<Sample>, p: Player, packets: seq<PcmPacket>, taken: nat, blocks: nat,
                                       requests: seq<nat>, arrivals: Arrivals)
    returns (lastTaken: nat, lastBlocks: nat)
    requires DirectTracked(out, p, packets, taken, blocks, arrivals)
    ensures var played := Play(p, requests, arrivals);
            && !played.step.Panicked?
            && Played(out + played.samples, AudioOf(packets))
            && (played.step.Ready? ==>
                  DirectTracked(out + played.samples, played.step.player, packets, lastTaken, lastBlocks, arrivals))
            && (played.step.Stopped? ==> PlayedAll(out + played.samples, AudioOf(packets)))
    decreases |requests|
  {
    assert p.Valid();
    hide DirectTracked, Played, PlayedAll, Fill;
    lastTaken, lastBlocks := taken, blocks;
    if requests == [] {
      TrackedPlayed(out, p, packets, taken, blocks, arrivals);
      assert out + [] == out;
    } else {
      var nextTaken, nextBlocks := FillTracked(out, p, packets, taken, blocks, requests[0], arrivals);
      var first := Fill(p, requests[0], arrivals);
      if first.step.Ready? {
        lastTaken, lastBlocks :=
          PlayTracked(out + first.samples, first.step.player, packets, nextTaken, nextBlocks, requests[1..], arrivals);
        var rest := Play(first.step.player, requests[1..], arrivals);
        ConcatAssociative(out, first.samples, rest.samples);
      } else {
        AllIsPlayed(out + first.samples, AudioOf(packets));
      }
    }
  }

  // ----- Block mode -----

  /** `out` has been played from the channel: one block of silence, then the blocks taken so far. */
  ghost predicate BlocksTracked(out: seq<Sample>, p: Player, blocks: seq<Block>, taken: nat) {
    && taken <= |blocks|
    && p.Valid()
    && p.source.Blocks?
    && p.source.channel == blocks[taken..]
    && if taken == 0 then
         p.source.block == Silence(AUDIO_BLOCK_SAMPLE_COUNT) && out == Silence(p.written)
       else
         && p.source.block == blocks[taken - 1]
         && out == Silence(AUDIO_BLOCK_SAMPLE_COUNT) + Flatten(blocks[..taken - 1]) + p.source.block[..p.written]
  }

  lemma BlocksFlattened(blocks: seq<Block>, taken: nat)
    requires taken < |blocks|
    ensures Flatten(blocks[..taken + 1]) == Flatten(blocks[..taken]) + blocks[taken]
  {
    assert blocks[..taken + 1][..taken] == blocks[..taken];
  }

  lemma BlocksRefill(out: seq<Sample>, p: Player, blocks: seq<Block>, taken: nat, arrivals: Arrivals)
    requires BlocksTracked(out, p, blocks, taken) && p.written == p.Size()
    ensures var step := Refill(p, arrivals);
            && !step.Panicked?
            && (step.Ready? ==> step.player.written == 0 && BlocksTracked(out, step.player, blocks, taken + 1))
            && (step.Stopped? ==> BlocksPlayedAll(out, blocks))
  {
    if taken == |blocks| {
      var silence := Silence(AUDIO_BLOCK_SAMPLE_COUNT);
      assert silence + [] == silence;
      if taken > 0 {
        BlocksFlattened(blocks, taken - 1);
        assert blocks[..taken] == blocks && p.source.block[..p.written] == blocks[taken - 1];
        ConcatAssociative(silence, Flatten(blocks[..taken - 1]), blocks[taken - 1]);
      }
    } else {
      var silence := Silence(AUDIO_BLOCK_SAMPLE_COUNT);
      var next := blocks[taken][..0];
      assert p.source.channel[0] == blocks[taken] && p.source.channel[1..] == blocks[taken + 1..];
      if taken == 0 {
        assert out == silence + Flatten(blocks[..0]) + next;
      } else {
        BlocksFlattened(blocks, taken - 1);
        hide Flatten;
        assert p.source.block[..p.written] == blocks[taken - 1];
        ConcatAssociative(silence, Flatten(blocks[..taken - 1]), blocks[taken - 1]);
        assert out == silence + Flatten(blocks[..taken]) + next;
      }
    }
  }

  lemma BlocksChunk(out: seq<Sample>, q: Player, blocks: seq<Block>, taken: nat, request: nat)
    requires q.Valid() && BlocksTracked(out, q, blocks, taken)
    ensures var chunk := TakeChunk(q, request);
            chunk.Chunk? && BlocksTracked(out + chunk.samples, chunk.player, blocks, taken)
  {
    hide Flatten;
    var samples := TakeChunk(q, request).samples;
    var block := q.source.block;
    assert block[..q.written + |samples|] == block[..q.written] + samples;
    if taken == 0 {
      forall i | 0 <= i < |samples| ensures samples[i] == 0 {
        assert samples[i] == block[q.written + i] == Silence(AUDIO_BLOCK_SAMPLE_COUNT)[q.written + i];
      }
      assert out + samples == Silence(q.written + |samples|);
    } else {
      var before := Silence(AUDIO_BLOCK_SAMPLE_COUNT) + Flatten(blocks[..taken - 1]);
      ConcatAssociative(before, block[..q.written], samples);
    }
  }

  lemma BlocksRefilled(out: seq<Sample>, p: Player, blocks: seq<Block>, taken: nat, arrivals: Arrivals)
    returns (next: nat)
    requires p.Valid() && BlocksTracked(out, p, blocks, taken)
    ensures var step := Refilled(p, arrivals);
            && !step.Panicked?
            && (step.Ready? ==> BlocksTracked(out, step.player.Settled(), blocks, next))
            && (step.Stopped? ==> BlocksPlayedAll(out, blocks))
  {
    hide Flatten, Refill, BlocksPlayedAll;
    next := taken;
    if p.written == p.Size() {
      BlocksRefill(out, p, blocks, taken, arrivals);
      next := taken + 1;
    }
  }

  lemma BlocksPull(out: seq<Sample>, p: Player, blocks: seq<Block>, taken: nat, request: nat, arrivals: Arrivals)
    returns (next: nat)
    requires BlocksTracked(out, p, blocks, taken)
    ensures match Pull(p, request, arrivals)
            case NoChunk(step) => step.Stopped? && BlocksPlayedAll(out, blocks)
            case Chunk(q, samples) => BlocksTracked(out + samples, q, blocks, next)
  {
    hide *;
    BlocksTrackedValid(out, p, blocks, taken);
    PullStep(p, request, arrivals);
    next := BlocksRefilled(out, p, blocks, taken, arrivals);
    var step := Refilled(p, arrivals);
    if step.Ready? {
      BlocksChunk(out, step.player.Settled(), blocks, next, request);
    }
  }

  ghost predicate BlocksPlayed(out: seq<Sample>, blocks: seq<Block>) {
    out <= Silence(AUDIO_BLOCK_SAMPLE_COUNT) + Flatten(blocks)
  }

  ghost predicate BlocksPlayedAll(out: seq<Sample>, blocks: seq<Block>) {
    out == Silence(AUDIO_BLOCK_SAMPLE_COUNT) + Flatten(blocks)
  }

  lemma AllBlocksArePlayed(out: seq<Sample>, blocks: seq<Block>)
    requires BlocksPlayedAll(out, blocks)
    ensures BlocksPlayed(out, blocks)
  {
  }

  lemma BlocksTrackedPlayed(out: seq<Sample>, p: Player, blocks: seq<Block>, taken: nat)
    requires BlocksTracked(out, p, blocks, taken)
    ensures BlocksPlayed(out, blocks)
  {
    if taken == 0 {
      assert out <= Silence(AUDIO_BLOCK_SAMPLE_COUNT);
    } else {
      BlocksFlattened(blocks, taken - 1);
      FlattenPrefix(blocks, taken);
      hide Flatten;
      var silence := Silence(AUDIO_BLOCK_SAMPLE_COUNT);
      ConcatAssociative(silence, Flatten(blocks[..taken - 1]), blocks[taken - 1]);
      assert out <= silence + Flatten(blocks[..taken]);
      PrefixThrough(out, silence, Flatten(blocks[..taken]), Flatten(blocks));
    }
  }

  lemma BlocksTrackedValid(out: seq<Sample>, p: Player, blocks: seq<Block>, taken: nat)
    requires BlocksTracked(out, p, blocks, taken)
    ensures p.Valid()
  {
  }

  ghost predicate BlocksFilled(out: seq<Sample>, f: Filled, blocks: seq<Block>, taken: nat) {
    match f.step
    case Ready(p) => BlocksTracked(out + f.samples, p, blocks, taken)
    case Stopped(_) => BlocksPlayedAll(out + f.samples, blocks)
    case Panicked(_) => false
  }

  lemma BlocksFilledAfter(out: seq<Sample>, samples: seq<Sample>, rest: Filled, blocks: seq<Block>, taken: nat)
    requires BlocksFilled(out + samples, rest, blocks, taken)
    ensures BlocksFilled(out, Filled(rest.step, samples + rest.samples), blocks, taken)
  {
    hide BlocksTracked, BlocksPlayedAll;
    ConcatAssociative(out, samples, rest.samples);
  }

  lemma BlocksFirst(out: seq<Sample>, p: Player, blocks: seq<Block>, taken: nat, n: nat, arrivals: Arrivals)
    returns (next: nat)
    requires BlocksTracked(out, p, blocks, taken)
    ensures match Pull(p, n, arrivals)
            case NoChunk(step) => BlocksFilled(out, Filled(step, []), blocks, taken)
            case Chunk(q, samples) =>
              && BlocksTracked(out + samples, q, blocks, next)
              && BlocksFilled(out, Filled(Ready(q), samples), blocks, next)
  {
    hide BlocksTracked, BlocksPlayedAll, Pull;
    next := BlocksPull(out, p, blocks, taken, n, arrivals);
    assert out + [] == out;
  }

  lemma {:induction false} BlocksFill(out: seq<Sample>, p: Player, blocks: seq<Block>, taken: nat, n: nat,
                                      arrivals: Arrivals)
    returns (next: nat)
    requires BlocksTracked(out, p, blocks, taken)
    ensures BlocksFilled(out, Fill(p, n, arrivals), blocks, next)
    decreases n
  {
    hide *;
    BlocksTrackedValid(out, p, blocks, taken);
    FillStep(p, n, arrivals);
    next := BlocksFirst(out, p, blocks, taken, n, arrivals);
    var pulled := Pull(p, n, arrivals);
    if pulled.NoChunk? {
      next := taken;
    } else if |pulled.samples| != n {
      var q, samples := pulled.player, pulled.samples;
      next := BlocksFill(out + samples, q, blocks, next, n - |samples|, arrivals);
      BlocksFilledAfter(out, samples, Fill(q, n - |samples|, arrivals), blocks, next);
    }
  }

  /**
   Block mode: for every sequence of callback sizes the callback never panics and
   all that it has played is one block of silence followed by a prefix of the blocks,
   and until it stops, exactly the blocks taken and the part written of the last one.
   It stops only when all of them have been played.
   */
  lemma BlockPlayback(blocks: seq<Block>, requests: seq<nat>, arrivals: Arrivals) returns (taken: nat)
    ensures var played := Play(BlockPlayer(blocks), requests, arrivals);
            && !played.step.Panicked?
            && BlocksPlayed(played.samples, blocks)
            && (played.step.Ready? ==> BlocksTracked(played.samples, played.step.player, blocks, taken))
            && (played.step.Stopped? ==> BlocksPlayedAll(played.samples, blocks))
  {
    assert blocks[0..] == blocks;
    taken := BlocksPlay([], BlockPlayer(blocks), blocks, 0, requests, arrivals);
    var played := Play(BlockPlayer(blocks), requests, arrivals);
    assert [] + played.samples == played.samples;
  }

  lemma {:induction false} BlocksPlay(out: seq<Sample>, p: Player, blocks: seq<Block>, taken: nat, requests: seq<nat>,
                                      arrivals: Arrivals)
    returns (last: nat)
    requires BlocksTracked(out, p, blocks, taken)
    ensures var played := Play(p, requests, arrivals);
            && !played.step.Panicked?
            && BlocksPlayed(out + played.samples, blocks)
            && (played.step.Ready? ==> BlocksTracked(out + played.samples, played.step.player, blocks, last))
            && (played.step.Stopped? ==> BlocksPlayedAll(out + played.samples, blocks))
    decreases |requests|
  {
    assert p.Valid();
    hide BlocksTracked, BlocksPlayed, BlocksPlayedAll, Fill;
    last := taken;
    if requests == [] {
      BlocksTrackedPlayed(out, p, blocks, taken);
      assert out + [] == out;
    } else {
      var next := BlocksFill(out, p, blocks, taken, requests[0], arrivals);
      var first := Fill(p, requests[0], arrivals);
      if first.step.Ready? {
        last := BlocksPlay(out + first.samples, first.step.player, blocks, next, requests[1..], arrivals);
        var rest := Play(first.step.player, requests[1..], arrivals);
        ConcatAssociative(out, first.samples, rest.samples);
      } else {
        AllBlocksArePlayed(out + first.samples, blocks);
      }
    }
  }
}
