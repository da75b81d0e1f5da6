/**
 Where the two nonblocking ends of a TCP data connection stop inside a frame: a full
 socket of the sender (src/connection/data/tcp.rs:29-34 and 77-88) and a receiver that
 looks before the first frame is whole (src/audio/oboe.rs:396-411). Both are exactly
 what keeps the audio from being silence and then a prefix of what was sent.
 */
module TornStream {
  import opened Sequences
  import opened Bytes
  import opened Config
  import opened DataConnection
  import opened PcmCapture
  import opened Playback
  import opened PcmPipeline
  import TcpData

  /** What a listener of a TCP connection is promised. */
  ghost predicate PlaysWell(network: Network, input: seq<Byte>, bytes: seq<Byte>, requests: seq<nat>, arrivals: Arrivals) {
    var played := Play(DirectPlayer(TcpLink(bytes)), requests, arrivals);
    && !played.step.Panicked?
    && Played(played.samples, AudioOf(Stream(network, input)))
  }

  // ----- The callback before the first packet -----

  const PAYLOAD: nat := RAW_PCM_AUDIO_UDP_DATA_SIZE_IN_SAMPLES
  const PACKET: nat := PCM_AUDIO_PACKET_SIZE_IN_BYTES

  /** Nothing has been received, and all of the current silence is written. */
  function Hungry(stream: seq<Byte>, polls: nat): Player {
    Player(Direct(TcpLink(stream), true, DirectBuffer([], Silence(PAYLOAD), false)), PAYLOAD, polls)
  }

  /** The callback asks for one payload at a time. */
  function Requests(n: nat): seq<nat> {
    Repeat(PAYLOAD, n)
  }

  lemma FirstCallback(bytes: seq<Byte>, n: nat, arrivals: Arrivals)
    ensures var rest := Play(Hungry(bytes, 0), Requests(n), arrivals);
            Play(DirectPlayer(TcpLink(bytes)), Requests(n + 1), arrivals) ==
              Filled(rest.step, Silence(PAYLOAD) + rest.samples)
  {
    hide Refill;
    assert Requests(n + 1)[1..] == Requests(n);
    assert Silence(PAYLOAD)[0..][..PAYLOAD] == Silence(PAYLOAD);
  }

  /** A look that finds less than a packet loses it. */
  lemma LooksInVain(stream: seq<Byte>, polls: nat, n: nat, arrivals: Arrivals)
    requires TcpData.ReceiveSome(stream, PACKET, arrivals(polls)).NothingYet?
    ensures var left := TcpData.ReceiveSome(stream, PACKET, arrivals(polls)).rest;
            var rest := Play(Hungry(left, polls + 1), Requests(n), arrivals);
            Play(Hungry(stream, polls), Requests(n + 1), arrivals) == Filled(rest.step, Silence(PAYLOAD) + rest.samples)
  {
    hide TcpData.ReceiveSome;
    assert Requests(n + 1)[1..] == Requests(n);
    assert Silence(PAYLOAD)[0..][..PAYLOAD] == Silence(PAYLOAD);
  }

  /** A packet without room for its counter aborts the callback; of another one the audio is played. */
  lemma LooksAndFinds(stream: seq<Byte>, polls: nat, arrivals: Arrivals)
    requires TcpData.ReceiveSome(stream, PACKET, arrivals(polls)).Packet?
    ensures var packet := TcpData.ReceiveSome(stream, PACKET, arrivals(polls)).packet;
            var played := Play(Hungry(stream, polls), Requests(1), arrivals);
            && (0 < |packet| < PACKET_COUNTER_SIZE ==> played.step.Panicked?)
            && (|packet| >= PACKET_COUNTER_SIZE ==>
                  played.samples == DirectBuffer([], Silence(PAYLOAD), false).Overwrite(
                                      Silence(PAYLOAD), packet[PACKET_COUNTER_SIZE..]))
  {
    hide TcpData.ReceiveSome;
    var packet := TcpData.ReceiveSome(stream, PACKET, arrivals(polls)).packet;
    assert Requests(1)[1..] == [];
    if |packet| >= PACKET_COUNTER_SIZE {
      var samples := DirectBuffer([], Silence(PAYLOAD), false).Overwrite(Silence(PAYLOAD), packet[PACKET_COUNTER_SIZE..]);
      assert samples[0..][..PAYLOAD] == samples;
    }
  }

  // ----- A sender with two packets -----

  lemma TwoAttempts(network: Network, input: seq<Byte>)
    requires |input| == 2 * RAW_PCM_AUDIO_UDP_DATA_SIZE_IN_BYTES
    ensures var (first, second) := (input[..480], input[480..]);
            Attempts(network, input) == [Attempt(NumberedPacket(0, first), network(0)),
                                         Attempt(NumberedPacket(1, second), network(1))]
  {
    var first, second := input[..480], input[480..];
    assert Flatten([first, second]) == first + second by {
      FlattenAppend([first], second);
      FlattenSingle(first);
      assert [first] + [second] == [first, second];
    }
    assert Flatten([first, second]) + [] == input;
    ChunksUnique(input, RAW_PCM_AUDIO_UDP_DATA_SIZE_IN_BYTES, [first, second], []);
  }

  /** The bytes before the payload of packet 0 or 1. */
  lemma FrameHead(i: nat, payload: seq<Byte>)
    requires i <= 1 && |payload| == RAW_PCM_AUDIO_UDP_DATA_SIZE_IN_BYTES
    ensures TcpData.Frame(NumberedPacket(i, payload)) == [0x01, 0xE4, 0, 0, 0, i as Byte] + payload
  {
    assert U32ToBe(i) == [0, 0, 0, i as Byte];
  }

  lemma TwoPieces(network: Network, input: seq<Byte>)
    requires |input| == 2 * RAW_PCM_AUDIO_UDP_DATA_SIZE_IN_BYTES && network(1).Sent?
    ensures var first, second := NumberedPacket(0, input[..480]), NumberedPacket(1, input[480..]);
            && TcpStream(network, input) ==
                 (if network(0).Sent? then TcpData.Frame(first) else TcpData.Cut(first, network(0).taken)) +
                 TcpData.Frame(second)
            && (!network(0).Sent? ==> Stream(network, input) == [second])
  {
    hide TcpData.Frame, TcpData.Cut, NumberedPacket;
    TwoAttempts(network, input);
    Conservation(network, input);
    var attempts := Attempts(network, input);
    var front := attempts[..1];
    assert front[..0] == [] && front[0] == attempts[0] && |attempts[0].packet| == PACKET;
    var piece := if network(0).Sent? then TcpData.Frame(attempts[0].packet)
                 else TcpData.Cut(attempts[0].packet, network(0).taken);
    assert Wire(front) == [] + piece == piece;
    assert !network(0).Sent? ==> SentPackets(front) == [] + [] == [];
  }

  // ----- The receiver looks too early -----

  /** From `offset` on it finds one byte at a time, and at `target` the size of a packet that is one byte. */
  lemma {:induction false} FindsOneByte(bytes: seq<Byte>, offset: nat, target: nat, polls: nat, arrivals: Arrivals)
    requires offset <= target && target + 3 <= |bytes|
    requires bytes[target] == 0 && bytes[target + 1] == 1
    requires forall j :: polls <= j < polls + (target - offset) ==> arrivals(j) == 1
    requires arrivals(polls + (target - offset)) > |bytes|
    ensures Play(Hungry(bytes[offset..], polls), Requests(target - offset + 1), arrivals).step.Panicked?
    decreases target - offset
  {
    hide Play, TcpData.ReceiveSome, TcpData.Receive;
    var stream := bytes[offset..];
    if offset == target {
      assert stream[..2] == [0, 1];
      TcpData.ReceiveInParts(stream, PACKET, true, arrivals(polls));
      LooksAndFinds(stream, polls, arrivals);
    } else {
      assert arrivals(polls) == 1;
      TcpData.ReceiveInParts(stream, PACKET, true, 1);
      LooksInVain(stream, polls, target - offset, arrivals);
      assert stream[1..] == bytes[offset + 1..];
      FindsOneByte(bytes, offset + 1, target, polls + 1, arrivals);
    }
  }

  /** The first look that finds anything finds `a`. */
  ghost predicate FirstIs(arrivals: Arrivals, a: nat) {
    exists k :: Waited(arrivals, 0, k) && arrivals(k) == a
  }

  lemma FirstIsSteady(bytes: seq<Byte>, arrivals: Arrivals, a: nat)
    requires a > 0 && FirstIs(arrivals, a) && Enough(TcpLink(bytes), a)
    ensures Steady(TcpLink(bytes), arrivals, 0)
  {
    var first :| Waited(arrivals, 0, first) && arrivals(first) == a;
    forall k | 0 <= k && Waited(arrivals, 0, k) && arrivals(k) > 0 ensures k == first {
    }
  }

  /** Where a receiver that has lost `a` bytes of its first frame can be made to read a size of one. */
  function Misread(a: nat): nat {
    if a < 5 then 5 else a
  }

  /** All zero but for the low byte of that size. */
  function Quiet(a: nat): (input: seq<Byte>)
    ensures |input| == 2 * RAW_PCM_AUDIO_UDP_DATA_SIZE_IN_BYTES
  {
    seq(2 * RAW_PCM_AUDIO_UDP_DATA_SIZE_IN_BYTES, i => if i == Misread(a) - 5 then 1 else 0)
  }

  /** At first `a` bytes have arrived, then one at a time, and then everything. */
  function Trickle(a: nat): Arrivals {
    k => if k == 0 then a else if k <= Misread(a) - a then 1 else 1000
  }

  lemma QuietStream(a: nat)
    requires 0 < a < FRAME_SIZE
    ensures var bytes := TcpStream(_ => Sent, Quiet(a));
            && |bytes| == 2 * FRAME_SIZE
            && bytes[..2] == [0x01, 0xE4]
            && bytes[Misread(a)] == 0 && bytes[Misread(a) + 1] == 1
  {
    hide TcpStream, TcpData.Frame, NumberedPacket, Stream;
    var input := Quiet(a);
    TwoPieces(_ => Sent, input);
    FrameHead(0, input[..480]);
    FrameHead(1, input[480..]);
  }

  /** The callback aborts when it first looks while `a` bytes of the first frame are there. */
  lemma LooksTooEarly(a: nat)
    requires 0 < a < FRAME_SIZE
    ensures var bytes := TcpStream(_ => Sent, Quiet(a));
            && a <= |bytes|
            && FirstIs(Trickle(a), a)
            && Play(DirectPlayer(TcpLink(bytes)), Requests(Misread(a) - a + 3), Trickle(a)).step.Panicked?
  {
    hide Play, TcpStream, Quiet, TcpData.ReceiveSome, TcpData.Receive;
    var bytes, arrivals := TcpStream(_ => Sent, Quiet(a)), Trickle(a);
    QuietStream(a);
    assert Waited(arrivals, 0, 0) && arrivals(0) == a;
    FirstCallback(bytes, Misread(a) - a + 2, arrivals);
    TcpData.ReceiveInParts(bytes, PACKET, true, a);
    LooksInVain(bytes, 0, Misread(a) - a + 1, arrivals);
    FindsOneByte(bytes, a, Misread(a), 1, arrivals);
  }

  /**
   The first look that finds anything must find a whole frame: that is exactly when
   the audio is right whatever the input, the rest of the timing and the callbacks.
   */
  lemma FirstLook(a: nat)
    requires a > 0
    ensures (forall network: Network, input: seq<Byte>, bytes: seq<Byte>, requests: seq<nat>, arrivals: Arrivals ::
               Untorn(Attempts(network, input)) && bytes <= TcpStream(network, input) && a <= |bytes| && FirstIs(arrivals, a)
               ==> PlaysWell(network, input, bytes, requests, arrivals)) <==>
            a >= FRAME_SIZE
  {
    hide Play, Steady, FirstIs, Enough, Wire, Untorn;
    if a >= FRAME_SIZE {
      forall network: Network, input: seq<Byte>, bytes: seq<Byte>, requests: seq<nat>, arrivals: Arrivals |
        Untorn(Attempts(network, input)) && bytes <= TcpStream(network, input) && a <= |bytes| && FirstIs(arrivals, a)
        ensures PlaysWell(network, input, bytes, requests, arrivals)
      {
        EnoughBytes(bytes, a);
        FirstIsSteady(bytes, arrivals, a);
        OverTcp(network, input, bytes, requests, arrivals);
      }
    } else {
      var network: Network, input := _ => Sent, Quiet(a);
      LooksTooEarly(a);
      AllUntorn(input);
      assert !PlaysWell(network, input, TcpStream(network, input), Requests(Misread(a) - a + 3), Trickle(a));
    }
  }

  lemma EnoughBytes(bytes: seq<Byte>, a: nat)
    ensures a >= FRAME_SIZE ==> Enough(TcpLink(bytes), a)
  {
  }

  lemma AllUntorn(input: seq<Byte>)
    ensures Untorn(Attempts(_ => Sent, input))
  {
  }

  // ----- The socket of the sender is full -----

  /** A full socket takes `k` bytes of a frame, and nothing else goes wrong. */
  ghost predicate CutsAre(network: Network, k: nat) {
    forall i :: !network(i).Sent? ==> network(i) == WouldBlock(k)
  }

  /** The first frame is cut off after `k` bytes. */
  function CutFirst(k: nat): Network {
    i => if i == 0 then WouldBlock(k) else Sent
  }

  /** Two payloads of silence. */
  function Zeros(): (input: seq<Byte>)
    ensures |input| == 2 * RAW_PCM_AUDIO_UDP_DATA_SIZE_IN_BYTES
  {
    Repeat(0, 2 * RAW_PCM_AUDIO_UDP_DATA_SIZE_IN_BYTES)
  }

  /** Where a byte of the second header lies in what is read as audio. */
  function Noise(k: nat): nat {
    if k <= 480 then k + 5 else k
  }

  lemma CutStream(k: nat)
    requires 0 < k < FRAME_SIZE
    ensures var bytes := TcpStream(CutFirst(k), Zeros());
            && |bytes| == k + FRAME_SIZE
            && bytes[0] == 0x01
            && bytes[1] == (if k == 1 then 0x01 else 0xE4)
            && bytes[Noise(k)] != 0
    ensures AudioOf(Stream(CutFirst(k), Zeros())) == Silence(PAYLOAD)
  {
    var network, input := CutFirst(k), Zeros();
    TwoPieces(network, input);
    FrameHead(0, input[..480]);
    FrameHead(1, input[480..]);
    var second := NumberedPacket(1, input[480..]);
    SilentAudio(second);
  }

  lemma SilentAudio(packet: PcmPacket)
    requires forall i :: PACKET_COUNTER_SIZE <= i < |packet| ==> packet[i] == 0
    ensures AudioOf([packet]) == Silence(PAYLOAD)
  {
    var audio := packet[PACKET_COUNTER_SIZE..];
    assert forall i :: 0 <= i < PAYLOAD ==> audio[2 * i] == 0 && audio[2 * i + 1] == 0;
    assert Audio(packet) == Silence(PAYLOAD);
    assert [packet][..0] == [];
    assert AudioOf([packet]) == [] + Audio(packet);
  }

  /** The second header is played as audio. */
  lemma HeaderIsHeard(k: nat)
    requires 0 < k < FRAME_SIZE
    ensures var bytes := TcpStream(CutFirst(k), Zeros());
            var played := Play(DirectPlayer(TcpLink(bytes)), Requests(2), _ => 1000);
            exists i :: 0 <= i < |played.samples| && played.samples[i] != 0
  {
    hide Play, TcpStream, Zeros, CutFirst, TcpData.ReceiveSome, TcpData.Receive, DecodeSamples;
    var bytes, arrivals: Arrivals := TcpStream(CutFirst(k), Zeros()), _ => 1000;
    CutStream(k);
    FirstCallback(bytes, 1, arrivals);
    TcpData.ReceiveInParts(bytes, PACKET, true, 1000);
    LooksAndFinds(bytes, 0, arrivals);
    var packet := TcpData.ReceiveSome(bytes, PACKET, 1000).packet;
    var i := Noise(k) - 6;
    assert bytes[..2] == [bytes[0], bytes[1]];
    assert packet[PACKET_COUNTER_SIZE..][i] == bytes[Noise(k)];
    NoiseIsHeard(packet[PACKET_COUNTER_SIZE..], i);
    assert Play(DirectPlayer(TcpLink(bytes)), Requests(2), arrivals).samples[PAYLOAD + i / 2] != 0;
  }

  lemma NoiseIsHeard(audio: seq<Byte>, i: nat)
    requires i / 2 < |audio| / 2 && i / 2 < PAYLOAD && audio[i] != 0
    ensures DirectBuffer([], Silence(PAYLOAD), false).Overwrite(Silence(PAYLOAD), audio)[i / 2] != 0
  {
    assert i == 2 * (i / 2) || i == 2 * (i / 2) + 1;
    assert DecodeSamples(audio)[i / 2] != 0;
  }

  lemma OnlySilence(out: seq<Sample>)
    requires Played(out, Silence(PAYLOAD))
    ensures forall i :: 0 <= i < |out| ==> out[i] == 0
  {
    var blocks: nat :| blocks > 0 && PlayedAfter(out, Silence(PAYLOAD), blocks);
    assert out == (Silence(PAYLOAD * blocks) + Silence(PAYLOAD))[..|out|];
  }

  lemma UncutUntorn(network: Network, input: seq<Byte>)
    requires CutsAre(network, 0)
    ensures Untorn(Attempts(network, input))
  {
  }

  /**
   A full socket must not have taken a part of the frame: that is exactly when the
   packets dropped do no harm, whatever the input, the timing and the callbacks.
   */
  lemma FullSocket(k: nat)
    requires k < FRAME_SIZE
    ensures (forall network: Network, input: seq<Byte>, bytes: seq<Byte>, requests: seq<nat>, arrivals: Arrivals ::
               CutsAre(network, k) && bytes <= TcpStream(network, input) && Steady(TcpLink(bytes), arrivals, 0)
               ==> PlaysWell(network, input, bytes, requests, arrivals)) <==>
            k == 0
  {
    hide Play, Steady, Wire, Untorn, Played;
    if k == 0 {
      forall network: Network, input: seq<Byte>, bytes: seq<Byte>, requests: seq<nat>, arrivals: Arrivals |
        CutsAre(network, k) && bytes <= TcpStream(network, input) && Steady(TcpLink(bytes), arrivals, 0)
        ensures PlaysWell(network, input, bytes, requests, arrivals)
      {
        UncutUntorn(network, input);
        OverTcp(network, input, bytes, requests, arrivals);
      }
    } else {
      var network, input, arrivals: Arrivals := CutFirst(k), Zeros(), _ => 1000;
      var bytes := TcpStream(network, input);
      CutStream(k);
      HeaderIsHeard(k);
      PlentyIsSteady(bytes, arrivals);
      if PlaysWell(network, input, bytes, Requests(2), arrivals) {
        OnlySilence(Play(DirectPlayer(TcpLink(bytes)), Requests(2), arrivals).samples);
        assert false;
      }
      assert CutsAre(network, k);
    }
  }

  lemma PlentyIsSteady(bytes: seq<Byte>, arrivals: Arrivals)
    requires forall k :: arrivals(k) >= FRAME_SIZE
    ensures Steady(TcpLink(bytes), arrivals, 0)
  {
  }
}
