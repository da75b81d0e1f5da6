/**
 Capture to speaker: the sender, one carrier and the playback of the receiver put
 together. The sender appears through `Attempts`, a function of the captured bytes
 alone, which every fragmentation of them refines.
 */
module PcmPipeline {
  import opened Sequences
  import opened Bytes
  import opened Config
  import opened PcmCapture
  import opened Playback
  import AudioPackets
  import DataReader
  import TcpData
  import UsbProtocol
  import UsbTunnel

  /** The packets that the sender hands over successfully. */
  function Stream(network: Network, input: seq<Byte>): (packets: seq<PcmPacket>) {
    SentSized(network, input);
    SentPackets(Attempts(network, input))
  }

  lemma SentSized(network: Network, input: seq<Byte>)
    ensures forall i :: 0 <= i < |SentPackets(Attempts(network, input))| ==>
              |SentPackets(Attempts(network, input))[i]| == PCM_AUDIO_PACKET_SIZE_IN_BYTES
  {
    Conservation(network, input);
    SentFromAttempts(Attempts(network, input));
  }

  lemma {:induction false} SentFromAttempts(attempts: seq<Attempt>)
    requires forall i :: 0 <= i < |attempts| ==> |attempts[i].packet| == PCM_AUDIO_PACKET_SIZE_IN_BYTES
    ensures forall i :: 0 <= i < |SentPackets(attempts)| ==>
              |SentPackets(attempts)[i]| == PCM_AUDIO_PACKET_SIZE_IN_BYTES
  {
    if attempts != [] {
      SentFromAttempts(attempts[..|attempts| - 1]);
    }
  }

  /** Nothing is dropped by a full socket buffer, and no send fails. */
  ghost predicate Lossless(network: Network, input: seq<Byte>) {
    forall i :: 0 <= i < |Payloads(input)| ==> network(i).Sent?
  }

  lemma {:induction false} AllSent(attempts: seq<Attempt>)
    requires forall i :: 0 <= i < |attempts| ==> attempts[i].outcome.Sent?
    ensures |SentPackets(attempts)| == |attempts|
    ensures forall i :: 0 <= i < |attempts| ==> SentPackets(attempts)[i] == attempts[i].packet
  {
    if attempts != [] {
      AllSent(attempts[..|attempts| - 1]);
    }
  }

  /** The audio of numbered packets is the decoding of their payloads laid end to end. */
  lemma {:induction false} AudioOfPayloads(packets: seq<PcmPacket>, payloads: seq<seq<Byte>>)
    requires |packets| == |payloads|
    requires forall i :: 0 <= i < |packets| ==> packets[i][PACKET_COUNTER_SIZE..] == payloads[i]
    ensures AudioOf(packets) == DecodeSamples(Flatten(payloads))
    ensures |Flatten(payloads)| % 2 == 0
  {
    if packets != [] {
      var last := |packets| - 1;
      AudioOfPayloads(packets[..last], payloads[..last]);
      DecodeConcat(Flatten(payloads[..last]), payloads[last]);
    }
  }

  lemma {:induction false} PayloadsFrom(payloads: seq<seq<Byte>>, rest: seq<Byte>, n: nat)
    requires n <= |payloads|
    requires forall i :: 0 <= i < |payloads| ==> |payloads[i]| == RAW_PCM_AUDIO_UDP_DATA_SIZE_IN_BYTES
    ensures var input, start := Flatten(payloads) + rest, RAW_PCM_AUDIO_UDP_DATA_SIZE_IN_BYTES * n;
            start <= |input| && Flatten(payloads[n..]) + rest == input[start..]
  {
    if n == 0 {
      assert payloads[0..] == payloads;
    } else {
      var front, last := payloads[n - 1], payloads[n..];
      PayloadsFrom(payloads, rest, n - 1);
      assert payloads[n - 1..] == [front] + last;
      FlattenCons(front, last);
      ConcatAssociative(front, Flatten(last), rest);
    }
  }

  /**
   Without drops, the audio of the stream from packet `n` on is the captured
   input from its payload `n` on, up to the last whole payload.
   */
  lemma LosslessAudio(network: Network, input: seq<Byte>, n: nat)
    requires Lossless(network, input) && n <= |Stream(network, input)|
    ensures RAW_PCM_AUDIO_UDP_DATA_SIZE_IN_BYTES * n <= |input|
    ensures AudioOf(Stream(network, input)[n..]) <= DecodeSamples(input[RAW_PCM_AUDIO_UDP_DATA_SIZE_IN_BYTES * n..])
    ensures RAW_PCM_AUDIO_UDP_DATA_SIZE_IN_BYTES * n <= |input| - |Residual(input)|
    ensures AudioOf(Stream(network, input)[n..]) ==
              DecodeSamples(input[RAW_PCM_AUDIO_UDP_DATA_SIZE_IN_BYTES * n..|input| - |Residual(input)|])
  {
    var attempts, payloads, packets := Attempts(network, input), Payloads(input), Stream(network, input);
    AllSent(attempts);
    forall i | 0 <= i < |packets| ensures packets[i][PACKET_COUNTER_SIZE..] == payloads[i] {
      assert packets[i] == NumberedPacket(i, payloads[i]);
    }
    AudioOfPayloads(packets[n..], payloads[n..]);
    Conservation(network, input);
    PayloadsFrom(payloads, Residual(input), n);
    DecodePrefix(Flatten(payloads[n..]), input[RAW_PCM_AUDIO_UDP_DATA_SIZE_IN_BYTES * n..]);
    assert Flatten(payloads[n..]) == input[RAW_PCM_AUDIO_UDP_DATA_SIZE_IN_BYTES * n..|input| - |Residual(input)|];
  }

  lemma PlayedLonger(out: seq<Sample>, audio: seq<Sample>, longer: seq<Sample>)
    requires Played(out, audio) && audio <= longer
    ensures Played(out, longer)
  {
    var blocks: nat :| blocks > 0 && PlayedAfter(out, audio, blocks);
    PrefixThrough(out, Silence(RAW_PCM_AUDIO_UDP_DATA_SIZE_IN_SAMPLES * blocks), audio, longer);
    assert PlayedAfter(out, longer, blocks);
  }

  /** What the sender writes to a TCP connection, as a function of the captured bytes. */
  function TcpStream(network: Network, input: seq<Byte>): seq<Byte> {
    AttemptsFit(network, input);
    Wire(Attempts(network, input))
  }

  lemma AttemptsFit(network: Network, input: seq<Byte>)
    ensures AllFit(Attempts(network, input))
  {
    Conservation(network, input);
  }

  /** Any part of an untorn stream holds whole packets, the first ones sent. */
  lemma WholePart(network: Network, input: seq<Byte>, bytes: seq<Byte>) returns (n: nat)
    requires Untorn(Attempts(network, input)) && bytes <= TcpStream(network, input)
    ensures n <= |Stream(network, input)| && Delivers(TcpLink(bytes), Stream(network, input)[..n])
    ensures bytes == TcpStream(network, input) ==> n == |Stream(network, input)|
  {
    var attempts := Attempts(network, input);
    Conservation(network, input);
    SentSized(network, input);
    UntornWire(attempts);
    var tail := LastCut(attempts);
    if tail == [] {
      assert TcpData.Begins(tail, []);
    }
    n := TcpData.BrokenStream(bytes, Stream(network, input), tail, PCM_AUDIO_PACKET_SIZE_IN_BYTES);
  }

  /**
   TCP: whatever part of the byte stream arrives, and for all callback sizes and
   timings, all that is played is whole payloads of silence, at least one, and
   then a prefix of the audio of the packets sent. Neither end may stop inside a
   frame: `TornStream` shows that this is needed. Playing stops only when all whole
   packets of the bytes have been heard; for all of a lossless stream that is the input.
   */
  lemma OverTcp(network: Network, input: seq<Byte>, bytes: seq<Byte>, requests: seq<nat>, arrivals: Arrivals)
    requires bytes <= TcpStream(network, input)
    requires Untorn(Attempts(network, input)) && Steady(TcpLink(bytes), arrivals, 0)
    ensures var played := Play(DirectPlayer(TcpLink(bytes)), requests, arrivals);
            && !played.step.Panicked?
            && Played(played.samples, AudioOf(Stream(network, input)))
            && (Lossless(network, input) ==> Played(played.samples, DecodeSamples(input)))
            && (played.step.Stopped? ==> HeardAll(network, input, bytes, played.samples))
  {
    var sent := Stream(network, input);
    var n := WholePart(network, input, bytes);
    var _, _ := DirectPlayback(TcpLink(bytes), sent[..n], requests, arrivals);
    var played := Play(DirectPlayer(TcpLink(bytes)), requests, arrivals);
    AudioOfPrefix(sent, n);
    PlayedLonger(played.samples, AudioOf(sent[..n]), AudioOf(sent));
    if Lossless(network, input) {
      LosslessAudio(network, input, 0);
      assert sent[0..] == sent && input[0..] == input;
      PlayedLonger(played.samples, AudioOf(sent), DecodeSamples(input));
    }
    if played.step.Stopped? {
      StoppedHasHeard(network, input, bytes, played.samples, n);
    }
  }

  /** In terms of samples: what is heard over TCP without drops is silence and then a prefix of what was captured. */
  lemma SamplesOverTcp(network: Network, captured: seq<Sample>, bytes: seq<Byte>, requests: seq<nat>, arrivals: Arrivals)
    requires Lossless(network, EncodeSamples(captured)) && bytes <= TcpStream(network, EncodeSamples(captured))
    requires Steady(TcpLink(bytes), arrivals, 0)
    ensures var played := Play(DirectPlayer(TcpLink(bytes)), requests, arrivals);
            !played.step.Panicked? && Played(played.samples, captured)
  {
    hide Play, Steady, Played;
    var input := EncodeSamples(captured);
    SamplesRoundTrip(captured);
    LosslessUntorn(network, input);
    OverTcp(network, input, bytes, requests, arrivals);
  }

  lemma LosslessUntorn(network: Network, input: seq<Byte>)
    requires Lossless(network, input)
    ensures Untorn(Attempts(network, input))
  {
  }

  /** All that came whole has been heard, and all of the input if nothing was lost on its way. */
  ghost predicate HeardAll(network: Network, input: seq<Byte>, bytes: seq<Byte>, out: seq<Sample>) {
    var sent := Stream(network, input);
    && (exists n :: 0 <= n <= |sent| && Delivers(TcpLink(bytes), sent[..n]) && PlayedAll(out, AudioOf(sent[..n])))
    && (bytes == TcpStream(network, input) ==> PlayedAll(out, AudioOf(sent)))
    && (bytes == TcpStream(network, input) && Lossless(network, input) ==>
          PlayedAll(out, DecodeSamples(input[..|input| - |Residual(input)|])))
  }

  lemma StoppedHasHeard(network: Network, input: seq<Byte>, bytes: seq<Byte>, out: seq<Sample>, n: nat)
    requires n <= |Stream(network, input)| && Delivers(TcpLink(bytes), Stream(network, input)[..n])
    requires PlayedAll(out, AudioOf(Stream(network, input)[..n]))
    requires bytes == TcpStream(network, input) ==> n == |Stream(network, input)|
    ensures HeardAll(network, input, bytes, out)
  {
    hide Delivers, AudioOf, PlayedAll;
    var sent := Stream(network, input);
    assert n == |sent| ==> sent[..n] == sent;
    if Lossless(network, input) {
      LosslessAudio(network, input, 0);
      assert sent[0..] == sent && input[0..|input| - |Residual(input)|] == input[..|input| - |Residual(input)|];
    }
  }

  /**
   The same from the sender itself: whatever it has captured in whatever fragments,
   with drops and errors, any part of what it has written to its TCP connection
   plays as silence and then a prefix of the audio it sent.
   */
  lemma FromTcpSender(sender: PAStreamManager, bytes: seq<Byte>, requests: seq<nat>, arrivals: Arrivals)
    requires sender.Valid() && sender.connection.TcpSender?
    requires bytes <= sender.connection.tcp.written
    requires Untorn(sender.attempts) && Steady(TcpLink(bytes), arrivals, 0)
    ensures var played := Play(DirectPlayer(TcpLink(bytes)), requests, arrivals);
            && !played.step.Panicked?
            && Played(played.samples, AudioOf(Stream(sender.network, sender.captured)))
            && (sender.audioPacketDropCount == 0 && sender.enableRecording ==>
                  Played(played.samples, DecodeSamples(sender.captured)))
            && (played.step.Stopped? ==> HeardAll(sender.network, sender.captured, bytes, played.samples))
  {
    hide Play, Steady;
    OverTcp(sender.network, sender.captured, bytes, requests, arrivals);
    if sender.audioPacketDropCount == 0 && sender.enableRecording {
      UndroppedSent(sender.network, sender.captured);
    }
  }

  /** Without a drop and without an error every packet was sent. */
  lemma UndroppedSent(network: Network, input: seq<Byte>)
    requires Dropped(Attempts(network, input)) == 0 && !Failure(Attempts(network, input))
    ensures Lossless(network, input)
  {
    var attempts := Attempts(network, input);
    forall i | 0 <= i < |Payloads(input)| ensures network(i).Sent? {
      assert attempts[i].outcome == network(i);
      if network(i).WouldBlock? {
        DropIsCounted(attempts, i);
      }
    }
  }

  lemma {:induction false} DropIsCounted(attempts: seq<Attempt>, i: nat)
    requires i < |attempts| && attempts[i].outcome.WouldBlock?
    ensures Dropped(attempts) > 0
    decreases |attempts|
  {
    if i < |attempts| - 1 {
      DropIsCounted(attempts[..|attempts| - 1], i);
    }
  }

  /** What the receiver reads from the transfer of an audio packet. */
  function Carried(packet: PcmPacket): UsbProtocol.Decoded<UsbProtocol.OutType> {
    UsbProtocol.DecodeOut(
      UsbProtocol.Encode(UsbProtocol.USB_EMPTY_PACKET, packet, UsbProtocol.USB_OUT_PACKET_SIZE)
        [0 := UsbProtocol.OutType.OutAudioData.Code()])
  }

  /**
   What arrives over USB: every packet fits its transfer and the buffer of the
   callback, and all that is played is silence and then a prefix of the audio of the
   packets from the first one on that arrives.
   */
  lemma CarriedOverUsb(network: Network, input: seq<Byte>, skipped: nat, link: seq<seq<Byte>>, requests: seq<nat>,
                arrivals: Arrivals)
    requires skipped + |link| <= |Stream(network, input)|
    requires forall i :: 0 <= i < |link| ==>
               Carried(Stream(network, input)[skipped + i]) ==
               UsbProtocol.Received(UsbProtocol.OutType.OutAudioData, link[i])
    ensures var played := Play(DirectPlayer(UsbLink(link)), requests, arrivals);
            && !played.step.Panicked?
            && Played(played.samples, AudioOf(Stream(network, input)[skipped..]))
            && (Lossless(network, input) ==>
                  && RAW_PCM_AUDIO_UDP_DATA_SIZE_IN_BYTES * skipped <= |input|
                  && Played(played.samples, DecodeSamples(input[RAW_PCM_AUDIO_UDP_DATA_SIZE_IN_BYTES * skipped..])))
            && (played.step.Stopped? ==>
                  PlayedAll(played.samples, AudioOf(Stream(network, input)[skipped..skipped + |link|])))
  {
    var sent := Stream(network, input);
    forall i | 0 <= i < |link| ensures link[i] == sent[skipped + i] {
      UsbProtocol.AudioRoundTrip(sent[skipped + i]);
    }
    assert link == sent[skipped..][..|link|] == sent[skipped..skipped + |link|];
    var _, _ := DirectPlayback(UsbLink(link), sent[skipped..][..|link|], requests, arrivals);
    AudioOfPrefix(sent[skipped..], |link|);
    var played := Play(DirectPlayer(UsbLink(link)), requests, arrivals);
    PlayedLonger(played.samples, AudioOf(sent[skipped..][..|link|]), AudioOf(sent[skipped..]));
    if Lossless(network, input) {
      LosslessAudio(network, input, skipped);
      PlayedLonger(played.samples, AudioOf(sent[skipped..]),
                   DecodeSamples(input[RAW_PCM_AUDIO_UDP_DATA_SIZE_IN_BYTES * skipped..]));
    }
  }

  /**
   USB, from the sender through the threads of both ends: whatever their interleaving
   has been, what the player has been given plays as silence and then a prefix of the
   audio of the packets sent, from the one on at which it was attached. `before` packets
   were sent before there was a connection.
   */
  lemma OverUsb(network: Network, input: seq<Byte>, ends: UsbTunnel.BothEnds, before: nat, requests: seq<nat>,
                arrivals: Arrivals)
    requires ends.Valid() && ends.reader.audioSender.Some?
    requires before <= |Stream(network, input)| && ends.fromRecorder == Stream(network, input)[before..]
    ensures var first := before + ends.attachedAt;
            var played := Play(DirectPlayer(UsbLink(ends.reader.audioSender.value)), requests, arrivals);
            && first <= |Stream(network, input)|
            && !played.step.Panicked?
            && Played(played.samples, AudioOf(Stream(network, input)[first..]))
            && (Lossless(network, input) ==>
                  && RAW_PCM_AUDIO_UDP_DATA_SIZE_IN_BYTES * first <= |input|
                  && Played(played.samples, DecodeSamples(input[RAW_PCM_AUDIO_UDP_DATA_SIZE_IN_BYTES * first..])))
            && var given := |ends.reader.audioSender.value|;
               && first + given <= |Stream(network, input)|
               && (played.step.Stopped? ==>
                     PlayedAll(played.samples, AudioOf(Stream(network, input)[first..first + given])))
  {
    hide Play, Played, Carried, AudioOf;
    ends.AudioGiven();
    var sent, first, link := Stream(network, input), before + ends.attachedAt, ends.reader.audioSender.value;
    forall i | 0 <= i < |link|
      ensures Carried(sent[first + i]) == UsbProtocol.Received(UsbProtocol.OutType.OutAudioData, link[i])
    {
      assert link[i] == sent[before..][ends.attachedAt..][i] == sent[first + i];
      IsCarried(sent[first + i]);
    }
    CarriedOverUsb(network, input, first, link, requests, arrivals);
  }

  lemma IsCarried(packet: PcmPacket)
    ensures Carried(packet) == UsbProtocol.Received(UsbProtocol.OutType.OutAudioData, packet)
  {
    UsbProtocol.AudioRoundTrip(packet);
  }

  // ----- The unreliable connection -----

  /** Every datagram received is one that was sent, `origin` tells which; loss, duplication and order are free. */
  ghost predicate Drawn(network: Network, input: seq<Byte>, received: seq<seq<Byte>>, origin: seq<U32>) {
    && |origin| == |received|
    && forall i :: 0 <= i < |received| ==>
         && origin[i] < |Payloads(input)|
         && network(origin[i]).Sent?
         && received[i] == NumberedPacket(origin[i], Payloads(input)[origin[i]])
  }

  lemma CountersDrawn(network: Network, input: seq<Byte>, received: seq<seq<Byte>>, origin: seq<U32>)
    requires Drawn(network, input, received, origin)
    ensures DataReader.AllNumbered(received)
    ensures DataReader.Counters(received) == origin
    ensures forall i :: 0 <= i < |received| ==> |received[i]| == PCM_AUDIO_PACKET_SIZE_IN_BYTES
  {
    forall i | 0 <= i < |received|
      ensures |received[i]| == PCM_AUDIO_PACKET_SIZE_IN_BYTES && DataReader.Counter(received[i]) == origin[i]
    {
      NumberRead(origin[i], Payloads(input)[origin[i]]);
    }
  }

  lemma NumberRead(n: U32, payload: seq<Byte>)
    ensures var packet := NumberedPacket(n, payload);
            && DataReader.Numbered(packet)
            && DataReader.Counter(packet) == n
            && packet[PACKET_COUNTER_SIZE..] == payload
            && |packet| == PACKET_COUNTER_SIZE + |payload|
  {
    assert NumberedPacket(n, payload)[..PACKET_COUNTER_SIZE] == U32ToBe(n);
  }

  /** The payloads of the packets at the positions `kept`. */
  function PayloadsAt(payloads: seq<seq<Byte>>, origin: seq<U32>, kept: seq<nat>): seq<seq<Byte>>
    requires forall i :: 0 <= i < |origin| ==> origin[i] < |payloads|
    requires forall k :: 0 <= k < |kept| ==> kept[k] < |origin|
  {
    seq(|kept|, k requires 0 <= k < |kept| => payloads[origin[kept[k]]])
  }

  /** The samples passed on are those of the payloads of the packets kept. */
  ghost predicate DecodesKept(payloads: seq<seq<Byte>>, received: seq<seq<Byte>>, origin: seq<U32>)
    requires DataReader.AllNumbered(received)
    requires forall i :: 0 <= i < |origin| ==> origin[i] < |payloads|
  {
    var kept := PayloadsAt(payloads, origin, AudioPackets.Kept(AudioPackets.Bit15, AudioPackets.START, origin));
    && DataReader.KeptAudio(false, received) == DecodeSamples(Flatten(kept))
    && |Flatten(kept)| % 2 == 0
  }

  lemma PayloadsAtLonger(payloads: seq<seq<Byte>>, origin: seq<U32>, n: U32, kept: seq<nat>)
    requires n < |payloads| && forall i :: 0 <= i < |origin| ==> origin[i] < |payloads|
    requires forall k :: 0 <= k < |kept| ==> kept[k] < |origin|
    ensures PayloadsAt(payloads, origin + [n], kept) == PayloadsAt(payloads, origin, kept)
    ensures PayloadsAt(payloads, origin + [n], kept + [|origin|]) == PayloadsAt(payloads, origin, kept) + [payloads[n]]
  {
  }

  lemma DecodesKeptSnoc(payloads: seq<seq<Byte>>, before: seq<seq<Byte>>, origin: seq<U32>, n: U32)
    requires DataReader.AllNumbered(before) && DataReader.Counters(before) == origin
    requires n < |payloads| && forall i :: 0 <= i < |origin| ==> origin[i] < |payloads|
    requires |payloads[n]| == RAW_PCM_AUDIO_UDP_DATA_SIZE_IN_BYTES
    requires DecodesKept(payloads, before, origin)
    ensures DataReader.AllNumbered(before + [NumberedPacket(n, payloads[n])])
    ensures DecodesKept(payloads, before + [NumberedPacket(n, payloads[n])], origin + [n])
  {
    hide AudioPackets.Check, AudioPackets.Kept, AudioPackets.AfterAll, DataReader.KeptAudio, Flatten, DecodeSamples,
         NumberedPacket, PayloadsAt;
    NumberRead(n, payloads[n]);
    DataReader.KeptAudioSnoc(false, before, NumberedPacket(n, payloads[n]));
    AudioPackets.KeptSnoc(AudioPackets.Bit15, origin, n);
    PayloadsAtLonger(payloads, origin, n, AudioPackets.Kept(AudioPackets.Bit15, AudioPackets.START, origin));
    var kept := PayloadsAt(payloads, origin, AudioPackets.Kept(AudioPackets.Bit15, AudioPackets.START, origin));
    FlattenAppend(kept, payloads[n]);
    DecodeConcat(Flatten(kept), payloads[n]);
    assert kept + [] == kept && DecodeSamples(Flatten(kept)) + [] == DecodeSamples(Flatten(kept));
  }

  lemma {:induction false} KeptDecoded(network: Network, input: seq<Byte>, received: seq<seq<Byte>>, origin: seq<U32>)
    requires Drawn(network, input, received, origin)
    ensures DataReader.AllNumbered(received) && DecodesKept(Payloads(input), received, origin)
  {
    hide DecodesKept, NumberedPacket, Payloads;
    CountersDrawn(network, input, received, origin);
    if received == [] {
      DecodesNone(Payloads(input));
    } else {
      var last := |received| - 1;
      KeptDecoded(network, input, received[..last], origin[..last]);
      CountersDrawn(network, input, received[..last], origin[..last]);
      NumberRead(origin[last], Payloads(input)[origin[last]]);
      DecodesKeptSnoc(Payloads(input), received[..last], origin[..last], origin[last]);
      assert received == received[..last] + [received[last]];
      assert origin == origin[..last] + [origin[last]];
    }
  }

  lemma DecodesNone(payloads: seq<seq<Byte>>)
    ensures DecodesKept(payloads, [], [])
  {
  }

  /**
   UDP, under any loss, duplication and reordering of all 2^32 numbers: the reader
   meets no malformed packet, and the callback plays one block of silence and then a
   prefix of the decoding of the payloads of the packets kept. `blocks` is what the
   reading thread queues; playing stops only when all of them have been heard. The
   packets kept are in the order of the sender if and only if no packet arrives stale,
   which for at most 65536 packets means: if and only if none is more than half a window
   behind the expected number.
   */
  lemma OverUdp(network: Network, input: seq<Byte>, received: seq<seq<Byte>>, origin: seq<U32>,
                blocks: seq<Block>, requests: seq<nat>, arrivals: Arrivals)
    requires Drawn(network, input, received, origin)
    requires DataReader.AllNumbered(received)
    requires blocks <= DataReader.Blocked(DataReader.KeptAudio(false, received))
    ensures forall i :: 0 <= i < |received| ==>
              DataReader.AllNumbered(received[..i]) && DataReader.Readable(false, received[..i], received[i])
    ensures var kept := AudioPackets.Kept(AudioPackets.Bit15, AudioPackets.START, origin);
            var inOrder := AudioPackets.IncreasingNumbers(origin, kept);
            && (inOrder <==> AudioPackets.NeverStale(AudioPackets.Bit15, origin))
            && (AudioPackets.InOneWindow(AudioPackets.Bit15, origin) ==>
                  (inOrder <==> AudioPackets.LateAtMost(AudioPackets.Bit15, origin)))
            && var audio := DecodeSamples(Flatten(PayloadsAt(Payloads(input), origin, kept)));
               var played := Play(BlockPlayer(blocks), requests, arrivals);
               && !played.step.Panicked?
               && played.samples <= Silence(AUDIO_BLOCK_SAMPLE_COUNT) + audio
               && (played.step.Stopped? ==> BlocksPlayedAll(played.samples, blocks))
               && (played.step.Stopped? && blocks == DataReader.Blocked(audio) ==>
                     played.samples + DataReader.Unblocked(audio) == Silence(AUDIO_BLOCK_SAMPLE_COUNT) + audio)
  {
    hide *;
    WholePackets(network, input, received, origin);
    AudioPackets.IncreasingExactly(AudioPackets.Bit15, origin);
    if AudioPackets.InOneWindow(AudioPackets.Bit15, origin) {
      AudioPackets.LateExactly(AudioPackets.Bit15, origin);
    }
    KeptDecoded(network, input, received, origin);
    DrawnBelow(network, input, received, origin);
    DecodesKeptAudio(Payloads(input), received, origin);
    UdpPlayed(blocks, DataReader.KeptAudio(false, received), requests, arrivals);
  }

  lemma DrawnBelow(network: Network, input: seq<Byte>, received: seq<seq<Byte>>, origin: seq<U32>)
    requires Drawn(network, input, received, origin)
    ensures forall i :: 0 <= i < |origin| ==> origin[i] < |Payloads(input)|
  {
  }

  lemma DecodesKeptAudio(payloads: seq<seq<Byte>>, received: seq<seq<Byte>>, origin: seq<U32>)
    requires DataReader.AllNumbered(received)
    requires forall i :: 0 <= i < |origin| ==> origin[i] < |payloads|
    requires DecodesKept(payloads, received, origin)
    ensures DataReader.KeptAudio(false, received) ==
              DecodeSamples(Flatten(PayloadsAt(payloads, origin,
                                               AudioPackets.Kept(AudioPackets.Bit15, AudioPackets.START, origin))))
  {
  }

  lemma WholePackets(network: Network, input: seq<Byte>, received: seq<seq<Byte>>, origin: seq<U32>)
    requires Drawn(network, input, received, origin)
    ensures DataReader.AllNumbered(received)
    ensures forall i :: 0 <= i < |received| ==>
              DataReader.AllNumbered(received[..i]) && DataReader.Readable(false, received[..i], received[i])
  {
    hide DataReader.Keeps;
    CountersDrawn(network, input, received, origin);
  }

  lemma UdpPlayed(blocks: seq<Block>, audio: seq<Sample>, requests: seq<nat>, arrivals: Arrivals)
    requires blocks <= DataReader.Blocked(audio)
    ensures var played := Play(BlockPlayer(blocks), requests, arrivals);
            && !played.step.Panicked?
            && played.samples <= Silence(AUDIO_BLOCK_SAMPLE_COUNT) + audio
            && (played.step.Stopped? ==> BlocksPlayedAll(played.samples, blocks))
            && (played.step.Stopped? && blocks == DataReader.Blocked(audio) ==>
                  played.samples + DataReader.Unblocked(audio) == Silence(AUDIO_BLOCK_SAMPLE_COUNT) + audio)
  {
    hide Play;
    var _ := BlockPlayback(blocks, requests, arrivals);
    var all, played := DataReader.Blocked(audio), Play(BlockPlayer(blocks), requests, arrivals);
    ChunksPartition(audio, AUDIO_BLOCK_SAMPLE_COUNT);
    FlattenPrefix(all, |blocks|);
    assert all[..|blocks|] == blocks;
    assert Flatten(all) <= audio;
    PrefixThrough(played.samples, Silence(AUDIO_BLOCK_SAMPLE_COUNT), Flatten(blocks), audio);
    ConcatAssociative(Silence(AUDIO_BLOCK_SAMPLE_COUNT), Flatten(blocks), DataReader.Unblocked(audio));
  }

  /** The packets of a loss-free run, in the order sent. */
  ghost predicate InOrderRun(payloads: seq<seq<Byte>>, received: seq<seq<Byte>>) {
    && |received| == |payloads| <= TWO_TO_THE_32
    && forall i :: 0 <= i < |payloads| ==>
         && |payloads[i]| == RAW_PCM_AUDIO_UDP_DATA_SIZE_IN_BYTES
         && received[i] == NumberedPacket(i, payloads[i])
  }

  ghost predicate AllKept(n: nat)
    requires n <= TWO_TO_THE_32
  {
    forall i: U32 :: i < n ==> AudioPackets.KeptInOrder(i)
  }

  lemma InOrderSnoc(before: seq<seq<Byte>>, n: U32, payload: seq<Byte>)
    requires n == |before| && DataReader.AllNumbered(before) && |payload| == RAW_PCM_AUDIO_UDP_DATA_SIZE_IN_BYTES
    requires AudioPackets.AfterAll(AudioPackets.Bit15, AudioPackets.START, DataReader.Counters(before)) ==
               AudioPackets.InOrder(n)
    ensures var received := before + [NumberedPacket(n, payload)];
            && DataReader.AllNumbered(received)
            && AudioPackets.AfterAll(AudioPackets.Bit15, AudioPackets.START, DataReader.Counters(received)) ==
                 AudioPackets.InOrder(n + 1)
            && DataReader.KeptAudio(false, received) ==
                 DataReader.KeptAudio(false, before) +
                 if AudioPackets.KeptInOrder(n) then DecodeSamples(payload) else []
  {
    hide AudioPackets.Check, NumberedPacket, DecodeSamples;
    var packet := NumberedPacket(n, payload);
    NumberRead(n, payload);
    DataReader.CountersSnoc(before, packet);
    DataReader.KeptAudioSnoc(false, before, packet);
    var counters := DataReader.Counters(before);
    assert (counters + [n])[..n] == counters;
  }

  /** What a loss-free run leaves behind, in terms of which packets are kept. */
  ghost predicate InOrderPassed(payloads: seq<seq<Byte>>, received: seq<seq<Byte>>)
    requires |received| <= TWO_TO_THE_32 && DataReader.AllNumbered(received)
  {
    var n, audio := |received|, DataReader.KeptAudio(false, received);
    && |audio| <= RAW_PCM_AUDIO_UDP_DATA_SIZE_IN_SAMPLES * n
    && (|audio| == RAW_PCM_AUDIO_UDP_DATA_SIZE_IN_SAMPLES * n <==> AllKept(n))
    && |Flatten(payloads)| == RAW_PCM_AUDIO_UDP_DATA_SIZE_IN_BYTES * n
    && (AllKept(n) ==> audio == DecodeSamples(Flatten(payloads)))
  }

  lemma InOrderPassedSnoc(payloads: seq<seq<Byte>>, before: seq<seq<Byte>>, n: U32, payload: seq<Byte>, packet: seq<Byte>)
    requires n == |before| && |payload| == RAW_PCM_AUDIO_UDP_DATA_SIZE_IN_BYTES
    requires DataReader.AllNumbered(before) && InOrderPassed(payloads, before)
    requires DataReader.AllNumbered(before + [packet])
    requires DataReader.KeptAudio(false, before + [packet]) ==
               DataReader.KeptAudio(false, before) +
               if AudioPackets.KeptInOrder(n) then DecodeSamples(payload) else []
    ensures InOrderPassed(payloads + [payload], before + [packet])
  {
    hide DataReader.KeptAudio, Flatten, DecodeSamples, AudioPackets.KeptInOrder;
    assert AllKept(n + 1) <==> AllKept(n) && AudioPackets.KeptInOrder(n);
    FlattenAppend(payloads, payload);
    DecodeConcat(Flatten(payloads), payload);
  }

  lemma InOrderNone()
    ensures InOrderPassed([], [])
    ensures AudioPackets.AfterAll(AudioPackets.Bit15, AudioPackets.START, DataReader.Counters([])) ==
              AudioPackets.InOrder(0)
  {
  }

  lemma {:induction false} InOrderReceived(payloads: seq<seq<Byte>>, received: seq<seq<Byte>>)
    requires InOrderRun(payloads, received)
    ensures DataReader.AllNumbered(received) && InOrderPassed(payloads, received)
    ensures AudioPackets.AfterAll(AudioPackets.Bit15, AudioPackets.START, DataReader.Counters(received)) ==
              AudioPackets.InOrder(|received|)
  {
    hide DataReader.Counters, AudioPackets.AfterAll, AudioPackets.InOrder, InOrderPassed, NumberedPacket;
    if received == [] {
      InOrderNone();
      assert payloads == [];
    } else {
      var last := |received| - 1;
      var before := received[..last];
      InOrderReceived(payloads[..last], before);
      InOrderSnoc(before, last, payloads[last]);
      InOrderPassedSnoc(payloads[..last], before, last, payloads[last], received[last]);
      assert received == before + [received[last]];
      assert payloads == payloads[..last] + [payloads[last]];
    }
  }

  /** UDP without loss and in order: the whole input is passed on exactly when it is at most 131072 packets. */
  lemma InOrderOverUdp(payloads: seq<seq<Byte>>, received: seq<seq<Byte>>)
    requires InOrderRun(payloads, received)
    ensures DataReader.AllNumbered(received)
    ensures DataReader.KeptAudio(false, received) == DecodeSamples(Flatten(payloads)) <==> |payloads| <= 0x2_0000
  {
    InOrderReceived(payloads, received);
    AudioPackets.InOrderKeepsAll(|received|);
  }
}
