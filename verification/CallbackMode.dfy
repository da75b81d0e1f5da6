/**
 The speaker callback in place (src/audio/oboe/callback_mode.rs): an audio buffer
 that is overwritten by each payload, the position in it, and the loop that fills
 the slice handed over by the audio system.
 */
module CallbackMode {
  import opened Sequences
  import opened Bytes
  import opened Config
  import opened Playback

  class AudioBuffer {
    var data: seq<Payload>
    const buffer: array<Sample>
    var playingStarted: bool

    ghost predicate Valid() {
      buffer.Length == RAW_PCM_AUDIO_UDP_DATA_SIZE_IN_SAMPLES
    }

    function Value(): DirectBuffer
      requires Valid()
      reads this, buffer
    {
      DirectBuffer(data, buffer[..], playingStarted)
    }

    constructor ()
      ensures Valid() && fresh(buffer)
      ensures Value() == DirectBuffer([], Silence(RAW_PCM_AUDIO_UDP_DATA_SIZE_IN_SAMPLES), false)
    {
      data := [];
      playingStarted := false;
      buffer := new Sample[RAW_PCM_AUDIO_UDP_DATA_SIZE_IN_SAMPLES](i => 0);
      new;
      assert buffer[..] == Silence(RAW_PCM_AUDIO_UDP_DATA_SIZE_IN_SAMPLES);
    }

    predicate AudioBufferFull()
      reads this
    {
      |data| >= DIRECT_MODE_BUFFERING_COUNT
    }

    predicate NewDataRequired()
      reads this
    {
      if playingStarted then data == [] else !AudioBufferFull()
    }

    /** Converts sample by sample, as far as both the target and the bytes reach. */
    static method Convert(target: array<Sample>, audio: seq<Byte>)
      modifies target
      ensures target.Length == RAW_PCM_AUDIO_UDP_DATA_SIZE_IN_SAMPLES ==>
                target[..] == DirectBuffer([], old(target[..]), false).Overwrite(old(target[..]), audio)
    {
      var samples := |audio| / 2;
      var n := if samples < target.Length then samples else target.Length;
      for i := 0 to n
        invariant forall j :: 0 <= j < i ==> target[j] == DecodeSamples(audio)[j]
        invariant forall j :: i <= j < target.Length ==> target[j] == old(target[j])
      {
        target[i] := SampleFromLe(audio[2 * i], audio[2 * i + 1]);
      }
      assert target[..] == DecodeSamples(audio)[..n] + old(target[..])[n..];
    }

    method AddNewAudioPacket(audioPacket: seq<Byte>)
      requires Valid() && |audioPacket| >= PACKET_COUNTER_SIZE
      modifies this, buffer
      ensures Value() == old(Value()).Add(audioPacket)
    {
      // Direct mode is only used with reliable connections: the counter is skipped.
      var audioData := audioPacket[PACKET_COUNTER_SIZE..];
      if playingStarted {
        Convert(buffer, audioData);
      } else {
        var newData := new Sample[RAW_PCM_AUDIO_UDP_DATA_SIZE_IN_SAMPLES](i => 0);
        assert newData[..] == Silence(RAW_PCM_AUDIO_UDP_DATA_SIZE_IN_SAMPLES);
        Convert(newData, audioData);
        data := data + [newData[..]];
        if AudioBufferFull() {
          playingStarted := true;
        }
        assert buffer[..] == old(buffer[..]);
      }
    }

    method GetAudioData()
      requires Valid()
      modifies this, buffer
      ensures Value() == old(Value()).Taken()
    {
      if playingStarted && data != [] {
        var next := data[0];
        data := data[1..];
        for i := 0 to buffer.Length
          invariant data == old(data)[1..] && playingStarted
          invariant forall j :: 0 <= j < i ==> buffer[j] == next[j]
        {
          buffer[i] := next[i];
        }
        assert buffer[..] == next;
      }
    }
  }

  datatype BufferAndReceiver =
    | AudioDataBlock(channel: seq<Block>, block: Block)
    | DirectReceiver(link: Link, nonblocking: bool, buffer: AudioBuffer)

  datatype ChunkResult = Data(samples: seq<Sample>) | Error | Panic

  datatype CallbackStatus = Continue | StatusError | Abort

  class CallbackState {
    var pcmDataReceiver: BufferAndReceiver
    var samplesWritten: nat
    /** Nonblocking receives so far, and how much had arrived at each one. */
    var polls: nat
    const arrivals: Arrivals

    ghost function Repr(): set<object>
      reads this
    {
      if pcmDataReceiver.DirectReceiver?
      then {this, pcmDataReceiver.buffer, pcmDataReceiver.buffer.buffer} else {this}
    }

    ghost predicate Valid()
      reads this, Repr()
    {
      if pcmDataReceiver.DirectReceiver?
      then pcmDataReceiver.buffer.Valid() && samplesWritten <= RAW_PCM_AUDIO_UDP_DATA_SIZE_IN_SAMPLES
      else samplesWritten <= AUDIO_BLOCK_SAMPLE_COUNT
    }

    function Value(): (p: Player)
      requires Valid()
      reads this, Repr()
      ensures p.Valid()
    {
      Player(
        match pcmDataReceiver
        case AudioDataBlock(channel, block) => Source.Blocks(channel, block)
        case DirectReceiver(link, nonblocking, buffer) => Source.Direct(link, nonblocking, buffer.Value()),
        samplesWritten, polls)
    }

    constructor FromLink(link: Link, arrivals: Arrivals)
      ensures Valid() && fresh(Repr())
      ensures Value() == DirectPlayer(link) && this.arrivals == arrivals
    {
      this.arrivals := arrivals;
      var buffer := new AudioBuffer();
      pcmDataReceiver := DirectReceiver(link, true, buffer);
      samplesWritten, polls := 0, 0;
    }

    constructor FromBlocks(channel: seq<Block>, arrivals: Arrivals)
      ensures Valid() && fresh(Repr())
      ensures Value() == BlockPlayer(channel) && this.arrivals == arrivals
    {
      this.arrivals := arrivals;
      pcmDataReceiver := AudioDataBlock(channel, Silence(AUDIO_BLOCK_SAMPLE_COUNT));
      samplesWritten, polls := 0, 0;
    }

    predicate AllCurrentDataWritten()
      reads this
    {
      if pcmDataReceiver.AudioDataBlock? then samplesWritten == AUDIO_BLOCK_SAMPLE_COUNT
      else samplesWritten == RAW_PCM_AUDIO_UDP_DATA_SIZE_IN_SAMPLES
    }

    /** Fetches the next block or payload. */
    method Fetch() returns (r: ChunkResult)
      requires Valid() && AllCurrentDataWritten()
      modifies Repr()
      ensures Repr() == old(Repr()) && Valid()
      ensures match Refill(old(Value()), arrivals)
              case Ready(p) => r == Data([]) && Value() == p
              case Stopped(p) => r == Error && Value() == p
              case Panicked(p) => r == Panic && Value() == p
    {
      match pcmDataReceiver {
        case AudioDataBlock(channel, block) =>
          if channel == [] {
            return Error;
          }
          pcmDataReceiver := AudioDataBlock(channel[1..], channel[0]);
        case DirectReceiver(link, nonblocking, buffer) =>
          if buffer.NewDataRequired() {
            var (rest, arrival) :=
              LinkReceive(link, PCM_AUDIO_PACKET_SIZE_IN_BYTES, nonblocking, arrivals(polls));
            polls := polls + if nonblocking then 1 else 0;
            pcmDataReceiver := DirectReceiver(rest, nonblocking, buffer);
            match arrival {
              case Closed => return Error;
              case IoError => return Error;
              case Overrun => return Panic;
              case NoData =>
                if buffer.playingStarted {
                  // This is probably a data sending bug.
                  return Error;
                }
              case Packet(bytes) =>
                if |bytes| < PACKET_COUNTER_SIZE {
                  return Panic;
                }
                buffer.AddNewAudioPacket(bytes);
                if buffer.playingStarted {
                  pcmDataReceiver := DirectReceiver(rest, false, buffer);
                }
            }
          }
      }
      samplesWritten := 0;
      r := Data([]);
    }

    /** Returns at most `sampleRequest` samples. */
    method GetNewData(sampleRequest: nat) returns (r: ChunkResult)
      requires Valid()
      modifies Repr()
      ensures Repr() == old(Repr()) && Valid()
      ensures match Pull(old(Value()), sampleRequest, arrivals)
              case Chunk(p, samples) => r == Data(samples) && Value() == p
              case NoChunk(Stopped(p)) => r == Error && Value() == p
              case NoChunk(Panicked(p)) => r == Panic && Value() == p
              case NoChunk(Ready(p)) => false
    {
      if AllCurrentDataWritten() {
        r := Fetch();
        if !r.Data? {
          return;
        }
      }

      var currentData;
      match pcmDataReceiver {
        case AudioDataBlock(channel, block) =>
          currentData := block;
        case DirectReceiver(link, nonblocking, buffer) =>
          buffer.GetAudioData();
          currentData := buffer.buffer[..];
      }
      var unwrittenData := currentData[samplesWritten..];
      var maxSampleCount := if |unwrittenData| < sampleRequest then |unwrittenData| else sampleRequest;
      samplesWritten := samplesWritten + maxSampleCount;
      r := Data(unwrittenData[..maxSampleCount]);
    }
  }

  /** A process-wide flag. */
  class Flag {
    var value: bool

    constructor ()
      ensures !value
    {
      value := false;
    }
  }

  /** The loop of the callback. */
  method FillSlice(state: CallbackState, audioData: array<Sample>) returns (status: CallbackStatus)
    requires state.Valid() && audioData !in state.Repr()
    modifies state.Repr(), audioData
    ensures state.Repr() == old(state.Repr()) && state.Valid()
    ensures var filled := Fill(old(state.Value()), audioData.Length, state.arrivals);
            && audioData[..] == filled.samples + old(audioData[..])[|filled.samples|..]
            && state.Value() == filled.step.player
            && EndsWith(filled.step, status)
  {
    hide Fill, Pull, Refill, Underway, EndsWith;
    var position := 0;
    ghost var start := state.Value();
    ghost var before := audioData[..];
    ghost var done: seq<Sample> := [];
    UnderwayStart(start, audioData.Length, state.arrivals);
    assert [] + before[0..] == before;
    while true
      invariant state.Repr() == old(state.Repr()) && state.Valid()
      invariant position == |done| <= audioData.Length && (position == audioData.Length ==> position == 0)
      invariant audioData[..] == done + before[position..]
      invariant Underway(start, audioData.Length, state.Value(), done, state.arrivals)
      decreases audioData.Length - position
    {
      var end, count;
      end, count, done := WriteNext(state, audioData, position, start, done, before);
      if end.Some? {
        return end.value;
      }
      position := position + count;
    }
  }

  predicate EndsWith(step: Step, status: CallbackStatus) {
    status == match step
              case Ready(_) => Continue
              case Stopped(_) => StatusError
              case Panicked(_) => Abort
  }

  /** The callback of the audio system; `audioData` is the slice to fill. */
  method WriteData(state: CallbackState, audioData: array<Sample>, callbackErrorDetected: Flag)
    returns (status: CallbackStatus)
    requires state.Valid() && audioData !in state.Repr()
    modifies state.Repr(), audioData, callbackErrorDetected
    ensures state.Repr() == old(state.Repr()) && state.Valid()
    ensures var filled := Fill(old(state.Value()), audioData.Length, state.arrivals);
            && audioData[..] == filled.samples + old(audioData[..])[|filled.samples|..]
            && state.Value() == filled.step.player
            && EndsWith(filled.step, status)
    ensures callbackErrorDetected.value == (old(callbackErrorDetected.value) || status == StatusError)
  {
    hide *;
    status := FillSlice(state, audioData);
    FlagIsApart(state, callbackErrorDetected);
    if status == StatusError {
      // Stop calling this callback.
      callbackErrorDetected.value := true;
    }
  }

  lemma FlagIsApart(state: CallbackState, flag: Flag)
    ensures flag !in state.Repr()
  {
  }

  /** After `done`, what is left of a callback for `total` samples that began in `start` begins in `p`. */
  ghost predicate Underway(start: Player, total: nat, p: Player, done: seq<Sample>, arrivals: Arrivals)
    requires start.Valid() && p.Valid() && |done| <= total
  {
    var rest := Fill(p, total - |done|, arrivals);
    Fill(start, total, arrivals) == Filled(rest.step, done + rest.samples)
  }

  lemma UnderwayStart(start: Player, total: nat, arrivals: Arrivals)
    requires start.Valid()
    ensures Underway(start, total, start, [], arrivals)
  {
    hide Fill;
    var all := Fill(start, total, arrivals);
    assert [] + all.samples == all.samples;
  }

  lemma UnderwayChunk(start: Player, total: nat, p: Player, done: seq<Sample>, arrivals: Arrivals)
    requires start.Valid() && p.Valid() && |done| <= total
    requires Underway(start, total, p, done, arrivals)
    ensures var pulled := Pull(p, total - |done|, arrivals);
            && (pulled.NoChunk? ==> Fill(start, total, arrivals) == Filled(pulled.step, done))
            && (pulled.Chunk? && |done| + |pulled.samples| == total ==>
                  Fill(start, total, arrivals) == Filled(Ready(pulled.player), done + pulled.samples))
            && (pulled.Chunk? && |done| + |pulled.samples| != total ==>
                  Underway(start, total, pulled.player, done + pulled.samples, arrivals))
  {
    hide *;
    var n := total - |done|;
    FillStep(p, n, arrivals);
    UnderwayRest(start, total, p, done, arrivals);
    var pulled, first := Pull(p, n, arrivals), Fill(p, n, arrivals);
    if pulled.NoChunk? {
      assert done + [] == done;
    } else if |pulled.samples| != n {
      var rest := Fill(pulled.player, n - |pulled.samples|, arrivals);
      FilledAppend(done, pulled.samples, first, rest);
      UnderwayFrom(start, total, pulled.player, done + pulled.samples, arrivals, rest);
    }
  }

  lemma UnderwayRest(start: Player, total: nat, p: Player, done: seq<Sample>, arrivals: Arrivals)
    requires start.Valid() && p.Valid() && |done| <= total
    requires Underway(start, total, p, done, arrivals)
    ensures var rest := Fill(p, total - |done|, arrivals);
            Fill(start, total, arrivals) == Filled(rest.step, done + rest.samples)
  {
    hide Fill;
  }

  lemma UnderwayFrom(start: Player, total: nat, p: Player, done: seq<Sample>, arrivals: Arrivals, rest: Filled)
    requires start.Valid() && p.Valid() && |done| <= total
    requires rest == Fill(p, total - |done|, arrivals)
    requires Fill(start, total, arrivals) == Filled(rest.step, done + rest.samples)
    ensures Underway(start, total, p, done, arrivals)
  {
    hide Fill;
  }

  lemma FilledAppend(done: seq<Sample>, samples: seq<Sample>, first: Filled, rest: Filled)
    requires first == Filled(rest.step, samples + rest.samples)
    ensures Filled(first.step, done + first.samples) == Filled(rest.step, (done + samples) + rest.samples)
  {
    ConcatAssociative(done, samples, rest.samples);
  }

  lemma Spliced(done: seq<Sample>, before: seq<Sample>, newData: seq<Sample>)
    requires |done| + |newData| <= |before|
    ensures var current := done + before[|done|..];
            var n := |done| + |newData|;
            current[..|done|] + newData + current[n..] == done + newData + before[n..]
  {
  }

  /** Gets one chunk and writes it at `position`. */
  method WriteChunk(state: CallbackState, audioData: array<Sample>, position: nat,
                    ghost done: seq<Sample>, ghost before: seq<Sample>)
    returns (result: ChunkResult)
    requires state.Valid() && audioData !in state.Repr()
    requires position == |done| <= audioData.Length == |before|
    requires audioData[..] == done + before[position..]
    modifies state.Repr(), audioData
    ensures state.Repr() == old(state.Repr()) && state.Valid()
    ensures var n := audioData.Length - position;
            match Pull(old(state.Value()), n, state.arrivals)
            case NoChunk(step) =>
              && result == (if step.Stopped? then Error else Panic)
              && !step.Ready?
              && state.Value() == step.player
              && audioData[..] == done + before[position..]
            case Chunk(p, samples) =>
              && result == Data(samples)
              && state.Value() == p
              && |samples| <= n
              && (n > 0 ==> samples != [])
              && audioData[..] == (done + samples) + before[position + |samples|..]
  {
    hide Fill, Pull, Refill;
    result := state.GetNewData(audioData.Length - position);
    if result.Data? {
      Spliced(done, before, result.samples);
      CopyInto(audioData, position, result.samples);
    }
  }

  /** One more chunk of the callback that began in `start`; `end` when it is the last one. */
  method WriteNext(state: CallbackState, audioData: array<Sample>, position: nat,
                   ghost start: Player, ghost done: seq<Sample>, ghost before: seq<Sample>)
    returns (end: Option<CallbackStatus>, count: nat, ghost next: seq<Sample>)
    requires state.Valid() && start.Valid() && audioData !in state.Repr()
    requires position == |done| <= audioData.Length == |before| && (position == audioData.Length ==> position == 0)
    requires audioData[..] == done + before[position..]
    requires Underway(start, audioData.Length, state.Value(), done, state.arrivals)
    modifies state.Repr(), audioData
    ensures state.Repr() == old(state.Repr()) && state.Valid()
    ensures |next| == |done| + count <= audioData.Length && audioData[..] == next + before[|next|..]
    ensures end.None? ==>
              0 < count < audioData.Length - position &&
              Underway(start, audioData.Length, state.Value(), next, state.arrivals)
    ensures end.Some? ==>
              var filled := Fill(start, audioData.Length, state.arrivals);
              filled.samples == next && filled.step.player == state.Value() && EndsWith(filled.step, end.value)
  {
    hide Fill, Pull, Underway;
    UnderwayChunk(start, audioData.Length, state.Value(), done, state.arrivals);
    var result := WriteChunk(state, audioData, position, done, before);
    match result {
      case Error =>
        end, count, next := Some(StatusError), 0, done;
      case Panic =>
        end, count, next := Some(Abort), 0, done;
      case Data(newData) =>
        count, next := |newData|, done + newData;
        end := if position + count == audioData.Length then Some(Continue) else None;
    }
  }

  method CopyInto(target: array<Sample>, position: nat, source: seq<Sample>)
    requires position + |source| <= target.Length
    modifies target
    ensures target[..] == old(target[..])[..position] + source + old(target[..])[position + |source|..]
  {
    for i := 0 to |source|
      invariant forall j :: 0 <= j < target.Length ==>
                  target[j] == if position <= j < position + i then source[j - position] else old(target[j])
    {
      target[position + i] := source[i];
    }
  }
}
