/**
 The task of each connected device and the manager of the tasks (src/device/state.rs,
 src/device.rs).
 */
module Devices {
  import opened Sequences
  import opened Bytes
  import opened Messages

  /** The parts of the configuration that the tasks look at, and the platform. */
  datatype Config = Config(android: bool, encodeOpus: bool, udpAudioSending: bool, connectionListening: bool)

  datatype AudioFormat = Pcm | Opus | Unsupported

  datatype AudioStreamInfo = AudioStreamInfo(
    format: AudioFormat, channels: nat, rate: U32, port: nat, connection: DataConnectionType)

  datatype DeviceMessage =
    | Ping
    | PingResponse
    | AudioStreamPlayError
    | PlayAudioStream(info: AudioStreamInfo)
    | GetNativeRate
    | NativeSampleRate(rate: I32)
    | StartAudio

  datatype DeviceEvent = SendPing | AudioInfo(info: AndroidAudioInfo) | Disconnect | SendStartAudio

  /** What is done once the audio info is known. */
  datatype WhenKnown = ReplyRate | Connect(event: CmEvent)

  datatype Device = Device(
    id: ConnectionId, usb: bool, pinging: bool, recordingRate: Option<I32>, audioOut: bool,
    info: Option<AndroidAudioInfo>, waiting: seq<WhenKnown>)

  function NewDevice(id: ConnectionId, usb: bool): Device {
    Device(id, usb, false, None, false, None, [])
  }

  datatype Reaction = Reaction(device: Device, toRouter: seq<RouterMessage>, toPeer: seq<DeviceMessage>) | Panic

  function SendType(c: Config, d: Device): DataConnectionType {
    if d.usb then Usb else if c.udpAudioSending then Udp else Tcp
  }

  predicate SupportedRate(rate: int) {
    rate == 44100 || rate == 48000
  }

  predicate Playable(info: AudioStreamInfo) {
    info.channels == 2 && SupportedRate(info.rate) && !info.format.Unsupported?
  }

  /** The reaction to a message from the connected device. */
  function React(c: Config, d: Device, m: DeviceMessage): Reaction {
    match m
    case Ping => Reaction(d, [], [PingResponse])
    case PingResponse => Reaction(d.(pinging := false), [], [])
    case AudioStreamPlayError => Reaction(d, [], [])
    case StartAudio => Reaction(d, [Audio(StartAudioStream)], [])
    case NativeSampleRate(rate) =>
      if rate == 0 then Reaction(d, [], [])
      else if !SupportedRate(rate) then Panic
      else
        Reaction(d.(recordingRate := Some(rate), audioOut := true),
                 [Cm(SetNextResourceRequest(d.id, SendAudio(rate), SendType(c, d)))],
                 [PlayAudioStream(if c.encodeOpus then AudioStreamInfo(Opus, 2, 48000, 8082, SendType(c, d))
                                  else AudioStreamInfo(Pcm, 2, rate, 8082, SendType(c, d)))])
    case GetNativeRate =>
      if !c.android then Reaction(d, [], [NativeSampleRate(48000)])
      else if d.info.Some? then Reaction(d, [], [NativeSampleRate(d.info.value.nativeSampleRate)])
      else Reaction(d.(waiting := d.waiting + [ReplyRate]), [Ui(GetNativeSampleRate(d.id))], [])
    case PlayAudioStream(info) =>
      if !Playable(info) then Reaction(d, [], [])
      else if c.android && d.info.None? then Panic
      else
        var frames := if c.android then Some(d.info.value.framesPerBurst) else None;
        Reaction(d, [Cm(ConnectToData(d.id, PlayAudio(info.rate, frames, info.format.Opus?), info.connection))], [])
  }

  /** The reaction to an event from the device manager. */
  function OnEvent(d: Device, e: DeviceEvent): (r: Reaction)
    ensures r.Reaction?
  {
    match e
    case SendPing => Reaction(d.(pinging := true), [], if d.pinging then [] else [Ping])
    case Disconnect => Reaction(d, [], [])
    case SendStartAudio => Reaction(d, [], [StartAudio])
    case AudioInfo(info) =>
      Reaction(d.(info := Some(info), waiting := []), ConnectEvents(d.waiting), Replies(d.waiting, info))
  }

  /** Messages of a task name only its own connection, and it removes itself only when it ends. */
  predicate Own(id: ConnectionId, m: RouterMessage) {
    match m
    case Cm(cm) => (cm.ConnectToData? || cm.SetNextResourceRequest?) && cm.id == id
    case Audio(audio) => audio.StartAudioStream?
    case Dm(_) => false
    case Ui(_) => true
  }

  ghost predicate AllOwn(id: ConnectionId, messages: seq<RouterMessage>) {
    forall i :: 0 <= i < |messages| ==> Own(id, messages[i])
  }

  /**
   A task panics exactly on a sample rate that is neither 0 nor a supported one, and on
   Android on a stream that arrives before the audio info and is not refused. Refused
   is what is not stereo, not at 44100 or 48000, or neither PCM nor Opus.
   */
  lemma PanicsExactly(c: Config, d: Device, m: DeviceMessage)
    ensures var played := m.PlayAudioStream? && m.info.channels == 2 && (m.info.rate == 44100 || m.info.rate == 48000) &&
                          (m.info.format == Pcm || m.info.format == Opus);
            && (React(c, d, m) == Panic <==>
                  || (m.NativeSampleRate? && m.rate != 0 && m.rate != 44100 && m.rate != 48000)
                  || (played && c.android && d.info.None?))
            && (m.PlayAudioStream? && !played ==> React(c, d, m) == Reaction(d, [], []))
    ensures React(c, d, m).Reaction? ==>
              && React(c, d, m).device.id == d.id
              && AllOwn(d.id, React(c, d, m).toRouter)
              && (d.info.None? ==> forall i :: 0 <= i < |React(c, d, m).toRouter| ==>
                    React(c, d, m).toRouter[i].Cm? && React(c, d, m).toRouter[i].cm.ConnectToData? ==> !c.android)
  {
  }

  /**
   How a sender and a receiver agree on a stream. The receiver answers the question for
   its rate; on this answer the sender panics unless it is 0 or a supported rate, and
   sends nothing for 0. Otherwise it asks its connection manager for the recording of
   that rate and announces the stream, over USB when it is connected over USB, and else
   over UDP or TCP as it is configured; and the receiver asks for playing what is
   announced, at 48000 for Opus, over the same kind of connection.
   */
  lemma Handshake(cs: Config, sender: Device, cr: Config, receiver: Device)
    requires !cr.android || receiver.info.Some?
    ensures var rate: int := if cr.android then receiver.info.value.nativeSampleRate else 48000;
            var frames := if cr.android then Some(receiver.info.value.framesPerBurst) else None;
            var kind := if sender.usb then Usb else if cs.udpAudioSending then Udp else Tcp;
            var reply := React(cr, receiver, GetNativeRate);
            && reply.Reaction? && reply.device == receiver && reply.toRouter == []
            && reply.toPeer == [NativeSampleRate(rate)]
            && var asked := React(cs, sender, NativeSampleRate(rate));
               if rate == 0 then asked == Reaction(sender, [], [])
               else if rate != 44100 && rate != 48000 then asked == Panic
               else
                 && asked.Reaction?
                 && asked.toRouter == [Cm(SetNextResourceRequest(sender.id, SendAudio(rate), kind))]
                 && |asked.toPeer| == 1
                 && React(cr, receiver, asked.toPeer[0]) ==
                      Reaction(receiver,
                               [Cm(ConnectToData(receiver.id,
                                                 PlayAudio(if cs.encodeOpus then 48000 else rate, frames, cs.encodeOpus),
                                                 kind))],
                               [])
  {
  }

  datatype QuitMode = QuitRequest | Disconnected | ConnectionFailed

  datatype TaskInput = FromPeer(message: DeviceMessage) | ConnectionBroken | Event(event: DeviceEvent) | Quit {
    /** After such an input the task stops, unless it has panicked before. */
    predicate Ends() {
      Quit? || ConnectionBroken? || (Event? && event.Disconnect?)
    }
  }

  datatype TaskResult = Running | Left(mode: QuitMode) | Panicked

  predicate Because(input: TaskInput, result: TaskResult) {
    match result
    case Running => false
    case Left(QuitRequest) => input.Quit?
    case Left(Disconnected) => input == Event(Disconnect)
    case Left(ConnectionFailed) => input.ConnectionBroken?
    case Panicked => input.FromPeer?
  }

  /** What a task that stops by itself sends last. */
  function LastWords(id: ConnectionId, result: TaskResult): seq<RouterMessage> {
    match result
    case Left(Disconnected) => [Dm(RemoveConnection(id))]
    case Left(ConnectionFailed) => [Ui(ConnectionError(id)), Dm(RemoveConnection(id))]
    case _ => []
  }

  datatype Lived = Lived(device: Device, toRouter: seq<RouterMessage>, toPeer: seq<DeviceMessage>)

  function Effect(c: Config, d: Device, input: TaskInput): Reaction {
    match input
    case FromPeer(message) => React(c, d, message)
    case Event(event) => OnEvent(d, event)
    case _ => Reaction(d, [], [])
  }

  /** All reactions one after the other. */
  function Life(c: Config, d: Device, inputs: seq<TaskInput>): Lived {
    if inputs == [] then Lived(d, [], [])
    else
      var before := Life(c, d, inputs[..|inputs| - 1]);
      var r := Effect(c, before.device, inputs[|inputs| - 1]);
      if r.Panic? then before else Lived(r.device, before.toRouter + r.toRouter, before.toPeer + r.toPeer)
  }

  /** None of the messages makes the task panic. */
  predicate Calm(c: Config, d: Device, inputs: seq<TaskInput>) {
    inputs != [] ==>
      var front, last := inputs[..|inputs| - 1], inputs[|inputs| - 1];
      Calm(c, d, front) && Effect(c, Life(c, d, front).device, last).Reaction?
  }

  lemma LifeStarts(c: Config, d: Device, inputs: seq<TaskInput>)
    ensures Life(c, d, inputs[..0]) == Lived(d, [], []) && Calm(c, d, inputs[..0])
  {
  }

  lemma LifeGrows(c: Config, d: Device, inputs: seq<TaskInput>, n: nat)
    requires n < |inputs|
    ensures var before, after := Life(c, d, inputs[..n]), Life(c, d, inputs[..n + 1]);
            var r := Effect(c, before.device, inputs[n]);
            && after == (if r.Panic? then before
                         else Lived(r.device, before.toRouter + r.toRouter, before.toPeer + r.toPeer))
            && (Calm(c, d, inputs[..n + 1]) <==> Calm(c, d, inputs[..n]) && r.Reaction?)
  {
    hide Effect;
    assert inputs[..n + 1][..n] == inputs[..n];
  }

  class DeviceStateTask {
    const config: Config
    var device: Device
    var toRouter: seq<RouterMessage>
    var toPeer: seq<DeviceMessage>

    constructor (config: Config, id: ConnectionId, usb: bool)
      ensures this.config == config && device == NewDevice(id, usb) && toRouter == []
      ensures toPeer == if config.connectionListening then [GetNativeRate] else []
    {
      this.config, device, toRouter := config, NewDevice(id, usb), [];
      toPeer := if config.connectionListening then [GetNativeRate] else [];
    }

    method HandleClientMessage(message: DeviceMessage) returns (panicked: bool)
      modifies this
      ensures panicked <==> React(config, old(device), message).Panic?
      ensures !panicked ==>
                var r := React(config, old(device), message);
                device == r.device && toRouter == old(toRouter) + r.toRouter && toPeer == old(toPeer) + r.toPeer
      ensures panicked ==> device == old(device) && toRouter == old(toRouter) && toPeer == old(toPeer)
    {
      assert toRouter + [] == toRouter && toPeer + [] == toPeer;
      panicked := false;
      match message {
        case Ping => toPeer := toPeer + [PingResponse];
        case PingResponse => device := device.(pinging := false);
        case AudioStreamPlayError =>
        case StartAudio => toRouter := toRouter + [Audio(StartAudioStream)];
        case NativeSampleRate(rate) =>
          if rate == 0 {
            // Audio playing is not supported.
            return;
          }
          if rate != 44100 && rate != 48000 {
            return true;
          }
          device := device.(recordingRate := Some(rate));
          var sampleRate, format := rate, Pcm;
          if config.encodeOpus {
            sampleRate, format := 48000, Opus;
          }
          var connection := if device.usb then Usb else if config.udpAudioSending then Udp else Tcp;
          var info := AudioStreamInfo(format, 2, sampleRate, 8082, connection);
          toRouter := toRouter + [Cm(SetNextResourceRequest(device.id, SendAudio(device.recordingRate.value), connection))];
          toPeer := toPeer + [PlayAudioStream(info)];
          device := device.(audioOut := true);
        case GetNativeRate =>
          if config.android {
            RequestInfo(ReplyRate);
          } else {
            toPeer := toPeer + [NativeSampleRate(48000)];
          }
        case PlayAudioStream(info) =>
          if info.channels != 2 {
            return;
          }
          if info.rate != 44100 && info.rate != 48000 {
            return;
          }
          if info.format.Unsupported? {
            return;
          }
          var framesPerBurst := None;
          if config.android {
            if device.info.None? {
              return true;
            }
            framesPerBurst := Some(device.info.value.framesPerBurst);
          }
          var m := ConnectToData(device.id, PlayAudio(info.rate, framesPerBurst, info.format.Opus?), info.connection);
          if config.android {
            RequestInfo(Connect(m));
          } else {
            toRouter := toRouter + [Cm(m)];
          }
      }
    }

    /** Acts at once when the audio info is known, and otherwise asks the UI for it. */
    method RequestInfo(w: WhenKnown)
      modifies this
      ensures old(device.info).None? ==>
                && device == old(device).(waiting := old(device.waiting) + [w])
                && toRouter == old(toRouter) + [Ui(GetNativeSampleRate(device.id))]
                && toPeer == old(toPeer)
      ensures old(device.info).Some? ==>
                && device == old(device)
                && toRouter == old(toRouter) + ConnectEvents([w])
                && toPeer == old(toPeer) + Replies([w], device.info.value)
    {
      if device.info.None? {
        device := device.(waiting := device.waiting + [w]);
        toRouter := toRouter + [Ui(GetNativeSampleRate(device.id))];
      } else {
        assert [w][1..] == [];
        Act(w);
      }
    }

    method Act(w: WhenKnown)
      requires device.info.Some?
      modifies `toRouter, `toPeer
      ensures toRouter == old(toRouter) + (if w.Connect? then [Cm(w.event)] else [])
      ensures toPeer == old(toPeer) + (if w.ReplyRate? then [NativeSampleRate(device.info.value.nativeSampleRate)] else [])
    {
      match w {
        case Connect(event) => toRouter := toRouter + [Cm(event)];
        case ReplyRate => toPeer := toPeer + [NativeSampleRate(device.info.value.nativeSampleRate)];
      }
    }

    /** Answers everything that waited for the audio info, in order and once. */
    method Drain(waiting: seq<WhenKnown>)
      requires device.info.Some?
      modifies `toRouter, `toPeer
      ensures toRouter == old(toRouter) + ConnectEvents(waiting)
      ensures toPeer == old(toPeer) + Replies(waiting, device.info.value)
    {
      var i := 0;
      while i < |waiting|
        invariant 0 <= i <= |waiting|
        invariant toRouter + ConnectEvents(waiting[i..]) == old(toRouter) + ConnectEvents(waiting)
        invariant toPeer + Replies(waiting[i..], device.info.value) == old(toPeer) + Replies(waiting, device.info.value)
      {
        assert waiting[i..][1..] == waiting[i + 1..];
        Act(waiting[i]);
        i := i + 1;
      }
    }

    method HandleDeviceEvent(event: DeviceEvent) returns (quit: Option<QuitMode>)
      modifies this
      ensures quit == if event.Disconnect? then Some(Disconnected) else None
      ensures var r := OnEvent(old(device), event);
              device == r.device && toRouter == old(toRouter) + r.toRouter && toPeer == old(toPeer) + r.toPeer
    {
      assert toRouter + [] == toRouter && toPeer + [] == toPeer;
      quit := None;
      match event {
        case SendPing =>
          if !device.pinging {
            toPeer := toPeer + [Ping];
            device := device.(pinging := true);
          }
        case Disconnect => quit := Some(Disconnected);
        case SendStartAudio => toPeer := toPeer + [StartAudio];
        case AudioInfo(info) =>
          device := device.(info := Some(info));
          var waiting := device.waiting;
          device := device.(waiting := []);
          Drain(waiting);
      }
    }

    /** One round of the loop. */
    method TakeInput(input: TaskInput) returns (result: TaskResult)
      requires OnlyReplies(device.waiting)
      modifies this
      ensures device.id == old(device.id) && device.usb == old(device.usb) && OnlyReplies(device.waiting)
      ensures var r := Effect(config, old(device), input);
              && (result.Panicked? <==> r.Panic?)
              && device == (if r.Panic? then old(device) else r.device)
              && toPeer == old(toPeer) + (if r.Panic? then [] else r.toPeer)
              && toRouter == old(toRouter) + (if r.Panic? then [] else r.toRouter) + LastWords(device.id, result)
              && (r.Reaction? ==> AllOwn(device.id, r.toRouter))
      ensures result.Running? <==> !input.Ends() && !result.Panicked?
      ensures !result.Running? ==> Because(input, result)
      ensures result.Panicked? ==>
                React(config, NewDevice(device.id, device.usb).(info := old(device).info), input.message).Panic?
    {
      hide React, OnEvent, OnlyReplies;
      assert toRouter + [] == toRouter && toPeer + [] == toPeer;
      result := Running;
      match input {
        case Quit =>
          result := Left(QuitRequest);
        case ConnectionBroken =>
          toRouter := toRouter + [Ui(ConnectionError(device.id))];
          toRouter := toRouter + [Dm(RemoveConnection(device.id))];
          result := Left(ConnectionFailed);
        case FromPeer(message) =>
          PanicsExactly(config, device, message);
          PanicsExactly(config, NewDevice(device.id, device.usb).(info := device.info), message);
          OnlyRepliesWait(config, device, message);
          var panicked := HandleClientMessage(message);
          if panicked {
            result := Panicked;
          }
        case Event(event) =>
          EventIsSilent(device, event);
          var quit := HandleDeviceEvent(event);
          if quit.Some? {
            toRouter := toRouter + [Dm(RemoveConnection(device.id))];
            result := Left(quit.value);
          }
      }
    }

    /**
     The life of the task: `handled` inputs are handled, each with its reaction, and
     the last of them ends the task exactly when it is a quit request, a broken
     connection, an order to disconnect, or a message that makes the task panic. Its
     messages name only its own connection, and it asks for its removal once, as its
     last message, unless it was asked to quit.
     */
    method Run(inputs: seq<TaskInput>) returns (result: TaskResult, handled: nat)
      requires toRouter == [] && device.waiting == []
      modifies this
      ensures device.id == old(device.id)
      ensures handled <= |inputs| && (result.Running? ==> handled == |inputs|)
      ensures forall k :: 0 <= k < handled && inputs[k].Ends() ==> k == handled - 1 && !result.Running?
      ensures !result.Running? ==> handled > 0 && Because(inputs[handled - 1], result)
      ensures var life := Life(config, old(device), inputs[..handled]);
              && device == life.device
              && toPeer == old(toPeer) + life.toPeer
              && toRouter == [Ui(ConnectionEstablished(device.id))] + life.toRouter + LastWords(device.id, result)
              && AllOwn(device.id, [Ui(ConnectionEstablished(device.id))] + life.toRouter)
      ensures result.Panicked? <==> !Calm(config, old(device), inputs[..handled])
      ensures result.Panicked? ==> exists i, info ::
                && 0 <= i < |inputs|
                && inputs[i].FromPeer?
                && React(config, NewDevice(device.id, device.usb).(info := info), inputs[i].message).Panic?
    {
      hide React, Effect, OnlyReplies, LastWords, Life, Calm;
      NothingWaits();
      NoLastWords(device.id);
      toRouter := toRouter + [Ui(ConnectionEstablished(device.id))];
      result, handled := Running, 0;
      ghost var first := [Ui(ConnectionEstablished(device.id))];
      LifeStarts(config, device, inputs);
      while handled < |inputs|
        invariant handled <= |inputs| && result.Running?
        invariant device.id == old(device.id) && device.usb == old(device.usb) && OnlyReplies(device.waiting)
        invariant forall k :: 0 <= k < handled ==> !inputs[k].Ends()
        invariant var life := Life(config, old(device), inputs[..handled]);
                  && device == life.device
                  && toPeer == old(toPeer) + life.toPeer
                  && toRouter == first + life.toRouter
                  && AllOwn(device.id, first + life.toRouter)
        invariant Calm(config, old(device), inputs[..handled])
      {
        LifeGrows(config, old(device), inputs, handled);
        ghost var before := Life(config, old(device), inputs[..handled]);
        ghost var r := Effect(config, device, inputs[handled]);
        if r.Reaction? {
          ConcatAssociative(first, before.toRouter, r.toRouter);
          ConcatAssociative(old(toPeer), before.toPeer, r.toPeer);
        }
        result := TakeInput(inputs[handled]);
        handled := handled + 1;
        if !result.Running? {
          return;
        }
      }
    }
  }

  lemma NoLastWords(id: ConnectionId)
    ensures LastWords(id, Running) == []
  {
  }

  function ConnectEvents(waiting: seq<WhenKnown>): seq<RouterMessage> {
    if waiting == [] then []
    else (if waiting[0].Connect? then [Cm(waiting[0].event)] else []) + ConnectEvents(waiting[1..])
  }

  function Replies(waiting: seq<WhenKnown>, info: AndroidAudioInfo): seq<DeviceMessage> {
    if waiting == [] then []
    else (if waiting[0].ReplyRate? then [NativeSampleRate(info.nativeSampleRate)] else []) + Replies(waiting[1..], info)
  }

  /** Only answers to the peer ever wait for the audio info: a stream request that needs it panics instead. */
  ghost predicate OnlyReplies(waiting: seq<WhenKnown>) {
    forall j :: 0 <= j < |waiting| ==> waiting[j].ReplyRate?
  }

  lemma NothingWaits()
    ensures OnlyReplies([])
  {
  }

  lemma OnlyRepliesWait(c: Config, d: Device, m: DeviceMessage)
    requires OnlyReplies(d.waiting)
    ensures React(c, d, m).Reaction? ==>
              && OnlyReplies(React(c, d, m).device.waiting)
              && React(c, d, m).device.usb == d.usb
  {
  }

  lemma {:induction false} RepliesOnly(waiting: seq<WhenKnown>)
    requires OnlyReplies(waiting)
    ensures ConnectEvents(waiting) == []
  {
    if waiting != [] {
      RepliesOnly(waiting[1..]);
    }
  }

  /** An event from the manager makes the task send nothing through the router. */
  lemma EventIsSilent(d: Device, e: DeviceEvent)
    requires OnlyReplies(d.waiting)
    ensures OnEvent(d, e).toRouter == []
    ensures OnlyReplies(OnEvent(d, e).device.waiting)
    ensures OnEvent(d, e).device.id == d.id && OnEvent(d, e).device.usb == d.usb
  {
    RepliesOnly(d.waiting);
  }

  // ----- Every question is answered -----

  /** How many of the items are of a kind. */
  function Count<T>(items: seq<T>, kind: T -> bool): nat {
    if items == [] then 0 else Count(items[..|items| - 1], kind) + if kind(items[|items| - 1]) then 1 else 0
  }

  lemma {:induction false} CountConcat<T>(left: seq<T>, right: seq<T>, kind: T -> bool)
    ensures Count(left + right, kind) == Count(left, kind) + Count(right, kind)
  {
    if right == [] {
      assert left + right == left;
    } else {
      assert (left + right)[..|left + right| - 1] == left + right[..|right| - 1];
      CountConcat(left, right[..|right| - 1], kind);
    }
  }

  predicate IsRate(m: DeviceMessage) {
    m.NativeSampleRate?
  }

  predicate IsPingResponse(m: DeviceMessage) {
    m.PingResponse?
  }

  predicate IsStartAudio(m: DeviceMessage) {
    m.StartAudio?
  }

  predicate IsStartStream(m: RouterMessage) {
    m == Audio(StartAudioStream)
  }

  lemma {:induction false} RepliesCount(waiting: seq<WhenKnown>, info: AndroidAudioInfo)
    requires OnlyReplies(waiting)
    ensures var replies := Replies(waiting, info);
            Count(replies, IsRate) == |waiting| && Count(replies, IsPingResponse) == 0 == Count(replies, IsStartAudio)
  {
    if waiting != [] {
      RepliesCount(waiting[1..], info);
      var first, others := [NativeSampleRate(info.nativeSampleRate)], Replies(waiting[1..], info);
      CountConcat(first, others, IsRate);
      CountConcat(first, others, IsPingResponse);
      CountConcat(first, others, IsStartAudio);
    }
  }

  /** What one reaction adds to the answers. */
  ghost predicate Answers(d: Device, input: TaskInput, r: Reaction) {
    r.Reaction? ==>
      && OnlyReplies(r.device.waiting)
      && (r.device.info.Some? ==> r.device.waiting == [])
      && Count(r.toPeer, IsPingResponse) == (if input == FromPeer(Ping) then 1 else 0)
      && Count(r.toPeer, IsStartAudio) == (if input == Event(SendStartAudio) then 1 else 0)
      && Count(r.toRouter, IsStartStream) == (if input == FromPeer(StartAudio) then 1 else 0)
      && Count(r.toPeer, IsRate) + |r.device.waiting| == |d.waiting| + (if input == FromPeer(GetNativeRate) then 1 else 0)
  }

  lemma AnswerMessage(c: Config, d: Device, m: DeviceMessage)
    requires OnlyReplies(d.waiting) && (d.info.Some? ==> d.waiting == [])
    ensures Answers(d, FromPeer(m), React(c, d, m))
  {
  }

  lemma AnswerEvent(d: Device, e: DeviceEvent)
    requires OnlyReplies(d.waiting) && (d.info.Some? ==> d.waiting == [])
    ensures Answers(d, Event(e), OnEvent(d, e))
  {
    EventIsSilent(d, e);
    if e.AudioInfo? {
      RepliesCount(d.waiting, e.info);
    }
  }

  function CountInput(inputs: seq<TaskInput>, input: TaskInput): nat {
    if inputs == [] then 0
    else CountInput(inputs[..|inputs| - 1], input) + if inputs[|inputs| - 1] == input then 1 else 0
  }

  lemma AnswersGrow(d: Device, input: TaskInput, r: Reaction, before: Lived)
    requires Answers(d, input, r) && r.Reaction?
    ensures var toPeer, toRouter := before.toPeer + r.toPeer, before.toRouter + r.toRouter;
            && Count(toPeer, IsPingResponse) ==
                 Count(before.toPeer, IsPingResponse) + (if input == FromPeer(Ping) then 1 else 0)
            && Count(toPeer, IsStartAudio) ==
                 Count(before.toPeer, IsStartAudio) + (if input == Event(SendStartAudio) then 1 else 0)
            && Count(toRouter, IsStartStream) ==
                 Count(before.toRouter, IsStartStream) + (if input == FromPeer(StartAudio) then 1 else 0)
            && Count(toPeer, IsRate) + |r.device.waiting| ==
                 Count(before.toPeer, IsRate) + |d.waiting| + (if input == FromPeer(GetNativeRate) then 1 else 0)
  {
    hide Count, OnlyReplies;
    CountConcat(before.toPeer, r.toPeer, IsPingResponse);
    CountConcat(before.toPeer, r.toPeer, IsStartAudio);
    CountConcat(before.toRouter, r.toRouter, IsStartStream);
    CountConcat(before.toPeer, r.toPeer, IsRate);
  }

  lemma AnswerOne(c: Config, d: Device, input: TaskInput)
    requires OnlyReplies(d.waiting) && (d.info.Some? ==> d.waiting == [])
    ensures Answers(d, input, Effect(c, d, input))
  {
    hide React, OnEvent;
    match input {
      case FromPeer(m) => AnswerMessage(c, d, m);
      case Event(e) => AnswerEvent(d, e);
      case _ =>
    }
  }

  /**
   Over a whole life every ping is answered once, every wish to start the audio is
   passed on once in either direction, and every question for the rate is answered once
   or waits for the audio info; none waits once that is known.
   */
  lemma {:induction false} AnswersExactly(c: Config, d: Device, inputs: seq<TaskInput>)
    requires Calm(c, d, inputs) && OnlyReplies(d.waiting) && (d.info.Some? ==> d.waiting == [])
    ensures var life := Life(c, d, inputs);
            && OnlyReplies(life.device.waiting)
            && (life.device.info.Some? ==> life.device.waiting == [])
            && Count(life.toPeer, IsPingResponse) == CountInput(inputs, FromPeer(Ping))
            && Count(life.toPeer, IsStartAudio) == CountInput(inputs, Event(SendStartAudio))
            && Count(life.toRouter, IsStartStream) == CountInput(inputs, FromPeer(StartAudio))
            && Count(life.toPeer, IsRate) + |life.device.waiting| ==
                 |d.waiting| + CountInput(inputs, FromPeer(GetNativeRate))
  {
    hide Effect, OnlyReplies;
    if inputs != [] {
      var front, last := inputs[..|inputs| - 1], inputs[|inputs| - 1];
      AnswersExactly(c, d, front);
      var before := Life(c, d, front);
      AnswerOne(c, before.device, last);
      AnswersGrow(before.device, last, Effect(c, before.device, last), before);
      hide Count;
    }
  }

  // ----- The device manager -----

  /** The running tasks, and the events in the channel of each. */
  type Mailboxes = map<ConnectionId, seq<DeviceEvent>>

  datatype Managed =
    | Managed(connections: Mailboxes, toRouter: seq<RouterMessage>, started: Option<Device>, quit: Option<ConnectionId>)
    | RemoveFailed

  function Tell(connections: Mailboxes, id: ConnectionId, e: DeviceEvent): Mailboxes {
    if id in connections then connections[id := connections[id] + [e]] else connections
  }

  function TellAll(connections: Mailboxes, e: DeviceEvent): Mailboxes {
    map id | id in connections :: connections[id] + [e]
  }

  /** `RemoveFailed` is the panic on removing a connection that is not there. */
  function Manage(connections: Mailboxes, e: DmEvent): Managed {
    match e
    case NewDeviceConnection(id, usb) => Managed(connections[id := []], [], Some(NewDevice(id, usb)), None)
    case UiNativeSampleRate(id, info) => Managed(Tell(connections, id, AudioInfo(info)), [], None, None)
    case SendStartAudioStream(id) => Managed(Tell(connections, id, SendStartAudio), [], None, None)
    case DisconnectAllDevices => Managed(TellAll(connections, Disconnect), [], None, None)
    case RunDeviceConnectionPing => Managed(TellAll(connections, SendPing), [], None, None)
    case RemoveConnection(id) =>
      if id !in connections then RemoveFailed
      else
        var rest := connections - {id};
        Managed(rest, [Cm(RemoveDataConnections(id))] + if rest == map[] then [Ui(AllDevicesAreNowDisconnected)] else [],
                None, Some(id))
  }

  /** A removal is passed on for the connection removed, and the UI hears of the last one, and of nothing else. */
  lemma RemovalIsPassedOn(connections: Mailboxes, e: DmEvent)
    requires Manage(connections, e).Managed?
    ensures var sent := Manage(connections, e).toRouter;
            && (forall cm :: Cm(cm) in sent <==> e.RemoveConnection? && cm == RemoveDataConnections(e.id))
            && (forall ui :: Ui(ui) in sent <==>
                  ui == AllDevicesAreNowDisconnected && e.RemoveConnection? && connections.Keys == {e.id})
            && (forall m :: m in sent ==> m.Cm? || m.Ui?)
  {
    if e.RemoveConnection? {
      var rest := connections - {e.id};
      assert rest == map[] <==> rest.Keys == {};
      assert rest.Keys == connections.Keys - {e.id};
    }
  }

  class DeviceManager {
    var connections: Mailboxes
    var toRouter: seq<RouterMessage>

    constructor ()
      ensures connections == map[] && toRouter == []
    {
      connections, toRouter := map[], [];
    }

    method SendToAll(event: DeviceEvent)
      modifies `connections
      ensures connections == TellAll(old(connections), event)
    {
      var ids := connections.Keys;
      while ids != {}
        invariant ids <= connections.Keys == old(connections).Keys
        invariant forall id: ConnectionId :: id in connections ==>
                    connections[id] == old(connections)[id] + if id in ids then [] else [event]
        decreases |ids|
      {
        var id :| id in ids;
        ids := ids - {id};
        connections := connections[id := connections[id] + [event]];
      }
    }

    method HandleDmEvent(event: DmEvent) returns (started: Option<Device>, quit: Option<ConnectionId>, panicked: bool)
      modifies this
      ensures panicked <==> Manage(old(connections), event).RemoveFailed?
      ensures panicked <==> event.RemoveConnection? && event.id !in old(connections)
      ensures !panicked ==>
                && old(toRouter) <= toRouter
                && Manage(old(connections), event) == Managed(connections, toRouter[|old(toRouter)|..], started, quit)
    {
      started, quit, panicked := None, None, false;
      match event {
        case RunDeviceConnectionPing => SendToAll(SendPing);
        case NewDeviceConnection(id, usb) =>
          started := Some(NewDevice(id, usb));
          connections := connections[id := []];
        case UiNativeSampleRate(id, info) =>
          if id in connections {
            connections := connections[id := connections[id] + [AudioInfo(info)]];
          }
        case SendStartAudioStream(id) =>
          if id in connections {
            connections := connections[id := connections[id] + [SendStartAudio]];
          }
        case DisconnectAllDevices => SendToAll(Disconnect);
        case RemoveConnection(id) =>
          toRouter := toRouter + [Cm(RemoveDataConnections(id))];
          if id !in connections {
            return None, None, true;
          }
          connections := connections - {id};
          quit := Some(id);
          if connections == map[] {
            toRouter := toRouter + [Ui(AllDevicesAreNowDisconnected)];
          }
      }
    }
  }
}
