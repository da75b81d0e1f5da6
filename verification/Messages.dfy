/** The messages that the components exchange through the router. */
module Messages {
  import opened Sequences
  import opened Bytes

  type ConnectionId = U64
  type Ip = nat
  /** A connected TCP stream; only its identity matters here. */
  type TcpStream = nat

  /** What the UI of an Android device tells about its audio output. */
  datatype AndroidAudioInfo = AndroidAudioInfo(nativeSampleRate: I32, framesPerBurst: I32)

  datatype NextResourceRequest =
    | PlayAudio(sampleRate: I32, framesPerBurst: Option<I32>, decodeOpus: bool)
    | SendAudio(rate: U32)

  datatype DataConnectionType = Tcp | Udp | Usb

  datatype DataHandle = TcpHandle(stream: TcpStream) | UdpHandle(ip: Ip) | UsbHandle {
    predicate Reliable() {
      !UdpHandle?
    }
  }

  datatype AudioEvent =
    | StartPlaying(handle: DataHandle, sampleRate: I32, framesPerBurst: Option<I32>, decodeOpus: bool,
                   senderId: ConnectionId)
    | StopPlayingAudio
    | StartRecording(handle: DataHandle, rate: U32)
    | StopRecording
    | StartAudioStream

  datatype CmEvent =
    | NewJsonStream(ip: Ip, usb: bool)
    | NewDataStream(stream: TcpStream, ip: Ip)
    | ConnectTo(ip: Ip)
    | ConnectToData(id: ConnectionId, request: NextResourceRequest, connection: DataConnectionType)
    | SetNextResourceRequest(id: ConnectionId, request: NextResourceRequest, connection: DataConnectionType)
    | RemoveDataConnections(id: ConnectionId)
    | ListenerError
    | UsbTcpListenerError
    | AndroidUsbAccessoryFileDescriptor(fd: I32)
    | AndroidQuitAndroidUsbManager

  /** What is given to the USB manager directly. */
  datatype UsbEvent = ReceiveAudioOverUsb | FileDescriptor(fd: I32) | QuitAndroidUsbManager

  datatype DmEvent =
    | NewDeviceConnection(id: ConnectionId, usb: bool)
    | RemoveConnection(id: ConnectionId)
    | UiNativeSampleRate(id: ConnectionId, info: AndroidAudioInfo)
    | SendStartAudioStream(id: ConnectionId)
    | DisconnectAllDevices
    | RunDeviceConnectionPing

  datatype UiEvent = ConnectionEstablished(id: ConnectionId) | ConnectionError(id: ConnectionId)
    | GetNativeSampleRate(id: ConnectionId) | AllDevicesAreNowDisconnected | TcpSupportDisabled

  datatype RouterMessage = Audio(audio: AudioEvent) | Dm(dm: DmEvent) | Cm(cm: CmEvent) | Ui(ui: UiEvent)

  // ----- The router -----

  function AudioOf(messages: seq<RouterMessage>): seq<AudioEvent> {
    FilterMap(messages, (m: RouterMessage) => if m.Audio? then Some(m.audio) else None)
  }

  function DmOf(messages: seq<RouterMessage>): seq<DmEvent> {
    FilterMap(messages, (m: RouterMessage) => if m.Dm? then Some(m.dm) else None)
  }

  function CmOf(messages: seq<RouterMessage>): seq<CmEvent> {
    FilterMap(messages, (m: RouterMessage) => if m.Cm? then Some(m.cm) else None)
  }

  function UiOf(messages: seq<RouterMessage>): seq<UiEvent> {
    FilterMap(messages, (m: RouterMessage) => if m.Ui? then Some(m.ui) else None)
  }

  lemma PartsConcat(left: seq<RouterMessage>, right: seq<RouterMessage>)
    ensures AudioOf(left + right) == AudioOf(left) + AudioOf(right)
    ensures DmOf(left + right) == DmOf(left) + DmOf(right)
    ensures CmOf(left + right) == CmOf(left) + CmOf(right)
    ensures UiOf(left + right) == UiOf(left) + UiOf(right)
  {
    hide FilterMap;
    FilterMapConcat(left, right, (m: RouterMessage) => if m.Audio? then Some(m.audio) else None);
    FilterMapConcat(left, right, (m: RouterMessage) => if m.Dm? then Some(m.dm) else None);
    FilterMapConcat(left, right, (m: RouterMessage) => if m.Cm? then Some(m.cm) else None);
    FilterMapConcat(left, right, (m: RouterMessage) => if m.Ui? then Some(m.ui) else None);
  }

  lemma PartsOne(m: RouterMessage)
    ensures AudioOf([m]) == if m.Audio? then [m.audio] else []
    ensures DmOf([m]) == if m.Dm? then [m.dm] else []
    ensures CmOf([m]) == if m.Cm? then [m.cm] else []
    ensures UiOf([m]) == if m.Ui? then [m.ui] else []
  {
    FilterMapOne(m, (m: RouterMessage) => if m.Audio? then Some(m.audio) else None);
    FilterMapOne(m, (m: RouterMessage) => if m.Dm? then Some(m.dm) else None);
    FilterMapOne(m, (m: RouterMessage) => if m.Cm? then Some(m.cm) else None);
    FilterMapOne(m, (m: RouterMessage) => if m.Ui? then Some(m.ui) else None);
  }

  /** One incoming queue and one outgoing queue for each component (src/message_router.rs). */
  class Router {
    var incoming: seq<RouterMessage>
    var audioSender: seq<AudioEvent>
    var deviceManagerSender: seq<DmEvent>
    var cmSender: seq<CmEvent>
    var uiSender: seq<UiEvent>

    constructor ()
      ensures incoming == [] && audioSender == [] && deviceManagerSender == [] && cmSender == [] && uiSender == []
    {
      incoming, audioSender, deviceManagerSender, cmSender, uiSender := [], [], [], [], [];
    }

    /** Forwards the oldest message to the end of the queue of its component. */
    method Forward()
      requires incoming != []
      modifies this
      ensures incoming == old(incoming)[1..]
      ensures audioSender == old(audioSender) + AudioOf(old(incoming)[..1])
      ensures deviceManagerSender == old(deviceManagerSender) + DmOf(old(incoming)[..1])
      ensures cmSender == old(cmSender) + CmOf(old(incoming)[..1])
      ensures uiSender == old(uiSender) + UiOf(old(incoming)[..1])
    {
      var event := incoming[0];
      assert incoming[..1] == [event];
      PartsOne(event);
      hide AudioOf, DmOf, CmOf, UiOf;
      incoming := incoming[1..];
      match event {
        case Audio(audio) => audioSender := audioSender + [audio];
        case Dm(dm) => deviceManagerSender := deviceManagerSender + [dm];
        case Cm(cm) => cmSender := cmSender + [cm];
        case Ui(ui) => uiSender := uiSender + [ui];
      }
    }

    /** Each component receives its messages in the order sent, whoever sent them. */
    method Run(rounds: nat)
      modifies this
      ensures audioSender + AudioOf(incoming) == old(audioSender) + AudioOf(old(incoming))
      ensures deviceManagerSender + DmOf(incoming) == old(deviceManagerSender) + DmOf(old(incoming))
      ensures cmSender + CmOf(incoming) == old(cmSender) + CmOf(old(incoming))
      ensures uiSender + UiOf(incoming) == old(uiSender) + UiOf(old(incoming))
      ensures |incoming| == if rounds < |old(incoming)| then |old(incoming)| - rounds else 0
    {
      hide AudioOf, DmOf, CmOf, UiOf;
      var i := 0;
      while i < rounds && incoming != []
        invariant 0 <= i <= rounds
        invariant audioSender + AudioOf(incoming) == old(audioSender) + AudioOf(old(incoming))
        invariant deviceManagerSender + DmOf(incoming) == old(deviceManagerSender) + DmOf(old(incoming))
        invariant cmSender + CmOf(incoming) == old(cmSender) + CmOf(old(incoming))
        invariant uiSender + UiOf(incoming) == old(uiSender) + UiOf(old(incoming))
        invariant i + |incoming| == |old(incoming)|
      {
        ghost var first, rest := incoming[..1], incoming[1..];
        assert incoming == first + rest;
        PartsConcat(first, rest);
        ConcatAssociative(audioSender, AudioOf(first), AudioOf(rest));
        ConcatAssociative(deviceManagerSender, DmOf(first), DmOf(rest));
        ConcatAssociative(cmSender, CmOf(first), CmOf(rest));
        ConcatAssociative(uiSender, UiOf(first), UiOf(rest));
        Forward();
        i := i + 1;
      }
    }
  }
}
