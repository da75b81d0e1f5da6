/** Runs that reach what the results on all runs leave possible. */
module LifecycleRuns {
  import opened Sequences
  import opened Bytes
  import opened Messages
  import opened Lifecycle
  import opened LifecycleSafety
  import opened StreamDelivery
  import M = ConnectionManager
  import D = Devices

  const NO_ANSWERS := M.Answers(None, M.SocketError, true, None)

  /** One more step, from a known state to a known state. */
  lemma Extend(c: D.Config, steps: seq<Step>, s: System, step: Step, next: System)
    requires After(c, steps) == Some(s) && Enabled(c, s, step) && Apply(c, s, step) == next
    ensures After(c, steps + [step]) == Some(next)
  {
    hide Enabled, Apply;
    assert (steps + [step])[..|steps|] == steps;
  }

  predicate Idle(s: System) {
    s.cmQueue == [] && s.dmQueue == [] && s.audioQueue == []
  }

  /** A single event for the connection manager goes to the end of its queue. */
  lemma ForwardCm(s: System, e: CmEvent)
    requires s.router == [Cm(e)]
    ensures Post(ForwardOne(s), []) == s.(router := [], cmQueue := s.cmQueue + [e])
  {
    hide CmOf, DmOf, AudioOf;
    OneSent(Cm(e));
    assert s.router[..1] == [Cm(e)] && s.router[1..] == [];
    assert s.dmQueue + [] == s.dmQueue && s.audioQueue + [] == s.audioQueue;
  }

  /** What a single message in the router becomes. */
  lemma ForwardOnly(s: System, m: RouterMessage)
    requires s.router == [m] && Idle(s)
    ensures ForwardOne(s) == s.(router := [], cmQueue := CmPart(m), dmQueue := DmPart(m), audioQueue := AudioPart(m))
    ensures Post(ForwardOne(s), []) == ForwardOne(s)
  {
    hide CmOf, DmOf, AudioOf;
    OneSent(m);
    assert s.router[..1] == [m] && s.router[1..] == [];
    assert [] + CmPart(m) == CmPart(m) && [] + DmPart(m) == DmPart(m) && [] + AudioPart(m) == AudioPart(m);
  }

  /** A message from outside reaches the queue of its component. */
  lemma Deliver(c: D.Config, steps: seq<Step>, s: System, m: RouterMessage)
    requires After(c, steps) == Some(s) && s.fault == NoFault && s.router == [] && Idle(s) && FromOutside(m)
    ensures After(c, steps + [Outside(m), Forward]) ==
              Some(s.(cmQueue := CmPart(m), dmQueue := DmPart(m), audioQueue := AudioPart(m)))
  {
    hide After, CmOf, DmOf, AudioOf, ForwardOne;
    var sent := s.(router := [m]);
    Extend(c, steps, s, Outside(m), sent);
    ForwardOnly(sent, m);
    Extend(c, steps + [Outside(m)], sent, Forward, ForwardOne(sent));
    assert (steps + [Outside(m)]) + [Forward] == steps + [Outside(m), Forward];
  }

  // ----- A connection -----

  function Resources(ip: Ip): M.ConnectionResources {
    M.ConnectionResources(0, ip, None, None, false)
  }

  /** One device is connected, and its task runs. */
  function Connected(ip: Ip, d: D.Device, mailbox: seq<D.DeviceEvent>): System {
    START.(manager := M.Manager(1, map[0 := Resources(ip)], M.Slots(None, None)),
           connections := map[0 := mailbox], running := map[0 := d])
  }

  function Connecting(ip: Ip): seq<Step> {
    [Outside(Cm(NewJsonStream(ip, false))), Forward, ManagerStep(NO_ANSWERS), Forward, DeviceManagerStep]
  }

  lemma Connects(c: D.Config, ip: Ip)
    ensures After(c, Connecting(ip)) == Some(Connected(ip, D.NewDevice(0, false), []))
  {
    hide After, CmOf, DmOf, AudioOf, ForwardOne;
    var e := NewJsonStream(ip, false);
    Starts(c);
    Deliver(c, [], START, Cm(e));
    var asked := START.(cmQueue := [e]);
    assert [] + [Outside(Cm(e)), Forward] == [Outside(Cm(e)), Forward];
    var known := START.(manager := M.Manager(1, map[0 := Resources(ip)], M.Slots(None, None)));
    var announced := known.(router := [Dm(NewDeviceConnection(0, false))]);
    Extend(c, [Outside(Cm(e)), Forward], asked, ManagerStep(NO_ANSWERS), announced);
    ForwardOnly(announced, Dm(NewDeviceConnection(0, false)));
    var waiting := known.(dmQueue := [NewDeviceConnection(0, false)]);
    Extend(c, [Outside(Cm(e)), Forward] + [ManagerStep(NO_ANSWERS)], announced, Forward, waiting);
    Extend(c, [Outside(Cm(e)), Forward] + [ManagerStep(NO_ANSWERS)] + [Forward], waiting, DeviceManagerStep,
           Connected(ip, D.NewDevice(0, false), []));
    assert [Outside(Cm(e)), Forward] + [ManagerStep(NO_ANSWERS)] + [Forward] + [DeviceManagerStep] == Connecting(ip);
  }

  lemma Starts(c: D.Config)
    ensures After(c, []) == Some(START)
  {
  }

  // ----- The play resource is held without audio -----

  function Informing(info: AndroidAudioInfo): seq<Step> {
    [Outside(Dm(UiNativeSampleRate(0, info))), Forward, DeviceManagerStep, MailboxEvent(0)]
  }

  function InformedDevice(info: AndroidAudioInfo): D.Device {
    D.NewDevice(0, false).(info := Some(info))
  }

  lemma LearnsInfo(c: D.Config, ip: Ip, info: AndroidAudioInfo)
    ensures After(c, Connecting(ip) + Informing(info)) == Some(Connected(ip, InformedDevice(info), []))
  {
    hide After, Connecting, CmOf, DmOf, AudioOf, ForwardOne;
    var d, e, steps := D.NewDevice(0, false), UiNativeSampleRate(0, info), Connecting(ip);
    Connects(c, ip);
    Deliver(c, steps, Connected(ip, d, []), Dm(e));
    var told := [Outside(Dm(e)), Forward];
    var quiet: D.Mailboxes := map[0 := []];
    assert quiet[0] + [D.AudioInfo(info)] == [D.AudioInfo(info)];
    assert D.Tell(quiet, 0, D.AudioInfo(info)) == map[0 := [D.AudioInfo(info)]];
    Extend(c, steps + told, Connected(ip, d, []).(dmQueue := [e]), DeviceManagerStep,
           Connected(ip, d, [D.AudioInfo(info)]));
    assert d.waiting == [];
    Extend(c, steps + told + [DeviceManagerStep], Connected(ip, d, [D.AudioInfo(info)]), MailboxEvent(0),
           Connected(ip, InformedDevice(info), []));
    assert steps + told + [DeviceManagerStep] + [MailboxEvent(0)] == steps + Informing(info);
  }

  function PlayOver(connection: DataConnectionType): D.DeviceMessage {
    D.PlayAudioStream(D.AudioStreamInfo(D.Pcm, 2, 48000, 8082, connection))
  }

  function Asking(connection: DataConnectionType): seq<Step> {
    [PeerMessage(0, PlayOver(connection)), Forward]
  }

  function Wanted(info: AndroidAudioInfo): NextResourceRequest {
    PlayAudio(48000, Some(info.framesPerBurst), false)
  }

  /** The request of the device waits for the connection manager. */
  function Asked(ip: Ip, info: AndroidAudioInfo, connection: DataConnectionType): System {
    Connected(ip, InformedDevice(info), []).(cmQueue := [ConnectToData(0, Wanted(info), connection)])
  }

  lemma AsksToPlay(c: D.Config, ip: Ip, info: AndroidAudioInfo, connection: DataConnectionType)
    requires c.android
    ensures After(c, Connecting(ip) + Informing(info) + Asking(connection)) == Some(Asked(ip, info, connection))
  {
    hide After, Connecting, Informing, CmOf, DmOf, AudioOf, ForwardOne;
    var steps, s := Connecting(ip) + Informing(info), Connected(ip, InformedDevice(info), []);
    var asks, e := PeerMessage(0, PlayOver(connection)), ConnectToData(0, Wanted(info), connection);
    LearnsInfo(c, ip, info);
    var sent := s.(router := [Cm(e)]);
    Extend(c, steps, s, asks, sent);
    ForwardOnly(sent, Cm(e));
    Extend(c, steps + [asks], sent, Forward, Asked(ip, info, connection));
    assert steps + [asks] + [Forward] == steps + Asking(connection);
  }

  /** The connection manager finds no socket. */
  function Silent(ip: Ip, info: AndroidAudioInfo): System {
    Connected(ip, InformedDevice(info), []).(
      manager := M.Manager(1, map[0 := Resources(ip).(next := Some(M.Request(Wanted(info), Udp)))], M.Slots(Some(0), None)))
  }

  /**
   A device asks to play over UDP and there is no socket: it then holds the play
   resource without playing, which no run changes before its removal.
   */
  lemma HoldsSilently(c: D.Config, ip: Ip, info: AndroidAudioInfo)
    requires c.android
    ensures var run := Connecting(ip) + Informing(info) + Asking(Udp) + [ManagerStep(NO_ANSWERS)];
            && After(c, run).Some?
            && Held(After(c, run).value, 0)
            && 0 in After(c, run).value.manager.json
            && AudioHistory(After(c, run).value) == []
  {
    hide After, Connecting, Informing, Asking, CmOf, DmOf, AudioOf, D.React;
    AsksToPlay(c, ip, info, Udp);
    Extend(c, Connecting(ip) + Informing(info) + Asking(Udp), Asked(ip, info, Udp), ManagerStep(NO_ANSWERS),
           Silent(ip, info));
    NothingSent();
  }

  // ----- A stream goes astray -----

  /** A second device behind the same address. */
  function Another(ip: Ip): CmEvent {
    NewJsonStream(ip, false)
  }

  function Stream(stream: TcpStream): Step {
    ManagerStep(NO_ANSWERS.(connected := Some(stream)))
  }

  /** The second connection is announced before the request of the first device is handled. */
  function Crowded(ip: Ip, info: AndroidAudioInfo): System {
    Connected(ip, InformedDevice(info), []).(cmQueue := [ConnectToData(0, Wanted(info), Tcp), Another(ip)])
  }

  function Crowding(ip: Ip, info: AndroidAudioInfo): seq<Step> {
    Connecting(ip) + Informing(info) + Asking(Tcp) + [Outside(Cm(Another(ip))), Forward]
  }

  lemma IsCrowded(c: D.Config, ip: Ip, info: AndroidAudioInfo)
    requires c.android
    ensures After(c, Crowding(ip, info)) == Some(Crowded(ip, info)) && |Crowding(ip, info)| == 13
    ensures M.OnlyOneAt(Crowded(ip, info).manager, 0, ip)
  {
    hide After, CmOf, DmOf, AudioOf, ForwardOne, D.React;
    var steps, s := Connecting(ip) + Informing(info) + Asking(Tcp), Asked(ip, info, Tcp);
    AsksToPlay(c, ip, info, Tcp);
    var sent := s.(router := [Cm(Another(ip))]);
    assert [] + [Cm(Another(ip))] == [Cm(Another(ip))];
    Extend(c, steps, s, Outside(Cm(Another(ip))), sent);
    ForwardCm(sent, Another(ip));
    Extend(c, steps + [Outside(Cm(Another(ip)))], sent, Forward, Crowded(ip, info));
    assert steps + [Outside(Cm(Another(ip)))] + [Forward] == Crowding(ip, info);
  }

  /** The connections when the stream arrives, one of which may have been given it. */
  function Two(ip: Ip, info: AndroidAudioInfo, given: Option<TcpStream>): M.Manager {
    M.Manager(2, map[0 := Resources(ip).(next := Some(M.Request(Wanted(info), Tcp))),
                     1 := M.ConnectionResources(1, ip, given, None, false)], M.Slots(None, None))
  }

  function Delivering(stream: TcpStream): seq<Step> {
    [Stream(stream), Forward, ManagerStep(NO_ANSWERS), ManagerStep(NO_ANSWERS.(chosen := Some(1)))]
  }

  /** The stream is behind the announcement of the second connection. */
  function Behind(ip: Ip, info: AndroidAudioInfo, stream: TcpStream): System {
    Crowded(ip, info).(
      manager := M.Manager(1, map[0 := Resources(ip).(next := Some(M.Request(Wanted(info), Tcp)))], M.Slots(None, None)),
      cmQueue := [Another(ip), NewDataStream(stream, ip)])
  }

  lemma IsBehind(c: D.Config, ip: Ip, info: AndroidAudioInfo, stream: TcpStream)
    requires c.android
    ensures After(c, Crowding(ip, info) + [Stream(stream)] + [Forward]) == Some(Behind(ip, info, stream))
  {
    hide After, Crowding, CmOf, DmOf, AudioOf, ForwardOne, D.React, M.OnlyOneAt;
    var steps, s, e := Crowding(ip, info), Crowded(ip, info), NewDataStream(stream, ip);
    IsCrowded(c, ip, info);
    var sent := Behind(ip, info, stream).(cmQueue := [Another(ip)], router := [Cm(e)]);
    Extend(c, steps, s, Stream(stream), sent);
    ForwardCm(sent, e);
    Extend(c, steps + [Stream(stream)], sent, Forward, Behind(ip, info, stream));
  }

  /** The second connection is there when the stream arrives. */
  function Both(ip: Ip, info: AndroidAudioInfo, stream: TcpStream): System {
    Behind(ip, info, stream).(manager := Two(ip, info, None), cmQueue := [NewDataStream(stream, ip)],
                              router := [Dm(NewDeviceConnection(1, false))])
  }

  lemma SecondConnects(c: D.Config, ip: Ip, info: AndroidAudioInfo, stream: TcpStream, steps: seq<Step>)
    requires After(c, steps) == Some(Behind(ip, info, stream))
    ensures After(c, steps + [ManagerStep(NO_ANSWERS)]) == Some(Both(ip, info, stream))
  {
    hide After, CmOf, DmOf, AudioOf, D.React;
    assert [] + [Dm(NewDeviceConnection(1, false))] == [Dm(NewDeviceConnection(1, false))];
    Extend(c, steps, Behind(ip, info, stream), ManagerStep(NO_ANSWERS), Both(ip, info, stream));
  }

  lemma SecondIsGiven(c: D.Config, ip: Ip, info: AndroidAudioInfo, stream: TcpStream, steps: seq<Step>)
    requires After(c, steps) == Some(Both(ip, info, stream))
    ensures var run := steps + [ManagerStep(NO_ANSWERS.(chosen := Some(1)))];
            After(c, run).Some? && After(c, run).value.manager == Two(ip, info, Some(stream))
  {
    hide After, CmOf, DmOf, AudioOf, D.React;
    var given := Both(ip, info, stream).(manager := Two(ip, info, Some(stream)), cmQueue := []);
    Extend(c, steps, Both(ip, info, stream), ManagerStep(NO_ANSWERS.(chosen := Some(1))), given);
  }

  /**
   The device is alone at its address when its request opens a stream; another one is
   there when the stream arrives, and gets it.
   */
  lemma StreamOvertaken(c: D.Config, ip: Ip, info: AndroidAudioInfo, stream: TcpStream)
    requires c.android
    ensures var run := Crowding(ip, info) + Delivering(stream);
            && Opens(c, run, 13, 0, stream)
            && M.OnlyOneAt(After(c, run[..13]).value.manager, 0, ip)
            && After(c, run).Some?
            && After(c, run).value.manager == Two(ip, info, Some(stream))
  {
    hide After, Crowding, D.React, M.OnlyOneAt;
    var steps, run := Crowding(ip, info), Crowding(ip, info) + Delivering(stream);
    var sends := steps + [Stream(stream)] + [Forward];
    IsCrowded(c, ip, info);
    IsBehind(c, ip, info, stream);
    SecondConnects(c, ip, info, stream, sends);
    SecondIsGiven(c, ip, info, stream, sends + [ManagerStep(NO_ANSWERS)]);
    assert sends + [ManagerStep(NO_ANSWERS)] + [ManagerStep(NO_ANSWERS.(chosen := Some(1)))] == run;
    assert run[..13] == steps && run[13] == Stream(stream);
  }

  // ----- A task panics -----

  /** The task of the connection is gone, and its entry is left. */
  function Orphaned(ip: Ip): System {
    Connected(ip, D.NewDevice(0, false), []).(running := map[], dead := {0})
  }

  lemma TaskDies(c: D.Config, ip: Ip, rate: I32)
    requires rate != 0 && !D.SupportedRate(rate)
    ensures After(c, Connecting(ip) + [TaskPanics(0, D.NativeSampleRate(rate))]) == Some(Orphaned(ip))
  {
    hide After, Connecting, CmOf, DmOf, AudioOf;
    Connects(c, ip);
    Extend(c, Connecting(ip), Connected(ip, D.NewDevice(0, false), []), TaskPanics(0, D.NativeSampleRate(rate)),
           Orphaned(ip));
  }

  function Pinging(): seq<Step> {
    [Outside(Dm(RunDeviceConnectionPing)), Forward]
  }

  /** A peer that names an unusual sample rate ends the task, and the next ping ends the device manager. */
  lemma PingsTheDead(c: D.Config, ip: Ip, rate: I32)
    requires rate != 0 && !D.SupportedRate(rate)
    ensures var run := Connecting(ip) + [TaskPanics(0, D.NativeSampleRate(rate))] + Pinging() + [DeviceManagerStep];
            After(c, run).Some? && After(c, run).value.fault == TaskGone
  {
    hide After, Connecting, CmOf, DmOf, AudioOf, ForwardOne;
    var steps := Connecting(ip) + [TaskPanics(0, D.NativeSampleRate(rate))];
    TaskDies(c, ip, rate);
    Deliver(c, steps, Orphaned(ip), Dm(RunDeviceConnectionPing));
    var pinged := Orphaned(ip).(dmQueue := [RunDeviceConnectionPing]);
    assert 0 in Told(pinged, RunDeviceConnectionPing) * pinged.dead;
    Extend(c, steps + Pinging(), pinged, DeviceManagerStep, Apply(c, pinged, DeviceManagerStep));
  }
}
