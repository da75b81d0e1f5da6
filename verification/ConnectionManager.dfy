/**
 Connections, the two exclusive audio resources, and the requests for them
 (src/connection.rs).
 */
module ConnectionManager {
  import opened Sequences
  import opened Messages

  const LAST_ID: ConnectionId := 0xFFFF_FFFF_FFFF_FFFF

  /** The owners of the play and send resources. */
  datatype Slots = Slots(play: Option<ConnectionId>, send: Option<ConnectionId>)

  datatype Request = Request(resource: NextResourceRequest, connection: DataConnectionType)

  datatype ConnectionResources = ConnectionResources(
    id: ConnectionId, ip: Ip, pendingTcp: Option<TcpStream>, next: Option<Request>, usb: bool)

  /** What building a UDP socket gives. */
  datatype UdpAnswer = Socket | SocketError | UdpDisabled

  datatype Checked = Checked(resources: ConnectionResources, slots: Slots, audio: Option<AudioEvent>)

  /** The request can be looked at; a pending stream keeps a UDP request from being looked at. */
  predicate Due(r: ConnectionResources) {
    && r.next.Some?
    && match r.next.value.connection
       case Usb => true
       case Tcp => r.pendingTcp.Some?
       case Udp => r.pendingTcp.None?
  }

  function HandleFor(r: ConnectionResources, udp: UdpAnswer): Option<DataHandle>
    requires Due(r)
  {
    match r.next.value.connection
    case Usb => Some(UsbHandle)
    case Tcp => Some(TcpHandle(r.pendingTcp.value))
    case Udp => if udp.Socket? then Some(UdpHandle(r.ip)) else None
  }

  predicate Free(slots: Slots, resource: NextResourceRequest) {
    if resource.PlayAudio? then slots.play.None? else slots.send.None?
  }

  function Acquired(slots: Slots, resource: NextResourceRequest, id: ConnectionId): Slots {
    if resource.PlayAudio? then slots.(play := Some(id)) else slots.(send := Some(id))
  }

  function StartEvent(resource: NextResourceRequest, handle: DataHandle, id: ConnectionId): AudioEvent {
    match resource
    case PlayAudio(sampleRate, framesPerBurst, decodeOpus) =>
      StartPlaying(handle, sampleRate, framesPerBurst, decodeOpus, id)
    case SendAudio(rate) => StartRecording(handle, rate)
  }

  /**
   Takes the resource when it is free, and starts the audio when there is a data
   connection for it. A TCP stream is used up even when the resource is not free.
   */
  function Check(r: ConnectionResources, slots: Slots, udp: UdpAnswer): Checked {
    if !Due(r) then Checked(r, slots, None)
    else
      var Request(resource, connection) := r.next.value;
      var after := if connection.Tcp? then r.(pendingTcp := None) else r;
      if !Free(slots, resource) then Checked(after, slots, None)
      else
        var handle := HandleFor(r, udp);
        Checked(after, Acquired(slots, resource, r.id),
                if handle.Some? then Some(StartEvent(resource, handle.value, r.id)) else None)
  }

  function Released(slots: Slots, id: ConnectionId): Slots {
    Slots(if slots.play == Some(id) then None else slots.play, if slots.send == Some(id) then None else slots.send)
  }

  function StopEvents(slots: Slots, id: ConnectionId): seq<RouterMessage> {
    (if slots.play == Some(id) then [Audio(StopPlayingAudio)] else []) +
    (if slots.send == Some(id) then [Audio(StopRecording)] else [])
  }

  datatype Manager = Manager(nextId: ConnectionId, json: map<ConnectionId, ConnectionResources>, slots: Slots)

  /**
   What the outside answers while one event is handled: the stream of an outgoing
   connection, the UDP socket, whether a stream can be converted, and which of the
   matching connections the iteration over the map ends with.
   */
  datatype Answers = Answers(
    connected: Option<TcpStream>, udp: UdpAnswer, converted: bool, chosen: Option<ConnectionId>)

  predicate Matches(m: Manager, id: ConnectionId, ip: Ip) {
    id in m.json && m.json[id].ip == ip && !m.json[id].usb
  }

  ghost predicate Legal(m: Manager, e: CmEvent, a: Answers) {
    e.NewDataStream? ==>
      if a.chosen.Some? then Matches(m, a.chosen.value, e.ip) else forall id: ConnectionId :: !Matches(m, id, e.ip)
  }

  datatype Handled = Handled(manager: Manager, sent: seq<RouterMessage>, usb: seq<UsbEvent>)

  /** Playing over USB needs the other end of its channel. */
  predicate OverUsb(audio: Option<AudioEvent>) {
    audio.Some? && audio.value.StartPlaying? && audio.value.handle.UsbHandle?
  }

  function Recheck(m: Manager, id: ConnectionId, r: ConnectionResources, udp: UdpAnswer): Handled {
    var c := Check(r, m.slots, udp);
    Handled(m.(json := m.json[id := c.resources], slots := c.slots),
            if c.audio.Some? then [Audio(c.audio.value)] else [],
            if OverUsb(c.audio) then [ReceiveAudioOverUsb] else [])
  }

  function Handle(m: Manager, e: CmEvent, a: Answers): Handled
    requires Legal(m, e, a)
  {
    match e
    case NewJsonStream(ip, usb) =>
      if m.nextId == LAST_ID then Handled(m, [], [])
      else
        var id := m.nextId;
        Handled(m.(nextId := id + 1, json := m.json[id := ConnectionResources(id, ip, None, None, usb)]),
                [Dm(NewDeviceConnection(id, usb))], [])
    case NewDataStream(stream, ip) =>
      if a.chosen.None? || !a.converted then Handled(m, [], [])
      else Recheck(m, a.chosen.value, m.json[a.chosen.value].(pendingTcp := Some(stream)), a.udp)
    case ConnectTo(ip) =>
      Handled(m, if a.connected.Some? then [Cm(NewJsonStream(ip, false))] else [], [])
    case ConnectToData(id, request, connection) =>
      if id !in m.json then Handled(m, [], [])
      else
        var r := m.json[id].(next := Some(Request(request, connection)));
        if connection.Tcp? then
          Handled(m.(json := m.json[id := r]),
                  if a.connected.Some? then [Cm(NewDataStream(a.connected.value, r.ip))] else [], [])
        else Recheck(m, id, r, a.udp)
    case SetNextResourceRequest(id, request, connection) =>
      if id !in m.json then Handled(m, [], [])
      else Recheck(m, id, m.json[id].(next := Some(Request(request, connection))), a.udp)
    case RemoveDataConnections(id) =>
      if id !in m.json then Handled(m, [], [])
      else Handled(m.(json := m.json - {id}, slots := Released(m.slots, m.json[id].id)),
                   StopEvents(m.slots, m.json[id].id), [])
    case ListenerError => Handled(m, [Ui(TcpSupportDisabled)], [])
    case UsbTcpListenerError => Handled(m, [], [])
    case AndroidUsbAccessoryFileDescriptor(fd) => Handled(m, [], [FileDescriptor(fd)])
    case AndroidQuitAndroidUsbManager => Handled(m, [], [QuitAndroidUsbManager])
  }

  /** The audio resources and what stops them. */
  class ResourceManager {
    var playAudio: Option<(ConnectionId, AudioEvent)>
    var sendAudio: Option<(ConnectionId, AudioEvent)>

    ghost predicate Valid()
      reads this
    {
      && (playAudio.Some? ==> playAudio.value.1 == StopPlayingAudio)
      && (sendAudio.Some? ==> sendAudio.value.1 == StopRecording)
    }

    function Owners(): Slots
      reads this
    {
      Slots(if playAudio.Some? then Some(playAudio.value.0) else None,
            if sendAudio.Some? then Some(sendAudio.value.0) else None)
    }

    constructor ()
      ensures Valid() && Owners() == Slots(None, None)
    {
      playAudio, sendAudio := None, None;
    }

    method ConnectPlayAudio(id: ConnectionId) returns (ok: bool)
      requires Valid()
      modifies this
      ensures Valid() && ok == old(Owners()).play.None?
      ensures Owners() == if ok then old(Owners()).(play := Some(id)) else old(Owners())
    {
      if playAudio.Some? {
        return false;
      }
      playAudio := Some((id, StopPlayingAudio));
      ok := true;
    }

    method ConnectSendAudio(id: ConnectionId) returns (ok: bool)
      requires Valid()
      modifies this
      ensures Valid() && ok == old(Owners()).send.None?
      ensures Owners() == if ok then old(Owners()).(send := Some(id)) else old(Owners())
    {
      if sendAudio.Some? {
        return false;
      }
      sendAudio := Some((id, StopRecording));
      ok := true;
    }

    method RequestDisconnectResourcesFor(id: ConnectionId) returns (sent: seq<RouterMessage>)
      requires Valid()
      modifies this
      ensures Valid() && Owners() == Released(old(Owners()), id)
      ensures sent == StopEvents(old(Owners()), id)
    {
      sent := [];
      var play := playAudio;
      playAudio := None;
      if play.Some? {
        if play.value.0 == id {
          sent := sent + [Audio(play.value.1)];
        } else {
          playAudio := play;
        }
      }

      var send := sendAudio;
      sendAudio := None;
      if send.Some? {
        if send.value.0 == id {
          sent := sent + [Audio(send.value.1)];
        } else {
          sendAudio := send;
        }
      }
    }

    /** The arms in the order of the source: a pending stream comes before the UDP arms. */
    method CheckNextResourceRequest(r: ConnectionResources, udp: UdpAnswer)
      returns (after: ConnectionResources, audio: Option<AudioEvent>, overUsb: bool)
      requires Valid()
      modifies this
      ensures Valid() && Checked(after, Owners(), audio) == Check(r, old(Owners()), udp)
      ensures overUsb <==> OverUsb(audio)
    {
      after, audio, overUsb := r, None, false;
      var taken := r.pendingTcp;
      after := after.(pendingTcp := None);
      match (r.next, taken) {
        case (Some(Request(SendAudio(rate), Usb)), tcpStream) =>
          after := after.(pendingTcp := tcpStream);
          var ok := ConnectSendAudio(r.id);
          if ok {
            audio := Some(StartRecording(UsbHandle, rate));
          }
        case (Some(Request(PlayAudio(sampleRate, framesPerBurst, decodeOpus), Usb)), tcpStream) =>
          after := after.(pendingTcp := tcpStream);
          var ok := ConnectPlayAudio(r.id);
          if ok {
            audio, overUsb := Some(StartPlaying(UsbHandle, sampleRate, framesPerBurst, decodeOpus, r.id)), true;
          }
        case (Some(Request(SendAudio(rate), Tcp)), Some(stream)) =>
          var ok := ConnectSendAudio(r.id);
          if ok {
            audio := Some(StartRecording(TcpHandle(stream), rate));
          }
        case (Some(Request(PlayAudio(sampleRate, framesPerBurst, decodeOpus), Tcp)), Some(stream)) =>
          var ok := ConnectPlayAudio(r.id);
          if ok {
            audio := Some(StartPlaying(TcpHandle(stream), sampleRate, framesPerBurst, decodeOpus, r.id));
          }
        case (Some(Request(_, Tcp)), None) =>
        case (_, Some(stream)) =>
          after := after.(pendingTcp := Some(stream));
        case (Some(Request(SendAudio(rate), Udp)), pending) =>
          after := after.(pendingTcp := pending);
          var ok := ConnectSendAudio(r.id);
          if ok && udp.Socket? {
            audio := Some(StartRecording(UdpHandle(r.ip), rate));
          }
        case (Some(Request(PlayAudio(sampleRate, framesPerBurst, decodeOpus), Udp)), pending) =>
          after := after.(pendingTcp := pending);
          var ok := ConnectPlayAudio(r.id);
          if ok && udp.Socket? {
            audio := Some(StartPlaying(UdpHandle(r.ip), sampleRate, framesPerBurst, decodeOpus, r.id));
          }
        case (None, None) =>
      }
    }
  }

  class ConnectionManager {
    var nextJsonConnectionId: ConnectionId
    var jsonConnections: map<ConnectionId, ConnectionResources>
    const resourceManager: ResourceManager
    /** What was given to the router and to the USB manager. */
    var sent: seq<RouterMessage>
    var usbEvents: seq<UsbEvent>

    ghost predicate Valid()
      reads resourceManager
    {
      resourceManager.Valid()
    }

    ghost function Value(): Manager
      reads this, resourceManager
    {
      Manager(nextJsonConnectionId, jsonConnections, resourceManager.Owners())
    }

    constructor ()
      ensures Valid() && fresh(resourceManager) && sent == [] && usbEvents == []
      ensures Value() == Manager(0, map[], Slots(None, None))
    {
      nextJsonConnectionId, jsonConnections, sent, usbEvents := 0, map[], [], [];
      resourceManager := new ResourceManager();
    }

    /** Looks at the request of a connection whose resources have just changed to `r`. */
    method CheckRequest(id: ConnectionId, r: ConnectionResources, udp: UdpAnswer)
      requires Valid()
      modifies `jsonConnections, `sent, `usbEvents, resourceManager
      ensures Valid()
      ensures var h := Recheck(old(Value()), id, r, udp);
              Value() == h.manager && sent == old(sent) + h.sent && usbEvents == old(usbEvents) + h.usb
    {
      var after, audio, overUsb := resourceManager.CheckNextResourceRequest(r, udp);
      jsonConnections := jsonConnections[id := after];
      usbEvents := usbEvents + if overUsb then [ReceiveAudioOverUsb] else [];
      sent := sent + if audio.Some? then [Audio(audio.value)] else [];
    }

    /** The last match of an iteration over the connections, in whatever order. */
    method FindByIp(ip: Ip) returns (connection: Option<ConnectionId>)
      ensures connection.Some? ==> Matches(Value(), connection.value, ip)
      ensures connection.None? ==> forall id: ConnectionId :: !Matches(Value(), id, ip)
    {
      connection := None;
      var ids := jsonConnections.Keys;
      while ids != {}
        invariant ids <= jsonConnections.Keys
        invariant connection.Some? ==> Matches(Value(), connection.value, ip)
        invariant connection.None? ==>
                    forall id: ConnectionId :: id in jsonConnections && id !in ids ==> !Matches(Value(), id, ip)
        decreases |ids|
      {
        var id :| id in ids;
        ids := ids - {id};
        if jsonConnections[id].ip == ip && !jsonConnections[id].usb {
          connection := Some(id);
        }
      }
    }

    method HandleCmEvent(event: CmEvent, connected: Option<TcpStream>, udp: UdpAnswer, converted: bool)
      returns (chosen: Option<ConnectionId>)
      requires Valid()
      modifies `nextJsonConnectionId, `jsonConnections, `sent, `usbEvents, resourceManager
      ensures Valid()
      ensures var a := Answers(connected, udp, converted, chosen);
              && Legal(old(Value()), event, a)
              && Value() == Handle(old(Value()), event, a).manager
              && sent == old(sent) + Handle(old(Value()), event, a).sent
              && usbEvents == old(usbEvents) + Handle(old(Value()), event, a).usb
    {
      hide Check;
      chosen := None;
      assert sent + [] == sent && usbEvents + [] == usbEvents;
      match event {
        case NewJsonStream(ip, usb) =>
          var id := nextJsonConnectionId;
          if id == LAST_ID {
            // There is no new connection id.
            return;
          }
          nextJsonConnectionId := id + 1;
          jsonConnections := jsonConnections[id := ConnectionResources(id, ip, None, None, usb)];
          sent := sent + [Dm(NewDeviceConnection(id, usb))];
        case NewDataStream(stream, ip) =>
          chosen := FindByIp(ip);
          assert Legal(Value(), event, Answers(connected, udp, converted, chosen));
          if chosen.Some? && converted {
            CheckRequest(chosen.value, jsonConnections[chosen.value].(pendingTcp := Some(stream)), udp);
          }
        case ConnectTo(ip) =>
          if connected.Some? {
            sent := sent + [Cm(NewJsonStream(ip, false))];
          }
        case ConnectToData(id, request, connection) =>
          if id !in jsonConnections {
            return;
          }
          var r := jsonConnections[id].(next := Some(Request(request, connection)));
          if connection.Tcp? {
            jsonConnections := jsonConnections[id := r];
            if connected.Some? {
              sent := sent + [Cm(NewDataStream(connected.value, r.ip))];
            }
          } else {
            CheckRequest(id, r, udp);
          }
        case SetNextResourceRequest(id, request, connection) =>
          if id in jsonConnections {
            CheckRequest(id, jsonConnections[id].(next := Some(Request(request, connection))), udp);
          }
        case RemoveDataConnections(id) =>
          if id in jsonConnections {
            var resources := jsonConnections[id];
            jsonConnections := jsonConnections - {id};
            var stopped := resourceManager.RequestDisconnectResourcesFor(resources.id);
            sent := sent + stopped;
          }
        case ListenerError => sent := sent + [Ui(TcpSupportDisabled)];
        case UsbTcpListenerError =>
        case AndroidUsbAccessoryFileDescriptor(fd) => usbEvents := usbEvents + [FileDescriptor(fd)];
        case AndroidQuitAndroidUsbManager => usbEvents := usbEvents + [QuitAndroidUsbManager];
      }
    }
  }

  // ----- Who owns the resources -----

  /** Every entry is named by its key, no key is still to be given out, and every owner is connected. */
  ghost predicate Owned(m: Manager) {
    && (forall id: ConnectionId :: id in m.json ==> id < m.nextId && m.json[id].id == id)
    && (m.slots.play.Some? ==> m.slots.play.value in m.json)
    && (m.slots.send.Some? ==> m.slots.send.value in m.json)
  }

  lemma HandleKeepsOwned(m: Manager, e: CmEvent, a: Answers)
    requires Legal(m, e, a) && Owned(m)
    ensures Owned(Handle(m, e, a).manager)
  {
  }

  /**
   A UDP request takes its resource before there is a socket: the resource is held
   without audio exactly when there is none, and then no later check starts it.
   */
  lemma HeldSilently(r: ConnectionResources, slots: Slots, udp: UdpAnswer)
    ensures var c := Check(r, slots, udp);
            && (c.slots != slots && c.audio.None? <==>
                  && Due(r)
                  && Free(slots, r.next.value.resource)
                  && r.next.value.connection.Udp?
                  && !udp.Socket?)
            && (c.audio.Some? ==> c.slots != slots)
            && (c.slots != slots ==>
                  forall later: UdpAnswer, pending: Option<TcpStream> ::
                    var again := Check(c.resources.(pendingTcp := pending), c.slots, later);
                    again.audio.None? && again.slots == c.slots)
  {
  }

  /** A connected TCP stream is closed without use exactly when its resource is taken by then. */
  lemma StreamLost(r: ConnectionResources, slots: Slots, udp: UdpAnswer)
    ensures var c := Check(r, slots, udp);
            c.resources.pendingTcp != r.pendingTcp && c.audio.None? <==>
            && Due(r)
            && r.next.value.connection.Tcp?
            && !Free(slots, r.next.value.resource)
  {
  }

  /** After its removal a connection owns nothing; what others own is untouched. */
  lemma RemovalReleases(m: Manager, id: ConnectionId, a: Answers)
    requires Owned(m)
    ensures var h := Handle(m, RemoveDataConnections(id), a);
            && id !in h.manager.json
            && h.manager.slots.play != Some(id) && h.manager.slots.send != Some(id)
            && (m.slots.play != Some(id) ==> h.manager.slots.play == m.slots.play && Audio(StopPlayingAudio) !in h.sent)
            && (m.slots.send != Some(id) ==> h.manager.slots.send == m.slots.send && Audio(StopRecording) !in h.sent)
            && (m.slots.play == Some(id) ==> Audio(StopPlayingAudio) in h.sent)
            && (m.slots.send == Some(id) ==> Audio(StopRecording) in h.sent)
            && forall other: ConnectionId :: other != id && other in m.json ==>
                 other in h.manager.json && h.manager.json[other] == m.json[other]
  {
  }

  /**
   What is passed on besides audio: a connected stream comes back as an event with the
   address it was connected to, the device manager hears of each new connection, the
   UI of a failed listener, and the USB manager of its file descriptor, of quitting,
   and of playing over USB exactly when that is started.
   */
  lemma PassedOn(m: Manager, e: CmEvent, a: Answers)
    requires Legal(m, e, a)
    ensures var h := Handle(m, e, a);
            && (forall ip: Ip, usb :: Cm(NewJsonStream(ip, usb)) in h.sent <==>
                  e == ConnectTo(ip) && a.connected.Some? && !usb)
            && (forall stream: TcpStream, ip: Ip :: Cm(NewDataStream(stream, ip)) in h.sent <==>
                  && e.ConnectToData? && e.connection == Tcp && a.connected == Some(stream)
                  && e.id in m.json && m.json[e.id].ip == ip)
            && (forall id: ConnectionId, usb :: Dm(NewDeviceConnection(id, usb)) in h.sent <==>
                  e.NewJsonStream? && e.usb == usb && id == m.nextId != LAST_ID)
            && (forall ui :: Ui(ui) in h.sent <==> e == ListenerError && ui == TcpSupportDisabled)
            && (ReceiveAudioOverUsb in h.usb <==>
                  exists x :: Audio(x) in h.sent && x.StartPlaying? && x.handle == UsbHandle)
            && (forall fd :: FileDescriptor(fd) in h.usb <==> e == AndroidUsbAccessoryFileDescriptor(fd))
            && (UsbEvent.QuitAndroidUsbManager in h.usb <==> e == AndroidQuitAndroidUsbManager)
            && |h.usb| <= 1
  {
    var h := Handle(m, e, a);
    if ReceiveAudioOverUsb in h.usb {
      assert h.sent[0].Audio? && Audio(h.sent[0].audio) in h.sent;
    }
  }

  // ----- Which connection gets a data stream -----

  /** The connection is not over USB, and no other such connection has its address. */
  ghost predicate OnlyOneAt(m: Manager, id: ConnectionId, ip: Ip) {
    Matches(m, id, ip) && forall other: ConnectionId :: Matches(m, other, ip) ==> other == id
  }

  /**
   A data stream names only an address. It goes to a given connection, whatever the
   order of the iteration, if and only if no other one not over USB has the address.
   */
  lemma StreamFindsItsConnection(m: Manager, id: ConnectionId, stream: TcpStream, ip: Ip)
    ensures (forall a: Answers :: Legal(m, NewDataStream(stream, ip), a) ==> a.chosen == Some(id)) <==> OnlyOneAt(m, id, ip)
  {
    if !OnlyOneAt(m, id, ip) {
      if other: ConnectionId :| Matches(m, other, ip) && other != id {
        assert Legal(m, NewDataStream(stream, ip), Answers(None, UdpDisabled, true, Some(other)));
      } else {
        assert !Matches(m, id, ip);
        assert Legal(m, NewDataStream(stream, ip), Answers(None, UdpDisabled, true, None));
      }
    }
  }

  /**
   The stream that a request opens, if nothing else is handled before it arrives: it
   goes to the connection of the request exactly when that is alone at its address.
   `StreamDelivery` has the same for whatever is handled in between.
   */
  lemma OpenedStream(m: Manager, id: ConnectionId, request: NextResourceRequest, answers: Answers)
    requires id in m.json && answers.connected.Some?
    ensures var h := Handle(m, ConnectToData(id, request, Tcp), answers);
            var arrival := NewDataStream(answers.connected.value, m.json[id].ip);
            && h.sent == [Cm(arrival)]
            && ((forall a: Answers :: Legal(h.manager, arrival, a) ==> a.chosen == Some(id)) <==>
                  OnlyOneAt(m, id, m.json[id].ip))
  {
    var h := Handle(m, ConnectToData(id, request, Tcp), answers);
    var ip := m.json[id].ip;
    StreamFindsItsConnection(h.manager, id, answers.connected.value, ip);
    assert forall other: ConnectionId :: Matches(h.manager, other, ip) <==> Matches(m, other, ip);
  }

  /** Two devices behind one address: the stream opened for the first one is attached to the second one. */
  lemma StreamGoesAstray(request: NextResourceRequest, ip: Ip, stream: TcpStream)
    ensures var none := Answers(None, UdpDisabled, true, None);
            var first := Handle(Manager(0, map[], Slots(None, None)), NewJsonStream(ip, false), none);
            var second := Handle(first.manager, NewJsonStream(ip, false), none);
            var asked := Handle(second.manager, ConnectToData(0, request, Tcp), none.(connected := Some(stream)));
            var astray := none.(chosen := Some(1));
            && asked.sent == [Cm(NewDataStream(stream, ip))]
            && Legal(asked.manager, NewDataStream(stream, ip), astray)
            && var end := Handle(asked.manager, NewDataStream(stream, ip), astray);
               && end.manager.json.Keys == {0, 1}
               && end.manager.json[0].next == Some(Request(request, Tcp))
               && end.manager.json[0].pendingTcp == None
               && end.manager.json[1].pendingTcp == Some(stream)
               && end.sent == []
  {
  }
}
