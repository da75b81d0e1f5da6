/** The Linux end of the USB connection (src/connection/usb/libusb.rs). */
module UsbLinux {
  import opened Sequences
  import opened Bytes
  import opened UsbProtocol
  import opened JsonTunnel
  import M = Messages

  /** `Panicked`: a size field that reaches past its packet. */
  datatype AccessoryResult = Ok | Usb | Tcp | TcpDisconnected | StillWriting | Panicked

  /** How its write loop ended when that gives the result. */
  function LoopEnd(r: AccessoryResult): WriteLoop {
    match r
    case StillWriting => Waiting
    case TcpDisconnected => Disconnected
    case Tcp => Failed
    case _ => Done
  }

  class AccessoryConnection {
    const accessory: AndroidUsbAccessory
    const jsonStream: JsonSocket

    /** The transfers of this connection are whole. */
    ghost predicate Valid()
      reads accessory`inWire
    {
      accessory.Valid() && accessory.WholeTransfers()
    }

    constructor (accessory: AndroidUsbAccessory, jsonStream: JsonSocket)
      ensures this.accessory == accessory && this.jsonStream == jsonStream
    {
      this.accessory, this.jsonStream := accessory, jsonStream;
    }

    /** At most one packet of the JSON stream, and never an empty one. */
    method UpdateConnection(outcome: ReadOutcome, transferred: bool) returns (r: AccessoryResult, ghost piece: seq<Byte>)
      requires Valid()
      modifies accessory`outWire, accessory.buffer, jsonStream`unread
      ensures Valid()
      ensures old(jsonStream.unread) == piece + jsonStream.unread && |piece| <= MaxDataSize(Down)
      ensures accessory.outWire == old(accessory.outWire) +
                if r == Ok && piece != [] then [Wrap(Down, Json, piece)] else []
      ensures piece != [] <==> outcome.Available? && old(jsonStream.unread) != []
      ensures r == if piece != [] then (if transferred then Ok else Usb)
                   else match outcome
                        case NothingYet => Ok
                        case ReadBroken => Tcp
                        case Available(_) => TcpDisconnected
    {
      piece := [];
      var result := jsonStream.Read(MaxDataSize(Down), outcome);
      match result {
        case EndOfStream => return TcpDisconnected, [];
        case ReadError => return Tcp, [];
        case ReadWouldBlock =>
        case Bytes(newData) =>
          piece := newData;
          TransferredOnce(Encode(OutJsonStream.Code(), newData, USB_OUT_PACKET_SIZE), transferred);
          var end := accessory.SendPacket(OutJsonStream, newData, Once(transferred, USB_OUT_PACKET_SIZE));
          if end != AllTaken {
            return Usb, newData;
          }
      }
      r := Ok;
    }

    /** The write loop, which gives up at once on empty data; it can be entered again with what is left. */
    method WriteJson(received: seq<Byte>, writes: seq<WriteOutcome>) returns (r: AccessoryResult, rest: seq<Byte>)
      modifies jsonStream`written
      ensures Handed(old(jsonStream.written), received, jsonStream.written, rest)
      ensures r in {Ok, Tcp, TcpDisconnected, StillWriting}
      ensures r == Ok ==> rest == []
      ensures r == StillWriting ==> rest != []
      ensures Went(received, writes, rest, LoopEnd(r))
    {
      ghost var before := jsonStream.written;
      var data, i := received, 0;
      while i < |writes|
        invariant 0 <= i <= |writes|
        invariant WentOn(received, writes, data, i)
        invariant i > 0 ==> writes[i - 1].Accepted? || writes[i - 1].FullBuffer?
        invariant Handed(before, received, jsonStream.written, data)
        invariant data == [] ==> received == [] && i == 0
        modifies jsonStream`written
      {
        if data == [] {
          assert Ended(received, writes, [], 0, Done);
          return Ok, [];
        }
        AcceptedMore(writes, i);
        var result := jsonStream.Write(data, writes[i]);
        match result {
          case WriteWouldBlock =>
          case WriteError =>
            assert Ended(received, writes, data, i + 1, Failed);
            return Tcp, data;
          case Count(count) =>
            HandedMore(before, received, jsonStream.written[..|jsonStream.written| - count], data, count);
            if count == 0 {
              assert Ended(received, writes, data, i + 1, Disconnected);
              return TcpDisconnected, data;
            }
            data := data[count..];
            if data == [] {
              assert Ended(received, writes, data, i + 1, Done);
              return Ok, [];
            }
        }
        i := i + 1;
      }
      r, rest := if data == [] then Ok else StillWriting, data;
      assert Ended(received, writes, rest, i, LoopEnd(r));
    }

    /** Takes one transfer from the device and writes its JSON data to the local socket. */
    method ReceiveNext(writes: seq<WriteOutcome>) returns (r: AccessoryResult, rest: seq<Byte>)
      requires Valid() && accessory.inWire != []
      modifies accessory`inWire, accessory.receiveBuffer, jsonStream`written
      ensures Valid() && accessory.inWire == old(accessory.inWire)[1..]
      ensures var data := JsonIn(Up, old(accessory.inWire)[0]).UnwrapOr([]);
              && Handed(old(jsonStream.written), data, jsonStream.written, rest)
              && (DecodeIn(old(accessory.inWire)[0]).Received? ==> Went(data, writes, rest, LoopEnd(r)))
      ensures r == Ok ==> rest == []
      ensures r == StillWriting ==> rest != []
      ensures r == Usb <==> DecodeIn(old(accessory.inWire)[0]).UnknownType?
      ensures r == Panicked <==> DecodeIn(old(accessory.inWire)[0]).Overrun?
      ensures r != Usb && r != Panicked ==> DecodeIn(old(accessory.inWire)[0]).Received?
    {
      rest := [];
      assert jsonStream.written + [] == jsonStream.written;
      var packet := accessory.ReceivePacket();
      match packet {
        case UnknownType(_) => return Usb, [];
        case UnexpectedSize(_) => assert false;
        case ReadFailed => assert false;
        case Overrun => return Panicked, [];
        case Received(packetType, received) =>
          match packetType {
            case InEmpty =>
              r := Ok;
              assert Ended([], writes, [], 0, Done);
            case InJsonStream => r, rest := WriteJson(received, writes);
          }
      }
    }

    /** Relabels the packet as audio and transfers it. */
    method SendAudioPacket(packet: UsbPacket, transferred: bool) returns (r: AccessoryResult)
      requires Valid() && packet.Valid() && packet.data != accessory.buffer && packet.data != accessory.receiveBuffer
      modifies accessory`outWire, packet.data
      ensures Valid() && r == (if transferred then Ok else Usb)
      ensures packet.Valid() && packet.data[..] == old(packet.data[..])[0 := OutAudioData.Code()]
      ensures accessory.outWire == old(accessory.outWire) +
                if transferred then [old(packet.data[..])[0 := OutAudioData.Code()]] else []
    {
      packet.SetPacketType(OutAudioData.Code());
      TransferredOnce(packet.data[..], transferred);
      var end := accessory.SendUsbPacket(packet, Once(transferred, USB_OUT_PACKET_SIZE));
      r := if end == AllTaken then Ok else Usb;
    }
  }

  datatype LibUsbEvent =
    | RequestQuit
    | PollUsbDevices(twoSecondsPassed: bool, found: Option<AccessoryConnection>)
    | JsonPollIfConnected(writes: seq<WriteOutcome>, read: ReadOutcome, sent: bool)
    | SendAudioData(packet: UsbPacket, transferred: bool)
    | UsbEvent(event: M.UsbEvent)

  datatype Mode = Polling | AccessoryConnected(connection: AccessoryConnection)

  /** How a round ends; `InWriteLoop` when the local socket has not taken everything yet. */
  datatype Round = NextRound | QuitRequested | InWriteLoop | Abort

  /** What a round can change at this end. */
  datatype LinuxEnd = LinuxEnd(
    connected: bool, writing: Option<seq<Byte>>, inWire: seq<seq<Byte>>, outWire: seq<seq<Byte>>,
    unread: seq<Byte>, written: seq<Byte>)

  /** The data that a JSON round has for the local socket. */
  ghost function Incoming(b: LinuxEnd): seq<Byte>
    requires b.writing.None? ==> b.inWire != [] && USB_HEADER_SIZE <= |b.inWire[0]|
  {
    if b.writing.None? then JsonIn(Up, b.inWire[0]).UnwrapOr([]) else b.writing.value
  }

  /**
   One JSON round: the data of one transfer, or what was left of it, is handed to the
   local socket but for `rest`; when all is written, `piece` of the stream is read,
   and sent unless it is empty. Any error drops the connection.
   */
  ghost predicate JsonRound(b: LinuxEnd, a: LinuxEnd, piece: seq<Byte>, rest: seq<Byte>)
    requires b.inWire != [] ==> USB_HEADER_SIZE <= |b.inWire[0]|
  {
    if b.writing.None? && b.inWire == [] then
      // The transfer times out.
      a == b.(connected := false) && piece == [] && rest == []
    else
      && a.inWire == (if b.writing.None? then b.inWire[1..] else b.inWire)
      && Handed(b.written, Incoming(b), a.written, rest)
      && b.unread == piece + a.unread
      && |piece| <= MaxDataSize(Down)
      && a.outWire == b.outWire + (if a.connected && piece != [] then [Wrap(Down, Json, piece)] else [])
      && (a.writing == if a.connected && rest != [] then Some(rest) else None)
      && (a.writing.Some? ==> piece == [])
  }

  /**
   When the connection lasts: a transfer has arrived that can be decoded, the local
   socket neither broke nor was closed, and what was then read from it was sent.
   */
  ghost predicate Lasts(b: LinuxEnd, a: LinuxEnd, piece: seq<Byte>, rest: seq<Byte>, writes: seq<WriteOutcome>,
                        read: ReadOutcome, sent: bool)
    requires b.inWire != [] ==> USB_HEADER_SIZE <= |b.inWire[0]|
  {
    if b.writing.None? && (b.inWire == [] || !DecodeIn(b.inWire[0]).Received?) then !a.connected && piece == []
    else
      exists end ::
        && Went(Incoming(b), writes, rest, end)
        && match end
           case Waiting => a.connected && piece == []
           case Disconnected => !a.connected && piece == []
           case Failed => !a.connected && piece == []
           case Done =>
             && (piece != [] <==> read.Available? && b.unread != [])
             && (a.connected <==> if piece != [] then sent else read.NothingYet?)
  }

  ghost predicate Polled(b: LinuxEnd, a: LinuxEnd, writes: seq<WriteOutcome>, read: ReadOutcome, sent: bool)
    requires b.inWire != [] ==> USB_HEADER_SIZE <= |b.inWire[0]|
  {
    exists piece, rest :: JsonRound(b, a, piece, rest) && Lasts(b, a, piece, rest, writes, read, sent)
  }

  lemma PolledBy(b: LinuxEnd, a: LinuxEnd, piece: seq<Byte>, rest: seq<Byte>, writes: seq<WriteOutcome>, read: ReadOutcome,
                 sent: bool)
    requires b.inWire != [] ==> USB_HEADER_SIZE <= |b.inWire[0]|
    requires JsonRound(b, a, piece, rest) && Lasts(b, a, piece, rest, writes, read, sent)
    ensures Polled(b, a, writes, read, sent)
  {
    hide JsonRound, Lasts;
  }

  ghost predicate Framed(e: LinuxEnd) {
    && (forall i :: 0 <= i < |e.inWire| ==> USB_HEADER_SIZE <= |e.inWire[i]|)
    && (forall i :: 0 <= i < |e.outWire| ==> USB_HEADER_SIZE <= |e.outWire[i]|)
  }

  /** The stream to the device: what is on the wire and what is still to be read. */
  ghost function DownTotal(e: LinuxEnd): seq<Byte>
    requires Framed(e)
  {
    OnWire(Down, e.outWire) + e.unread
  }

  /** The stream from the device: written, being written, and on the wire. */
  ghost function UpTotal(e: LinuxEnd): seq<Byte>
    requires Framed(e)
  {
    e.written + (e.writing.UnwrapOr([]) + OnWire(Up, e.inWire))
  }

  /** Rounds lose, repeat and reorder nothing while the connection lasts, and only cut the streams off when it ends. */
  ghost predicate Conserved(b: LinuxEnd, a: LinuxEnd)
    requires Framed(b)
  {
    && Framed(a)
    && (a.connected ==> DownTotal(a) == DownTotal(b) && UpTotal(a) == UpTotal(b))
    && OnWire(Down, a.outWire) <= DownTotal(b)
    && a.written <= UpTotal(b)
  }

  lemma JsonRoundConserves(b: LinuxEnd, a: LinuxEnd, piece: seq<Byte>, rest: seq<Byte>)
    requires Framed(b) && JsonRound(b, a, piece, rest)
    requires b.connected
    ensures Conserved(b, a)
  {
    hide JsonIn, Wrap;
    if b.writing.None? && b.inWire == [] {
      assert OnWire(Down, a.outWire) <= DownTotal(b);
    } else {
      var data := Incoming(b);
      HandedPrefix(b.written, data, a.written, rest);
      var behind := OnWire(Up, a.inWire);
      ConcatAssociative(a.written, rest, behind);
      ConcatAssociative(b.written, data, behind);
      assert [] + behind == behind;
      assert b.writing.UnwrapOr([]) + OnWire(Up, b.inWire) == data + behind;
      if a.connected && piece != [] {
        WrapIsRead(Down, Json, piece);
        OnWireAppend(Down, b.outWire, Wrap(Down, Json, piece));
        ConcatAssociative(OnWire(Down, b.outWire), piece, a.unread);
      } else {
        assert b.outWire + [] == b.outWire;
      }
    }
  }

  lemma AudioConserves(b: LinuxEnd, a: LinuxEnd, raw: seq<Byte>)
    requires Framed(b) && |raw| == USB_OUT_PACKET_SIZE
    requires a == b.(connected := a.connected, outWire := a.outWire)
    requires a.outWire == b.outWire + if a.connected then [raw[0 := OutAudioData.Code()]] else []
    ensures Conserved(b, a)
  {
    var sent := raw[0 := OutAudioData.Code()];
    hide OnWire;
    if a.connected {
      OnWireAppend(Down, b.outWire, sent);
      assert OnWire(Down, b.outWire) + [] == OnWire(Down, b.outWire);
    } else {
      assert b.outWire + [] == b.outWire;
    }
  }

  lemma ConservedThrough(b: LinuxEnd, between: LinuxEnd, a: LinuxEnd)
    requires Framed(b) && Conserved(b, between) && between.connected && Conserved(between, a)
    ensures Conserved(b, a)
  {
  }

  lemma HeadDecodes(raw: seq<Byte>)
    requires USB_HEADER_SIZE <= |raw|
    ensures DecodeIn(raw).Received? || DecodeIn(raw).UnknownType? || DecodeIn(raw).Overrun?
  {
  }

  class LibUsbLogic {
    var mode: Mode
    var firstConnect: bool
    /** What is left to write while the thread is inside the write loop. */
    var writing: Option<seq<Byte>>

    ghost predicate Valid()
      reads `mode, `writing, Accessory()`inWire
    {
      && (mode.AccessoryConnected? ==> mode.connection.Valid())
      && (writing.Some? ==> mode.AccessoryConnected? && writing.value != [])
    }

    constructor ()
      ensures Valid() && mode == Polling && firstConnect && writing == None
    {
      mode, firstConnect, writing := Polling, true, None;
    }

    ghost function Accessory(): set<AndroidUsbAccessory>
      reads `mode
    {
      if mode.Polling? then {} else {mode.connection.accessory}
    }

    /** What the connection in use can change. */
    ghost function Footprint(): set<object>
      reads this
    {
      if mode.Polling? then {} else Objects(mode.connection)
    }

    static ghost function Objects(c: AccessoryConnection): set<object> {
      {c.accessory, c.accessory.buffer, c.accessory.receiveBuffer, c.jsonStream}
    }

    ghost function End(c: AccessoryConnection): LinuxEnd
      reads this, Objects(c)
    {
      LinuxEnd(mode == AccessoryConnected(c), writing, c.accessory.inWire, c.accessory.outWire,
               c.jsonStream.unread, c.jsonStream.written)
    }

    /** The write loop goes on where it was left, or is entered with the data of the next transfer. */
    method WriteNext(c: AccessoryConnection, writes: seq<WriteOutcome>) returns (result: AccessoryResult, rest: seq<Byte>)
      requires Valid() && mode == AccessoryConnected(c) && (writing.Some? || c.accessory.inWire != [])
      modifies `writing, c.accessory`inWire, c.accessory.receiveBuffer, c.jsonStream`written
      ensures Valid() && writing.None?
      ensures c.accessory.inWire == if old(writing).None? then old(c.accessory.inWire)[1..] else old(c.accessory.inWire)
      ensures Handed(old(c.jsonStream.written), Incoming(old(End(c))), c.jsonStream.written, rest)
      ensures result == Ok ==> rest == []
      ensures result == StillWriting ==> rest != []
      ensures if old(writing).Some? || DecodeIn(old(c.accessory.inWire)[0]).Received? then
                && result in {Ok, Tcp, TcpDisconnected, StillWriting}
                && Went(Incoming(old(End(c))), writes, rest, LoopEnd(result))
              else result == if DecodeIn(old(c.accessory.inWire)[0]).Overrun? then Panicked else Usb
    {
      hide JsonIn, Went, DecodeIn, LoopEnd;
      if writing.Some? {
        result, rest := c.WriteJson(writing.value, writes);
        writing := None;
      } else {
        HeadDecodes(c.accessory.inWire[0]);
        result, rest := c.ReceiveNext(writes);
      }
    }

    /** A transfer is received before the stream is read. */
    method PollJson(c: AccessoryConnection, writes: seq<WriteOutcome>, read: ReadOutcome, sent: bool)
      returns (r: Round, ghost piece: seq<Byte>, ghost rest: seq<Byte>)
      requires Valid() && mode == AccessoryConnected(c)
      modifies this, Objects(c)
      ensures Valid() && c.Valid() && firstConnect == old(firstConnect)
      ensures mode == AccessoryConnected(c) || mode == Polling
      ensures JsonRound(old(End(c)), End(c), piece, rest)
      ensures Lasts(old(End(c)), End(c), piece, rest, writes, read, sent)
      ensures r == Abort <==>
                old(writing).None? && old(c.accessory.inWire) != [] && DecodeIn(old(c.accessory.inWire)[0]).Overrun?
      ensures r == InWriteLoop <==> writing.Some?
      ensures r != QuitRequested
    {
      hide JsonIn, Wrap, DecodeIn, Went, Encode, Handed, Incoming;
      piece, rest := [], [];
      assert c.accessory.outWire + [] == c.accessory.outWire;
      assert [] + c.jsonStream.unread == c.jsonStream.unread;
      if writing.None? && c.accessory.inWire == [] {
        mode := Polling;
        return NextRound, [], [];
      }
      var result, left := WriteNext(c, writes);
      rest := left;
      if result == Panicked {
        mode := Polling;
        return Abort, [], rest;
      }
      if result == StillWriting {
        writing := Some(left);
        return InWriteLoop, [], rest;
      }
      if result != Ok {
        mode := Polling;
        return NextRound, [], rest;
      }
      result, piece := c.UpdateConnection(read, sent);
      if result != Ok {
        mode := Polling;
      }
      r := NextRound;
    }

    /** The update of the mode; audio data without a connection is dropped. */
    method Update(event: LibUsbEvent) returns (r: Round)
      requires Valid()
      requires writing.Some? ==> event.JsonPollIfConnected?
      requires event.SendAudioData? ==> event.packet.Valid() && event.packet.data !in Footprint()
      requires event.PollUsbDevices? && event.found.Some? ==> event.found.value.Valid()
      modifies this, Footprint(), if event.SendAudioData? then {event.packet.data} else {}
      ensures Valid()
      ensures event.SendAudioData? ==>
                && event.packet.Valid()
                && event.packet.data[..] == if old(mode).Polling? then old(event.packet.data[..])
                                            else old(event.packet.data[..])[0 := OutAudioData.Code()]
      ensures r == QuitRequested <==> event.RequestQuit?
      ensures !event.JsonPollIfConnected? ==>
                (r == Abort <==> old(mode).AccessoryConnected? && event.UsbEvent? && event.event.ReceiveAudioOverUsb?)
      ensures r == InWriteLoop <==> writing.Some?
      ensures firstConnect ==
                (old(firstConnect) && !(old(mode).Polling? && event.PollUsbDevices?))
      ensures old(mode).Polling? ==>
                && mode == (if event.PollUsbDevices? && (event.twoSecondsPassed || old(firstConnect)) && event.found.Some?
                            then AccessoryConnected(event.found.value) else Polling)
      ensures old(mode).AccessoryConnected? ==>
                var c := old(mode).connection;
                && c.Valid()
                && (mode == old(mode) || mode == Polling)
                && match event
                   case RequestQuit => End(c) == old(End(mode.connection))
                   case PollUsbDevices(_, _) => End(c) == old(End(mode.connection))
                   case UsbEvent(_) => End(c) == old(End(mode.connection))
                   case JsonPollIfConnected(writes, read, sent) =>
                     Polled(old(End(mode.connection)), End(c), writes, read, sent)
                   case SendAudioData(packet, transferred) =>
                     End(c) == old(End(mode.connection)).(
                       connected := transferred,
                       outWire := c.accessory.outWire) &&
                     c.accessory.outWire == old(mode.connection.accessory.outWire) +
                       if transferred then [old(packet.data[..])[0 := OutAudioData.Code()]] else []
    {
      hide JsonRound;
      r := NextRound;
      match mode {
        case Polling =>
          match event {
            case RequestQuit => r := QuitRequested;
            case PollUsbDevices(twoSecondsPassed, found) =>
              if twoSecondsPassed || firstConnect {
                firstConnect := false;
                if found.Some? {
                  mode := AccessoryConnected(found.value);
                }
              }
            case JsonPollIfConnected(_, _, _) =>
            case SendAudioData(_, _) =>
            case UsbEvent(_) =>
          }
        case AccessoryConnected(connection) =>
          match event {
            case RequestQuit => r := QuitRequested;
            case PollUsbDevices(_, _) =>
            case UsbEvent(e) =>
              if e.ReceiveAudioOverUsb? {
                // Not implemented.
                r := Abort;
              }
            case JsonPollIfConnected(writes, read, sent) =>
              ghost var piece, rest;
              r, piece, rest := PollJson(connection, writes, read, sent);
            case SendAudioData(packet, transferred) =>
              var result := connection.SendAudioPacket(packet, transferred);
              if result != Ok {
                mode := Polling;
              }
          }
      }
    }

    /** One event while the connection lasts. */
    method UpdateConnected(event: LibUsbEvent, c: AccessoryConnection) returns (r: Round)
      requires Valid() && mode == AccessoryConnected(c) && Framed(End(c))
      requires writing.Some? ==> event.JsonPollIfConnected?
      requires EventFits(event, c)
      modifies this, Objects(c), if event.SendAudioData? then {event.packet.data} else {}
      ensures Valid() && (mode == AccessoryConnected(c) || mode == Polling)
      ensures event.SendAudioData? ==> event.packet.Valid()
      ensures Conserved(old(End(c)), End(c))
      ensures c.Valid()
      ensures r == QuitRequested || r == Abort || mode == Polling ==> MayEnd(event)
      ensures event.RequestQuit? ==> r == QuitRequested
      ensures HandledAs(event, old(End(c)), End(c))
    {
      hide JsonRound, Conserved, Framed, Polled;
      FramedHead(End(c));
      ghost var before := End(c);
      ghost var raw := if event.SendAudioData? then event.packet.data[..] else [];
      r := Update(event);
      match event {
        case JsonPollIfConnected(writes, read, sent) => PolledConserves(before, End(c), writes, read, sent);
        case SendAudioData(_, _) => AudioConserves(before, End(c), raw);
        case _ => ConservedSelf(before);
      }
    }

    /**
     The thread, for as long as the connection `c` lasts: it takes every event in turn,
     except that inside the write loop it only goes on with it.
     */
    method Run(events: seq<LibUsbEvent>, c: AccessoryConnection) returns (rounds: nat, ghost ends: seq<LinuxEnd>)
      requires Valid() && mode == AccessoryConnected(c) && Framed(End(c))
      requires EventsFit(events, c)
      modifies this, Objects(c), set e | e in events && e.SendAudioData? :: e.packet.data
      ensures Valid() && rounds <= |events|
      ensures Conserved(old(End(c)), End(c))
      ensures rounds < |events| ==>
                || (writing.Some? && !events[rounds].JsonPollIfConnected?)
                || (rounds > 0 && MayEnd(events[rounds - 1]))
      ensures mode.Polling? ==> rounds > 0 && MayEnd(events[rounds - 1])
      ensures forall i :: 0 <= i < rounds && events[i].RequestQuit? ==> i == rounds - 1
      ensures |ends| == rounds + 1 && ends[0] == old(End(c)) && ends[rounds] == End(c)
      ensures forall i :: 0 <= i < rounds ==> HandledAs(events[i], ends[i], ends[i + 1])
    {
      hide Conserved, Framed, HandledAs, MayEnd;
      rounds, ends := 0, [End(c)];
      ConservedSelf(End(c));
      while rounds < |events|
        invariant rounds <= |events|
        invariant forall i :: 0 <= i < rounds ==> !events[i].RequestQuit?
        invariant |ends| == rounds + 1 && ends[0] == old(End(c)) && ends[rounds] == End(c)
        invariant forall i :: 0 <= i < rounds ==> HandledAs(events[i], ends[i], ends[i + 1])
        invariant Valid() && mode == AccessoryConnected(c) && EventsFit(events, c)
        invariant Conserved(old(End(c)), End(c))
      {
        var event := events[rounds];
        if writing.Some? && !event.JsonPollIfConnected? {
          return;
        }
        rounds := rounds + 1;
        ghost var before := End(c);
        ConservedFramed(old(End(c)), before);
        var r := UpdateConnected(event, c);
        ConservedThrough(old(End(c)), before, End(c));
        ends := ends + [End(c)];
        if r == QuitRequested || r == Abort || mode == Polling {
          return;
        }
      }
    }
  }

  /** An event that can end the connection or the thread; `Update` says when it does. */
  predicate MayEnd(e: LibUsbEvent) {
    match e
    case RequestQuit => true
    case PollUsbDevices(_, _) => false
    case JsonPollIfConnected(_, _, _) => true
    case SendAudioData(_, transferred) => !transferred
    case UsbEvent(event) => event.ReceiveAudioOverUsb?
  }

  /** What one event does to a connection that lasts until then. */
  ghost predicate HandledAs(e: LibUsbEvent, b: LinuxEnd, a: LinuxEnd) {
    match e
    case RequestQuit => a == b
    case PollUsbDevices(_, _) => a == b
    case UsbEvent(_) => a == b
    case JsonPollIfConnected(writes, read, sent) =>
      (b.inWire != [] ==> USB_HEADER_SIZE <= |b.inWire[0]|) && Polled(b, a, writes, read, sent)
    case SendAudioData(_, transferred) =>
      && a == b.(connected := transferred, outWire := a.outWire)
      && (if !transferred then a.outWire == b.outWire
          else |a.outWire| == |b.outWire| + 1 && b.outWire <= a.outWire && |a.outWire[|b.outWire|]| == USB_OUT_PACKET_SIZE &&
               a.outWire[|b.outWire|][0] == OutAudioData.Code())
  }

  lemma FramedHead(e: LinuxEnd)
    requires Framed(e)
    ensures e.inWire != [] ==> USB_HEADER_SIZE <= |e.inWire[0]|
  {
  }

  lemma PolledConserves(b: LinuxEnd, a: LinuxEnd, writes: seq<WriteOutcome>, read: ReadOutcome, sent: bool)
    requires Framed(b) && Polled(b, a, writes, read, sent) && b.connected
    ensures Conserved(b, a)
  {
    hide JsonRound;
    var piece, rest :| JsonRound(b, a, piece, rest) && Lasts(b, a, piece, rest, writes, read, sent);
    JsonRoundConserves(b, a, piece, rest);
  }

  /** A packet to send is whole and no part of the connection; a connection found is whole. */
  ghost predicate EventFits(e: LibUsbEvent, c: AccessoryConnection)
    reads if e.SendAudioData? then {e.packet.data} else {}
    reads (if e.PollUsbDevices? && e.found.Some? then {e.found.value.accessory} else {})`inWire
  {
    && (e.SendAudioData? ==> e.packet.Valid() && e.packet.data !in LibUsbLogic.Objects(c))
    && (e.PollUsbDevices? && e.found.Some? ==> e.found.value.Valid())
  }

  ghost predicate EventsFit(events: seq<LibUsbEvent>, c: AccessoryConnection)
    reads set e | e in events && e.SendAudioData? :: e.packet.data
    reads (set e | e in events && e.PollUsbDevices? && e.found.Some? :: e.found.value.accessory)`inWire
  {
    forall e :: e in events ==> EventFits(e, c)
  }

  lemma ConservedSelf(e: LinuxEnd)
    requires Framed(e)
    ensures Conserved(e, e)
  {
  }

  lemma ConservedFramed(b: LinuxEnd, a: LinuxEnd)
    requires Framed(b) && Conserved(b, a)
    ensures Framed(a)
  {
  }
}
