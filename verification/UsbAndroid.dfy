/** The Android end of the USB connection (src/connection/usb/android/read.rs and write.rs). */
module UsbAndroid {
  import opened Sequences
  import opened Bytes
  import opened UsbProtocol
  import opened JsonTunnel

  /** `Aborted`: a size field that reaches past its packet, or audio to send, which is not implemented. */
  datatype ThreadResult = Continue | QuitSeen | UsbFailure | JsonTcp | JsonTcpDisconnected | Blocked | Aborted

  /** One round of the reading thread: new audio receiver, what was read, writes, audio channel, quit flag. */
  datatype ReaderTurn = ReaderTurn(
    attach: bool, transfer: Option<seq<Byte>>, writes: seq<WriteOutcome>, audioTaken: bool, quit: bool)

  /** A read gives at most a packet. */
  predicate Transferred(turn: ReaderTurn) {
    turn.transfer.Some? ==> |turn.transfer.value| <= USB_OUT_PACKET_SIZE
  }

  /** The channel to the audio code after a round; a packet without a channel is dropped. */
  function Forward(sender: Option<seq<seq<Byte>>>, turn: ReaderTurn): Option<seq<seq<Byte>>>
    requires Transferred(turn)
  {
    var current := if turn.attach then Some([]) else sender;
    if turn.transfer.None? || current.None? then current
    else
      match DecodeRead(turn.transfer.value)
      case Received(OutAudioData, data) => if turn.audioTaken then Some(current.value + [data]) else None
      case _ => current
  }

  /** How a round goes on after its write loop. */
  function AfterLoop(end: WriteLoop, quit: bool): ThreadResult {
    match end
    case Done => if quit then QuitSeen else Continue
    case Waiting => Blocked
    case Disconnected => JsonTcpDisconnected
    case Failed => JsonTcp
  }

  /** Why a round of the reading thread has its result. */
  ghost predicate ReaderWent(turn: ReaderTurn, r: ThreadResult, rest: seq<Byte>) {
    if turn.transfer.None? then r == UsbFailure
    else
      match DecodeRead(turn.transfer.value)
      case Received(OutJsonStream, data) =>
        if data == [] then r in {JsonTcp, JsonTcpDisconnected, Blocked} && (r == JsonTcp ==> WriteBroken in turn.writes)
        else exists end :: Went(data, turn.writes, rest, end) && r == AfterLoop(end, turn.quit)
      case Received(_, _) => r == AfterLoop(Done, turn.quit)
      case Overrun => r == Aborted
      case _ => r == UsbFailure
  }

  class ReaderLogic {
    const accessoryReader: AccessoryReader
    const jsonStream: JsonSocket
    /** The channel to the audio code and what is in it. */
    var audioSender: Option<seq<seq<Byte>>>

    ghost predicate Valid() {
      accessoryReader.Valid()
    }

    constructor (accessoryReader: AccessoryReader, jsonStream: JsonSocket)
      requires accessoryReader.Valid()
      ensures Valid() && audioSender == None
      ensures this.accessoryReader == accessoryReader && this.jsonStream == jsonStream
    {
      this.accessoryReader, this.jsonStream := accessoryReader, jsonStream;
      audioSender := None;
    }

    /**
     The write loop; there is no check for empty data, which would look like a closed
     socket. It can be entered again with what is left.
     */
    method WriteJson(received: seq<Byte>, writes: seq<WriteOutcome>) returns (r: WriteLoop, rest: seq<Byte>)
      modifies jsonStream`written
      ensures Handed(old(jsonStream.written), received, jsonStream.written, rest)
      ensures r == Done ==> rest == []
      ensures r == Waiting && received != [] ==> rest != []
      ensures received != [] && PeerClosed !in writes ==> r != Disconnected
      ensures received == [] && writes != [] && writes[0].Accepted? ==> r == Disconnected
      ensures received != [] ==> Went(received, writes, rest, r)
      ensures received == [] ==> r != Done && (r == Failed ==> WriteBroken in writes)
    {
      ghost var before := jsonStream.written;
      var data, i := received, 0;
      while i < |writes|
        invariant 0 <= i <= |writes|
        invariant Handed(before, received, jsonStream.written, data)
        invariant received != [] ==> data != []
        invariant i > 0 && received == [] ==> !writes[0].Accepted?
        invariant received != [] ==> WentOn(received, writes, data, i)
        invariant received != [] && i > 0 ==> writes[i - 1].Accepted? || writes[i - 1].FullBuffer?
        modifies jsonStream`written
      {
        AcceptedMore(writes, i);
        var result := jsonStream.Write(data, writes[i]);
        match result {
          case WriteWouldBlock =>
          case WriteError =>
            assert received != [] ==> Ended(received, writes, data, i + 1, Failed);
            return Failed, data;
          case Count(count) =>
            HandedMore(before, received, jsonStream.written[..|jsonStream.written| - count], data, count);
            if count == 0 {
              assert received != [] ==> Ended(received, writes, data, i + 1, Disconnected);
              return Disconnected, data;
            }
            data := data[count..];
            if data == [] {
              assert Ended(received, writes, data, i + 1, Done);
              return Done, [];
            }
        }
        i := i + 1;
      }
      r, rest := Waiting, data;
      assert received != [] ==> Ended(received, writes, rest, i, Waiting);
    }

    /** One round of the loop; `rest` is the JSON data that was not written. */
    method TakeTurn(turn: ReaderTurn) returns (r: ThreadResult, rest: seq<Byte>)
      requires Valid() && Transferred(turn)
      modifies `audioSender, accessoryReader.buffer, jsonStream`written
      ensures audioSender == Forward(old(audioSender), turn)
      ensures Handed(old(jsonStream.written), JsonOfTurn(turn), jsonStream.written, rest)
      ensures r == Continue || r == QuitSeen ==> rest == []
      ensures r == Blocked && JsonOfTurn(turn) != [] ==> rest != []
      ensures r == Aborted <==> turn.transfer.Some? && DecodeRead(turn.transfer.value).Overrun?
      ensures r == UsbFailure <==>
                turn.transfer.None? || DecodeRead(turn.transfer.value).UnknownType? ||
                DecodeRead(turn.transfer.value).UnexpectedSize?
      ensures r == JsonTcpDisconnected || r == Blocked ==>
                turn.transfer.Some? && DecodeRead(turn.transfer.value) == Received(OutJsonStream, JsonOfTurn(turn))
      ensures r == JsonTcpDisconnected ==> JsonOfTurn(turn) == [] || PeerClosed in turn.writes
      ensures ReaderWent(turn, r, rest)
    {
      rest := [];
      assert jsonStream.written + [] == jsonStream.written;
      if turn.attach {
        audioSender := Some([]);
      }
      if turn.transfer.None? {
        return UsbFailure, [];
      }
      var packet := accessoryReader.ReadPacket(turn.transfer.value);
      if packet.Overrun? {
        return Aborted, [];
      }
      if !packet.Received? {
        return UsbFailure, [];
      }
      match packet.packetType {
        case OutEmpty =>
        case OutNextIsWrite =>
        case OutJsonStream =>
          var written;
          written, rest := WriteJson(packet.data, turn.writes);
          assert packet.data != [] ==> Went(packet.data, turn.writes, rest, written);
          match written {
            case Done =>
            case Waiting => return Blocked, rest;
            case Disconnected => return JsonTcpDisconnected, rest;
            case Failed => return JsonTcp, rest;
          }
        case OutAudioData =>
          if audioSender.Some? {
            audioSender := if turn.audioTaken then Some(audioSender.value + [packet.data]) else None;
          }
      }
      r := if turn.quit then QuitSeen else Continue;
    }

    /** The thread: the JSON data of the transfers goes to the socket, their audio to the channel. */
    method Run(turns: seq<ReaderTurn>) returns (r: ThreadResult, rounds: nat, rest: seq<Byte>)
      requires Valid() && AllTransferred(turns) && audioSender == None
      modifies `audioSender, accessoryReader.buffer, jsonStream`written
      ensures rounds <= |turns| && (r == Continue ==> rounds == |turns|)
      ensures audioSender == ForwardAll(turns[..rounds])
      ensures Handed(old(jsonStream.written), JsonOf(turns[..rounds]), jsonStream.written, rest)
      ensures r == Continue || r == QuitSeen ==> rest == []
      ensures r == JsonTcpDisconnected ==>
                && rounds > 0
                && (JsonOfTurn(turns[rounds - 1]) == [] || PeerClosed in turns[rounds - 1].writes)
      ensures forall i :: 0 <= i < rounds - 1 ==> ReaderWent(turns[i], Continue, [])
      ensures rounds > 0 ==> ReaderWent(turns[rounds - 1], r, rest)
    {
      hide Forward, ReaderWent, JsonOfTurn, JsonIn, DecodeRead, DecodeOut, AccessoryReader.Valid;
      rounds, r, rest := 0, Continue, [];
      ghost var before := jsonStream.written;
      assert turns[..0] == [];
      assert before + [] == before;
      while rounds < |turns|
        invariant rounds <= |turns| && r == Continue && rest == []
        invariant Handed(before, JsonOf(turns[..rounds]), jsonStream.written, [])
        invariant audioSender == ForwardAll(turns[..rounds])
        invariant forall i :: 0 <= i < rounds ==> ReaderWent(turns[i], Continue, [])
      {
        TurnsTaken(turns, rounds);
        ghost var between := JsonOf(turns[..rounds]);
        HandedPrefix(before, between, jsonStream.written, []);
        ConcatAssociative(before, between, JsonOfTurn(turns[rounds]));
        r, rest := TakeTurn(turns[rounds]);
        rounds := rounds + 1;
        if r != Continue {
          return;
        }
      }
      assert turns[..rounds] == turns;
    }
  }

  predicate AllTransferred(turns: seq<ReaderTurn>) {
    forall i :: 0 <= i < |turns| ==> Transferred(turns[i])
  }

  function JsonOfTurn(turn: ReaderTurn): seq<Byte>
    requires Transferred(turn)
  {
    if turn.transfer.None? || |turn.transfer.value| != USB_OUT_PACKET_SIZE then []
    else JsonIn(Down, turn.transfer.value).UnwrapOr([])
  }

  function JsonOf(turns: seq<ReaderTurn>): seq<Byte>
    requires AllTransferred(turns)
  {
    if turns == [] then [] else JsonOf(turns[..|turns| - 1]) + JsonOfTurn(turns[|turns| - 1])
  }

  function ForwardAll(turns: seq<ReaderTurn>): Option<seq<seq<Byte>>>
    requires AllTransferred(turns)
  {
    if turns == [] then None else Forward(ForwardAll(turns[..|turns| - 1]), turns[|turns| - 1])
  }

  lemma TurnsTaken(turns: seq<ReaderTurn>, i: nat)
    requires AllTransferred(turns) && i < |turns|
    ensures JsonOf(turns[..i + 1]) == JsonOf(turns[..i]) + JsonOfTurn(turns[i])
    ensures ForwardAll(turns[..i + 1]) == Forward(ForwardAll(turns[..i]), turns[i])
  {
    assert turns[..i + 1][..i] == turns[..i];
  }

  /** The audio packets among the transfers. */
  function AudioOfTurns(turns: seq<ReaderTurn>): seq<seq<Byte>>
    requires AllTransferred(turns)
  {
    if turns == [] then []
    else
      var last := turns[|turns| - 1];
      AudioOfTurns(turns[..|turns| - 1]) +
      (if last.transfer.None? then []
       else match DecodeRead(last.transfer.value)
            case Received(OutAudioData, data) => [data]
            case _ => [])
  }

  /** A channel that stays open has every audio packet since it was attached. */
  lemma {:induction false} AudioSinceAttached(before: seq<ReaderTurn>, turns: seq<ReaderTurn>)
    requires AllTransferred(before) && AllTransferred(turns) && AllTransferred(before + turns)
    requires turns != [] && turns[0].attach
    requires forall i :: 0 <= i < |turns| ==> turns[i].audioTaken && (i > 0 ==> !turns[i].attach)
    ensures ForwardAll(before + turns) == Some(AudioOfTurns(turns))
    decreases |turns|
  {
    var all, last := before + turns, |turns| - 1;
    assert all[..|all| - 1] == before + turns[..last];
    if last == 0 {
      assert all[..|all| - 1] == before;
      assert AudioOfTurns(turns[..0]) == [];
    } else {
      AudioSinceAttached(before, turns[..last]);
      assert AudioOfTurns(turns[..last]) + [] == AudioOfTurns(turns[..last]);
    }
  }

  /** One round of the writing thread: audio to send, the read, what the write of the packet returned, the quit flag. */
  datatype WriterTurn = WriterTurn(audio: bool, read: ReadOutcome, result: Option<nat>, quit: bool) {
    predicate Transferred() {
      result == Some(USB_IN_PACKET_SIZE)
    }
  }

  /** Why a round of the writing thread has its result; `Continue` needs that nothing ends it. */
  predicate WriterWent(turn: WriterTurn, r: ThreadResult) {
    match r
    case Continue => !turn.audio && turn.Transferred() && !turn.quit && !turn.read.ReadBroken?
    case QuitSeen => !turn.audio && turn.Transferred() && turn.quit
    case UsbFailure => !turn.audio && !turn.Transferred()
    case JsonTcp => !turn.audio && turn.read.ReadBroken?
    case JsonTcpDisconnected => !turn.audio && turn.read.Available?
    case Aborted => turn.audio
    case Blocked => false
  }

  class WriterLogic {
    const accessoryWriter: AccessoryWriter
    const jsonStream: JsonSocket
    /** The transfers sent and not received yet. */
    var wire: seq<seq<Byte>>

    ghost predicate Valid()
      reads `wire
    {
      && accessoryWriter.Valid()
      && forall i :: 0 <= i < |wire| ==> |wire[i]| == USB_IN_PACKET_SIZE
    }

    constructor (accessoryWriter: AccessoryWriter, jsonStream: JsonSocket)
      requires accessoryWriter.Valid()
      ensures Valid() && wire == []
      ensures this.accessoryWriter == accessoryWriter && this.jsonStream == jsonStream
    {
      this.accessoryWriter, this.jsonStream, wire := accessoryWriter, jsonStream, [];
    }

    /** Every round sends one packet: the next piece of the stream, or an empty packet when there is none. */
    method TakeTurn(turn: WriterTurn) returns (r: ThreadResult, ghost piece: seq<Byte>)
      requires Valid()
      modifies `wire, accessoryWriter.buffer, jsonStream`unread
      ensures Valid()
      ensures old(jsonStream.unread) == piece + jsonStream.unread && |piece| <= MaxDataSize(Up)
      ensures piece != [] <==> !turn.audio && turn.read.Available? && old(jsonStream.unread) != []
      ensures wire == old(wire) + if r == Continue || r == QuitSeen
                                  then [if piece == [] then Wrap(Up, Empty, []) else Wrap(Up, Json, piece)] else []
      ensures r == if turn.audio then Aborted
                   else if piece != [] || turn.read == NothingYet
                   then (if !turn.Transferred() then UsbFailure else if turn.quit then QuitSeen else Continue)
                   else if turn.read == ReadBroken then JsonTcp else JsonTcpDisconnected
    {
      hide Encode;
      piece := [];
      assert wire + [] == wire && [] + jsonStream.unread == jsonStream.unread;
      if turn.audio {
        return Aborted, [];
      }
      var sent;
      var result := jsonStream.Read(MaxDataSize(Up), turn.read);
      match result {
        case EndOfStream => return JsonTcpDisconnected, [];
        case ReadError => return JsonTcp, [];
        case ReadWouldBlock =>
          sent := accessoryWriter.WritePacket(InEmpty, [], turn.result);
        case Bytes(newData) =>
          piece := newData;
          sent := accessoryWriter.WritePacket(InJsonStream, newData, turn.result);
      }
      if sent.None? {
        return UsbFailure, piece;
      }
      wire := wire + [sent.value];
      r := if turn.quit then QuitSeen else Continue;
    }

    /** The thread: all that was read from the socket is on the wire, in order. */
    method Run(turns: seq<WriterTurn>) returns (r: ThreadResult, rounds: nat)
      requires Valid() && wire == []
      modifies `wire, accessoryWriter.buffer, jsonStream`unread
      ensures Valid() && rounds <= |turns|
      ensures r == Continue ==> rounds == |turns|
      ensures OnWire(Up, wire) <= old(jsonStream.unread)
      ensures r == Continue || r == QuitSeen ==> OnWire(Up, wire) + jsonStream.unread == old(jsonStream.unread)
      ensures r == JsonTcpDisconnected ==> OnWire(Up, wire) == old(jsonStream.unread) && jsonStream.unread == []
      ensures forall i :: 0 <= i < rounds - 1 ==> WriterWent(turns[i], Continue)
      ensures rounds > 0 ==> WriterWent(turns[rounds - 1], r)
      ensures |wire| == if r == Continue || r == QuitSeen then rounds else rounds - 1
      ensures r == Continue || r == QuitSeen ==> |OnWire(Up, wire)| >= CountReads(turns[..rounds])
    {
      hide OnWire, Wrap, CountReads;
      rounds, r := 0, Continue;
      OnWireNone(Up);
      NothingRead(turns);
      while rounds < |turns|
        invariant rounds <= |turns| && r == Continue && Valid()
        invariant OnWire(Up, wire) <= old(jsonStream.unread)
        invariant OnWire(Up, wire) + jsonStream.unread == old(jsonStream.unread)
        invariant forall i :: 0 <= i < rounds ==> WriterWent(turns[i], Continue)
        invariant |wire| == rounds && |OnWire(Up, wire)| >= CountReads(turns[..rounds])
      {
        ReadsTaken(turns, rounds);
        ghost var before, piece := wire, [];
        r, piece := TakeTurn(turns[rounds]);
        rounds := rounds + 1;
        if piece == [] {
          WrapIsRead(Up, Empty, []);
        } else {
          WrapIsRead(Up, Json, piece);
        }
        ConcatAssociative(OnWire(Up, before), piece, jsonStream.unread);
        if r == Continue || r == QuitSeen {
          OnWireAppend(Up, before, wire[|before|]);
          assert OnWire(Up, before) + [] == OnWire(Up, before);
        } else {
          assert wire == before;
        }
        if r != Continue {
          return;
        }
      }
    }
  }

  /** The rounds in which the socket has something to read; each that goes on reads at least one byte. */
  function CountReads(turns: seq<WriterTurn>): nat {
    if turns == [] then 0
    else CountReads(turns[..|turns| - 1]) + if turns[|turns| - 1].read.Available? then 1 else 0
  }

  lemma NothingRead(turns: seq<WriterTurn>)
    ensures CountReads(turns[..0]) == 0
  {
  }

  lemma ReadsTaken(turns: seq<WriterTurn>, i: nat)
    requires i < |turns|
    ensures CountReads(turns[..i + 1]) == CountReads(turns[..i]) + if turns[i].read.Available? then 1 else 0
  {
    assert turns[..i + 1][..i] == turns[..i];
  }
}
