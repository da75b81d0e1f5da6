/**
 Both ends of the USB connection together: the thread at the Linux end, the two
 threads at the Android end, and the transfers between them, in any interleaving.
 The ghost state follows the two directions as runs of the tunnel in `JsonTunnel`,
 and the audio packets on their way.
 */
module UsbTunnel {
  import opened Sequences
  import opened Bytes
  import opened UsbProtocol
  import opened JsonTunnel
  import opened UsbLinux
  import opened UsbAndroid
  import JsonStream

  /** What the Android threads can change. */
  datatype AndroidEnd = AndroidEnd(
    writing: Option<seq<Byte>>, readerRuns: bool, writerRuns: bool, wire: seq<seq<Byte>>,
    unread: seq<Byte>, written: seq<Byte>)

  /** The direction to Android is the run `t` of the tunnel. */
  ghost predicate DownTied(t: Tunnel, l: LinuxEnd, a: AndroidEnd, input: seq<Byte>) {
    && Reachable(Down, t)
    && t.wire == l.outWire
    && t.written == a.written
    && (a.readerRuns ==> t.inHand == a.writing.UnwrapOr([]))
    && t.read <= input
    && (l.connected ==> t.read + l.unread == input)
  }

  /** The direction to Linux is the run `t` of the tunnel. */
  ghost predicate UpTied(t: Tunnel, l: LinuxEnd, a: AndroidEnd, input: seq<Byte>) {
    && Reachable(Up, t)
    && t.wire == l.inWire + a.wire
    && t.written == l.written
    && (l.connected ==> t.inHand == l.writing.UnwrapOr([]))
    && t.read <= input
    && (a.writerRuns ==> t.read + a.unread == input)
  }

  /** What every transfer on the way to Linux looks like. */
  lemma UpSound(t: Tunnel, l: LinuxEnd, a: AndroidEnd, input: seq<Byte>)
    requires UpTied(t, l, a, input)
    ensures forall i :: 0 <= i < |l.inWire| ==> Sound(Up, l.inWire[i])
    ensures l.written <= input
  {
    ReachableTransparent(Up, t);
    forall i | 0 <= i < |l.inWire| ensures Sound(Up, l.inWire[i]) {
      assert t.wire[i] == l.inWire[i];
    }
  }

  lemma DownSound(t: Tunnel, l: LinuxEnd, a: AndroidEnd, input: seq<Byte>)
    requires DownTied(t, l, a, input)
    ensures forall i :: 0 <= i < |l.outWire| ==> Sound(Down, l.outWire[i])
    ensures a.written <= input
  {
    ReachableTransparent(Down, t);
  }

  /** A JSON round of the Linux thread is a `Receive` or a part of its `WriteFar` steps, and then at most a `ReadNear`. */
  lemma LinuxJsonUp(t: Tunnel, l: LinuxEnd, after: LinuxEnd, a: AndroidEnd, input: seq<Byte>, piece: seq<Byte>,
                    rest: seq<Byte>)
    returns (u: Tunnel)
    requires UpTied(t, l, a, input) && l.connected
    requires l.inWire != [] ==> USB_HEADER_SIZE <= |l.inWire[0]|
    requires JsonRound(l, after, piece, rest)
    ensures UpTied(u, after, a, input)
  {
    hide Reachable, JsonIn, Wrap;
    u := t;
    if l.writing.Some? {
      FarWrites(Up, t, rest, after.written);
      u := t.(inHand := rest, written := after.written);
    } else if l.inWire != [] {
      ReachableTransparent(Up, t);
      assert t.wire[0] == l.inWire[0] && t.wire[1..] == l.inWire[1..] + a.wire;
      FarRound(Up, t, rest, after.written);
      u := t.(wire := t.wire[1..], inHand := rest, written := after.written);
    }
  }

  lemma LinuxJsonDown(t: Tunnel, l: LinuxEnd, after: LinuxEnd, a: AndroidEnd, input: seq<Byte>, piece: seq<Byte>,
                      rest: seq<Byte>)
    returns (u: Tunnel)
    requires DownTied(t, l, a, input) && l.connected
    requires l.inWire != [] ==> USB_HEADER_SIZE <= |l.inWire[0]|
    requires JsonRound(l, after, piece, rest)
    ensures DownTied(u, after, a, input)
  {
    hide Reachable, JsonIn, Wrap, Handed;
    u := t;
    if l.writing.Some? || l.inWire != [] {
      ConcatAssociative(t.read, piece, after.unread);
      if after.connected && piece != [] {
        NearRound(Down, t, Json, piece);
        u := t.(read := t.read + piece, wire := after.outWire);
      } else {
        assert l.outWire + [] == l.outWire;
        assert after.connected ==> after.unread == l.unread;
      }
    }
  }

  /** An audio packet is a `SendOther`. */
  lemma LinuxAudioDown(t: Tunnel, l: LinuxEnd, after: LinuxEnd, a: AndroidEnd, input: seq<Byte>, payload: seq<Byte>)
    returns (u: Tunnel)
    requires DownTied(t, l, a, input) && |payload| <= MaxDataSize(Down)
    requires after == l.(connected := after.connected, outWire := after.outWire) && (after.connected ==> l.connected)
    requires after.outWire == l.outWire + if after.connected then [Wrap(Down, Audio, payload)] else []
    ensures DownTied(u, after, a, input)
  {
    hide Reachable, Wrap;
    u := t;
    if after.connected {
      NearRound(Down, t, Audio, payload);
      assert t.read + [] == t.read;
      u := t.(wire := after.outWire);
    } else {
      assert l.outWire + [] == l.outWire;
    }
  }

  lemma LinuxIdleUp(t: Tunnel, l: LinuxEnd, after: LinuxEnd, a: AndroidEnd, input: seq<Byte>)
    requires UpTied(t, l, a, input)
    requires after == l.(connected := after.connected, outWire := after.outWire) && (after.connected ==> l.connected)
    ensures UpTied(t, after, a, input)
  {
  }

  /** A round of the reading thread is a `Receive` and a part of its `WriteFar` steps. */
  lemma AndroidReadDown(t: Tunnel, l: LinuxEnd, after: LinuxEnd, a: AndroidEnd, b: AndroidEnd, input: seq<Byte>,
                        rest: seq<Byte>)
    returns (u: Tunnel)
    requires DownTied(t, l, a, input) && a.readerRuns
    requires a.writing.Some? ==> after == l && Handed(a.written, a.writing.value, b.written, rest)
    requires a.writing.None? ==>
               && l.outWire != []
               && USB_HEADER_SIZE <= |l.outWire[0]|
               && after == l.(outWire := l.outWire[1..])
               && Handed(a.written, JsonIn(Down, l.outWire[0]).UnwrapOr([]), b.written, rest)
    requires b.readerRuns ==> b.writing.UnwrapOr([]) == rest
    ensures DownTied(u, after, b, input)
  {
    hide Reachable, JsonIn;
    if a.writing.Some? {
      FarWrites(Down, t, rest, b.written);
      u := t.(inHand := rest, written := b.written);
    } else {
      ReachableTransparent(Down, t);
      FarRound(Down, t, rest, b.written);
      u := t.(wire := t.wire[1..], inHand := rest, written := b.written);
    }
  }

  lemma AndroidReadUp(t: Tunnel, l: LinuxEnd, after: LinuxEnd, a: AndroidEnd, b: AndroidEnd, input: seq<Byte>)
    requires UpTied(t, l, a, input)
    requires after == l.(outWire := after.outWire)
    requires b == a.(writing := b.writing, readerRuns := b.readerRuns, written := b.written)
    ensures UpTied(t, after, b, input)
  {
  }

  /** A round of the writing thread is a `ReadNear` or a `SendOther`. */
  lemma AndroidWriteUp(t: Tunnel, l: LinuxEnd, a: AndroidEnd, b: AndroidEnd, input: seq<Byte>, piece: seq<Byte>, sent: bool)
    returns (u: Tunnel)
    requires UpTied(t, l, a, input) && a.writerRuns && |piece| <= MaxDataSize(Up)
    requires a.unread == piece + b.unread && (b.writerRuns ==> sent)
    requires b.wire == a.wire + if sent then [if piece == [] then Wrap(Up, Empty, []) else Wrap(Up, Json, piece)] else []
    ensures UpTied(u, l, b, input)
  {
    hide Reachable, Wrap;
    u := t;
    ConcatAssociative(t.read, piece, b.unread);
    if sent {
      var kind := if piece == [] then Empty else Json;
      NearRound(Up, t, kind, piece);
      u := t.(read := t.read + piece, wire := t.wire + [Wrap(Up, kind, piece)]);
      assert t.read + [] == t.read;
      ConcatAssociative(l.inWire, a.wire, [Wrap(Up, kind, piece)]);
    } else {
      assert a.wire + [] == a.wire;
    }
  }

  lemma AndroidWriteDown(t: Tunnel, l: LinuxEnd, a: AndroidEnd, b: AndroidEnd, input: seq<Byte>)
    requires DownTied(t, l, a, input)
    requires b == a.(writerRuns := b.writerRuns, wire := b.wire, unread := b.unread)
    ensures DownTied(t, l, b, input)
  {
  }

  lemma CarriedUp(t: Tunnel, l: LinuxEnd, a: AndroidEnd, input: seq<Byte>)
    requires UpTied(t, l, a, input) && a.wire != []
    ensures UpTied(t, l.(inWire := l.inWire + [a.wire[0]]), a.(wire := a.wire[1..]), input)
  {
    assert a.wire == [a.wire[0]] + a.wire[1..];
    ConcatAssociative(l.inWire, [a.wire[0]], a.wire[1..]);
  }

  // ----- The audio packets -----

  function AudioIn(transfer: seq<Byte>): Option<seq<Byte>> {
    match DecodeRead(transfer)
    case Received(OutAudioData, data) => Some(data)
    case _ => None
  }

  /** The audio packets on the wire. */
  function AudioOn(wire: seq<seq<Byte>>): seq<seq<Byte>> {
    FilterMap(wire, AudioIn)
  }

  /**
   The packets transferred are the first ones of the recorder, `read` of them have
   been read, and the channel to the player has those since it was attached.
   */
  ghost predicate AudioTied(fromRecorder: seq<seq<Byte>>, queue: seq<seq<Byte>>, connected: bool, sent: seq<seq<Byte>>,
                            wire: seq<seq<Byte>>, read: nat, attachedAt: nat, channel: Option<seq<seq<Byte>>>) {
    && sent <= fromRecorder
    && (connected ==> sent + queue == fromRecorder)
    && read <= |sent|
    && AudioOn(wire) == sent[read..]
    && (channel.Some? ==> attachedAt <= read && channel.value == sent[attachedAt..read])
  }

  lemma JsonHasNoAudio(piece: seq<Byte>)
    requires |piece| <= MaxDataSize(Down)
    ensures AudioIn(Wrap(Down, Json, piece)) == None
  {
    OutRoundTrip(OutJsonStream, piece);
  }

  lemma AudioIsRead(payload: seq<Byte>)
    requires |payload| <= MaxDataSize(Down)
    ensures AudioIn(Wrap(Down, Audio, payload)) == Some(payload)
  {
    OutRoundTrip(OutAudioData, payload);
  }

  lemma AudioSnoc(wire: seq<seq<Byte>>, transfer: seq<Byte>)
    ensures AudioOn(wire + [transfer]) == AudioOn(wire) + if AudioIn(transfer).Some? then [AudioIn(transfer).value] else []
  {
    FilterMapConcat(wire, [transfer], AudioIn);
    FilterMapOne(transfer, AudioIn);
  }

  /** A JSON round sends no audio. */
  lemma JsonKeepsAudio(fromRecorder: seq<seq<Byte>>, queue: seq<seq<Byte>>, sent: seq<seq<Byte>>, read: nat,
                       attachedAt: nat, channel: Option<seq<seq<Byte>>>, l: LinuxEnd, after: LinuxEnd, piece: seq<Byte>,
                       rest: seq<Byte>)
    requires AudioTied(fromRecorder, queue, l.connected, sent, l.outWire, read, attachedAt, channel) && l.connected
    requires l.inWire != [] ==> USB_HEADER_SIZE <= |l.inWire[0]|
    requires JsonRound(l, after, piece, rest)
    ensures AudioTied(fromRecorder, queue, after.connected, sent, after.outWire, read, attachedAt, channel)
  {
    hide AudioIn, FilterMap, Wrap, JsonIn, Handed;
    assert l.outWire + [] == l.outWire;
    if (l.writing.Some? || l.inWire != []) && after.connected && piece != [] {
      JsonHasNoAudio(piece);
      AudioSnoc(l.outWire, Wrap(Down, Json, piece));
      assert AudioOn(l.outWire) + [] == AudioOn(l.outWire);
    }
  }

  /** The oldest packet of the recorder is transferred, or the connection is lost. */
  lemma AudioSent(fromRecorder: seq<seq<Byte>>, queue: seq<seq<Byte>>, sent: seq<seq<Byte>>, wire: seq<seq<Byte>>,
                  read: nat, attachedAt: nat, channel: Option<seq<seq<Byte>>>)
    requires AudioTied(fromRecorder, queue, true, sent, wire, read, attachedAt, channel)
    requires queue != [] && |queue[0]| <= MaxDataSize(Down)
    ensures AudioTied(fromRecorder, queue[1..], true, sent + [queue[0]], wire + [Wrap(Down, Audio, queue[0])], read,
                      attachedAt, channel)
    ensures AudioTied(fromRecorder, queue[1..], false, sent, wire, read, attachedAt, channel)
  {
    hide AudioIn, AudioOn, Wrap;
    AudioIsRead(queue[0]);
    AudioSnoc(wire, Wrap(Down, Audio, queue[0]));
    assert sent + queue == (sent + [queue[0]]) + queue[1..];
  }

  lemma AudioCons(wire: seq<seq<Byte>>)
    requires wire != []
    ensures AudioOn(wire) == (if AudioIn(wire[0]).Some? then [AudioIn(wire[0]).value] else []) + AudioOn(wire[1..])
  {
    hide AudioIn, FilterMap;
    assert wire == [wire[0]] + wire[1..];
    FilterMapConcat([wire[0]], wire[1..], AudioIn);
    FilterMapOne(wire[0], AudioIn);
  }

  /** What the channel has after a transfer. */
  lemma ForwardIs(channel: Option<seq<seq<Byte>>>, turn: ReaderTurn)
    requires turn.transfer.Some? && Transferred(turn)
    ensures var current, audio := if turn.attach then Some([]) else channel, AudioIn(turn.transfer.value);
            Forward(channel, turn) == if current.None? || audio.None? then current
                                      else if turn.audioTaken then Some(current.value + [audio.value]) else None
  {
    hide DecodeRead;
  }

  lemma TakeFirst<T>(sent: seq<T>, from: nat, read: nat, first: seq<T>, rest: seq<T>)
    requires from <= read <= |sent| && sent[read..] == first + rest && |first| <= 1
    ensures read + |first| <= |sent| && rest == sent[read + |first|..]
    ensures sent[from..read] + first == sent[from..read + |first|] && sent[read..read] == []
  {
    if |first| == 1 {
      assert sent[read] == first[0];
      assert sent[read..][1..] == sent[read + 1..];
    } else {
      assert first + rest == rest;
    }
  }

  /** One transfer is read; its audio goes to the channel if there is one. */
  lemma AudioTaken(fromRecorder: seq<seq<Byte>>, queue: seq<seq<Byte>>, connected: bool, sent: seq<seq<Byte>>,
                   wire: seq<seq<Byte>>, read: nat, attachedAt: nat, channel: Option<seq<seq<Byte>>>, turn: ReaderTurn)
    requires AudioTied(fromRecorder, queue, connected, sent, wire, read, attachedAt, channel)
    requires wire != [] && turn.transfer == Some(wire[0]) && Transferred(turn)
    ensures AudioTied(fromRecorder, queue, connected, sent, wire[1..],
                      read + if AudioIn(wire[0]).Some? then 1 else 0,
                      if turn.attach then read else attachedAt, Forward(channel, turn))
  {
    hide AudioIn, AudioOn, Forward, Transferred;
    AudioCons(wire);
    ForwardIs(channel, turn);
    var first := if AudioIn(wire[0]).Some? then [AudioIn(wire[0]).value] else [];
    TakeFirst(sent, read, read, first, AudioOn(wire[1..]));
    if channel.Some? {
      TakeFirst(sent, attachedAt, read, first, AudioOn(wire[1..]));
    }
  }

  type AudioPayload = s: seq<Byte> | |s| <= USB_PACKET_MAX_DATA_SIZE witness []

  /** What happens next; a thread that has ended, or waits for something else, does nothing. */
  datatype Happening =
    | LinuxJson(writes: seq<WriteOutcome>, read: ReadOutcome, sent: bool)
    | LinuxAudio(transferred: bool)
    | AndroidReads(attach: bool, audioTaken: bool, more: seq<WriteOutcome>, quit: bool)
    | AndroidWrites(turn: WriterTurn)
    | Carry

  // ----- What each happening does -----

  /** The state of both ends: their threads, the packets of the recorder, and the channel to the player. */
  datatype Ends = Ends(
    linux: LinuxEnd, android: AndroidEnd, queue: seq<AudioPayload>, channel: Option<seq<seq<Byte>>>)

  ghost predicate JsonHappened(b: Ends, a: Ends, writes: seq<WriteOutcome>, read: ReadOutcome, sent: bool) {
    && (b.linux.inWire != [] ==> USB_HEADER_SIZE <= |b.linux.inWire[0]|)
    && Polled(b.linux, a.linux, writes, read, sent)
    && a == b.(linux := a.linux)
  }

  ghost predicate AudioHappened(b: Ends, a: Ends, transferred: bool)
    requires b.queue != []
  {
    && a == b.(linux := a.linux, queue := b.queue[1..])
    && a.linux == b.linux.(connected := transferred, outWire := a.linux.outWire)
    && a.linux.outWire == b.linux.outWire + if transferred then [Wrap(Down, Audio, b.queue[0])] else []
  }

  /** The reading thread goes on in its write loop only while the socket has not taken everything. */
  function ReaderAfter(b: AndroidEnd, r: ThreadResult, rest: seq<Byte>, written: seq<Byte>): AndroidEnd {
    b.(writing := if r == Blocked then Some(rest) else None, readerRuns := r == Blocked || r == Continue, written := written)
  }

  ghost predicate ResumeHappened(b: Ends, a: Ends, writes: seq<WriteOutcome>, quit: bool)
    requires b.android.writing.Some?
  {
    exists end, rest ::
      && Went(b.android.writing.value, writes, rest, end)
      && Handed(b.android.written, b.android.writing.value, a.android.written, rest)
      && a == b.(android := ReaderAfter(b.android, AfterLoop(end, quit), rest, a.android.written))
  }

  ghost predicate TransferTaken(b: Ends, a: Ends, turn: ReaderTurn, r: ThreadResult, rest: seq<Byte>)
    requires b.linux.outWire != []
  {
    && Transferred(turn)
    && ReaderWent(turn, r, rest)
    && Handed(b.android.written, JsonOfTurn(turn), a.android.written, rest)
    && a == Ends(b.linux.(outWire := b.linux.outWire[1..]), ReaderAfter(b.android, r, rest, a.android.written), b.queue,
                 Forward(b.channel, turn))
  }

  ghost predicate TakeHappened(b: Ends, a: Ends, turn: ReaderTurn)
    requires b.linux.outWire != []
  {
    exists r, rest :: TransferTaken(b, a, turn, r, rest)
  }

  ghost predicate PieceWritten(b: Ends, a: Ends, turn: WriterTurn, r: ThreadResult, piece: seq<Byte>) {
    && WriterWent(turn, r)
    && |piece| <= MaxDataSize(Up)
    && b.android.unread == piece + a.android.unread
    && (piece != [] <==> !turn.audio && turn.read.Available? && b.android.unread != [])
    && a == b.(android := b.android.(
                 unread := a.android.unread,
                 writerRuns := r == Continue,
                 wire := b.android.wire + if r == Continue || r == QuitSeen
                                          then [if piece == [] then Wrap(Up, Empty, []) else Wrap(Up, Json, piece)] else []))
  }

  ghost predicate WriteHappened(b: Ends, a: Ends, turn: WriterTurn) {
    exists r, piece :: PieceWritten(b, a, turn, r, piece)
  }

  function Carried(b: Ends): Ends
    requires b.android.wire != []
  {
    b.(linux := b.linux.(inWire := b.linux.inWire + [b.android.wire[0]]),
       android := b.android.(wire := b.android.wire[1..]))
  }

  /** A thread that has ended, waits, or is inside its write loop does not do anything else. */
  ghost predicate Happened(b: Ends, h: Happening, a: Ends) {
    match h
    case LinuxJson(writes, read, sent) => if b.linux.connected then JsonHappened(b, a, writes, read, sent) else a == b
    case LinuxAudio(transferred) =>
      if b.linux.connected && b.linux.writing.None? && b.queue != [] then AudioHappened(b, a, transferred) else a == b
    case AndroidReads(attach, audioTaken, writes, quit) =>
      if b.android.readerRuns && b.android.writing.Some? then ResumeHappened(b, a, writes, quit)
      else if b.android.readerRuns && b.linux.outWire != [] then
        TakeHappened(b, a, ReaderTurn(attach, Some(b.linux.outWire[0]), writes, audioTaken, quit))
      else a == b
    case AndroidWrites(turn) => if b.android.writerRuns then WriteHappened(b, a, turn) else a == b
    case Carry => if b.android.wire != [] then a == Carried(b) else a == b
  }

  class BothEnds {
    const logic: LibUsbLogic
    const connection: AccessoryConnection
    const reader: ReaderLogic
    const writer: WriterLogic
    /** What the reading thread has left to write while it is inside the write loop. */
    var readerWriting: Option<seq<Byte>>
    var readerRuns: bool
    var writerRuns: bool

    /** The audio packets that the Linux thread has not taken yet, up to the last one that will come. */
    var audioQueue: seq<AudioPayload>

    /** Everything that the local peers are going to write, and the recorder. */
    ghost const fromLinux: seq<Byte>
    ghost const fromAndroid: seq<Byte>
    ghost const fromRecorder: seq<AudioPayload>
    /** The audio packets transferred, how many of them were read, and from which on a player is attached. */
    ghost var audioSent: seq<AudioPayload>
    ghost var audioRead: nat
    ghost var attachedAt: nat
    ghost var down: Tunnel
    ghost var up: Tunnel

    ghost function Objects(): set<object> {
      LibUsbLogic.Objects(connection) +
      {logic, reader, reader.accessoryReader.buffer, reader.jsonStream, writer, writer.accessoryWriter.buffer}
    }

    ghost function Linux(): LinuxEnd
      reads logic, LibUsbLogic.Objects(connection)
    {
      logic.End(connection)
    }

    ghost function Android(): AndroidEnd
      reads `readerWriting, `readerRuns, `writerRuns, writer`wire, reader.jsonStream
    {
      AndroidEnd(readerWriting, readerRuns, writerRuns, writer.wire, reader.jsonStream.unread, reader.jsonStream.written)
    }

    ghost function Value(): Ends
      reads this, Objects()
    {
      Ends(Linux(), Android(), audioQueue, reader.audioSender)
    }

    /** The objects are whole and apart. */
    ghost predicate Linked()
      reads logic, connection.accessory`inWire, writer`wire
    {
      && (logic.mode == AccessoryConnected(connection) || logic.mode == Polling)
      && (logic.writing.Some? ==> logic.mode.AccessoryConnected? && logic.writing.value != [])
      && connection.Valid() && writer.Valid()
    }

    ghost predicate Apart() {
      reader.Valid() && writer.jsonStream == reader.jsonStream != connection.jsonStream
    }

    /** Both directions are runs of the tunnel. */
    ghost predicate Valid()
      reads this, Objects()
    {
      && Linked() && Apart()
      && (readerWriting.Some? ==> readerWriting.value != [])
      && DownTied(down, Linux(), Android(), fromLinux)
      && UpTied(up, Linux(), Android(), fromAndroid)
      && AudioTied(fromRecorder, audioQueue, Linux().connected, audioSent, connection.accessory.outWire, audioRead,
                   attachedAt, reader.audioSender)
    }

    constructor (logic: LibUsbLogic, connection: AccessoryConnection, reader: ReaderLogic, writer: WriterLogic,
                 audioQueue: seq<AudioPayload>)
      requires logic.Valid() && logic.mode == AccessoryConnected(connection) && logic.writing.None?
      requires reader.Valid() && writer.Valid()
      requires writer.jsonStream == reader.jsonStream != connection.jsonStream
      requires connection.accessory.inWire == connection.accessory.outWire == writer.wire == []
      requires connection.jsonStream.written == reader.jsonStream.written == [] && reader.audioSender.None?
      ensures Valid() && readerRuns && writerRuns
      ensures fromRecorder == this.audioQueue == audioQueue
      ensures this.logic == logic && this.connection == connection && this.reader == reader && this.writer == writer
      ensures fromLinux == connection.jsonStream.unread && fromAndroid == reader.jsonStream.unread
    {
      hide DownTied, UpTied, AudioTied;
      this.logic, this.connection, this.reader, this.writer := logic, connection, reader, writer;
      readerWriting, readerRuns, writerRuns := None, true, true;
      fromLinux, fromAndroid := connection.jsonStream.unread, reader.jsonStream.unread;
      down, up := START, START;
      this.audioQueue, fromRecorder, audioSent, audioRead, attachedAt := audioQueue, audioQueue, [], 0, 0;
      new;
      StartTied(Linux(), Android(), fromLinux, fromAndroid);
      StartAudio(fromRecorder);
    }

    /** A JSON round at the Linux end; no size field reaches past its packet. */
    method LinuxJsonRound(writes: seq<WriteOutcome>, read: ReadOutcome, sent: bool) returns (r: Round)
      requires Valid() && logic.mode.AccessoryConnected?
      modifies `down, `up, logic, LibUsbLogic.Objects(connection)
      ensures Valid() && r != Abort
      ensures JsonHappened(old(Value()), Value(), writes, read, sent)
    {
      hide DownTied, UpTied, AudioTied, JsonRound, Lasts, Polled, JsonIn, DecodeIn, Wrap, DecodeOut, DecodeData, Handed;
      ghost var l, a := Linux(), Android();
      UpSound(up, l, a, fromAndroid);
      ghost var piece, rest;
      r, piece, rest := logic.PollJson(connection, writes, read, sent);
      PolledBy(l, Linux(), piece, rest, writes, read, sent);
      ghost var nextUp := LinuxJsonUp(up, l, Linux(), a, fromAndroid, piece, rest);
      ghost var nextDown := LinuxJsonDown(down, l, Linux(), a, fromLinux, piece, rest);
      JsonKeepsAudio(fromRecorder, audioQueue, audioSent, audioRead, attachedAt, reader.audioSender, l, Linux(), piece,
                     rest);
      up, down := nextUp, nextDown;
    }

    lemma IsConnected()
      requires Linked() && logic.mode.AccessoryConnected?
      ensures Linux().connected && logic.mode == AccessoryConnected(connection) && logic.Valid()
    {
    }

    /** The Linux thread takes an audio packet from its channel. */
    method TransferAudio(payload: AudioPayload, transferred: bool)
      requires Linked() && logic.mode.AccessoryConnected? && logic.writing.None?
      modifies logic, LibUsbLogic.Objects(connection)
      ensures Linked()
      ensures Linux() == old(Linux()).(connected := transferred, outWire := Linux().outWire)
      ensures Linux().outWire == old(Linux().outWire) + if transferred then [Wrap(Down, Audio, payload)] else []
    {
      hide Encode, JsonRound, Wrap;
      var packet := QueuedAudio(payload);
      var _ := logic.Update(SendAudioData(packet, transferred));
    }

    /** The oldest audio packet of the recorder. */
    method LinuxAudioRound(transferred: bool)
      requires Valid() && logic.mode.AccessoryConnected? && logic.writing.None? && audioQueue != []
      modifies `down, `audioQueue, `audioSent, logic, LibUsbLogic.Objects(connection)
      ensures Valid()
      ensures AudioHappened(old(Value()), Value(), transferred)
    {
      hide DownTied, UpTied, AudioTied, Linked, Wrap;
      IsConnected();
      ghost var l, a := Linux(), Android();
      var payload := audioQueue[0];
      AudioSent(fromRecorder, audioQueue, audioSent, l.outWire, audioRead, attachedAt, reader.audioSender);
      audioQueue := audioQueue[1..];
      TransferAudio(payload, transferred);
      ghost var next := LinuxAudioDown(down, l, Linux(), a, fromLinux, payload);
      LinuxIdleUp(up, l, Linux(), a, fromAndroid);
      down := next;
      if transferred {
        audioSent := audioSent + [payload];
      } else {
        assert l.outWire + [] == l.outWire;
      }
    }

    /** The reading thread stays in its write loop, goes on, or ends. */
    method Settle(r: ThreadResult, rest: seq<Byte>, ghost l: LinuxEnd, ghost a: AndroidEnd)
      requires Linked() && Apart() && readerRuns
      requires r == Blocked ==> rest != []
      requires r == Continue ==> rest == []
      requires DownTied(down, l, a, fromLinux) && UpTied(up, l, a, fromAndroid) && a == Android().(written := a.written)
      requires AudioTied(fromRecorder, audioQueue, Linux().connected, audioSent, connection.accessory.outWire, audioRead,
                         attachedAt, reader.audioSender)
      requires a.writing.Some? ==> Linux() == l && Handed(a.written, a.writing.value, Android().written, rest)
      requires a.writing.None? ==>
                 && l.outWire != []
                 && USB_HEADER_SIZE <= |l.outWire[0]|
                 && Linux() == l.(outWire := l.outWire[1..])
                 && Handed(a.written, JsonIn(Down, l.outWire[0]).UnwrapOr([]), Android().written, rest)
      modifies `down, `readerWriting, `readerRuns
      ensures Valid()
      ensures Android() == ReaderAfter(old(Android()), r, rest, old(Android()).written)
    {
      hide DownTied, UpTied, AudioTied, JsonIn, Handed, Linked;
      readerWriting := if r == Blocked then Some(rest) else None;
      readerRuns := r == Blocked || r == Continue;
      ghost var next := AndroidReadDown(down, l, Linux(), a, Android(), fromLinux, rest);
      AndroidReadUp(up, l, Linux(), a, Android(), fromAndroid);
      down := next;
    }

    /** The reading thread goes on with its write loop. */
    method AndroidResume(writes: seq<WriteOutcome>, quit: bool) returns (r: ThreadResult)
      requires Valid() && readerRuns && readerWriting.Some?
      modifies `down, `readerWriting, `readerRuns, reader.jsonStream`written
      ensures Valid()
      ensures r != UsbFailure && r != Aborted
      ensures r == JsonTcpDisconnected ==> PeerClosed in writes
      ensures ResumeHappened(old(Value()), Value(), writes, quit)
    {
      hide DownTied, UpTied, AudioTied, Handed, Linked;
      ghost var l, a := Linux(), Android();
      var loop, rest := reader.WriteJson(readerWriting.value, writes);
      r := AfterLoop(loop, quit);
      Settle(r, rest, l, a);
    }

    /** The reading thread takes one transfer that it can decode. */
    method TakeTransfer(turn: ReaderTurn) returns (r: ThreadResult, rest: seq<Byte>)
      requires Linked() && Apart() && connection.accessory.outWire != []
      requires turn.transfer == Some(connection.accessory.outWire[0]) && Sound(Down, connection.accessory.outWire[0])
      requires Transferred(turn) && USB_HEADER_SIZE <= |connection.accessory.outWire[0]|
      modifies connection.accessory`outWire, reader`audioSender, reader.accessoryReader.buffer, reader.jsonStream`written
      ensures Linked()
      ensures Linux() == old(Linux()).(outWire := old(connection.accessory.outWire)[1..])
      ensures Android() == old(Android()).(written := reader.jsonStream.written)
      ensures reader.audioSender == Forward(old(reader.audioSender), turn)
      ensures Handed(old(reader.jsonStream.written), JsonIn(Down, old(connection.accessory.outWire)[0]).UnwrapOr([]),
                     reader.jsonStream.written, rest)
      ensures r != UsbFailure && r != Aborted
      ensures r == JsonTcpDisconnected ==> PeerClosed in turn.writes
      ensures r == Blocked ==> rest != []
      ensures r == Continue ==> rest == []
      ensures ReaderWent(turn, r, rest)
      ensures JsonOfTurn(turn) == JsonIn(Down, turn.transfer.value).UnwrapOr([])
    {
      hide DecodeOut, DecodeRead, JsonIn, JsonOfTurn, Sound, Forward, Handed, Transferred, ReaderWent;
      SoundTurn(turn);
      r, rest := reader.TakeTurn(turn);
      connection.accessory.outWire := connection.accessory.outWire[1..];
    }

    /** The transfer is taken, and both directions stay runs of the tunnel. */
    method TakeNext(turn: ReaderTurn) returns (r: ThreadResult, rest: seq<Byte>)
      requires Valid() && readerRuns && readerWriting.None? && connection.accessory.outWire != []
      requires turn.transfer == Some(connection.accessory.outWire[0])
      modifies `down, `readerWriting, `readerRuns, `audioRead, `attachedAt, connection.accessory`outWire,
               reader`audioSender, reader.accessoryReader.buffer, reader.jsonStream`written
      ensures Valid()
      ensures r != UsbFailure && r != Aborted
      ensures r == JsonTcpDisconnected ==> PeerClosed in turn.writes
      ensures Transferred(turn) && ReaderWent(turn, r, rest)
      ensures Handed(old(Android()).written, JsonOfTurn(turn), Android().written, rest)
      ensures Linux() == old(Linux()).(outWire := old(Linux()).outWire[1..])
      ensures Android() == ReaderAfter(old(Android()), r, rest, Android().written)
      ensures reader.audioSender == Forward(old(reader.audioSender), turn)
    {
      hide DownTied, UpTied, AudioTied, JsonIn, Sound, Forward, Handed, Transferred, Linked, ReaderWent, JsonOfTurn, AudioIn,
           DecodeRead, DecodeOut, DecodeData;
      ghost var l, a := Linux(), Android();
      DownSound(down, l, a, fromLinux);
      SoundTurn(turn);
      AudioTaken(fromRecorder, audioQueue, l.connected, audioSent, l.outWire, audioRead, attachedAt, reader.audioSender,
                 turn);
      attachedAt := if turn.attach then audioRead else attachedAt;
      audioRead := audioRead + if AudioIn(l.outWire[0]).Some? then 1 else 0;
      r, rest := TakeTransfer(turn);
      Settle(r, rest, l, a);
    }

    /**
     The reading thread takes the next transfer; it never meets one that it cannot
     decode, nor takes an open socket for a closed one.
     */
    method AndroidTake(attach: bool, audioTaken: bool, writes: seq<WriteOutcome>, quit: bool) returns (r: ThreadResult)
      requires Valid() && readerRuns && readerWriting.None? && connection.accessory.outWire != []
      modifies `down, `readerWriting, `readerRuns, `audioRead, `attachedAt, connection.accessory`outWire,
               reader`audioSender, reader.accessoryReader.buffer, reader.jsonStream`written
      ensures Valid()
      ensures r != UsbFailure && r != Aborted
      ensures r == JsonTcpDisconnected ==> PeerClosed in writes
      ensures TakeHappened(old(Value()), Value(),
                           ReaderTurn(attach, Some(old(connection.accessory.outWire)[0]), writes, audioTaken, quit))
    {
      hide Valid, Forward, Handed, Transferred, ReaderWent, JsonOfTurn;
      var turn := ReaderTurn(attach, Some(connection.accessory.outWire[0]), writes, audioTaken, quit);
      var rest;
      r, rest := TakeNext(turn);
      assert TransferTaken(old(Value()), Value(), turn, r, rest);
    }

    /** A round of the writing thread. */
    method AndroidWriteRound(turn: WriterTurn) returns (r: ThreadResult)
      requires Valid() && writerRuns
      modifies `up, `writerRuns, writer, writer.accessoryWriter.buffer, reader.jsonStream
      ensures Valid()
      ensures WriteHappened(old(Value()), Value(), turn)
    {
      hide DownTied, UpTied, AudioTied, Wrap;
      ghost var l, a, piece := Linux(), Android(), [];
      r, piece := writer.TakeTurn(turn);
      writerRuns := r == Continue;
      ghost var next := AndroidWriteUp(up, l, a, Android(), fromAndroid, piece, r == Continue || r == QuitSeen);
      AndroidWriteDown(down, l, a, Android(), fromLinux);
      up := next;
      assert PieceWritten(old(Value()), Value(), turn, r, piece);
    }

    /** The oldest transfer from the device arrives. */
    method CarryOne()
      requires Valid() && writer.wire != []
      modifies writer`wire, connection.accessory`inWire
      ensures Valid()
      ensures Value() == Carried(old(Value()))
    {
      hide DownTied, UpTied, AudioTied;
      CarriedUp(up, Linux(), Android(), fromAndroid);
      CarriedDown(down, Linux(), Android(), fromLinux);
      connection.accessory.inWire := connection.accessory.inWire + [writer.wire[0]];
      writer.wire := writer.wire[1..];
    }

    /**
     In every interleaving of the three threads, with partial writes and failures
     anywhere, each local socket has been written a prefix of what the peer of the
     other one sends, and the player has been given the packets of the recorder from
     one of them on, each once and in order.
     */
    method Run(happenings: seq<Happening>) returns (ghost states: seq<Ends>)
      requires Valid()
      modifies this, Objects()
      ensures Valid()
      ensures |states| == |happenings| + 1 && states[0] == old(Value()) && states[|happenings|] == Value()
      ensures forall i :: 0 <= i < |happenings| ==> Happened(states[i], happenings[i], states[i + 1])
      ensures reader.jsonStream.written <= fromLinux && connection.jsonStream.written <= fromAndroid
      ensures reader.audioSender.Some? ==>
                attachedAt <= |fromRecorder| && reader.audioSender.value <= fromRecorder[attachedAt..]
    {
      hide DownTied, UpTied, AudioTied, Happened;
      states := [Value()];
      for i := 0 to |happenings|
        invariant Valid()
        invariant |states| == i + 1 && states[0] == old(Value()) && states[i] == Value()
        invariant forall k :: 0 <= k < i ==> Happened(states[k], happenings[k], states[k + 1])
      {
        Happen(happenings[i]);
        states := states + [Value()];
      }
      DownSound(down, Linux(), Android(), fromLinux);
      UpSound(up, Linux(), Android(), fromAndroid);
      AudioGiven();
    }

    method Happen(happening: Happening)
      requires Valid()
      modifies this, Objects()
      ensures Valid() && Happened(old(Value()), happening, Value())
    {
      hide DownTied, UpTied, AudioTied, JsonHappened, AudioHappened, ResumeHappened, TakeHappened, WriteHappened, Carried;
      match happening {
        case LinuxJson(writes, read, sent) =>
          if logic.mode.AccessoryConnected? {
            var _ := LinuxJsonRound(writes, read, sent);
          }
        case LinuxAudio(transferred) =>
          if logic.mode.AccessoryConnected? && logic.writing.None? && audioQueue != [] {
            LinuxAudioRound(transferred);
          }
        case AndroidReads(attach, audioTaken, writes, quit) =>
          if readerRuns && readerWriting.Some? {
            var _ := AndroidResume(writes, quit);
          } else if readerRuns && connection.accessory.outWire != [] {
            var _ := AndroidTake(attach, audioTaken, writes, quit);
          }
        case AndroidWrites(turn) =>
          if writerRuns {
            var _ := AndroidWriteRound(turn);
          }
        case Carry =>
          if writer.wire != [] {
            CarryOne();
          }
      }
    }

    /** What the channel to the player holds is a part of what the recorder hands over. */
    lemma AudioGiven()
      requires Valid()
      ensures reader.audioSender.Some? ==>
                attachedAt <= |fromRecorder| && reader.audioSender.value <= fromRecorder[attachedAt..]
    {
      hide DownTied, UpTied, AudioOn;
    }

    /** While both ends run, whatever is not on its way any more has arrived. */
    lemma Drained()
      requires Valid() && Linux().connected && connection.accessory.outWire == []
      ensures readerRuns && readerWriting.None? && connection.jsonStream.unread == [] ==>
                reader.jsonStream.written == fromLinux
      ensures reader.audioSender.Some? && audioQueue == [] ==>
                attachedAt <= |fromRecorder| && reader.audioSender.value == fromRecorder[attachedAt..]
      ensures writerRuns && connection.accessory.inWire == writer.wire == [] && logic.writing.None? &&
              reader.jsonStream.unread == [] ==>
                connection.jsonStream.written == fromAndroid
    {
      hide AudioOn;
      NothingOnWire();
      ReachableTransparent(Down, down);
      ReachableTransparent(Up, up);
      DrainedTunnel(down, Down);
      DrainedTunnel(up, Up);
    }

    /** Messages framed by the peer of one socket are decoded from the other one as a prefix, without an error. */
    lemma MessagesThrough<M(!new)>(serde: JsonStream.Serde<M>, messages: seq<M>, consumed: seq<Byte>)
      requires Valid() && serde.Inverse() && JsonStream.AllFramable(serde, messages)
      requires || (fromLinux <= JsonStream.Frames(serde, messages) && consumed <= reader.jsonStream.written)
               || (fromAndroid <= JsonStream.Frames(serde, messages) && consumed <= connection.jsonStream.written)
      ensures JsonStream.Parse(serde, consumed).events <= JsonStream.Events(messages)
      ensures !JsonStream.Parse(serde, consumed).reader.Stopped?
    {
      DownSound(down, Linux(), Android(), fromLinux);
      UpSound(up, Linux(), Android(), fromAndroid);
      hide DownTied, UpTied, AudioTied;
      JsonStream.PrefixRoundTrip(serde, messages, consumed);
    }
  }

  /** What the sending half of a USB data connection queues for a packet. */
  method QueuedAudio(payload: AudioPayload) returns (packet: UsbPacket)
    ensures fresh(packet) && fresh(packet.data) && packet.Valid()
    ensures packet.data[..][0 := OutAudioData.Code()] == Wrap(Down, Audio, payload)
  {
    AudioRoundTrip(payload);
    hide Encode;
    var channel := new UsbDataConnection();
    var queued := channel.SendPacket(payload);
    packet := channel.queue[|channel.queue| - 1];
  }

  lemma StartTied(l: LinuxEnd, a: AndroidEnd, fromLinux: seq<Byte>, fromAndroid: seq<Byte>)
    requires l.inWire == l.outWire == a.wire == [] && l.written == a.written == []
    requires l.writing == a.writing == None && l.unread == fromLinux && a.unread == fromAndroid
    ensures DownTied(START, l, a, fromLinux) && UpTied(START, l, a, fromAndroid)
  {
    ReachableStart(Down);
    ReachableStart(Up);
  }

  lemma NothingOnWire()
    ensures AudioOn([]) == []
  {
  }

  lemma DrainedTunnel(t: Tunnel, d: Direction)
    requires WellFormed(t) && Transparent(d, t)
    ensures t.wire == [] && t.inHand == [] ==> t.written == t.read
  {
    OnWireNone(d);
    assert t.written + [] == t.written;
  }

  lemma StartAudio(queue: seq<seq<Byte>>)
    ensures AudioTied(queue, queue, true, [], [], 0, 0, None)
  {
    assert [] + queue == queue;
  }

  lemma SoundTurn(turn: ReaderTurn)
    requires turn.transfer.Some? && Sound(Down, turn.transfer.value)
    ensures Transferred(turn) && |turn.transfer.value| >= USB_HEADER_SIZE
    ensures DecodeRead(turn.transfer.value).Received?
    ensures JsonOfTurn(turn) == JsonIn(Down, turn.transfer.value).UnwrapOr([])
    ensures forall data :: DecodeRead(turn.transfer.value) == Received(OutJsonStream, data) ==> data != []
  {
    hide DecodeOut;
  }

  lemma CarriedDown(t: Tunnel, l: LinuxEnd, a: AndroidEnd, input: seq<Byte>)
    requires DownTied(t, l, a, input) && a.wire != []
    ensures DownTied(t, l.(inWire := l.inWire + [a.wire[0]]), a.(wire := a.wire[1..]), input)
  {
  }
}
