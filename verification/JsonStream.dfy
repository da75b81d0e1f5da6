/**
 The JSON control stream: messages framed by a big-endian i32 length, read and
 written by one task that never loses a half-read message (`Connection` in
 src/utils.rs). The serializer is any pair of functions; where a result needs it,
 decoding is the inverse of encoding.
 */
module JsonStream {
  import opened Sequences
  import opened Bytes

  const I32_MAX: nat := 0x7FFF_FFFF

  datatype Serde<!M(!new)> = Serde(encode: M -> Option<seq<Byte>>, decode: seq<Byte> -> Option<M>) {
    ghost predicate Inverse() {
      forall m: M :: encode(m).Some? ==> decode(encode(m).value) == Some(m)
    }

    /** The message is serialized and its length fits the length field. */
    predicate Framable(m: M) {
      encode(m).Some? && |encode(m).value| <= I32_MAX
    }
  }

  datatype ReadError = ReadIo | Deserialize | NegativeSize(size: I32)

  datatype WriteError = WriteIo | Serialize | TooLong

  datatype ConnectionEvent<+M> =
    | ReadFailure(readError: ReadError)
    | WriteFailure(writeError: WriteError)
    | Message(message: M)

  // ----- Writing -----

  function Frame<M(!new)>(serde: Serde<M>, m: M): seq<Byte>
    requires serde.Framable(m)
  {
    var data := serde.encode(m).value;
    I32ToBe(|data|) + data
  }

  function Frames<M(!new)>(serde: Serde<M>, messages: seq<M>): seq<Byte>
    requires forall i :: 0 <= i < |messages| ==> serde.Framable(messages[i])
  {
    if messages == [] then [] else Frame(serde, messages[0]) + Frames(serde, messages[1..])
  }

  lemma {:induction false} FramesAppend<M(!new)>(serde: Serde<M>, messages: seq<M>, last: M)
    requires serde.Framable(last) && forall i :: 0 <= i < |messages| ==> serde.Framable(messages[i])
    ensures Frames(serde, messages + [last]) == Frames(serde, messages) + Frame(serde, last)
  {
    var longer := messages + [last];
    if messages == [] {
      assert longer == [last];
      assert Frames(serde, longer[1..]) == [];
    } else {
      assert longer[1..] == messages[1..] + [last];
      FramesAppend(serde, messages[1..], last);
      ConcatAssociative(Frame(serde, messages[0]), Frames(serde, messages[1..]), Frame(serde, last));
    }
  }

  lemma {:induction false} FramesPrefix<M(!new)>(serde: Serde<M>, messages: seq<M>, n: nat)
    requires n <= |messages| && forall i :: 0 <= i < |messages| ==> serde.Framable(messages[i])
    ensures Frames(serde, messages[..n]) <= Frames(serde, messages)
    decreases |messages| - n
  {
    if n == |messages| {
      assert messages[..n] == messages;
    } else {
      FramesPrefix(serde, messages, n + 1);
      FramesAppend(serde, messages[..n], messages[n]);
      assert messages[..n + 1] == messages[..n] + [messages[n]];
    }
  }

  // ----- Reading -----

  /** The state of the pinned reading future between two reads of the socket. */
  datatype Reader = Header(bytes: seq<Byte>) | Body(length: nat, buffer: seq<Byte>) | Stopped {
    predicate Valid() {
      match this
      case Header(bytes) => |bytes| < 4
      case Body(length, buffer) => |buffer| < length <= I32_MAX
      case Stopped => true
    }

    /** The most that the next read may take. */
    function Wanted(): nat
      requires Valid()
    {
      match this
      case Header(bytes) => 4 - |bytes|
      case Body(length, buffer) => length - |buffer|
      case Stopped => 0
    }
  }

  /** The reading future is replaced after each result; an error ends the task. */
  datatype Progress<+M> = Progress(reader: Reader, events: seq<ConnectionEvent<M>>)

  function Finish<M(!new)>(serde: Serde<M>, data: seq<Byte>): (p: Progress<M>)
    ensures p.reader.Valid()
  {
    match serde.decode(data)
    case Some(m) => Progress(Header([]), [Message(m)])
    case None => Progress(Stopped, [ReadFailure(Deserialize)])
  }

  /** One read returned `piece`. */
  function Advance<M(!new)>(serde: Serde<M>, reader: Reader, piece: seq<Byte>): (p: Progress<M>)
    requires reader.Valid() && |piece| <= reader.Wanted()
    ensures p.reader.Valid()
  {
    match reader
    case Header(bytes) =>
      var header := bytes + piece;
      if |header| < 4 then Progress(Header(header), [])
      else
        var length := I32FromBe(header);
        if length < 0 then Progress(Stopped, [ReadFailure(NegativeSize(length))])
        else if length == 0 then Finish(serde, [])
        else Progress(Body(length, []), [])
    case Body(length, buffer) =>
      var data := buffer + piece;
      if |data| < length then Progress(Body(length, data), []) else Finish(serde, data)
    case Stopped => Progress(Stopped, [])
  }

  /** What the bytes mean, whatever the reads were. */
  function Parse<M(!new)>(serde: Serde<M>, stream: seq<Byte>): (p: Progress<M>)
    ensures p.reader.Valid()
  {
    if |stream| < 4 then Progress(Header(stream), [])
    else
      var length, rest := I32FromBe(stream[..4]), stream[4..];
      if length < 0 then Progress(Stopped, [ReadFailure(NegativeSize(length))])
      else if |rest| < length then Progress(Body(length, rest), [])
      else
        var first := Finish(serde, rest[..length]);
        if first.reader.Stopped? then first
        else
          var others := Parse(serde, rest[length..]);
          Progress(others.reader, first.events + others.events)
  }

  /** Reading one more piece is parsing one more piece. */
  ghost predicate Appends<M(!new)>(serde: Serde<M>, stream: seq<Byte>, piece: seq<Byte>) {
    var before := Parse(serde, stream);
    !before.reader.Stopped? && |piece| <= before.reader.Wanted() ==>
      var after := Advance(serde, before.reader, piece);
      Parse(serde, stream + piece) == Progress(after.reader, before.events + after.events)
  }

  lemma {:induction false} ParseAppend<M(!new)>(serde: Serde<M>, stream: seq<Byte>, piece: seq<Byte>)
    ensures Appends(serde, stream, piece)
    decreases |stream|
  {
    hide *;
    if |stream| < 4 {
      ParseHeader(serde, stream, piece);
    } else {
      var length := I32FromBe(stream[..4]);
      if 0 <= length <= |stream| - 4 {
        ParseAppend(serde, stream[4 + length..], piece);
        ParseTail(serde, stream, piece);
      } else {
        ParseBody(serde, stream, piece);
      }
    }
  }

  lemma ParseTail<M(!new)>(serde: Serde<M>, stream: seq<Byte>, piece: seq<Byte>)
    requires |stream| >= 4 && 0 <= I32FromBe(stream[..4]) <= |stream| - 4
    requires Appends(serde, stream[4 + I32FromBe(stream[..4])..], piece)
    ensures Appends(serde, stream, piece)
  {
    hide Parse, Advance;
    var length := I32FromBe(stream[..4]);
    var tail := stream[4 + length..];
    assert (stream + piece)[..4] == stream[..4];
    assert (stream + piece)[4 + length..] == tail + piece;
    assert (stream + piece)[..4 + length] == stream[..4 + length];
    ParseBehind(serde, stream);
    ParseBehind(serde, stream + piece);
    var first, before := Finish(serde, stream[..4 + length][4..]), Parse(serde, tail);
    if !first.reader.Stopped? && !before.reader.Stopped? && |piece| <= before.reader.Wanted() {
      ConcatAssociative(first.events, before.events, Advance(serde, before.reader, piece).events);
    }
  }

  /** The first message and what comes behind it. */
  lemma ParseBehind<M(!new)>(serde: Serde<M>, stream: seq<Byte>)
    requires |stream| >= 4 && 0 <= I32FromBe(stream[..4]) <= |stream| - 4
    ensures var length := I32FromBe(stream[..4]);
            var first, others := Finish(serde, stream[..4 + length][4..]), Parse(serde, stream[4 + length..]);
            Parse(serde, stream) ==
            if first.reader.Stopped? then first else Progress(others.reader, first.events + others.events)
  {
    var length := I32FromBe(stream[..4]);
    assert stream[..4 + length][4..] == stream[4..][..length];
    assert stream[4 + length..] == stream[4..][length..];
  }

  lemma ParseHeader<M(!new)>(serde: Serde<M>, stream: seq<Byte>, piece: seq<Byte>)
    requires |stream| < 4
    ensures Appends(serde, stream, piece)
  {
    var header := stream + piece;
    if |header| == 4 {
      assert header[..4] == header && header[4..] == [];
      if I32FromBe(header) == 0 {
        assert header[4..][..0] == [] && header[4..][0..] == [];
        FinishThenNothing(serde, []);
      }
    }
  }

  lemma ParseBody<M(!new)>(serde: Serde<M>, stream: seq<Byte>, piece: seq<Byte>)
    requires |stream| >= 4 && !(0 <= I32FromBe(stream[..4]) <= |stream| - 4)
    ensures Appends(serde, stream, piece)
  {
    var length, data := I32FromBe(stream[..4]), stream[4..] + piece;
    assert (stream + piece)[..4] == stream[..4] && (stream + piece)[4..] == data;
    if |data| == length {
      assert data[..length] == data && data[length..] == [];
      FinishThenNothing(serde, data);
    }
  }

  lemma AdvanceStops<M(!new)>(serde: Serde<M>, reader: Reader, piece: seq<Byte>)
    requires reader.Valid() && |piece| <= reader.Wanted()
    ensures Advance(serde, reader, piece).reader.Stopped? && !reader.Stopped? ==>
              Advance(serde, reader, piece).events != []
  {
  }

  lemma {:induction false} StoppedOnFailure<M(!new)>(serde: Serde<M>, stream: seq<Byte>)
    ensures var p := Parse(serde, stream);
            && (p.reader.Stopped? ==> p.events != [] && p.events[|p.events| - 1].ReadFailure? &&
                                      !p.events[|p.events| - 1].readError.ReadIo?)
            && (!p.reader.Stopped? ==> forall e :: e in p.events ==> e.Message?)
  {
    if |stream| >= 4 {
      var length, rest := I32FromBe(stream[..4]), stream[4..];
      if 0 <= length <= |rest| {
        StoppedOnFailure(serde, rest[length..]);
      }
    }
  }

  lemma FinishThenNothing<M(!new)>(serde: Serde<M>, data: seq<Byte>)
    ensures var first := Finish(serde, data);
            !first.reader.Stopped? ==> Progress(Parse(serde, []).reader, first.events + Parse(serde, []).events) == first
  {
    var first := Finish(serde, data);
    assert first.events + [] == first.events;
  }

  /** More bytes only add events, and after an error nothing is added. */
  lemma {:induction false} ParseMonotonic<M(!new)>(serde: Serde<M>, stream: seq<Byte>, more: seq<Byte>)
    ensures Parse(serde, stream).events <= Parse(serde, stream + more).events
    ensures Parse(serde, stream).reader.Stopped? ==> Parse(serde, stream + more) == Parse(serde, stream)
  {
    var longer := stream + more;
    if |stream| >= 4 {
      var length, rest := I32FromBe(stream[..4]), stream[4..];
      assert longer[..4] == stream[..4] && longer[4..] == rest + more;
      if 0 <= length <= |rest| {
        assert (rest + more)[..length] == rest[..length] && (rest + more)[length..] == rest[length..] + more;
        ParseMonotonic(serde, rest[length..], more);
      }
    }
  }

  function Events<M(!new)>(messages: seq<M>): (events: seq<ConnectionEvent<M>>)
    ensures |events| == |messages|
  {
    seq(|messages|, i requires 0 <= i < |messages| => Message(messages[i]))
  }

  /** Every sequence of messages is read back as it was written. */
  lemma {:induction false} RoundTrip<M(!new)>(serde: Serde<M>, messages: seq<M>)
    requires serde.Inverse()
    requires forall i :: 0 <= i < |messages| ==> serde.Framable(messages[i])
    ensures Parse(serde, Frames(serde, messages)) == Progress(Header([]), Events(messages))
  {
    if messages != [] {
      var first, others := messages[0], messages[1..];
      RoundTrip(serde, others);
      ParseFrame(serde, first, Frames(serde, others));
      assert [Message(first)] + Events(others) == Events(messages);
    }
  }

  lemma ParseFrame<M(!new)>(serde: Serde<M>, m: M, rest: seq<Byte>)
    requires serde.Inverse() && serde.Framable(m)
    ensures var others := Parse(serde, rest);
            Parse(serde, Frame(serde, m) + rest) == Progress(others.reader, [Message(m)] + others.events)
  {
    var data := serde.encode(m).value;
    var stream := Frame(serde, m) + rest;
    assert stream[..4] == I32ToBe(|data|);
    assert stream[4..] == data + rest;
    assert (data + rest)[..|data|] == data && (data + rest)[|data|..] == rest;
  }

  /**
   After any sequence of messages a negative length, or a body that is not a message,
   is the last thing read: it is reported with its cause, and nothing behind it is read.
   */
  lemma {:induction false} MalformedStops<M(!new)>(serde: Serde<M>, messages: seq<M>, bad: seq<Byte>)
    requires serde.Inverse() && |bad| >= 4
    requires forall i :: 0 <= i < |messages| ==> serde.Framable(messages[i])
    ensures var length, parsed := I32FromBe(bad[..4]), Parse(serde, Frames(serde, messages) + bad);
            && (length < 0 ==> parsed == Progress(Stopped, Events(messages) + [ReadFailure(NegativeSize(length))]))
            && (0 <= length <= |bad| - 4 && serde.decode(bad[4..4 + length]).None? ==>
                  parsed == Progress(Stopped, Events(messages) + [ReadFailure(Deserialize)]))
  {
    hide Parse, Frame, Serde.Framable, Serde.Inverse;
    if messages == [] {
      assert Frames(serde, messages) + bad == bad;
      MalformedFirst(serde, bad);
    } else {
      var first, others := messages[0], messages[1..];
      MalformedStops(serde, others, bad);
      ConcatAssociative(Frame(serde, first), Frames(serde, others), bad);
      ParseFrame(serde, first, Frames(serde, others) + bad);
      EventsFirst(messages, Parse(serde, Frames(serde, others) + bad).events);
    }
  }

  lemma EventsFirst<M(!new)>(messages: seq<M>, events: seq<ConnectionEvent<M>>)
    requires messages != []
    ensures forall last :: events == Events(messages[1..]) + [last] ==>
              [Message(messages[0])] + events == Events(messages) + [last]
  {
    assert [Message(messages[0])] + Events(messages[1..]) == Events(messages);
  }

  lemma MalformedFirst<M(!new)>(serde: Serde<M>, bad: seq<Byte>)
    requires |bad| >= 4
    ensures var length, parsed := I32FromBe(bad[..4]), Parse(serde, bad);
            && (length < 0 ==> parsed == Progress(Stopped, [ReadFailure(NegativeSize(length))]))
            && (0 <= length <= |bad| - 4 && serde.decode(bad[4..4 + length]).None? ==>
                  parsed == Progress(Stopped, [ReadFailure(Deserialize)]))
  {
    var length := I32FromBe(bad[..4]);
    if 0 <= length <= |bad| - 4 {
      assert bad[4..][..length] == bad[4..4 + length];
    }
  }

  /** Any beginning of the stream decodes to a beginning of the messages, without an error. */
  lemma PrefixRoundTrip<M(!new)>(serde: Serde<M>, messages: seq<M>, stream: seq<Byte>)
    requires serde.Inverse()
    requires forall i :: 0 <= i < |messages| ==> serde.Framable(messages[i])
    requires stream <= Frames(serde, messages)
    ensures Parse(serde, stream).events <= Events(messages)
    ensures !Parse(serde, stream).reader.Stopped?
  {
    var whole := Frames(serde, messages);
    RoundTrip(serde, messages);
    assert whole == stream + whole[|stream|..];
    ParseMonotonic(serde, stream, whole[|stream|..]);
  }

  // ----- The connection task -----

  /** The answer to one write of a part of a frame. */
  datatype WriteOutcome = Wrote(max: nat) | WriteBroken

  /**
   What one turn of the task's loop finds ready. A reading turn lists the sizes of the
   reads that succeed. In `quitWins` the quit request comes before the channel takes
   what the turn sends, which is then lost.
   */
  datatype Turn<+M> =
    | Outgoing(message: M, quitWins: bool)
    | Readable(sizes: seq<nat>, quitWins: bool)
    | ReadBroken(quitWins: bool)
    | Writable(outcome: WriteOutcome, quitWins: bool)
    | Quit
  {
    /** A quit request or a broken socket ends the task whatever else has happened. */
    predicate MustEnd() {
      Quit? || ReadBroken? || (Outgoing? && quitWins)
    }

    predicate Reads() {
      Readable? && sizes != []
    }
  }

  function Outgoings<M>(script: seq<Turn<M>>): seq<M> {
    if script == [] then []
    else
      var last := script[|script| - 1];
      Outgoings(script[..|script| - 1]) + if last.Outgoing? then [last.message] else []
  }

  lemma OutgoingsTaken<M>(script: seq<Turn<M>>, i: nat)
    requires i < |script|
    ensures Outgoings(script[..i + 1]) ==
              Outgoings(script[..i]) + if script[i].Outgoing? then [script[i].message] else []
  {
    assert script[..i + 1][..i] == script[..i];
  }

  predicate AllFramable<M(!new)>(serde: Serde<M>, messages: seq<M>) {
    forall i :: 0 <= i < |messages| ==> serde.Framable(messages[i])
  }

  class Connection<M(!new)> {
    const serde: Serde<M>
    /** The bytes from the peer that have not been read; the stream ends after them. */
    var unread: seq<Byte>
    /** The pinned reading future. */
    var reader: Reader
    /** The events sent to the owner of the task. */
    var sentUp: seq<ConnectionEvent<M>>
    /** The channel to the writing future, what it has left of the frame it is in, and the bytes written to the peer. */
    var queue: seq<M>
    var unsent: seq<Byte>
    var written: seq<Byte>

    ghost var consumed: seq<Byte>
    /** The messages whose frames have been begun. */
    ghost var sent: seq<M>

    /** The events so far are the meaning of the bytes read so far. */
    ghost predicate Reading()
      reads `reader, `sentUp, `consumed
    {
      Parse(serde, consumed) == Progress(reader, sentUp)
    }

    /** The bytes written so far are the frames begun so far, up to the rest of the last one. */
    ghost predicate Writing()
      reads `written, `unsent, `sent
    {
      && AllFramable(serde, sent)
      && written + unsent == Frames(serde, sent)
      && (unsent != [] ==> sent != [] && |unsent| <= |Frame(serde, sent[|sent| - 1])|)
    }

    constructor (serde: Serde<M>, fromPeer: seq<Byte>)
      ensures this.serde == serde && unread == fromPeer
      ensures Running([]) && consumed == [] && sentUp == [] && written == []
    {
      this.serde, unread := serde, fromPeer;
      reader, sentUp, queue, unsent, written := Header([]), [], [], [], [];
      consumed, sent := [], [];
    }

    /** One read of at most `size` bytes; it makes progress, so at least one byte arrives. */
    method ReadPiece(size: nat) returns (done: bool)
      requires reader.Valid() && !reader.Stopped? && unread != []
      modifies `unread, `reader, `sentUp, `consumed
      ensures exists n: nat :: 0 < n <= old(reader.Wanted()) && n <= |old(unread)| &&
                var piece, after := old(unread)[..n], Advance(serde, old(reader), old(unread)[..n]);
                && unread == old(unread)[n..]
                && consumed == old(consumed) + piece
                && reader == after.reader
                && sentUp == old(sentUp) + after.events
                && done == (after.events != [])
    {
      var wanted := if reader.Header? then 4 - |reader.bytes| else reader.length - |reader.buffer|;
      var n := if size == 0 then 1 else size;
      n := if n < wanted then n else wanted;
      n := if n < |unread| then n else |unread|;
      var piece := unread[..n];
      unread := unread[n..];
      consumed := consumed + piece;
      ghost var events := sentUp;
      done := true;

      match reader {
        case Header(bytes) =>
          var header := bytes + piece;
          if |header| < 4 {
            reader := Header(header);
            done := false;
          } else {
            var length := I32FromBe(header);
            if length < 0 {
              reader := Stopped;
              sentUp := sentUp + [ReadFailure(NegativeSize(length))];
            } else if length == 0 {
              Complete([]);
            } else {
              reader := Body(length, []);
              done := false;
            }
          }
        case Body(length, buffer) =>
          var data := buffer + piece;
          if |data| < length {
            reader := Body(length, data);
            done := false;
          } else {
            Complete(data);
          }
      }
      assert sentUp == events + Advance(serde, old(reader), piece).events;
    }

    /** The future is done: its message is sent up and a new future takes its place. */
    method Complete(data: seq<Byte>)
      modifies `reader, `sentUp
      ensures reader == Finish(serde, data).reader
      ensures sentUp == old(sentUp) + Finish(serde, data).events
    {
      match serde.decode(data) {
        case Some(m) =>
          reader := Header([]);
          sentUp := sentUp + [Message(m)];
        case None =>
          reader := Stopped;
          sentUp := sentUp + [ReadFailure(Deserialize)];
      }
    }

    /**
     The reading future is polled until it waits or is done; `failed` when the stream
     has ended. Each read takes at least one byte, so a future that still waits has
     taken as many bytes as there were reads.
     */
    method ReadMessage(sizes: seq<nat>) returns (failed: bool)
      requires Reading() && !reader.Stopped?
      modifies `unread, `reader, `sentUp, `consumed
      ensures consumed + unread == old(consumed) + old(unread)
      ensures old(consumed) <= consumed && old(sentUp) <= sentUp
      ensures Reading()
      ensures failed ==> unread == [] && !reader.Stopped? && sentUp == old(sentUp)
      ensures !failed && sentUp == old(sentUp) ==> !reader.Stopped? && |consumed| >= |old(consumed)| + |sizes|
      ensures sizes != [] && unread == old(unread) ==> failed
    {
      hide Parse, Advance;
      var i := 0;
      while i < |sizes|
        invariant 0 <= i <= |sizes|
        invariant Reading() && !reader.Stopped? && sentUp == old(sentUp)
        invariant consumed + unread == old(consumed) + old(unread)
        invariant old(consumed) <= consumed && |consumed| >= |old(consumed)| + i
      {
        if unread == [] {
          return true;
        }
        ParseValid(serde, consumed);
        ghost var before, rest, waiting := consumed, unread, reader;
        var done := ReadPiece(sizes[i]);
        ghost var n := |consumed| - |before|;
        ConcatAssociative(before, rest[..n], rest[n..]);
        assert rest == rest[..n] + rest[n..];
        ParseAppend(serde, before, rest[..n]);
        AdvanceStops(serde, waiting, rest[..n]);
        if done {
          return false;
        }
        i := i + 1;
      }
      failed := false;
    }

    /** The writing future takes the next message; `failed` when there is no frame for it. */
    method BeginFrame() returns (failed: bool)
      requires unsent == [] && queue != [] && Writing()
      modifies `queue, `unsent, `sent, `sentUp
      ensures Writing() && queue == old(queue)[1..]
      ensures failed <==> !serde.Framable(old(queue)[0])
      ensures failed ==> sent == old(sent) && unsent == []
      ensures failed ==>
                sentUp == old(sentUp) + [WriteFailure(if serde.encode(old(queue)[0]).None? then Serialize else TooLong)]
      ensures !failed ==> sent == old(sent) + [old(queue)[0]] && unsent != [] && sentUp == old(sentUp)
    {
      hide Frames;
      failed := false;
      var message := queue[0];
      queue := queue[1..];
      match serde.encode(message) {
        case None =>
          sentUp := sentUp + [WriteFailure(Serialize)];
          return true;
        case Some(data) =>
          if |data| > I32_MAX {
            sentUp := sentUp + [WriteFailure(TooLong)];
            return true;
          }
          FramesAppend(serde, sent, message);
          assert written + [] == written;
          unsent := I32ToBe(|data|) + data;
          sent := sent + [message];
      }
    }

    /**
     One write of the pinned writing future, which takes the next message when it has
     written the last one; `failed` when it ends with an error.
     */
    method HandleWriting(outcome: WriteOutcome) returns (failed: bool)
      requires (unsent != [] || queue != []) && Writing()
      modifies `queue, `unsent, `written, `sent, `sentUp
      ensures Writing() && old(written) <= written
      ensures queue == if old(unsent) == [] then old(queue)[1..] else old(queue)
      ensures var begins := old(unsent) == [];
              if begins && serde.encode(old(queue)[0]).None? then
                failed && written == old(written) && sent == old(sent) && sentUp == old(sentUp) + [WriteFailure(Serialize)]
              else if begins && !serde.Framable(old(queue)[0]) then
                failed && written == old(written) && sent == old(sent) && sentUp == old(sentUp) + [WriteFailure(TooLong)]
              else
                && sent == old(sent) + (if begins then [old(queue)[0]] else [])
                && (failed <==> outcome.WriteBroken?)
                && sentUp == old(sentUp) + (if failed then [WriteFailure(WriteIo)] else [])
                && (failed || old(written) < written)
    {
      hide Frames;
      assert sent + [] == sent && sentUp + [] == sentUp;
      if unsent == [] {
        var refused := BeginFrame();
        if refused {
          return true;
        }
      }
      match outcome {
        case WriteBroken =>
          sentUp := sentUp + [WriteFailure(WriteIo)];
          failed := true;
        case Wrote(max) =>
          var n := if max == 0 then 1 else max;
          n := if n < |unsent| then n else |unsent|;
          ConcatAssociative(written, unsent[..n], unsent[n..]);
          assert unsent[..n] + unsent[n..] == unsent;
          written := written + unsent[..n];
          unsent := unsent[n..];
          failed := false;
      }
    }

    /** The loop is running: everything read is parsed, everything accepted is sent or queued. */
    ghost predicate Running(accepted: seq<M>)
      reads `reader, `sentUp, `consumed, `queue, `unsent, `written, `sent
    {
      Reading() && Writing() && !reader.Stopped? && sent + queue == accepted
    }

    /**
     What holds at the end, and at every moment before it: at most the last frame is
     cut off, and only a quit request that wins leaves out the last event.
     */
    ghost predicate Account(accepted: seq<M>, quitWon: bool)
      reads `sentUp, `consumed, `written, `sent
    {
      var events := Parse(serde, consumed).events;
      && (sentUp == events || EndsInFailure(events, sentUp) || (quitWon && LacksLast(events, sentUp)))
      && sent <= accepted
      && AllFramable(serde, sent)
      && written <= Frames(serde, sent)
      && (sent != [] ==> Frames(serde, sent[..|sent| - 1]) <= written)
    }

    lemma WritingAccount()
      requires Writing()
      ensures written <= Frames(serde, sent)
      ensures sent != [] ==> Frames(serde, sent[..|sent| - 1]) <= written
    {
      hide Frames;
      assert (written + unsent)[..|written|] == written;
      if sent != [] {
        var front, last := sent[..|sent| - 1], sent[|sent| - 1];
        assert sent == front + [last];
        FramesAppend(serde, front, last);
      }
    }

    /** A quit request wins against the send of the last event. */
    method LoseEvent()
      requires sentUp != []
      modifies `sentUp
      ensures sentUp == old(sentUp)[..|old(sentUp)| - 1]
    {
      sentUp := sentUp[..|sentUp| - 1];
    }

    /** Why this turn is the last one: a quit request, or a failure that it sends up. */
    ghost predicate Caused(turn: Turn<M>, accepted: seq<M>)
      reads `sentUp, `unread
    {
      turn.Quit? || turn.quitWins ||
      (sentUp != [] &&
       match sentUp[|sentUp| - 1]
       case Message(_) => false
       case ReadFailure(ReadIo) => turn.ReadBroken? || (turn.Readable? && unread == [])
       case ReadFailure(_) => turn.Readable?
       case WriteFailure(WriteIo) => turn.Writable? && turn.outcome.WriteBroken?
       case WriteFailure(_) => turn.Writable? && !AllFramable(serde, accepted))
    }

    method TakeReadable(sizes: seq<nat>, quitWins: bool, ghost accepted: seq<M>) returns (ended: bool)
      requires Running(accepted)
      modifies `unread, `reader, `sentUp, `consumed
      ensures consumed + unread == old(consumed) + old(unread)
      ensures if ended then Account(accepted, quitWins) else Running(accepted)
      ensures ended ==> Caused(Readable(sizes, quitWins), accepted)
      ensures !ended ==> sentUp == old(sentUp) || !quitWins
      ensures !ended && sizes != [] ==> |consumed| > |old(consumed)|
      ensures old(consumed) <= consumed
    {
      hide Parse, Frames, AllFramable, Frame, Advance, Serde.Framable;
      WritingAccount();
      ghost var read, rest := consumed, unread;
      var before := |sentUp|;
      var failed := ReadMessage(sizes);
      ended := failed || reader.Stopped?;
      StoppedOnFailure(serde, consumed);
      if failed {
        sentUp := sentUp + [ReadFailure(ReadIo)];
      }
      if quitWins && |sentUp| > before {
        LoseEvent();
        ended := true;
      }
      SameBehind(read, rest, consumed, unread);
    }

    method TakeWritable(outcome: WriteOutcome, quitWins: bool, ghost accepted: seq<M>) returns (ended: bool)
      requires Running(accepted)
      modifies `queue, `unsent, `written, `sent, `sentUp
      ensures if ended then Account(accepted, quitWins) else Running(accepted)
      ensures ended ==> Caused(Writable(outcome, quitWins), accepted)
      ensures old(unsent) != [] || old(queue) != [] ==>
                && (ended <==> outcome.WriteBroken? || (old(unsent) == [] && !serde.Framable(old(queue)[0])))
                && (!ended ==> old(written) < written)
      ensures old(unsent) == [] && old(queue) == [] ==> !ended && written == old(written)
      ensures old(written) <= written
    {
      hide Parse, Frames, Frame, Advance;
      ended := false;
      if unsent != [] || queue != [] {
        ghost var begun, waiting, events := sent, queue, sentUp;
        assert events + [] == events && begun + [] == begun;
        assert queue != [] ==> queue[0] == accepted[|sent|];
        ended := HandleWriting(outcome);
        QueueTaken(begun, waiting, sent, queue, accepted);
        assert ended ==> sentUp[..|sentUp| - 1] == events;
        if ended && quitWins {
          LoseEvent();
        }
      }
      WritingAccount();
    }

    method TakeTurn(turn: Turn<M>, ghost accepted: seq<M>) returns (ended: bool)
      requires Running(accepted)
      modifies `unread, `reader, `sentUp, `queue, `unsent, `written, `consumed, `sent
      ensures consumed + unread == old(consumed) + old(unread)
      ensures var longer := accepted + if turn.Outgoing? then [turn.message] else [];
              if ended then Account(longer, !turn.Quit? && turn.quitWins) && Caused(turn, longer) else Running(longer)
      ensures turn.MustEnd() ==> ended
      ensures !ended && turn.Readable? && turn.sizes != [] ==> |consumed| > |old(consumed)|
      ensures old(consumed) <= consumed && old(written) <= written
      ensures !ended && turn.Writable? && (old(unsent) != [] || old(queue) != []) ==> |written| > |old(written)|
    {
      hide Parse, Frames, AllFramable;
      assert accepted + [] == accepted;
      match turn {
        case Quit =>
          WritingAccount();
          ended := true;
        case Outgoing(message, quitWins) =>
          ConcatAssociative(sent, queue, [message]);
          WritingAccount();
          ended := quitWins;
          if !quitWins {
            queue := queue + [message];
          }
        case Readable(sizes, quitWins) => ended := TakeReadable(sizes, quitWins, accepted);
        case ReadBroken(quitWins) =>
          WritingAccount();
          if !quitWins {
            sentUp := sentUp + [ReadFailure(ReadIo)];
          }
          ended := true;
        case Writable(outcome, quitWins) => ended := TakeWritable(outcome, quitWins, accepted);
      }
    }

    /** With nothing left to write, every accepted message is on the wire. */
    lemma AllWritten(accepted: seq<M>)
      requires Running(accepted) && unsent == [] && queue == []
      ensures AllFramable(serde, accepted) && written == Frames(serde, accepted)
    {
      hide Parse, Frames;
      assert sent + [] == sent && written + [] == written;
    }

    /** One turn keeps the lower bound on what is written. */
    method TurnWrites(script: seq<Turn<M>>) returns (ended: bool)
      requires script != [] && Running(Outgoings(script[..|script| - 1]))
      requires var front := script[..|script| - 1];
               AllFramable(serde, Outgoings(front)) ==> |written| >= LeastWritten(serde, front)
      modifies `unread, `reader, `sentUp, `queue, `unsent, `written, `consumed, `sent
      ensures consumed + unread == old(consumed) + old(unread)
      ensures if ended then Account(Outgoings(script), QuitWon(script)) && Caused(script[|script| - 1], Outgoings(script))
              else Running(Outgoings(script))
      ensures script[|script| - 1].MustEnd() ==> ended
      ensures !ended && AllFramable(serde, Outgoings(script)) ==> |written| >= LeastWritten(serde, script)
      ensures |consumed| >= |old(consumed)| + if !ended && script[|script| - 1].Reads() then 1 else 0
    {
      hide Running, Account, Frames, Caused, AllFramable;
      var front, last := script[..|script| - 1], script[|script| - 1];
      FramableBefore(serde, script);
      if unsent == [] && queue == [] {
        AllWritten(Outgoings(front));
      }
      ended := TakeTurn(last, Outgoings(front));
    }

    /**
     The whole task, for every order in which its branches become ready. `turns` is the
     number of turns taken, and `ended` whether the last of them has ended reading and
     writing: then there was a quit request or a failure. Until then every reading turn
     takes bytes, and every writing turn writes some as long as there are any.
     */
    method ConnectionTask(script: seq<Turn<M>>) returns (turns: nat, ended: bool)
      requires Running([]) && consumed == [] && sentUp == [] && written == []
      modifies this
      ensures turns <= |script| && (!ended ==> turns == |script|)
      ensures consumed + unread == old(unread)
      ensures Account(Outgoings(script[..turns]), ended && QuitWon(script[..turns]))
      ensures AllFramable(serde, Outgoings(script[..turns])) ==>
                written <= Frames(serde, Outgoings(script[..turns]))
      ensures ended ==> turns > 0 && Caused(script[turns - 1], Outgoings(script[..turns]))
      ensures forall k :: 0 <= k < turns && script[k].MustEnd() ==> ended && k == turns - 1
      ensures !ended ==> |consumed| >= CountReads(script)
      ensures !ended && AllFramable(serde, Outgoings(script)) ==> |written| >= LeastWritten(serde, script)
    {
      hide Running, Account, Outgoings, Frames, Caused, AllFramable, LeastWritten;
      turns, ended := 0, false;
      StartOfScript(serde, script);
      while turns < |script|
        invariant turns <= |script| && !ended
        invariant Running(Outgoings(script[..turns]))
        invariant consumed + unread == old(unread)
        invariant forall k :: 0 <= k < turns ==> !script[k].MustEnd()
        invariant |consumed| >= CountReads(script[..turns])
        invariant AllFramable(serde, Outgoings(script[..turns])) ==> |written| >= LeastWritten(serde, script[..turns])
      {
        var front, taken := script[..turns], script[..turns + 1];
        assert taken[..|taken| - 1] == front && taken[|taken| - 1] == script[turns];
        ended := TurnWrites(taken);
        turns := turns + 1;
        if ended {
          AccountBelow(Outgoings(taken), QuitWon(taken));
          return;
        }
      }
      assert script[..turns] == script;
      RunningAccount(Outgoings(script[..turns]), false);
      AccountBelow(Outgoings(script[..turns]), false);
    }

    lemma RunningAccount(accepted: seq<M>, quitWon: bool)
      requires Running(accepted)
      ensures Account(accepted, quitWon)
    {
      hide Frames, Parse;
      WritingAccount();
    }

    lemma AccountBelow(accepted: seq<M>, quitWon: bool)
      requires Account(accepted, quitWon)
      ensures AllFramable(serde, accepted) ==> written <= Frames(serde, accepted)
    {
      hide Frames, Parse;
      if AllFramable(serde, accepted) {
        FramesPrefix(serde, accepted, |sent|);
        assert accepted[..|sent|] == sent;
      }
    }
  }

  /** The last turn loses what it sends to a quit request. */
  predicate QuitWon<M>(script: seq<Turn<M>>) {
    script != [] && !script[|script| - 1].Quit? && script[|script| - 1].quitWins
  }

  ghost predicate LacksLast<M>(events: seq<ConnectionEvent<M>>, sentUp: seq<ConnectionEvent<M>>) {
    events != [] && sentUp == events[..|events| - 1]
  }

  /** Whatever has begun to be sent is a beginning of what was accepted. */
  lemma QueueTaken<M>(begun: seq<M>, waiting: seq<M>, sent: seq<M>, queue: seq<M>, accepted: seq<M>)
    requires begun + waiting == accepted
    ensures waiting != [] && sent == begun + [waiting[0]] && queue == waiting[1..] ==> sent + queue == accepted
    ensures sent == begun ==> sent <= accepted
    ensures sent + queue == accepted ==> sent <= accepted
  {
    if waiting != [] {
      assert begun + waiting == (begun + [waiting[0]]) + waiting[1..];
    }
  }

  /** One failure of the connection itself, after the events that came from its bytes. */
  ghost predicate EndsInFailure<M>(events: seq<ConnectionEvent<M>>, sentUp: seq<ConnectionEvent<M>>) {
    && sentUp != []
    && sentUp[..|sentUp| - 1] == events
    && (sentUp[|sentUp| - 1] == ReadFailure(ReadIo) || sentUp[|sentUp| - 1].WriteFailure?)
  }

  /** The turns in which something is read. */
  function CountReads<M>(script: seq<Turn<M>>): nat {
    if script == [] then 0
    else CountReads(script[..|script| - 1]) + if script[|script| - 1].Reads() then 1 else 0
  }

  /** Each writing turn writes at least one byte, until every message accepted before it is written. */
  ghost function LeastWritten<M(!new)>(serde: Serde<M>, script: seq<Turn<M>>): nat
    requires AllFramable(serde, Outgoings(script))
  {
    if script == [] then 0
    else
      var front := script[..|script| - 1];
      FramableBefore(serde, script);
      var least, all := LeastWritten(serde, front), |Frames(serde, Outgoings(front))|;
      if !script[|script| - 1].Writable? then least else if least + 1 < all then least + 1 else all
  }

  /** As many writing turns in a row as there are bytes to write are enough to write them all. */
  lemma {:induction false} WritesCatchUp<M(!new)>(serde: Serde<M>, script: seq<Turn<M>>, k: nat)
    requires k <= |script| && forall j :: k <= j < |script| ==> script[j].Writable?
    requires AllFramable(serde, Outgoings(script))
    ensures Outgoings(script) == Outgoings(script[..k])
    ensures var all := |Frames(serde, Outgoings(script))|;
            LeastWritten(serde, script) >= if |script| - k < all then |script| - k else all
  {
    hide Frames, AllFramable;
    if k == |script| {
      assert script[..k] == script;
    } else {
      var front := script[..|script| - 1];
      assert front[..k] == script[..k];
      FramableBefore(serde, script);
      WritesCatchUp(serde, front, k);
    }
  }

  lemma FramableBefore<M(!new)>(serde: Serde<M>, script: seq<Turn<M>>)
    requires script != []
    ensures AllFramable(serde, Outgoings(script)) ==> AllFramable(serde, Outgoings(script[..|script| - 1]))
  {
    var all, before := Outgoings(script), Outgoings(script[..|script| - 1]);
    assert forall i :: 0 <= i < |before| ==> all[i] == before[i];
  }

  lemma StartOfScript<M(!new)>(serde: Serde<M>, script: seq<Turn<M>>)
    ensures Outgoings(script[..0]) == [] && CountReads(script[..0]) == 0
    ensures AllFramable(serde, Outgoings(script[..0])) && LeastWritten(serde, script[..0]) == 0
  {
  }

  lemma ParseValid<M(!new)>(serde: Serde<M>, stream: seq<Byte>)
    ensures Parse(serde, stream).reader.Valid()
  {
  }
}
