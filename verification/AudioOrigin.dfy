/**
 Where each start of playing or recording comes from (src/connection.rs:236-330,
 502-598): which request it carries out, and which data connection it carries.
 */
module AudioOrigin {
  import opened Sequences
  import opened Messages
  import opened Lifecycle
  import opened LifecycleSafety
  import M = ConnectionManager
  import D = Devices
  import O = OboeLogic

  // ----- What the connection manager has handled -----

  /** The connection manager handles `e` in step `k`. */
  ghost predicate HandledAt(c: D.Config, steps: seq<Step>, k: nat, e: CmEvent) {
    && k < |steps|
    && After(c, steps[..k]).Some?
    && steps[k].ManagerStep?
    && After(c, steps[..k]).value.cmQueue != []
    && After(c, steps[..k]).value.cmQueue[0] == e
  }

  /** The request handled last for a connection. */
  ghost function LastRequest(c: D.Config, steps: seq<Step>, id: ConnectionId): Option<M.Request>
    requires After(c, steps).Some?
  {
    if steps == [] then None
    else
      var front, last := steps[..|steps| - 1], steps[|steps| - 1];
      var s := After(c, front).value;
      if last.ManagerStep? && IsRequest(s.cmQueue[0]) && s.cmQueue[0].id == id
      then Some(M.Request(s.cmQueue[0].request, s.cmQueue[0].connection))
      else LastRequest(c, front, id)
  }

  /** In step `k` a connection from `ip` is registered as `id`. */
  ghost predicate RegisteredAt(c: D.Config, steps: seq<Step>, k: nat, id: ConnectionId, ip: Ip, usb: bool) {
    HandledAt(c, steps, k, NewJsonStream(ip, usb)) && After(c, steps[..k]).value.manager.nextId == id != M.LAST_ID
  }

  /** In step `k` the data stream arrives, and goes to `id`, a connection at its address and not over USB. */
  ghost predicate StreamAt(c: D.Config, steps: seq<Step>, k: nat, id: ConnectionId, stream: TcpStream, ip: Ip) {
    && HandledAt(c, steps, k, NewDataStream(stream, ip))
    && steps[k].answers.chosen == Some(id)
    && steps[k].answers.converted
    && var json := After(c, steps[..k]).value.manager.json;
       id in json && json[id].ip == ip && !json[id].usb
  }

  ghost predicate Received(c: D.Config, steps: seq<Step>, id: ConnectionId, stream: TcpStream) {
    exists k, ip :: StreamAt(c, steps, k, id, stream, ip)
  }

  ghost predicate Came(c: D.Config, steps: seq<Step>, id: ConnectionId, ip: Ip, usb: bool) {
    exists k :: RegisteredAt(c, steps, k, id, ip, usb)
  }

  // ----- One event -----

  predicate IsStart(e: AudioEvent) {
    e.StartPlaying? || e.StartRecording?
  }

  /** The event starts what the request asks for, with its rate and its audio info. */
  predicate CarriesOut(e: AudioEvent, resource: NextResourceRequest, id: ConnectionId) {
    match resource
    case PlayAudio(sampleRate, framesPerBurst, decodeOpus) =>
      && e.StartPlaying?
      && e.sampleRate == sampleRate
      && e.framesPerBurst == framesPerBurst
      && e.decodeOpus == decodeOpus
      && e.senderId == id
    case SendAudio(rate) => e.StartRecording? && e.rate == rate
  }

  /** The connection that the event is about has just been given this stream. */
  predicate Gives(e: CmEvent, a: M.Answers, id: ConnectionId, stream: TcpStream) {
    e.NewDataStream? && e.stream == stream && a.chosen == Some(id) && a.converted
  }

  /** The start `x`, sent when `e` was handled, is for `id`, and carries the data connection that its request names. */
  ghost predicate StartsFor(m: M.Manager, e: CmEvent, a: M.Answers, after: M.Manager, id: ConnectionId, x: AudioEvent) {
    && IsStart(x)
    && id in m.json && id in after.json
    && after.json[id].next.Some?
    && CarriesOut(x, after.json[id].next.value.resource, id)
    && match after.json[id].next.value.connection
       case Tcp =>
         x.handle.TcpHandle? && (m.json[id].pendingTcp == Some(x.handle.stream) || Gives(e, a, id, x.handle.stream))
       case Udp => x.handle == UdpHandle(after.json[id].ip)
       case Usb => x.handle == UsbHandle
  }

  lemma RecheckStarts(m: M.Manager, id: ConnectionId, r: M.ConnectionResources, udp: M.UdpAnswer, x: AudioEvent)
    requires x in AudioOf(M.Recheck(m, id, r, udp).sent)
    ensures var h := M.Recheck(m, id, r, udp);
            && AudioOf(h.sent) == [x]
            && id in h.manager.json && h.manager.json[id].next == r.next && h.manager.json[id].ip == r.ip
            && r.next.Some?
            && CarriesOut(x, r.next.value.resource, r.id)
            && match r.next.value.connection
               case Tcp => r.pendingTcp.Some? && x.handle == TcpHandle(r.pendingTcp.value)
               case Udp => x.handle == UdpHandle(r.ip)
               case Usb => x.handle == UsbHandle
  {
    hide DmOf, CmOf, AudioOf;
    FewSent(M.Recheck(m, id, r, udp).sent);
  }

  lemma ManagerStarts(m: M.Manager, e: CmEvent, a: M.Answers, x: AudioEvent) returns (id: ConnectionId)
    requires M.Legal(m, e, a) && M.Owned(m)
    requires x in AudioOf(M.Handle(m, e, a).sent) && IsStart(x)
    ensures AudioOf(M.Handle(m, e, a).sent) == [x]
    ensures StartsFor(m, e, a, M.Handle(m, e, a).manager, id, x)
  {
    hide DmOf, CmOf, AudioOf, M.Recheck, CarriesOut;
    NothingStarts(M.Handle(m, e, a).sent);
    id := 0;
    match e {
      case NewDataStream(arrived, _) =>
        if a.chosen.Some? {
          id := a.chosen.value;
          RecheckStarts(m, id, m.json[id].(pendingTcp := Some(arrived)), a.udp, x);
        }
      case ConnectToData(other, request, connection) =>
        if other in m.json && !connection.Tcp? {
          id := other;
          RecheckStarts(m, id, m.json[id].(next := Some(M.Request(request, connection))), a.udp, x);
        }
      case SetNextResourceRequest(other, request, connection) =>
        if other in m.json {
          id := other;
          RecheckStarts(m, id, m.json[id].(next := Some(M.Request(request, connection))), a.udp, x);
        }
      case _ =>
    }
  }

  lemma NothingStarts(sent: seq<RouterMessage>)
    ensures |sent| <= 2 && (forall m :: m in sent && m.Audio? ==> !IsStart(m.audio)) ==>
              forall x :: x in AudioOf(sent) ==> !IsStart(x)
  {
    hide DmOf, CmOf, AudioOf;
    FewSent(sent);
  }

  /** A request is kept until the next one for the same connection; a new connection has none. */
  lemma ManagerKeepsRequest(m: M.Manager, e: CmEvent, a: M.Answers, id: ConnectionId)
    requires M.Legal(m, e, a) && M.Owned(m)
    ensures var after := M.Handle(m, e, a).manager;
            id in after.json ==>
              && after.json[id].next == (if IsRequest(e) && e.id == id then Some(M.Request(e.request, e.connection))
                                         else if id in m.json then m.json[id].next else None)
              && (after.json[id].pendingTcp.Some? ==>
                    || (id in m.json && m.json[id].pendingTcp == after.json[id].pendingTcp)
                    || Gives(e, a, id, after.json[id].pendingTcp.value))
              && (if id in m.json then after.json[id].ip == m.json[id].ip && after.json[id].usb == m.json[id].usb
                  else e == NewJsonStream(after.json[id].ip, after.json[id].usb) && id == m.nextId != M.LAST_ID)
    ensures m.nextId <= M.Handle(m, e, a).manager.nextId
  {
  }

  // ----- Other steps start nothing -----

  lemma OthersStartNothing(c: D.Config, s: System, step: Step)
    requires Enabled(c, s, step) && TasksSound(s) && !step.ManagerStep?
    ensures Apply(c, s, step).manager == s.manager
    ensures |AudioOf(Sent(c, s, step))| <= 2 && forall x :: x in AudioOf(Sent(c, s, step)) ==> !IsStart(x)
  {
    hide CmOf, DmOf, AudioOf, CmPending, DmPending, AudioHistory, O.Player,
         M.Handle, D.Manage, D.React, D.OnEvent, O.Command, O.Notice;
    NothingSent();
    match step {
      case Outside(m) => PartsOne(m);
      case Forward =>
      case DeviceManagerStep =>
        if D.Manage(s.connections, s.dmQueue[0]).Managed? {
          DeviceManagerSends(s.connections, s.dmQueue[0]);
        }
      case PeerMessage(id, m) => TaskSends(c, s.running[id], m);
      case TaskPanics(_, _) =>
      case MailboxEvent(id) =>
        LeaverSends(id);
        D.EventIsSilent(s.running[id], s.connections[id][0]);
      case ConnectionBreaks(id) => LeaverSends(id);
      case AudioStep(a) => OutputSends(s, step);
      case OboeStep(e) => OutputSends(s, step);
    }
  }

  // ----- What the connection manager knows of a connection -----

  /** Whatever is known of a connection is what was handled for it last. */
  ghost predicate Known(c: D.Config, steps: seq<Step>, id: ConnectionId)
    requires After(c, steps).Some?
  {
    var m := After(c, steps).value.manager;
    if id in m.json then
      && m.json[id].next == LastRequest(c, steps, id)
      && Came(c, steps, id, m.json[id].ip, m.json[id].usb)
      && (m.json[id].pendingTcp.Some? ==> Received(c, steps, id, m.json[id].pendingTcp.value))
    else id >= m.nextId ==> LastRequest(c, steps, id) == None
  }

  lemma HandledEarlier(c: D.Config, steps: seq<Step>, n: nat, k: nat, e: CmEvent)
    requires n <= |steps| && HandledAt(c, steps[..n], k, e)
    ensures HandledAt(c, steps, k, e) && steps[..n][k] == steps[k] && steps[..n][..k] == steps[..k]
  {
    hide After;
    assert steps[..n][..k] == steps[..k];
  }

  lemma CameEarlier(c: D.Config, steps: seq<Step>, n: nat, id: ConnectionId, ip: Ip, usb: bool)
    requires n <= |steps| && Came(c, steps[..n], id, ip, usb)
    ensures Came(c, steps, id, ip, usb)
  {
    hide After, HandledAt;
    var k :| RegisteredAt(c, steps[..n], k, id, ip, usb);
    HandledEarlier(c, steps, n, k, NewJsonStream(ip, usb));
    assert RegisteredAt(c, steps, k, id, ip, usb);
  }

  lemma StreamEarlier(c: D.Config, steps: seq<Step>, n: nat, k: nat, id: ConnectionId, stream: TcpStream, ip: Ip)
    requires n <= |steps| && StreamAt(c, steps[..n], k, id, stream, ip)
    ensures StreamAt(c, steps, k, id, stream, ip)
  {
    hide After, HandledAt;
    HandledEarlier(c, steps, n, k, NewDataStream(stream, ip));
  }

  lemma ReceivedEarlier(c: D.Config, steps: seq<Step>, n: nat, id: ConnectionId, stream: TcpStream)
    requires n <= |steps| && Received(c, steps[..n], id, stream)
    ensures Received(c, steps, id, stream)
  {
    hide After, StreamAt;
    var k, ip :| StreamAt(c, steps[..n], k, id, stream, ip);
    StreamEarlier(c, steps, n, k, id, stream, ip);
  }

  /** The last step of a run handles the head of the queue of the connection manager. */
  lemma LastHandled(c: D.Config, steps: seq<Step>)
    requires After(c, steps).Some? && steps != [] && steps[|steps| - 1].ManagerStep?
    ensures var s := After(c, steps[..|steps| - 1]).value;
            s.cmQueue != [] && HandledAt(c, steps, |steps| - 1, s.cmQueue[0])
  {
    hide Apply, After;
    LastStep(c, steps);
  }

  lemma ItCame(c: D.Config, steps: seq<Step>, k: nat, id: ConnectionId, ip: Ip, usb: bool)
    requires RegisteredAt(c, steps, k, id, ip, usb)
    ensures Came(c, steps, id, ip, usb)
  {
  }

  lemma WasReceived(c: D.Config, steps: seq<Step>, k: nat, id: ConnectionId, stream: TcpStream, ip: Ip)
    requires StreamAt(c, steps, k, id, stream, ip)
    ensures Received(c, steps, id, stream)
  {
  }

  lemma ManagerStepKnown(c: D.Config, steps: seq<Step>, id: ConnectionId)
    requires After(c, steps).Some? && steps != [] && steps[|steps| - 1].ManagerStep?
    requires Known(c, steps[..|steps| - 1], id)
    ensures Known(c, steps, id)
  {
    hide Enabled, Sent, Came, Received, CmPending;
    var front, last := steps[..|steps| - 1], steps[|steps| - 1];
    LastStep(c, steps);
    LastHandled(c, steps);
    RunSound(c, front);
    RequestsFindTheirConnection(c, front);
    var s := After(c, front).value;
    var m, e := s.manager, s.cmQueue[0];
    ManagerLegal(c, s, last);
    ManagerKeepsRequest(m, e, last.answers, id);
    hide M.Handle, M.Legal, M.Owned, After;
    var after := After(c, steps).value.manager;
    if id in after.json {
      var r := after.json[id];
      if id in m.json {
        CameEarlier(c, steps, |front|, id, r.ip, r.usb);
      } else {
        ItCame(c, steps, |front|, id, r.ip, r.usb);
      }
      if r.pendingTcp.Some? {
        if Gives(e, last.answers, id, r.pendingTcp.value) {
          WasReceived(c, steps, |front|, id, e.stream, e.ip);
        } else {
          ReceivedEarlier(c, steps, |front|, id, r.pendingTcp.value);
        }
      }
    }
  }

  lemma ManagerLegal(c: D.Config, s: System, step: Step)
    requires Enabled(c, s, step) && step.ManagerStep?
    ensures s.cmQueue != [] && M.Legal(s.manager, s.cmQueue[0], step.answers)
    ensures Apply(c, s, step).manager == M.Handle(s.manager, s.cmQueue[0], step.answers).manager
    ensures Sent(c, s, step) == M.Handle(s.manager, s.cmQueue[0], step.answers).sent
    ensures s.cmQueue[0].NewDataStream? && step.answers.chosen.Some? ==>
              M.Matches(s.manager, step.answers.chosen.value, s.cmQueue[0].ip)
  {
    hide M.Handle;
  }

  lemma OtherStepKnown(c: D.Config, steps: seq<Step>, id: ConnectionId)
    requires After(c, steps).Some? && steps != [] && !steps[|steps| - 1].ManagerStep?
    requires Known(c, steps[..|steps| - 1], id)
    ensures Known(c, steps, id)
  {
    hide Enabled, Sent, Came, Received, Apply;
    var front, last := steps[..|steps| - 1], steps[|steps| - 1];
    LastStep(c, steps);
    RunSound(c, front);
    OthersStartNothing(c, After(c, front).value, last);
    hide TasksSound, M.Owned;
    var json := After(c, steps).value.manager.json;
    if id in json {
      CameEarlier(c, steps, |front|, id, json[id].ip, json[id].usb);
      if json[id].pendingTcp.Some? {
        ReceivedEarlier(c, steps, |front|, id, json[id].pendingTcp.value);
      }
    }
  }

  lemma {:induction false} RunKnown(c: D.Config, steps: seq<Step>, id: ConnectionId)
    requires After(c, steps).Some?
    ensures Known(c, steps, id)
  {
    hide Enabled, Apply, Came, Received;
    if steps != [] {
      hide Known;
      LastStep(c, steps);
      RunKnown(c, steps[..|steps| - 1], id);
      if steps[|steps| - 1].ManagerStep? {
        ManagerStepKnown(c, steps, id);
      } else {
        OtherStepKnown(c, steps, id);
      }
    }
  }

  // ----- Every start -----

  /**
   At the end of the run `x` is a start for a registered connection: it carries out
   the request handled last for it, over the data connection that the request names,
   which is a TCP stream received for it, the address it came from, or USB.
   */
  ghost predicate StartedFor(c: D.Config, steps: seq<Step>, id: ConnectionId, x: AudioEvent)
    requires After(c, steps).Some?
  {
    && id in After(c, steps).value.manager.json
    && LastRequest(c, steps, id).Some?
    && CarriesOut(x, LastRequest(c, steps, id).value.resource, id)
    && match LastRequest(c, steps, id).value.connection
       case Tcp => x.handle.TcpHandle? && Received(c, steps, id, x.handle.stream)
       case Udp => x.handle.UdpHandle? && exists usb :: Came(c, steps, id, x.handle.ip, usb)
       case Usb => x.handle.UsbHandle?
  }

  /** Command `i` of the history is sent in step `n`, by the connection manager, and it is the start of `id`. */
  ghost predicate StartedAt(c: D.Config, steps: seq<Step>, n: nat, id: ConnectionId, i: nat) {
    && n < |steps|
    && steps[n].ManagerStep?
    && After(c, steps).Some? && After(c, steps[..n]).Some? && After(c, steps[..n + 1]).Some?
    && var history, sent := AudioHistory(After(c, steps).value), AudioHistory(After(c, steps[..n + 1]).value);
       && |AudioHistory(After(c, steps[..n]).value)| == i
       && |sent| == i + 1
       && sent <= history
       && StartedFor(c, steps[..n + 1], id, history[i])
  }

  lemma HandedOver(c: D.Config, s: System, step: Step, x: AudioEvent) returns (id: ConnectionId)
    requires Enabled(c, s, step) && step.ManagerStep? && M.Owned(s.manager)
    requires x in AudioOf(Sent(c, s, step)) && IsStart(x)
    ensures AudioOf(Sent(c, s, step)) == [x]
    ensures StartsFor(s.manager, s.cmQueue[0], step.answers, Apply(c, s, step).manager, id, x)
  {
    hide M.Handle, AudioOf, M.Owned;
    ManagerLegal(c, s, step);
    id := ManagerStarts(s.manager, s.cmQueue[0], step.answers, x);
  }

  lemma LastStarts(c: D.Config, steps: seq<Step>, x: AudioEvent) returns (id: ConnectionId)
    requires After(c, steps).Some? && steps != [] && steps[|steps| - 1].ManagerStep?
    requires Enabled(c, After(c, steps[..|steps| - 1]).value, steps[|steps| - 1])
    requires x in AudioOf(Sent(c, After(c, steps[..|steps| - 1]).value, steps[|steps| - 1])) && IsStart(x)
    ensures AudioOf(Sent(c, After(c, steps[..|steps| - 1]).value, steps[|steps| - 1])) == [x]
    ensures StartedFor(c, steps, id, x)
  {
    hide Enabled, Sent, Came, Received, AudioOf;
    var front, last := steps[..|steps| - 1], steps[|steps| - 1];
    LastStep(c, steps);
    LastHandled(c, steps);
    RunSound(c, front);
    var s := After(c, front).value;
    ManagerLegal(c, s, last);
    id := HandedOver(c, s, last, x);
    hide M.Handle, M.Legal, M.Owned, Apply, CarriesOut;
    var e, a, after := s.cmQueue[0], last.answers, After(c, steps).value.manager;
    RunKnown(c, front, id);
    RunKnown(c, steps, id);
    hide After;
    var r := after.json[id];
    match r.next.value.connection {
      case Tcp =>
        var stream := x.handle.stream;
        if Gives(e, a, id, stream) {
          WasReceived(c, steps, |front|, id, stream, e.ip);
        } else {
          ReceivedEarlier(c, steps, |front|, id, stream);
        }
      case Udp => assert Came(c, steps, id, x.handle.ip, r.usb);
      case Usb =>
    }
  }

  lemma SentLast(c: D.Config, steps: seq<Step>, id: ConnectionId, x: AudioEvent)
    requires After(c, steps).Some? && steps != [] && steps[|steps| - 1].ManagerStep?
    requires After(c, steps[..|steps| - 1]).Some?
    requires AudioHistory(After(c, steps).value) == AudioHistory(After(c, steps[..|steps| - 1]).value) + [x]
    requires StartedFor(c, steps, id, x)
    ensures StartedAt(c, steps, |steps| - 1, id, |AudioHistory(After(c, steps[..|steps| - 1]).value)|)
  {
    hide After, AudioHistory, StartedFor;
    assert steps[..|steps| - 1 + 1] == steps;
  }

  lemma SentEarlier(c: D.Config, steps: seq<Step>, n: nat, id: ConnectionId, i: nat)
    requires After(c, steps).Some? && steps != [] && StartedAt(c, steps[..|steps| - 1], n, id, i)
    ensures StartedAt(c, steps, n, id, i)
  {
    hide AudioHistory, Enabled, Sent, Apply, After, StartedFor;
    var front, last := steps[..|steps| - 1], steps[|steps| - 1];
    LastStep(c, steps);
    StepPending(c, After(c, front).value, last);
    assert front[..n + 1] == steps[..n + 1] && front[..n] == steps[..n];
  }

  /**
   Every start ever sent was sent by the connection manager for a registered
   connection: it carries out the request handled last for that connection, over the
   data connection that this request names.
   */
  lemma {:induction false} EveryStart(c: D.Config, steps: seq<Step>, i: nat)
    requires After(c, steps).Some? && i < |AudioHistory(After(c, steps).value)|
    requires IsStart(AudioHistory(After(c, steps).value)[i])
    ensures exists n, id :: StartedAt(c, steps, n, id, i)
  {
    hide AudioHistory, Enabled, Sent, StartedFor, StartedAt, Apply, AudioOf, After;
    StartPending();
    var history := AudioHistory(After(c, steps).value);
    SomeStep(c, steps);
    LastStep(c, steps);
    var front, last := steps[..|steps| - 1], steps[|steps| - 1];
    var s, x := After(c, front).value, history[i];
    StepPending(c, s, last);
    if i < |AudioHistory(s)| {
      EveryStart(c, front, i);
      var n, id :| StartedAt(c, front, n, id, i);
      SentEarlier(c, steps, n, id, i);
    } else {
      assert x in AudioOf(Sent(c, s, last));
      if last.ManagerStep? {
        var id := LastStarts(c, steps, x);
        SentLast(c, steps, id, x);
      } else {
        RunSound(c, front);
        OthersStartNothing(c, s, last);
      }
    }
  }

  lemma SomeStep(c: D.Config, steps: seq<Step>)
    requires After(c, steps).Some? && AudioHistory(After(c, steps).value) != []
    ensures steps != []
  {
    hide AudioHistory, Enabled, Apply;
    StartPending();
  }

  // ----- No stream is started twice -----

  /** The starts over one TCP stream. */
  function Uses(events: seq<AudioEvent>, stream: TcpStream): nat {
    if events == [] then 0
    else
      var e := events[|events| - 1];
      Uses(events[..|events| - 1], stream) + One(IsStart(e) && e.handle == TcpHandle(stream))
  }

  /** The steps in which this TCP stream arrives at the connection manager. */
  ghost function Arrivals(c: D.Config, steps: seq<Step>, stream: TcpStream): nat
    requires After(c, steps).Some?
  {
    if steps == [] then 0
    else
      var front, last := steps[..|steps| - 1], steps[|steps| - 1];
      var s := After(c, front).value;
      Arrivals(c, front, stream) +
      One(last.ManagerStep? && s.cmQueue[0].NewDataStream? && s.cmQueue[0].stream == stream)
  }

  /** The connections that keep this stream for a request. */
  function Keepers(m: M.Manager, stream: TcpStream): set<ConnectionId> {
    set id | id in m.json && m.json[id].pendingTcp == Some(stream)
  }

  lemma UsesAppend(events: seq<AudioEvent>, e: AudioEvent, stream: TcpStream)
    ensures Uses(events + [e], stream) == Uses(events, stream) + One(IsStart(e) && e.handle == TcpHandle(stream))
  {
    assert (events + [e])[..|events|] == events;
  }

  lemma UsesQuiet(events: seq<AudioEvent>, more: seq<AudioEvent>, stream: TcpStream)
    requires |more| <= 2 && forall x :: x in more ==> !IsStart(x)
    ensures Uses(events + more, stream) == Uses(events, stream)
  {
    hide Uses;
    if |more| == 0 {
      assert events + more == events;
    } else {
      UsesAppend(events, more[0], stream);
      if |more| == 1 {
        assert events + more == events + [more[0]];
      } else {
        UsesAppend(events + [more[0]], more[1], stream);
        assert events + more == events + [more[0]] + [more[1]];
      }
    }
  }

  lemma FewerKeepers(fewer: set<ConnectionId>, more: set<ConnectionId>, id: ConnectionId)
    ensures fewer <= more ==> |fewer| <= |more|
    ensures fewer <= more - {id} && id in more ==> |fewer| + 1 <= |more|
    ensures fewer <= more + {id} ==> |fewer| <= |more| + 1
  {
    if fewer <= more {
      SmallerSet(fewer, more);
    }
    if fewer <= more - {id} {
      SmallerSet(fewer, more - {id});
    }
    if fewer <= more + {id} {
      SmallerSet(fewer, more + {id});
    }
  }

  lemma {:induction false} SmallerSet<T>(fewer: set<T>, more: set<T>)
    requires fewer <= more
    ensures |fewer| <= |more|
  {
    if fewer != {} {
      var x :| x in fewer;
      SmallerSet(fewer - {x}, more - {x});
    }
  }

  /** Whether what was sent starts audio over the stream. */
  predicate Over(sent: seq<AudioEvent>, stream: TcpStream) {
    sent != [] && IsStart(sent[0]) && sent[0].handle == TcpHandle(stream)
  }

  lemma RecheckKeeps(m: M.Manager, id: ConnectionId, r: M.ConnectionResources, udp: M.UdpAnswer, stream: TcpStream)
    ensures var h := M.Recheck(m, id, r, udp);
            && Keepers(h.manager, stream) <= Keepers(m, stream) + {id}
            && (r.pendingTcp != Some(stream) ==> id !in Keepers(h.manager, stream))
            && (Over(AudioOf(h.sent), stream) ==> id !in Keepers(h.manager, stream) && r.pendingTcp == Some(stream))
  {
    hide DmOf, CmOf, AudioOf;
    FewSent(M.Recheck(m, id, r, udp).sent);
  }

  /** Who keeps the stream after an event: a start over it uses it up. */
  lemma ManagerKeeps(m: M.Manager, e: CmEvent, a: M.Answers, stream: TcpStream) returns (id: ConnectionId)
    requires M.Legal(m, e, a) && M.Owned(m)
    ensures var h := M.Handle(m, e, a);
            && Keepers(h.manager, stream) <= Keepers(m, stream) + {id}
            && (!(e.NewDataStream? && e.stream == stream) ==> Keepers(h.manager, stream) <= Keepers(m, stream))
            && (Over(AudioOf(h.sent), stream) ==>
                  && id !in Keepers(h.manager, stream)
                  && (id in Keepers(m, stream) || (e.NewDataStream? && e.stream == stream)))
  {
    hide DmOf, CmOf, AudioOf, M.Recheck;
    id := 0;
    match e {
      case NewDataStream(arrived, _) =>
        if a.chosen.Some? {
          id := a.chosen.value;
          RecheckKeeps(m, id, m.json[id].(pendingTcp := Some(arrived)), a.udp, stream);
        }
      case ConnectToData(other, request, connection) =>
        id := other;
        if id in m.json {
          RecheckKeeps(m, id, m.json[id].(next := Some(M.Request(request, connection))), a.udp, stream);
        }
      case SetNextResourceRequest(other, request, connection) =>
        id := other;
        if id in m.json {
          RecheckKeeps(m, id, m.json[id].(next := Some(M.Request(request, connection))), a.udp, stream);
        }
      case _ =>
    }
    NothingStarts(M.Handle(m, e, a).sent);
  }

  /** One event uses a stream that was kept or that it brings, and then nobody keeps it any more. */
  lemma ManagerUses(m: M.Manager, e: CmEvent, a: M.Answers, stream: TcpStream)
    requires M.Legal(m, e, a) && M.Owned(m)
    ensures var h := M.Handle(m, e, a);
            && |AudioOf(h.sent)| <= 2
            && |Keepers(h.manager, stream)| + One(Over(AudioOf(h.sent), stream)) <=
               |Keepers(m, stream)| + One(e.NewDataStream? && e.stream == stream)
  {
    hide *;
    var id := ManagerKeeps(m, e, a, stream);
    FewerKeepers(Keepers(M.Handle(m, e, a).manager, stream), Keepers(m, stream), id);
    ManagerSendsLittle(m, e, a);
    OneIs(Over(AudioOf(M.Handle(m, e, a).sent), stream));
    OneIs(e.NewDataStream? && e.stream == stream);
  }

  lemma OneIs(b: bool)
    ensures One(b) == if b then 1 else 0
  {
  }

  lemma ManagerSendsLittle(m: M.Manager, e: CmEvent, a: M.Answers)
    requires M.Legal(m, e, a)
    ensures |AudioOf(M.Handle(m, e, a).sent)| <= 2
  {
    hide DmOf, CmOf, AudioOf;
    FewSent(M.Handle(m, e, a).sent);
  }

  lemma StepUses(c: D.Config, s: System, step: Step, stream: TcpStream)
    requires Enabled(c, s, step) && TasksSound(s) && M.Owned(s.manager)
    ensures var after := Apply(c, s, step);
            Uses(AudioHistory(after), stream) + |Keepers(after.manager, stream)| <=
            Uses(AudioHistory(s), stream) + |Keepers(s.manager, stream)| +
            One(step.ManagerStep? && s.cmQueue[0].NewDataStream? && s.cmQueue[0].stream == stream)
  {
    hide AudioHistory, CmPending, DmPending, AudioOf, CmOf, DmOf, Sent, Apply, Uses, Keepers, M.Handle, M.Owned, TasksSound;
    StepPending(c, s, step);
    var sent := AudioOf(Sent(c, s, step));
    if step.ManagerStep? {
      ManagerLegal(c, s, step);
      ManagerUses(s.manager, s.cmQueue[0], step.answers, stream);
      if x :| x in sent && IsStart(x) {
        var _ := ManagerStarts(s.manager, s.cmQueue[0], step.answers, x);
        UsesAppend(AudioHistory(s), sent[0], stream);
      } else {
        UsesQuiet(AudioHistory(s), sent, stream);
      }
    } else {
      OthersStartNothing(c, s, step);
      UsesQuiet(AudioHistory(s), sent, stream);
    }
  }

  /** A stream is started over, or kept for it, at most as often as it has arrived. */
  lemma {:induction false} StreamsAreUsedOnce(c: D.Config, steps: seq<Step>, stream: TcpStream)
    requires After(c, steps).Some?
    ensures var s := After(c, steps).value;
            Uses(AudioHistory(s), stream) + |Keepers(s.manager, stream)| <= Arrivals(c, steps, stream)
  {
    hide AudioHistory, Enabled, Apply;
    if steps == [] {
      StartPending();
      assert Keepers(START.manager, stream) == {};
    } else {
      LastStep(c, steps);
      var front := steps[..|steps| - 1];
      StreamsAreUsedOnce(c, front, stream);
      RunSound(c, front);
      StepUses(c, After(c, front).value, steps[|steps| - 1], stream);
    }
  }

  lemma {:induction false} UsesAt(events: seq<AudioEvent>, i: nat, stream: TcpStream)
    requires i < |events| && IsStart(events[i]) && events[i].handle == TcpHandle(stream)
    ensures Uses(events, stream) >= Uses(events[..i], stream) + 1
  {
    var n := |events| - 1;
    if i < n {
      assert events[..n][..i] == events[..i];
      UsesAt(events[..n], i, stream);
    }
  }

  /** No stream is started twice: two starts over one stream mean that it has arrived twice. */
  lemma NoStreamTwice(c: D.Config, steps: seq<Step>, i: nat, j: nat)
    requires After(c, steps).Some? && i < j < |AudioHistory(After(c, steps).value)|
    requires var history := AudioHistory(After(c, steps).value);
             && IsStart(history[i]) && IsStart(history[j])
             && history[i].handle == history[j].handle && history[i].handle.TcpHandle?
    ensures Arrivals(c, steps, AudioHistory(After(c, steps).value)[i].handle.stream) >= 2
  {
    hide After, AudioHistory, Uses;
    var history := AudioHistory(After(c, steps).value);
    var stream := history[i].handle.stream;
    StreamsAreUsedOnce(c, steps, stream);
    UsesAt(history, j, stream);
    UsesAt(history[..j], i, stream);
  }

  // ----- When a start is due -----

  /**
   Handling the event makes the connection manager look at the request of `id`: a TCP
   request that has just been made waits for its stream, any other one is looked at.
   */
  predicate LooksAt(e: CmEvent, a: M.Answers, id: ConnectionId) {
    match e
    case SetNextResourceRequest(other, _, _) => other == id
    case ConnectToData(other, _, connection) => other == id && !connection.Tcp?
    case NewDataStream(_, _) => a.chosen == Some(id) && a.converted
    case _ => false
  }

  /** The resource is not taken. */
  predicate NotTaken(slots: M.Slots, resource: NextResourceRequest) {
    match resource
    case PlayAudio(_, _, _) => slots.play == None
    case SendAudio(_) => slots.send == None
  }

  /** Given the stream kept for the connection, this is when its request takes its resource. */
  predicate Takes(slots: M.Slots, request: Option<M.Request>, stream: Option<TcpStream>) {
    && request.Some?
    && NotTaken(slots, request.value.resource)
    && (request.value.connection == Tcp ==> stream.Some?)
    && (request.value.connection == Udp ==> stream.None?)
  }

  function Given(m: M.Manager, e: CmEvent, id: ConnectionId): Option<TcpStream>
    requires id in m.json
  {
    if e.NewDataStream? then Some(e.stream) else m.json[id].pendingTcp
  }

  lemma ManagerStartsExactly(m: M.Manager, e: CmEvent, a: M.Answers, id: ConnectionId)
    requires M.Legal(m, e, a) && M.Owned(m) && id in m.json && LooksAt(e, a, id)
    ensures var h := M.Handle(m, e, a);
            && id in h.manager.json
            && var request := h.manager.json[id].next;
               && (AudioOf(h.sent) != [] <==>
                     Takes(m.slots, request, Given(m, e, id)) && (request.value.connection == Udp ==> a.udp == M.Socket))
               && h.manager.slots == (if !Takes(m.slots, request, Given(m, e, id)) then m.slots
                                      else if request.value.resource.PlayAudio? then M.Slots(Some(id), m.slots.send)
                                      else M.Slots(m.slots.play, Some(id)))
               && h.manager.json[id].pendingTcp == (if request.Some? && request.value.connection == Tcp then None
                                                    else Given(m, e, id))
  {
    hide DmOf, CmOf, AudioOf;
    FewSent(M.Handle(m, e, a).sent);
  }

  /** Without a look at a request nothing is started, and only a removal releases a resource. */
  lemma ManagerLooksOrWaits(m: M.Manager, e: CmEvent, a: M.Answers)
    requires M.Legal(m, e, a) && M.Owned(m) && forall id :: id in m.json ==> !LooksAt(e, a, id)
    ensures var h := M.Handle(m, e, a);
            && (forall x :: x in AudioOf(h.sent) ==> !IsStart(x))
            && (!e.RemoveDataConnections? ==> AudioOf(h.sent) == [] && h.manager.slots == m.slots)
  {
    hide DmOf, CmOf, AudioOf;
    FewSent(M.Handle(m, e, a).sent);
  }

  /**
   When the connection manager looks at the request of a connection, audio starts if
   and only if there is a request, its resource is not taken, and its data connection
   is there: the stream for TCP, the socket for UDP unless a stream is kept, and for USB nothing.
   */
  lemma StartsExactly(c: D.Config, steps: seq<Step>, id: ConnectionId)
    requires After(c, steps).Some? && steps != [] && steps[|steps| - 1].ManagerStep?
    requires var s := After(c, steps[..|steps| - 1]).value;
             id in s.manager.json && LooksAt(s.cmQueue[0], steps[|steps| - 1].answers, id)
    ensures var s, after := After(c, steps[..|steps| - 1]).value, After(c, steps).value;
            var request, stream := LastRequest(c, steps, id), Given(s.manager, s.cmQueue[0], id);
            AudioHistory(after) != AudioHistory(s) <==>
            && Takes(s.manager.slots, request, stream)
            && (request.value.connection == Udp ==> steps[|steps| - 1].answers.udp == M.Socket)
  {
    hide Enabled, Sent, AudioOf, AudioHistory, CmPending, DmPending, CmOf, DmOf;
    var front, last := steps[..|steps| - 1], steps[|steps| - 1];
    LastStep(c, steps);
    RunSound(c, front);
    RunKnown(c, steps, id);
    var s := After(c, front).value;
    ManagerLegal(c, s, last);
    StepPending(c, s, last);
    ManagerStartsExactly(s.manager, s.cmQueue[0], last.answers, id);
    hide After, Apply, M.Handle, M.Legal, M.Owned, Takes, LooksAt, Given;
    assert AudioOf(Sent(c, s, last)) == [] ==> AudioHistory(s) + AudioOf(Sent(c, s, last)) == AudioHistory(s);
  }
}
