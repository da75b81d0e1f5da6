/**
 What the device manager tells the task of a connection, and what the task does about
 it, over whole runs (src/device.rs:120-200, src/device/state.rs:60-240).
 */
module TaskLife {
  import opened Sequences
  import opened Messages
  import opened Lifecycle
  import opened LifecycleSafety
  import M = ConnectionManager
  import D = Devices
  import O = OboeLogic

  // ----- What a task is told -----

  /** What an event of the device manager tells a connected task. */
  function News(e: DmEvent, id: ConnectionId): seq<D.DeviceEvent> {
    match e
    case DisconnectAllDevices => [D.Disconnect]
    case RunDeviceConnectionPing => [D.SendPing]
    case UiNativeSampleRate(other, info) => if other == id then [D.AudioInfo(info)] else []
    case SendStartAudioStream(other) => if other == id then [D.SendStartAudio] else []
    case _ => []
  }

  /** Everything that the task of `id` has been told since its connection was announced to the device manager. */
  ghost function ToldOf(c: D.Config, steps: seq<Step>, id: ConnectionId): seq<D.DeviceEvent>
    requires After(c, steps).Some?
  {
    if steps == [] then []
    else
      var front, last := steps[..|steps| - 1], steps[|steps| - 1];
      var s := After(c, front).value;
      if !last.DeviceManagerStep? then ToldOf(c, front, id)
      else if s.dmQueue[0].NewDeviceConnection? && s.dmQueue[0].id == id then []
      else if id in s.connections then ToldOf(c, front, id) + News(s.dmQueue[0], id)
      else ToldOf(c, front, id)
  }

  /** Everything that the task has taken since then, in order. */
  ghost function TakenOf(c: D.Config, steps: seq<Step>, id: ConnectionId): seq<D.DeviceEvent>
    requires After(c, steps).Some?
  {
    if steps == [] then []
    else
      var front, last := steps[..|steps| - 1], steps[|steps| - 1];
      var s := After(c, front).value;
      if last.DeviceManagerStep? && s.dmQueue[0].NewDeviceConnection? && s.dmQueue[0].id == id then []
      else if last == MailboxEvent(id) then TakenOf(c, front, id) + [s.connections[id][0]]
      else TakenOf(c, front, id)
  }

  /** How one event of the device manager changes the mailbox of a connection. */
  lemma ManagedMailbox(connections: D.Mailboxes, e: DmEvent, id: ConnectionId)
    requires D.Manage(connections, e).Managed?
    ensures var after := D.Manage(connections, e).connections;
            && (id in after <==> (id in connections || (e.NewDeviceConnection? && e.id == id)) && e != RemoveConnection(id))
            && (id in after ==> after[id] == if e.NewDeviceConnection? && e.id == id then []
                                             else connections[id] + News(e, id))
  {
  }

  lemma StepMailbox(c: D.Config, s: System, step: Step, id: ConnectionId)
    requires Enabled(c, s, step) && Sound(s) && id in Apply(c, s, step).connections
    ensures var after := Apply(c, s, step);
            if step.DeviceManagerStep? && s.dmQueue[0].NewDeviceConnection? && s.dmQueue[0].id == id then
              after.connections[id] == []
            else
              && id in s.connections
              && after.connections[id] ==
                   if step.DeviceManagerStep? then s.connections[id] + News(s.dmQueue[0], id)
                   else if step == MailboxEvent(id) then s.connections[id][1..]
                   else s.connections[id]
  {
    hide Sound, M.Handle, D.Manage, D.React, D.OnEvent, O.Command, O.Notice, CmOf, DmOf, AudioOf, News, Told;
    if step.DeviceManagerStep? {
      NoUnknownRemoval(s);
      ManagedMailbox(s.connections, s.dmQueue[0], id);
    }
  }

  /** How the two logs grow in one step. */
  lemma LogsGrow(c: D.Config, steps: seq<Step>, id: ConnectionId)
    requires After(c, steps).Some? && steps != []
    ensures var front, last := steps[..|steps| - 1], steps[|steps| - 1];
            var s := After(c, front).value;
            && Enabled(c, s, last)
            && var told, taken := ToldOf(c, front, id), TakenOf(c, front, id);
               if last.DeviceManagerStep? && s.dmQueue[0].NewDeviceConnection? && s.dmQueue[0].id == id then
                 ToldOf(c, steps, id) == [] && TakenOf(c, steps, id) == []
               else
                 && ToldOf(c, steps, id) == told + (if last.DeviceManagerStep? && id in s.connections
                                                   then News(s.dmQueue[0], id) else [])
                 && TakenOf(c, steps, id) == taken + (if last == MailboxEvent(id) then [s.connections[id][0]] else [])
  {
    hide Apply, News;
    LastStep(c, steps);
  }

  lemma LogsBalance(told: seq<D.DeviceEvent>, taken: seq<D.DeviceEvent>, box: seq<D.DeviceEvent>, news: seq<D.DeviceEvent>)
    requires told == taken + box
    ensures told + news == (taken + []) + (box + news)
    ensures box != [] ==> told + [] == (taken + [box[0]]) + box[1..]
  {
    if box != [] {
      assert box == [box[0]] + box[1..];
    }
  }

  /** The mailbox of a task holds what it has been told and has not taken: nothing is lost, reordered or made up. */
  lemma {:induction false} MailboxIsTold(c: D.Config, steps: seq<Step>, id: ConnectionId)
    requires After(c, steps).Some? && id in After(c, steps).value.connections
    ensures ToldOf(c, steps, id) == TakenOf(c, steps, id) + After(c, steps).value.connections[id]
  {
    hide *;
    StartHasNone(c, steps, id);
    LastStep(c, steps);
    var front, last := steps[..|steps| - 1], steps[|steps| - 1];
    var s := After(c, front).value;
    RunSafe(c, front);
    SafeIsSound(c, s);
    HeadsOf(c, s, last);
    MailboxHead(c, s, last);
    StepMailbox(c, s, last, id);
    LogsGrow(c, steps, id);
    if id in s.connections {
      MailboxIsTold(c, front, id);
      var news := if last.DeviceManagerStep? then News(s.dmQueue[0], id) else [];
      LogsBalance(ToldOf(c, front, id), TakenOf(c, front, id), s.connections[id], news);
    }
  }

  lemma MailboxHead(c: D.Config, s: System, step: Step)
    requires Enabled(c, s, step)
    ensures step.MailboxEvent? ==> step.id in s.connections && s.connections[step.id] != []
  {
  }

  lemma StartHasNone(c: D.Config, steps: seq<Step>, id: ConnectionId)
    requires After(c, steps).Some? && id in After(c, steps).value.connections
    ensures steps != []
  {
  }

  lemma SafeIsSound(c: D.Config, s: System)
    requires Safe(c, s)
    ensures Sound(s)
  {
    hide Sound;
  }

  // ----- Why a connection is left -----

  /** In step `k` the device manager handles `e`. */
  ghost predicate ManagedAt(c: D.Config, steps: seq<Step>, k: nat, e: DmEvent) {
    && k < |steps|
    && After(c, steps[..k]).Some?
    && steps[k].DeviceManagerStep?
    && After(c, steps[..k]).value.dmQueue != []
    && After(c, steps[..k]).value.dmQueue[0] == e
  }

  /** In step `k` the task of `id` takes `e` from its mailbox. */
  ghost predicate TakesAt(c: D.Config, steps: seq<Step>, k: nat, id: ConnectionId, e: D.DeviceEvent) {
    && k < |steps|
    && steps[k] == MailboxEvent(id)
    && After(c, steps[..k]).Some?
    && var s := After(c, steps[..k]).value;
       id in s.connections && s.connections[id] != [] && s.connections[id][0] == e
  }

  /** The connection of the task breaks, or the task takes an order to disconnect. */
  ghost predicate LeavesAt(c: D.Config, steps: seq<Step>, k: nat, id: ConnectionId) {
    (k < |steps| && steps[k] == ConnectionBreaks(id)) || TakesAt(c, steps, k, id, D.Disconnect)
  }

  ghost predicate HasLeft(c: D.Config, steps: seq<Step>, id: ConnectionId) {
    exists k: nat :: LeavesAt(c, steps, k, id)
  }

  predicate Left(phase: Phase) {
    phase == Closing || phase == Forgetting || phase == Gone
  }

  /** A live id is left only by its own move. */
  lemma MoveLeaves(c: Census, m: Move, id: ConnectionId)
    requires Balanced(c) && Possible(c, m)
    ensures Left(PhaseIn(Moved(c, m), id)) <==> Left(PhaseIn(c, id)) || m == Quit(id)
  {
    assert BalancedAt(c, id) && BalancedAt(c, c.nextId);
    if m.Quit? || m.Remove? || m.Forget? || m.Die? || m.Start? {
      assert BalancedAt(c, m.id);
    }
    MovedBalanced(c, m);
    assert BalancedAt(Moved(c, m), id);
  }

  lemma LeavesEarlier(c: D.Config, steps: seq<Step>, n: nat, id: ConnectionId)
    requires n <= |steps| && HasLeft(c, steps[..n], id)
    ensures HasLeft(c, steps, id)
  {
    hide After;
    var k: nat :| LeavesAt(c, steps[..n], k, id);
    assert steps[..n][..k] == steps[..k];
    assert LeavesAt(c, steps, k, id);
  }

  lemma LeavesLast(c: D.Config, steps: seq<Step>, id: ConnectionId)
    requires After(c, steps).Some? && steps != []
    ensures var front, last := steps[..|steps| - 1], steps[|steps| - 1];
            && Enabled(c, After(c, front).value, last)
            && (HasLeft(c, steps, id) <==> HasLeft(c, front, id) || MoveOf(c, After(c, front).value, last) == Quit(id))
  {
    hide After, Apply;
    var front, last := steps[..|steps| - 1], steps[|steps| - 1];
    LastStep(c, steps);
    if HasLeft(c, front, id) {
      LeavesEarlier(c, steps, |front|, id);
    }
    if MoveOf(c, After(c, front).value, last) == Quit(id) {
      assert LeavesAt(c, steps, |front|, id);
    }
    if HasLeft(c, steps, id) {
      var k: nat :| LeavesAt(c, steps, k, id);
      if k < |front| {
        assert front[..k] == steps[..k];
        assert LeavesAt(c, front, k, id);
      }
    }
  }

  /**
   A connection is on its way out or gone if and only if it has broken or its task has
   taken an order to disconnect.
   */
  lemma {:induction false} LeftExactly(c: D.Config, steps: seq<Step>, id: ConnectionId)
    requires After(c, steps).Some?
    ensures Left(PhaseIn(CensusOf(After(c, steps).value), id)) <==> HasLeft(c, steps, id)
  {
    hide Enabled, Apply, HasLeft, MoveOf, Moved, Possible, Safe, Left, PhaseIn, CensusOf;
    if steps == [] {
      NobodyLeft(c, id);
    } else {
      var front, last := steps[..|steps| - 1], steps[|steps| - 1];
      LastStep(c, steps);
      var s := After(c, front).value;
      LeftExactly(c, front, id);
      LeavesLast(c, steps, id);
      RunSafe(c, front);
      SafeIsSound(c, s);
      StepIsMove(c, s, last);
      MoveLeaves(CensusOf(s), MoveOf(c, s, last), id);
    }
  }

  lemma NobodyLeft(c: D.Config, id: ConnectionId)
    ensures !Left(PhaseIn(CensusOf(START), id)) && !HasLeft(c, [], id)
  {
    hide CmPending, DmPending, Born, Ending, Forgotten;
    StartPending();
    NothingSent();
  }

  // ----- Disconnecting -----

  lemma ManagedEarlier(c: D.Config, steps: seq<Step>, n: nat, k: nat, e: DmEvent)
    requires n <= |steps| && ManagedAt(c, steps[..n], k, e)
    ensures ManagedAt(c, steps, k, e) && k < n && steps[..n][..k] == steps[..k]
  {
    hide After;
    assert steps[..n][..k] == steps[..k];
  }

  lemma ToldSomething(c: D.Config, steps: seq<Step>, id: ConnectionId)
    requires After(c, steps).Some? && ToldOf(c, steps, id) != []
    ensures steps != []
  {
  }

  /** A task is told to disconnect only when all devices are to be disconnected. */
  lemma {:induction false} WhoDisconnects(c: D.Config, steps: seq<Step>, id: ConnectionId) returns (k: nat)
    requires After(c, steps).Some? && D.Disconnect in ToldOf(c, steps, id)
    ensures ManagedAt(c, steps, k, DisconnectAllDevices) && id in After(c, steps[..k]).value.connections
  {
    hide Apply, After;
    ToldSomething(c, steps, id);
    var front := steps[..|steps| - 1];
    LastStep(c, steps);
    LogsGrow(c, steps, id);
    if D.Disconnect in ToldOf(c, front, id) {
      k := WhoDisconnects(c, front, id);
      ManagedEarlier(c, steps, |front|, k, DisconnectAllDevices);
    } else {
      k := |front|;
    }
  }

  /**
   As long as no device is told to disconnect and its own connection does not break, an
   id never goes on from being live: pings and everything else leave it connected.
   */
  lemma StaysLive(c: D.Config, steps: seq<Step>, id: ConnectionId)
    requires After(c, steps).Some? && ConnectionBreaks(id) !in steps
    requires forall k: nat :: ManagedAt(c, steps, k, DisconnectAllDevices) ==> id !in After(c, steps[..k]).value.connections
    ensures var phase := PhaseIn(CensusOf(After(c, steps).value), id);
            phase == Unborn || phase == Announced || phase == Live || phase == Stranded
  {
    hide After, ManagedAt, CensusOf, PhaseIn, ToldOf, TakenOf;
    LeftExactly(c, steps, id);
    if k: nat :| LeavesAt(c, steps, k, id) {
      var before := steps[..k];
      MailboxIsTold(c, before, id);
      assert D.Disconnect in ToldOf(c, before, id);
      var j := WhoDisconnects(c, before, id);
      ManagedEarlier(c, steps, k, j, DisconnectAllDevices);
      assert false;
    }
  }

  /** An order to disconnect waits in the mailbox of the task, if it still runs. */
  ghost predicate Ordered(s: System, id: ConnectionId) {
    id in s.running ==> id in s.connections && D.Disconnect in s.connections[id]
  }

  lemma StepOrdered(c: D.Config, s: System, step: Step, id: ConnectionId)
    requires Enabled(c, s, step) && Sound(s) && Ordered(s, id) && id in s.running
    ensures Ordered(Apply(c, s, step), id)
  {
    hide Sound, M.Handle, D.Manage, D.React, D.OnEvent, O.Command, O.Notice, CmOf, DmOf, AudioOf, News, Told;
    if step.DeviceManagerStep? {
      NoUnknownRemoval(s);
      ManagedMailbox(s.connections, s.dmQueue[0], id);
      LiveIsNotRemoved(s, id);
    }
  }

  lemma LiveIsNotRemoved(s: System, id: ConnectionId)
    requires Sound(s) && id in s.running
    ensures id !in s.leaving
  {
    hide CmPending, DmPending, Born, Ending, Forgotten;
    assert BalancedAt(CensusOf(s), id);
  }

  /** A task that was there once and does not run any more is never started again. */
  lemma NotStartedAgain(c: D.Config, steps: seq<Step>, n: nat, id: ConnectionId)
    requires After(c, steps).Some? && n < |steps| && After(c, steps[..n]).Some? && After(c, steps[..|steps| - 1]).Some?
    requires id in After(c, steps[..n]).value.connections
    requires id !in After(c, steps[..|steps| - 1]).value.running
    ensures id !in After(c, steps).value.running
  {
    hide *;
    var front := steps[..|steps| - 1];
    LastStep(c, steps);
    assert front[..n] == steps[..n];
    PhasesGoForward(c, front, n, id);
    RunSafe(c, front);
    StepAdvances(c, After(c, front).value, steps[|steps| - 1], id);
    ConnectedRank(c, steps[..n], id);
    ConnectedRank(c, front, id);
    ConnectedRank(c, steps, id);
    LiveAgain(PhaseIn(CensusOf(After(c, front).value), id), PhaseIn(CensusOf(After(c, steps).value), id));
  }

  lemma ConnectedRank(c: D.Config, steps: seq<Step>, id: ConnectionId)
    requires After(c, steps).Some?
    ensures id in After(c, steps).value.connections ==> Rank(PhaseIn(CensusOf(After(c, steps).value), id)) >= 2
    ensures id in After(c, steps).value.running <==> PhaseIn(CensusOf(After(c, steps).value), id) == Live
  {
    hide After, PhaseIn, CmPending, DmPending, Born, Ending, Forgotten;
    IdsLiveOnce(c, steps, id);
    assert In(CensusOf(After(c, steps).value), id, Live) <==> id in After(c, steps).value.running;
  }

  lemma LiveAgain(before: Phase, after: Phase)
    requires Rank(before) >= 2 && before != Live
    requires after == before || after == Following(before) || (before == Live && after == Stranded)
    ensures after != Live
  {
  }

  lemma BroadcastOrders(c: D.Config, s: System, step: Step, id: ConnectionId)
    requires Enabled(c, s, step) && Sound(s) && step.DeviceManagerStep?
    requires s.dmQueue[0] == DisconnectAllDevices && id in s.connections
    ensures Ordered(Apply(c, s, step), id)
  {
    hide Sound, Told;
  }

  /**
   Once all devices are to be disconnected, every task that was connected then has the
   order in its mailbox for as long as it runs.
   */
  lemma {:induction false} DisconnectReachesAll(c: D.Config, steps: seq<Step>, n: nat, id: ConnectionId)
    requires After(c, steps).Some? && ManagedAt(c, steps, n, DisconnectAllDevices)
    requires id in After(c, steps[..n]).value.connections
    ensures Ordered(After(c, steps).value, id)
  {
    hide Apply, Enabled, After, Ordered, Safe, Sound;
    var front, last := steps[..|steps| - 1], steps[|steps| - 1];
    LastStep(c, steps);
    var s := After(c, front).value;
    RunSafe(c, front);
    SafeIsSound(c, s);
    if n == |front| {
      BroadcastOrders(c, s, last, id);
    } else if id in s.running {
      assert front[..n] == steps[..n];
      DisconnectReachesAll(c, front, n, id);
      StepOrdered(c, s, last, id);
    } else {
      NotStartedAgain(c, steps, n, id);
      NotOrdered(After(c, steps).value, id);
    }
  }

  lemma NotOrdered(s: System, id: ConnectionId)
    requires id !in s.running
    ensures Ordered(s, id)
  {
  }

  /**
   A task that reaches the order asks once for the removal of its connection, and
   waits for it; so does a task whose connection breaks.
   */
  lemma OrderIsObeyed(c: D.Config, s: System, step: Step, id: ConnectionId)
    requires Enabled(c, s, step) && Sound(s)
    requires step == ConnectionBreaks(id) || (step == MailboxEvent(id) && s.connections[id][0] == D.Disconnect)
    ensures var after := Apply(c, s, step);
            && id !in after.running && id in after.leaving
            && DmPending(after) == DmPending(s) + [RemoveConnection(id)]
            && CmPending(after) == CmPending(s)
            && AudioHistory(after) == AudioHistory(s)
            && Ending(DmPending(after))[id] == 1
  {
    hide CmOf, DmOf, AudioOf, CmPending, DmPending, AudioHistory, Ending, Born, Forgotten, CensusOf, Apply, Sound;
    StepPending(c, s, step);
    LeaverSends(id);
    StepIsMove(c, s, step);
    var before := CensusOf(s);
    SoundParts(s);
    MovedBalanced(before, Quit(id));
    assert BalancedAt(Moved(before, Quit(id)), id);
    CensusParts(Apply(c, s, step));
  }

  lemma SoundParts(s: System)
    requires Sound(s)
    ensures Balanced(CensusOf(s))
  {
  }

  lemma CensusParts(s: System)
    ensures CensusOf(s).running == s.running.Keys && CensusOf(s).leaving == s.leaving
    ensures CensusOf(s).ending == Ending(DmPending(s)) && CensusOf(s).connections == s.connections.Keys
  {
  }

  // ----- Pings -----

  /** What a step sends to the peer of a connection. */
  function ToPeer(c: D.Config, s: System, step: Step, id: ConnectionId): seq<D.DeviceMessage>
    requires Enabled(c, s, step)
  {
    if step.PeerMessage? && step.id == id then D.React(c, s.running[id], step.received).toPeer
    else if step == MailboxEvent(id) && !s.connections[id][0].Disconnect? then
      D.OnEvent(s.running[id], s.connections[id][0]).toPeer
    else []
  }

  /** The task has been asked for a ping, and no answer has arrived since. */
  ghost predicate PingOpen(c: D.Config, steps: seq<Step>, id: ConnectionId)
    requires After(c, steps).Some?
  {
    steps != [] &&
    var front, last := steps[..|steps| - 1], steps[|steps| - 1];
    var s := After(c, front).value;
    if last.DeviceManagerStep? && s.dmQueue[0].NewDeviceConnection? && s.dmQueue[0].id == id then false
    else if last == PeerMessage(id, D.PingResponse) then false
    else (last == MailboxEvent(id) && s.connections[id][0] == D.SendPing) || PingOpen(c, front, id)
  }

  /** How one step changes whether the task thinks that a ping is open. */
  lemma StepPings(c: D.Config, s: System, step: Step, id: ConnectionId)
    requires Enabled(c, s, step) && Sound(s) && id in Apply(c, s, step).running
    ensures var after := Apply(c, s, step);
            if step.DeviceManagerStep? && s.dmQueue[0].NewDeviceConnection? && s.dmQueue[0].id == id then
              !after.running[id].pinging
            else
              && id in s.running
              && (after.running[id].pinging <==>
                    && step != PeerMessage(id, D.PingResponse)
                    && ((step == MailboxEvent(id) && s.connections[id][0] == D.SendPing) || s.running[id].pinging))
  {
    hide Sound, M.Handle, O.Command, O.Notice, CmOf, DmOf, AudioOf, Told, D.Tell, D.TellAll;
  }

  lemma {:induction false} TaskKnowsPings(c: D.Config, steps: seq<Step>, id: ConnectionId)
    requires After(c, steps).Some? && id in After(c, steps).value.running
    ensures After(c, steps).value.running[id].pinging <==> PingOpen(c, steps, id)
  {
    hide Apply, After, Safe, Sound;
    StartRunsNone(c, steps, id);
    LastStep(c, steps);
    var front, last := steps[..|steps| - 1], steps[|steps| - 1];
    var s := After(c, front).value;
    RunSafe(c, front);
    SafeIsSound(c, s);
    StepPings(c, s, last, id);
    hide Enabled, D.React;
    if id in s.running {
      TaskKnowsPings(c, front, id);
    }
  }

  lemma StartRunsNone(c: D.Config, steps: seq<Step>, id: ConnectionId)
    requires After(c, steps).Some? && id in After(c, steps).value.running
    ensures steps != []
  {
  }

  /** What a task sends to its peer when it takes an event, and when its peer sends a ping. */
  lemma TaskPings(c: D.Config, d: D.Device, e: D.DeviceEvent, m: D.DeviceMessage)
    ensures D.Ping in D.OnEvent(d, e).toPeer <==> e == D.SendPing && !d.pinging
    ensures e == D.SendPing && !d.pinging ==> D.OnEvent(d, e).toPeer == [D.Ping]
    ensures D.PingResponse !in D.OnEvent(d, e).toPeer
    ensures D.React(c, d, m).Reaction? ==> D.Ping !in D.React(c, d, m).toPeer
    ensures D.React(c, d, m).Reaction? ==> (D.PingResponse in D.React(c, d, m).toPeer <==> m == D.Ping)
    ensures m == D.Ping ==> D.React(c, d, m) == D.Reaction(d, [], [D.PingResponse])
  {
    if e.AudioInfo? {
      RepliesAreRates(d.waiting, e.info);
    }
  }

  lemma {:induction false} RepliesAreRates(waiting: seq<D.WhenKnown>, info: AndroidAudioInfo)
    ensures forall m :: m in D.Replies(waiting, info) ==> m == D.NativeSampleRate(info.nativeSampleRate)
  {
    if waiting != [] {
      RepliesAreRates(waiting[1..], info);
    }
  }

  /**
   A ping goes to the peer exactly when the task takes the order to ping and no ping is
   open, and then it is the only message; an order while one is open sends nothing.
   A ping from the peer is answered at once, and nothing else is.
   */
  lemma PingsExactly(c: D.Config, steps: seq<Step>, step: Step, id: ConnectionId)
    requires After(c, steps).Some? && Enabled(c, After(c, steps).value, step)
    ensures var s := After(c, steps).value;
            var sent, ordered := ToPeer(c, s, step, id), step == MailboxEvent(id) && s.connections[id][0] == D.SendPing;
            && (D.Ping in sent <==> ordered && !PingOpen(c, steps, id))
            && (ordered ==> sent == if PingOpen(c, steps, id) then [] else [D.Ping])
            && (D.PingResponse in sent <==> step == PeerMessage(id, D.Ping))
  {
    hide After, PingOpen, D.React, D.OnEvent;
    var s := After(c, steps).value;
    if step == MailboxEvent(id) {
      TaskKnowsPings(c, steps, id);
      TaskPings(c, s.running[id], s.connections[id][0], D.Ping);
      OrderedPing(s.running[id]);
    } else if step.PeerMessage? && step.id == id {
      TaskPings(c, s.running[id], D.SendPing, step.received);
    }
  }

  lemma OrderedPing(d: D.Device)
    ensures D.OnEvent(d, D.SendPing).toPeer == if d.pinging then [] else [D.Ping]
  {
  }

  /** In step `k` a ping is sent to the peer of `id`. */
  ghost predicate PingsAt(c: D.Config, steps: seq<Step>, k: nat, id: ConnectionId) {
    && k < |steps|
    && After(c, steps[..k]).Some?
    && Enabled(c, After(c, steps[..k]).value, steps[k])
    && D.Ping in ToPeer(c, After(c, steps[..k]).value, steps[k], id)
  }

  lemma PingOpens(c: D.Config, steps: seq<Step>, id: ConnectionId)
    requires After(c, steps).Some? && steps != []
    ensures var s, last := After(c, steps[..|steps| - 1]).value, steps[|steps| - 1];
            && Enabled(c, s, last)
            && (last == MailboxEvent(id) && s.connections[id][0] == D.SendPing ==> PingOpen(c, steps, id))
            && (PingOpen(c, steps[..|steps| - 1], id) && last != PeerMessage(id, D.PingResponse) ==>
                  || PingOpen(c, steps, id)
                  || (last.DeviceManagerStep? && s.dmQueue[0].NewDeviceConnection? && s.dmQueue[0].id == id))
  {
    LastStep(c, steps);
    hide After, Apply;
  }

  lemma RunningIsConnected(s: System, id: ConnectionId)
    requires Sound(s) && id in s.running
    ensures id in s.connections
    ensures s.dmQueue != [] && s.dmQueue[0].NewDeviceConnection? ==> s.dmQueue[0].id != id
  {
    hide CmPending, DmPending, Born, Ending, Forgotten;
    assert BalancedAt(CensusOf(s), id);
    if s.dmQueue != [] {
      NoUnknownRemoval(s);
    }
  }

  lemma PingerRuns(c: D.Config, steps: seq<Step>, j: nat, id: ConnectionId)
    requires PingsAt(c, steps, j, id)
    ensures id in After(c, steps[..j]).value.running && id in After(c, steps[..j]).value.connections
    ensures steps[j] == MailboxEvent(id) && After(c, steps[..j]).value.connections[id][0] == D.SendPing
    ensures !PingOpen(c, steps[..j], id)
  {
    hide After, PingOpen;
    PingsExactly(c, steps[..j], steps[j], id);
  }

  lemma {:induction false} StillOpen(c: D.Config, steps: seq<Step>, j: nat, id: ConnectionId)
    requires After(c, steps).Some? && PingsAt(c, steps, j, id)
    requires forall i :: j < i < |steps| ==> steps[i] != PeerMessage(id, D.PingResponse)
    requires id in After(c, steps).value.running
    ensures PingOpen(c, steps, id)
  {
    hide After, Enabled, Apply, PingOpen, PingsAt, Sound, Safe;
    PingIsStep(c, steps, j, id);
    PingerRuns(c, steps, j, id);
    LastStep(c, steps);
    PingOpens(c, steps, id);
    var front := steps[..|steps| - 1];
    var s := After(c, front).value;
    HeadsOf(c, s, steps[|front|]);
    if j < |front| {
      RunSafe(c, front);
      SafeIsSound(c, s);
      assert front[..j] == steps[..j] && front[j] == steps[j];
      PingIsEarlier(c, steps, j, id);
      if id in s.running {
        RunningIsConnected(s, id);
        StillOpen(c, front, j, id);
      } else {
        NotStartedAgain(c, steps, j, id);
      }
    }
  }

  lemma PingIsStep(c: D.Config, steps: seq<Step>, j: nat, id: ConnectionId)
    requires PingsAt(c, steps, j, id)
    ensures j < |steps| && After(c, steps[..j]).Some?
  {
  }

  lemma PingIsEarlier(c: D.Config, steps: seq<Step>, j: nat, id: ConnectionId)
    requires PingsAt(c, steps, j, id) && j < |steps| - 1
    ensures PingsAt(c, steps[..|steps| - 1], j, id)
  {
    hide After, Enabled;
    assert steps[..|steps| - 1][..j] == steps[..j];
  }

  /** Between two pings to a peer there is an answer from it. */
  lemma PingsAreAnswered(c: D.Config, steps: seq<Step>, j: nat, k: nat, id: ConnectionId)
    requires j < k && PingsAt(c, steps, j, id) && PingsAt(c, steps, k, id)
    ensures exists i :: j < i < k && steps[i] == PeerMessage(id, D.PingResponse)
  {
    hide After, Enabled, PingOpen;
    if forall i :: j < i < k ==> steps[i] != PeerMessage(id, D.PingResponse) {
      PingerRuns(c, steps, k, id);
      assert steps[..k][..j] == steps[..j];
      StillOpen(c, steps[..k], j, id);
      assert false;
    }
  }
}
