/**
 The components and their queues as one transition system: connection manager,
 device manager, device tasks, router and audio output (src/connection.rs,
 src/device.rs, src/device/state.rs, src/message_router.rs, src/audio/oboe.rs).
 A step is the handling of one event by one component; steps interleave freely.
 Queues are unbounded, and the shutdown of the application is not modelled.
 */
module Lifecycle {
  import opened Sequences
  import opened Messages
  import M = ConnectionManager
  import D = Devices
  import O = OboeLogic

  /**
   What must not happen: removing an unknown connection or one whose task does not
   wait for it, replacing the handle of a task, ignoring a second stream, playing
   without audio info. What a peer can bring about: `TaskGone`, the panic of the
   device manager when it sends to a task that has panicked itself, and `OpusHeard`,
   the panic of the output on a stream in Opus. A run ends with its first fault.
   */
  datatype Fault =
    | NoFault
    | RemoveUnknown
    | TaskNotWaiting
    | HandleReplaced
    | StreamIgnored
    | NoAudioInfo
    | TaskGone
    | OpusHeard

  datatype System = System(
    manager: M.Manager, cmQueue: seq<CmEvent>,
    connections: D.Mailboxes, dmQueue: seq<DmEvent>,
    running: map<ConnectionId, D.Device>, leaving: set<ConnectionId>, dead: set<ConnectionId>,
    oboe: Option<O.OboeMode>, heard: seq<AudioEvent>, audioQueue: seq<AudioEvent>,
    router: seq<RouterMessage>, fault: Fault)

  const START := System(M.Manager(0, map[], M.Slots(None, None)), [], map[], [], map[], {}, {}, None, [], [], [], NoFault)

  datatype Step =
    | Outside(message: RouterMessage)
    | Forward
    | ManagerStep(answers: M.Answers)
    | DeviceManagerStep
    | PeerMessage(id: ConnectionId, received: D.DeviceMessage)
    | TaskPanics(id: ConnectionId, received: D.DeviceMessage)
    | MailboxEvent(id: ConnectionId)
    | ConnectionBreaks(id: ConnectionId)
    | AudioStep(audioAnswers: O.Answers)
    | OboeStep(event: O.OboeEvent)

  /** What listeners, the UI and timers send; a notice to the UI may come from anywhere. */
  predicate FromOutside(m: RouterMessage) {
    match m
    case Cm(e) => !e.ConnectToData? && !e.SetNextResourceRequest? && !e.RemoveDataConnections?
    case Dm(e) => e.UiNativeSampleRate? || e.DisconnectAllDevices? || e.RunDeviceConnectionPing?
    case Ui(_) => true
    case Audio(_) => false
  }

  /** The audio output is the Android one. */
  ghost predicate Enabled(c: D.Config, s: System, step: Step) {
    s.fault == NoFault &&
    match step
    case Outside(m) => FromOutside(m)
    case Forward => s.router != []
    case ManagerStep(a) => s.cmQueue != [] && M.Legal(s.manager, s.cmQueue[0], a)
    case DeviceManagerStep => s.dmQueue != []
    case PeerMessage(id, m) => id in s.running && D.React(c, s.running[id], m).Reaction?
    case TaskPanics(id, m) => id in s.running && D.React(c, s.running[id], m).Panic?
    case MailboxEvent(id) => id in s.running && id in s.connections && s.connections[id] != []
    case ConnectionBreaks(id) => id in s.running
    case AudioStep(a) => c.android && s.audioQueue != []
    case OboeStep(e) => c.android && !e.AudioCommand?
  }

  function Post(s: System, sent: seq<RouterMessage>): System {
    s.(router := s.router + sent)
  }

  function ForwardOne(s: System): System
    requires s.router != []
  {
    var first := s.router[..1];
    s.(router := s.router[1..], cmQueue := s.cmQueue + CmOf(first), dmQueue := s.dmQueue + DmOf(first),
       audioQueue := s.audioQueue + AudioOf(first))
  }

  /** The task asks for its removal and waits for its quit request. */
  function Leave(s: System, id: ConnectionId): System {
    s.(running := s.running - {id}, leaving := s.leaving + {id})
  }

  /** The tasks that the device manager sends something to. */
  function Told(s: System, e: DmEvent): set<ConnectionId> {
    match e
    case UiNativeSampleRate(id, _) => s.connections.Keys * {id}
    case SendStartAudioStream(id) => s.connections.Keys * {id}
    case DisconnectAllDevices => s.connections.Keys
    case RunDeviceConnectionPing => s.connections.Keys
    case _ => {}
  }

  function ManageOne(s: System): System
    requires s.dmQueue != []
  {
    var next := s.(dmQueue := s.dmQueue[1..]);
    match D.Manage(s.connections, s.dmQueue[0])
    case RemoveFailed => next.(fault := RemoveUnknown)
    case Managed(connections, _, started, quit) =>
      next.(connections := connections,
            running := if started.Some? then s.running[started.value.id := started.value] else s.running,
            leaving := if quit.Some? then s.leaving - {quit.value} else s.leaving,
            fault := if started.Some? && started.value.id in s.connections then HandleReplaced
                     else if quit.Some? && quit.value !in s.leaving then TaskNotWaiting
                     else if Told(s, s.dmQueue[0]) * s.dead != {} then TaskGone
                     else s.fault)
  }

  function MailboxOne(s: System, id: ConnectionId): System
    requires id in s.running && id in s.connections && s.connections[id] != []
  {
    var e := s.connections[id][0];
    var next := s.(connections := s.connections[id := s.connections[id][1..]]);
    if e.Disconnect? then Leave(next, id)
    else next.(running := s.running[id := D.OnEvent(s.running[id], e).device])
  }

  function HearOne(s: System, a: O.Answers): System
    requires s.audioQueue != []
  {
    var e := s.audioQueue[0];
    var next := s.(audioQueue := s.audioQueue[1..], heard := s.heard + [e]);
    match O.Command(s.oboe, e, a)
    case Next(mode, _) => next.(oboe := mode)
    case Ignored => next.(fault := StreamIgnored)
    case Panicked(reason) => next.(fault := if reason.OpusStream? then OpusHeard else NoAudioInfo)
  }

  /** What one step changes, apart from what it sends. */
  function Local(c: D.Config, s: System, step: Step): System
    requires Enabled(c, s, step)
  {
    match step
    case Outside(m) => s
    case Forward => ForwardOne(s)
    case ManagerStep(a) => s.(manager := M.Handle(s.manager, s.cmQueue[0], a).manager, cmQueue := s.cmQueue[1..])
    case DeviceManagerStep => ManageOne(s)
    case PeerMessage(id, m) => s.(running := s.running[id := D.React(c, s.running[id], m).device])
    case TaskPanics(id, _) => s.(running := s.running - {id}, dead := s.dead + {id})
    case MailboxEvent(id) => MailboxOne(s, id)
    case ConnectionBreaks(id) => Leave(s, id)
    case AudioStep(a) => HearOne(s, a)
    case OboeStep(e) => s.(oboe := O.Notice(s.oboe, e).mode)
  }

  /** What one step sends through the router. */
  function Sent(c: D.Config, s: System, step: Step): seq<RouterMessage>
    requires Enabled(c, s, step)
  {
    match step
    case Outside(m) => [m]
    case Forward => []
    case ManagerStep(a) => M.Handle(s.manager, s.cmQueue[0], a).sent
    case DeviceManagerStep =>
      (match D.Manage(s.connections, s.dmQueue[0])
       case RemoveFailed => []
       case Managed(_, sent, _, _) => sent)
    case PeerMessage(id, m) => D.React(c, s.running[id], m).toRouter
    case TaskPanics(_, _) => []
    case MailboxEvent(id) =>
      if s.connections[id][0].Disconnect? then [Dm(RemoveConnection(id))]
      else D.OnEvent(s.running[id], s.connections[id][0]).toRouter
    case ConnectionBreaks(id) => [Ui(ConnectionError(id)), Dm(RemoveConnection(id))]
    case AudioStep(a) =>
      (match O.Command(s.oboe, s.audioQueue[0], a)
       case Next(_, sent) => sent
       case _ => [])
    case OboeStep(e) => O.Notice(s.oboe, e).toRouter
  }

  function Apply(c: D.Config, s: System, step: Step): System
    requires Enabled(c, s, step)
  {
    Post(Local(c, s, step), Sent(c, s, step))
  }

  /** The state after a run, if each of its steps is enabled. */
  ghost function After(c: D.Config, steps: seq<Step>): Option<System> {
    if steps == [] then Some(START)
    else
      var before, last := After(c, steps[..|steps| - 1]), steps[|steps| - 1];
      if before.Some? && Enabled(c, before.value, last) then Some(Apply(c, before.value, last)) else None
  }

  // ----- What is under way, in the router and behind it -----

  function CmPending(s: System): seq<CmEvent> {
    s.cmQueue + CmOf(s.router)
  }

  function DmPending(s: System): seq<DmEvent> {
    s.dmQueue + DmOf(s.router)
  }

  /** Every audio command ever sent, in the order in which it is heard. */
  function AudioHistory(s: System): seq<AudioEvent> {
    (s.heard + s.audioQueue) + AudioOf(s.router)
  }

  lemma PostPending(s: System, sent: seq<RouterMessage>)
    ensures CmPending(Post(s, sent)) == CmPending(s) + CmOf(sent)
    ensures DmPending(Post(s, sent)) == DmPending(s) + DmOf(sent)
    ensures AudioHistory(Post(s, sent)) == AudioHistory(s) + AudioOf(sent)
  {
    hide CmOf, DmOf, AudioOf;
    PartsConcat(s.router, sent);
    ConcatAssociative(s.cmQueue, CmOf(s.router), CmOf(sent));
    ConcatAssociative(s.dmQueue, DmOf(s.router), DmOf(sent));
    ConcatAssociative(s.heard + s.audioQueue, AudioOf(s.router), AudioOf(sent));
  }

  /** The router keeps the order of the messages for each component. */
  lemma ForwardPending(s: System)
    requires s.router != []
    ensures CmPending(ForwardOne(s)) == CmPending(s)
    ensures DmPending(ForwardOne(s)) == DmPending(s)
    ensures AudioHistory(ForwardOne(s)) == AudioHistory(s)
  {
    hide CmOf, DmOf, AudioOf;
    var first, rest := s.router[..1], s.router[1..];
    assert s.router == first + rest;
    PartsConcat(first, rest);
    ConcatAssociative(s.cmQueue, CmOf(first), CmOf(rest));
    ConcatAssociative(s.dmQueue, DmOf(first), DmOf(rest));
    ConcatAssociative(s.heard, s.audioQueue, AudioOf(first));
    ConcatAssociative(s.heard + s.audioQueue, AudioOf(first), AudioOf(rest));
  }

  lemma TakePending(s: System)
    ensures s.cmQueue != [] ==>
              var t := s.(cmQueue := s.cmQueue[1..]);
              && CmPending(s) == [s.cmQueue[0]] + CmPending(t)
              && CmPending(s)[1..] == CmPending(t)
              && DmPending(s) == DmPending(t)
              && AudioHistory(s) == AudioHistory(t)
    ensures s.dmQueue != [] ==>
              var t := s.(dmQueue := s.dmQueue[1..]);
              && DmPending(s) == [s.dmQueue[0]] + DmPending(t)
              && DmPending(s)[1..] == DmPending(t)
              && CmPending(s) == CmPending(t)
              && AudioHistory(s) == AudioHistory(t)
    ensures s.audioQueue != [] ==>
              var t := s.(audioQueue := s.audioQueue[1..], heard := s.heard + [s.audioQueue[0]]);
              && AudioHistory(t) == AudioHistory(s)
              && CmPending(s) == CmPending(t)
              && DmPending(s) == DmPending(t)
  {
    hide CmOf, DmOf, AudioOf;
    if s.audioQueue != [] {
      var first, rest := [s.audioQueue[0]], s.audioQueue[1..];
      assert s.audioQueue == first + rest;
      ConcatAssociative(s.heard, first, rest);
    }
  }

  predicate SameQueues(s: System, t: System) {
    && s.router == t.router
    && s.cmQueue == t.cmQueue
    && s.dmQueue == t.dmQueue
    && s.audioQueue == t.audioQueue
    && s.heard == t.heard
  }

  lemma ManagePending(s: System)
    requires s.dmQueue != []
    ensures SameQueues(ManageOne(s), s.(dmQueue := s.dmQueue[1..]))
  {
    hide D.Manage;
  }

  lemma HearPending(s: System, a: O.Answers)
    requires s.audioQueue != []
    ensures SameQueues(HearOne(s, a), s.(audioQueue := s.audioQueue[1..], heard := s.heard + [s.audioQueue[0]]))
  {
    hide O.Command;
  }

  lemma MailboxPending(s: System, id: ConnectionId)
    requires id in s.running && id in s.connections && s.connections[id] != []
    ensures SameQueues(MailboxOne(s, id), s)
  {
    hide D.OnEvent;
  }

  lemma SamePending(s: System, t: System)
    requires SameQueues(s, t)
    ensures CmPending(s) == CmPending(t) && DmPending(s) == DmPending(t) && AudioHistory(s) == AudioHistory(t)
  {
    hide CmOf, DmOf, AudioOf;
  }

  lemma LocalPending(c: D.Config, s: System, step: Step)
    requires Enabled(c, s, step)
    ensures var local := Local(c, s, step);
            && CmPending(local) == (if step.ManagerStep? then CmPending(s)[1..] else CmPending(s))
            && (step.ManagerStep? ==> CmPending(s) != [] && CmPending(s)[0] == s.cmQueue[0])
            && DmPending(local) == (if step.DeviceManagerStep? then DmPending(s)[1..] else DmPending(s))
            && (step.DeviceManagerStep? ==> DmPending(s) != [] && DmPending(s)[0] == s.dmQueue[0])
            && AudioHistory(local) == AudioHistory(s)
  {
    hide CmPending, DmPending, AudioHistory, ForwardOne, ManageOne, HearOne, MailboxOne, M.Handle, D.React;
    var local := Local(c, s, step);
    match step
    case Forward => ForwardPending(s);
    case ManagerStep(_) =>
      TakePending(s);
      SamePending(local, s.(cmQueue := s.cmQueue[1..]));
    case DeviceManagerStep =>
      TakePending(s);
      ManagePending(s);
      SamePending(local, s.(dmQueue := s.dmQueue[1..]));
    case MailboxEvent(id) =>
      MailboxPending(s, id);
      SamePending(local, s);
    case AudioStep(a) =>
      TakePending(s);
      HearPending(s, a);
      SamePending(local, s.(audioQueue := s.audioQueue[1..], heard := s.heard + [s.audioQueue[0]]));
    case _ => SamePending(local, s);
  }

  /** A step takes at most the head of one queue and adds what it sends at the end of the others. */
  lemma StepPending(c: D.Config, s: System, step: Step)
    requires Enabled(c, s, step)
    ensures var after, sent := Apply(c, s, step), Sent(c, s, step);
            && CmPending(after) == (if step.ManagerStep? then CmPending(s)[1..] else CmPending(s)) + CmOf(sent)
            && (step.ManagerStep? ==> CmPending(s) != [] && CmPending(s)[0] == s.cmQueue[0])
            && DmPending(after) == (if step.DeviceManagerStep? then DmPending(s)[1..] else DmPending(s)) + DmOf(sent)
            && (step.DeviceManagerStep? ==> DmPending(s) != [] && DmPending(s)[0] == s.dmQueue[0])
            && AudioHistory(after) == AudioHistory(s) + AudioOf(sent)
  {
    hide Local, Sent, CmPending, DmPending, AudioHistory, Post;
    LocalPending(c, s, step);
    PostPending(Local(c, s, step), Sent(c, s, step));
  }

  // ----- The life of a connection id -----

  function Born(q: seq<DmEvent>): multiset<ConnectionId> {
    multiset(FilterMap(q, (e: DmEvent) => if e.NewDeviceConnection? then Some(e.id) else None))
  }

  function Ending(q: seq<DmEvent>): multiset<ConnectionId> {
    multiset(FilterMap(q, (e: DmEvent) => if e.RemoveConnection? then Some(e.id) else None))
  }

  function Forgotten(q: seq<CmEvent>): multiset<ConnectionId> {
    multiset(FilterMap(q, (e: CmEvent) => if e.RemoveDataConnections? then Some(e.id) else None))
  }

  lemma IdsConcat(dm: seq<DmEvent>, moreDm: seq<DmEvent>, cm: seq<CmEvent>, moreCm: seq<CmEvent>)
    ensures Born(dm + moreDm) == Born(dm) + Born(moreDm)
    ensures Ending(dm + moreDm) == Ending(dm) + Ending(moreDm)
    ensures Forgotten(cm + moreCm) == Forgotten(cm) + Forgotten(moreCm)
  {
    hide FilterMap;
    FilterMapConcat(dm, moreDm, (e: DmEvent) => if e.NewDeviceConnection? then Some(e.id) else None);
    FilterMapConcat(dm, moreDm, (e: DmEvent) => if e.RemoveConnection? then Some(e.id) else None);
    FilterMapConcat(cm, moreCm, (e: CmEvent) => if e.RemoveDataConnections? then Some(e.id) else None);
  }

  lemma DmIdsOne(e: DmEvent)
    ensures Born([e]) == if e.NewDeviceConnection? then multiset{e.id} else multiset{}
    ensures Ending([e]) == if e.RemoveConnection? then multiset{e.id} else multiset{}
  {
    FilterMapOne(e, (e: DmEvent) => if e.NewDeviceConnection? then Some(e.id) else None);
    FilterMapOne(e, (e: DmEvent) => if e.RemoveConnection? then Some(e.id) else None);
  }

  lemma CmIdsOne(e: CmEvent)
    ensures Forgotten([e]) == if e.RemoveDataConnections? then multiset{e.id} else multiset{}
  {
    FilterMapOne(e, (e: CmEvent) => if e.RemoveDataConnections? then Some(e.id) else None);
  }

  /** Where the connection ids are. */
  datatype Census = Census(
    json: set<ConnectionId>, nextId: ConnectionId, born: multiset<ConnectionId>, running: set<ConnectionId>,
    ending: multiset<ConnectionId>, forgotten: multiset<ConnectionId>,
    connections: set<ConnectionId>, leaving: set<ConnectionId>, dead: set<ConnectionId>)

  function CensusOf(s: System): Census {
    Census(s.manager.json.Keys, s.manager.nextId, Born(DmPending(s)), s.running.Keys, Ending(DmPending(s)),
           Forgotten(CmPending(s)), s.connections.Keys, s.leaving, s.dead)
  }

  /** The only ways in which an id can move. */
  datatype Move =
    | Stay
    | Announce
    | Start(id: ConnectionId)
    | Quit(id: ConnectionId)
    | Die(id: ConnectionId)
    | Remove(id: ConnectionId)
    | Forget(id: ConnectionId)

  predicate Possible(c: Census, m: Move) {
    match m
    case Stay => true
    case Announce => c.nextId < M.LAST_ID
    case Start(id) => id in c.born
    case Quit(id) => id in c.running
    case Die(id) => id in c.running
    case Remove(id) => id in c.ending
    case Forget(id) => id in c.forgotten
  }

  function Moved(c: Census, m: Move): Census
    requires Possible(c, m)
  {
    match m
    case Stay => c
    case Announce => c.(json := c.json + {c.nextId}, nextId := c.nextId + 1, born := c.born + multiset{c.nextId})
    case Start(id) =>
      c.(born := c.born - multiset{id}, running := c.running + {id}, connections := c.connections + {id})
    case Quit(id) => c.(running := c.running - {id}, leaving := c.leaving + {id}, ending := c.ending + multiset{id})
    case Die(id) => c.(running := c.running - {id}, dead := c.dead + {id})
    case Remove(id) =>
      c.(ending := c.ending - multiset{id}, connections := c.connections - {id}, leaving := c.leaving - {id},
         forgotten := c.forgotten + multiset{id})
    case Forget(id) => c.(forgotten := c.forgotten - multiset{id}, json := c.json - {id})
  }

  function One(b: bool): nat {
    if b then 1 else 0
  }

  /** A registered id is in exactly one place, and an id that is not registered is nowhere. */
  predicate BalancedAt(c: Census, id: ConnectionId) {
    && c.born[id] + One(id in c.running) + One(id in c.dead) + c.ending[id] + c.forgotten[id] == One(id in c.json)
    && c.ending[id] == One(id in c.leaving)
    && (id in c.connections <==> id in c.running || id in c.leaving || id in c.dead)
    && (id in c.json ==> id < c.nextId)
  }

  ghost predicate Balanced(c: Census) {
    forall id: ConnectionId :: BalancedAt(c, id)
  }

  lemma MovedBalanced(c: Census, m: Move)
    requires Balanced(c) && Possible(c, m)
    ensures Balanced(Moved(c, m))
  {
    hide BalancedAt;
    forall id: ConnectionId ensures BalancedAt(Moved(c, m), id) {
      assert BalancedAt(c, id) && (m.Announce? ==> BalancedAt(c, c.nextId));
      MovedBalancedAt(c, m, id);
    }
  }

  lemma MovedBalancedAt(c: Census, m: Move, id: ConnectionId)
    requires BalancedAt(c, id) && Possible(c, m) && (m.Announce? ==> BalancedAt(c, c.nextId))
    ensures BalancedAt(Moved(c, m), id)
  {
  }

  // ----- Phases -----

  /** `Stranded`: the task has panicked, and nothing removes the connection any more. */
  datatype Phase = Unborn | Announced | Live | Closing | Forgetting | Gone | Stranded

  /** Whether the id is where the phase says; for a balanced census exactly one phase is true. */
  predicate In(c: Census, id: ConnectionId, phase: Phase) {
    match phase
    case Unborn => id >= c.nextId
    case Announced => id in c.born
    case Live => id in c.running
    case Closing => id in c.ending
    case Forgetting => id in c.forgotten
    case Gone => id < c.nextId && id !in c.json
    case Stranded => id in c.dead
  }

  function Following(phase: Phase): Phase {
    match phase
    case Unborn => Announced
    case Announced => Live
    case Live => Closing
    case Closing => Forgetting
    case Forgetting => Gone
    case Gone => Gone
    case Stranded => Stranded
  }

  function PhaseIn(c: Census, id: ConnectionId): Phase {
    if id in c.born then Announced else if id in c.running then Live else if id in c.ending then Closing
    else if id in c.forgotten then Forgetting else if id in c.dead then Stranded
    else if id < c.nextId then Gone else Unborn
  }

  lemma PhaseIsUnique(c: Census, id: ConnectionId)
    requires Balanced(c)
    ensures forall p: Phase :: In(c, id, p) <==> p == PhaseIn(c, id)
  {
    assert BalancedAt(c, id);
  }

  /** An id stays in its phase, goes to the next one, or is stranded while it is live. */
  lemma PhaseAdvances(c: Census, m: Move, id: ConnectionId, phase: Phase)
    requires Balanced(c) && Possible(c, m) && In(c, id, phase)
    ensures || In(Moved(c, m), id, phase)
            || In(Moved(c, m), id, Following(phase))
            || (phase == Live && In(Moved(c, m), id, Stranded))
  {
    assert BalancedAt(c, id) && BalancedAt(c, c.nextId);
  }
}
