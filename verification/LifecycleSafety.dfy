/**
 What holds in every state of every run of the components: connection ids live
 once and in order, requests reach the connection manager only for registered
 connections, resources have registered owners, and playing is exclusive.
 */
module LifecycleSafety {
  import opened Sequences
  import opened Messages
  import opened Lifecycle
  import M = ConnectionManager
  import D = Devices
  import O = OboeLogic

  // ----- What is sent -----

  /** Each task knows its own id, and only replies wait in it. */
  ghost predicate TasksSound(s: System) {
    forall id: ConnectionId :: id in s.running ==> s.running[id].id == id && D.OnlyReplies(s.running[id].waiting)
  }

  predicate Names(e: CmEvent, id: ConnectionId) {
    (e.ConnectToData? || e.SetNextResourceRequest?) && e.id == id
  }

  predicate Nameless(e: CmEvent) {
    e.NewJsonStream? || e.NewDataStream? || e.ConnectTo?
  }

  lemma NothingSent()
    ensures CmOf([]) == [] && DmOf([]) == [] && AudioOf([]) == []
    ensures Born([]) == Ending([]) == Forgotten([]) == multiset{}
  {
  }

  function CmPart(m: RouterMessage): seq<CmEvent> {
    if m.Cm? then [m.cm] else []
  }

  function DmPart(m: RouterMessage): seq<DmEvent> {
    if m.Dm? then [m.dm] else []
  }

  function AudioPart(m: RouterMessage): seq<AudioEvent> {
    if m.Audio? then [m.audio] else []
  }

  /** No component sends more than two messages in one step. */
  lemma FewSent(sent: seq<RouterMessage>)
    ensures |sent| == 0 ==> CmOf(sent) == [] && DmOf(sent) == [] && AudioOf(sent) == []
    ensures |sent| == 1 ==>
              CmOf(sent) == CmPart(sent[0]) && DmOf(sent) == DmPart(sent[0]) && AudioOf(sent) == AudioPart(sent[0])
    ensures |sent| == 2 ==>
              && CmOf(sent) == CmPart(sent[0]) + CmPart(sent[1])
              && DmOf(sent) == DmPart(sent[0]) + DmPart(sent[1])
              && AudioOf(sent) == AudioPart(sent[0]) + AudioPart(sent[1])
  {
    hide *;
    NothingSent();
    if |sent| == 1 {
      OneSent(sent[0]);
      assert sent == [sent[0]];
    } else if |sent| == 2 {
      OneSent(sent[0]);
      OneSent(sent[1]);
      PartsConcat([sent[0]], [sent[1]]);
      assert sent == [sent[0]] + [sent[1]];
    }
  }

  lemma OneSent(m: RouterMessage)
    ensures CmOf([m]) == CmPart(m) && DmOf([m]) == DmPart(m) && AudioOf([m]) == AudioPart(m)
  {
    hide CmOf, DmOf, AudioOf;
    PartsOne(m);
  }

  /** There is a new connection, and an id left for it. */
  predicate Announces(m: M.Manager, e: CmEvent) {
    e.NewJsonStream? && m.nextId != M.LAST_ID
  }

  lemma ManagerSends(m: M.Manager, e: CmEvent, a: M.Answers)
    requires M.Legal(m, e, a)
    ensures var sent := M.Handle(m, e, a).sent;
            && DmOf(sent) == (if Announces(m, e) then [NewDeviceConnection(m.nextId, e.usb)] else [])
            && (CmOf(sent) == [] || exists x :: CmOf(sent) == [x] && Nameless(x))
  {
    hide DmOf, CmOf, AudioOf, M.Check;
    FewSent(M.Handle(m, e, a).sent);
  }

  lemma DeviceManagerSends(connections: D.Mailboxes, e: DmEvent)
    requires D.Manage(connections, e).Managed?
    ensures var sent := D.Manage(connections, e).toRouter;
            && DmOf(sent) == [] && AudioOf(sent) == []
            && CmOf(sent) == if e.RemoveConnection? then [RemoveDataConnections(e.id)] else []
  {
    hide DmOf, CmOf, AudioOf, D.Tell, D.TellAll;
    FewSent(D.Manage(connections, e).toRouter);
  }

  lemma TaskSends(c: D.Config, d: D.Device, m: D.DeviceMessage)
    requires D.React(c, d, m).Reaction?
    ensures var sent := D.React(c, d, m).toRouter;
            && DmOf(sent) == []
            && (CmOf(sent) == [] || exists x :: CmOf(sent) == [x] && Names(x, d.id))
            && (AudioOf(sent) == [] || AudioOf(sent) == [StartAudioStream])
  {
    hide DmOf, CmOf, AudioOf;
    var sent := D.React(c, d, m).toRouter;
    FewSent(sent);
    assert sent != [] && sent[0].Cm? ==> Names(sent[0].cm, d.id);
  }

  lemma OutputSends(s: System, step: Step)
    requires step.AudioStep? ==> s.audioQueue != []
    requires step.AudioStep? || step.OboeStep?
    ensures var r := if step.AudioStep? then O.Command(s.oboe, s.audioQueue[0], step.audioAnswers)
                     else O.Notice(s.oboe, step.event);
            r.Next? ==>
              && CmOf(r.toRouter) == [] && AudioOf(r.toRouter) == []
              && (DmOf(r.toRouter) == [] || exists id :: DmOf(r.toRouter) == [SendStartAudioStream(id)])
  {
    hide DmOf, CmOf, AudioOf;
    var r := if step.AudioStep? then O.Command(s.oboe, s.audioQueue[0], step.audioAnswers)
             else O.Notice(s.oboe, step.event);
    if r.Next? {
      FewSent(r.toRouter);
    }
  }

  lemma LeaverSends(id: ConnectionId)
    ensures DmOf([Dm(RemoveConnection(id))]) == [RemoveConnection(id)]
    ensures CmOf([Dm(RemoveConnection(id))]) == [] && AudioOf([Dm(RemoveConnection(id))]) == []
    ensures DmOf([Ui(ConnectionError(id)), Dm(RemoveConnection(id))]) == [RemoveConnection(id)]
    ensures CmOf([Ui(ConnectionError(id)), Dm(RemoveConnection(id))]) == []
    ensures AudioOf([Ui(ConnectionError(id)), Dm(RemoveConnection(id))]) == []
  {
    hide DmOf, CmOf, AudioOf;
    FewSent([Dm(RemoveConnection(id))]);
    FewSent([Ui(ConnectionError(id)), Dm(RemoveConnection(id))]);
  }

  // ----- Every step is one move of one id -----

  function MoveOf(c: D.Config, s: System, step: Step): Move
    requires Enabled(c, s, step)
  {
    match step
    case ManagerStep(_) =>
      (match s.cmQueue[0]
       case NewJsonStream(_, _) => if s.manager.nextId == M.LAST_ID then Stay else Announce
       case RemoveDataConnections(id) => Forget(id)
       case _ => Stay)
    case DeviceManagerStep =>
      (match s.dmQueue[0]
       case NewDeviceConnection(id, _) => Move.Start(id)
       case RemoveConnection(id) => Move.Remove(id)
       case _ => Stay)
    case MailboxEvent(id) => if s.connections[id][0].Disconnect? then Move.Quit(id) else Stay
    case ConnectionBreaks(id) => Move.Quit(id)
    case TaskPanics(id, _) => Move.Die(id)
    case _ => Stay
  }

  ghost predicate Sound(s: System) {
    Balanced(CensusOf(s)) && TasksSound(s)
  }

  lemma DmHead(q: seq<DmEvent>)
    requires q != []
    ensures Born(q) == Born([q[0]]) + Born(q[1..]) && Ending(q) == Ending([q[0]]) + Ending(q[1..])
  {
    hide *;
    assert q == [q[0]] + q[1..];
    IdsConcat([q[0]], q[1..], [], []);
  }

  lemma CmHead(q: seq<CmEvent>)
    requires q != []
    ensures Forgotten(q) == Forgotten([q[0]]) + Forgotten(q[1..])
  {
    hide *;
    assert q == [q[0]] + q[1..];
    IdsConcat([], [], [q[0]], q[1..]);
  }

  lemma MoveIsPossible(c: D.Config, s: System, step: Step)
    requires Enabled(c, s, step)
    ensures Possible(CensusOf(s), MoveOf(c, s, step))
  {
    hide Born, Ending, Forgotten, CmPending, DmPending, AudioHistory, Local, Sent, Apply;
    StepPending(c, s, step);
    if step.ManagerStep? {
      CmHead(CmPending(s));
      CmIdsOne(s.cmQueue[0]);
    } else if step.DeviceManagerStep? {
      DmHead(DmPending(s));
      DmIdsOne(s.dmQueue[0]);
    }
  }

  /** The ids that messages announce, ask to remove, and ask to forget. */
  ghost predicate SendIds(sent: seq<RouterMessage>, born: multiset<ConnectionId>, ending: multiset<ConnectionId>,
                          forgotten: multiset<ConnectionId>) {
    Born(DmOf(sent)) == born && Ending(DmOf(sent)) == ending && Forgotten(CmOf(sent)) == forgotten
  }

  lemma OutsideSendsIds(m: RouterMessage)
    requires FromOutside(m)
    ensures SendIds([m], multiset{}, multiset{}, multiset{})
  {
    hide Born, Ending, Forgotten, DmOf, CmOf;
    NothingSent();
    PartsOne(m);
    OutsideIds(m);
  }

  lemma ManagerSendsIds(m: M.Manager, e: CmEvent, a: M.Answers)
    requires M.Legal(m, e, a)
    ensures SendIds(M.Handle(m, e, a).sent,
                    if Announces(m, e) then multiset{m.nextId} else multiset{}, multiset{}, multiset{})
  {
    hide Born, Ending, Forgotten, DmOf, CmOf, M.Handle;
    NothingSent();
    ManagerSends(m, e, a);
    NamelessIds(CmOf(M.Handle(m, e, a).sent));
    if e.NewJsonStream? {
      DmIdsOne(NewDeviceConnection(m.nextId, e.usb));
    }
  }

  lemma DeviceManagerSendsIds(connections: D.Mailboxes, e: DmEvent)
    requires D.Manage(connections, e).Managed?
    ensures SendIds(D.Manage(connections, e).toRouter, multiset{}, multiset{},
                    if e.RemoveConnection? then multiset{e.id} else multiset{})
  {
    hide Born, Ending, Forgotten, DmOf, CmOf, D.Manage;
    NothingSent();
    DeviceManagerSends(connections, e);
    if e.RemoveConnection? {
      CmIdsOne(RemoveDataConnections(e.id));
    }
  }

  lemma TaskSendsIds(c: D.Config, d: D.Device, m: D.DeviceMessage)
    requires D.React(c, d, m).Reaction?
    ensures SendIds(D.React(c, d, m).toRouter, multiset{}, multiset{}, multiset{})
  {
    hide Born, Ending, Forgotten, DmOf, CmOf, D.React;
    NothingSent();
    TaskSends(c, d, m);
    NamingIds(CmOf(D.React(c, d, m).toRouter), d.id);
  }

  lemma LeaverSendsIds(id: ConnectionId)
    ensures SendIds([Dm(RemoveConnection(id))], multiset{}, multiset{id}, multiset{})
    ensures SendIds([Ui(ConnectionError(id)), Dm(RemoveConnection(id))], multiset{}, multiset{id}, multiset{})
  {
    hide Born, Ending, Forgotten, DmOf, CmOf;
    NothingSent();
    LeaverSends(id);
    DmIdsOne(RemoveConnection(id));
  }

  lemma OutputSendsIds(s: System, step: Step)
    requires step.AudioStep? ==> s.audioQueue != []
    requires step.AudioStep? || step.OboeStep?
    ensures var r := if step.AudioStep? then O.Command(s.oboe, s.audioQueue[0], step.audioAnswers)
                     else O.Notice(s.oboe, step.event);
            r.Next? ==> SendIds(r.toRouter, multiset{}, multiset{}, multiset{})
  {
    hide Born, Ending, Forgotten, DmOf, CmOf, O.Command, O.Notice;
    NothingSent();
    OutputSends(s, step);
    var r := if step.AudioStep? then O.Command(s.oboe, s.audioQueue[0], step.audioAnswers)
             else O.Notice(s.oboe, step.event);
    if r.Next? {
      StartIds(DmOf(r.toRouter));
    }
  }

  lemma SentIds(c: D.Config, s: System, step: Step)
    requires Enabled(c, s, step) && Sound(s)
    requires step.DeviceManagerStep? ==> D.Manage(s.connections, s.dmQueue[0]).Managed?
    ensures var m := MoveOf(c, s, step);
            SendIds(Sent(c, s, step),
                    if m.Announce? then multiset{s.manager.nextId} else multiset{},
                    if m.Quit? then multiset{m.id} else multiset{},
                    if m.Remove? then multiset{m.id} else multiset{})
  {
    hide SendIds, Balanced, CensusOf, M.Handle, D.Manage, D.React, D.OnEvent, O.Command, O.Notice;
    SendNothing();
    match step
    case Outside(m) => OutsideSendsIds(m);
    case Forward =>
    case ManagerStep(a) => ManagerSendsIds(s.manager, s.cmQueue[0], a);
    case DeviceManagerStep => DeviceManagerSendsIds(s.connections, s.dmQueue[0]);
    case PeerMessage(id, m) => TaskSendsIds(c, s.running[id], m);
    case TaskPanics(_, _) =>
    case MailboxEvent(id) =>
      LeaverSendsIds(id);
      D.EventIsSilent(s.running[id], s.connections[id][0]);
    case ConnectionBreaks(id) => LeaverSendsIds(id);
    case AudioStep(a) => OutputSendsIds(s, step);
    case OboeStep(e) => OutputSendsIds(s, step);
  }

  lemma SendNothing()
    ensures SendIds([], multiset{}, multiset{}, multiset{})
  {
    NothingSent();
  }

  lemma OutsideIds(m: RouterMessage)
    requires FromOutside(m)
    ensures m.Cm? ==> Forgotten([m.cm]) == multiset{}
    ensures m.Dm? ==> Born([m.dm]) == multiset{} && Ending([m.dm]) == multiset{}
  {
    if m.Cm? {
      CmIdsOne(m.cm);
    } else if m.Dm? {
      DmIdsOne(m.dm);
    }
  }

  lemma NamelessIds(q: seq<CmEvent>)
    requires q == [] || exists x :: q == [x] && Nameless(x)
    ensures Forgotten(q) == multiset{}
  {
    if q != [] {
      CmIdsOne(q[0]);
      assert q == [q[0]];
    }
  }

  lemma NamingIds(q: seq<CmEvent>, id: ConnectionId)
    requires q == [] || exists x :: q == [x] && Names(x, id)
    ensures Forgotten(q) == multiset{}
  {
    if q != [] {
      CmIdsOne(q[0]);
      assert q == [q[0]];
    }
  }

  lemma StartIds(q: seq<DmEvent>)
    requires q == [] || exists id :: q == [SendStartAudioStream(id)]
    ensures Born(q) == multiset{} && Ending(q) == multiset{}
  {
    if q != [] {
      DmIdsOne(q[0]);
      assert q == [q[0]];
    }
  }

  /** The connection manager changes its ids only by the move. */
  lemma ManagerSets(m: M.Manager, e: CmEvent, a: M.Answers)
    requires M.Legal(m, e, a)
    ensures var after := M.Handle(m, e, a).manager;
            && after.json.Keys == (if Announces(m, e) then m.json.Keys + {m.nextId}
                                   else if e.RemoveDataConnections? then m.json.Keys - {e.id}
                                   else m.json.Keys)
            && after.nextId == if Announces(m, e) then m.nextId + 1 else m.nextId
  {
    hide M.Check;
  }

  /** The ids of `local` are those of `s` after the move. */
  ghost predicate Shifted(s: System, local: System, m: Move) {
    && local.manager.json.Keys == (match m
                                   case Announce => s.manager.json.Keys + {s.manager.nextId}
                                   case Forget(id) => s.manager.json.Keys - {id}
                                   case _ => s.manager.json.Keys)
    && local.manager.nextId as int == s.manager.nextId + (if m.Announce? then 1 else 0)
    && local.running.Keys == (match m
                              case Start(id) => s.running.Keys + {id}
                              case Quit(id) => s.running.Keys - {id}
                              case Die(id) => s.running.Keys - {id}
                              case _ => s.running.Keys)
    && local.connections.Keys == (match m
                                  case Start(id) => s.connections.Keys + {id}
                                  case Remove(id) => s.connections.Keys - {id}
                                  case _ => s.connections.Keys)
    && local.leaving == (match m
                         case Quit(id) => s.leaving + {id}
                         case Remove(id) => s.leaving - {id}
                         case _ => s.leaving)
    && local.dead == (if m.Die? then s.dead + {m.id} else s.dead)
  }

  lemma LocalSets(c: D.Config, s: System, step: Step)
    requires Enabled(c, s, step)
    requires step.DeviceManagerStep? ==> D.Manage(s.connections, s.dmQueue[0]).Managed?
    ensures Shifted(s, Local(c, s, step), MoveOf(c, s, step))
  {
    hide M.Handle, D.React, D.OnEvent, O.Command, O.Notice;
    if step.ManagerStep? {
      ManagerSets(s.manager, s.cmQueue[0], step.answers);
    }
  }

  lemma NoUnknownRemoval(s: System)
    requires s.dmQueue != [] && Sound(s)
    ensures D.Manage(s.connections, s.dmQueue[0]).Managed?
    ensures s.dmQueue[0].RemoveConnection? ==> s.dmQueue[0].id in s.connections && s.dmQueue[0].id in s.leaving
    ensures s.dmQueue[0].NewDeviceConnection? ==> s.dmQueue[0].id !in s.connections
  {
    hide Born, Ending, Forgotten, CmPending, DmPending;
    var e := s.dmQueue[0];
    TakePending(s);
    DmHead(DmPending(s));
    DmIdsOne(e);
    if e.RemoveConnection? || e.NewDeviceConnection? {
      assert BalancedAt(CensusOf(s), e.id);
    }
  }

  lemma QueuesMoved(c: D.Config, s: System, step: Step)
    requires Enabled(c, s, step) && Sound(s)
    ensures var after, m := Apply(c, s, step), MoveOf(c, s, step);
            && Born(DmPending(after)) == Born(DmPending(s)) - (if m.Start? then multiset{m.id} else multiset{}) +
                                         (if m.Announce? then multiset{s.manager.nextId} else multiset{})
            && Ending(DmPending(after)) == Ending(DmPending(s)) - (if m.Remove? then multiset{m.id} else multiset{}) +
                                           (if m.Quit? then multiset{m.id} else multiset{})
            && Forgotten(CmPending(after)) == Forgotten(CmPending(s)) - (if m.Forget? then multiset{m.id} else multiset{}) +
                                              (if m.Remove? then multiset{m.id} else multiset{})
  {
    hide *;
    HeadIds(c, s, step);
    if step.DeviceManagerStep? {
      NoUnknownRemoval(s);
    }
    StepPending(c, s, step);
    SentIds(c, s, step);
    var sent := Sent(c, s, step);
    var m := MoveOf(c, s, step);
    SendsAre(sent, if m.Announce? then multiset{s.manager.nextId} else multiset{},
             if m.Quit? then multiset{m.id} else multiset{}, if m.Remove? then multiset{m.id} else multiset{});
    DmMoved(DmPending(s), step.DeviceManagerStep?, DmOf(sent));
    CmMoved(CmPending(s), step.ManagerStep?, CmOf(sent));
  }

  lemma SendsAre(sent: seq<RouterMessage>, born: multiset<ConnectionId>, ending: multiset<ConnectionId>,
                 forgotten: multiset<ConnectionId>)
    requires SendIds(sent, born, ending, forgotten)
    ensures Born(DmOf(sent)) == born && Ending(DmOf(sent)) == ending && Forgotten(CmOf(sent)) == forgotten
  {
  }

  /** What the head of a queue says about the move. */
  lemma HeadIds(c: D.Config, s: System, step: Step)
    requires Enabled(c, s, step)
    ensures var m := MoveOf(c, s, step);
            && (if step.DeviceManagerStep? then
                  && s.dmQueue != []
                  && Born([s.dmQueue[0]]) == (if m.Start? then multiset{m.id} else multiset{})
                  && Ending([s.dmQueue[0]]) == (if m.Remove? then multiset{m.id} else multiset{})
                else !m.Start? && !m.Remove?)
            && (if step.ManagerStep? then
                  && s.cmQueue != []
                  && Forgotten([s.cmQueue[0]]) == (if m.Forget? then multiset{m.id} else multiset{})
                else !m.Announce? && !m.Forget?)
            && (m.Quit? ==> !step.DeviceManagerStep? && !step.ManagerStep?)
  {
    hide Born, Ending, Forgotten;
    if step.DeviceManagerStep? {
      DmIdsOne(s.dmQueue[0]);
    } else if step.ManagerStep? {
      CmIdsOne(s.cmQueue[0]);
    }
  }

  lemma DmMoved(q: seq<DmEvent>, took: bool, sent: seq<DmEvent>)
    requires took ==> q != []
    ensures var after := (if took then q[1..] else q) + sent;
            && Born(after) == Born(q) - (if took then Born([q[0]]) else multiset{}) + Born(sent)
            && Ending(after) == Ending(q) - (if took then Ending([q[0]]) else multiset{}) + Ending(sent)
  {
    hide *;
    if took {
      DmHead(q);
    }
    IdsConcat(if took then q[1..] else q, sent, [], []);
  }

  lemma CmMoved(q: seq<CmEvent>, took: bool, sent: seq<CmEvent>)
    requires took ==> q != []
    ensures Forgotten((if took then q[1..] else q) + sent) ==
              Forgotten(q) - (if took then Forgotten([q[0]]) else multiset{}) + Forgotten(sent)
  {
    hide *;
    if took {
      CmHead(q);
    }
    IdsConcat([], [], if took then q[1..] else q, sent);
  }

  ghost predicate SetsOf(s: System, census: Census) {
    && s.manager.json.Keys == census.json
    && s.manager.nextId == census.nextId
    && s.running.Keys == census.running
    && s.connections.Keys == census.connections
    && s.leaving == census.leaving
    && s.dead == census.dead
  }

  lemma ShiftedIsMoved(s: System, local: System, m: Move, sent: seq<RouterMessage>)
    requires Possible(CensusOf(s), m) && Shifted(s, local, m)
    ensures SetsOf(Post(local, sent), Moved(CensusOf(s), m))
  {
    hide Born, Ending, Forgotten, CmPending, DmPending;
  }

  lemma SetsMoved(c: D.Config, s: System, step: Step)
    requires Enabled(c, s, step) && Sound(s)
    ensures Possible(CensusOf(s), MoveOf(c, s, step))
    ensures SetsOf(Apply(c, s, step), Moved(CensusOf(s), MoveOf(c, s, step)))
  {
    hide *;
    MoveIsPossible(c, s, step);
    HeadIds(c, s, step);
    if step.DeviceManagerStep? {
      NoUnknownRemoval(s);
    }
    LocalSets(c, s, step);
    ShiftedIsMoved(s, Local(c, s, step), MoveOf(c, s, step), Sent(c, s, step));
    ApplyIs(c, s, step);
  }

  lemma ApplyIs(c: D.Config, s: System, step: Step)
    requires Enabled(c, s, step)
    ensures Apply(c, s, step) == Post(Local(c, s, step), Sent(c, s, step))
  {
  }

  lemma MovedQueues(c: Census, m: Move)
    requires Possible(c, m)
    ensures var moved := Moved(c, m);
            && moved.born == c.born - (if m.Start? then multiset{m.id} else multiset{}) +
                             (if m.Announce? then multiset{c.nextId} else multiset{})
            && moved.ending == c.ending - (if m.Remove? then multiset{m.id} else multiset{}) +
                               (if m.Quit? then multiset{m.id} else multiset{})
            && moved.forgotten == c.forgotten - (if m.Forget? then multiset{m.id} else multiset{}) +
                                  (if m.Remove? then multiset{m.id} else multiset{})
  {
    var id := if m.Announce? then c.nextId else if m.Stay? then 0 else m.id;
    AddNothing(c.born, id);
    AddNothing(c.ending, id);
    AddNothing(c.forgotten, id);
  }

  lemma AddNothing(ids: multiset<ConnectionId>, id: ConnectionId)
    ensures ids - multiset{} + multiset{} == ids
    ensures ids - multiset{} + multiset{id} == ids + multiset{id}
    ensures ids - multiset{id} + multiset{} == ids - multiset{id}
  {
  }

  /** Every step of the components is one move of the ids. */
  lemma StepIsMove(c: D.Config, s: System, step: Step)
    requires Enabled(c, s, step) && Sound(s)
    ensures Possible(CensusOf(s), MoveOf(c, s, step))
    ensures CensusOf(Apply(c, s, step)) == Moved(CensusOf(s), MoveOf(c, s, step))
  {
    hide Born, Ending, Forgotten, CmPending, DmPending, Balanced, Local, Sent, Enabled, MoveOf, Apply, Sound, Moved,
         Possible;
    SetsMoved(c, s, step);
    QueuesMoved(c, s, step);
    MovedQueues(CensusOf(s), MoveOf(c, s, step));
  }

  // ----- Requests and removals are in order -----

  predicate IsRequest(e: CmEvent) {
    e.ConnectToData? || e.SetNextResourceRequest?
  }

  /** Every request under way names a registered connection, and no removal of it is ahead. */
  ghost predicate Registered(json: set<ConnectionId>, q: seq<CmEvent>) {
    forall p :: 0 <= p < |q| && IsRequest(q[p]) ==>
      q[p].id in json && forall r :: 0 <= r < p ==> q[r] != RemoveDataConnections(q[p].id)
  }

  lemma RegisteredAppend(json: set<ConnectionId>, q: seq<CmEvent>, e: CmEvent)
    requires Registered(json, q)
    requires IsRequest(e) ==> e.id in json && RemoveDataConnections(e.id) !in q
    ensures Registered(json, q + [e])
  {
    var longer := q + [e];
    forall p | 0 <= p < |longer| && IsRequest(longer[p])
      ensures longer[p].id in json && forall r :: 0 <= r < p ==> longer[r] != RemoveDataConnections(longer[p].id)
    {
      if p < |q| {
        assert longer[p] == q[p];
      }
    }
  }

  lemma RegisteredTail(json: set<ConnectionId>, q: seq<CmEvent>, fewer: set<ConnectionId>)
    requires q != [] && Registered(json, q)
    requires json - (if q[0].RemoveDataConnections? then {q[0].id} else {}) <= fewer
    ensures Registered(fewer, q[1..])
  {
    var tail := q[1..];
    forall p | 0 <= p < |tail| && IsRequest(tail[p])
      ensures tail[p].id in fewer && forall r :: 0 <= r < p ==> tail[r] != RemoveDataConnections(tail[p].id)
    {
      assert tail[p] == q[p + 1] && q[0] != RemoveDataConnections(tail[p].id);
      forall r | 0 <= r < p ensures tail[r] != RemoveDataConnections(tail[p].id) {
        assert tail[r] == q[r + 1];
      }
    }
  }

  lemma {:induction false} RemovalIsCounted(q: seq<CmEvent>, id: ConnectionId)
    requires RemoveDataConnections(id) in q
    ensures id in Forgotten(q)
  {
    hide Forgotten;
    CmHead(q);
    CmIdsOne(q[0]);
    if q[0] != RemoveDataConnections(id) {
      RemovalIsCounted(q[1..], id);
    }
  }

  /** A live connection is registered, and its removal is not under way. */
  lemma LiveIsRegistered(s: System, id: ConnectionId)
    requires Sound(s) && id in s.running
    ensures id in s.manager.json && RemoveDataConnections(id) !in CmPending(s)
  {
    assert BalancedAt(CensusOf(s), id);
    hide Forgotten, CmPending;
    if RemoveDataConnections(id) in CmPending(s) {
      RemovalIsCounted(CmPending(s), id);
    }
  }

  lemma RegisteredAfter(json: set<ConnectionId>, q: seq<CmEvent>, sent: seq<CmEvent>)
    requires Registered(json, q)
    requires sent == [] || exists x :: sent == [x] && (IsRequest(x) ==> x.id in json && RemoveDataConnections(x.id) !in q)
    ensures Registered(json, q + sent)
  {
    hide Registered;
    if sent == [] {
      assert q + sent == q;
    } else {
      RegisteredAppend(json, q, sent[0]);
      assert sent == [sent[0]];
    }
  }

  lemma SentRequests(c: D.Config, s: System, step: Step)
    requires Enabled(c, s, step) && Sound(s)
    ensures var sent := CmOf(Sent(c, s, step));
            || sent == []
            || exists x ::
                 && sent == [x]
                 && (IsRequest(x) ==>
                       !step.ManagerStep? && x.id in s.manager.json && RemoveDataConnections(x.id) !in CmPending(s))
  {
    hide DmOf, CmOf, AudioOf, CmPending, Balanced, CensusOf, M.Handle, D.Manage, D.React, D.OnEvent, O.Command, O.Notice;
    NothingSent();
    match step
    case Outside(m) =>
      PartsOne(m);
    case Forward =>
    case ManagerStep(a) => ManagerSends(s.manager, s.cmQueue[0], a);
    case DeviceManagerStep =>
      if D.Manage(s.connections, s.dmQueue[0]).Managed? {
        DeviceManagerSends(s.connections, s.dmQueue[0]);
      }
    case PeerMessage(id, m) =>
      TaskSends(c, s.running[id], m);
      LiveIsRegistered(s, id);
    case TaskPanics(_, _) =>
    case MailboxEvent(id) =>
      LeaverSends(id);
      D.EventIsSilent(s.running[id], s.connections[id][0]);
    case ConnectionBreaks(id) => LeaverSends(id);
    case AudioStep(a) => OutputSends(s, step);
    case OboeStep(e) => OutputSends(s, step);
  }

  lemma StepRegistered(c: D.Config, s: System, step: Step)
    requires Enabled(c, s, step) && Sound(s) && Registered(s.manager.json.Keys, CmPending(s))
    ensures Registered(Apply(c, s, step).manager.json.Keys, CmPending(Apply(c, s, step)))
  {
    hide Registered, Sent, CmOf, CmPending, Sound, Balanced, Born, Ending, Forgotten, DmPending, Apply;
    StepPending(c, s, step);
    SentRequests(c, s, step);
    SetsMoved(c, s, step);
    var json, sent := Apply(c, s, step).manager.json.Keys, CmOf(Sent(c, s, step));
    if step.ManagerStep? {
      RegisteredTail(s.manager.json.Keys, CmPending(s), json);
      RegisteredAfter(json, CmPending(s)[1..], sent);
    } else {
      RegisteredAfter(json, CmPending(s), sent);
    }
  }

  // ----- Audio commands -----

  /** Playing is exclusive in the history, and whoever plays owns the play resource. */
  ghost predicate Follows(owner: Option<ConnectionId>, history: seq<AudioEvent>) {
    O.Exclusive(history) && (O.Playing(history) ==> owner == O.Player(history))
  }

  lemma FollowsAppend(before: Option<ConnectionId>, after: Option<ConnectionId>, history: seq<AudioEvent>, e: AudioEvent)
    requires Follows(before, history)
    requires e.StartPlaying? ==> before.None? && after == Some(e.senderId)
    requires !e.StartPlaying? && !e.StopPlayingAudio? && before.Some? ==> after == before
    ensures Follows(after, history + [e])
  {
    hide O.Player, O.Exclusive;
    O.PlayerAppend(history, e);
    O.ExclusiveAppend(history, e);
  }

  /** The connection manager starts playing only for the new owner of a resource that was free. */
  lemma ManagerFollows(m: M.Manager, e: CmEvent, a: M.Answers, history: seq<AudioEvent>)
    requires M.Legal(m, e, a) && M.Owned(m) && Follows(m.slots.play, history)
    ensures Follows(M.Handle(m, e, a).manager.slots.play, history + AudioOf(M.Handle(m, e, a).sent))
  {
    hide DmOf, CmOf, AudioOf, Follows;
    var h := M.Handle(m, e, a);
    var before, after := m.slots.play, h.manager.slots.play;
    FewSent(h.sent);
    assert history + [] == history;
    if AudioOf(h.sent) == [] {
      FollowsSilently(before, after, history);
    } else if |h.sent| == 1 {
      FollowsAppend(before, after, history, h.sent[0].audio);
    } else {
      FollowsAppend(before, after, history, StopPlayingAudio);
      FollowsAppend(after, after, history + [StopPlayingAudio], StopRecording);
      assert history + AudioOf(h.sent) == (history + [StopPlayingAudio]) + [StopRecording];
    }
  }

  lemma FollowsSilently(before: Option<ConnectionId>, after: Option<ConnectionId>, history: seq<AudioEvent>)
    requires Follows(before, history) && (before.Some? ==> after == before)
    ensures Follows(after, history)
  {
  }

  lemma StepFollows(c: D.Config, s: System, step: Step)
    requires Enabled(c, s, step) && Sound(s) && M.Owned(s.manager) && Follows(s.manager.slots.play, AudioHistory(s))
    ensures Follows(Apply(c, s, step).manager.slots.play, AudioHistory(Apply(c, s, step)))
  {
    hide Follows, CmOf, DmOf, AudioOf, CmPending, DmPending, AudioHistory, Balanced, CensusOf,
         M.Handle, D.Manage, D.React, D.OnEvent, O.Command, O.Notice;
    StepPending(c, s, step);
    NothingSent();
    var history := AudioHistory(s);
    assert history + [] == history;
    match step
    case Outside(m) => PartsOne(m);
    case Forward =>
    case ManagerStep(a) => ManagerFollows(s.manager, s.cmQueue[0], a, history);
    case DeviceManagerStep =>
      if D.Manage(s.connections, s.dmQueue[0]).Managed? {
        DeviceManagerSends(s.connections, s.dmQueue[0]);
      }
    case PeerMessage(id, m) =>
      TaskSends(c, s.running[id], m);
      FollowsAppend(s.manager.slots.play, s.manager.slots.play, history, StartAudioStream);
    case TaskPanics(_, _) =>
    case MailboxEvent(id) =>
      LeaverSends(id);
      D.EventIsSilent(s.running[id], s.connections[id][0]);
    case ConnectionBreaks(id) => LeaverSends(id);
    case AudioStep(a) => OutputSends(s, step);
    case OboeStep(e) => OutputSends(s, step);
  }

  // ----- Recording commands -----

  /** Whether these commands leave a recording running. */
  predicate Recording(history: seq<AudioEvent>) {
    history != [] &&
    match history[|history| - 1]
    case StartRecording(_, _) => true
    case StopRecording => false
    case _ => Recording(history[..|history| - 1])
  }

  ghost predicate RecordsExclusively(history: seq<AudioEvent>) {
    forall i :: 0 <= i < |history| && history[i].StartRecording? ==> !Recording(history[..i])
  }

  /** Recording is exclusive in the history, and while it runs the send resource has an owner. */
  ghost predicate Records(owner: Option<ConnectionId>, history: seq<AudioEvent>) {
    RecordsExclusively(history) && (Recording(history) ==> owner.Some?)
  }

  lemma RecordingAppend(history: seq<AudioEvent>, e: AudioEvent)
    ensures Recording(history + [e]) <==> e.StartRecording? || (!e.StopRecording? && Recording(history))
    ensures RecordsExclusively(history) && (e.StartRecording? ==> !Recording(history)) ==>
              RecordsExclusively(history + [e])
  {
    var longer := history + [e];
    assert forall i :: 0 <= i <= |history| ==> longer[..i] == history[..i];
    assert longer[..|history|] == history;
  }

  lemma RecordsAppend(before: Option<ConnectionId>, after: Option<ConnectionId>, history: seq<AudioEvent>, e: AudioEvent)
    requires Records(before, history)
    requires e.StartRecording? ==> before.None? && after.Some?
    requires !e.StopRecording? && before.Some? ==> after.Some?
    ensures Records(after, history + [e])
  {
    hide Recording, RecordsExclusively;
    RecordingAppend(history, e);
  }

  lemma RecordsSilently(before: Option<ConnectionId>, after: Option<ConnectionId>, history: seq<AudioEvent>)
    requires Records(before, history) && (before.Some? ==> after.Some?)
    ensures Records(after, history)
  {
  }

  /** The connection manager starts recording only for the new owner of a resource that was free. */
  lemma ManagerRecords(m: M.Manager, e: CmEvent, a: M.Answers, history: seq<AudioEvent>)
    requires M.Legal(m, e, a) && M.Owned(m) && Records(m.slots.send, history)
    ensures Records(M.Handle(m, e, a).manager.slots.send, history + AudioOf(M.Handle(m, e, a).sent))
  {
    hide DmOf, CmOf, AudioOf, Records;
    var h := M.Handle(m, e, a);
    var before, after := m.slots.send, h.manager.slots.send;
    FewSent(h.sent);
    assert history + [] == history;
    if AudioOf(h.sent) == [] {
      RecordsSilently(before, after, history);
    } else if |h.sent| == 1 {
      RecordsAppend(before, after, history, h.sent[0].audio);
    } else {
      RecordsAppend(before, before, history, StopPlayingAudio);
      RecordsAppend(before, after, history + [StopPlayingAudio], StopRecording);
      assert history + AudioOf(h.sent) == (history + [StopPlayingAudio]) + [StopRecording];
    }
  }

  lemma StepRecords(c: D.Config, s: System, step: Step)
    requires Enabled(c, s, step) && Sound(s) && M.Owned(s.manager) && Records(s.manager.slots.send, AudioHistory(s))
    ensures Records(Apply(c, s, step).manager.slots.send, AudioHistory(Apply(c, s, step)))
  {
    hide Records, CmOf, DmOf, AudioOf, CmPending, DmPending, AudioHistory, Balanced, CensusOf,
         M.Handle, D.Manage, D.React, D.OnEvent, O.Command, O.Notice;
    StepPending(c, s, step);
    NothingSent();
    var history := AudioHistory(s);
    assert history + [] == history;
    match step
    case Outside(m) => PartsOne(m);
    case Forward =>
    case ManagerStep(a) => ManagerRecords(s.manager, s.cmQueue[0], a, history);
    case DeviceManagerStep =>
      if D.Manage(s.connections, s.dmQueue[0]).Managed? {
        DeviceManagerSends(s.connections, s.dmQueue[0]);
      }
    case PeerMessage(id, m) =>
      TaskSends(c, s.running[id], m);
      RecordsAppend(s.manager.slots.send, s.manager.slots.send, history, StartAudioStream);
    case TaskPanics(_, _) =>
    case MailboxEvent(id) =>
      LeaverSends(id);
      D.EventIsSilent(s.running[id], s.connections[id][0]);
    case ConnectionBreaks(id) => LeaverSends(id);
    case AudioStep(a) => OutputSends(s, step);
    case OboeStep(e) => OutputSends(s, step);
  }

  // ----- What playing needs to know -----

  predicate InformedCm(e: CmEvent) {
    IsRequest(e) && e.request.PlayAudio? ==> e.request.framesPerBurst.Some?
  }

  predicate InformedAudio(e: AudioEvent) {
    e.StartPlaying? ==> e.framesPerBurst.Some?
  }

  ghost predicate InformedManager(m: M.Manager) {
    forall id: ConnectionId :: id in m.json && m.json[id].next.Some? && m.json[id].next.value.resource.PlayAudio? ==>
      m.json[id].next.value.resource.framesPerBurst.Some?
  }

  ghost predicate InformedEvents(requests: seq<CmEvent>, history: seq<AudioEvent>) {
    (forall e :: e in requests ==> InformedCm(e)) && (forall e :: e in history ==> InformedAudio(e))
  }

  /** Every play request, sent or stored, and every start of playing carries the audio info. */
  ghost predicate Informed(m: M.Manager, requests: seq<CmEvent>, history: seq<AudioEvent>) {
    InformedManager(m) && InformedEvents(requests, history)
  }

  lemma InformedAfter(m: M.Manager, requests: seq<CmEvent>, history: seq<AudioEvent>,
                      moreRequests: seq<CmEvent>, moreHistory: seq<AudioEvent>)
    requires InformedManager(m) && InformedEvents(requests, history) && InformedEvents(moreRequests, moreHistory)
    ensures Informed(m, requests + moreRequests, history + moreHistory)
    ensures requests != [] ==> Informed(m, requests[1..] + moreRequests, history + moreHistory)
  {
    hide InformedCm, InformedAudio, InformedManager;
  }

  /** The task looks its audio info up before it asks to play. */
  lemma TaskAsksInformed(c: D.Config, d: D.Device, m: D.DeviceMessage)
    requires c.android && D.React(c, d, m).Reaction?
    ensures InformedEvents(CmOf(D.React(c, d, m).toRouter), AudioOf(D.React(c, d, m).toRouter))
  {
    hide DmOf, CmOf, AudioOf;
    FewSent(D.React(c, d, m).toRouter);
  }

  /** The connection manager starts playing with the info of the request. */
  lemma ManagerStaysInformed(m: M.Manager, e: CmEvent, a: M.Answers)
    requires M.Legal(m, e, a) && InformedManager(m) && InformedCm(e)
    ensures InformedManager(M.Handle(m, e, a).manager)
    ensures InformedEvents(CmOf(M.Handle(m, e, a).sent), AudioOf(M.Handle(m, e, a).sent))
  {
    hide DmOf, CmOf, AudioOf, M.Recheck;
    FewSent(M.Handle(m, e, a).sent);
    match e
    case NewDataStream(stream, ip) =>
      if a.chosen.Some? {
        RecheckInformed(m, a.chosen.value, m.json[a.chosen.value].(pendingTcp := Some(stream)), a.udp);
      }
    case ConnectToData(id, request, connection) =>
      if id in m.json {
        RecheckInformed(m, id, m.json[id].(next := Some(M.Request(request, connection))), a.udp);
      }
    case SetNextResourceRequest(id, request, connection) =>
      if id in m.json {
        RecheckInformed(m, id, m.json[id].(next := Some(M.Request(request, connection))), a.udp);
      }
    case _ =>
  }

  lemma RecheckInformed(m: M.Manager, id: ConnectionId, r: M.ConnectionResources, udp: M.UdpAnswer)
    requires InformedManager(m)
    requires r.next.Some? && r.next.value.resource.PlayAudio? ==> r.next.value.resource.framesPerBurst.Some?
    ensures InformedManager(M.Recheck(m, id, r, udp).manager)
    ensures InformedEvents(CmOf(M.Recheck(m, id, r, udp).sent), AudioOf(M.Recheck(m, id, r, udp).sent))
  {
    hide DmOf, CmOf, AudioOf;
    FewSent(M.Recheck(m, id, r, udp).sent);
  }

  lemma SentInformed(c: D.Config, s: System, step: Step)
    requires c.android && Enabled(c, s, step) && TasksSound(s)
    requires Informed(s.manager, CmPending(s), AudioHistory(s))
    ensures InformedManager(Apply(c, s, step).manager)
    ensures InformedEvents(CmOf(Sent(c, s, step)), AudioOf(Sent(c, s, step)))
  {
    hide CmOf, DmOf, AudioOf, InformedManager, M.Handle, D.Manage, D.React, D.OnEvent, O.Command, O.Notice;
    NothingSent();
    match step
    case Outside(m) => PartsOne(m);
    case Forward =>
    case ManagerStep(a) =>
      assert s.cmQueue[0] in CmPending(s);
      ManagerStaysInformed(s.manager, s.cmQueue[0], a);
    case DeviceManagerStep =>
      if D.Manage(s.connections, s.dmQueue[0]).Managed? {
        DeviceManagerSends(s.connections, s.dmQueue[0]);
      }
    case PeerMessage(id, m) => TaskAsksInformed(c, s.running[id], m);
    case TaskPanics(_, _) =>
    case MailboxEvent(id) =>
      LeaverSends(id);
      D.EventIsSilent(s.running[id], s.connections[id][0]);
    case ConnectionBreaks(id) => LeaverSends(id);
    case AudioStep(a) => OutputSends(s, step);
    case OboeStep(e) => OutputSends(s, step);
  }

  lemma StepInformed(c: D.Config, s: System, step: Step)
    requires c.android && Enabled(c, s, step) && TasksSound(s)
    requires Informed(s.manager, CmPending(s), AudioHistory(s))
    ensures var after := Apply(c, s, step); Informed(after.manager, CmPending(after), AudioHistory(after))
  {
    hide *;
    SentInformed(c, s, step);
    StepPending(c, s, step);
    var after, sent := Apply(c, s, step), Sent(c, s, step);
    InformedParts(s.manager, CmPending(s), AudioHistory(s));
    InformedAfter(after.manager, CmPending(s), AudioHistory(s), CmOf(sent), AudioOf(sent));
  }

  lemma InformedParts(m: M.Manager, requests: seq<CmEvent>, history: seq<AudioEvent>)
    requires Informed(m, requests, history)
    ensures InformedManager(m) && InformedEvents(requests, history)
  {
  }

  // ----- Safety of every run -----

  /** A second stream is never heard while one is playing. */
  ghost predicate Hearing(s: System) {
    s.oboe.Some? ==> O.Playing(s.heard)
  }

  /** The only faults are the two that a peer can bring about. */
  ghost predicate FaultKnown(s: System) {
    || s.fault == NoFault
    || (s.fault == TaskGone && s.dead != {})
    || (s.fault == OpusHeard && s.heard != [] && s.heard[|s.heard| - 1].StartPlaying? && s.heard[|s.heard| - 1].decodeOpus)
  }

  ghost predicate Safe(c: D.Config, s: System) {
    && Sound(s)
    && M.Owned(s.manager)
    && Registered(s.manager.json.Keys, CmPending(s))
    && Follows(s.manager.slots.play, AudioHistory(s))
    && Records(s.manager.slots.send, AudioHistory(s))
    && (c.android ==> Informed(s.manager, CmPending(s), AudioHistory(s)))
    && Hearing(s)
    && FaultKnown(s)
  }

  lemma TaskStaysSound(c: D.Config, s: System, step: Step)
    requires Enabled(c, s, step) && TasksSound(s)
    ensures TasksSound(Apply(c, s, step))
  {
    hide D.React, D.OnEvent, D.OnlyReplies, M.Handle, O.Command, O.Notice;
    D.NothingWaits();
    match step
    case PeerMessage(id, m) =>
      D.PanicsExactly(c, s.running[id], m);
      D.OnlyRepliesWait(c, s.running[id], m);
    case MailboxEvent(id) => D.EventIsSilent(s.running[id], s.connections[id][0]);
    case _ =>
  }

  /** The two ways in which a step ends a run. */
  function FaultOf(s: System, step: Step): Fault {
    if step.DeviceManagerStep? && s.dmQueue != [] && Told(s, s.dmQueue[0]) * s.dead != {} then TaskGone
    else if step.AudioStep? && s.audioQueue != [] && s.audioQueue[0].StartPlaying? && s.audioQueue[0].decodeOpus then
      OpusHeard
    else NoFault
  }

  lemma HeadsOf(c: D.Config, s: System, step: Step)
    requires Enabled(c, s, step)
    ensures step.DeviceManagerStep? ==> s.dmQueue != []
    ensures step.AudioStep? ==> s.audioQueue != []
    ensures FaultOf(s, step) ==
              if step.DeviceManagerStep? && Told(s, s.dmQueue[0]) * s.dead != {} then TaskGone
              else if step.AudioStep? && s.audioQueue[0].StartPlaying? && s.audioQueue[0].decodeOpus then OpusHeard
              else NoFault
  {
    hide Told;
  }

  lemma StepFaults(c: D.Config, s: System, step: Step)
    requires Enabled(c, s, step) && Safe(c, s)
    ensures Apply(c, s, step).fault == FaultOf(s, step)
  {
    hide O.Player, O.Exclusive, CmOf, DmOf, AudioOf, D.React, D.OnEvent, M.Handle, Balanced, CensusOf, Registered,
         M.Owned, InformedManager;
    if step.DeviceManagerStep? {
      NoUnknownRemoval(s);
    } else if step.AudioStep? {
      HeadIsHeard(s);
      assert s.audioQueue[0] in AudioHistory(s);
    }
  }

  lemma HeadIsHeard(s: System)
    requires s.audioQueue != [] && Hearing(s) && Follows(s.manager.slots.play, AudioHistory(s))
    ensures s.audioQueue[0].StartPlaying? ==> s.oboe.None?
    ensures O.Player(s.heard + [s.audioQueue[0]]) ==
              if s.audioQueue[0].StartPlaying? then Some(s.audioQueue[0].senderId)
              else if s.audioQueue[0].StopPlayingAudio? then None else O.Player(s.heard)
  {
    hide O.Player, O.Exclusive, AudioOf;
    var e := s.audioQueue[0];
    assert s.heard + [e] <= AudioHistory(s);
    O.ExclusivePrefix(s.heard + [e], AudioHistory(s));
    O.ExclusiveAppend(s.heard, e);
    O.PlayerAppend(s.heard, e);
  }

  lemma StepHears(c: D.Config, s: System, step: Step)
    requires Enabled(c, s, step) && Safe(c, s)
    ensures Hearing(Apply(c, s, step)) && FaultKnown(Apply(c, s, step))
  {
    hide O.Player, O.Exclusive, CmOf, DmOf, AudioOf, D.React, D.OnEvent, M.Handle, Balanced, CensusOf, Registered,
         M.Owned, Informed;
    StepFaults(c, s, step);
    if step.AudioStep? {
      HeadIsHeard(s);
    }
  }

  lemma StepSafe(c: D.Config, s: System, step: Step)
    requires Enabled(c, s, step) && Safe(c, s)
    ensures Safe(c, Apply(c, s, step))
  {
    StepIsMove(c, s, step);
    MovedBalanced(CensusOf(s), MoveOf(c, s, step));
    TaskStaysSound(c, s, step);
    StepOwned(c, s, step);
    StepRegistered(c, s, step);
    StepFollows(c, s, step);
    StepRecords(c, s, step);
    StepHears(c, s, step);
    if c.android {
      StepInformed(c, s, step);
    }
    hide Registered, Follows, Records, Hearing, TasksSound, Balanced, M.Owned, CmPending, DmPending, AudioHistory, Apply,
         Enabled, Informed, FaultKnown;
  }

  lemma StepOwned(c: D.Config, s: System, step: Step)
    requires Enabled(c, s, step) && M.Owned(s.manager)
    ensures M.Owned(Apply(c, s, step).manager)
  {
    hide M.Handle, M.Owned, D.Manage, D.React, D.OnEvent, O.Command, O.Notice;
    if step.ManagerStep? {
      M.HandleKeepsOwned(s.manager, s.cmQueue[0], step.answers);
    }
  }

  lemma StartPending()
    ensures CmPending(START) == [] && DmPending(START) == [] && AudioHistory(START) == []
  {
    hide CmOf, DmOf, AudioOf;
    NothingSent();
  }

  lemma StartSafe(c: D.Config)
    ensures Safe(c, START)
  {
    hide CmPending, DmPending, AudioHistory, Born, Ending, Forgotten;
    StartPending();
    NothingSent();
  }

  /** Every state of every run is safe. */
  lemma {:induction false} RunSafe(c: D.Config, steps: seq<Step>)
    requires After(c, steps).Some?
    ensures Safe(c, After(c, steps).value)
  {
    hide Safe, Enabled, Apply;
    if steps == [] {
      StartSafe(c);
    } else {
      var front := steps[..|steps| - 1];
      RunSafe(c, front);
      StepSafe(c, After(c, front).value, steps[|steps| - 1]);
    }
  }

  // ----- The main results -----

  /**
   Nothing that the components unwrap is missing: a removal that reaches the device
   manager finds its connection, whose task waits for the quit request, no handle
   of a task is replaced, no stream is ignored because another one plays, and none
   is played without the audio info. Only a task that has panicked and a stream in
   Opus can end a run.
   */
  lemma NothingFails(c: D.Config, steps: seq<Step>)
    requires After(c, steps).Some?
    ensures var s := After(c, steps).value;
            && (s.fault == NoFault || s.fault == TaskGone || s.fault == OpusHeard)
            && (s.fault == TaskGone ==> s.dead != {})
            && (s.dmQueue != [] && s.dmQueue[0].RemoveConnection? ==>
                  s.dmQueue[0].id in s.connections && s.dmQueue[0].id in s.leaving)
            && (s.dmQueue != [] && s.dmQueue[0].NewDeviceConnection? ==> s.dmQueue[0].id !in s.connections)
            && (s.audioQueue != [] && s.audioQueue[0].StartPlaying? ==> s.oboe.None?)
  {
    hide *;
    RunSafe(c, steps);
    HeadsAreSound(c, After(c, steps).value);
  }

  lemma HeadsAreSound(c: D.Config, s: System)
    requires Safe(c, s)
    ensures s.fault == NoFault || s.fault == TaskGone || s.fault == OpusHeard
    ensures s.fault == TaskGone ==> s.dead != {}
    ensures s.dmQueue != [] && s.dmQueue[0].RemoveConnection? ==>
              s.dmQueue[0].id in s.connections && s.dmQueue[0].id in s.leaving
    ensures s.dmQueue != [] && s.dmQueue[0].NewDeviceConnection? ==> s.dmQueue[0].id !in s.connections
    ensures s.audioQueue != [] && s.audioQueue[0].StartPlaying? ==> s.oboe.None?
  {
    hide Sound, Registered, M.Owned, O.Player, O.Exclusive, AudioOf, CmPending, DmPending, Informed, Follows, Hearing;
    if s.dmQueue != [] {
      NoUnknownRemoval(s);
    }
    if s.audioQueue != [] {
      HeadIsHeard(s);
    }
  }

  /**
   In every run the device manager panics exactly when it sends to a task that has
   panicked. That task keeps its entry, so the next ping to all is such a send.
   */
  lemma FaultsExactly(c: D.Config, steps: seq<Step>, step: Step)
    requires After(c, steps).Some? && Enabled(c, After(c, steps).value, step)
    ensures var s := After(c, steps).value;
            && Apply(c, s, step).fault ==
                 (if step.DeviceManagerStep? && Told(s, s.dmQueue[0]) * s.dead != {} then TaskGone
                  else if step.AudioStep? && s.audioQueue[0].StartPlaying? && s.audioQueue[0].decodeOpus then OpusHeard
                  else NoFault)
            && (step.DeviceManagerStep? && (s.dmQueue[0].RunDeviceConnectionPing? || s.dmQueue[0].DisconnectAllDevices?) ==>
                  (Apply(c, s, step).fault == TaskGone <==> s.dead != {}))
  {
    hide *;
    RunSafe(c, steps);
    var s := After(c, steps).value;
    HeadsOf(c, s, step);
    StepFaults(c, s, step);
    DeadStayConnected(c, s);
    if step.DeviceManagerStep? {
      PingReachesAll(s, s.dmQueue[0]);
    }
  }

  lemma DeadStayConnected(c: D.Config, s: System)
    requires Safe(c, s)
    ensures s.dead <= s.connections.Keys
  {
    hide Born, Ending, Forgotten, CmPending, DmPending, Registered, Follows, Records, Informed, Hearing, M.Owned;
    forall id | id in s.dead ensures id in s.connections {
      assert BalancedAt(CensusOf(s), id);
    }
  }

  lemma PingReachesAll(s: System, e: DmEvent)
    requires s.dead <= s.connections.Keys
    ensures e.RunDeviceConnectionPing? || e.DisconnectAllDevices? ==> (Told(s, e) * s.dead != {} <==> s.dead != {})
  {
    assert s.connections.Keys * s.dead == s.dead;
  }

  /** On Android every stream that is ever started comes with the audio info that the output unwraps. */
  lemma AudioInfoIsKnown(c: D.Config, steps: seq<Step>, i: nat)
    requires c.android && After(c, steps).Some? && i < |AudioHistory(After(c, steps).value)|
    ensures AudioHistory(After(c, steps).value)[i].StartPlaying? ==>
              AudioHistory(After(c, steps).value)[i].framesPerBurst.Some?
  {
    hide After, AudioHistory;
    RunSafe(c, steps);
    assert InformedAudio(AudioHistory(After(c, steps).value)[i]);
  }

  /**
   A request from a task reaches the connection manager while its connection is
   registered: the branches for an unknown id are never taken.
   */
  lemma RequestsFindTheirConnection(c: D.Config, steps: seq<Step>)
    requires After(c, steps).Some?
    ensures var s := After(c, steps).value;
            && (s.cmQueue != [] && IsRequest(s.cmQueue[0]) ==> s.cmQueue[0].id in s.manager.json)
            && (s.cmQueue != [] && s.cmQueue[0].RemoveDataConnections? ==> s.cmQueue[0].id in s.manager.json)
            && Registered(s.manager.json.Keys, CmPending(s))
  {
    hide After, Forgotten;
    RunSafe(c, steps);
    var s := After(c, steps).value;
    if s.cmQueue != [] {
      assert CmPending(s)[0] == s.cmQueue[0];
      if s.cmQueue[0].RemoveDataConnections? {
        RemovalIsCounted(CmPending(s), s.cmQueue[0].id);
        assert BalancedAt(CensusOf(s), s.cmQueue[0].id);
      }
    }
  }

  function Rank(phase: Phase): nat {
    match phase
    case Unborn => 0
    case Announced => 1
    case Live => 2
    case Closing => 3
    case Stranded => 3
    case Forgetting => 4
    case Gone => 5
  }

  /** In every state an id is in exactly one phase, which says where it is registered. */
  lemma IdsLiveOnce(c: D.Config, steps: seq<Step>, id: ConnectionId)
    requires After(c, steps).Some?
    ensures var census := CensusOf(After(c, steps).value);
            && (forall p: Phase :: In(census, id, p) <==> p == PhaseIn(census, id))
            && (id in census.json <==> 1 <= Rank(PhaseIn(census, id)) <= 4)
            && (id in census.connections <==> 2 <= Rank(PhaseIn(census, id)) <= 3)
  {
    hide After, CensusOf;
    RunSafe(c, steps);
    var census := CensusOf(After(c, steps).value);
    PhaseIsUnique(census, id);
    assert BalancedAt(census, id);
  }

  /** One step moves an id by at most one phase; only a live one is ever stranded. */
  lemma StepAdvances(c: D.Config, s: System, step: Step, id: ConnectionId)
    requires Enabled(c, s, step) && Safe(c, s)
    ensures var before, after := PhaseIn(CensusOf(s), id), PhaseIn(CensusOf(Apply(c, s, step)), id);
            after == before || after == Following(before) || (before == Live && after == Stranded)
  {
    hide CensusOf, Apply, Enabled, MoveOf;
    StepIsMove(c, s, step);
    MovedBalanced(CensusOf(s), MoveOf(c, s, step));
    PhaseIsUnique(CensusOf(s), id);
    PhaseIsUnique(Moved(CensusOf(s), MoveOf(c, s, step)), id);
    PhaseAdvances(CensusOf(s), MoveOf(c, s, step), id, PhaseIn(CensusOf(s), id));
  }

  lemma {:induction false} EarlierState(c: D.Config, steps: seq<Step>, n: nat)
    requires After(c, steps).Some? && n <= |steps|
    ensures After(c, steps[..n]).Some?
  {
    if n == |steps| {
      assert steps[..n] == steps;
    } else {
      var front := steps[..|steps| - 1];
      EarlierState(c, front, n);
      assert front[..n] == steps[..n];
    }
  }

  /** Over a whole run the phases of an id only go forward: an id that is gone is never given out again. */
  lemma {:induction false} PhasesGoForward(c: D.Config, steps: seq<Step>, n: nat, id: ConnectionId)
    requires After(c, steps).Some? && n <= |steps|
    ensures After(c, steps[..n]).Some?
    ensures Rank(PhaseIn(CensusOf(After(c, steps[..n]).value), id)) <= Rank(PhaseIn(CensusOf(After(c, steps).value), id))
  {
    hide *;
    EarlierState(c, steps, n);
    if n == |steps| {
      assert steps[..n] == steps;
    } else {
      var front := steps[..|steps| - 1];
      LastStep(c, steps);
      PhasesGoForward(c, front, n, id);
      assert front[..n] == steps[..n];
      RunSafe(c, front);
      StepAdvances(c, After(c, front).value, steps[|steps| - 1], id);
      RankAdvances(PhaseIn(CensusOf(After(c, front).value), id), PhaseIn(CensusOf(After(c, steps).value), id));
    }
  }

  lemma LastStep(c: D.Config, steps: seq<Step>)
    requires After(c, steps).Some? && steps != []
    ensures var front, last := steps[..|steps| - 1], steps[|steps| - 1];
            && After(c, front).Some?
            && Enabled(c, After(c, front).value, last)
            && After(c, steps).value == Apply(c, After(c, front).value, last)
  {
    hide Enabled, Apply;
  }

  lemma RankAdvances(before: Phase, after: Phase)
    requires after == before || after == Following(before) || (before == Live && after == Stranded)
    ensures Rank(before) <= Rank(after)
  {
  }

  /** Playing is exclusive: between any two starts ever sent there is a stop. */
  lemma PlayingIsExclusive(c: D.Config, steps: seq<Step>, i: nat, j: nat)
    requires After(c, steps).Some?
    requires i < j < |AudioHistory(After(c, steps).value)|
    requires AudioHistory(After(c, steps).value)[i].StartPlaying? && AudioHistory(After(c, steps).value)[j].StartPlaying?
    ensures exists k :: i < k < j && AudioHistory(After(c, steps).value)[k].StopPlayingAudio?
  {
    hide After, AudioHistory;
    RunSafe(c, steps);
    O.StopBetween(AudioHistory(After(c, steps).value), i, j);
  }

  /** So is recording: between any two starts of a recording ever sent there is a stop of one. */
  lemma RecordingIsExclusive(c: D.Config, steps: seq<Step>, i: nat, j: nat)
    requires After(c, steps).Some?
    requires i < j < |AudioHistory(After(c, steps).value)|
    requires AudioHistory(After(c, steps).value)[i].StartRecording?
    requires AudioHistory(After(c, steps).value)[j].StartRecording?
    ensures exists k :: i < k < j && AudioHistory(After(c, steps).value)[k].StopRecording?
  {
    hide After, AudioHistory, Recording;
    RunSafe(c, steps);
    var history := AudioHistory(After(c, steps).value);
    if forall k :: i < k < j ==> !history[k].StopRecording? {
      StillRecording(history, i, j);
      assert false;
    }
  }

  lemma {:induction false} StillRecording(history: seq<AudioEvent>, i: nat, j: nat)
    requires i < j <= |history| && history[i].StartRecording?
    requires forall k :: i < k < j ==> !history[k].StopRecording?
    ensures Recording(history[..j])
    decreases j
  {
    var front := history[..j];
    assert front[|front| - 1] == history[j - 1] && front[..|front| - 1] == history[..j - 1];
    if i < j - 1 && !history[j - 1].StartRecording? {
      StillRecording(history, i, j - 1);
    }
  }

  /**
   The owners of the two resources are registered connections, each entry bears its
   own id, the connection whose stream was started last owns the play resource, and the
   send resource has an owner while a recording runs.
   */
  lemma OwnersAreRegistered(c: D.Config, steps: seq<Step>)
    requires After(c, steps).Some?
    ensures var s := After(c, steps).value;
            && M.Owned(s.manager)
            && (O.Playing(AudioHistory(s)) ==> s.manager.slots.play == O.Player(AudioHistory(s)))
            && (Recording(AudioHistory(s)) ==> s.manager.slots.send.Some?)
  {
    hide After;
    RunSafe(c, steps);
  }

  // ----- A resource that is held without audio -----

  /** The connection owns the play resource, and nothing plays. */
  ghost predicate Held(s: System, owner: ConnectionId) {
    s.manager.slots.play == Some(owner) && !O.Playing(AudioHistory(s))
  }

  lemma QuietAppend(history: seq<AudioEvent>, more: seq<AudioEvent>)
    requires !O.Playing(history) && |more| <= 2 && forall e :: e in more ==> !e.StartPlaying?
    ensures !O.Playing(history + more)
  {
    hide O.Player;
    if |more| == 0 {
      assert history + more == history;
    } else {
      O.PlayerAppend(history, more[0]);
      if |more| == 1 {
        assert history + more == history + [more[0]];
      } else {
        O.PlayerAppend(history + [more[0]], more[1]);
        assert history + more == (history + [more[0]]) + [more[1]];
      }
    }
  }

  /** While the resource is taken, no event starts playing, and only the removal of its owner releases it. */
  lemma ManagerHolds(m: M.Manager, e: CmEvent, a: M.Answers, owner: ConnectionId)
    requires M.Legal(m, e, a) && M.Owned(m) && m.slots.play == Some(owner)
    ensures var h := M.Handle(m, e, a);
            && (owner in h.manager.json ==> h.manager.slots.play == Some(owner))
            && |AudioOf(h.sent)| <= 2
            && forall x :: x in AudioOf(h.sent) ==> !x.StartPlaying?
  {
    hide DmOf, CmOf, AudioOf;
    FewSent(M.Handle(m, e, a).sent);
  }

  lemma StepHolds(c: D.Config, s: System, step: Step, owner: ConnectionId)
    requires Enabled(c, s, step) && TasksSound(s) && M.Owned(s.manager) && Held(s, owner)
    ensures owner in Apply(c, s, step).manager.json ==> Held(Apply(c, s, step), owner)
  {
    hide CmOf, DmOf, AudioOf, CmPending, DmPending, AudioHistory, O.Player,
         M.Handle, M.Owned, D.Manage, D.React, D.OnEvent, O.Command, O.Notice;
    StepPending(c, s, step);
    NothingSent();
    match step {
      case Outside(m) => PartsOne(m);
      case Forward =>
      case ManagerStep(a) => ManagerHolds(s.manager, s.cmQueue[0], a, owner);
      case DeviceManagerStep =>
        if D.Manage(s.connections, s.dmQueue[0]).Managed? {
          DeviceManagerSends(s.connections, s.dmQueue[0]);
        }
      case PeerMessage(id, m) => TaskSends(c, s.running[id], m);
      case TaskPanics(_, _) =>
      case MailboxEvent(id) =>
        LeaverSends(id);
        D.EventIsSilent(s.running[id], s.connections[id][0]);
      case ConnectionBreaks(id) => LeaverSends(id);
      case AudioStep(a) => OutputSends(s, step);
      case OboeStep(e) => OutputSends(s, step);
    }
    QuietAppend(AudioHistory(s), AudioOf(Sent(c, s, step)));
  }

  lemma RegisteredBetween(c: D.Config, steps: seq<Step>, n: nat, m: nat, id: ConnectionId)
    requires After(c, steps).Some? && n <= m <= |steps|
    ensures After(c, steps[..n]).Some? && After(c, steps[..m]).Some?
    ensures id in After(c, steps[..n]).value.manager.json && id in After(c, steps).value.manager.json ==>
              id in After(c, steps[..m]).value.manager.json
  {
    hide *;
    PhasesGoForward(c, steps, m, id);
    PhasesGoForward(c, steps[..m], n, id);
    assert steps[..m][..n] == steps[..n];
    RegisteredRank(c, steps, id);
    RegisteredRank(c, steps[..m], id);
    RegisteredRank(c, steps[..n], id);
  }

  lemma RegisteredRank(c: D.Config, steps: seq<Step>, id: ConnectionId)
    requires After(c, steps).Some?
    ensures id in After(c, steps).value.manager.json <==>
            1 <= Rank(PhaseIn(CensusOf(After(c, steps).value), id)) <= 4
  {
    hide After, PhaseIn, Rank, CmPending, DmPending, Born, Ending, Forgotten;
    IdsLiveOnce(c, steps, id);
  }

  /**
   Whoever owns the play resource while nothing plays keeps it, still without
   playing, for as long as the connection is registered: nothing but its removal
   gives the resource to another connection or starts its stream.
   */
  lemma {:induction false} HeldUntilRemoved(c: D.Config, steps: seq<Step>, n: nat, owner: ConnectionId)
    requires After(c, steps).Some? && n <= |steps|
    requires After(c, steps[..n]).Some? && Held(After(c, steps[..n]).value, owner)
    ensures owner in After(c, steps).value.manager.json ==> Held(After(c, steps).value, owner)
  {
    hide *;
    if n == |steps| {
      assert steps[..n] == steps;
    } else if owner in After(c, steps).value.manager.json {
      var front := steps[..|steps| - 1];
      LastStep(c, steps);
      assert front[..n] == steps[..n];
      HeldUntilRemoved(c, front, n, owner);
      HolderIsRegistered(c, steps[..n], owner);
      RegisteredBetween(c, steps, n, |steps| - 1, owner);
      RunSound(c, front);
      StepHolds(c, After(c, front).value, steps[|steps| - 1], owner);
    }
  }

  lemma HolderIsRegistered(c: D.Config, steps: seq<Step>, owner: ConnectionId)
    requires After(c, steps).Some? && Held(After(c, steps).value, owner)
    ensures owner in After(c, steps).value.manager.json
  {
    hide After;
    RunSafe(c, steps);
  }

  lemma RunSound(c: D.Config, steps: seq<Step>)
    requires After(c, steps).Some?
    ensures TasksSound(After(c, steps).value) && M.Owned(After(c, steps).value.manager)
  {
    hide After, TasksSound, M.Owned;
    RunSafe(c, steps);
  }
}
