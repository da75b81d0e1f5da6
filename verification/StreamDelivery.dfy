/**
 What becomes of the TCP stream that a request opens (src/connection.rs:502-575): it
 goes through the router as an event that names only an address, and other events may
 be handled before it.
 */
module StreamDelivery {
  import opened Sequences
  import opened Messages
  import opened Lifecycle
  import opened LifecycleSafety
  import M = ConnectionManager
  import D = Devices
  import O = OboeLogic

  // ----- Address and kind of a connection -----

  lemma ManagerKeepsAddress(m: M.Manager, e: CmEvent, a: M.Answers, id: ConnectionId)
    requires M.Legal(m, e, a) && M.Owned(m) && id in m.json
    ensures var after := M.Handle(m, e, a).manager;
            id in after.json ==> after.json[id].ip == m.json[id].ip && after.json[id].usb == m.json[id].usb
  {
  }

  lemma StepKeepsAddress(c: D.Config, s: System, step: Step, id: ConnectionId)
    requires Enabled(c, s, step) && M.Owned(s.manager) && id in s.manager.json
    ensures var after := Apply(c, s, step).manager;
            id in after.json ==>
              after.json[id].ip == s.manager.json[id].ip && after.json[id].usb == s.manager.json[id].usb
  {
    hide M.Handle, M.Owned, D.Manage, D.React, D.OnEvent, O.Command, O.Notice;
    if step.ManagerStep? {
      ManagerKeepsAddress(s.manager, s.cmQueue[0], step.answers, id);
    }
  }

  /** A connection keeps its address for as long as it is registered. */
  lemma {:induction false} AddressKept(c: D.Config, steps: seq<Step>, n: nat, id: ConnectionId)
    requires After(c, steps).Some? && n <= |steps|
    ensures After(c, steps[..n]).Some?
    ensures var before, after := After(c, steps[..n]).value.manager.json, After(c, steps).value.manager.json;
            id in before && id in after ==> after[id].ip == before[id].ip && after[id].usb == before[id].usb
  {
    hide *;
    EarlierState(c, steps, n);
    if n == |steps| {
      assert steps[..n] == steps;
    } else {
      var front := steps[..|steps| - 1];
      LastStep(c, steps);
      assert front[..n] == steps[..n];
      AddressKept(c, front, n, id);
      RegisteredBetween(c, steps, n, |steps| - 1, id);
      RunSound(c, front);
      if id in After(c, front).value.manager.json {
        StepKeepsAddress(c, After(c, front).value, steps[|steps| - 1], id);
      }
    }
  }

  // ----- The stream on its way -----

  /** In step `n` the connection manager handles a TCP request of `id`, and `stream` is connected for it. */
  ghost predicate Opens(c: D.Config, steps: seq<Step>, n: nat, id: ConnectionId, stream: TcpStream) {
    && n < |steps|
    && After(c, steps[..n]).Some?
    && var s := After(c, steps[..n]).value;
       && s.cmQueue != []
       && s.cmQueue[0].ConnectToData?
       && s.cmQueue[0].id == id
       && s.cmQueue[0].connection.Tcp?
       && id in s.manager.json
       && steps[n].ManagerStep?
       && steps[n].answers.connected == Some(stream)
  }

  /** The event that announces the stream. */
  ghost function Arrival(c: D.Config, steps: seq<Step>, n: nat, id: ConnectionId, stream: TcpStream): CmEvent
    requires Opens(c, steps, n, id, stream)
  {
    NewDataStream(stream, After(c, steps[..n]).value.manager.json[id].ip)
  }

  /** The connection manager handles `e` in step `k`. */
  ghost predicate Handles(c: D.Config, steps: seq<Step>, k: nat, e: CmEvent) {
    && k < |steps|
    && After(c, steps[..k]).Some?
    && steps[k].ManagerStep?
    && After(c, steps[..k]).value.cmQueue != []
    && After(c, steps[..k]).value.cmQueue[0] == e
  }

  lemma OpeningSends(c: D.Config, s: System, step: Step, id: ConnectionId, stream: TcpStream)
    requires Enabled(c, s, step) && step.ManagerStep? && step.answers.connected == Some(stream)
    requires s.cmQueue[0].ConnectToData? && s.cmQueue[0].id == id && s.cmQueue[0].connection.Tcp?
    requires id in s.manager.json
    ensures NewDataStream(stream, s.manager.json[id].ip) in CmPending(Apply(c, s, step))
  {
    hide CmOf, DmOf, AudioOf, CmPending, DmPending, AudioHistory, Apply;
    StepPending(c, s, step);
    FewSent(Sent(c, s, step));
  }

  lemma StillPending(c: D.Config, s: System, step: Step, e: CmEvent)
    requires Enabled(c, s, step) && e in CmPending(s)
    ensures e in CmPending(Apply(c, s, step)) || (step.ManagerStep? && s.cmQueue != [] && s.cmQueue[0] == e)
  {
    hide CmOf, DmOf, AudioOf, CmPending, DmPending, AudioHistory, Apply, Sent;
    StepPending(c, s, step);
    if step.ManagerStep? && s.cmQueue[0] != e {
      assert CmPending(s) == [s.cmQueue[0]] + CmPending(s)[1..];
    }
  }

  /** The announcement is under way until the connection manager handles it. */
  lemma {:induction false} StreamUnderWay(c: D.Config, steps: seq<Step>, n: nat, id: ConnectionId, stream: TcpStream)
    requires After(c, steps).Some? && Opens(c, steps, n, id, stream)
    ensures var e := Arrival(c, steps, n, id, stream);
            e in CmPending(After(c, steps).value) || exists k :: n < k && Handles(c, steps, k, e)
  {
    hide Enabled, Apply, CmPending;
    var e, front, last := Arrival(c, steps, n, id, stream), steps[..|steps| - 1], steps[|steps| - 1];
    LastStep(c, steps);
    if n == |front| {
      OpeningSends(c, After(c, front).value, last, id, stream);
    } else {
      assert front[..n] == steps[..n] && front[n] == steps[n];
      StreamUnderWay(c, front, n, id, stream);
      if e in CmPending(After(c, front).value) {
        StillPending(c, After(c, front).value, last, e);
        assert e !in CmPending(After(c, steps).value) ==> Handles(c, steps, |front|, e);
      } else {
        var k :| n < k && Handles(c, front, k, e);
        assert front[..k] == steps[..k] && front[k] == steps[k];
        assert Handles(c, steps, k, e);
      }
    }
  }

  /**
   When the announcement is handled, its stream goes to the connection whose request
   opened it, whatever the order of the iteration, if and only if that connection is
   still registered, is not over USB, and shares its address with no other one that is
   not over USB.
   */
  lemma StreamDelivered(c: D.Config, steps: seq<Step>, n: nat, id: ConnectionId, stream: TcpStream)
    requires After(c, steps).Some? && Opens(c, steps, n, id, stream)
    ensures var e, m := Arrival(c, steps, n, id, stream), After(c, steps).value.manager;
            (forall a: M.Answers :: M.Legal(m, e, a) ==> a.chosen == Some(id)) <==>
            && id in m.json
            && !After(c, steps[..n]).value.manager.json[id].usb
            && forall other: ConnectionId :: other in m.json && other != id && m.json[other].ip == e.ip ==> m.json[other].usb
  {
    hide After;
    var e, m := Arrival(c, steps, n, id, stream), After(c, steps).value.manager;
    AddressKept(c, steps, n, id);
    M.StreamFindsItsConnection(m, id, stream, e.ip);
    hide M.Legal;
    if M.OnlyOneAt(m, id, e.ip) {
      forall other: ConnectionId | other in m.json && other != id && m.json[other].ip == e.ip ensures m.json[other].usb {
        assert !M.Matches(m, other, e.ip);
      }
    }
  }
}
