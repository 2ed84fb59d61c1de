/** The whole system as a state machine: the orchestrator, its bridge connection, the watchdog and
    the person at the command line, one atomic step for each handled message or command. */
module Runs {
  import opened Common
  import opened Governors
  import opened WorldModels
  import opened Ledgers
  import opened Servers
  import opened Watchdogs

  datatype Event =
    | Connect(simulation: Uuid)
    | Disconnect
    | Hello(write: Write)
    | Heartbeat(tick: nat, read: ReadFaults, write: Write)
    | Snapshot(observation: Observation, order: seq<nat>, rollbacks: seq<RollbackFaults>, proposals: seq<ProposalFaults>)
    | Result(correlation: Option<nat>, cost: Option<int>, failed: bool, insert: Write, rollback: RollbackFaults)
    | OtherMessage
    | Crash
    | Start(answered: bool, read: ReadFaults, write: Write, configured: bool)
    | WatchdogPoll(since: Option<nat>, faults: PollFaults)
    | Resolve(read: ReadFaults, write: Write)
    | RollbackByHand(snapshot: nat, restore: RestoreFaults)
    | TimePasses(wait: nat)

  const BOOT := Server(EMPTY_LEDGER, [], 0, false, None, FRESH_GOVERNOR, map[], map[], [], None, 0, [], 0, Birth(0, 0, 0))

  predicate IsMessage(e: Event) {
    e.Hello? || e.Heartbeat? || e.Snapshot? || e.Result? || e.OtherMessage?
  }

  /** `order` lists each pending verification exactly once. */
  predicate Drains(order: seq<nat>, pending: map<nat, PendingVerification>) {
    && (set a | a in order) == pending.Keys
    && (forall i, j :: 0 <= i < j < |order| ==> order[i] != order[j])
  }

  lemma DrainsAll(order: seq<nat>, pending: map<nat, PendingVerification>)
    requires Drains(order, pending)
    ensures forall a :: a in order <==> a in pending
    ensures order == [] <==> pending == map[]
  {
    assert forall a :: a in order <==> a in (set x | x in order);
    if order != [] {
      assert order[0] in order;
    }
    if pending != map[] {
      var a :| a in pending.Keys;
      assert a in order;
    }
  }

  /** Which steps are possible, and how many fault records they need. */
  predicate Enabled(c: Constitution, s: Server, e: Event) {
    match e
    case Connect(_) => s.up && s.connection.None?
    case Snapshot(o, order, rollbacks, proposals) =>
      && s.up && s.connection.Some? && Drains(order, s.pendingVerifications)
      && |order| <= |rollbacks| && |ProposalsOn(c, s, o)| <= |proposals|
    case Start(_, _, _, _) => !s.up
    case WatchdogPoll(_, f) => |f.oscillation| >= |s.ledger.actions|
    case Resolve(_, _) => true
    case RollbackByHand(_, _) => true
    case TimePasses(_) => true
    case Crash => s.up
    case _ => s.up && s.connection.Some?
  }

  /** A step that is not possible in `s` leaves it as it is, so every sequence of events is a run. */
  function Step(c: Constitution, s: Server, e: Event): Server {
    if !Enabled(c, s, e) then s
    else
      match e
      case Connect(simulation) => s.(connection := Some(simulation))
      case Disconnect => s.(connection := None, pendingActions := map[], pendingVerifications := map[])
      case Hello(write) => s.(ledger := AddSimulation(s.ledger, s.connection.value, write))
      case Heartbeat(tick, read, write) => HandleHeartbeat(c, s, s.connection.value, tick, read, write)
      case Snapshot(o, order, rollbacks, proposals) => Observe(c, s, s.connection.value, o, order, rollbacks, proposals)
      case Result(correlation, cost, failed, insert, rollback) =>
        HandleResult(c, s, s.connection.value, correlation, cost, failed, insert, rollback)
      case OtherMessage => s
      case Crash => s.(up := false, connection := None, pendingActions := map[], pendingVerifications := map[])
      case Start(answered, read, write, configured) => Restart(s, answered, read, write, configured)
      case WatchdogPoll(since, f) => s.(ledger := Poll(c, s.ledger, since, s.clock, f))
      case Resolve(read, write) => s.(ledger := ResolveByHand(s.ledger, read, write))
      case RollbackByHand(snapshot, restore) => s.(ledger := RestoreSnapshot(s.ledger, snapshot, Manual, restore).0)
      case TimePasses(wait) => s.(clock := s.clock + wait)
  }

  function Run(c: Constitution, s: Server, es: seq<Event>): Server {
    if es == [] then s else Step(c, Run(c, s, es[..|es| - 1]), es[|es| - 1])
  }

  lemma {:induction false} RunConcat(c: Constitution, s: Server, es: seq<Event>, more: seq<Event>)
    ensures Run(c, s, es + more) == Run(c, Run(c, s, es), more)
  {
    if more == [] {
      assert es + more == es;
    } else {
      var n := |more| - 1;
      RunConcat(c, s, es, more[..n]);
      assert (es + more)[..|es| + n] == es + more[..n];
    }
  }
}
