/** The orchestrator process, in the source's own imperative form (core/orchestrator/src/tcp_server.rs,
    snapshot.rs, startup.rs, main.rs). Each method is proved to do what its function in `Servers` says. */
module Orchestrators {
  import opened Common
  import opened SafetyStates
  import opened Governors
  import opened GovernorLaws
  import opened WorldModels
  import opened Operators
  import opened IdempotencyKeys
  import opened Ledgers
  import opened Servers
  import Runs

  /** `clock` and `wire` belong to the environment: what `Instant::now()` reads and what the socket
      was asked to carry. The ghost fields are the record `Server` keeps of the process. */
  class Orchestrator {
    const db: Database
    const governor: Governor
    const world: WorldModel
    var clock: nat
    var wire: seq<Command>
    var connection: Option<Uuid>
    var pendingActions: map<nat, PendingAction>
    var pendingVerifications: map<nat, PendingVerification>
    var cleanHeartbeatsSinceCautious: nat
    ghost var granted: seq<Grant>
    ghost var heartbeats: nat
    ghost var birth: Birth

    ghost function View(): Server
      reads this, db, governor, world
    {
      Server(db.View(), wire, clock, true, connection, governor.View(), pendingActions, pendingVerifications,
             world.history, world.tick, cleanHeartbeatsSinceCautious, granted, heartbeats, birth)
    }

    /** `new_shared`, right after reconciling: a process with an empty memory on the given database. */
    constructor (db: Database, constitution: Constitution, clock: nat, wire: seq<Command>, ghost before: Server)
      requires before.wire == wire && before.clock == clock
      ensures this.db == db && governor.constitution == constitution && fresh(governor) && fresh(world)
      ensures View() == Reborn(before, db.View())
    {
      this.db := db;
      this.clock, this.wire, this.connection := clock, wire, None;
      pendingActions, pendingVerifications, cleanHeartbeatsSinceCautious := map[], map[], 0;
      granted, heartbeats := [], 0;
      var g := new Governor(constitution);
      var w := new WorldModel();
      governor, world := g, w;
      birth := Birth(|db.actions|, |wire|, |db.transitions|);
    }

    method EnsureRecentSnapshot(simulation: Uuid, currentTick: nat, maxAgeTicks: nat, f: SnapshotFaults)
      returns (id: Option<nat>)
      modifies db
      ensures (db.View(), id) == Servers.EnsureRecentSnapshot(old(db.View()), simulation, currentTick, maxAgeTicks, f)
    {
      if !f.answered {
        return None;
      }
      var latest := LatestSnapshot(db.snapshots, simulation);
      if latest.Some? && latest.value < |db.snapshots| {
        if SaturatingSub(currentTick, db.snapshots[latest.value].tick) <= maxAgeTicks {
          return latest;
        }
      }
      if !f.script {
        return None;
      }
      id := db.InsertSnapshot(simulation, currentTick, f.insert);
    }

    method RestoreSnapshot(snapshot: nat, trigger: Trigger, f: RestoreFaults) returns (id: Option<nat>)
      modifies db
      ensures (db.View(), id) == Servers.RestoreSnapshot(old(db.View()), snapshot, trigger, f)
    {
      if !f.answered || snapshot >= |db.snapshots| || !f.copied {
        return None;
      }
      id := db.InsertRollback(RollbackRow(db.snapshots[snapshot].simulation, snapshot, trigger), f.insert);
    }

    method TriggerAutomaticRollback(simulation: Uuid, snapshot: nat, action: nat, currentTick: nat, f: RollbackFaults)
      modifies db
      ensures db.View() == TriggerRollback(governor.constitution, old(db.View()), simulation, snapshot, action, currentTick, f)
    {
      var read := db.CurrentSafetyState(Some(simulation), currentTick, f.read);
      var fromState := if read.Some? then read.value else Normal;
      var entered := db.InsertStateTransition(RollbackEntered(simulation, fromState), f.enter);
      var rollback := RestoreSnapshot(snapshot, Automatic(action), f.restore);
      if rollback.Some? {
        var untilTick := currentTick + governor.constitution.conservationTicks;
        var conserved := db.InsertStateTransition(ConservationEntered(simulation, untilTick), f.conserve);
      }
    }

    /** The steps of `handle_proposal` before the governor is asked. */
    method ScreenProposal(simulation: Uuid, currentTick: nat, proposal: Proposal, f: ProposalFaults)
      returns (screened: Option<(nat, nat)>)
      modifies db
      ensures (db.View(), screened) ==
              Screen(governor.constitution, old(db.View()), simulation, currentTick, proposal, f)
    {
      var proposalId := db.InsertProposal(simulation, proposal, f.proposal);
      if proposalId.None? {
        return None;
      }
      var state := db.CurrentSafetyState(Some(simulation), currentTick, f.read);
      if state.None? {
        return None;
      }
      if !state.value.AuthorizesProposals() {
        var rejection := db.InsertAuthorization(proposalId.value, Rejected(BlockedBy(state.value)), f.rejection);
        return None;
      }
      var snapshotId := EnsureRecentSnapshot(simulation, currentTick, governor.constitution.snapshotMaxAgeTicks, f.snapshot);
      if snapshotId.None? {
        var rejection := db.InsertAuthorization(proposalId.value, Rejected(NoRecentSnapshot), f.rejection);
        return None;
      }
      screened := Some((proposalId.value, snapshotId.value));
    }

    /** The governor's turn. */
    method JudgeProposal(currentTick: nat, proposal: Proposal, proposalId: nat, f: ProposalFaults)
      returns (authorizationId: Option<nat>)
      modifies this, db, governor
      ensures (View(), authorizationId) ==
              Judge(governor.constitution, old(View()), currentTick, proposal, proposalId, f)
    {
      clock := clock + f.wait;
      var verdict := governor.Authorize(proposal, currentTick, clock);
      granted := Extend(granted, verdict, proposal, currentTick, clock);
      authorizationId := db.InsertAuthorization(proposalId, verdict, f.authorization);
      if !verdict.Authorized? {
        authorizationId := None;
      }
    }

    /** Record the action, then write the command. */
    method SendCommand(simulation: Uuid, currentTick: nat, currentCash: int, proposal: Proposal, authorizationId: nat,
                       snapshotId: nat, f: ProposalFaults)
      modifies this, db
      ensures View() == Execute(old(View()), simulation, currentTick, currentCash, proposal, authorizationId, snapshotId, f)
    {
      var idempotencyKey := KeyText(simulation, proposal.rideId, currentTick);
      var actionId := db.InsertAction(
        ActionRow(authorizationId, proposal.rideId, proposal.proposedPrice, idempotencyKey, proposal.expiryTick,
                  currentTick, clock), f.action);
      if actionId.None? {
        return;
      }
      var messageId := |wire|;
      wire := wire + [Command(actionId.value, simulation, proposal.rideId, AsU32(proposal.proposedPrice), idempotencyKey,
                              proposal.expiryTick, currentTick, snapshotId, currentCash, !f.send.Refused?)];
      if f.send.Committed? {
        pendingActions := pendingActions[messageId := PendingAction(actionId.value, snapshotId, currentCash)];
      }
    }

    method HandleProposal(simulation: Uuid, currentTick: nat, currentCash: int, proposal: Proposal, f: ProposalFaults)
      modifies this, db, governor
      ensures View() == Servers.HandleProposal(governor.constitution, old(View()), simulation, currentTick, currentCash, proposal, f)
    {
      var screened := ScreenProposal(simulation, currentTick, proposal, f);
      if screened.None? {
        return;
      }
      var authorizationId := JudgeProposal(currentTick, proposal, screened.value.0, f);
      if authorizationId.Some? {
        SendCommand(simulation, currentTick, currentCash, proposal, authorizationId.value, screened.value.1, f);
      }
    }

    method HandleEach(simulation: Uuid, currentTick: nat, currentCash: int, proposals: seq<Proposal>, fs: seq<ProposalFaults>)
      requires |proposals| <= |fs|
      modifies this, db, governor
      ensures View() ==
              HandleProposals(governor.constitution, old(View()), simulation, currentTick, currentCash, proposals, fs)
    {
      for i := 0 to |proposals|
        invariant View() ==
                  HandleProposals(governor.constitution, old(View()), simulation, currentTick, currentCash, proposals[..i], fs)
      {
        assert proposals[..i + 1][..i] == proposals[..i];
        HandleProposal(simulation, currentTick, currentCash, proposals[i], fs[i]);
      }
      assert proposals[..|proposals|] == proposals;
    }

    /** One shot for each: the map is empty afterwards, whatever the order it drains in. */
    method CheckPendingVerifications(simulation: Uuid, currentTick: nat, currentCash: int, order: seq<nat>, fs: seq<RollbackFaults>)
      requires |order| <= |fs|
      modifies this, db
      ensures View() == VerifyAll(governor.constitution, old(View()), simulation, currentTick, currentCash, order, fs)
    {
      assert order[..0] == [];
      for i := 0 to |order|
        invariant View() == VerifyAll(governor.constitution, old(View()), simulation, currentTick, currentCash, order[..i], fs)
      {
        assert order[..i + 1][..i] == order[..i];
        var actionId := order[i];
        if actionId in pendingVerifications {
          var pending := pendingVerifications[actionId];
          pendingVerifications := pendingVerifications - {actionId};
          var delta := currentCash - pending.cashBefore;
          if delta < -governor.constitution.maxUnexpectedCashDrop {
            TriggerAutomaticRollback(simulation, pending.snapshot, actionId, currentTick, fs[i]);
          }
        }
      }
      assert order[..|order|] == order;
    }

    method OnObservationSnapshot(simulation: Uuid, snapshot: Observation, order: seq<nat>, rollbacks: seq<RollbackFaults>,
                                 faults: seq<ProposalFaults>)
      requires |order| <= |rollbacks| && |ProposalsOn(governor.constitution, View(), snapshot)| <= |faults|
      modifies this, db, governor, world
      ensures View() == Observe(governor.constitution, old(View()), simulation, snapshot, order, rollbacks, faults)
    {
      world.RecordSnapshot(snapshot);
      var currentTick := if world.tick.Some? then world.tick.value else 0;
      CheckPendingVerifications(simulation, currentTick, snapshot.cash, order, rollbacks);
      var proposals := ProposePriceChanges(world.history, governor.constitution, currentTick);
      HandleEach(simulation, currentTick, snapshot.cash, proposals, faults);
    }

    method OnHeartbeat(simulation: Uuid, tick: nat, read: ReadFaults, write: Write)
      modifies this, db, world
      ensures View() == HandleHeartbeat(governor.constitution, old(View()), simulation, tick, read, write)
    {
      world.RecordTick(tick);
      heartbeats := heartbeats + 1;
      assert View() == old(View()).(tick := Some(tick), heartbeats := old(heartbeats) + 1);
      RecoverFromCautiousOnCleanHeartbeat(simulation, tick, read, write);
    }

    method RecoverFromCautiousOnCleanHeartbeat(simulation: Uuid, currentTick: nat, read: ReadFaults, write: Write)
      modifies this, db
      ensures View() == RecoverFromCautious(governor.constitution, old(View()), simulation, currentTick, read, write)
    {
      var state := db.CurrentSafetyState(Some(simulation), currentTick, read);
      if state.None? {
        return;
      }
      if state.value != Cautious {
        cleanHeartbeatsSinceCautious := 0;
        return;
      }
      cleanHeartbeatsSinceCautious := cleanHeartbeatsSinceCautious + 1;
      if cleanHeartbeatsSinceCautious >= governor.constitution.cautiousRecoveryHeartbeats {
        var id := db.InsertStateTransition(CautiousCleared(simulation), write);
        if id.Some? {
          cleanHeartbeatsSinceCautious := 0;
        }
      }
    }

    method OnCommandResult(simulation: Uuid, correlation: Option<nat>, cost: Option<int>, failed: bool, insert: Write, f: RollbackFaults)
      modifies this, db
      ensures View() == HandleResult(governor.constitution, old(View()), simulation, correlation, cost, failed, insert, f)
    {
      if correlation.None? {
        return;
      }
      if correlation.value !in pendingActions {
        return;
      }
      var pending := pendingActions[correlation.value];
      pendingActions := pendingActions - {correlation.value};
      var result := db.InsertActionResult(ResultRow(pending.action, cost, failed), insert);
      if result.None? {
        return;
      }
      if failed {
        var currentTick := if world.tick.Some? then world.tick.value else 0;
        TriggerAutomaticRollback(simulation, pending.snapshot, pending.action, currentTick, f);
      } else {
        pendingVerifications := pendingVerifications[pending.action := PendingVerification(pending.snapshot, pending.cashBefore)];
      }
    }

    method OnHello(simulation: Uuid, write: Write)
      modifies db
      ensures View() == old(View()).(ledger := AddSimulation(old(View()).ledger, simulation, write))
    {
      db.InsertSimulationStart(simulation, write);
    }

    /** The two maps live as long as their connection. */
    method OnDisconnect()
      modifies this
      ensures View() == old(View()).(connection := None, pendingActions := map[], pendingVerifications := map[])
    {
      connection := None;
      pendingActions := map[];
      pendingVerifications := map[];
    }
  }

  /** `reconcile_on_startup`; false means that the process gives up. */
  method ReconcileOnStartup(db: Database, answered: bool, read: ReadFaults, write: Write) returns (ok: bool)
    modifies db
    ensures (db.View(), ok) == Reconcile(old(db.View()), answered, read, write)
  {
    if !answered {
      return false;
    }
    var fromState := db.CurrentSafetyState(None, 0, read);
    if fromState.None? {
      return false;
    }
    var id := db.InsertStateTransition(StartupRow(fromState.value), write);
    ok := id.Some?;
  }

  /** The `resolve` subcommand. */
  method ResolveCommand(db: Database, read: ReadFaults, write: Write)
    modifies db
    ensures db.View() == ResolveByHand(old(db.View()), read, write)
  {
    var fromState := db.CurrentSafetyState(None, 0, read);
    if fromState.None? || !fromState.value.RequiresManualResolution() {
      return;
    }
    var id := db.InsertStateTransition(ResolvedByHand(fromState.value), write);
  }
}

/** The watchdog process, in the source's own imperative form. */
module WatchdogProcesses {
  import opened Common
  import opened SafetyStates
  import opened Governors
  import opened Ledgers
  import opened Watchdogs
  import opened Oscillation

  class WatchdogProcess {
    const db: Database
    const constitution: Constitution
    var dbUnreachableSince: Option<nat>

    constructor (db: Database, constitution: Constitution)
      ensures this.db == db && this.constitution == constitution && dbUnreachableSince == None
    {
      this.db, this.constitution, dbUnreachableSince := db, constitution, None;
    }

    method Escalate(to: SafetyState, f: EscalationFaults)
      modifies db
      ensures db.View() == Watchdogs.Escalate(old(db.View()), to, f)
    {
      var from := db.CurrentSafetyState(None, 0, f.read);
      if from.None? {
        return;
      }
      if from.value == to || from.value.Stopped? {
        return;
      }
      var id := db.InsertStateTransition(Escalation(from.value, to), f.write);
    }

    method CheckActionRate(simulation: Uuid, now: nat, answered: bool, f: EscalationFaults)
      modifies db
      ensures db.View() == Watchdogs.CheckActionRate(constitution, old(db.View()), simulation, now, answered, f)
    {
      if answered {
        var count := ActionsInLastMinute(db.View(), simulation, now, |db.actions|);
        if count > constitution.actionRateStoppedThresholdPerMinute {
          Escalate(Stopped, f);
        }
      }
    }

    method GroupByRide(changes: seq<PriceChange>) returns (byRide: map<nat, seq<int>>)
      ensures byRide.Keys == RidesIn(changes)
      ensures forall ride :: ride in byRide ==> byRide[ride] == PricesOf(changes, ride)
    {
      byRide := map[];
      for i := 0 to |changes|
        invariant byRide.Keys == RidesIn(changes[..i])
        invariant forall ride :: ride in byRide ==> byRide[ride] == PricesOf(changes[..i], ride)
        invariant forall ride :: ride !in byRide ==> PricesOf(changes[..i], ride) == []
      {
        var change := changes[i];
        PricesStep(changes, i);
        var prices := if change.rideId in byRide then byRide[change.rideId] else [];
        byRide := byRide[change.rideId := prices + [change.price]];
        RidesStep(changes, i);
      }
      assert changes[..|changes|] == changes;
    }

    lemma PricesStep(changes: seq<PriceChange>, i: nat)
      requires i < |changes|
      ensures forall ride :: PricesOf(changes[..i + 1], ride) ==
                             PricesOf(changes[..i], ride) + if changes[i].rideId == ride then [changes[i].price] else []
    {
      assert changes[..i + 1][..i] == changes[..i];
    }

    lemma RidesStep(changes: seq<PriceChange>, i: nat)
      requires i < |changes|
      ensures RidesIn(changes[..i + 1]) == RidesIn(changes[..i]) + {changes[i].rideId}
    {
      assert changes[..i + 1] == changes[..i] + [changes[i]];
    }

    /** The rides are visited in no particular order; each that tripped is reported. */
    method ReportTripped(byRide: map<nat, seq<int>>, ghost tripped: set<nat>, fs: seq<EscalationFaults>)
      requires tripped <= byRide.Keys && |tripped| <= |fs|
      requires forall ride :: ride in byRide ==>
                 (ride in tripped <==> Reversals(byRide[ride]) > constitution.oscillationMaxReversals)
      modifies db
      ensures db.View() == EscalateTimes(old(db.View()), Quarantine, |tripped|, fs)
    {
      var todo := byRide.Keys;
      var used := 0;
      assert tripped * todo == tripped;
      while todo != {}
        invariant todo <= byRide.Keys
        invariant used + |tripped * todo| == |tripped|
        invariant db.View() == EscalateTimes(old(db.View()), Quarantine, used, fs)
        decreases todo
      {
        var ride :| ride in todo;
        var reversals := CountReversals(byRide[ride]);
        TakeOne(tripped, todo, ride);
        todo := todo - {ride};
        if reversals > constitution.oscillationMaxReversals {
          Escalate(Quarantine, fs[used]);
          used := used + 1;
        }
      }
      assert tripped * {} == {};
    }

    lemma TakeOne(tripped: set<nat>, todo: set<nat>, ride: nat)
      requires ride in todo
      ensures |tripped * todo| == |tripped * (todo - {ride})| + if ride in tripped then 1 else 0
    {
      if ride in tripped {
        assert tripped * todo == tripped * (todo - {ride}) + {ride};
      } else {
        assert tripped * todo == tripped * (todo - {ride});
      }
    }

    method CheckOscillation(simulation: Uuid, answered: bool, fs: seq<EscalationFaults>)
      requires |Tripped(constitution, RecentPriceChanges(db.View(), simulation, constitution.oscillationWindowTicks))| <= |fs|
      modifies db
      ensures db.View() == Watchdogs.CheckOscillation(constitution, old(db.View()), simulation, answered, fs)
    {
      if answered {
        var changes := RecentPriceChanges(db.View(), simulation, constitution.oscillationWindowTicks);
        var byRide := GroupByRide(changes);
        ReportTripped(byRide, Tripped(constitution, changes), fs);
      }
    }

    /** The checks on the most recently started simulation. */
    method RunChecks(now: nat, f: PollFaults)
      requires |f.oscillation| >= |db.actions|
      modifies db
      ensures db.View() == PollChecks(constitution, old(db.View()), now, f)
    {
      if f.simulationRead && db.simulations != [] {
        var simulation := db.simulations[|db.simulations| - 1];
        CheckActionRate(simulation, now, f.rateRead, f.rate);
        TrippedAreFew(constitution, db.View(), simulation);
        CheckOscillation(simulation, f.oscillationRead, f.oscillation);
      }
    }

    /** One turn of the loop. The timer starts at the first failed probe and is taken at the next
        successful one. */
    method Poll(now: nat, f: PollFaults)
      requires |f.oscillation| >= |db.actions|
      modifies this, db
      ensures db.View() == Watchdogs.Poll(constitution, old(db.View()), old(dbUnreachableSince), now, f)
      ensures dbUnreachableSince == Timer(old(dbUnreachableSince), now, f.reachable)
    {
      if !f.reachable {
        if dbUnreachableSince.None? {
          dbUnreachableSince := Some(now);
        }
        return;
      }
      if dbUnreachableSince.Some? {
        var outage := SaturatingSub(now, dbUnreachableSince.value);
        dbUnreachableSince := None;
        if outage >= constitution.dbUnreachableStoppedAfterSecs * SECOND {
          Escalate(Stopped, f.outage);
        }
      }
      RunChecks(now, f);
    }
  }
}
