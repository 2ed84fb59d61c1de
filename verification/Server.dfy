/** The orchestrator's message handlers (core/orchestrator/src/tcp_server.rs, snapshot.rs,
    startup.rs, main.rs) as functions of the whole state. Every database call, the snapshot script,
    the file copy and the socket write is told by a fault record what becomes of it. */
module Servers {
  import opened Common
  import opened SafetyStates
  import opened Governors
  import opened GovernorLaws
  import opened WorldModels
  import opened Operators
  import opened IdempotencyKeys
  import opened Ledgers

  /** One attempt to write a command.request to the socket. Its position in the log of attempts is
      its message id. `delivered` tells whether the bytes reached the bridge. */
  datatype Command = Command(action: nat, simulation: Uuid, rideId: nat, price: nat, key: string, expiryTick: nat,
                             tick: nat, snapshot: nat, cash: int, delivered: bool)

  datatype PendingAction = PendingAction(action: nat, snapshot: nat, cashBefore: int)

  datatype PendingVerification = PendingVerification(snapshot: nat, cashBefore: int)

  /** The ledger and the wire outlive the process; the other fields are the process's own memory,
      except the last four, which only record what this process did: every grant of its governor,
      the heartbeats it handled, and how long `actions`, `wire` and `transitions` were when it started. */
  datatype Server = Server(
    ledger: Ledger,
    wire: seq<Command>,
    clock: nat,
    up: bool,
    connection: Option<Uuid>,
    governor: GovernorState,
    pendingActions: map<nat, PendingAction>,
    pendingVerifications: map<nat, PendingVerification>,
    history: seq<Observation>,
    tick: Option<nat>,
    cleanHeartbeats: nat,
    granted: seq<Grant>,
    heartbeats: nat,
    birth: Birth
  )

  datatype Birth = Birth(actions: nat, wire: nat, transitions: nat)

  function CurrentTick(s: Server): nat {
    s.tick.GetOr(0)
  }

  // --- Snapshots and rollbacks -----------------------------------------------------

  datatype SnapshotFaults = SnapshotFaults(answered: bool, script: bool, insert: Write)

  /** `ensure_recent_snapshot`: the latest one if young enough, else a fresh one. */
  function EnsureRecentSnapshot(l: Ledger, simulation: Uuid, tick: nat, maxAge: nat, f: SnapshotFaults):
    (Ledger, Option<nat>)
  {
    if !f.answered then (l, None)
    else
      var latest := LatestSnapshot(l.snapshots, simulation);
      if latest.Some? && latest.value < |l.snapshots| && SaturatingSub(tick, l.snapshots[latest.value].tick) <= maxAge then
        (l, latest)
      else if !f.script then (l, None)
      else AddSnapshot(l, SnapshotRow(simulation, tick), f.insert)
  }

  datatype RestoreFaults = RestoreFaults(answered: bool, copied: bool, insert: Write)

  /** `restore_snapshot`, as far as the ledger shows it. */
  function RestoreSnapshot(l: Ledger, snapshot: nat, trigger: Trigger, f: RestoreFaults): (Ledger, Option<nat>) {
    if !f.answered || snapshot >= |l.snapshots| || !f.copied then (l, None)
    else AddRollback(l, RollbackRow(l.snapshots[snapshot].simulation, snapshot, trigger), f.insert)
  }

  datatype RollbackFaults = RollbackFaults(read: ReadFaults, enter: Write, restore: RestoreFaults, conserve: Write)

  function RollbackEntered(simulation: Uuid, from: SafetyState): TransitionRow {
    TransitionRow(Some(simulation), from, Rollback, Orchestrator, None)
  }

  function ConservationEntered(simulation: Uuid, untilTick: nat): TransitionRow {
    TransitionRow(Some(simulation), Rollback, Conservation, Orchestrator, Some(untilTick))
  }

  /** `trigger_automatic_rollback`. */
  function TriggerRollback(c: Constitution, l: Ledger, simulation: Uuid, snapshot: nat, action: nat, tick: nat,
                           f: RollbackFaults): Ledger
  {
    var (l1, state) := ReadSafety(l, Some(simulation), tick, f.read);
    var (l2, _) := AddTransition(l1, RollbackEntered(simulation, state.GetOr(Normal)), f.enter);
    var (l3, rollback) := RestoreSnapshot(l2, snapshot, Automatic(action), f.restore);
    if rollback.None? then l3
    else AddTransition(l3, ConservationEntered(simulation, tick + c.conservationTicks), f.conserve).0
  }

  // --- One proposal ------------------------------------------------------------------

  /** `wait` is how far the clock moves before the governor reads it. */
  datatype ProposalFaults = ProposalFaults(
    proposal: Write,
    read: ReadFaults,
    rejection: Write,
    snapshot: SnapshotFaults,
    wait: nat,
    authorization: Write,
    action: Write,
    send: Write
  )

  /** The part of `handle_proposal` before the governor: on success, the proposal's row and the
      snapshot to roll back to. */
  function Screen(c: Constitution, l: Ledger, simulation: Uuid, tick: nat, p: Proposal, f: ProposalFaults):
    (Ledger, Option<(nat, nat)>)
  {
    var (l1, proposal) := AddProposal(l, ProposalRow(simulation, p), f.proposal);
    if proposal.None? then (l1, None)
    else
      var (l2, state) := ReadSafety(l1, Some(simulation), tick, f.read);
      if state.None? then (l2, None)
      else if !state.value.AuthorizesProposals() then
        (AddAuthorization(l2, AuthorizationRow(proposal.value, Rejected(BlockedBy(state.value))), f.rejection).0, None)
      else
        var (l3, snapshot) := EnsureRecentSnapshot(l2, simulation, tick, c.snapshotMaxAgeTicks, f.snapshot);
        if snapshot.None? then
          (AddAuthorization(l3, AuthorizationRow(proposal.value, Rejected(NoRecentSnapshot)), f.rejection).0, None)
        else (l3, Some((proposal.value, snapshot.value)))
  }

  /** The governor's turn: its verdict, and the authorization's row if the caller may act on it. */
  function Judge(c: Constitution, s: Server, tick: nat, p: Proposal, proposal: nat, f: ProposalFaults):
    (Server, Option<nat>)
  {
    var now := s.clock + f.wait;
    var (g, verdict) := Ruling(c, s.governor, p, tick, now);
    var (l, authorization) := AddAuthorization(s.ledger, AuthorizationRow(proposal, verdict), f.authorization);
    (s.(ledger := l, governor := g, clock := now, granted := Extend(s.granted, verdict, p, tick, now)),
     if verdict.Authorized? then authorization else None)
  }

  function ActionFor(simulation: Uuid, tick: nat, p: Proposal, authorization: nat, now: nat): ActionRow {
    ActionRow(authorization, p.rideId, p.proposedPrice, KeyText(simulation, p.rideId, tick), p.expiryTick, tick, now)
  }

  /** Record the action, write the command, and wait for its result if the write went through. */
  function Execute(s: Server, simulation: Uuid, tick: nat, cash: int, p: Proposal, authorization: nat, snapshot: nat,
                   f: ProposalFaults): Server
  {
    var row := ActionFor(simulation, tick, p, authorization, s.clock);
    var (l, action) := AddAction(s.ledger, row, f.action);
    if action.None? then s.(ledger := l)
    else
      var command := Command(action.value, simulation, p.rideId, AsU32(p.proposedPrice), row.key, p.expiryTick, tick,
                             snapshot, cash, !f.send.Refused?);
      s.(ledger := l, wire := s.wire + [command],
         pendingActions := if f.send.Committed?
                           then s.pendingActions[|s.wire| := PendingAction(action.value, snapshot, cash)]
                           else s.pendingActions)
  }

  /** `handle_proposal`. */
  function HandleProposal(c: Constitution, s: Server, simulation: Uuid, tick: nat, cash: int, p: Proposal,
                          f: ProposalFaults): Server
  {
    var (l, screened) := Screen(c, s.ledger, simulation, tick, p, f);
    var s1 := s.(ledger := l);
    if screened.None? then s1
    else
      var (s2, authorization) := Judge(c, s1, tick, p, screened.value.0, f);
      if authorization.None? then s2
      else Execute(s2, simulation, tick, cash, p, authorization.value, screened.value.1, f)
  }

  /** The loop over one snapshot's proposals. */
  function HandleProposals(c: Constitution, s: Server, simulation: Uuid, tick: nat, cash: int, ps: seq<Proposal>,
                           fs: seq<ProposalFaults>): Server
    requires |ps| <= |fs|
  {
    if ps == [] then s
    else
      var n := |ps| - 1;
      HandleProposal(c, HandleProposals(c, s, simulation, tick, cash, ps[..n], fs), simulation, tick, cash, ps[n], fs[n])
  }

  // --- Verification ---------------------------------------------------------------------

  /** The cash an action left behind is further below its baseline than the constitution allows. */
  predicate DroppedTooFar(c: Constitution, v: PendingVerification, cash: int) {
    cash - v.cashBefore < -c.maxUnexpectedCashDrop
  }

  /** One turn of the draining loop in `check_pending_verifications`. */
  function VerifyOne(c: Constitution, s: Server, simulation: Uuid, tick: nat, cash: int, action: nat,
                     f: RollbackFaults): Server
  {
    if action !in s.pendingVerifications then s
    else
      var v := s.pendingVerifications[action];
      s.(pendingVerifications := s.pendingVerifications - {action},
         ledger := if DroppedTooFar(c, v, cash)
                   then TriggerRollback(c, s.ledger, simulation, v.snapshot, action, tick, f)
                   else s.ledger)
  }

  /** `drain` visits the map in an order of its own, given here. */
  function VerifyAll(c: Constitution, s: Server, simulation: Uuid, tick: nat, cash: int, order: seq<nat>,
                     fs: seq<RollbackFaults>): Server
    requires |order| <= |fs|
  {
    if order == [] then s
    else
      var n := |order| - 1;
      VerifyOne(c, VerifyAll(c, s, simulation, tick, cash, order[..n], fs), simulation, tick, cash, order[n], fs[n])
  }

  // --- Messages ---------------------------------------------------------------------------

  /** observation.snapshot. */
  function Observe(c: Constitution, s: Server, simulation: Uuid, o: Observation, order: seq<nat>,
                   rollbacks: seq<RollbackFaults>, proposals: seq<ProposalFaults>): Server
    requires |order| <= |rollbacks| && |ProposalsOn(c, s, o)| <= |proposals|
  {
    var s1 := s.(history := Suffix(s.history + [o], MAX_HISTORY));
    var s2 := VerifyAll(c, s1, simulation, CurrentTick(s), o.cash, order, rollbacks);
    HandleProposals(c, s2, simulation, CurrentTick(s), o.cash, ProposalsOn(c, s, o), proposals)
  }

  /** What the operator proposes on seeing `o`. */
  function ProposalsOn(c: Constitution, s: Server, o: Observation): seq<Proposal> {
    Proposals(Suffix(s.history + [o], MAX_HISTORY), c, CurrentTick(s))
  }

  /** command.result, with the envelope's correlation id. */
  function HandleResult(c: Constitution, s: Server, simulation: Uuid, correlation: Option<nat>, cost: Option<int>,
                        failed: bool, insert: Write, f: RollbackFaults): Server
  {
    if correlation.None? || correlation.value !in s.pendingActions then s
    else
      var pending := s.pendingActions[correlation.value];
      var (l, result) := AddResult(s.ledger, ResultRow(pending.action, cost, failed), insert);
      var s1 := s.(ledger := l, pendingActions := s.pendingActions - {correlation.value});
      if result.None? then s1
      else if failed then
        s1.(ledger := TriggerRollback(c, l, simulation, pending.snapshot, pending.action, CurrentTick(s), f))
      else
        s1.(pendingVerifications :=
              s.pendingVerifications[pending.action := PendingVerification(pending.snapshot, pending.cashBefore)])
  }

  function CautiousCleared(simulation: Uuid): TransitionRow {
    TransitionRow(Some(simulation), Cautious, Normal, Orchestrator, None)
  }

  /** `recover_from_cautious_on_clean_heartbeat`. */
  function RecoverFromCautious(c: Constitution, s: Server, simulation: Uuid, tick: nat, read: ReadFaults, write: Write):
    Server
  {
    var (l, state) := ReadSafety(s.ledger, Some(simulation), tick, read);
    if state.None? then s.(ledger := l)
    else if state.value != Cautious then s.(ledger := l, cleanHeartbeats := 0)
    else
      var count := s.cleanHeartbeats + 1;
      if count < c.cautiousRecoveryHeartbeats then s.(ledger := l, cleanHeartbeats := count)
      else
        var (l', id) := AddTransition(l, CautiousCleared(simulation), write);
        s.(ledger := l', cleanHeartbeats := if id.Some? then 0 else count)
  }

  /** heartbeat: any tick is taken as it comes. */
  function HandleHeartbeat(c: Constitution, s: Server, simulation: Uuid, tick: nat, read: ReadFaults, write: Write): Server {
    RecoverFromCautious(c, s.(tick := Some(tick), heartbeats := s.heartbeats + 1), simulation, tick, read, write)
  }

  // --- Process and operator ------------------------------------------------------------------

  function StartupRow(from: SafetyState): TransitionRow {
    TransitionRow(None, from, Cautious, Orchestrator, None)
  }

  /** `reconcile_on_startup`: the ledger afterwards, and whether the process may go on. */
  function Reconcile(l: Ledger, answered: bool, read: ReadFaults, write: Write): (Ledger, bool) {
    if !answered then (l, false)
    else
      var (l1, from) := ReadSafety(l, None, 0, read);
      if from.None? then (l1, false)
      else
        var (l2, id) := AddTransition(l1, StartupRow(from.value), write);
        (l2, id.Some?)
  }

  /** A new process on ledger `l`: empty memory, a fresh governor. */
  function Reborn(s: Server, l: Ledger): Server {
    Server(l, s.wire, s.clock, true, None, FRESH_GOVERNOR, map[], map[], [], None, 0, [], 0,
           Birth(|l.actions|, |s.wire|, |l.transitions|))
  }

  /** `configured` stands for everything startup reads after reconciling. */
  function Restart(s: Server, answered: bool, read: ReadFaults, write: Write, configured: bool): Server {
    var (l, reconciled) := Reconcile(s.ledger, answered, read, write);
    if reconciled && configured then Reborn(s, l) else s.(ledger := l)
  }

  function ResolvedByHand(from: SafetyState): TransitionRow {
    TransitionRow(None, from, Normal, Human, None)
  }

  /** `orchestrator resolve`. */
  function ResolveByHand(l: Ledger, read: ReadFaults, write: Write): Ledger {
    var (l1, from) := ReadSafety(l, None, 0, read);
    if from.None? || !from.value.RequiresManualResolution() then l1
    else AddTransition(l1, ResolvedByHand(from.value), write).0
  }
}

/** The watchdog's checks (core/orchestrator/src/bin/watchdog.rs) as functions of the ledger. */
module Watchdogs {
  import opened Common
  import opened SafetyStates
  import opened Governors
  import opened Ledgers
  import opened Oscillation

  datatype EscalationFaults = EscalationFaults(read: ReadFaults, write: Write)

  function Escalation(from: SafetyState, to: SafetyState): TransitionRow {
    TransitionRow(None, from, to, Watchdog, None)
  }

  /** `escalate`. */
  function Escalate(l: Ledger, to: SafetyState, f: EscalationFaults): Ledger {
    var (l1, from) := ReadSafety(l, None, 0, f.read);
    if from.None? || from.value == to || from.value.Stopped? then l1
    else AddTransition(l1, Escalation(from.value, to), f.write).0
  }

  /** `fs` is consumed one entry at a time, by the `count` calls in a row. */
  function EscalateTimes(l: Ledger, to: SafetyState, count: nat, fs: seq<EscalationFaults>): Ledger
    requires count <= |fs|
  {
    if count == 0 then l else Escalate(EscalateTimes(l, to, count - 1, fs), to, fs[count - 1])
  }

  function CheckActionRate(c: Constitution, l: Ledger, simulation: Uuid, now: nat, answered: bool, f: EscalationFaults): Ledger {
    if answered && ActionsInLastMinute(l, simulation, now, |l.actions|) > c.actionRateStoppedThresholdPerMinute
    then Escalate(l, Stopped, f)
    else l
  }

  /** The prices of one ride, in the order the query returned them. */
  function PricesOf(changes: seq<PriceChange>, ride: nat): seq<int> {
    if changes == [] then []
    else
      var n := |changes| - 1;
      PricesOf(changes[..n], ride) + if changes[n].rideId == ride then [changes[n].price] else []
  }

  function RidesIn(changes: seq<PriceChange>): set<nat> {
    set i | 0 <= i < |changes| :: changes[i].rideId
  }

  /** The rides whose price reversed too often. */
  function Tripped(c: Constitution, changes: seq<PriceChange>): set<nat> {
    set ride | ride in RidesIn(changes) && Reversals(PricesOf(changes, ride)) > c.oscillationMaxReversals
  }

  function CheckOscillation(c: Constitution, l: Ledger, simulation: Uuid, answered: bool, fs: seq<EscalationFaults>): Ledger
    requires |Tripped(c, RecentPriceChanges(l, simulation, c.oscillationWindowTicks))| <= |fs|
  {
    if !answered then l
    else EscalateTimes(l, Quarantine, |Tripped(c, RecentPriceChanges(l, simulation, c.oscillationWindowTicks))|, fs)
  }

  /** `reachable` is the probe; the other flags are the three queries. */
  datatype PollFaults = PollFaults(
    reachable: bool,
    outage: EscalationFaults,
    simulationRead: bool,
    rateRead: bool,
    rate: EscalationFaults,
    oscillationRead: bool,
    oscillation: seq<EscalationFaults>
  )

  /** The outage timer, the instant the database was first found unreachable, after one probe. */
  function Timer(since: Option<nat>, now: nat, reachable: bool): Option<nat> {
    if reachable then None else if since.Some? then since else Some(now)
  }

  /** The database has just come back after an outage that was long enough. */
  predicate OutageEnded(c: Constitution, since: Option<nat>, now: nat) {
    since.Some? && SaturatingSub(now, since.value) >= c.dbUnreachableStoppedAfterSecs * SECOND
  }

  function PollOutage(c: Constitution, l: Ledger, since: Option<nat>, now: nat, f: EscalationFaults): Ledger {
    if OutageEnded(c, since, now) then Escalate(l, Stopped, f) else l
  }

  /** The checks on the most recently started simulation. */
  function PollChecks(c: Constitution, l: Ledger, now: nat, f: PollFaults): Ledger
    requires |f.oscillation| >= |l.actions|
  {
    if !f.simulationRead || l.simulations == [] then l
    else
      var simulation := l.simulations[|l.simulations| - 1];
      var l1 := CheckActionRate(c, l, simulation, now, f.rateRead, f.rate);
      TrippedAreFew(c, l1, simulation);
      CheckOscillation(c, l1, simulation, f.oscillationRead, f.oscillation)
  }

  /** One turn of the watchdog's loop. */
  function Poll(c: Constitution, l: Ledger, since: Option<nat>, now: nat, f: PollFaults): Ledger
    requires |f.oscillation| >= |l.actions|
  {
    if !f.reachable then l
    else PollChecks(c, PollOutage(c, l, since, now, f.outage), now, f)
  }

  lemma {:induction false} SortKeepsLength(xs: seq<PriceChange>)
    ensures |SortByTick(xs)| == |xs|
  {
    if xs != [] {
      SortKeepsLength(xs[..|xs| - 1]);
      InsertAddsOne(SortByTick(xs[..|xs| - 1]), xs[|xs| - 1]);
    }
  }

  lemma {:induction false} InsertAddsOne(sorted: seq<PriceChange>, x: PriceChange)
    ensures |InsertByTick(sorted, x)| == |sorted| + 1
  {
    if sorted != [] && sorted[|sorted| - 1].tick > x.tick {
      InsertAddsOne(sorted[..|sorted| - 1], x);
    }
  }

  lemma {:induction false} ChangesAreFew(l: Ledger, simulation: Uuid, since: int, n: nat)
    requires n <= |l.actions|
    ensures |ChangesSince(l, simulation, since, n)| <= n
  {
    if n > 0 {
      ChangesAreFew(l, simulation, since, n - 1);
    }
  }

  lemma {:induction false} RidesAreFew(changes: seq<PriceChange>)
    ensures |RidesIn(changes)| <= |changes|
  {
    if changes != [] {
      var n := |changes| - 1;
      RidesAreFew(changes[..n]);
      assert RidesIn(changes) == RidesIn(changes[..n]) + {changes[n].rideId};
    }
  }

  /** There are never more tripped rides than actions. */
  lemma TrippedAreFew(c: Constitution, l: Ledger, simulation: Uuid)
    ensures |Tripped(c, RecentPriceChanges(l, simulation, c.oscillationWindowTicks))| <= |l.actions|
  {
    var n := |l.actions|;
    var raw := ChangesSince(l, simulation, MaxTick(l, simulation, n) - c.oscillationWindowTicks, n);
    ChangesAreFew(l, simulation, MaxTick(l, simulation, n) - c.oscillationWindowTicks, n);
    SortKeepsLength(raw);
    var changes := RecentPriceChanges(l, simulation, c.oscillationWindowTicks);
    RidesAreFew(changes);
    SubsetIsSmaller(Tripped(c, changes), RidesIn(changes));
  }

  lemma {:induction false} SubsetIsSmaller(a: set<nat>, b: set<nat>)
    requires a <= b
    ensures |a| <= |b|
  {
    if a != {} {
      var x :| x in a;
      SubsetIsSmaller(a - {x}, b - {x});
    }
  }
}
