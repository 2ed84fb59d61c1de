/** Which rows each kind of step may append to `state_transitions`. The laws about the safety state
    follow from this alone. */
module Transitions {
  import opened Common
  import opened SafetyStates
  import opened Governors
  import opened Ledgers
  import opened SafetyReading
  import opened Servers
  import opened Watchdogs
  import opened Runs
  import WorldModels

  datatype Context =
    | Quiet
    | OnHeartbeat(simulation: Uuid, tick: nat)
    | OnMessage(simulation: Uuid, tick: nat)
    | OnProposal(simulation: Uuid, tick: nat)
    | OnStartup
    | OnPoll
    | OnResolve

  /** The scope and tick at which a step of this kind reads the safety state. */
  function ReadScope(ctx: Context): Option<Uuid> {
    if ctx.OnHeartbeat? || ctx.OnMessage? || ctx.OnProposal? then Some(ctx.simulation) else None
  }

  function ReadTick(ctx: Context): nat {
    if ctx.OnHeartbeat? || ctx.OnMessage? || ctx.OnProposal? then ctx.tick else 0
  }

  /** `row` closes a Conservation window that was the newest visible row and had run out. */
  predicate Heals(ctx: Context, rows: seq<TransitionRow>, row: TransitionRow) {
    var newest := Newest(rows, ReadScope(ctx));
    !ctx.Quiet? && newest.Some? && Expired(newest.value, ReadTick(ctx)) && row == RecoveryRow(ReadScope(ctx))
  }

  predicate ClearsCautious(ctx: Context, rows: seq<TransitionRow>, row: TransitionRow) {
    ctx.OnHeartbeat? && row == CautiousCleared(ctx.simulation) && Derived(rows, Some(ctx.simulation), ctx.tick).Cautious?
  }

  /** A rollback whose own read fails gives Normal as where it comes from. */
  predicate EntersRollback(ctx: Context, rows: seq<TransitionRow>, row: TransitionRow) {
    && ctx.OnMessage? && row == RollbackEntered(ctx.simulation, row.from)
    && (row.from.Normal? || row.from == Derived(rows, Some(ctx.simulation), ctx.tick))
  }

  predicate EntersConservation(c: Constitution, ctx: Context, row: TransitionRow) {
    ctx.OnMessage? && row == ConservationEntered(ctx.simulation, ctx.tick + c.conservationTicks)
  }

  predicate StartsUp(ctx: Context, rows: seq<TransitionRow>, row: TransitionRow) {
    ctx.OnStartup? && row == StartupRow(row.from) && row.from == Derived(rows, None, 0)
  }

  predicate Escalates(ctx: Context, rows: seq<TransitionRow>, row: TransitionRow) {
    && ctx.OnPoll? && row == Escalation(row.from, row.to) && (row.to.Quarantine? || row.to.Stopped?)
    && row.from == Derived(rows, None, 0) && row.from != row.to && !row.from.Stopped?
  }

  predicate Resolves(ctx: Context, rows: seq<TransitionRow>, row: TransitionRow) {
    && ctx.OnResolve? && row == ResolvedByHand(row.from)
    && row.from == Derived(rows, None, 0) && row.from.RequiresManualResolution()
  }

  /** The rows a step may append to `rows`. */
  predicate Allowed(c: Constitution, ctx: Context, rows: seq<TransitionRow>, row: TransitionRow) {
    || Heals(ctx, rows, row) || ClearsCautious(ctx, rows, row) || EntersRollback(ctx, rows, row)
    || EntersConservation(c, ctx, row) || StartsUp(ctx, rows, row) || Escalates(ctx, rows, row) || Resolves(ctx, rows, row)
  }

  /** `after` extends `before` by rows that were each allowed where they were appended. */
  ghost predicate Grown(c: Constitution, ctx: Context, before: seq<TransitionRow>, after: seq<TransitionRow>) {
    && |before| <= |after| && after[..|before|] == before
    && forall k :: |before| <= k < |after| ==> Allowed(c, ctx, after[..k], after[k])
  }

  lemma GrownAppend(c: Constitution, ctx: Context, rows: seq<TransitionRow>, row: TransitionRow)
    requires Allowed(c, ctx, rows, row)
    ensures Grown(c, ctx, rows, rows + [row])
  {
    assert (rows + [row])[..|rows|] == rows;
  }

  lemma GrownTransitive(c: Constitution, ctx: Context, a: seq<TransitionRow>, b: seq<TransitionRow>, d: seq<TransitionRow>)
    requires Grown(c, ctx, a, b) && Grown(c, ctx, b, d)
    ensures Grown(c, ctx, a, d)
  {
    assert d[..|a|] == b[..|a|];
    forall k | |a| <= k < |d| ensures Allowed(c, ctx, d[..k], d[k]) {
      if k < |b| {
        assert d[k] == d[..|b|][k];
        assert d[..k] == b[..k];
      }
    }
  }

  /** Handling a proposal can only do what handling its message can. */
  lemma ProposalIsPartOfMessage(c: Constitution, simulation: Uuid, tick: nat, a: seq<TransitionRow>, b: seq<TransitionRow>)
    requires Grown(c, OnProposal(simulation, tick), a, b)
    ensures Grown(c, OnMessage(simulation, tick), a, b)
  {
    forall k | |a| <= k < |b| ensures Allowed(c, OnMessage(simulation, tick), b[..k], b[k]) {
      assert Allowed(c, OnProposal(simulation, tick), b[..k], b[k]);
    }
  }

  // --- Step by step -----------------------------------------------------------------

  lemma ReadGrows(c: Constitution, ctx: Context, l: Ledger, f: ReadFaults)
    requires !ctx.Quiet?
    ensures Grown(c, ctx, l.transitions, ReadSafety(l, ReadScope(ctx), ReadTick(ctx), f).0.transitions)
  {
    if ReadSafety(l, ReadScope(ctx), ReadTick(ctx), f).0.transitions != l.transitions {
      GrownAppend(c, ctx, l.transitions, RecoveryRow(ReadScope(ctx)));
    }
  }

  lemma AddGrows(c: Constitution, ctx: Context, l: Ledger, row: TransitionRow, write: Write)
    requires Allowed(c, ctx, l.transitions, row)
    ensures Grown(c, ctx, l.transitions, AddTransition(l, row, write).0.transitions)
  {
    GrownAppend(c, ctx, l.transitions, row);
  }

  lemma TriggerGrows(c: Constitution, l: Ledger, simulation: Uuid, snapshot: nat, action: nat, tick: nat, f: RollbackFaults)
    ensures Grown(c, OnMessage(simulation, tick), l.transitions,
                  TriggerRollback(c, l, simulation, snapshot, action, tick, f).transitions)
  {
    var ctx := OnMessage(simulation, tick);
    var (l1, state) := ReadSafety(l, Some(simulation), tick, f.read);
    ReadGrows(c, ctx, l, f.read);
    ReadIsFaithful(l, Some(simulation), tick, f.read);
    var (l2, _) := AddTransition(l1, RollbackEntered(simulation, state.GetOr(Normal)), f.enter);
    AddGrows(c, ctx, l1, RollbackEntered(simulation, state.GetOr(Normal)), f.enter);
    GrownTransitive(c, ctx, l.transitions, l1.transitions, l2.transitions);
    var (l3, rollback) := RestoreSnapshot(l2, snapshot, Automatic(action), f.restore);
    if rollback.Some? {
      AddGrows(c, ctx, l3, ConservationEntered(simulation, tick + c.conservationTicks), f.conserve);
      GrownTransitive(c, ctx, l.transitions, l3.transitions, TriggerRollback(c, l, simulation, snapshot, action, tick, f).transitions);
    }
  }

  lemma ProposalGrows(c: Constitution, s: Server, simulation: Uuid, tick: nat, cash: int, p: Proposal, f: ProposalFaults)
    ensures Grown(c, OnProposal(simulation, tick), s.ledger.transitions,
                  HandleProposal(c, s, simulation, tick, cash, p, f).ledger.transitions)
  {
    var (l1, _) := AddProposal(s.ledger, ProposalRow(simulation, p), f.proposal);
    ReadGrows(c, OnProposal(simulation, tick), l1, f.read);
    assert HandleProposal(c, s, simulation, tick, cash, p, f).ledger.transitions ==
           Screen(c, s.ledger, simulation, tick, p, f).0.transitions;
  }

  lemma {:induction false} ProposalsGrow(c: Constitution, s: Server, simulation: Uuid, tick: nat, cash: int,
                                         ps: seq<Proposal>, fs: seq<ProposalFaults>)
    requires |ps| <= |fs|
    ensures Grown(c, OnProposal(simulation, tick), s.ledger.transitions,
                  HandleProposals(c, s, simulation, tick, cash, ps, fs).ledger.transitions)
  {
    if ps != [] {
      var n := |ps| - 1;
      ProposalsGrow(c, s, simulation, tick, cash, ps[..n], fs);
      var mid := HandleProposals(c, s, simulation, tick, cash, ps[..n], fs);
      ProposalGrows(c, mid, simulation, tick, cash, ps[n], fs[n]);
      GrownTransitive(c, OnProposal(simulation, tick), s.ledger.transitions, mid.ledger.transitions,
                      HandleProposals(c, s, simulation, tick, cash, ps, fs).ledger.transitions);
    }
  }

  lemma VerifyOneGrows(c: Constitution, s: Server, simulation: Uuid, tick: nat, cash: int, action: nat, f: RollbackFaults)
    ensures Grown(c, OnMessage(simulation, tick), s.ledger.transitions,
                  VerifyOne(c, s, simulation, tick, cash, action, f).ledger.transitions)
  {
    if action in s.pendingVerifications {
      TriggerGrows(c, s.ledger, simulation, s.pendingVerifications[action].snapshot, action, tick, f);
    }
  }

  lemma {:induction false} VerifyAllGrows(c: Constitution, s: Server, simulation: Uuid, tick: nat, cash: int,
                                          order: seq<nat>, fs: seq<RollbackFaults>)
    requires |order| <= |fs|
    ensures Grown(c, OnMessage(simulation, tick), s.ledger.transitions,
                  VerifyAll(c, s, simulation, tick, cash, order, fs).ledger.transitions)
  {
    if order != [] {
      var n := |order| - 1;
      VerifyAllGrows(c, s, simulation, tick, cash, order[..n], fs);
      var mid := VerifyAll(c, s, simulation, tick, cash, order[..n], fs);
      VerifyOneGrows(c, mid, simulation, tick, cash, order[n], fs[n]);
      GrownTransitive(c, OnMessage(simulation, tick), s.ledger.transitions, mid.ledger.transitions,
                      VerifyAll(c, s, simulation, tick, cash, order, fs).ledger.transitions);
    }
  }

  lemma HeartbeatGrows(c: Constitution, s: Server, simulation: Uuid, tick: nat, read: ReadFaults, write: Write)
    ensures Grown(c, OnHeartbeat(simulation, tick), s.ledger.transitions,
                  HandleHeartbeat(c, s, simulation, tick, read, write).ledger.transitions)
  {
    var ctx := OnHeartbeat(simulation, tick);
    var (l, state) := ReadSafety(s.ledger, Some(simulation), tick, read);
    ReadGrows(c, ctx, s.ledger, read);
    if state == Some(Cautious) {
      AddGrows(c, ctx, l, CautiousCleared(simulation), write);
      GrownTransitive(c, ctx, s.ledger.transitions, l.transitions, AddTransition(l, CautiousCleared(simulation), write).0.transitions);
    }
  }

  lemma ReconcileGrows(c: Constitution, l: Ledger, answered: bool, read: ReadFaults, write: Write)
    ensures Grown(c, OnStartup, l.transitions, Reconcile(l, answered, read, write).0.transitions)
  {
    var (l1, from) := ReadSafety(l, None, 0, read);
    ReadGrows(c, OnStartup, l, read);
    ReadIsFaithful(l, None, 0, read);
    if from.Some? {
      AddGrows(c, OnStartup, l1, StartupRow(from.value), write);
      GrownTransitive(c, OnStartup, l.transitions, l1.transitions, AddTransition(l1, StartupRow(from.value), write).0.transitions);
    }
  }

  lemma ResolveGrows(c: Constitution, l: Ledger, read: ReadFaults, write: Write)
    ensures Grown(c, OnResolve, l.transitions, ResolveByHand(l, read, write).transitions)
  {
    var (l1, from) := ReadSafety(l, None, 0, read);
    ReadGrows(c, OnResolve, l, read);
    ReadIsFaithful(l, None, 0, read);
    if from.Some? && from.value.RequiresManualResolution() {
      AddGrows(c, OnResolve, l1, ResolvedByHand(from.value), write);
      GrownTransitive(c, OnResolve, l.transitions, l1.transitions, AddTransition(l1, ResolvedByHand(from.value), write).0.transitions);
    }
  }

  lemma EscalateGrows(c: Constitution, l: Ledger, to: SafetyState, f: EscalationFaults)
    requires to.Quarantine? || to.Stopped?
    ensures Grown(c, OnPoll, l.transitions, Escalate(l, to, f).transitions)
    ensures Escalate(l, to, f) == l.(transitions := Escalate(l, to, f).transitions)
  {
    var (l1, from) := ReadSafety(l, None, 0, f.read);
    ReadGrows(c, OnPoll, l, f.read);
    ReadIsFaithful(l, None, 0, f.read);
    if from.Some? && from.value != to && !from.value.Stopped? {
      AddGrows(c, OnPoll, l1, Escalation(from.value, to), f.write);
      GrownTransitive(c, OnPoll, l.transitions, l1.transitions, AddTransition(l1, Escalation(from.value, to), f.write).0.transitions);
    }
  }

  lemma {:induction false} EscalateTimesGrows(c: Constitution, l: Ledger, to: SafetyState, count: nat, fs: seq<EscalationFaults>)
    requires count <= |fs| && (to.Quarantine? || to.Stopped?)
    ensures Grown(c, OnPoll, l.transitions, EscalateTimes(l, to, count, fs).transitions)
    ensures EscalateTimes(l, to, count, fs) == l.(transitions := EscalateTimes(l, to, count, fs).transitions)
  {
    if count > 0 {
      var mid := EscalateTimes(l, to, count - 1, fs);
      EscalateTimesGrows(c, l, to, count - 1, fs);
      EscalateGrows(c, mid, to, fs[count - 1]);
      GrownTransitive(c, OnPoll, l.transitions, mid.transitions, EscalateTimes(l, to, count, fs).transitions);
    }
  }

  lemma RateGrows(c: Constitution, l: Ledger, simulation: Uuid, now: nat, answered: bool, f: EscalationFaults)
    ensures Grown(c, OnPoll, l.transitions, CheckActionRate(c, l, simulation, now, answered, f).transitions)
    ensures CheckActionRate(c, l, simulation, now, answered, f) ==
            l.(transitions := CheckActionRate(c, l, simulation, now, answered, f).transitions)
  {
    EscalateGrows(c, l, Stopped, f);
  }

  lemma OscillationGrows(c: Constitution, l: Ledger, simulation: Uuid, answered: bool, fs: seq<EscalationFaults>)
    requires |Tripped(c, RecentPriceChanges(l, simulation, c.oscillationWindowTicks))| <= |fs|
    ensures Grown(c, OnPoll, l.transitions, CheckOscillation(c, l, simulation, answered, fs).transitions)
    ensures CheckOscillation(c, l, simulation, answered, fs) ==
            l.(transitions := CheckOscillation(c, l, simulation, answered, fs).transitions)
  {
    EscalateTimesGrows(c, l, Quarantine, |Tripped(c, RecentPriceChanges(l, simulation, c.oscillationWindowTicks))|, fs);
  }

  lemma ChecksGrow(c: Constitution, l: Ledger, now: nat, f: PollFaults)
    requires |f.oscillation| >= |l.actions|
    ensures Grown(c, OnPoll, l.transitions, PollChecks(c, l, now, f).transitions)
    ensures PollChecks(c, l, now, f) == l.(transitions := PollChecks(c, l, now, f).transitions)
  {
    if f.simulationRead && l.simulations != [] {
      var simulation := l.simulations[|l.simulations| - 1];
      var l1 := CheckActionRate(c, l, simulation, now, f.rateRead, f.rate);
      RateGrows(c, l, simulation, now, f.rateRead, f.rate);
      TrippedAreFew(c, l1, simulation);
      OscillationGrows(c, l1, simulation, f.oscillationRead, f.oscillation);
      GrownTransitive(c, OnPoll, l.transitions, l1.transitions, PollChecks(c, l, now, f).transitions);
    }
  }

  lemma PollGrows(c: Constitution, l: Ledger, since: Option<nat>, now: nat, f: PollFaults)
    requires |f.oscillation| >= |l.actions|
    ensures Grown(c, OnPoll, l.transitions, Poll(c, l, since, now, f).transitions)
    ensures Poll(c, l, since, now, f) == l.(transitions := Poll(c, l, since, now, f).transitions)
  {
    if f.reachable {
      var l1 := PollOutage(c, l, since, now, f.outage);
      EscalateGrows(c, l, Stopped, f.outage);
      ChecksGrow(c, l1, now, f);
      GrownTransitive(c, OnPoll, l.transitions, l1.transitions, Poll(c, l, since, now, f).transitions);
    }
  }

  // --- Every step --------------------------------------------------------------------

  function ContextOf(s: Server, e: Event): Context {
    match e
    case Heartbeat(tick, _, _) => if s.connection.Some? then OnHeartbeat(s.connection.value, tick) else Quiet
    case Snapshot(_, _, _, _) => if s.connection.Some? then OnMessage(s.connection.value, CurrentTick(s)) else Quiet
    case Result(_, _, _, _, _) => if s.connection.Some? then OnMessage(s.connection.value, CurrentTick(s)) else Quiet
    case Start(_, _, _, _) => OnStartup
    case WatchdogPoll(_, _) => OnPoll
    case Resolve(_, _) => OnResolve
    case _ => Quiet
  }

  /** Whatever fails, a step appends only rows of its own kind, and never changes one. */
  lemma {:induction false} StepGrows(c: Constitution, s: Server, e: Event)
    ensures Grown(c, ContextOf(s, e), s.ledger.transitions, Step(c, s, e).ledger.transitions)
  {
    if Enabled(c, s, e) {
      match e
      case Heartbeat(tick, read, write) =>
        HeartbeatGrows(c, s, s.connection.value, tick, read, write);
      case Snapshot(o, order, rollbacks, proposals) =>
        ObserveGrows(c, s, s.connection.value, o, order, rollbacks, proposals);
      case Result(correlation, cost, failed, insert, rollback) =>
        ResultGrows(c, s, s.connection.value, correlation, cost, failed, insert, rollback);
      case Start(answered, read, write, configured) =>
        ReconcileGrows(c, s.ledger, answered, read, write);
      case WatchdogPoll(since, f) =>
        PollGrows(c, s.ledger, since, s.clock, f);
      case Resolve(read, write) =>
        ResolveGrows(c, s.ledger, read, write);
      case _ =>
    }
  }

  lemma ObserveGrows(c: Constitution, s: Server, simulation: Uuid, o: WorldModels.Observation, order: seq<nat>,
                     rollbacks: seq<RollbackFaults>, proposals: seq<ProposalFaults>)
    requires |order| <= |rollbacks| && |ProposalsOn(c, s, o)| <= |proposals|
    ensures Grown(c, OnMessage(simulation, CurrentTick(s)), s.ledger.transitions,
                  Observe(c, s, simulation, o, order, rollbacks, proposals).ledger.transitions)
  {
    var tick := CurrentTick(s);
    var s1 := s.(history := WorldModels.Suffix(s.history + [o], WorldModels.MAX_HISTORY));
    var s2 := VerifyAll(c, s1, simulation, tick, o.cash, order, rollbacks);
    VerifyAllGrows(c, s1, simulation, tick, o.cash, order, rollbacks);
    ProposalsGrow(c, s2, simulation, tick, o.cash, ProposalsOn(c, s, o), proposals);
    ProposalIsPartOfMessage(c, simulation, tick, s2.ledger.transitions,
                            Observe(c, s, simulation, o, order, rollbacks, proposals).ledger.transitions);
    GrownTransitive(c, OnMessage(simulation, tick), s.ledger.transitions, s2.ledger.transitions,
                    Observe(c, s, simulation, o, order, rollbacks, proposals).ledger.transitions);
  }

  lemma ResultGrows(c: Constitution, s: Server, simulation: Uuid, correlation: Option<nat>, cost: Option<int>,
                    failed: bool, insert: Write, f: RollbackFaults)
    ensures Grown(c, OnMessage(simulation, CurrentTick(s)), s.ledger.transitions,
                  HandleResult(c, s, simulation, correlation, cost, failed, insert, f).ledger.transitions)
  {
    if correlation.Some? && correlation.value in s.pendingActions {
      var pending := s.pendingActions[correlation.value];
      var (l, _) := AddResult(s.ledger, ResultRow(pending.action, cost, failed), insert);
      TriggerGrows(c, l, simulation, pending.snapshot, pending.action, CurrentTick(s), f);
    }
  }
}
