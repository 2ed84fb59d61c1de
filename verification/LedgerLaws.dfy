/** Whole-run laws about the decision ledger: what a sent command proves, that nothing is sent,
    resolved or rolled back twice, and where every action stands. */
module LedgerLaws {
  import opened Common
  import opened SafetyStates
  import opened Governors
  import opened GovernorLaws
  import opened WorldModels
  import opened IdempotencyKeys
  import opened Ledgers
  import opened SafetyReading
  import opened Servers
  import opened Watchdogs
  import opened Runs
  import opened Transitions
  import opened SafetyLaws
  import RecoveryLaws

  // --- Append-only ---------------------------------------------------------------------

  ghost predicate Prefix<T>(a: seq<T>, b: seq<T>) {
    |a| <= |b| && b[..|a|] == a
  }

  /** Every table only grows, and only at its end. */
  ghost predicate Extends(l: Ledger, l': Ledger) {
    && Prefix(l.simulations, l'.simulations) && Prefix(l.proposals, l'.proposals)
    && Prefix(l.authorizations, l'.authorizations) && Prefix(l.actions, l'.actions)
    && Prefix(l.results, l'.results) && Prefix(l.snapshots, l'.snapshots)
    && Prefix(l.rollbacks, l'.rollbacks) && Prefix(l.transitions, l'.transitions)
  }

  lemma PrefixTransitive<T>(a: seq<T>, b: seq<T>, d: seq<T>)
    requires Prefix(a, b) && Prefix(b, d)
    ensures Prefix(a, d)
  {
    assert d[..|a|] == d[..|b|][..|a|];
  }

  lemma ExtendsTransitive(a: Ledger, b: Ledger, d: Ledger)
    requires Extends(a, b) && Extends(b, d)
    ensures Extends(a, d)
  {
    PrefixTransitive(a.simulations, b.simulations, d.simulations);
    PrefixTransitive(a.proposals, b.proposals, d.proposals);
    PrefixTransitive(a.authorizations, b.authorizations, d.authorizations);
    PrefixTransitive(a.actions, b.actions, d.actions);
    PrefixTransitive(a.results, b.results, d.results);
    PrefixTransitive(a.snapshots, b.snapshots, d.snapshots);
    PrefixTransitive(a.rollbacks, b.rollbacks, d.rollbacks);
    PrefixTransitive(a.transitions, b.transitions, d.transitions);
  }

  // --- What a sent command proves -----------------------------------------------------------

  /** The command repeats its action, which rests on a stored grant of a stored proposal of the same
      simulation, at a price within bounds. */
  ghost predicate ActionLinked(c: Constitution, l: Ledger, command: Command) {
    && command.action < |l.actions|
    && var a := l.actions[command.action];
    && a.key == command.key && a.key == KeyText(command.simulation, command.rideId, command.tick)
    && a.rideId == command.rideId && a.tick == command.tick && a.expiryTick == command.expiryTick
    && command.price == a.price % 0x1_0000_0000 && c.minPrice <= a.price <= c.maxPrice
    && a.authorization < |l.authorizations|
    && var authorization := l.authorizations[a.authorization];
    && authorization.verdict.Authorized? && authorization.proposal < |l.proposals|
    && var proposed := l.proposals[authorization.proposal];
    && proposed.simulation == command.simulation && proposed.proposal.rideId == command.rideId
    && proposed.proposal.proposedPrice == a.price
  }

  /** The snapshot to roll back to is stored, is the same simulation's, and was young enough. */
  ghost predicate SnapshotLinked(c: Constitution, l: Ledger, command: Command) {
    && command.snapshot < |l.snapshots|
    && l.snapshots[command.snapshot].simulation == command.simulation
    && command.tick <= l.snapshots[command.snapshot].tick + c.snapshotMaxAgeTicks
  }

  /** The command's action, authorization, proposal and snapshot are all stored and belong together. */
  ghost predicate Linked(c: Constitution, l: Ledger, command: Command) {
    ActionLinked(c, l, command) && SnapshotLinked(c, l, command)
  }

  ghost predicate Provenance(c: Constitution, l: Ledger, wire: seq<Command>) {
    forall m :: 0 <= m < |wire| ==> Linked(c, l, wire[m])
  }

  lemma LinkedExtends(c: Constitution, l: Ledger, l': Ledger, command: Command)
    requires Extends(l, l') && Linked(c, l, command)
    ensures Linked(c, l', command)
  {
    var a := l.actions[command.action];
    assert l'.actions[command.action] == l'.actions[..|l.actions|][command.action];
    assert l'.authorizations[a.authorization] == l'.authorizations[..|l.authorizations|][a.authorization];
    var p := l.authorizations[a.authorization].proposal;
    assert l'.proposals[p] == l'.proposals[..|l.proposals|][p];
    assert l'.snapshots[command.snapshot] == l'.snapshots[..|l.snapshots|][command.snapshot];
  }

  lemma ProvenanceExtends(c: Constitution, l: Ledger, l': Ledger, wire: seq<Command>)
    requires Extends(l, l') && Provenance(c, l, wire)
    ensures Provenance(c, l', wire)
  {
    forall m | 0 <= m < |wire| ensures Linked(c, l', wire[m]) {
      LinkedExtends(c, l, l', wire[m]);
    }
  }

  // --- The invariant ----------------------------------------------------------------------------

  ghost predicate KeysUnique(actions: seq<ActionRow>) {
    forall i, j :: 0 <= i < j < |actions| ==> actions[i].key != actions[j].key
  }

  /** Commands are written in the order of their actions, one each. */
  ghost predicate OneWriteEach(wire: seq<Command>) {
    forall m, n :: 0 <= m < n < |wire| ==> wire[m].action < wire[n].action
  }

  ghost predicate OneResultEach(l: Ledger) {
    && (forall i :: 0 <= i < |l.results| ==> l.results[i].action < |l.actions|)
    && (forall i, j :: 0 <= i < j < |l.results| ==> l.results[i].action != l.results[j].action)
  }

  /** The command for this action was written with this snapshot and this cash as its baseline. */
  ghost predicate Dispatched(wire: seq<Command>, action: nat, snapshot: nat, cash: int) {
    exists m :: 0 <= m < |wire| && wire[m].action == action && wire[m].snapshot == snapshot && wire[m].cash == cash
  }

  ghost predicate DispatchedTo(wire: seq<Command>, action: nat, snapshot: nat) {
    exists m :: 0 <= m < |wire| && wire[m].action == action && wire[m].snapshot == snapshot
  }

  ghost predicate RolledBack(l: Ledger, action: nat) {
    exists i :: 0 <= i < |l.rollbacks| && l.rollbacks[i].trigger == Automatic(action)
  }

  /** Automatic rollbacks have different actions behind them, and go to those actions' own snapshots. */
  ghost predicate OneRollbackEach(l: Ledger, wire: seq<Command>) {
    && (forall i, j :: 0 <= i < j < |l.rollbacks| && l.rollbacks[i].trigger.Automatic? ==>
                         l.rollbacks[i].trigger != l.rollbacks[j].trigger)
    && (forall i :: 0 <= i < |l.rollbacks| && l.rollbacks[i].trigger.Automatic? ==>
                      DispatchedTo(wire, l.rollbacks[i].trigger.action, l.rollbacks[i].snapshot))
  }

  /** An awaited command was delivered, and its action has neither a result nor a rollback. */
  ghost predicate AwaitedSoundly(l: Ledger, wire: seq<Command>, message: nat, pending: PendingAction) {
    && message < |wire| && wire[message].delivered
    && pending == PendingAction(wire[message].action, wire[message].snapshot, wire[message].cash)
    && !Resolved(l, pending.action) && !RolledBack(l, pending.action)
  }

  ghost predicate VerifiedSoundly(l: Ledger, wire: seq<Command>, action: nat, v: PendingVerification) {
    Resolved(l, action) && !RolledBack(l, action) && Dispatched(wire, action, v.snapshot, v.cashBefore)
  }

  ghost predicate PendingSound(s: Server) {
    && (s.connection.None? ==> s.pendingActions == map[] && s.pendingVerifications == map[])
    && (forall m :: m in s.pendingActions ==> AwaitedSoundly(s.ledger, s.wire, m, s.pendingActions[m]))
    && (forall a :: a in s.pendingVerifications ==> VerifiedSoundly(s.ledger, s.wire, a, s.pendingVerifications[a]))
  }

  ghost predicate Sound(c: Constitution, s: Server) {
    && Provenance(c, s.ledger, s.wire)
    && KeysUnique(s.ledger.actions)
    && OneWriteEach(s.wire)
    && OneResultEach(s.ledger)
    && OneRollbackEach(s.ledger, s.wire)
    && PendingSound(s)
  }

  // --- Proposals ------------------------------------------------------------------------------------

  lemma {:induction false} LatestSnapshotIsOwn(snapshots: seq<SnapshotRow>, simulation: Uuid)
    ensures var latest := LatestSnapshot(snapshots, simulation);
            latest.Some? ==> latest.value < |snapshots| && snapshots[latest.value].simulation == simulation
  {
    if snapshots != [] {
      LatestSnapshotIsOwn(snapshots[..|snapshots| - 1], simulation);
    }
  }

  /** A snapshot it returns is the simulation's own, and young enough. */
  lemma SnapshotIsRecent(l: Ledger, simulation: Uuid, tick: nat, maxAge: nat, f: SnapshotFaults)
    ensures var (l', snapshot) := EnsureRecentSnapshot(l, simulation, tick, maxAge, f);
            && Extends(l, l') && l' == l.(snapshots := l'.snapshots)
            && (snapshot.Some? ==>
                  && snapshot.value < |l'.snapshots| && l'.snapshots[snapshot.value].simulation == simulation
                  && tick <= l'.snapshots[snapshot.value].tick + maxAge)
  {
    LatestSnapshotIsOwn(l.snapshots, simulation);
  }

  lemma ReadExtends(l: Ledger, scope: Option<Uuid>, tick: nat, f: ReadFaults)
    ensures var l' := ReadSafety(l, scope, tick, f).0;
            Extends(l, l') && l' == l.(transitions := l'.transitions)
  {
  }

  lemma AddProposalExtends(l: Ledger, row: ProposalRow, write: Write)
    ensures var (l', id) := AddProposal(l, row, write);
            && Extends(l, l') && l' == l.(proposals := l'.proposals)
            && (id.Some? ==> id.value < |l'.proposals| && l'.proposals[id.value] == row)
  {
  }

  lemma AddAuthorizationExtends(l: Ledger, row: AuthorizationRow, write: Write)
    ensures var (l', id) := AddAuthorization(l, row, write);
            && Extends(l, l') && l' == l.(authorizations := l'.authorizations)
            && (id.Some? ==> id.value < |l'.authorizations| && l'.authorizations[id.value] == row && row.proposal < |l.proposals|)
  {
  }

  lemma ScreenIsSound(c: Constitution, l: Ledger, simulation: Uuid, tick: nat, p: Proposal, f: ProposalFaults)
    ensures var (l', screened) := Screen(c, l, simulation, tick, p, f);
            && Extends(l, l')
            && l'.actions == l.actions && l'.results == l.results && l'.rollbacks == l.rollbacks
            && (screened.Some? ==>
                  var (proposal, snapshot) := screened.value;
                  && proposal < |l'.proposals| && l'.proposals[proposal] == ProposalRow(simulation, p)
                  && snapshot < |l'.snapshots| && l'.snapshots[snapshot].simulation == simulation
                  && tick <= l'.snapshots[snapshot].tick + c.snapshotMaxAgeTicks)
  {
    var (l1, proposal) := AddProposal(l, ProposalRow(simulation, p), f.proposal);
    AddProposalExtends(l, ProposalRow(simulation, p), f.proposal);
    if proposal.Some? {
      var (l2, state) := ReadSafety(l1, Some(simulation), tick, f.read);
      ReadExtends(l1, Some(simulation), tick, f.read);
      ExtendsTransitive(l, l1, l2);
      if state.Some? {
        if state.value.AuthorizesProposals() {
          var (l3, snapshot) := EnsureRecentSnapshot(l2, simulation, tick, c.snapshotMaxAgeTicks, f.snapshot);
          SnapshotIsRecent(l2, simulation, tick, c.snapshotMaxAgeTicks, f.snapshot);
          ExtendsTransitive(l, l2, l3);
          if snapshot.None? {
            AddAuthorizationExtends(l3, AuthorizationRow(proposal.value, Rejected(NoRecentSnapshot)), f.rejection);
            ExtendsTransitive(l, l3, Screen(c, l, simulation, tick, p, f).0);
          }
        } else {
          AddAuthorizationExtends(l2, AuthorizationRow(proposal.value, Rejected(BlockedBy(state.value))), f.rejection);
          ExtendsTransitive(l, l2, Screen(c, l, simulation, tick, p, f).0);
        }
      }
    }
  }

  lemma JudgeIsSound(c: Constitution, s: Server, tick: nat, p: Proposal, proposal: nat, f: ProposalFaults)
    ensures var (s', authorization) := Judge(c, s, tick, p, proposal, f);
            && Extends(s.ledger, s'.ledger) && s'.ledger == s.ledger.(authorizations := s'.ledger.authorizations)
            && (authorization.Some? ==>
                  && authorization.value < |s'.ledger.authorizations|
                  && s'.ledger.authorizations[authorization.value] == AuthorizationRow(proposal, Authorized)
                  && proposal < |s.ledger.proposals|
                  && c.minPrice <= p.proposedPrice <= c.maxPrice)
  {
  }

  lemma DispatchedAppend(wire: seq<Command>, command: Command)
    ensures forall a, snapshot, cash :: Dispatched(wire, a, snapshot, cash) ==> Dispatched(wire + [command], a, snapshot, cash)
    ensures forall a, snapshot :: DispatchedTo(wire, a, snapshot) ==> DispatchedTo(wire + [command], a, snapshot)
  {
    var more := wire + [command];
    forall a, snapshot, cash | Dispatched(wire, a, snapshot, cash) ensures Dispatched(more, a, snapshot, cash) {
      var m :| 0 <= m < |wire| && wire[m].action == a && wire[m].snapshot == snapshot && wire[m].cash == cash;
      assert more[m] == wire[m];
    }
    forall a, snapshot | DispatchedTo(wire, a, snapshot) ensures DispatchedTo(more, a, snapshot) {
      var m :| 0 <= m < |wire| && wire[m].action == a && wire[m].snapshot == snapshot;
      assert more[m] == wire[m];
    }
  }

  /** A ledger that grew without touching results and rollbacks keeps the invariant. */
  lemma GrowthIsSound(c: Constitution, s: Server, l: Ledger)
    requires Sound(c, s) && Extends(s.ledger, l)
    requires KeysUnique(l.actions) && l.results == s.ledger.results && l.rollbacks == s.ledger.rollbacks
    ensures Sound(c, s.(ledger := l))
  {
    ProvenanceExtends(c, s.ledger, l, s.wire);
    forall m | m in s.pendingActions ensures AwaitedSoundly(l, s.wire, m, s.pendingActions[m]) {
      assert AwaitedSoundly(s.ledger, s.wire, m, s.pendingActions[m]);
    }
    forall a | a in s.pendingVerifications ensures VerifiedSoundly(l, s.wire, a, s.pendingVerifications[a]) {
      assert VerifiedSoundly(s.ledger, s.wire, a, s.pendingVerifications[a]);
    }
  }

  lemma AddActionIsSound(l: Ledger, row: ActionRow, write: Write)
    requires KeysUnique(l.actions)
    ensures var (l', id) := AddAction(l, row, write);
            && Extends(l, l') && l' == l.(actions := l'.actions) && KeysUnique(l'.actions)
            && (id.Some? ==> id.value == |l.actions| && l'.actions == l.actions + [row] && row.authorization < |l.authorizations|)
  {
    var l' := AddAction(l, row, write).0;
    if l'.actions != l.actions {
      assert !KeyTaken(l.actions, row.key);
      forall i | 0 <= i < |l.actions| ensures l.actions[i].key != row.key {
        assert l.actions[i] in l.actions;
      }
    }
  }

  /** What `Execute` relies on. */
  ghost predicate Cleared(c: Constitution, l: Ledger, simulation: Uuid, tick: nat, p: Proposal, authorization: nat, snapshot: nat) {
    && authorization < |l.authorizations| && l.authorizations[authorization].verdict.Authorized?
    && l.authorizations[authorization].proposal < |l.proposals|
    && l.proposals[l.authorizations[authorization].proposal] == ProposalRow(simulation, p)
    && c.minPrice <= p.proposedPrice <= c.maxPrice
    && snapshot < |l.snapshots| && l.snapshots[snapshot].simulation == simulation
    && tick <= l.snapshots[snapshot].tick + c.snapshotMaxAgeTicks
  }

  lemma ExecuteIsSound(c: Constitution, s: Server, simulation: Uuid, tick: nat, cash: int, p: Proposal, authorization: nat,
                       snapshot: nat, f: ProposalFaults)
    requires Sound(c, s) && s.connection.Some? && Cleared(c, s.ledger, simulation, tick, p, authorization, snapshot)
    ensures var s' := Execute(s, simulation, tick, cash, p, authorization, snapshot, f);
            Sound(c, s') && Extends(s.ledger, s'.ledger)
  {
    var s' := Execute(s, simulation, tick, cash, p, authorization, snapshot, f);
    var (l, action) := AddAction(s.ledger, ActionFor(simulation, tick, p, authorization, s.clock), f.action);
    AddActionIsSound(s.ledger, ActionFor(simulation, tick, p, authorization, s.clock), f.action);
    GrowthIsSound(c, s, l);
    if action.Some? {
      var command := s'.wire[|s.wire|];
      NewActionIsUntouched(c, s, command.action);
      assert Linked(c, l, command);
      WritingIsSound(c, s.(ledger := l), command, s'.pendingActions);
    }
  }

  /** Writing the command of an action newer than all that were written, and perhaps awaiting it. */
  lemma WritingIsSound(c: Constitution, s: Server, command: Command, pending: map<nat, PendingAction>)
    requires Sound(c, s) && Linked(c, s.ledger, command) && s.connection.Some?
    requires forall m :: 0 <= m < |s.wire| ==> s.wire[m].action < command.action
    requires !Resolved(s.ledger, command.action) && !RolledBack(s.ledger, command.action)
    requires || pending == s.pendingActions
             || (command.delivered && pending == s.pendingActions[|s.wire| := PendingAction(command.action, command.snapshot, command.cash)])
    ensures Sound(c, s.(wire := s.wire + [command], pendingActions := pending))
  {
    var s' := s.(wire := s.wire + [command], pendingActions := pending);
    DispatchedAppend(s.wire, command);
    WritingKeepsPending(s, command, pending);
  }

  lemma WritingKeepsPending(s: Server, command: Command, pending: map<nat, PendingAction>)
    requires PendingSound(s) && s.connection.Some? && !Resolved(s.ledger, command.action) && !RolledBack(s.ledger, command.action)
    requires || pending == s.pendingActions
             || (command.delivered && pending == s.pendingActions[|s.wire| := PendingAction(command.action, command.snapshot, command.cash)])
    ensures PendingSound(s.(wire := s.wire + [command], pendingActions := pending))
  {
    var s' := s.(wire := s.wire + [command], pendingActions := pending);
    DispatchedAppend(s.wire, command);
    forall m | m in pending ensures AwaitedSoundly(s.ledger, s'.wire, m, pending[m]) {
      if m in s.pendingActions && pending[m] == s.pendingActions[m] {
        assert AwaitedSoundly(s.ledger, s.wire, m, s.pendingActions[m]);
      }
    }
    forall a | a in s.pendingVerifications ensures VerifiedSoundly(s.ledger, s'.wire, a, s.pendingVerifications[a]) {
      assert VerifiedSoundly(s.ledger, s.wire, a, s.pendingVerifications[a]);
    }
  }

  /** Results and rollbacks exist only for actions that exist. */
  lemma NewActionIsUntouched(c: Constitution, s: Server, action: nat)
    requires Sound(c, s) && action >= |s.ledger.actions|
    ensures !Resolved(s.ledger, action) && !RolledBack(s.ledger, action)
    ensures forall m :: 0 <= m < |s.wire| ==> s.wire[m].action < action
  {
    forall m | 0 <= m < |s.wire| ensures s.wire[m].action < action {
      assert Linked(c, s.ledger, s.wire[m]);
    }
    forall i | 0 <= i < |s.ledger.rollbacks| && s.ledger.rollbacks[i].trigger.Automatic?
      ensures s.ledger.rollbacks[i].trigger.action < action
    {
      var m :| 0 <= m < |s.wire| && s.wire[m].action == s.ledger.rollbacks[i].trigger.action;
    }
  }

  lemma ProposalIsSound(c: Constitution, s: Server, simulation: Uuid, tick: nat, cash: int, p: Proposal, f: ProposalFaults)
    requires Sound(c, s) && s.connection.Some?
    ensures var s' := HandleProposal(c, s, simulation, tick, cash, p, f);
            Sound(c, s') && Extends(s.ledger, s'.ledger) && s'.connection == s.connection
  {
    var (l, screened) := Screen(c, s.ledger, simulation, tick, p, f);
    ScreenIsSound(c, s.ledger, simulation, tick, p, f);
    var s1 := s.(ledger := l);
    GrowthIsSound(c, s, l);
    if screened.Some? {
      JudgedIsSound(c, s1, simulation, tick, cash, p, screened.value.0, screened.value.1, f);
      ExtendsTransitive(s.ledger, l, HandleProposal(c, s, simulation, tick, cash, p, f).ledger);
    }
  }

  /** The same from the governor's turn on. */
  lemma JudgedIsSound(c: Constitution, s: Server, simulation: Uuid, tick: nat, cash: int, p: Proposal, proposal: nat,
                      snapshot: nat, f: ProposalFaults)
    requires Sound(c, s) && s.connection.Some?
    requires proposal < |s.ledger.proposals| && s.ledger.proposals[proposal] == ProposalRow(simulation, p)
    requires snapshot < |s.ledger.snapshots| && s.ledger.snapshots[snapshot].simulation == simulation
    requires tick <= s.ledger.snapshots[snapshot].tick + c.snapshotMaxAgeTicks
    ensures var (s2, authorization) := Judge(c, s, tick, p, proposal, f);
            var s' := if authorization.Some? then Execute(s2, simulation, tick, cash, p, authorization.value, snapshot, f) else s2;
            Sound(c, s') && Extends(s.ledger, s'.ledger) && s'.connection == s.connection
  {
    var (s2, authorization) := Judge(c, s, tick, p, proposal, f);
    JudgeIsSound(c, s, tick, p, proposal, f);
    GrowthIsSound(c, s, s2.ledger);
    SoundDependsOn(c, s.(ledger := s2.ledger), s2);
    if authorization.Some? {
      ExecuteIsSound(c, s2, simulation, tick, cash, p, authorization.value, snapshot, f);
      ExtendsTransitive(s.ledger, s2.ledger, Execute(s2, simulation, tick, cash, p, authorization.value, snapshot, f).ledger);
    }
  }

  lemma ExtendsReflexive(l: Ledger)
    ensures Extends(l, l)
  {
  }

  lemma {:induction false} ProposalsAreSound(c: Constitution, s: Server, simulation: Uuid, tick: nat, cash: int,
                                             ps: seq<Proposal>, fs: seq<ProposalFaults>)
    requires |ps| <= |fs| && Sound(c, s) && s.connection.Some?
    ensures var s' := HandleProposals(c, s, simulation, tick, cash, ps, fs);
            Sound(c, s') && Extends(s.ledger, s'.ledger) && s'.connection == s.connection
  {
    if ps == [] {
      ExtendsReflexive(s.ledger);
    } else {
      var n := |ps| - 1;
      ProposalsAreSound(c, s, simulation, tick, cash, ps[..n], fs);
      var mid := HandleProposals(c, s, simulation, tick, cash, ps[..n], fs);
      ProposalIsSound(c, mid, simulation, tick, cash, ps[n], fs[n]);
      ExtendsTransitive(s.ledger, mid.ledger, HandleProposals(c, s, simulation, tick, cash, ps, fs).ledger);
    }
  }

  // --- Rollbacks and results ----------------------------------------------------------------------------

  /** At most one rollback row, for that action and to that snapshot; the other tables stand still. */
  lemma TriggerAddsOne(c: Constitution, l: Ledger, simulation: Uuid, snapshot: nat, action: nat, tick: nat, f: RollbackFaults)
    ensures var l' := TriggerRollback(c, l, simulation, snapshot, action, tick, f);
            && Extends(l, l')
            && l' == l.(transitions := l'.transitions, rollbacks := l'.rollbacks)
            && (|| l'.rollbacks == l.rollbacks
                || (exists r: RollbackRow :: r.trigger == Automatic(action) && r.snapshot == snapshot && l'.rollbacks == l.rollbacks + [r]))
  {
    RecoveryLaws.TriggerFrame(c, l, simulation, snapshot, action, tick, f);
    TriggerGrows(c, l, simulation, snapshot, action, tick, f);
    var (l1, state) := ReadSafety(l, Some(simulation), tick, f.read);
    var (l2, _) := AddTransition(l1, RollbackEntered(simulation, state.GetOr(Normal)), f.enter);
    if snapshot < |l2.snapshots| {
      var r := RollbackRow(l2.snapshots[snapshot].simulation, snapshot, Automatic(action));
      assert r.trigger == Automatic(action);
    }
  }

  /** Rolling back an action that has not been, and that nothing awaits any more. */
  lemma TriggerIsSound(c: Constitution, s: Server, simulation: Uuid, snapshot: nat, action: nat, tick: nat, f: RollbackFaults)
    requires Sound(c, s) && !RolledBack(s.ledger, action) && DispatchedTo(s.wire, action, snapshot)
    requires forall m :: m in s.pendingActions ==> s.pendingActions[m].action != action
    requires action !in s.pendingVerifications
    ensures Sound(c, s.(ledger := TriggerRollback(c, s.ledger, simulation, snapshot, action, tick, f)))
  {
    var l' := TriggerRollback(c, s.ledger, simulation, snapshot, action, tick, f);
    TriggerAddsOne(c, s.ledger, simulation, snapshot, action, tick, f);
    ProvenanceExtends(c, s.ledger, l', s.wire);
    forall a | a != action && !RolledBack(s.ledger, a) ensures !RolledBack(l', a) {
      forall i | 0 <= i < |l'.rollbacks| ensures l'.rollbacks[i].trigger != Automatic(a) {
        assert i < |s.ledger.rollbacks| ==> l'.rollbacks[i] == s.ledger.rollbacks[i];
      }
    }
    forall m | m in s.pendingActions ensures AwaitedSoundly(l', s.wire, m, s.pendingActions[m]) {
      assert AwaitedSoundly(s.ledger, s.wire, m, s.pendingActions[m]);
    }
    forall a | a in s.pendingVerifications ensures VerifiedSoundly(l', s.wire, a, s.pendingVerifications[a]) {
      assert VerifiedSoundly(s.ledger, s.wire, a, s.pendingVerifications[a]);
    }
  }

  /** Two awaited commands, or an awaited and a verified one, belong to different actions. */
  lemma PendingAreDistinct(c: Constitution, s: Server)
    requires Sound(c, s)
    ensures forall m, n :: m in s.pendingActions && n in s.pendingActions && m != n ==>
                             s.pendingActions[m].action != s.pendingActions[n].action
    ensures forall m, a :: m in s.pendingActions && a in s.pendingVerifications ==> s.pendingActions[m].action != a
  {
    forall m, n | m in s.pendingActions && n in s.pendingActions && m < n
      ensures s.pendingActions[m].action != s.pendingActions[n].action
    {
      assert AwaitedSoundly(s.ledger, s.wire, m, s.pendingActions[m]) && AwaitedSoundly(s.ledger, s.wire, n, s.pendingActions[n]);
    }
    forall m, a | m in s.pendingActions && a in s.pendingVerifications ensures s.pendingActions[m].action != a {
      assert AwaitedSoundly(s.ledger, s.wire, m, s.pendingActions[m]) && VerifiedSoundly(s.ledger, s.wire, a, s.pendingVerifications[a]);
    }
  }

  /** Forgetting pending entries keeps the invariant. */
  lemma ForgettingIsSound(c: Constitution, s: Server, pa: map<nat, PendingAction>, pv: map<nat, PendingVerification>)
    requires Sound(c, s)
    requires forall m :: m in pa ==> m in s.pendingActions && pa[m] == s.pendingActions[m]
    requires forall a :: a in pv ==> a in s.pendingVerifications && pv[a] == s.pendingVerifications[a]
    ensures Sound(c, s.(pendingActions := pa, pendingVerifications := pv))
  {
    var s' := s.(pendingActions := pa, pendingVerifications := pv);
    if s.connection.None? {
      assert pa == map[] && pv == map[];
    }
  }

  lemma VerifyOneIsSound(c: Constitution, s: Server, simulation: Uuid, tick: nat, cash: int, action: nat, f: RollbackFaults)
    requires Sound(c, s)
    ensures var s' := VerifyOne(c, s, simulation, tick, cash, action, f);
            Sound(c, s') && Extends(s.ledger, s'.ledger)
  {
    ExtendsReflexive(s.ledger);
    if action in s.pendingVerifications {
      var v := s.pendingVerifications[action];
      assert VerifiedSoundly(s.ledger, s.wire, action, v);
      var s1 := s.(pendingVerifications := s.pendingVerifications - {action});
      ForgettingIsSound(c, s, s.pendingActions, s1.pendingVerifications);
      PendingAreDistinct(c, s);
      if DroppedTooFar(c, v, cash) {
        TriggerAddsOne(c, s.ledger, simulation, v.snapshot, action, tick, f);
        TriggerIsSound(c, s1, simulation, v.snapshot, action, tick, f);
      }
    }
  }

  lemma {:induction false} VerifyAllIsSound(c: Constitution, s: Server, simulation: Uuid, tick: nat, cash: int,
                                            order: seq<nat>, fs: seq<RollbackFaults>)
    requires |order| <= |fs| && Sound(c, s)
    ensures var s' := VerifyAll(c, s, simulation, tick, cash, order, fs);
            Sound(c, s') && Extends(s.ledger, s'.ledger)
  {
    if order == [] {
      ExtendsReflexive(s.ledger);
    } else {
      var n := |order| - 1;
      VerifyAllIsSound(c, s, simulation, tick, cash, order[..n], fs);
      var mid := VerifyAll(c, s, simulation, tick, cash, order[..n], fs);
      VerifyOneIsSound(c, mid, simulation, tick, cash, order[n], fs[n]);
      ExtendsTransitive(s.ledger, mid.ledger, VerifyAll(c, s, simulation, tick, cash, order, fs).ledger);
    }
  }

  /** A result for an action that has none. */
  lemma NewResultIsFirst(l: Ledger, row: ResultRow, insert: Write)
    requires OneResultEach(l) && !Resolved(l, row.action)
    ensures var (l', id) := AddResult(l, row, insert);
            && Extends(l, l') && l' == l.(results := l'.results) && OneResultEach(l')
            && (forall a :: Resolved(l, a) ==> Resolved(l', a))
            && (forall a :: Resolved(l', a) ==> Resolved(l, a) || a == row.action)
            && (id.Some? ==> Resolved(l', row.action))
  {
    var l' := AddResult(l, row, insert).0;
    if l'.results != l.results {
      assert l'.results == l.results + [row];
      assert row in l'.results;
      forall i | 0 <= i < |l.results| ensures l.results[i].action != row.action {
        assert l.results[i] in l.results;
      }
      forall a | Resolved(l, a) ensures Resolved(l', a) {
        var r :| r in l.results && r.action == a;
        assert r in l'.results;
      }
    }
  }

  /** Storing the result of an awaited action, which is then awaited no longer. */
  lemma AddResultIsSound(c: Constitution, s: Server, message: nat, row: ResultRow, insert: Write)
    requires Sound(c, s) && message in s.pendingActions && row.action == s.pendingActions[message].action
    ensures var (l, id) := AddResult(s.ledger, row, insert);
            && Extends(s.ledger, l)
            && Sound(c, s.(ledger := l, pendingActions := s.pendingActions - {message}))
            && (id.Some? ==> Resolved(l, row.action))
            && !RolledBack(l, row.action) && l.rollbacks == s.ledger.rollbacks
            && Dispatched(s.wire, row.action, s.pendingActions[message].snapshot, s.pendingActions[message].cashBefore)
  {
    var (l, id) := AddResult(s.ledger, row, insert);
    assert AwaitedSoundly(s.ledger, s.wire, message, s.pendingActions[message]);
    NewResultIsFirst(s.ledger, row, insert);
    PendingAreDistinct(c, s);
    ProvenanceExtends(c, s.ledger, l, s.wire);
    ResultKeepsPending(s, l, message, row.action);
    assert OneRollbackEach(l, s.wire);
  }

  lemma ResultKeepsPending(s: Server, l: Ledger, message: nat, action: nat)
    requires PendingSound(s) && message in s.pendingActions && s.pendingActions[message].action == action
    requires forall m :: m in s.pendingActions && m != message ==> s.pendingActions[m].action != action
    requires l.rollbacks == s.ledger.rollbacks
    requires forall a :: Resolved(s.ledger, a) ==> Resolved(l, a)
    requires forall a :: Resolved(l, a) ==> Resolved(s.ledger, a) || a == action
    ensures PendingSound(s.(ledger := l, pendingActions := s.pendingActions - {message}))
  {
    var s' := s.(ledger := l, pendingActions := s.pendingActions - {message});
    forall m | m in s'.pendingActions ensures AwaitedSoundly(l, s.wire, m, s'.pendingActions[m]) {
      assert AwaitedSoundly(s.ledger, s.wire, m, s.pendingActions[m]);
    }
    forall a | a in s.pendingVerifications ensures VerifiedSoundly(l, s.wire, a, s.pendingVerifications[a]) {
      assert VerifiedSoundly(s.ledger, s.wire, a, s.pendingVerifications[a]);
    }
  }

  /** Starting to await the verification of an action that has its result. */
  lemma AwaitingVerificationIsSound(c: Constitution, s: Server, action: nat, v: PendingVerification)
    requires Sound(c, s) && s.connection.Some? && VerifiedSoundly(s.ledger, s.wire, action, v)
    ensures Sound(c, s.(pendingVerifications := s.pendingVerifications[action := v]))
  {
  }

  /** The engine refused: the action is rolled back. */
  lemma FailureIsSound(c: Constitution, s: Server, simulation: Uuid, pending: PendingAction, tick: nat, f: RollbackFaults)
    requires Sound(c, s) && !RolledBack(s.ledger, pending.action)
    requires Dispatched(s.wire, pending.action, pending.snapshot, pending.cashBefore)
    requires forall m :: m in s.pendingActions ==> s.pendingActions[m].action != pending.action
    requires pending.action !in s.pendingVerifications
    ensures var l := TriggerRollback(c, s.ledger, simulation, pending.snapshot, pending.action, tick, f);
            Sound(c, s.(ledger := l)) && Extends(s.ledger, l)
  {
    TriggerIsSound(c, s, simulation, pending.snapshot, pending.action, tick, f);
    TriggerAddsOne(c, s.ledger, simulation, pending.snapshot, pending.action, tick, f);
  }

  lemma ResultIsSound(c: Constitution, s: Server, simulation: Uuid, correlation: Option<nat>, cost: Option<int>,
                      failed: bool, insert: Write, f: RollbackFaults)
    requires Sound(c, s) && s.connection.Some?
    ensures var s' := HandleResult(c, s, simulation, correlation, cost, failed, insert, f);
            Sound(c, s') && Extends(s.ledger, s'.ledger)
  {
    if correlation.None? || correlation.value !in s.pendingActions {
      ExtendsReflexive(s.ledger);
    } else {
      var message := correlation.value;
      var pending := s.pendingActions[message];
      var row := ResultRow(pending.action, cost, failed);
      var (l, result) := AddResult(s.ledger, row, insert);
      var s1 := s.(ledger := l, pendingActions := s.pendingActions - {message});
      AddResultIsSound(c, s, message, row, insert);
      if result.Some? {
        if failed {
          PendingAreDistinct(c, s);
          FailureIsSound(c, s1, simulation, pending, CurrentTick(s), f);
          ExtendsTransitive(s.ledger, l, HandleResult(c, s, simulation, correlation, cost, failed, insert, f).ledger);
        } else {
          AwaitingVerificationIsSound(c, s1, pending.action, PendingVerification(pending.snapshot, pending.cashBefore));
        }
      }
    }
  }

  // --- Every step ---------------------------------------------------------------------------------------------

  lemma ObserveIsSound(c: Constitution, s: Server, o: Observation, order: seq<nat>, rollbacks: seq<RollbackFaults>,
                       proposals: seq<ProposalFaults>)
    requires Sound(c, s) && Enabled(c, s, Snapshot(o, order, rollbacks, proposals))
    ensures var s' := Step(c, s, Snapshot(o, order, rollbacks, proposals));
            Sound(c, s') && Extends(s.ledger, s'.ledger)
  {
    var simulation, tick := s.connection.value, CurrentTick(s);
    var s1 := s.(history := Suffix(s.history + [o], MAX_HISTORY));
    var s2 := VerifyAll(c, s1, simulation, tick, o.cash, order, rollbacks);
    VerifyAllIsSound(c, s1, simulation, tick, o.cash, order, rollbacks);
    VerifyAllFrame(c, s1, simulation, tick, o.cash, order, rollbacks);
    ProposalsAreSound(c, s2, simulation, tick, o.cash, ProposalsOn(c, s, o), proposals);
    ExtendsTransitive(s.ledger, s2.ledger, Step(c, s, Snapshot(o, order, rollbacks, proposals)).ledger);
  }

  /** The steps that touch no table but simulations and transitions. */
  lemma BookkeepingIsSound(c: Constitution, s: Server, l: Ledger)
    requires Sound(c, s) && l == s.ledger.(simulations := l.simulations, transitions := l.transitions)
    requires Prefix(s.ledger.simulations, l.simulations) && Prefix(s.ledger.transitions, l.transitions)
    ensures Sound(c, s.(ledger := l)) && Extends(s.ledger, l)
  {
    GrowthIsSound(c, s, l);
  }

  lemma ManualRollbackIsSound(c: Constitution, s: Server, snapshot: nat, f: RestoreFaults)
    requires Sound(c, s)
    ensures var l := RestoreSnapshot(s.ledger, snapshot, Manual, f).0;
            Sound(c, s.(ledger := l)) && Extends(s.ledger, l)
  {
    var l := RestoreSnapshot(s.ledger, snapshot, Manual, f).0;
    ProvenanceExtends(c, s.ledger, l, s.wire);
    forall a | !RolledBack(s.ledger, a) ensures !RolledBack(l, a) {
      forall i | 0 <= i < |l.rollbacks| ensures l.rollbacks[i].trigger != Automatic(a) {
        assert i < |s.ledger.rollbacks| ==> l.rollbacks[i] == s.ledger.rollbacks[i];
      }
    }
    forall m | m in s.pendingActions ensures AwaitedSoundly(l, s.wire, m, s.pendingActions[m]) {
      assert AwaitedSoundly(s.ledger, s.wire, m, s.pendingActions[m]);
    }
    forall a | a in s.pendingVerifications ensures VerifiedSoundly(l, s.wire, a, s.pendingVerifications[a]) {
      assert VerifiedSoundly(s.ledger, s.wire, a, s.pendingVerifications[a]);
    }
  }

  ghost predicate LightLedger(l: Ledger, l': Ledger) {
    l' == l.(simulations := l'.simulations, transitions := l'.transitions) && Prefix(l.simulations, l'.simulations)
  }

  ghost predicate LightFramed(s: Server, s': Server) {
    && LightLedger(s.ledger, s'.ledger)
    && s'.wire == s.wire && s'.connection == s.connection && s'.governor == s.governor && s'.granted == s.granted
    && s'.clock == s.clock && s'.birth == s.birth
    && s'.pendingActions == s.pendingActions && s'.pendingVerifications == s.pendingVerifications
  }

  /** Hello, heartbeat, poll and resolve touch only simulations and transitions. */
  lemma LightStepFrame(c: Constitution, s: Server, e: Event)
    requires Enabled(c, s, e) && (e.Hello? || e.Heartbeat? || e.WatchdogPoll? || e.Resolve?)
    ensures LightFramed(s, Step(c, s, e))
  {
    if e.Heartbeat? {
      HeartbeatFrame(c, s, s.connection.value, e.tick, e.read, e.write);
    } else if e.WatchdogPoll? {
      PollFrame(c, s, e.since, e.faults);
    } else if e.Resolve? {
      ResolveFrame(s.ledger, e.read, e.write);
    }
  }

  lemma HeartbeatFrame(c: Constitution, s: Server, simulation: Uuid, tick: nat, read: ReadFaults, write: Write)
    ensures LightFramed(s, HandleHeartbeat(c, s, simulation, tick, read, write))
  {
    RecoveryFrame(c, s.(tick := Some(tick), heartbeats := s.heartbeats + 1), simulation, tick, read, write);
  }

  lemma PollFrame(c: Constitution, s: Server, since: Option<nat>, f: PollFaults)
    requires |f.oscillation| >= |s.ledger.actions|
    ensures LightFramed(s, s.(ledger := Poll(c, s.ledger, since, s.clock, f)))
  {
    PollGrows(c, s.ledger, since, s.clock, f);
  }

  lemma ResolveFrame(l: Ledger, read: ReadFaults, write: Write)
    ensures LightLedger(l, ResolveByHand(l, read, write))
  {
  }

  lemma RecoveryFrame(c: Constitution, s: Server, simulation: Uuid, tick: nat, read: ReadFaults, write: Write)
    ensures var s' := RecoverFromCautious(c, s, simulation, tick, read, write);
            s' == s.(ledger := s.ledger.(transitions := s'.ledger.transitions), cleanHeartbeats := s'.cleanHeartbeats)
  {
  }

  lemma LightStepIsSound(c: Constitution, s: Server, e: Event)
    requires Sound(c, s) && Enabled(c, s, e) && (e.Hello? || e.Heartbeat? || e.WatchdogPoll? || e.Resolve?)
    ensures Sound(c, Step(c, s, e)) && Extends(s.ledger, Step(c, s, e).ledger)
  {
    var s' := Step(c, s, e);
    StepGrows(c, s, e);
    LightStepFrame(c, s, e);
    LightLedgerIsSound(c, s, s');
  }

  lemma LightLedgerIsSound(c: Constitution, s: Server, s': Server)
    requires Sound(c, s)
    requires s'.ledger == s.ledger.(simulations := s'.ledger.simulations, transitions := s'.ledger.transitions)
    requires Prefix(s.ledger.simulations, s'.ledger.simulations) && Prefix(s.ledger.transitions, s'.ledger.transitions)
    requires s'.wire == s.wire && s'.connection == s.connection
    requires s'.pendingActions == s.pendingActions && s'.pendingVerifications == s.pendingVerifications
    ensures Sound(c, s') && Extends(s.ledger, s'.ledger)
  {
    BookkeepingIsSound(c, s, s'.ledger);
    SoundDependsOn(c, s.(ledger := s'.ledger), s');
  }

  lemma SoundDependsOn(c: Constitution, s: Server, s': Server)
    requires Sound(c, s) && s'.ledger == s.ledger && s'.wire == s.wire && s'.connection == s.connection
    requires s'.pendingActions == s.pendingActions && s'.pendingVerifications == s.pendingVerifications
    ensures Sound(c, s')
  {
  }

  lemma StartIsSound(c: Constitution, s: Server, e: Event)
    requires Sound(c, s) && Enabled(c, s, e) && e.Start?
    ensures Sound(c, Step(c, s, e)) && Extends(s.ledger, Step(c, s, e).ledger)
  {
    StepGrows(c, s, e);
    var l := Reconcile(s.ledger, e.answered, e.read, e.write).0;
    BookkeepingIsSound(c, s, l);
  }

  lemma StepIsSound(c: Constitution, s: Server, e: Event)
    requires Sound(c, s)
    ensures Sound(c, Step(c, s, e)) && Extends(s.ledger, Step(c, s, e).ledger)
  {
    ExtendsReflexive(s.ledger);
    if Enabled(c, s, e) {
      if e.Snapshot? {
        ObserveIsSound(c, s, e.observation, e.order, e.rollbacks, e.proposals);
      } else if e.Result? {
        ResultIsSound(c, s, s.connection.value, e.correlation, e.cost, e.failed, e.insert, e.rollback);
      } else if e.RollbackByHand? {
        ManualRollbackIsSound(c, s, e.snapshot, e.restore);
      } else if e.Start? {
        StartIsSound(c, s, e);
      } else if e.Hello? || e.Heartbeat? || e.WatchdogPoll? || e.Resolve? {
        LightStepIsSound(c, s, e);
      } else {
        ForgettingIsSound(c, s, map[], map[]);
      }
    }
  }

  lemma {:induction false} RunIsSound(c: Constitution, es: seq<Event>)
    ensures Sound(c, Run(c, BOOT, es))
  {
    if es != [] {
      RunIsSound(c, es[..|es| - 1]);
      StepIsSound(c, Run(c, BOOT, es[..|es| - 1]), es[|es| - 1]);
    }
  }
}
