/** When the system does act: exactly which proposals become commands, and what is recorded of those
    that do not. */
module SendLaws {
  import opened Common
  import opened SafetyStates
  import opened Governors
  import opened GovernorLaws
  import opened IdempotencyKeys
  import opened Ledgers
  import opened SafetyReading
  import opened Servers
  import opened Runs
  import opened KeyLaws
  import RateLaws

  /** A window has run out, and reading the state has to write so. */
  predicate MustHeal(rows: seq<TransitionRow>, scope: Option<Uuid>, tick: nat) {
    Newest(rows, scope).Some? && Expired(Newest(rows, scope).value, tick)
  }

  /** The state is Normal, and the read gets to say so. */
  predicate FoundNormal(rows: seq<TransitionRow>, simulation: Uuid, tick: nat, f: ReadFaults) {
    && f.answered && Derived(rows, Some(simulation), tick).Normal?
    && (MustHeal(rows, Some(simulation), tick) ==> f.recovery.Committed?)
  }

  /** Row `i` is the simulation's latest snapshot. */
  ghost predicate IsLatest(snapshots: seq<SnapshotRow>, simulation: Uuid, i: nat) {
    && i < |snapshots| && snapshots[i].simulation == simulation
    && forall j :: i < j < |snapshots| ==> snapshots[j].simulation != simulation
  }

  ghost predicate HasYoungSnapshot(snapshots: seq<SnapshotRow>, simulation: Uuid, tick: nat, maxAge: nat) {
    exists i: nat :: IsLatest(snapshots, simulation, i) && tick <= snapshots[i].tick + maxAge
  }

  ghost predicate SnapshotObtained(l: Ledger, simulation: Uuid, tick: nat, maxAge: nat, f: SnapshotFaults) {
    f.answered && (HasYoungSnapshot(l.snapshots, simulation, tick, maxAge) || (f.script && f.insert.Committed?))
  }

  /** The query returns the simulation's latest snapshot, if it has any. */
  lemma {:induction false} LatestSnapshotIsLatest(snapshots: seq<SnapshotRow>, simulation: Uuid, i: nat)
    ensures LatestSnapshot(snapshots, simulation) == Some(i) <==> IsLatest(snapshots, simulation, i)
  {
    if snapshots != [] {
      var n := |snapshots| - 1;
      LatestSnapshotIsLatest(snapshots[..n], simulation, i);
      if IsLatest(snapshots, simulation, i) && i < n {
        assert snapshots[n].simulation != simulation;
        assert IsLatest(snapshots[..n], simulation, i);
      }
    }
  }

  lemma EnsuredIff(l: Ledger, simulation: Uuid, tick: nat, maxAge: nat, f: SnapshotFaults)
    requires simulation in l.simulations
    ensures EnsureRecentSnapshot(l, simulation, tick, maxAge, f).1.Some? <==> SnapshotObtained(l, simulation, tick, maxAge, f)
  {
    YoungIsLatest(l.snapshots, simulation, tick, maxAge);
  }

  /** Exactly what ensuring a snapshot does: a young one is used as it is; else, if the script works, one more
      row records a snapshot of this simulation at this very tick. */
  lemma EnsuredExactly(l: Ledger, simulation: Uuid, tick: nat, maxAge: nat, f: SnapshotFaults)
    requires simulation in l.simulations
    ensures var l' := EnsureRecentSnapshot(l, simulation, tick, maxAge, f).0;
            if f.answered && !HasYoungSnapshot(l.snapshots, simulation, tick, maxAge) && f.script && !f.insert.Refused?
            then && |l'.snapshots| == |l.snapshots| + 1 && l'.snapshots[..|l.snapshots|] == l.snapshots
                 && l'.snapshots[|l.snapshots|].simulation == simulation && l'.snapshots[|l.snapshots|].tick == tick
            else l'.snapshots == l.snapshots
  {
    YoungIsLatest(l.snapshots, simulation, tick, maxAge);
  }

  lemma YoungIsLatest(snapshots: seq<SnapshotRow>, simulation: Uuid, tick: nat, maxAge: nat)
    ensures var latest := LatestSnapshot(snapshots, simulation);
            && (latest.Some? ==> latest.value < |snapshots|)
            && (HasYoungSnapshot(snapshots, simulation, tick, maxAge) <==> latest.Some? && tick <= snapshots[latest.value].tick + maxAge)
  {
    var latest := LatestSnapshot(snapshots, simulation);
    forall i: nat ensures latest == Some(i) <==> IsLatest(snapshots, simulation, i) {
      LatestSnapshotIsLatest(snapshots, simulation, i);
    }
    if latest.Some? {
      assert IsLatest(snapshots, simulation, latest.value);
    }
    if HasYoungSnapshot(snapshots, simulation, tick, maxAge) {
      var i: nat :| IsLatest(snapshots, simulation, i) && tick <= snapshots[i].tick + maxAge;
      assert latest == Some(i);
    }
  }

  /** Everything before the governor goes well. */
  ghost predicate Passes(c: Constitution, l: Ledger, simulation: Uuid, tick: nat, f: ProposalFaults) {
    && simulation in l.simulations && f.proposal.Committed?
    && FoundNormal(l.transitions, simulation, tick, f.read)
    && SnapshotObtained(l, simulation, tick, c.snapshotMaxAgeTicks, f.snapshot)
  }

  lemma ReadIsNormalIff(l: Ledger, simulation: Uuid, tick: nat, f: ReadFaults)
    requires simulation in l.simulations
    ensures var (l', state) := ReadSafety(l, Some(simulation), tick, f);
            && (state == Some(Normal) <==> FoundNormal(l.transitions, simulation, tick, f))
            && l' == l.(transitions := l'.transitions)
  {
  }

  lemma SnapshotKeepsTables(l: Ledger, simulation: Uuid, tick: nat, maxAge: nat, f: SnapshotFaults)
    ensures var l' := EnsureRecentSnapshot(l, simulation, tick, maxAge, f).0;
            l' == l.(snapshots := l'.snapshots)
  {
  }

  lemma ScreenedIff(c: Constitution, l: Ledger, simulation: Uuid, tick: nat, p: Proposal, f: ProposalFaults)
    ensures var (l', screened) := Screen(c, l, simulation, tick, p, f);
            && (screened.Some? <==> Passes(c, l, simulation, tick, f))
            && (screened.Some? ==> screened.value.0 == |l.proposals| && l'.proposals == l.proposals + [ProposalRow(simulation, p)]
                                   && l'.actions == l.actions && l'.authorizations == l.authorizations)
  {
    var (l1, proposal) := AddProposal(l, ProposalRow(simulation, p), f.proposal);
    if proposal.Some? {
      var (l2, state) := ReadSafety(l1, Some(simulation), tick, f.read);
      ReadIsNormalIff(l1, simulation, tick, f.read);
      if state == Some(Normal) {
        EnsuredIff(l2, simulation, tick, c.snapshotMaxAgeTicks, f.snapshot);
        SnapshotKeepsTables(l2, simulation, tick, c.snapshotMaxAgeTicks, f.snapshot);
      }
    }
  }

  /** What the complete list of grants says about this proposal. */
  function Reference(c: Constitution, s: Server, tick: nat, p: Proposal, f: ProposalFaults): Verdict {
    ReferenceVerdict(c, s.granted, p, tick, s.clock + f.wait)
  }

  /** The command this proposal leads to, `snapshot` apart. */
  function CommandFor(s: Server, simulation: Uuid, tick: nat, cash: int, p: Proposal, snapshot: nat, f: ProposalFaults): Command {
    Command(|s.ledger.actions|, simulation, p.rideId, p.proposedPrice % 0x1_0000_0000, KeyText(simulation, p.rideId, tick),
            p.expiryTick, tick, snapshot, cash, !f.send.Refused?)
  }

  /** All that has to go well for a proposal to become a command. */
  ghost predicate Goes(c: Constitution, s: Server, simulation: Uuid, tick: nat, p: Proposal, f: ProposalFaults) {
    && Passes(c, s.ledger, simulation, tick, f)
    && Reference(c, s, tick, p, f).Authorized? && f.authorization.Committed?
    && !ActedOn(s.ledger, simulation, p.rideId, tick) && f.action.Committed?
  }

  /** The one command written, and awaited exactly if the write went through. */
  ghost predicate SentOne(s: Server, s': Server, simulation: Uuid, tick: nat, cash: int, p: Proposal, f: ProposalFaults) {
    exists snapshot: nat ::
      && s'.wire == s.wire + [CommandFor(s, simulation, tick, cash, p, snapshot, f)]
      && s'.pendingActions == if f.send.Committed? then s.pendingActions[|s.wire| := PendingAction(|s.ledger.actions|, snapshot, cash)]
                              else s.pendingActions
  }

  lemma JudgedBy(c: Constitution, s: Server, tick: nat, p: Proposal, proposal: nat, f: ProposalFaults)
    requires Represents(s.governor, s.granted, s.clock) && proposal < |s.ledger.proposals|
    ensures var (s', authorization) := Judge(c, s, tick, p, proposal, f);
            && (authorization.Some? <==> Reference(c, s, tick, p, f).Authorized? && f.authorization.Committed?)
            && (authorization.Some? ==> authorization.value == |s.ledger.authorizations|
                                        && |s'.ledger.authorizations| == |s.ledger.authorizations| + 1)
            && s'.ledger == s.ledger.(authorizations := s'.ledger.authorizations)
            && s'.wire == s.wire && s'.pendingActions == s.pendingActions
            && (!f.authorization.Refused? ==>
                  s'.ledger.authorizations == s.ledger.authorizations + [AuthorizationRow(proposal, Reference(c, s, tick, p, f))])
  {
    AuthorizeMatchesReference(c, s.governor, s.granted, s.clock, p, tick, s.clock + f.wait);
  }

  lemma ExecutedIff(s: Server, simulation: Uuid, tick: nat, cash: int, p: Proposal, authorization: nat, snapshot: nat, f: ProposalFaults)
    requires authorization < |s.ledger.authorizations|
    ensures var s' := Execute(s, simulation, tick, cash, p, authorization, snapshot, f);
            if !KeyTaken(s.ledger.actions, KeyText(simulation, p.rideId, tick)) && f.action.Committed?
            then SentOne(s, s', simulation, tick, cash, p, f)
            else s'.wire == s.wire && s'.pendingActions == s.pendingActions
  {
    var s' := Execute(s, simulation, tick, cash, p, authorization, snapshot, f);
    if !KeyTaken(s.ledger.actions, KeyText(simulation, p.rideId, tick)) && f.action.Committed? {
      assert s'.wire == s.wire + [CommandFor(s, simulation, tick, cash, p, snapshot, f)];
    }
  }

  /** In every reachable state: a proposal becomes exactly one command, with the proposal's own ride,
      price and expiry, if and only if its row is stored, the derived state is Normal and read as such,
      a young snapshot is there or can be taken, the complete history of grants permits it, the grant is
      stored, this ride has not been acted on at this tick, and the action is stored. Otherwise nothing is written or awaited. */
  lemma {:induction false} ProposalIsSentIff(c: Constitution, es: seq<Event>, simulation: Uuid, tick: nat, cash: int, p: Proposal, f: ProposalFaults)
    ensures var s := Run(c, BOOT, es);
            var s' := HandleProposal(c, s, simulation, tick, cash, p, f);
            if Goes(c, s, simulation, tick, p, f) then SentOne(s, s', simulation, tick, cash, p, f)
            else s'.wire == s.wire && s'.pendingActions == s.pendingActions
  {
    RateLaws.RunIsAccounted(c, es);
    RunIsKeyed(c, es);
    HandledIff(c, Run(c, BOOT, es), simulation, tick, cash, p, f);
  }

  lemma HandledIff(c: Constitution, s: Server, simulation: Uuid, tick: nat, cash: int, p: Proposal, f: ProposalFaults)
    requires Represents(s.governor, s.granted, s.clock) && Keyed(s.ledger)
    ensures var s' := HandleProposal(c, s, simulation, tick, cash, p, f);
            if Goes(c, s, simulation, tick, p, f) then SentOne(s, s', simulation, tick, cash, p, f)
            else s'.wire == s.wire && s'.pendingActions == s.pendingActions
  {
    var (l, screened) := Screen(c, s.ledger, simulation, tick, p, f);
    ScreenedIff(c, s.ledger, simulation, tick, p, f);
    KeyTakenIff(s.ledger, simulation, p.rideId, tick);
    if screened.Some? {
      var s1 := s.(ledger := l);
      JudgedBy(c, s1, tick, p, screened.value.0, f);
      var (s2, authorization) := Judge(c, s1, tick, p, screened.value.0, f);
      if authorization.Some? {
        ExecutedIff(s2, simulation, tick, cash, p, authorization.value, screened.value.1, f);
        SentFrom(s, s2, HandleProposal(c, s, simulation, tick, cash, p, f), simulation, tick, cash, p, f);
      }
    }
  }

  lemma SentFrom(s: Server, s2: Server, s': Server, simulation: Uuid, tick: nat, cash: int, p: Proposal, f: ProposalFaults)
    requires s2.wire == s.wire && s2.pendingActions == s.pendingActions && s2.ledger.actions == s.ledger.actions
    ensures SentOne(s2, s', simulation, tick, cash, p, f) <==> SentOne(s, s', simulation, tick, cash, p, f)
  {
    forall snapshot: nat
      ensures CommandFor(s2, simulation, tick, cash, p, snapshot, f) == CommandFor(s, simulation, tick, cash, p, snapshot, f)
    {
    }
  }

  // --- What is recorded ------------------------------------------------------------------

  /** No database call fails. */
  predicate DatabaseWorks(f: ProposalFaults) {
    && f.proposal.Committed? && f.read == ReadFaults(true, Committed) && f.rejection.Committed?
    && f.authorization.Committed? && f.snapshot.answered
  }

  /** Why a proposal is refused, or that it is granted: the safety state first, then the snapshot, then
      the policy. */
  ghost function Decision(c: Constitution, s: Server, simulation: Uuid, tick: nat, p: Proposal, f: ProposalFaults): Verdict {
    var state := Derived(s.ledger.transitions, Some(simulation), tick);
    if !state.Normal? then Rejected(BlockedBy(state))
    else if !SnapshotObtained(s.ledger, simulation, tick, c.snapshotMaxAgeTicks, f.snapshot) then Rejected(NoRecentSnapshot)
    else Reference(c, s, tick, p, f)
  }

  /** While the database works, every proposal leaves its row and one authorization row with the
      decision, a refusal as much as a grant. */
  lemma {:induction false} EveryDecisionIsRecorded(c: Constitution, es: seq<Event>, simulation: Uuid, tick: nat, cash: int, p: Proposal, f: ProposalFaults)
    requires DatabaseWorks(f) && simulation in Run(c, BOOT, es).ledger.simulations
    ensures var s := Run(c, BOOT, es);
            var l' := HandleProposal(c, s, simulation, tick, cash, p, f).ledger;
            && l'.proposals == s.ledger.proposals + [ProposalRow(simulation, p)]
            && l'.authorizations ==
               s.ledger.authorizations + [AuthorizationRow(|s.ledger.proposals|, Decision(c, s, simulation, tick, p, f))]
  {
    RateLaws.RunIsAccounted(c, es);
    DecisionIsRecorded(c, Run(c, BOOT, es), simulation, tick, cash, p, f);
  }

  lemma RefusalIsRecorded(c: Constitution, s: Server, simulation: Uuid, tick: nat, p: Proposal, f: ProposalFaults)
    requires DatabaseWorks(f) && simulation in s.ledger.simulations
    ensures var (l', screened) := Screen(c, s.ledger, simulation, tick, p, f);
            && l'.proposals == s.ledger.proposals + [ProposalRow(simulation, p)]
            && (screened.None? ==>
                  l'.authorizations ==
                  s.ledger.authorizations + [AuthorizationRow(|s.ledger.proposals|, Decision(c, s, simulation, tick, p, f))])
  {
    var (l1, proposal) := AddProposal(s.ledger, ProposalRow(simulation, p), f.proposal);
    var (l2, state) := ReadSafety(l1, Some(simulation), tick, f.read);
    ReadIsFaithful(l1, Some(simulation), tick, f.read);
    ReadIsNormalIff(l1, simulation, tick, f.read);
    if state == Some(Normal) {
      EnsuredIff(l2, simulation, tick, c.snapshotMaxAgeTicks, f.snapshot);
      SnapshotKeepsTables(l2, simulation, tick, c.snapshotMaxAgeTicks, f.snapshot);
    }
  }

  lemma DecisionIsRecorded(c: Constitution, s: Server, simulation: Uuid, tick: nat, cash: int, p: Proposal, f: ProposalFaults)
    requires Represents(s.governor, s.granted, s.clock) && DatabaseWorks(f) && simulation in s.ledger.simulations
    ensures var l' := HandleProposal(c, s, simulation, tick, cash, p, f).ledger;
            && l'.proposals == s.ledger.proposals + [ProposalRow(simulation, p)]
            && l'.authorizations ==
               s.ledger.authorizations + [AuthorizationRow(|s.ledger.proposals|, Decision(c, s, simulation, tick, p, f))]
  {
    var (l, screened) := Screen(c, s.ledger, simulation, tick, p, f);
    RefusalIsRecorded(c, s, simulation, tick, p, f);
    ScreenedIff(c, s.ledger, simulation, tick, p, f);
    if screened.Some? {
      GrantIsRecorded(c, s, s.(ledger := l), simulation, tick, cash, p, screened.value.0, screened.value.1, f);
    }
  }

  /** Neither the governor's turn nor the execution writes any other row to these two tables. */
  lemma GrantIsRecorded(c: Constitution, s: Server, s1: Server, simulation: Uuid, tick: nat, cash: int, p: Proposal,
                        proposal: nat, snapshot: nat, f: ProposalFaults)
    requires Represents(s.governor, s.granted, s.clock) && !f.authorization.Refused? && proposal < |s1.ledger.proposals|
    requires s1 == s.(ledger := s1.ledger)
    ensures var (s2, authorization) := Judge(c, s1, tick, p, proposal, f);
            var s' := if authorization.Some? then Execute(s2, simulation, tick, cash, p, authorization.value, snapshot, f) else s2;
            && s'.ledger.proposals == s1.ledger.proposals
            && s'.ledger.authorizations == s1.ledger.authorizations + [AuthorizationRow(proposal, Reference(c, s, tick, p, f))]
  {
    JudgedBy(c, s1, tick, p, proposal, f);
  }
}
