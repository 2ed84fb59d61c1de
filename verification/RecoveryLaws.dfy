/** Rollbacks, restarts and the watchdog: what each does to the safety state. */
module RecoveryLaws {
  import opened Common
  import opened SafetyStates
  import opened Governors
  import opened WorldModels
  import opened Ledgers
  import opened SafetyReading
  import opened Servers
  import opened Watchdogs
  import opened Runs
  import opened Transitions
  import opened SafetyLaws

  // --- A cash drop stops the snapshot that shows it ------------------------------------

  /** The restore, and the rollback row it records, went through. */
  predicate Restores(l: Ledger, snapshot: nat, f: RestoreFaults) {
    && f.answered && f.copied && f.insert.Committed?
    && snapshot < |l.snapshots| && l.snapshots[snapshot].simulation in l.simulations
  }

  /** At least one of the rollback's two transitions reached the ledger. */
  predicate RecordsTransition(l: Ledger, simulation: Uuid, snapshot: nat, f: RollbackFaults) {
    && simulation in l.simulations
    && (!f.enter.Refused? || (Restores(l, snapshot, f.restore) && !f.conserve.Refused?))
  }

  lemma TriggerHolds(c: Constitution, l: Ledger, simulation: Uuid, snapshot: nat, action: nat, tick: nat, f: RollbackFaults)
    requires c.conservationTicks > 0 && RecordsTransition(l, simulation, snapshot, f)
    ensures Held(TriggerRollback(c, l, simulation, snapshot, action, tick, f).transitions, simulation, tick + 1)
  {
    var (l1, state) := ReadSafety(l, Some(simulation), tick, f.read);
    var entered := RollbackEntered(simulation, state.GetOr(Normal));
    var (l2, _) := AddTransition(l1, entered, f.enter);
    NewestAppend(l1.transitions, entered, Some(simulation));
    NewestAppend(l2.transitions, ConservationEntered(simulation, tick + c.conservationTicks), Some(simulation));
  }

  lemma TriggerFrame(c: Constitution, l: Ledger, simulation: Uuid, snapshot: nat, action: nat, tick: nat, f: RollbackFaults)
    ensures var l' := TriggerRollback(c, l, simulation, snapshot, action, tick, f);
            l' == l.(transitions := l'.transitions, rollbacks := l'.rollbacks)
  {
  }

  lemma {:induction false} VerifyAllTables(c: Constitution, s: Server, simulation: Uuid, tick: nat, cash: int,
                                           order: seq<nat>, fs: seq<RollbackFaults>)
    requires |order| <= |fs|
    ensures var s' := VerifyAll(c, s, simulation, tick, cash, order, fs);
            && s'.ledger == s.ledger.(transitions := s'.ledger.transitions, rollbacks := s'.ledger.rollbacks)
            && s'.pendingVerifications == s.pendingVerifications - (set a | a in order)
  {
    if order != [] {
      var n := |order| - 1;
      VerifyAllTables(c, s, simulation, tick, cash, order[..n], fs);
      var mid := VerifyAll(c, s, simulation, tick, cash, order[..n], fs);
      assert order == order[..n] + [order[n]];
      assert (set a | a in order) == (set a | a in order[..n]) + {order[n]};
      if order[n] in mid.pendingVerifications {
        TriggerFrame(c, mid.ledger, simulation, mid.pendingVerifications[order[n]].snapshot, order[n], tick, fs[n]);
      }
    }
  }

  lemma {:induction false} VerifyAllHolds(c: Constitution, s: Server, simulation: Uuid, tick: nat, cash: int,
                                          order: seq<nat>, fs: seq<RollbackFaults>, i: nat)
    requires c.conservationTicks > 0 && WellFormed(s.ledger.transitions)
    requires i < |order| <= |fs| && forall j, k :: 0 <= j < k < |order| ==> order[j] != order[k]
    requires order[i] in s.pendingVerifications && s.pendingVerifications[order[i]].cashBefore - cash > c.maxUnexpectedCashDrop
    requires RecordsTransition(s.ledger, simulation, s.pendingVerifications[order[i]].snapshot, fs[i])
    ensures Held(VerifyAll(c, s, simulation, tick, cash, order, fs).ledger.transitions, simulation, tick + 1)
  {
    var n := |order| - 1;
    var mid := VerifyAll(c, s, simulation, tick, cash, order[..n], fs);
    VerifyAllTables(c, s, simulation, tick, cash, order[..n], fs);
    if i == n {
      assert order[n] !in order[..n];
      TriggerHolds(c, mid.ledger, simulation, s.pendingVerifications[order[n]].snapshot, order[n], tick, fs[n]);
    } else {
      VerifyAllHolds(c, s, simulation, tick, cash, order[..n], fs, i);
      VerifyAllGrows(c, s, simulation, tick, cash, order[..n], fs);
      GrowthKeepsWellFormed(c, OnMessage(simulation, tick), s.ledger.transitions, mid.ledger.transitions);
      VerifyOneGrows(c, mid, simulation, tick, cash, order[n], fs[n]);
      OnlyMessagesShorten(c, OnMessage(simulation, tick), mid.ledger.transitions,
                          VerifyAll(c, s, simulation, tick, cash, order, fs).ledger.transitions, simulation, tick + 1);
      HoldSurvives(c, OnMessage(simulation, tick), mid.ledger.transitions,
                   VerifyAll(c, s, simulation, tick, cash, order, fs).ledger.transitions, simulation, tick + 1);
    }
  }

  /** If a snapshot shows less cash than an action awaiting verification started from, by more than the limit, and
      either of that rollback's transitions reached the ledger, then no proposal made from the same
      snapshot is sent, whatever else fails. */
  lemma CashDropStopsSnapshot(c: Constitution, s: Server, simulation: Uuid, o: Observation, order: seq<nat>,
                              rollbacks: seq<RollbackFaults>, proposals: seq<ProposalFaults>, i: nat)
    requires |order| <= |rollbacks| && |ProposalsOn(c, s, o)| <= |proposals|
    requires WellFormed(s.ledger.transitions) && c.conservationTicks > 0
    requires Drains(order, s.pendingVerifications) && i < |order|
    requires order[i] in s.pendingVerifications && s.pendingVerifications[order[i]].cashBefore - o.cash > c.maxUnexpectedCashDrop
    requires RecordsTransition(s.ledger, simulation, s.pendingVerifications[order[i]].snapshot, rollbacks[i])
    ensures Observe(c, s, simulation, o, order, rollbacks, proposals).wire == s.wire
  {
    var tick := CurrentTick(s);
    var s1 := s.(history := Suffix(s.history + [o], MAX_HISTORY));
    VerifyAllHolds(c, s1, simulation, tick, o.cash, order, rollbacks, i);
    VerifyAllSendsNothing(c, s1, simulation, tick, o.cash, order, rollbacks);
    VerifyAllGrows(c, s1, simulation, tick, o.cash, order, rollbacks);
    var s2 := VerifyAll(c, s1, simulation, tick, o.cash, order, rollbacks);
    GrowthKeepsWellFormed(c, OnMessage(simulation, tick), s.ledger.transitions, s2.ledger.transitions);
    HoldBlocksProposals(c, s2, simulation, tick, o.cash, ProposalsOn(c, s, o), proposals);
  }

  /** The rollback's window reached the ledger, whether or not the caller learned of it. */
  predicate OpensWindow(l: Ledger, simulation: Uuid, snapshot: nat, f: RollbackFaults) {
    simulation in l.simulations && Restores(l, snapshot, f.restore) && !f.conserve.Refused?
  }

  /** Exactly what a rollback makes of the safety state, for every ledger and every failure: a window of
      the configured length if that row is written, else Rollback at every tick if the first row is, else
      what it was. */
  lemma RollbackOutcome(c: Constitution, l: Ledger, simulation: Uuid, snapshot: nat, action: nat, tick: nat,
                        f: RollbackFaults, later: nat)
    ensures var after := Derived(TriggerRollback(c, l, simulation, snapshot, action, tick, f).transitions, Some(simulation), later);
            if OpensWindow(l, simulation, snapshot, f) then after == if later < tick + c.conservationTicks then Conservation else Normal
            else if RecordsTransition(l, simulation, snapshot, f) then after == Rollback
            else tick <= later ==> after == Derived(l.transitions, Some(simulation), later)
  {
    var (l1, state) := ReadSafety(l, Some(simulation), tick, f.read);
    ReadIsFaithful(l, Some(simulation), tick, f.read);
    var (l2, _) := AddTransition(l1, RollbackEntered(simulation, state.GetOr(Normal)), f.enter);
    NewestAppend(l1.transitions, RollbackEntered(simulation, state.GetOr(Normal)), Some(simulation));
    NewestAppend(l2.transitions, ConservationEntered(simulation, tick + c.conservationTicks), Some(simulation));
  }

  /** Rollback is meant to be passed through. It is left behind by the rollback itself if and only if the
      window is written, or nothing is written and the state was another before. What ends it later is a
      restart, a resolve, an escalation, or another rollback that writes its window. */
  lemma RollbackPersistsIff(c: Constitution, l: Ledger, simulation: Uuid, snapshot: nat, action: nat, tick: nat, f: RollbackFaults)
    ensures var rows := TriggerRollback(c, l, simulation, snapshot, action, tick, f).transitions;
            (forall later :: tick <= later ==> Derived(rows, Some(simulation), later).Rollback?) <==>
            && !OpensWindow(l, simulation, snapshot, f)
            && (RecordsTransition(l, simulation, snapshot, f) || Derived(l.transitions, Some(simulation), tick).Rollback?)
  {
    var rows := TriggerRollback(c, l, simulation, snapshot, action, tick, f).transitions;
    forall later ensures tick <= later && !OpensWindow(l, simulation, snapshot, f) && RecordsTransition(l, simulation, snapshot, f) ==>
                           Derived(rows, Some(simulation), later).Rollback?
    {
      RollbackOutcome(c, l, simulation, snapshot, action, tick, f, later);
    }
    forall later ensures tick <= later && !RecordsTransition(l, simulation, snapshot, f) ==>
                           Derived(rows, Some(simulation), later) == Derived(l.transitions, Some(simulation), later)
    {
      RollbackOutcome(c, l, simulation, snapshot, action, tick, f, later);
    }
    RollbackOutcome(c, l, simulation, snapshot, action, tick, f, tick);
  }

  // --- Restart ------------------------------------------------------------------------------

  function Max(a: nat, b: nat): nat {
    if a >= b then a else b
  }

  /** How many heartbeats a new process must handle before it may clear Cautious. */
  function HeartbeatsNeeded(c: Constitution): nat {
    Max(1, c.cautiousRecoveryHeartbeats)
  }

  /** Every transition since this process's startup row, that row included, is global and none is Normal. */
  ghost predicate Unconfirmed(rows: seq<TransitionRow>, since: nat) {
    && 0 < since <= |rows|
    && forall k :: since - 1 <= k < |rows| ==>
                     rows[k].scope.None? && (rows[k].to.Cautious? || rows[k].to.RequiresManualResolution())
  }

  /** A process that has just started: nothing sent, nothing awaited, nothing confirmed. */
  ghost predicate Young(c: Constitution, s: Server) {
    && Unconfirmed(s.ledger.transitions, s.birth.transitions)
    && |s.wire| == s.birth.wire
    && s.pendingActions == map[] && s.pendingVerifications == map[]
    && s.cleanHeartbeats <= s.heartbeats
    && s.heartbeats < HeartbeatsNeeded(c)
  }

  lemma UnconfirmedNewest(rows: seq<TransitionRow>, since: nat, scope: Option<Uuid>)
    requires Unconfirmed(rows, since)
    ensures var newest := Newest(rows, scope);
            newest.Some? && (newest.value.to.Cautious? || newest.value.to.RequiresManualResolution())
  {
    var last := rows[|rows| - 1];
    assert last.scope.None? && (last.to.Cautious? || last.to.RequiresManualResolution());
  }

  lemma {:induction false} UnconfirmedSurvives(c: Constitution, ctx: Context, before: seq<TransitionRow>, after: seq<TransitionRow>, since: nat)
    requires Unconfirmed(before, since) && Grown(c, ctx, before, after)
    requires ctx.Quiet? || ctx.OnPoll? || ctx.OnProposal?
    ensures Unconfirmed(after, since)
    decreases |after|
  {
    if |before| == |after| {
      assert after == before;
    } else {
      var n := |after| - 1;
      GrownInit(c, ctx, before, after);
      UnconfirmedSurvives(c, ctx, before, after[..n], since);
      UnconfirmedNewest(after[..n], since, ReadScope(ctx));
    }
  }

  lemma {:induction false} UnconfirmedSendsNothing(c: Constitution, s: Server, simulation: Uuid, tick: nat, cash: int,
                                                   ps: seq<Proposal>, fs: seq<ProposalFaults>, since: nat)
    requires |ps| <= |fs| && Unconfirmed(s.ledger.transitions, since)
    ensures var s' := HandleProposals(c, s, simulation, tick, cash, ps, fs);
            s'.wire == s.wire && Unconfirmed(s'.ledger.transitions, since)
  {
    if ps != [] {
      var n := |ps| - 1;
      UnconfirmedSendsNothing(c, s, simulation, tick, cash, ps[..n], fs, since);
      var mid := HandleProposals(c, s, simulation, tick, cash, ps[..n], fs);
      ProposalSendsOnlyWhenNormal(c, mid, simulation, tick, cash, ps[n], fs[n]);
      UnconfirmedNewest(mid.ledger.transitions, since, Some(simulation));
      ProposalGrows(c, mid, simulation, tick, cash, ps[n], fs[n]);
      UnconfirmedSurvives(c, OnProposal(simulation, tick), mid.ledger.transitions,
                          HandleProposals(c, s, simulation, tick, cash, ps, fs).ledger.transitions, since);
    }
  }

  lemma YoungStep(c: Constitution, s: Server, e: Event)
    requires Young(c, s) && !e.Start? && !e.Resolve?
    requires Step(c, s, e).heartbeats < HeartbeatsNeeded(c)
    ensures Young(c, Step(c, s, e)) && Step(c, s, e).birth == s.birth && Step(c, s, e).wire == s.wire
  {
    if Enabled(c, s, e) {
      if e.Snapshot? {
        YoungSnapshot(c, s, e);
      } else if e.Heartbeat? {
        UnconfirmedNewest(s.ledger.transitions, s.birth.transitions, s.connection);
      } else {
        StepGrows(c, s, e);
        if e.WatchdogPoll? {
          PollGrows(c, s.ledger, e.since, s.clock, e.faults);
          UnconfirmedSurvives(c, OnPoll, s.ledger.transitions, Step(c, s, e).ledger.transitions, s.birth.transitions);
        }
      }
    }
  }

  lemma YoungSnapshot(c: Constitution, s: Server, e: Event)
    requires Young(c, s) && e.Snapshot? && Enabled(c, s, e)
    ensures Young(c, Step(c, s, e)) && Step(c, s, e).birth == s.birth && Step(c, s, e).wire == s.wire
  {
    var tick, o := CurrentTick(s), e.observation;
    var s1 := s.(history := Suffix(s.history + [o], MAX_HISTORY));
    DrainsAll(e.order, s.pendingVerifications);
    UnconfirmedSendsNothing(c, s1, s.connection.value, tick, o.cash, ProposalsOn(c, s, o), e.proposals, s.birth.transitions);
    ProposalsFrame(c, s1, s.connection.value, tick, o.cash, ProposalsOn(c, s, o), e.proposals);
  }

  lemma {:induction false} HeartbeatsOnlyGrow(c: Constitution, s: Server, es: seq<Event>)
    requires forall i :: 0 <= i < |es| ==> !es[i].Start?
    ensures s.heartbeats <= Run(c, s, es).heartbeats
  {
    if es != [] {
      var n := |es| - 1;
      HeartbeatsOnlyGrow(c, s, es[..n]);
      HeartbeatsGrowInStep(c, Run(c, s, es[..n]), es[n]);
    }
  }

  lemma HeartbeatsGrowInStep(c: Constitution, s: Server, e: Event)
    requires !e.Start?
    ensures s.heartbeats <= Step(c, s, e).heartbeats
  {
    if e.Snapshot? && Enabled(c, s, e) {
      var tick, o := CurrentTick(s), e.observation;
      var s1 := s.(history := Suffix(s.history + [o], MAX_HISTORY));
      VerifyAllFrame(c, s1, s.connection.value, tick, o.cash, e.order, e.rollbacks);
      ProposalsFrame(c, VerifyAll(c, s1, s.connection.value, tick, o.cash, e.order, e.rollbacks), s.connection.value,
                     tick, o.cash, ProposalsOn(c, s, o), e.proposals);
    }
  }

  /** A successful start leaves a young process behind. */
  lemma StartIsYoung(c: Constitution, s: Server, e: Event)
    requires e.Start? && Enabled(c, s, e) && Step(c, s, e).up
    ensures Young(c, Step(c, s, e))
  {
    var (l1, from) := ReadSafety(s.ledger, None, 0, e.read);
    if from.Some? {
      var l2 := AddTransition(l1, StartupRow(from.value), e.write).0;
    }
  }

  /** After a restart, and until that process has handled the required heartbeats or a human has
      resolved, no command is sent for any simulation, over every run and every failure. */
  lemma {:induction false} RestartIsQuiet(c: Constitution, s: Server, start: Event, es: seq<Event>)
    requires start.Start? && Enabled(c, s, start) && Step(c, s, start).up
    requires forall i :: 0 <= i < |es| ==> !es[i].Start? && !es[i].Resolve?
    requires Run(c, Step(c, s, start), es).heartbeats < HeartbeatsNeeded(c)
    ensures Young(c, Run(c, Step(c, s, start), es))
    ensures Run(c, Step(c, s, start), es).wire == s.wire
  {
    StartIsYoung(c, s, start);
    if es != [] {
      var n := |es| - 1;
      var before := Run(c, Step(c, s, start), es[..n]);
      HeartbeatsGrowInStep(c, before, es[n]);
      RestartIsQuiet(c, s, start, es[..n]);
      YoungStep(c, before, es[n]);
    }
  }

  /** The counter of clean heartbeats never runs ahead of the heartbeats this process handled. */
  lemma {:induction false} CounterIsHonest(c: Constitution, es: seq<Event>)
    ensures Run(c, BOOT, es).cleanHeartbeats <= Run(c, BOOT, es).heartbeats
  {
    if es != [] {
      var n := |es| - 1;
      CounterIsHonest(c, es[..n]);
      var s, e := Run(c, BOOT, es[..n]), es[n];
      if e.Snapshot? && Enabled(c, s, e) {
        var tick, o := CurrentTick(s), e.observation;
        var s1 := s.(history := Suffix(s.history + [o], MAX_HISTORY));
        VerifyAllFrame(c, s1, s.connection.value, tick, o.cash, e.order, e.rollbacks);
        ProposalsFrame(c, VerifyAll(c, s1, s.connection.value, tick, o.cash, e.order, e.rollbacks), s.connection.value,
                       tick, o.cash, ProposalsOn(c, s, o), e.proposals);
      }
    }
  }

  // --- The watchdog -----------------------------------------------------------------------------

  lemma {:induction false} EscalationNeverLowers(c: Constitution, before: seq<TransitionRow>, after: seq<TransitionRow>)
    requires WellFormed(before) && Grown(c, OnPoll, before, after)
    ensures Derived(before, None, 0).Severity() <= Derived(after, None, 0).Severity()
    decreases |after|
  {
    if |before| == |after| {
      assert after == before;
    } else {
      var n := |after| - 1;
      GrownInit(c, OnPoll, before, after);
      EscalationNeverLowers(c, before, after[..n]);
      GrowthKeepsWellFormed(c, OnPoll, before, after[..n]);
      RowKeepsWellFormed(c, OnPoll, after[..n], after[n]);
      NewestAppend(after[..n], after[n], None);
    }
  }

  /** No poll of the watchdog, in any reachable state and under any failure, lowers the severity of
      the global state or takes a simulation to Normal, and it changes no other table. */
  lemma PollNeverLowers(c: Constitution, es: seq<Event>, since: Option<nat>, f: PollFaults)
    requires |f.oscillation| >= |Run(c, BOOT, es).ledger.actions|
    ensures var s := Run(c, BOOT, es);
            var l' := Poll(c, s.ledger, since, s.clock, f);
            && l' == s.ledger.(transitions := l'.transitions)
            && Derived(s.ledger.transitions, None, 0).Severity() <= Derived(l'.transitions, None, 0).Severity()
            && (forall simulation, tick :: Derived(l'.transitions, Some(simulation), tick).Normal? ==>
                                             Derived(s.ledger.transitions, Some(simulation), tick).Normal?)
  {
    var s := Run(c, BOOT, es);
    RunKeepsWellFormed(c, BOOT, es);
    PollGrows(c, s.ledger, since, s.clock, f);
    var rows' := Poll(c, s.ledger, since, s.clock, f).transitions;
    EscalationNeverLowers(c, s.ledger.transitions, rows');
    forall simulation: Uuid, tick: nat | Derived(rows', Some(simulation), tick).Normal?
      ensures Derived(s.ledger.transitions, Some(simulation), tick).Normal?
    {
      PollTakesNoneToNormal(c, s.ledger.transitions, rows', simulation, tick);
    }
  }

  lemma {:induction false} PollTakesNoneToNormal(c: Constitution, before: seq<TransitionRow>, after: seq<TransitionRow>,
                                                 simulation: Uuid, tick: nat)
    requires WellFormed(before) && Grown(c, OnPoll, before, after)
    ensures Derived(after, Some(simulation), tick).Normal? ==> Derived(before, Some(simulation), tick).Normal?
    decreases |after|
  {
    if |before| == |after| {
      assert after == before;
    } else {
      var n := |after| - 1;
      GrownInit(c, OnPoll, before, after);
      PollTakesNoneToNormal(c, before, after[..n], simulation, tick);
      GrowthKeepsWellFormed(c, OnPoll, before, after[..n]);
      RowKeepsWellFormed(c, OnPoll, after[..n], after[n]);
      NewestAppend(after[..n], after[n], Some(simulation));
    }
  }

  // --- The two ways out of Quarantine without a human ----------------------------------------------

  /** A restart in which nothing fails replaces any state, Quarantine and Stopped included, by
      Cautious, which heartbeats clear. */
  lemma RestartLeavesQuarantine(l: Ledger, read: ReadFaults, simulation: Uuid, tick: nat)
    requires read.answered && read.recovery.Committed?
    ensures Derived(Reconcile(l, true, read, Committed).0.transitions, Some(simulation), tick) == Cautious
  {
    var (l1, from) := ReadSafety(l, None, 0, read);
    NewestAppend(l1.transitions, StartupRow(from.value), Some(simulation));
  }
}
