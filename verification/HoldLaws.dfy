/** Exactly which events end a hold, and exactly which end Quarantine and Stopped, for one event and over
    every run. Every condition is on the state before the event and on the event itself. */
module HoldLaws {
  import opened Common
  import opened SafetyStates
  import opened Governors
  import opened WorldModels
  import opened Ledgers
  import opened SafetyReading
  import opened Servers
  import opened Runs
  import opened Transitions
  import opened SafetyLaws
  import opened RecoveryLaws
  import opened LedgerLaws
  import opened OutcomeLaws
  import ResponseLaws

  // --- Guards ------------------------------------------------------------------------------

  /** A start gets as far as its own transition. */
  predicate Restarts(s: Server, e: Event) {
    e.Start? && !s.up && e.answered && e.read.answered && !e.write.Refused?
  }

  /** A resolve finds a global state to resolve, and its row is written. */
  predicate Resolves(s: Server, e: Event) {
    && e.Resolve? && e.read.answered && !e.write.Refused?
    && (Derived(s.ledger.transitions, None, 0).Quarantine? || Derived(s.ledger.transitions, None, 0).Stopped?)
  }

  /** The event is the recorded failure of one of the simulation's commands. */
  predicate Fails(s: Server, e: Event, simulation: Uuid) {
    && e.Result? && s.up && s.connection == Some(simulation)
    && e.correlation.Some? && e.correlation.value in s.pendingActions && e.failed && e.insert.Committed?
  }

  function FailedSnapshot(s: Server, e: Event): nat
    requires e.Result? && e.correlation.Some? && e.correlation.value in s.pendingActions
  {
    s.pendingActions[e.correlation.value].snapshot
  }

  /** Cash has dropped too far since this action, and its rollback reaches the ledger. */
  predicate Drops(c: Constitution, s: Server, simulation: Uuid, cash: int, action: nat, f: RollbackFaults) {
    && action in s.pendingVerifications && s.pendingVerifications[action].cashBefore - cash > c.maxUnexpectedCashDrop
    && RecordsTransition(s.ledger, simulation, s.pendingVerifications[action].snapshot, f)
  }

  /** The same, and its window is written. */
  predicate Opens(c: Constitution, s: Server, simulation: Uuid, cash: int, action: nat, f: RollbackFaults) {
    && Drops(c, s, simulation, cash, action, f)
    && OpensWindow(s.ledger, simulation, s.pendingVerifications[action].snapshot, f)
  }

  ghost predicate SomeDrop(c: Constitution, s: Server, simulation: Uuid, cash: int, order: seq<nat>, fs: seq<RollbackFaults>)
    requires |order| <= |fs|
  {
    exists i :: 0 <= i < |order| && Drops(c, s, simulation, cash, order[i], fs[i])
  }

  /** The last of the rollbacks opens its window. */
  ghost predicate EndsInWindow(c: Constitution, s: Server, simulation: Uuid, cash: int, order: seq<nat>, fs: seq<RollbackFaults>)
    requires |order| <= |fs|
  {
    exists i :: 0 <= i < |order| && Opens(c, s, simulation, cash, order[i], fs[i])
                && forall j :: i < j < |order| ==> !Drops(c, s, simulation, cash, order[j], fs[j])
  }

  /** The event rolls back one of the simulation's actions, and the rollback reaches the ledger. */
  ghost predicate RollsBack(c: Constitution, s: Server, e: Event, simulation: Uuid) {
    || (Fails(s, e, simulation) && RecordsTransition(s.ledger, simulation, FailedSnapshot(s, e), e.rollback))
    || (e.Snapshot? && Enabled(c, s, e) && s.connection == Some(simulation)
        && SomeDrop(c, s, simulation, e.observation.cash, e.order, e.rollbacks))
  }

  /** The event's last rollback opens a window that ends before `until`. */
  ghost predicate OpensShorter(c: Constitution, s: Server, e: Event, simulation: Uuid, until: nat) {
    && CurrentTick(s) + c.conservationTicks < until
    && (|| (Fails(s, e, simulation) && OpensWindow(s.ledger, simulation, FailedSnapshot(s, e), e.rollback))
        || (e.Snapshot? && Enabled(c, s, e) && s.connection == Some(simulation)
            && EndsInWindow(c, s, simulation, e.observation.cash, e.order, e.rollbacks)))
  }

  /** What ends Quarantine and Stopped. */
  ghost predicate Releasing(c: Constitution, s: Server, e: Event, simulation: Uuid) {
    Restarts(s, e) || Resolves(s, e) || RollsBack(c, s, e, simulation)
  }

  /** What ends a hold before its time. */
  ghost predicate Ending(c: Constitution, s: Server, e: Event, simulation: Uuid, until: nat) {
    Restarts(s, e) || Resolves(s, e) || OpensShorter(c, s, e, simulation, until)
  }

  // --- Rollbacks -------------------------------------------------------------------------------

  lemma TriggerHeldIff(c: Constitution, l: Ledger, simulation: Uuid, snapshot: nat, action: nat, tick: nat,
                       f: RollbackFaults, until: nat)
    requires tick < until
    ensures Held(TriggerRollback(c, l, simulation, snapshot, action, tick, f).transitions, simulation, until) <==>
            if OpensWindow(l, simulation, snapshot, f) then until <= tick + c.conservationTicks
            else RecordsTransition(l, simulation, snapshot, f) || Held(l.transitions, simulation, until)
  {
    var (l1, state) := ReadSafety(l, Some(simulation), tick, f.read);
    if l1.transitions != l.transitions {
      NewestAppend(l.transitions, RecoveryRow(Some(simulation)), Some(simulation));
    }
    var (l2, _) := AddTransition(l1, RollbackEntered(simulation, state.GetOr(Normal)), f.enter);
    NewestAppend(l1.transitions, RollbackEntered(simulation, state.GetOr(Normal)), Some(simulation));
    NewestAppend(l2.transitions, ConservationEntered(simulation, tick + c.conservationTicks), Some(simulation));
  }

  lemma AwaitsIsDerived(rows: seq<TransitionRow>, simulation: Uuid, tick: nat)
    ensures AwaitsHuman(rows, simulation) <==> Derived(rows, Some(simulation), tick).RequiresManualResolution()
  {
  }

  lemma TriggerAwaitsIff(c: Constitution, l: Ledger, simulation: Uuid, snapshot: nat, action: nat, tick: nat, f: RollbackFaults)
    ensures AwaitsHuman(TriggerRollback(c, l, simulation, snapshot, action, tick, f).transitions, simulation) <==>
            AwaitsHuman(l.transitions, simulation) && !RecordsTransition(l, simulation, snapshot, f)
  {
    RollbackOutcome(c, l, simulation, snapshot, action, tick, f, tick);
    AwaitsIsDerived(l.transitions, simulation, tick);
    AwaitsIsDerived(TriggerRollback(c, l, simulation, snapshot, action, tick, f).transitions, simulation, tick);
  }

  /** The guards look only at tables that verification leaves alone. */
  lemma DropsFrame(c: Constitution, s: Server, s': Server, simulation: Uuid, cash: int, action: nat, f: RollbackFaults)
    requires s'.ledger.simulations == s.ledger.simulations && s'.ledger.snapshots == s.ledger.snapshots
    requires action in s'.pendingVerifications <==> action in s.pendingVerifications
    requires action in s.pendingVerifications ==> s'.pendingVerifications[action] == s.pendingVerifications[action]
    ensures Drops(c, s', simulation, cash, action, f) <==> Drops(c, s, simulation, cash, action, f)
    ensures Opens(c, s', simulation, cash, action, f) <==> Opens(c, s, simulation, cash, action, f)
  {
  }

  predicate Distinct(order: seq<nat>) {
    forall i, j :: 0 <= i < j < |order| ==> order[i] != order[j]
  }

  /** One turn of the drain. */
  lemma VerifyOneIff(c: Constitution, s: Server, simulation: Uuid, tick: nat, cash: int, action: nat, f: RollbackFaults, until: nat)
    requires tick < until
    ensures var rows := VerifyOne(c, s, simulation, tick, cash, action, f).ledger.transitions;
            && (AwaitsHuman(rows, simulation) <==> AwaitsHuman(s.ledger.transitions, simulation) && !Drops(c, s, simulation, cash, action, f))
            && (Held(rows, simulation, until) <==>
                  if Opens(c, s, simulation, cash, action, f) then until <= tick + c.conservationTicks
                  else Drops(c, s, simulation, cash, action, f) || Held(s.ledger.transitions, simulation, until))
  {
    if action in s.pendingVerifications {
      TriggerAwaitsIff(c, s.ledger, simulation, s.pendingVerifications[action].snapshot, action, tick, f);
      TriggerHeldIff(c, s.ledger, simulation, s.pendingVerifications[action].snapshot, action, tick, f, until);
    }
  }

  /** The guards of the last turn, seen from the drain's beginning. */
  lemma LastTurn(c: Constitution, s: Server, simulation: Uuid, tick: nat, cash: int, order: seq<nat>, fs: seq<RollbackFaults>)
    requires 0 < |order| <= |fs| && Distinct(order)
    ensures var n := |order| - 1;
            var mid := VerifyAll(c, s, simulation, tick, cash, order[..n], fs);
            && (Drops(c, mid, simulation, cash, order[n], fs[n]) <==> Drops(c, s, simulation, cash, order[n], fs[n]))
            && (Opens(c, mid, simulation, cash, order[n], fs[n]) <==> Opens(c, s, simulation, cash, order[n], fs[n]))
  {
    var n := |order| - 1;
    VerifyAllTables(c, s, simulation, tick, cash, order[..n], fs);
    assert order[n] !in order[..n];
    DropsFrame(c, s, VerifyAll(c, s, simulation, tick, cash, order[..n], fs), simulation, cash, order[n], fs[n]);
  }

  lemma SomeDropSplit(c: Constitution, s: Server, simulation: Uuid, cash: int, order: seq<nat>, fs: seq<RollbackFaults>)
    requires 0 < |order| <= |fs|
    ensures var n := |order| - 1;
            SomeDrop(c, s, simulation, cash, order, fs) <==>
            SomeDrop(c, s, simulation, cash, order[..n], fs) || Drops(c, s, simulation, cash, order[n], fs[n])
  {
    var n := |order| - 1;
    var init := order[..n];
    if i :| 0 <= i < n && Drops(c, s, simulation, cash, init[i], fs[i]) {
      assert Drops(c, s, simulation, cash, order[i], fs[i]);
    }
    if i :| 0 <= i < |order| && Drops(c, s, simulation, cash, order[i], fs[i]) {
      assert i < n ==> Drops(c, s, simulation, cash, init[i], fs[i]);
    }
  }

  lemma EndsInWindowSplit(c: Constitution, s: Server, simulation: Uuid, cash: int, order: seq<nat>, fs: seq<RollbackFaults>)
    requires 0 < |order| <= |fs|
    ensures var n := |order| - 1;
            (EndsInWindow(c, s, simulation, cash, order, fs) <==>
                  if Drops(c, s, simulation, cash, order[n], fs[n]) then Opens(c, s, simulation, cash, order[n], fs[n])
                  else EndsInWindow(c, s, simulation, cash, order[..n], fs))
  {
    var n := |order| - 1;
    var init := order[..n];
    if EndsInWindow(c, s, simulation, cash, order, fs) {
      var i :| 0 <= i < |order| && Opens(c, s, simulation, cash, order[i], fs[i])
               && forall j :: i < j < |order| ==> !Drops(c, s, simulation, cash, order[j], fs[j]);
      if i < n {
        assert Opens(c, s, simulation, cash, init[i], fs[i]);
        assert !Drops(c, s, simulation, cash, order[n], fs[n]);
      }
    }
    if EndsInWindow(c, s, simulation, cash, init, fs) && !Drops(c, s, simulation, cash, order[n], fs[n]) {
      var i :| 0 <= i < n && Opens(c, s, simulation, cash, init[i], fs[i])
               && forall j :: i < j < n ==> !Drops(c, s, simulation, cash, init[j], fs[j]);
      assert Opens(c, s, simulation, cash, order[i], fs[i]);
      forall j | i < j < |order| ensures !Drops(c, s, simulation, cash, order[j], fs[j]) {
        assert j < n ==> !Drops(c, s, simulation, cash, init[j], fs[j]);
      }
    }
    if Opens(c, s, simulation, cash, order[n], fs[n]) {
      assert EndsInWindow(c, s, simulation, cash, order, fs);
    }
  }

  /** A whole drain. */
  lemma {:induction false} VerifyAllIff(c: Constitution, s: Server, simulation: Uuid, tick: nat, cash: int,
                                        order: seq<nat>, fs: seq<RollbackFaults>, until: nat)
    requires tick < until && |order| <= |fs| && Distinct(order)
    ensures var rows := VerifyAll(c, s, simulation, tick, cash, order, fs).ledger.transitions;
            && (AwaitsHuman(rows, simulation) <==>
                  AwaitsHuman(s.ledger.transitions, simulation) && !SomeDrop(c, s, simulation, cash, order, fs))
            && (Held(rows, simulation, until) <==>
                  if EndsInWindow(c, s, simulation, cash, order, fs) then until <= tick + c.conservationTicks
                  else SomeDrop(c, s, simulation, cash, order, fs) || Held(s.ledger.transitions, simulation, until))
  {
    if order != [] {
      var n := |order| - 1;
      VerifyAllIff(c, s, simulation, tick, cash, order[..n], fs, until);
      LastTurn(c, s, simulation, tick, cash, order, fs);
      SomeDropSplit(c, s, simulation, cash, order, fs);
      EndsInWindowSplit(c, s, simulation, cash, order, fs);
      VerifyOneIff(c, VerifyAll(c, s, simulation, tick, cash, order[..n], fs), simulation, tick, cash, order[n], fs[n], until);
    }
  }

  // --- One event ------------------------------------------------------------------------------------

  /** Proposals end neither. */
  lemma {:induction false} ProposalsKeep(c: Constitution, simulation: Uuid, tick: nat, before: seq<TransitionRow>,
                                         after: seq<TransitionRow>, until: nat)
    requires WellFormed(before) && Grown(c, OnProposal(simulation, tick), before, after) && tick < until
    ensures AwaitsHuman(after, simulation) <==> AwaitsHuman(before, simulation)
    ensures Held(after, simulation, until) <==> Held(before, simulation, until)
    decreases |after|
  {
    if |before| == |after| {
      assert after == before;
    } else {
      var n := |after| - 1;
      GrownInit(c, OnProposal(simulation, tick), before, after);
      ProposalsKeep(c, simulation, tick, before, after[..n], until);
      NewestAppend(after[..n], after[n], Some(simulation));
    }
  }

  /** A snapshot of the simulation itself. */
  lemma SnapshotIff(c: Constitution, s: Server, e: Event, simulation: Uuid, until: nat)
    requires WellFormed(s.ledger.transitions) && CurrentTick(s) < until
    requires e.Snapshot? && Enabled(c, s, e) && s.connection == Some(simulation)
    ensures var rows := Step(c, s, e).ledger.transitions;
            && (AwaitsHuman(rows, simulation) <==>
                  AwaitsHuman(s.ledger.transitions, simulation) && !SomeDrop(c, s, simulation, e.observation.cash, e.order, e.rollbacks))
            && (Held(rows, simulation, until) <==>
                  if EndsInWindow(c, s, simulation, e.observation.cash, e.order, e.rollbacks)
                  then until <= CurrentTick(s) + c.conservationTicks
                  else SomeDrop(c, s, simulation, e.observation.cash, e.order, e.rollbacks) || Held(s.ledger.transitions, simulation, until))
  {
    var tick, o := CurrentTick(s), e.observation;
    var s1 := s.(history := Suffix(s.history + [o], MAX_HISTORY));
    var s2 := Drained(c, s, e);
    VerifyAllIff(c, s1, simulation, tick, o.cash, e.order, e.rollbacks, until);
    VerifyAllGrows(c, s1, simulation, tick, o.cash, e.order, e.rollbacks);
    GrowthKeepsWellFormed(c, OnMessage(simulation, tick), s.ledger.transitions, s2.ledger.transitions);
    ProposalsGrow(c, s2, simulation, tick, o.cash, ProposalsOn(c, s, o), e.proposals);
    ProposalsKeep(c, simulation, tick, s2.ledger.transitions, Step(c, s, e).ledger.transitions, until);
    SameGuards(c, s, s1, simulation, o.cash, e.order, e.rollbacks);
  }

  lemma SameGuards(c: Constitution, s: Server, s': Server, simulation: Uuid, cash: int, order: seq<nat>, fs: seq<RollbackFaults>)
    requires |order| <= |fs| && s'.ledger == s.ledger && s'.pendingVerifications == s.pendingVerifications
    ensures SomeDrop(c, s', simulation, cash, order, fs) <==> SomeDrop(c, s, simulation, cash, order, fs)
    ensures EndsInWindow(c, s', simulation, cash, order, fs) <==> EndsInWindow(c, s, simulation, cash, order, fs)
  {
    forall action, f
      ensures Drops(c, s', simulation, cash, action, f) <==> Drops(c, s, simulation, cash, action, f)
      ensures Opens(c, s', simulation, cash, action, f) <==> Opens(c, s, simulation, cash, action, f)
    {
      DropsFrame(c, s, s', simulation, cash, action, f);
    }
  }

  /** A result for the simulation itself. */
  lemma ResultIff(c: Constitution, s: Server, e: Event, simulation: Uuid, until: nat)
    requires Sound(c, s) && CurrentTick(s) < until
    requires e.Result? && Enabled(c, s, e) && s.connection == Some(simulation)
    ensures var rows := Step(c, s, e).ledger.transitions;
            if Fails(s, e, simulation) then
              && (AwaitsHuman(rows, simulation) <==>
                    AwaitsHuman(s.ledger.transitions, simulation) && !RecordsTransition(s.ledger, simulation, FailedSnapshot(s, e), e.rollback))
              && (Held(rows, simulation, until) <==>
                    if OpensWindow(s.ledger, simulation, FailedSnapshot(s, e), e.rollback) then until <= CurrentTick(s) + c.conservationTicks
                    else RecordsTransition(s.ledger, simulation, FailedSnapshot(s, e), e.rollback) || Held(s.ledger.transitions, simulation, until))
            else rows == s.ledger.transitions
  {
    if Fails(s, e, simulation) {
      var pending := s.pendingActions[e.correlation.value];
      var l := s.ledger.(results := s.ledger.results + [ResultRow(pending.action, e.cost, true)]);
      FailureLedger(c, s, e, simulation);
      TriggerAwaitsIff(c, l, simulation, pending.snapshot, pending.action, CurrentTick(s), e.rollback);
      TriggerHeldIff(c, l, simulation, pending.snapshot, pending.action, CurrentTick(s), e.rollback, until);
    } else {
      OtherResultsKeep(c, s, e, simulation);
    }
  }

  lemma FailureLedger(c: Constitution, s: Server, e: Event, simulation: Uuid)
    requires Sound(c, s) && Fails(s, e, simulation)
    ensures var pending := s.pendingActions[e.correlation.value];
            var l := s.ledger.(results := s.ledger.results + [ResultRow(pending.action, e.cost, true)]);
            Step(c, s, e).ledger == TriggerRollback(c, l, simulation, pending.snapshot, pending.action, CurrentTick(s), e.rollback)
  {
    AwaitedExists(c, s, e.correlation.value);
    FailureHandled(c, s, simulation, e.correlation.value, e.cost, e.rollback);
  }

  lemma AwaitedExists(c: Constitution, s: Server, message: nat)
    requires Sound(c, s) && message in s.pendingActions
    ensures s.pendingActions[message].action < |s.ledger.actions|
  {
    assert AwaitedSoundly(s.ledger, s.wire, message, s.pendingActions[message]);
    assert Linked(c, s.ledger, s.wire[message]);
  }

  lemma FailureHandled(c: Constitution, s: Server, simulation: Uuid, message: nat, cost: Option<int>, f: RollbackFaults)
    requires message in s.pendingActions && s.pendingActions[message].action < |s.ledger.actions|
    ensures var pending := s.pendingActions[message];
            var l := s.ledger.(results := s.ledger.results + [ResultRow(pending.action, cost, true)]);
            HandleResult(c, s, simulation, Some(message), cost, true, Committed, f).ledger ==
            TriggerRollback(c, l, simulation, pending.snapshot, pending.action, CurrentTick(s), f)
  {
  }

  lemma OtherResultsKeep(c: Constitution, s: Server, e: Event, simulation: Uuid)
    requires e.Result? && Enabled(c, s, e) && s.connection == Some(simulation) && !Fails(s, e, simulation)
    ensures Step(c, s, e).ledger.transitions == s.ledger.transitions
  {
  }

  lemma StartIff(c: Constitution, s: Server, e: Event, simulation: Uuid, until: nat)
    requires WellFormed(s.ledger.transitions) && e.Start?
    ensures var rows := Step(c, s, e).ledger.transitions;
            if Restarts(s, e) then !AwaitsHuman(rows, simulation) && !Held(rows, simulation, until)
            else rows == s.ledger.transitions
  {
    if !s.up {
      ReconcileIff(s.ledger, e.answered, e.read, e.write, simulation, until);
      StartLedger(c, s, e);
    }
  }

  lemma StartLedger(c: Constitution, s: Server, e: Event)
    requires e.Start? && !s.up
    ensures Step(c, s, e).ledger == Reconcile(s.ledger, e.answered, e.read, e.write).0
  {
  }

  lemma ReconcileIff(l: Ledger, answered: bool, read: ReadFaults, write: Write, simulation: Uuid, until: nat)
    requires WellFormed(l.transitions)
    ensures var rows := Reconcile(l, answered, read, write).0.transitions;
            if answered && read.answered && !write.Refused? then !AwaitsHuman(rows, simulation) && !Held(rows, simulation, until)
            else rows == l.transitions
  {
    NoGlobalConservation(l.transitions);
    NewestAppend(l.transitions, StartupRow(Derived(l.transitions, None, 0)), Some(simulation));
  }

  lemma ResolveIff(c: Constitution, s: Server, e: Event, simulation: Uuid, until: nat)
    requires WellFormed(s.ledger.transitions) && e.Resolve?
    ensures var rows := Step(c, s, e).ledger.transitions;
            if Resolves(s, e) then !AwaitsHuman(rows, simulation) && !Held(rows, simulation, until)
            else rows == s.ledger.transitions
  {
    ResponseLaws.ResolveActsIff(s.ledger, e.read, e.write);
    if Resolves(s, e) {
      NewestAppend(s.ledger.transitions, ResolvedByHand(Derived(s.ledger.transitions, None, 0)), Some(simulation));
    }
  }

  /** An event that is no start, no resolve and no message of the simulation's keeps both. */
  lemma OtherEventsKeep(c: Constitution, s: Server, e: Event, simulation: Uuid, until: nat)
    requires WellFormed(s.ledger.transitions) && Early(ContextOf(s, e), simulation, until)
    requires !e.Start? && !e.Resolve? && ((e.Snapshot? || e.Result?) ==> s.connection != Some(simulation))
    ensures var rows := Step(c, s, e).ledger.transitions;
            && (AwaitsHuman(s.ledger.transitions, simulation) ==> AwaitsHuman(rows, simulation))
            && (Held(s.ledger.transitions, simulation, until) ==> Held(rows, simulation, until))
  {
    var ctx, before, after := ContextOf(s, e), s.ledger.transitions, Step(c, s, e).ledger.transitions;
    StepGrows(c, s, e);
    OnlyMessagesShorten(c, ctx, before, after, simulation, until);
    if Held(before, simulation, until) {
      HoldSurvives(c, ctx, before, after, simulation, until);
    }
    if AwaitsHuman(before, simulation) {
      OtherStepsReleaseNothing(c, ctx, before, after, simulation);
    }
  }

  /** A start or a resolve ends both or changes nothing. */
  lemma GlobalEventIff(c: Constitution, s: Server, e: Event, simulation: Uuid, until: nat)
    requires WellFormed(s.ledger.transitions) && (e.Start? || e.Resolve?)
    ensures var rows := Step(c, s, e).ledger.transitions;
            if Restarts(s, e) || Resolves(s, e) then !AwaitsHuman(rows, simulation) && !Held(rows, simulation, until)
            else rows == s.ledger.transitions
  {
    if e.Start? {
      StartIff(c, s, e, simulation, until);
    } else {
      ResolveIff(c, s, e, simulation, until);
    }
  }

  predicate OwnMessage(c: Constitution, s: Server, e: Event, simulation: Uuid) {
    (e.Snapshot? || e.Result?) && Enabled(c, s, e) && s.connection == Some(simulation)
  }

  lemma OtherEventsEndNothing(c: Constitution, s: Server, e: Event, simulation: Uuid, until: nat)
    requires WellFormed(s.ledger.transitions) && Early(ContextOf(s, e), simulation, until)
    requires !e.Start? && !e.Resolve? && !OwnMessage(c, s, e, simulation)
    ensures !RollsBack(c, s, e, simulation) && !OpensShorter(c, s, e, simulation, until)
    ensures var rows := Step(c, s, e).ledger.transitions;
            && (AwaitsHuman(s.ledger.transitions, simulation) ==> AwaitsHuman(rows, simulation))
            && (Held(s.ledger.transitions, simulation, until) ==> Held(rows, simulation, until))
  {
    if Enabled(c, s, e) {
      OtherEventsKeep(c, s, e, simulation, until);
    }
  }

  lemma OwnMessageReleasesIff(c: Constitution, s: Server, e: Event, simulation: Uuid)
    requires Sound(c, s) && WellFormed(s.ledger.transitions) && OwnMessage(c, s, e, simulation)
    requires AwaitsHuman(s.ledger.transitions, simulation)
    ensures AwaitsHuman(Step(c, s, e).ledger.transitions, simulation) <==> !RollsBack(c, s, e, simulation)
  {
    if e.Snapshot? {
      SnapshotIff(c, s, e, simulation, CurrentTick(s) + 1);
    } else {
      ResultIff(c, s, e, simulation, CurrentTick(s) + 1);
    }
  }

  lemma OwnMessageEndsHoldIff(c: Constitution, s: Server, e: Event, simulation: Uuid, until: nat)
    requires Sound(c, s) && WellFormed(s.ledger.transitions) && OwnMessage(c, s, e, simulation)
    requires Held(s.ledger.transitions, simulation, until) && CurrentTick(s) < until
    ensures Held(Step(c, s, e).ledger.transitions, simulation, until) <==> !OpensShorter(c, s, e, simulation, until)
  {
    if e.Snapshot? {
      SnapshotIff(c, s, e, simulation, until);
    } else {
      ResultIff(c, s, e, simulation, until);
    }
  }

  /** One event ends Quarantine or Stopped if and only if it is a start that writes its row, a resolve that
      does, or a rollback of the simulation's own that reaches the ledger. */
  lemma EventReleasesIff(c: Constitution, s: Server, e: Event, simulation: Uuid)
    requires Sound(c, s) && WellFormed(s.ledger.transitions) && AwaitsHuman(s.ledger.transitions, simulation)
    ensures AwaitsHuman(Step(c, s, e).ledger.transitions, simulation) <==> !Releasing(c, s, e, simulation)
  {
    var until := ReadTick(ContextOf(s, e)) + 1;
    if e.Start? || e.Resolve? {
      GlobalEventIff(c, s, e, simulation, until);
    } else if OwnMessage(c, s, e, simulation) {
      OwnMessageReleasesIff(c, s, e, simulation);
    } else {
      OtherEventsEndNothing(c, s, e, simulation, until);
    }
  }

  /** One event that comes before a hold has run out ends it if and only if it is a start or a resolve that
      writes its row, or a rollback whose own window ends sooner. */
  lemma EventEndsHoldIff(c: Constitution, s: Server, e: Event, simulation: Uuid, until: nat)
    requires Sound(c, s) && WellFormed(s.ledger.transitions) && Held(s.ledger.transitions, simulation, until)
    requires Early(ContextOf(s, e), simulation, until)
    ensures Held(Step(c, s, e).ledger.transitions, simulation, until) <==> !Ending(c, s, e, simulation, until)
  {
    if e.Start? || e.Resolve? {
      GlobalEventIff(c, s, e, simulation, until);
    } else if OwnMessage(c, s, e, simulation) {
      OwnMessageEndsHoldIff(c, s, e, simulation, until);
    } else {
      OtherEventsEndNothing(c, s, e, simulation, until);
    }
  }

  /** Nothing is sent for the simulation by an event that leaves it held. */
  lemma {:induction false} HeldEventSendsNothing(c: Constitution, s: Server, e: Event, simulation: Uuid, until: nat)
    requires WellFormed(s.ledger.transitions) && Early(ContextOf(s, e), simulation, until)
    requires Held(Step(c, s, e).ledger.transitions, simulation, until)
    ensures var s' := Step(c, s, e);
            |s.wire| <= |s'.wire| && s'.wire[..|s.wire|] == s.wire && NoneSent(s'.wire, |s.wire|, simulation)
  {
    if e.Snapshot? && Enabled(c, s, e) {
      var sim, tick, o := s.connection.value, CurrentTick(s), e.observation;
      var s1 := s.(history := Suffix(s.history + [o], MAX_HISTORY));
      var s2 := Drained(c, s, e);
      VerifyAllSendsNothing(c, s1, sim, tick, o.cash, e.order, e.rollbacks);
      ProposalsSendForOne(c, s2, sim, tick, o.cash, ProposalsOn(c, s, o), e.proposals);
      if sim == simulation {
        VerifyAllGrows(c, s1, sim, tick, o.cash, e.order, e.rollbacks);
        GrowthKeepsWellFormed(c, OnMessage(sim, tick), s.ledger.transitions, s2.ledger.transitions);
        ProposalsGrow(c, s2, sim, tick, o.cash, ProposalsOn(c, s, o), e.proposals);
        ProposalsKeep(c, simulation, tick, s2.ledger.transitions, Step(c, s, e).ledger.transitions, until);
        HoldBlocksProposals(c, s2, sim, tick, o.cash, ProposalsOn(c, s, o), e.proposals);
      }
    }
  }

  // --- Every run: holds ---------------------------------------------------------------------------------

  /** Every event of the run comes before the hold has run out. */
  ghost predicate EarlyRun(c: Constitution, s: Server, es: seq<Event>, simulation: Uuid, until: nat) {
    es == [] ||
    var n := |es| - 1;
    EarlyRun(c, s, es[..n], simulation, until) && Early(ContextOf(Run(c, s, es[..n]), es[n]), simulation, until)
  }

  /** Some event of the run ends the hold. */
  ghost predicate EndedInRun(c: Constitution, s: Server, es: seq<Event>, simulation: Uuid, until: nat) {
    es != [] &&
    var n := |es| - 1;
    EndedInRun(c, s, es[..n], simulation, until) || Ending(c, Run(c, s, es[..n]), es[n], simulation, until)
  }

  ghost predicate HeldThroughout(c: Constitution, s: Server, es: seq<Event>, simulation: Uuid, until: nat) {
    Held(Run(c, s, es).ledger.transitions, simulation, until)
    && (es != [] ==> HeldThroughout(c, s, es[..|es| - 1], simulation, until))
  }

  /** After a Conservation row with bound `until` (or a Rollback, Quarantine or Stopped row) is the newest a
      simulation sees, and as long as its own messages are read at ticks below `until`, it stays held
      through a run if and only if no event of the run is a start or a resolve that writes its row, or a
      rollback whose own window ends before `until`; and while it is held no command goes out for it. */
  lemma {:induction false} ConservationHoldsOverRuns(c: Constitution, start: seq<Event>, es: seq<Event>, simulation: Uuid, until: nat)
    requires var s := Run(c, BOOT, start);
             Held(s.ledger.transitions, simulation, until) && EarlyRun(c, s, es, simulation, until)
    ensures var s := Run(c, BOOT, start);
            var s' := Run(c, s, es);
            && (HeldThroughout(c, s, es, simulation, until) <==> !EndedInRun(c, s, es, simulation, until))
            && (HeldThroughout(c, s, es, simulation, until) ==>
                  && |s.wire| <= |s'.wire| && NoneSent(s'.wire, |s.wire|, simulation)
                  && forall tick: nat :: tick < until ==> !Derived(s'.ledger.transitions, Some(simulation), tick).Normal?)
  {
    var s := Run(c, BOOT, start);
    var s' := Run(c, s, es);
    if es != [] {
      var n := |es| - 1;
      var mid := Run(c, s, es[..n]);
      ConservationHoldsOverRuns(c, start, es[..n], simulation, until);
      if HeldThroughout(c, s, es[..n], simulation, until) {
        RunConcat(c, BOOT, start, es[..n]);
        RunIsSound(c, start + es[..n]);
        RunKeepsWellFormed(c, BOOT, start + es[..n]);
        EventEndsHoldIff(c, mid, es[n], simulation, until);
        if Held(s'.ledger.transitions, simulation, until) {
          HeldEventSendsNothing(c, mid, es[n], simulation, until);
          NoneSentExtends(mid.wire, s'.wire, |s.wire|, simulation);
        }
      }
    }
    forall tick: nat | tick < until && Held(s'.ledger.transitions, simulation, until)
      ensures !Derived(s'.ledger.transitions, Some(simulation), tick).Normal?
    {
      HeldIsNotNormal(s'.ledger.transitions, simulation, until, tick);
    }
  }

  // --- Every run: Quarantine and Stopped ------------------------------------------------------------------

  ghost predicate ReleasedInRun(c: Constitution, s: Server, es: seq<Event>, simulation: Uuid) {
    es != [] &&
    var n := |es| - 1;
    ReleasedInRun(c, s, es[..n], simulation) || Releasing(c, Run(c, s, es[..n]), es[n], simulation)
  }

  ghost predicate AwaitsThroughout(c: Constitution, s: Server, es: seq<Event>, simulation: Uuid) {
    AwaitsHuman(Run(c, s, es).ledger.transitions, simulation)
    && (es != [] ==> AwaitsThroughout(c, s, es[..|es| - 1], simulation))
  }

  /** The action, with this snapshot and baseline, was the simulation's and in flight in `s`. */
  ghost predicate WasInFlight(s: Server, action: nat, snapshot: nat, cash: int, simulation: Uuid) {
    && s.connection == Some(simulation)
    && (|| (exists m :: m in s.pendingActions && s.pendingActions[m] == PendingAction(action, snapshot, cash))
        || (action in s.pendingVerifications && s.pendingVerifications[action] == PendingVerification(snapshot, cash)))
  }

  /** All that the simulation still has in flight in `s'` it had in flight in `s`. */
  ghost predicate OnlyShrunk(s: Server, s': Server, simulation: Uuid) {
    s'.connection == Some(simulation) ==>
      && (forall m :: m in s'.pendingActions ==>
                        s.connection == Some(simulation) && m in s.pendingActions && s.pendingActions[m] == s'.pendingActions[m])
      && (forall a :: a in s'.pendingVerifications ==>
                        WasInFlight(s, a, s'.pendingVerifications[a].snapshot, s'.pendingVerifications[a].cashBefore, simulation))
  }

  lemma OnlyShrunkTransitive(s: Server, mid: Server, s': Server, simulation: Uuid)
    requires OnlyShrunk(s, mid, simulation) && OnlyShrunk(mid, s', simulation)
    ensures OnlyShrunk(s, s', simulation)
  {
    if s'.connection == Some(simulation) {
      forall a | a in s'.pendingVerifications
        ensures WasInFlight(s, a, s'.pendingVerifications[a].snapshot, s'.pendingVerifications[a].cashBefore, simulation)
      {
        var v := s'.pendingVerifications[a];
        assert WasInFlight(mid, a, v.snapshot, v.cashBefore, simulation);
        if m :| m in mid.pendingActions && mid.pendingActions[m] == PendingAction(a, v.snapshot, v.cashBefore) {
          assert m in s.pendingActions && s.pendingActions[m] == PendingAction(a, v.snapshot, v.cashBefore);
        }
      }
    }
  }

  lemma SameInFlight(s: Server, s': Server, simulation: Uuid)
    requires s'.connection == s.connection && s'.pendingActions == s.pendingActions
    requires s'.pendingVerifications == s.pendingVerifications
    ensures OnlyShrunk(s, s', simulation)
  {
  }

  /** While the simulation is sent nothing, an event only takes from what it has in flight. */
  lemma EventShrinks(c: Constitution, s: Server, e: Event, simulation: Uuid)
    requires Sound(c, s) && |s.wire| <= |Step(c, s, e).wire| && NoneSent(Step(c, s, e).wire, |s.wire|, simulation)
    ensures OnlyShrunk(s, Step(c, s, e), simulation)
  {
    if !Enabled(c, s, e) {
      SameInFlight(s, s, simulation);
    } else if e.Snapshot? {
      SnapshotShrinks(c, s, e, simulation);
    } else if e.Result? {
      ResultEventShrinks(c, s, e, simulation);
    } else if e.Heartbeat? || e.WatchdogPoll? || e.Resolve? || e.Hello? {
      LightStepFrame(c, s, e);
      SameInFlight(s, Step(c, s, e), simulation);
    } else {
      PlainEventShrinks(c, s, e, simulation);
    }
  }

  lemma ResultEventShrinks(c: Constitution, s: Server, e: Event, simulation: Uuid)
    requires e.Result? && Enabled(c, s, e)
    ensures OnlyShrunk(s, Step(c, s, e), simulation)
  {
    if s.connection == Some(simulation) {
      if e.correlation.Some? && e.correlation.value in s.pendingActions {
        ResultShrinks(s, Step(c, s, e), e.correlation.value, simulation);
      } else {
        SameInFlight(s, s, simulation);
      }
    }
  }

  /** These events leave both maps as they are, or empty them. */
  lemma PlainEventShrinks(c: Constitution, s: Server, e: Event, simulation: Uuid)
    requires PendingSound(s) && Enabled(c, s, e)
    requires e.Connect? || e.Disconnect? || e.OtherMessage? || e.Crash? || e.Start? || e.RollbackByHand? || e.TimePasses?
    ensures OnlyShrunk(s, Step(c, s, e), simulation)
  {
    SameInFlight(s, s, simulation);
  }

  lemma SnapshotKeepsConnection(c: Constitution, s: Server, e: Event)
    requires e.Snapshot? && Enabled(c, s, e)
    ensures Step(c, s, e).connection == s.connection
    ensures |Step(c, s, e).wire| == |s.wire| ==> Step(c, s, e).pendingActions == s.pendingActions
  {
    var tick, o, simulation := CurrentTick(s), e.observation, s.connection.value;
    var s1 := s.(history := Suffix(s.history + [o], MAX_HISTORY));
    VerifyAllFrame(c, s1, simulation, tick, o.cash, e.order, e.rollbacks);
    ProposalsFrame(c, Drained(c, s, e), simulation, tick, o.cash, ProposalsOn(c, s, o), e.proposals);
  }

  lemma SnapshotShrinks(c: Constitution, s: Server, e: Event, simulation: Uuid)
    requires e.Snapshot? && Enabled(c, s, e)
    requires |s.wire| <= |Step(c, s, e).wire| && NoneSent(Step(c, s, e).wire, |s.wire|, simulation)
    ensures OnlyShrunk(s, Step(c, s, e), simulation)
  {
    SnapshotKeepsConnection(c, s, e);
    if s.connection == Some(simulation) {
      OwnSnapshotShrinks(c, s, e, simulation);
    }
  }

  lemma NewEntries(wire: seq<Command>, from: nat, simulation: Uuid)
    requires from <= |wire| && forall m :: from <= m < |wire| ==> wire[m].simulation == simulation
    ensures NoneSent(wire, from, simulation) <==> |wire| == from
  {
    if from < |wire| {
      assert wire[from].simulation == simulation;
    }
  }

  lemma OwnSnapshotShrinks(c: Constitution, s: Server, e: Event, simulation: Uuid)
    requires e.Snapshot? && Enabled(c, s, e) && s.connection == Some(simulation)
    requires |s.wire| <= |Step(c, s, e).wire| && NoneSent(Step(c, s, e).wire, |s.wire|, simulation)
    ensures OnlyShrunk(s, Step(c, s, e), simulation)
  {
    var tick, o := CurrentTick(s), e.observation;
    var s1 := s.(history := Suffix(s.history + [o], MAX_HISTORY));
    SnapshotShape(c, s, e);
    SnapshotKeepsConnection(c, s, e);
    VerifyAllSendsNothing(c, s1, simulation, tick, o.cash, e.order, e.rollbacks);
    ProposalsSendForOne(c, Drained(c, s, e), simulation, tick, o.cash, ProposalsOn(c, s, o), e.proposals);
    NewEntries(Step(c, s, e).wire, |s.wire|, simulation);
    SameInFlight(s, Step(c, s, e).(pendingVerifications := s.pendingVerifications), simulation);
  }

  lemma ResultShrinks(s: Server, s': Server, message: nat, simulation: Uuid)
    requires message in s.pendingActions && s.connection == Some(simulation)
    requires s'.pendingActions == s.pendingActions - {message}
    requires var pending := s.pendingActions[message];
             || s'.pendingVerifications == s.pendingVerifications
             || s'.pendingVerifications == s.pendingVerifications[pending.action := PendingVerification(pending.snapshot, pending.cashBefore)]
    ensures OnlyShrunk(s, s', simulation)
  {
    forall a | a in s'.pendingVerifications
      ensures WasInFlight(s, a, s'.pendingVerifications[a].snapshot, s'.pendingVerifications[a].cashBefore, simulation)
    {
      var pending := s.pendingActions[message];
      if a == pending.action {
        assert pending == PendingAction(a, pending.snapshot, pending.cashBefore);
      }
    }
  }

  /** From Quarantine or Stopped on, a simulation stays there through a run if and only if no event of the
      run releases it; while it does, no command goes out for it and what it has in flight only shrinks. */
  lemma {:induction false} QuarantineHoldsOverRuns(c: Constitution, start: seq<Event>, es: seq<Event>, simulation: Uuid)
    requires AwaitsHuman(Run(c, BOOT, start).ledger.transitions, simulation)
    ensures var s := Run(c, BOOT, start);
            var s' := Run(c, s, es);
            && (AwaitsThroughout(c, s, es, simulation) <==> !ReleasedInRun(c, s, es, simulation))
            && (AwaitsThroughout(c, s, es, simulation) ==>
                  && |s.wire| <= |s'.wire| && NoneSent(s'.wire, |s.wire|, simulation) && OnlyShrunk(s, s', simulation)
                  && forall tick :: Derived(s'.ledger.transitions, Some(simulation), tick).RequiresManualResolution())
  {
    var s := Run(c, BOOT, start);
    if es == [] {
      SameInFlight(s, s, simulation);
    } else {
      var n := |es| - 1;
      QuarantineHoldsOverRuns(c, start, es[..n], simulation);
      if AwaitsThroughout(c, s, es[..n], simulation) {
        RunConcat(c, BOOT, start, es[..n]);
        RunIsSound(c, start + es[..n]);
        RunKeepsWellFormed(c, BOOT, start + es[..n]);
        QuarantineStep(c, s, Run(c, s, es[..n]), es[n], simulation);
      }
    }
  }

  lemma QuarantineStep(c: Constitution, s: Server, mid: Server, e: Event, simulation: Uuid)
    requires Sound(c, mid) && WellFormed(mid.ledger.transitions) && AwaitsHuman(mid.ledger.transitions, simulation)
    requires |s.wire| <= |mid.wire| && NoneSent(mid.wire, |s.wire|, simulation) && OnlyShrunk(s, mid, simulation)
    ensures var s' := Step(c, mid, e);
            && (AwaitsHuman(s'.ledger.transitions, simulation) <==> !Releasing(c, mid, e, simulation))
            && (AwaitsHuman(s'.ledger.transitions, simulation) ==>
                  |s.wire| <= |s'.wire| && NoneSent(s'.wire, |s.wire|, simulation) && OnlyShrunk(s, s', simulation))
  {
    var s' := Step(c, mid, e);
    EventReleasesIff(c, mid, e, simulation);
    if AwaitsHuman(s'.ledger.transitions, simulation) {
      var until := ReadTick(ContextOf(mid, e)) + 1;
      AwaitingIsHeld(s'.ledger.transitions, simulation, until);
      HeldEventSendsNothing(c, mid, e, simulation, until);
      NoneSentExtends(mid.wire, s'.wire, |s.wire|, simulation);
      EventShrinks(c, mid, e, simulation);
      OnlyShrunkTransitive(s, mid, s', simulation);
    }
  }

  /** The event rolls back an action that was the simulation's and in flight in `s`. */
  ghost predicate RollsBackInFlight(c: Constitution, s: Server, mid: Server, e: Event, simulation: Uuid) {
    || (Fails(mid, e, simulation)
        && var pending := mid.pendingActions[e.correlation.value];
        WasInFlight(s, pending.action, pending.snapshot, pending.cashBefore, simulation))
    || (e.Snapshot? && Enabled(c, mid, e)
        && exists i :: 0 <= i < |e.order| && Drops(c, mid, simulation, e.observation.cash, e.order[i], e.rollbacks[i])
                       && WasInFlight(s, e.order[i], mid.pendingVerifications[e.order[i]].snapshot,
                                      mid.pendingVerifications[e.order[i]].cashBefore, simulation))
  }

  lemma ReleasedByWhatWasInFlight(c: Constitution, s: Server, mid: Server, e: Event, simulation: Uuid)
    requires OnlyShrunk(s, mid, simulation) && RollsBack(c, mid, e, simulation)
    ensures RollsBackInFlight(c, s, mid, e, simulation)
  {
    if Fails(mid, e, simulation) {
      var m := e.correlation.value;
      assert s.pendingActions[m] == mid.pendingActions[m];
      var pending := mid.pendingActions[m];
      assert s.pendingActions[m] == PendingAction(pending.action, pending.snapshot, pending.cashBefore);
    } else {
      var i :| 0 <= i < |e.order| && Drops(c, mid, simulation, e.observation.cash, e.order[i], e.rollbacks[i]);
      assert e.order[i] in mid.pendingVerifications;
    }
  }

  /** Over every run in which a simulation leaves Quarantine or Stopped, there is an event, `es[i]`, up to
      which it was sent nothing, and which is a restart, a manual resolve, or the automatic rollback of an
      action that was already in flight when the simulation was in that state. */
  lemma {:induction false} OnlyHumanRestartOrRollbackReleases(c: Constitution, start: seq<Event>, es: seq<Event>, simulation: Uuid)
    returns (i: nat)
    requires AwaitsHuman(Run(c, BOOT, start).ledger.transitions, simulation)
    requires !AwaitsThroughout(c, Run(c, BOOT, start), es, simulation)
    ensures i < |es|
    ensures var s := Run(c, BOOT, start);
            var mid := Run(c, s, es[..i]);
            && AwaitsThroughout(c, s, es[..i], simulation) && NoneSent(mid.wire, |s.wire|, simulation)
            && !AwaitsHuman(Step(c, mid, es[i]).ledger.transitions, simulation)
            && (Restarts(mid, es[i]) || Resolves(mid, es[i]) || RollsBackInFlight(c, s, mid, es[i], simulation))
  {
    var n := |es| - 1;
    var s := Run(c, BOOT, start);
    if AwaitsThroughout(c, s, es[..n], simulation) {
      i := n;
      var mid := Run(c, s, es[..n]);
      QuarantineHoldsOverRuns(c, start, es[..n], simulation);
      RunConcat(c, BOOT, start, es[..n]);
      RunIsSound(c, start + es[..n]);
      RunKeepsWellFormed(c, BOOT, start + es[..n]);
      EventReleasesIff(c, mid, es[n], simulation);
      if RollsBack(c, mid, es[n], simulation) {
        ReleasedByWhatWasInFlight(c, s, mid, es[n], simulation);
      }
    } else {
      i := OnlyHumanRestartOrRollbackReleases(c, start, es[..n], simulation);
      assert es[..n][..i] == es[..i];
    }
  }
}
