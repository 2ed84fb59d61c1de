/** What a process knows and records of itself: the tick it works with, when it comes up, what a hello
    leaves, and who signs which transition. */
module ProcessLaws {
  import opened Common
  import opened SafetyStates
  import opened Governors
  import opened WorldModels
  import opened Ledgers
  import opened SafetyReading
  import opened Servers
  import opened Runs
  import opened Transitions
  import opened SafetyLaws
  import opened LedgerLaws
  import opened OutcomeLaws

  // --- The tick ------------------------------------------------------------------------------

  /** The tick of the last heartbeat this process handled. */
  function LastReported(c: Constitution, es: seq<Event>): Option<nat> {
    if es == [] then None
    else
      var n := |es| - 1;
      var s, e := Run(c, BOOT, es[..n]), es[n];
      if !Enabled(c, s, e) then LastReported(c, es[..n])
      else if e.Heartbeat? then Some(e.tick)
      else if e.Start? && Step(c, s, e).up then None
      else LastReported(c, es[..n])
  }

  lemma {:induction false} TickIsLastReported(c: Constitution, es: seq<Event>)
    ensures Run(c, BOOT, es).tick == LastReported(c, es)
  {
    if es != [] {
      var n := |es| - 1;
      TickIsLastReported(c, es[..n]);
      OnlyHeartbeatsAndStartsSetTick(c, Run(c, BOOT, es[..n]), es[n]);
    }
  }

  lemma OnlyHeartbeatsAndStartsSetTick(c: Constitution, s: Server, e: Event)
    ensures var s' := Step(c, s, e);
            s'.tick == if !Enabled(c, s, e) then s.tick
                       else if e.Heartbeat? then Some(e.tick)
                       else if e.Start? && s'.up then None
                       else s.tick
  {
    if Enabled(c, s, e) {
      if e.Snapshot? {
        SnapshotKeepsTick(c, s, e);
      } else if e.Result? {
        ResultKeepsTick(c, s, s.connection.value, e.correlation, e.cost, e.failed, e.insert, e.rollback);
      }
    }
  }

  lemma SnapshotKeepsTick(c: Constitution, s: Server, e: Event)
    requires e.Snapshot? && Enabled(c, s, e)
    ensures Step(c, s, e).tick == s.tick
  {
    var s1 := s.(history := Suffix(s.history + [e.observation], MAX_HISTORY));
    VerifyAllFrame(c, s1, s.connection.value, CurrentTick(s), e.observation.cash, e.order, e.rollbacks);
    ProposalsFrame(c, Drained(c, s, e), s.connection.value, CurrentTick(s), e.observation.cash, ProposalsOn(c, s, e.observation), e.proposals);
  }

  lemma ResultKeepsTick(c: Constitution, s: Server, simulation: Uuid, correlation: Option<nat>, cost: Option<int>,
                        failed: bool, insert: Write, f: RollbackFaults)
    ensures HandleResult(c, s, simulation, correlation, cost, failed, insert, f).tick == s.tick
  {
  }

  lemma {:induction false} ProposalsCarryTick(c: Constitution, s: Server, simulation: Uuid, tick: nat, cash: int,
                                              ps: seq<Proposal>, fs: seq<ProposalFaults>, m: nat)
    requires |ps| <= |fs| && |s.wire| <= m < |HandleProposals(c, s, simulation, tick, cash, ps, fs).wire|
    ensures HandleProposals(c, s, simulation, tick, cash, ps, fs).wire[m].tick == tick
  {
    var n := |ps| - 1;
    var mid := HandleProposals(c, s, simulation, tick, cash, ps[..n], fs);
    ProposalSendsOnlyWhenNormal(c, mid, simulation, tick, cash, ps[n], fs[n]);
    if m < |mid.wire| {
      ProposalsCarryTick(c, s, simulation, tick, cash, ps[..n], fs, m);
    }
  }

  /** Over every run: each command carries the tick of the last heartbeat its process handled, or 0 before
      the first. */
  lemma {:induction false} CommandsCarryLastTick(c: Constitution, es: seq<Event>, e: Event, m: nat)
    requires e.Snapshot? && Enabled(c, Run(c, BOOT, es), e)
    requires |Run(c, BOOT, es).wire| <= m < |Step(c, Run(c, BOOT, es), e).wire|
    ensures Step(c, Run(c, BOOT, es), e).wire[m].tick ==
            if LastReported(c, es).Some? then LastReported(c, es).value else 0
  {
    var s := Run(c, BOOT, es);
    TickIsLastReported(c, es);
    VerifyAllSendsNothing(c, s.(history := Suffix(s.history + [e.observation], MAX_HISTORY)), s.connection.value, CurrentTick(s),
                          e.observation.cash, e.order, e.rollbacks);
    ProposalsCarryTick(c, Drained(c, s, e), s.connection.value, CurrentTick(s), e.observation.cash, ProposalsOn(c, s, e.observation),
                       e.proposals, m);
  }

  // --- Coming up --------------------------------------------------------------------------------

  /** In every reachable state, a process comes up if and only if the database answers both questions and
      acknowledges its row, and the rest of its startup succeeds; it then has no connection and no memory. */
  lemma {:induction false} StartComesUpIff(c: Constitution, es: seq<Event>, e: Event)
    requires e.Start? && !Run(c, BOOT, es).up
    ensures var s := Run(c, BOOT, es);
            var s' := Step(c, s, e);
            && (s'.up <==> e.answered && e.read.answered && e.write.Committed? && e.configured)
            && (s'.up ==> s'.connection.None? && s'.history == [] && s'.tick.None? && s'.cleanHeartbeats == 0
                          && s'.governor == GovernorState([], map[]))
  {
    RunKeepsWellFormed(c, BOOT, es);
    ReconciledIff(Run(c, BOOT, es).ledger, e.answered, e.read, e.write);
  }

  lemma ReconciledIff(l: Ledger, answered: bool, read: ReadFaults, write: Write)
    requires WellFormed(l.transitions)
    ensures Reconcile(l, answered, read, write).1 <==> answered && read.answered && write.Committed?
  {
    NoGlobalConservation(l.transitions);
  }

  /** After a hello its simulation is registered, once, unless the database refuses; no other is touched. */
  lemma HelloRegistersIff(c: Constitution, s: Server, write: Write)
    requires s.up && s.connection.Some?
    ensures var before, after := s.ledger.simulations, Step(c, s, Hello(write)).ledger.simulations;
            && (s.connection.value in after <==> s.connection.value in before || !write.Refused?)
            && (after == before || (s.connection.value !in before && after == before + [s.connection.value]))
  {
  }

  // --- Signatures ----------------------------------------------------------------------------------

  /** Who signs a row: the watchdog raises, a person resolves globally, the orchestrator does the rest; and
      only a window has a bound. */
  predicate ProperlySigned(row: TransitionRow) {
    && row.writer == (if row.to.Quarantine? || row.to.Stopped? then Watchdog
                      else if row.scope.None? && row.to.Normal? then Human
                      else Orchestrator)
    && (row.expiresAtTick.Some? <==> row.to.Conservation?)
  }

  /** In every reachable ledger every transition is so signed. */
  lemma {:induction false} TransitionsAreSigned(c: Constitution, es: seq<Event>, k: nat)
    requires k < |Run(c, BOOT, es).ledger.transitions|
    ensures ProperlySigned(Run(c, BOOT, es).ledger.transitions[k])
  {
    var n := |es| - 1;
    var s := Run(c, BOOT, es[..n]);
    StepGrows(c, s, es[n]);
    RunKeepsWellFormed(c, BOOT, es[..n]);
    GrowthIsSigned(c, ContextOf(s, es[n]), s.ledger.transitions, Run(c, BOOT, es).ledger.transitions);
    if k < |s.ledger.transitions| {
      TransitionsAreSigned(c, es[..n], k);
      assert Run(c, BOOT, es).ledger.transitions[..|s.ledger.transitions|][k] == s.ledger.transitions[k];
    }
  }

  lemma {:induction false} GrowthIsSigned(c: Constitution, ctx: Context, before: seq<TransitionRow>, after: seq<TransitionRow>)
    requires WellFormed(before) && Grown(c, ctx, before, after)
    ensures forall k :: |before| <= k < |after| ==> ProperlySigned(after[k])
    decreases |after|
  {
    if |before| < |after| {
      var n := |after| - 1;
      GrownInit(c, ctx, before, after);
      GrowthIsSigned(c, ctx, before, after[..n]);
      GrowthKeepsWellFormed(c, ctx, before, after[..n]);
      RowKeepsWellFormed(c, ctx, after[..n], after[n]);
      forall k | |before| <= k < |after| ensures ProperlySigned(after[k]) {
        assert k < n ==> after[k] == after[..n][k];
      }
    }
  }
}
