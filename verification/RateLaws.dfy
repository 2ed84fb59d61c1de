/** What the governor's limits mean for the ledger, and why, with the shipped policy, the watchdog's
    two circuit breakers stay quiet within one process lifetime. */
module RateLaws {
  import opened Common
  import opened SafetyStates
  import opened Governors
  import opened GovernorLaws
  import opened WorldModels
  import opened Oscillation
  import opened Ledgers
  import opened Servers
  import opened Watchdogs
  import opened Runs
  import opened Transitions
  import opened SafetyLaws
  import opened LedgerLaws
  import opened RecoveryLaws

  function Created(rows: seq<ActionRow>): (ts: seq<nat>)
    ensures |ts| == |rows|
  {
    seq(|rows|, i requires 0 <= i < |rows| => rows[i].createdAt)
  }

  /** In every window there are at most as many of `xs` as of `ys`. */
  ghost predicate Dominated(xs: seq<nat>, ys: seq<nat>) {
    forall from: nat, length: nat :: CountWindow(xs, from, length) <= CountWindow(ys, from, length)
  }

  /** Any two actions on one ride are a cooldown apart, in the order they were recorded in. */
  ghost predicate RowsSpaced(c: Constitution, rows: seq<ActionRow>) {
    forall i, j :: 0 <= i < j < |rows| && rows[i].rideId == rows[j].rideId ==>
                     rows[i].tick + c.perRideCooldownTicks <= rows[j].tick
  }

  /** No action lies beyond the latest grant for its ride. */
  ghost predicate RowsGranted(rows: seq<ActionRow>, log: seq<Grant>) {
    forall i :: 0 <= i < |rows| ==>
                  LastGrant(log, rows[i].rideId).Some? && rows[i].tick <= LastGrant(log, rows[i].rideId).value
  }

  /** How the action rows one process wrote relate to the grants its governor made. */
  ghost predicate RowsFollow(c: Constitution, rows: seq<ActionRow>, log: seq<Grant>) {
    && Dominated(Created(rows), Times(log))
    && (c.perRideCooldownTicks > 0 ==> RowsSpaced(c, rows) && RowsGranted(rows, log))
  }

  /** The actions this process recorded. */
  function Own(s: Server): seq<ActionRow>
    requires s.birth.actions <= |s.ledger.actions|
  {
    s.ledger.actions[s.birth.actions..]
  }

  ghost predicate Accounted(c: Constitution, s: Server) {
    && Represents(s.governor, s.granted, s.clock)
    && WithinBudgets(c, s.granted)
    && s.birth.actions <= |s.ledger.actions|
    && RowsFollow(c, Own(s), s.granted)
    && (forall i :: 0 <= i < |s.ledger.actions| ==> s.ledger.actions[i].createdAt <= s.clock)
  }

  // --- One proposal -------------------------------------------------------------------

  lemma CreatedAppend(rows: seq<ActionRow>, row: ActionRow)
    ensures Created(rows + [row]) == Created(rows) + [row.createdAt]
  {
  }

  /** The reference verdict grants only a cooldown after the ride's latest grant. */
  ghost predicate GrantedInTurn(c: Constitution, log: seq<Grant>, g: Grant) {
    var last := LastGrant(log, g.rideId);
    last.Some? ==> SaturatingSub(g.tick, last.value) >= c.perRideCooldownTicks
  }

  /** A grant that produces no action row. */
  lemma UnusedGrant(c: Constitution, rows: seq<ActionRow>, log: seq<Grant>, g: Grant)
    requires RowsFollow(c, rows, log) && GrantedInTurn(c, log, g)
    ensures RowsFollow(c, rows, log + [g])
  {
    TimesAppend(log, g);
    forall from: nat, length: nat
      ensures CountWindow(Created(rows), from, length) <= CountWindow(Times(log + [g]), from, length)
    {
      CountAppend(Times(log), g.at, from, length);
    }
    forall i | 0 <= i < |rows| ensures LastGrant(log + [g], rows[i].rideId) ==
                                       if g.rideId == rows[i].rideId then Some(g.tick) else LastGrant(log, rows[i].rideId)
    {
      LastGrantAppend(log, g, rows[i].rideId);
    }
  }

  /** A grant and the action row it leads to. */
  lemma UsedGrant(c: Constitution, rows: seq<ActionRow>, log: seq<Grant>, g: Grant, row: ActionRow)
    requires RowsFollow(c, rows, log) && GrantedInTurn(c, log, g)
    requires row.rideId == g.rideId && row.tick == g.tick && row.createdAt == g.at
    ensures RowsFollow(c, rows + [row], log + [g])
  {
    UnusedGrant(c, rows, log, g);
    TimesAppend(log, g);
    CreatedAppend(rows, row);
    forall from: nat, length: nat
      ensures CountWindow(Created(rows + [row]), from, length) <= CountWindow(Times(log + [g]), from, length)
    {
      CountAppend(Times(log), g.at, from, length);
      CountAppend(Created(rows), row.createdAt, from, length);
    }
    LastGrantAppend(log, g, row.rideId);
  }

  ghost predicate Unruled(s: Server, s': Server) {
    s'.granted == s.granted && s'.governor == s.governor && s'.clock == s.clock && s'.ledger.actions == s.ledger.actions
  }

  /** The governor spoke at `now`, and an action may have followed if it granted. */
  ghost predicate RuledOn(c: Constitution, s: Server, s': Server, p: Proposal, tick: nat, now: nat) {
    var (g, verdict) := Ruling(c, s.governor, p, tick, now);
    && s'.governor == g && s'.clock == now && s'.granted == Extend(s.granted, verdict, p, tick, now)
    && (|| s'.ledger.actions == s.ledger.actions
        || (verdict.Authorized? && exists row: ActionRow ::
              && row.rideId == p.rideId && row.tick == tick && row.createdAt == now
              && s'.ledger.actions == s.ledger.actions + [row]))
  }

  /** The proposal gets past the safety state and the snapshot, and so reaches the governor. */
  predicate Reaches(c: Constitution, s: Server, simulation: Uuid, tick: nat, p: Proposal, f: ProposalFaults) {
    Screen(c, s.ledger, simulation, tick, p, f).1.Some?
  }

  /** A proposal that reaches the governor is ruled on; any other leaves governor, grants and clock alone. */
  lemma ReachesOrNot(c: Constitution, s: Server, simulation: Uuid, tick: nat, cash: int, p: Proposal, f: ProposalFaults)
    ensures var s' := HandleProposal(c, s, simulation, tick, cash, p, f);
            if Reaches(c, s, simulation, tick, p, f) then RuledOn(c, s, s', p, tick, s.clock + f.wait) else Unruled(s, s')
  {
    ScreenIsSound(c, s.ledger, simulation, tick, p, f);
    if Reaches(c, s, simulation, tick, p, f) {
      var (l, screened) := Screen(c, s.ledger, simulation, tick, p, f);
      RuledOnIfJudged(c, s, s.(ledger := l), simulation, tick, cash, p, screened.value.0, screened.value.1, f);
    }
  }

  lemma RuledOnIfJudged(c: Constitution, s: Server, s1: Server, simulation: Uuid, tick: nat, cash: int, p: Proposal,
                        proposal: nat, snapshot: nat, f: ProposalFaults)
    requires s1 == s.(ledger := s1.ledger) && s1.ledger.actions == s.ledger.actions
    ensures var (s2, authorization) := Judge(c, s1, tick, p, proposal, f);
            var s' := if authorization.Some? then Execute(s2, simulation, tick, cash, p, authorization.value, snapshot, f) else s2;
            RuledOn(c, s, s', p, tick, s.clock + f.wait)
  {
    var (s2, authorization) := Judge(c, s1, tick, p, proposal, f);
    if authorization.Some? {
      var row := ActionFor(simulation, tick, p, authorization.value, s2.clock);
      assert row.rideId == p.rideId;
    }
  }

  ghost predicate Shaped(c: Constitution, s: Server, s': Server, p: Proposal, tick: nat, now: nat) {
    s'.birth == s.birth && (Unruled(s, s') || RuledOn(c, s, s', p, tick, now))
  }

  /** What handling a proposal does to grants and actions. */
  lemma ProposalShape(c: Constitution, s: Server, simulation: Uuid, tick: nat, cash: int, p: Proposal, f: ProposalFaults)
    ensures Shaped(c, s, HandleProposal(c, s, simulation, tick, cash, p, f), p, tick, s.clock + f.wait)
  {
    ReachesOrNot(c, s, simulation, tick, cash, p, f);
    ProposalFrame(c, s, simulation, tick, cash, p, f);
  }

  lemma ProposalIsAccounted(c: Constitution, s: Server, simulation: Uuid, tick: nat, cash: int, p: Proposal, f: ProposalFaults)
    requires Accounted(c, s)
    ensures Accounted(c, HandleProposal(c, s, simulation, tick, cash, p, f))
  {
    AllShapedAreAccounted(c, s, p, tick, f);
    ProposalIsShaped(c, s, simulation, tick, cash, p, f);
  }

  ghost predicate ShapedBy(c: Constitution, s: Server, s': Server, p: Proposal, tick: nat, f: ProposalFaults) {
    Shaped(c, s, s', p, tick, s.clock + f.wait)
  }

  lemma ProposalIsShaped(c: Constitution, s: Server, simulation: Uuid, tick: nat, cash: int, p: Proposal, f: ProposalFaults)
    ensures ShapedBy(c, s, HandleProposal(c, s, simulation, tick, cash, p, f), p, tick, f)
  {
    ProposalShape(c, s, simulation, tick, cash, p, f);
  }

  lemma AllShapedAreAccounted(c: Constitution, s: Server, p: Proposal, tick: nat, f: ProposalFaults)
    requires Accounted(c, s)
    ensures forall s' :: ShapedBy(c, s, s', p, tick, f) ==> Accounted(c, s')
  {
    forall s' | ShapedBy(c, s, s', p, tick, f) ensures Accounted(c, s') {
      ShapedIsAccounted(c, s, s', p, tick, s.clock + f.wait);
    }
  }

  lemma ShapedIsAccounted(c: Constitution, s: Server, s': Server, p: Proposal, tick: nat, now: nat)
    requires Accounted(c, s) && s.clock <= now && Shaped(c, s, s', p, tick, now)
    ensures Accounted(c, s')
  {
    if Unruled(s, s') {
      UnrelatedIsAccounted(c, s, s');
    } else {
      VerdictIsAccounted(c, s, s', p, tick, now);
    }
  }

  /** The governor has spoken, and an action may or may not have followed. */
  lemma VerdictIsAccounted(c: Constitution, s: Server, s': Server, p: Proposal, tick: nat, now: nat)
    requires Accounted(c, s) && s.clock <= now && s'.birth == s.birth && RuledOn(c, s, s', p, tick, now)
    ensures Accounted(c, s')
  {
    AuthorizeMatchesReference(c, s.governor, s.granted, s.clock, p, tick, now);
    AuthorizeKeepsBudgets(c, s.governor, s.granted, s.clock, p, tick, now);
    assert RowsFollow(c, Own(s'), s'.granted) by {
      if Ruling(c, s.governor, p, tick, now).1.Authorized? {
        RowsKeepFollowing(c, s, s', Grant(p.rideId, tick, now));
      } else {
        assert Own(s') == Own(s);
      }
    }
  }

  lemma RowsKeepFollowing(c: Constitution, s: Server, s': Server, grant: Grant)
    requires s.birth.actions <= |s.ledger.actions| && RowsFollow(c, Own(s), s.granted) && GrantedInTurn(c, s.granted, grant)
    requires s'.birth == s.birth && s'.granted == s.granted + [grant]
    requires || s'.ledger.actions == s.ledger.actions
             || exists row: ActionRow :: row.rideId == grant.rideId && row.tick == grant.tick && row.createdAt == grant.at
                                         && s'.ledger.actions == s.ledger.actions + [row]
    ensures RowsFollow(c, Own(s'), s'.granted)
  {
    if s'.ledger.actions == s.ledger.actions {
      UnusedGrant(c, Own(s), s.granted, grant);
    } else {
      var row: ActionRow :| row.rideId == grant.rideId && row.tick == grant.tick && row.createdAt == grant.at
                 && s'.ledger.actions == s.ledger.actions + [row];
      UsedGrant(c, Own(s), s.granted, grant, row);
      assert Own(s') == Own(s) + [row];
    }
  }

  lemma {:induction false} ProposalsAreAccounted(c: Constitution, s: Server, simulation: Uuid, tick: nat, cash: int,
                                                 ps: seq<Proposal>, fs: seq<ProposalFaults>)
    requires |ps| <= |fs| && Accounted(c, s)
    ensures Accounted(c, HandleProposals(c, s, simulation, tick, cash, ps, fs))
  {
    if ps != [] {
      var n := |ps| - 1;
      ProposalsAreAccounted(c, s, simulation, tick, cash, ps[..n], fs);
      ProposalIsAccounted(c, HandleProposals(c, s, simulation, tick, cash, ps[..n], fs), simulation, tick, cash, ps[n], fs[n]);
    }
  }

  // --- Every run ------------------------------------------------------------------------

  /** Steps that leave grants, governor and actions alone; time may pass. */
  lemma UnrelatedIsAccounted(c: Constitution, s: Server, s': Server)
    requires Accounted(c, s) && s'.ledger.actions == s.ledger.actions && s'.governor == s.governor
    requires s'.granted == s.granted && s'.birth == s.birth && s.clock <= s'.clock
    ensures Accounted(c, s')
  {
    assert Own(s') == Own(s);
  }

  lemma RebirthIsAccounted(c: Constitution, s: Server, l: Ledger)
    requires Accounted(c, s) && l.actions == s.ledger.actions
    ensures Accounted(c, Reborn(s, l))
  {
    var s' := Reborn(s, l);
    assert Own(s') == [];
    assert Created([]) == [] && Times([]) == [];
  }

  lemma StepIsAccounted(c: Constitution, s: Server, e: Event)
    requires Accounted(c, s)
    ensures Accounted(c, Step(c, s, e))
  {
    if Enabled(c, s, e) {
      if e.Snapshot? {
        var tick, o := CurrentTick(s), e.observation;
        var s1 := s.(history := Suffix(s.history + [o], MAX_HISTORY));
        var s2 := VerifyAll(c, s1, s.connection.value, tick, o.cash, e.order, e.rollbacks);
        VerifyAllFrame(c, s1, s.connection.value, tick, o.cash, e.order, e.rollbacks);
        VerifyAllTables(c, s1, s.connection.value, tick, o.cash, e.order, e.rollbacks);
        UnrelatedIsAccounted(c, s, s2);
        ProposalsAreAccounted(c, s2, s.connection.value, tick, o.cash, ProposalsOn(c, s, o), e.proposals);
      } else if e.Start? {
        RebirthIsAccounted(c, s, Reconcile(s.ledger, e.answered, e.read, e.write).0);
        UnrelatedIsAccounted(c, s, s.(ledger := Reconcile(s.ledger, e.answered, e.read, e.write).0));
      } else if e.Hello? || e.Heartbeat? || e.WatchdogPoll? || e.Resolve? {
        LightStepFrame(c, s, e);
        UnrelatedIsAccounted(c, s, Step(c, s, e));
      } else if e.Result? {
        ResultKeepsActions(c, s, s.connection.value, e.correlation, e.cost, e.failed, e.insert, e.rollback);
        UnrelatedIsAccounted(c, s, Step(c, s, e));
      } else {
        UnrelatedIsAccounted(c, s, Step(c, s, e));
      }
    }
  }

  lemma ResultKeepsActions(c: Constitution, s: Server, simulation: Uuid, correlation: Option<nat>, cost: Option<int>,
                           failed: bool, insert: Write, f: RollbackFaults)
    ensures var s' := HandleResult(c, s, simulation, correlation, cost, failed, insert, f);
            && s'.ledger.actions == s.ledger.actions && s'.governor == s.governor
            && s'.granted == s.granted && s'.birth == s.birth && s'.clock == s.clock
  {
    if correlation.Some? && correlation.value in s.pendingActions {
      var pending := s.pendingActions[correlation.value];
      var (l, _) := AddResult(s.ledger, ResultRow(pending.action, cost, failed), insert);
      TriggerFrame(c, l, simulation, pending.snapshot, pending.action, CurrentTick(s), f);
    }
  }

  lemma {:induction false} RunIsAccounted(c: Constitution, es: seq<Event>)
    ensures Accounted(c, Run(c, BOOT, es))
  {
    if es == [] {
      assert Own(BOOT) == [] && Created([]) == [] && Times([]) == [];
    } else {
      RunIsAccounted(c, es[..|es| - 1]);
      StepIsAccounted(c, Run(c, BOOT, es[..|es| - 1]), es[|es| - 1]);
    }
  }

  /** In every hour and every day, the actions one process records stay within the two budgets. */
  lemma ActionsStayWithinBudgets(c: Constitution, es: seq<Event>, from: nat)
    ensures var s := Run(c, BOOT, es);
            && s.birth.actions <= |s.ledger.actions|
            && CountWindow(Created(Own(s)), from, 3_600_000_000_000) <= c.maxActionsPerHour
            && CountWindow(Created(Own(s)), from, 86_400_000_000_000) <= c.dailyActionBudget
  {
    RunIsAccounted(c, es);
    var s := Run(c, BOOT, es);
    assert CountWindow(Created(Own(s)), from, ONE_HOUR) <= CountWindow(Times(s.granted), from, ONE_HOUR);
    assert CountWindow(Created(Own(s)), from, ONE_DAY) <= CountWindow(Times(s.granted), from, ONE_DAY);
  }

  /** The governor's next answer depends only on what it granted: two processes, whatever was proposed
      to them, blocked, rejected or lost before, answer alike if they granted alike. */
  lemma {:induction false} OnlyGrantsMatter(c: Constitution, es1: seq<Event>, es2: seq<Event>, p: Proposal, tick: nat, now: nat)
    requires Run(c, BOOT, es1).granted == Run(c, BOOT, es2).granted
    requires Run(c, BOOT, es1).clock <= now && Run(c, BOOT, es2).clock <= now
    ensures Ruling(c, Run(c, BOOT, es1).governor, p, tick, now).1 == Ruling(c, Run(c, BOOT, es2).governor, p, tick, now).1
  {
    RunIsAccounted(c, es1);
    RunIsAccounted(c, es2);
    var s1, s2 := Run(c, BOOT, es1), Run(c, BOOT, es2);
    AuthorizeMatchesReference(c, s1.governor, s1.granted, s1.clock, p, tick, now);
    AuthorizeMatchesReference(c, s2.governor, s2.granted, s2.clock, p, tick, now);
  }

  // --- The action-rate breaker ---------------------------------------------------------------

  /** No action an earlier process recorded for the simulation is less than a minute old. */
  ghost predicate OldActionsAreOld(s: Server, simulation: Uuid) {
    && s.birth.actions <= |s.ledger.actions|
    && forall i :: 0 <= i < s.birth.actions && SimulationOf(s.ledger, s.ledger.actions[i]) == Some(simulation) ==>
                     s.ledger.actions[i].createdAt + 60_000_000_000 < s.clock
  }

  lemma OneMoreCreated(rows: seq<ActionRow>, row: ActionRow, from: nat, length: nat)
    ensures CountWindow(Created(rows + [row]), from, length) ==
            CountWindow(Created(rows), from, length) + if from <= row.createdAt < from + length then 1 else 0
  {
    CreatedAppend(rows, row);
    CountAppend(Created(rows), row.createdAt, from, length);
  }

  lemma {:induction false} LastMinuteIsOneWindow(s: Server, simulation: Uuid, n: nat)
    requires OldActionsAreOld(s, simulation) && n <= |s.ledger.actions|
    requires forall i :: 0 <= i < |s.ledger.actions| ==> s.ledger.actions[i].createdAt <= s.clock
    ensures ActionsInLastMinute(s.ledger, simulation, s.clock, n) <=
            if n <= s.birth.actions then 0
            else CountWindow(Created(s.ledger.actions[s.birth.actions..n]), SaturatingSub(s.clock, ONE_MINUTE), ONE_HOUR)
  {
    if n > 0 {
      LastMinuteIsOneWindow(s, simulation, n - 1);
      if n > s.birth.actions {
        assert s.ledger.actions[s.birth.actions..n] == s.ledger.actions[s.birth.actions..n - 1] + [s.ledger.actions[n - 1]];
        OneMoreCreated(s.ledger.actions[s.birth.actions..n - 1], s.ledger.actions[n - 1], SaturatingSub(s.clock, ONE_MINUTE), ONE_HOUR);
      }
    }
  }

  /** If the hourly limit does not exceed the breaker's threshold, the breaker cannot fire on the work
      of one process. */
  lemma RateBreakerStaysQuiet(c: Constitution, es: seq<Event>, simulation: Uuid, answered: bool, f: EscalationFaults)
    requires c.maxActionsPerHour <= c.actionRateStoppedThresholdPerMinute
    requires OldActionsAreOld(Run(c, BOOT, es), simulation)
    ensures var s := Run(c, BOOT, es);
            CheckActionRate(c, s.ledger, simulation, s.clock, answered, f) == s.ledger
  {
    RunIsAccounted(c, es);
    var s := Run(c, BOOT, es);
    var n := |s.ledger.actions|;
    LastMinuteIsOneWindow(s, simulation, n);
    assert s.ledger.actions[s.birth.actions..n] == Own(s);
    ActionsStayWithinBudgets(c, es, SaturatingSub(s.clock, ONE_MINUTE));
  }

  // --- The oscillation breaker ---------------------------------------------------------------------

  lemma PricesAppend(xs: seq<PriceChange>, x: PriceChange, ride: nat)
    ensures PricesOf(xs + [x], ride) == PricesOf(xs, ride) + if x.rideId == ride then [x.price] else []
  {
    assert (xs + [x])[..|xs|] == xs;
  }

  lemma {:induction false} InsertKeepsCount(sorted: seq<PriceChange>, x: PriceChange, ride: nat)
    ensures |PricesOf(InsertByTick(sorted, x), ride)| == |PricesOf(sorted, ride)| + if x.rideId == ride then 1 else 0
  {
    if sorted == [] || sorted[|sorted| - 1].tick <= x.tick {
      PricesAppend(sorted, x, ride);
    } else {
      var n := |sorted| - 1;
      InsertKeepsCount(sorted[..n], x, ride);
      PricesAppend(InsertByTick(sorted[..n], x), sorted[n], ride);
    }
  }

  /** Ordering by tick loses no change of any ride. */
  lemma {:induction false} SortKeepsCount(xs: seq<PriceChange>, ride: nat)
    ensures |PricesOf(SortByTick(xs), ride)| == |PricesOf(xs, ride)|
  {
    if xs != [] {
      SortKeepsCount(xs[..|xs| - 1], ride);
      InsertKeepsCount(SortByTick(xs[..|xs| - 1]), xs[|xs| - 1], ride);
    }
  }

  lemma {:induction false} TicksUpToMax(l: Ledger, simulation: Uuid, n: nat, i: nat)
    requires i < n <= |l.actions| && SimulationOf(l, l.actions[i]) == Some(simulation)
    ensures l.actions[i].tick <= MaxTick(l, simulation, n)
  {
    if i < n - 1 {
      TicksUpToMax(l, simulation, n - 1, i);
    }
  }

  /** No action an earlier process recorded for the simulation is in the window the query looks at. */
  ghost predicate WindowIsOwn(c: Constitution, s: Server, simulation: Uuid) {
    var since := MaxTick(s.ledger, simulation, |s.ledger.actions|) - c.oscillationWindowTicks;
    && s.birth.actions <= |s.ledger.actions|
    && forall i :: 0 <= i < s.birth.actions && SimulationOf(s.ledger, s.ledger.actions[i]) == Some(simulation) ==>
                     s.ledger.actions[i].tick < since
  }

  lemma OwnAreSpaced(c: Constitution, s: Server)
    requires Accounted(c, s) && c.perRideCooldownTicks > 0
    ensures SpacedFrom(s.ledger.actions, s.birth.actions, c.perRideCooldownTicks)
  {
    var own := Own(s);
    forall i, j | s.birth.actions <= i < j < |s.ledger.actions| && s.ledger.actions[i].rideId == s.ledger.actions[j].rideId
      ensures s.ledger.actions[i].tick + c.perRideCooldownTicks <= s.ledger.actions[j].tick
    {
      assert own[i - s.birth.actions] == s.ledger.actions[i] && own[j - s.birth.actions] == s.ledger.actions[j];
    }
  }

  ghost predicate SpacedFrom(actions: seq<ActionRow>, first: nat, d: nat) {
    forall i, j :: first <= i < j < |actions| && actions[i].rideId == actions[j].rideId ==> actions[i].tick + d <= actions[j].tick
  }

  /** The action is one the query for this ride returns. */
  predicate Returned(l: Ledger, simulation: Uuid, since: int, ride: nat, a: ActionRow) {
    SimulationOf(l, a) == Some(simulation) && a.tick >= since && a.rideId == ride
  }

  lemma ChangesStep(l: Ledger, simulation: Uuid, since: int, n: nat, ride: nat)
    requires 0 < n <= |l.actions|
    ensures |PricesOf(ChangesSince(l, simulation, since, n), ride)| ==
            |PricesOf(ChangesSince(l, simulation, since, n - 1), ride)| +
            if Returned(l, simulation, since, ride, l.actions[n - 1]) then 1 else 0
  {
    var a := l.actions[n - 1];
    var before := ChangesSince(l, simulation, since, n - 1);
    PricesAppend(before, PriceChange(a.rideId, a.price, a.tick), ride);
    assert before + [] == before;
  }

  /** How many of the first `n` actions the query returns for this ride. */
  function ReturnedCount(l: Ledger, simulation: Uuid, since: int, n: nat, ride: nat): nat
    requires n <= |l.actions|
  {
    if n == 0 then 0
    else ReturnedCount(l, simulation, since, n - 1, ride) + if Returned(l, simulation, since, ride, l.actions[n - 1]) then 1 else 0
  }

  lemma {:induction false} ReturnedAreCounted(l: Ledger, simulation: Uuid, since: int, n: nat, ride: nat)
    requires n <= |l.actions|
    ensures |PricesOf(ChangesSince(l, simulation, since, n), ride)| == ReturnedCount(l, simulation, since, n, ride)
  {
    if n > 0 {
      ReturnedAreCounted(l, simulation, since, n - 1, ride);
      ChangesStep(l, simulation, since, n, ride);
    }
  }

  /** `k` distances of `d`, one after the other. */
  function Distance(k: nat, d: nat): nat {
    if k == 0 then 0 else Distance(k - 1, d) + d
  }

  lemma {:induction false} DistanceIsProduct(k: nat, d: nat)
    ensures Distance(k, d) == k * d
  {
    if k > 0 {
      DistanceIsProduct(k - 1, d);
    }
  }

  /** The k-th action returned is at least k - 1 distances after the window's beginning. */
  lemma {:induction false} ChangesTakeTime(l: Ledger, first: nat, d: nat, simulation: Uuid, since: int, n: nat, ride: nat)
    returns (last: nat)
    requires SpacedFrom(l.actions, first, d) && n <= |l.actions|
    requires forall i :: 0 <= i < first && i < |l.actions| ==> !Returned(l, simulation, since, ride, l.actions[i])
    ensures var k := ReturnedCount(l, simulation, since, n, ride);
            k > 0 ==>
              && first <= last < n && Returned(l, simulation, since, ride, l.actions[last])
              && l.actions[last].tick >= since + Distance(k - 1, d)
  {
    last := 0;
    if n > 0 {
      last := ChangesTakeTime(l, first, d, simulation, since, n - 1, ride);
      if Returned(l, simulation, since, ride, l.actions[n - 1]) {
        last := n - 1;
      }
    }
  }

  lemma QuotientBound(k: nat, d: nat, w: nat)
    requires d > 0 && k * d <= w
    ensures k <= w / d
  {
    if k > w / d {
      MulMonotone(w / d + 1, k, d);
    }
  }

  lemma MulMonotone(a: nat, b: nat, d: nat)
    requires a <= b
    ensures a * d <= b * d
  {
  }

  lemma RoomFor(k: nat, d: nat, w: nat, newest: nat, last: nat)
    requires d > 0 && k > 0 && newest - w + Distance(k - 1, d) <= last <= newest
    ensures k <= w / d + 1
  {
    DistanceIsProduct(k - 1, d);
    QuotientBound(k - 1, d, w);
  }

  /** A window of W ticks has room for W / cooldown + 1 changes of one ride. */
  lemma ChangesAreBounded(c: Constitution, s: Server, simulation: Uuid, ride: nat)
    requires Accounted(c, s) && c.perRideCooldownTicks > 0 && WindowIsOwn(c, s, simulation)
    ensures var since := MaxTick(s.ledger, simulation, |s.ledger.actions|) - c.oscillationWindowTicks;
            |PricesOf(ChangesSince(s.ledger, simulation, since, |s.ledger.actions|), ride)| <=
            c.oscillationWindowTicks / c.perRideCooldownTicks + 1
  {
    var n := |s.ledger.actions|;
    var since := MaxTick(s.ledger, simulation, n) - c.oscillationWindowTicks;
    OwnAreSpaced(c, s);
    ReturnedAreCounted(s.ledger, simulation, since, n, ride);
    var last := ChangesTakeTime(s.ledger, s.birth.actions, c.perRideCooldownTicks, simulation, since, n, ride);
    var k := |PricesOf(ChangesSince(s.ledger, simulation, since, n), ride)|;
    if k > 0 {
      TicksUpToMax(s.ledger, simulation, n, last);
      RoomFor(k, c.perRideCooldownTicks, c.oscillationWindowTicks, MaxTick(s.ledger, simulation, n), s.ledger.actions[last].tick);
    }
  }

  /** Within one process lifetime and with a positive cooldown, the reversals the watchdog counts for
      any ride in a window of W ticks are at most max(0, W / cooldown - 1). */
  lemma {:induction false} ReversalsAreBounded(c: Constitution, es: seq<Event>, simulation: Uuid, ride: nat)
    requires c.perRideCooldownTicks > 0 && WindowIsOwn(c, Run(c, BOOT, es), simulation)
    ensures var s := Run(c, BOOT, es);
            Reversals(PricesOf(RecentPriceChanges(s.ledger, simulation, c.oscillationWindowTicks), ride)) <=
            SaturatingSub(c.oscillationWindowTicks / c.perRideCooldownTicks, 1)
  {
    RunIsAccounted(c, es);
    AccountedIsBounded(c, Run(c, BOOT, es), simulation, ride);
  }

  lemma AccountedIsBounded(c: Constitution, s: Server, simulation: Uuid, ride: nat)
    requires Accounted(c, s) && c.perRideCooldownTicks > 0 && WindowIsOwn(c, s, simulation)
    ensures Reversals(PricesOf(RecentPriceChanges(s.ledger, simulation, c.oscillationWindowTicks), ride)) <=
            SaturatingSub(c.oscillationWindowTicks / c.perRideCooldownTicks, 1)
  {
    ChangesAreBounded(c, s, simulation, ride);
    FewChangesFewReversals(s.ledger, simulation, c.oscillationWindowTicks, ride, c.oscillationWindowTicks / c.perRideCooldownTicks);
  }

  lemma FewChangesFewReversals(l: Ledger, simulation: Uuid, window: nat, ride: nat, room: nat)
    requires |PricesOf(ChangesSince(l, simulation, MaxTick(l, simulation, |l.actions|) - window, |l.actions|), ride)| <= room + 1
    ensures Reversals(PricesOf(RecentPriceChanges(l, simulation, window), ride)) <= SaturatingSub(room, 1)
  {
    SortKeepsCount(ChangesSince(l, simulation, MaxTick(l, simulation, |l.actions|) - window, |l.actions|), ride);
    ReversalsBelowLength(PricesOf(RecentPriceChanges(l, simulation, window), ride));
  }

  /** So when W / cooldown - 1 does not exceed the limit, the breaker cannot fire on the work of one
      process. */
  lemma {:induction false} OscillationBreakerStaysQuiet(c: Constitution, es: seq<Event>, simulation: Uuid, answered: bool, fs: seq<EscalationFaults>)
    requires c.perRideCooldownTicks > 0 && WindowIsOwn(c, Run(c, BOOT, es), simulation)
    requires SaturatingSub(c.oscillationWindowTicks / c.perRideCooldownTicks, 1) <= c.oscillationMaxReversals
    ensures var s := Run(c, BOOT, es);
            && Tripped(c, RecentPriceChanges(s.ledger, simulation, c.oscillationWindowTicks)) == {}
            && CheckOscillation(c, s.ledger, simulation, answered, fs) == s.ledger
  {
    var s := Run(c, BOOT, es);
    var changes := RecentPriceChanges(s.ledger, simulation, c.oscillationWindowTicks);
    forall ride | ride in RidesIn(changes) ensures Reversals(PricesOf(changes, ride)) <= c.oscillationMaxReversals {
      ReversalsAreBounded(c, es, simulation, ride);
    }
    assert Tripped(c, changes) == {};
  }

  /** The shipped policy: on the work of one process, neither breaker ever fires. */
  lemma {:induction false} ShippedPolicyStaysQuiet(c: Constitution, es: seq<Event>, simulation: Uuid, answered: bool, f: EscalationFaults,
                                fs: seq<EscalationFaults>)
    requires c.oscillationWindowTicks == 5000 && c.perRideCooldownTicks == 2000 && c.oscillationMaxReversals == 3
    requires c.maxActionsPerHour == 10 && c.actionRateStoppedThresholdPerMinute == 20
    requires WindowIsOwn(c, Run(c, BOOT, es), simulation) && OldActionsAreOld(Run(c, BOOT, es), simulation)
    ensures var s := Run(c, BOOT, es);
            && CheckActionRate(c, s.ledger, simulation, s.clock, answered, f) == s.ledger
            && Tripped(c, RecentPriceChanges(s.ledger, simulation, 5000)) == {}
            && CheckOscillation(c, s.ledger, simulation, answered, fs) == s.ledger
  {
    RateBreakerStaysQuiet(c, es, simulation, answered, f);
    OscillationBreakerStaysQuiet(c, es, simulation, answered, fs);
  }
}
