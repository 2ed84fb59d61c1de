/** Whole-run laws about the safety state and what it blocks. */
module SafetyLaws {
  import opened Common
  import opened SafetyStates
  import opened Governors
  import opened GovernorLaws
  import opened WorldModels
  import opened Ledgers
  import opened SafetyReading
  import opened Servers
  import opened Watchdogs
  import opened Runs
  import opened Transitions

  // --- What every reachable ledger keeps ----------------------------------------------

  predicate IsRecovery(row: TransitionRow) {
    row.from.Conservation? && row.to.Normal?
  }

  /** The position of the newest visible row. */
  function NewestAt(rows: seq<TransitionRow>, scope: Option<Uuid>): Option<nat> {
    if rows == [] then None
    else
      var n := |rows| - 1;
      if Visible(rows[n], scope) then Some(n) else NewestAt(rows[..n], scope)
  }

  /** Conservation is only ever entered for one simulation, and a recovery row always answers a
      bounded Conservation row that was the newest its reader could see. */
  ghost predicate WellFormed(rows: seq<TransitionRow>) {
    && (forall k :: 0 <= k < |rows| && rows[k].to.Conservation? ==> rows[k].scope.Some?)
    && (forall k :: 0 <= k < |rows| && IsRecovery(rows[k]) ==> AnswersWindow(rows, k))
  }

  ghost predicate AnswersWindow(rows: seq<TransitionRow>, k: nat)
    requires k < |rows|
  {
    var newest := Newest(rows[..k], rows[k].scope);
    newest.Some? && newest.value.to.Conservation? && newest.value.expiresAtTick.Some?
  }

  lemma {:induction false} NoGlobalConservation(rows: seq<TransitionRow>)
    requires forall k :: 0 <= k < |rows| && rows[k].to.Conservation? ==> rows[k].scope.Some?
    ensures Newest(rows, None).Some? ==> !Newest(rows, None).value.to.Conservation?
  {
    NewestIsVisible(rows, None);
  }

  /** A derived state other than Normal is the newest row's own, and is not an expired window. */
  lemma RowKeepsWellFormed(c: Constitution, ctx: Context, rows: seq<TransitionRow>, row: TransitionRow)
    requires WellFormed(rows) && Allowed(c, ctx, rows, row)
    ensures WellFormed(rows + [row])
    ensures ReadScope(ctx).None? ==> !Heals(ctx, rows, row)
  {
    NoGlobalConservation(rows);
    var all := rows + [row];
    assert all[..|rows|] == rows;
    forall k | 0 <= k < |all| && IsRecovery(all[k]) ensures AnswersWindow(all, k) {
      if k < |rows| {
        assert AnswersWindow(rows, k);
        assert all[..k] == rows[..k];
      }
    }
  }

  lemma {:induction false} GrowthKeepsWellFormed(c: Constitution, ctx: Context, before: seq<TransitionRow>, after: seq<TransitionRow>)
    requires WellFormed(before) && Grown(c, ctx, before, after)
    ensures WellFormed(after)
    decreases |after|
  {
    if |before| == |after| {
      assert after == before;
    } else {
      var n := |after| - 1;
      GrownInit(c, ctx, before, after);
      GrowthKeepsWellFormed(c, ctx, before, after[..n]);
      RowKeepsWellFormed(c, ctx, after[..n], after[n]);
      assert after == after[..n] + [after[n]];
    }
  }

  /** Growth, one row at a time. */
  lemma GrownInit(c: Constitution, ctx: Context, before: seq<TransitionRow>, after: seq<TransitionRow>)
    requires Grown(c, ctx, before, after) && |before| < |after|
    ensures Grown(c, ctx, before, after[..|after| - 1])
    ensures Allowed(c, ctx, after[..|after| - 1], after[|after| - 1])
    ensures after == after[..|after| - 1] + [after[|after| - 1]]
  {
    var init := after[..|after| - 1];
    assert init[..|before|] == before;
    forall k | |before| <= k < |init| ensures Allowed(c, ctx, init[..k], init[k]) {
      assert init[..k] == after[..k];
    }
  }

  lemma {:induction false} RunKeepsWellFormed(c: Constitution, s: Server, es: seq<Event>)
    requires WellFormed(s.ledger.transitions)
    ensures WellFormed(Run(c, s, es).ledger.transitions)
  {
    if es != [] {
      var n := |es| - 1;
      RunKeepsWellFormed(c, s, es[..n]);
      StepGrows(c, Run(c, s, es[..n]), es[n]);
      GrowthKeepsWellFormed(c, ContextOf(Run(c, s, es[..n]), es[n]), Run(c, s, es[..n]).ledger.transitions,
                            Run(c, s, es).ledger.transitions);
    }
  }

  /** The row starts from the newest row its writer could see, or from Normal where there is none or its
      window is over. */
  predicate Continues(rows: seq<TransitionRow>, row: TransitionRow) {
    var newest := Newest(rows, row.scope);
    if newest.None? then row.from.Normal?
    else row.from == newest.value.to || (row.from.Normal? && newest.value.to.Conservation? && newest.value.expiresAtTick.Some?)
  }

  /** The two rows of a rollback: the first cannot always tell where it comes from, the second always
      names the first. */
  predicate RollsBack(row: TransitionRow) {
    row.scope.Some? && (if row.to.Rollback? then row.from.Normal? else row.to.Conservation? && row.from.Rollback?)
  }

  /** In every reachable ledger, the rows form a trail: each starts where the newest one its writer could
      see ended, the two rows of a rollback apart. */
  lemma {:induction false} TransitionsFormATrail(c: Constitution, es: seq<Event>, k: nat)
    requires k < |Run(c, BOOT, es).ledger.transitions|
    ensures var rows := Run(c, BOOT, es).ledger.transitions;
            Continues(rows[..k], rows[k]) || RollsBack(rows[k])
  {
    var n := |es| - 1;
    var s := Run(c, BOOT, es[..n]);
    StepGrows(c, s, es[n]);
    GrowthContinues(c, ContextOf(s, es[n]), s.ledger.transitions, Run(c, BOOT, es).ledger.transitions, k);
    if k < |s.ledger.transitions| {
      TransitionsFormATrail(c, es[..n], k);
    }
  }

  lemma GrowthContinues(c: Constitution, ctx: Context, before: seq<TransitionRow>, after: seq<TransitionRow>, k: nat)
    requires Grown(c, ctx, before, after) && k < |after|
    ensures if k < |before| then after[..k] == before[..k] && after[k] == before[k]
            else Continues(after[..k], after[k]) || RollsBack(after[k])
  {
    if k < |before| {
      assert after[..|before|][k] == after[k] && after[..|before|][..k] == after[..k];
    } else {
      assert Allowed(c, ctx, after[..k], after[k]);
    }
  }

  lemma {:induction false} NewestAtIsNewest(rows: seq<TransitionRow>, scope: Option<Uuid>)
    ensures NewestAt(rows, scope).Some? <==> Newest(rows, scope).Some?
    ensures NewestAt(rows, scope).Some? ==>
              NewestAt(rows, scope).value < |rows| && Newest(rows, scope) == Some(rows[NewestAt(rows, scope).value])
    ensures forall k :: 0 <= k < |rows| && Visible(rows[k], scope) ==>
                          NewestAt(rows, scope).Some? && k <= NewestAt(rows, scope).value
  {
    if rows != [] {
      NewestAtIsNewest(rows[..|rows| - 1], scope);
    }
  }

  /** Each Conservation row is closed by at most one recovery row, of its own simulation. */
  lemma {:induction false} EachWindowRecoversOnce(c: Constitution, es: seq<Event>, i: nat, j: nat)
    requires var rows := Run(c, BOOT, es).ledger.transitions;
             i < j < |rows| && IsRecovery(rows[i]) && IsRecovery(rows[j])
    ensures var rows := Run(c, BOOT, es).ledger.transitions;
            var wi, wj := NewestAt(rows[..i], rows[i].scope), NewestAt(rows[..j], rows[j].scope);
            && wi.Some? && wj.Some? && wi.value < i && wj.value < j && wi != wj
            && rows[wi.value].to.Conservation? && rows[wi.value].scope == rows[i].scope
            && rows[wj.value].to.Conservation? && rows[wj.value].scope == rows[j].scope
  {
    RunKeepsWellFormed(c, BOOT, es);
    var rows := Run(c, BOOT, es).ledger.transitions;
    assert AnswersWindow(rows, i) && AnswersWindow(rows, j);
    NewestAtIsNewest(rows[..i], rows[i].scope);
    NewestAtIsNewest(rows[..j], rows[j].scope);
    NewestIsVisible(rows[..i], rows[i].scope);
    NewestIsVisible(rows[..j], rows[j].scope);
    assert rows[..j][i] == rows[i];
  }

  // --- When a command is sent -----------------------------------------------------------

  /** The log of commands grows by at most one entry, and only if the safety state read for that
      simulation at that tick was Normal. */
  lemma ProposalSendsOnlyWhenNormal(c: Constitution, s: Server, simulation: Uuid, tick: nat, cash: int, p: Proposal,
                                    f: ProposalFaults)
    ensures var s' := HandleProposal(c, s, simulation, tick, cash, p, f);
            || s'.wire == s.wire
            || (&& s'.wire == s.wire + [s'.wire[|s.wire|]]
                && s'.wire[|s.wire|].simulation == simulation && s'.wire[|s.wire|].tick == tick
                && Derived(s.ledger.transitions, Some(simulation), tick).Normal?)
  {
    var (l1, _) := AddProposal(s.ledger, ProposalRow(simulation, p), f.proposal);
    ReadIsFaithful(l1, Some(simulation), tick, f.read);
  }

  /** No command for `simulation` among the entries of the log beyond the first `from`. */
  ghost predicate NoneSent(wire: seq<Command>, from: nat, simulation: Uuid) {
    forall m :: from <= m < |wire| ==> wire[m].simulation != simulation
  }

  lemma NoneSentExtends(wire: seq<Command>, more: seq<Command>, from: nat, simulation: Uuid)
    requires |wire| <= |more| && more[..|wire|] == wire
    requires NoneSent(wire, from, simulation) && NoneSent(more, |wire|, simulation)
    ensures NoneSent(more, from, simulation)
  {
    forall m | from <= m < |more| ensures more[m].simulation != simulation {
      if m < |wire| {
        assert more[m] == wire[m];
      }
    }
  }

  // --- Holds -------------------------------------------------------------------------------

  /** Until tick `until`, nothing a reader of this simulation does can find the state Normal. */
  ghost predicate Held(rows: seq<TransitionRow>, simulation: Uuid, until: nat) {
    var newest := Newest(rows, Some(simulation));
    newest.Some? &&
    match newest.value.to
    case Rollback => true
    case Quarantine => true
    case Stopped => true
    case Conservation => newest.value.expiresAtTick.Some? && newest.value.expiresAtTick.value >= until
    case _ => false
  }

  lemma HeldIsNotNormal(rows: seq<TransitionRow>, simulation: Uuid, until: nat, tick: nat)
    requires Held(rows, simulation, until) && tick < until
    ensures !Derived(rows, Some(simulation), tick).Normal?
  {
  }

  /** A step of this kind reads the held simulation's state, if at all, before the hold runs out. */
  predicate Early(ctx: Context, simulation: Uuid, until: nat) {
    (ctx.OnHeartbeat? || ctx.OnMessage? || ctx.OnProposal?) && ctx.simulation == simulation ==> ctx.tick < until
  }

  /** One of the new rows opens a window of the simulation's that ends before `until`. */
  ghost predicate Shortened(before: seq<TransitionRow>, after: seq<TransitionRow>, simulation: Uuid, until: nat) {
    exists k :: |before| <= k < |after| && Shortens(after[k], simulation, until)
  }

  predicate Shortens(row: TransitionRow, simulation: Uuid, until: nat) {
    row.scope == Some(simulation) && row.to.Conservation? && row.expiresAtTick.Some? && row.expiresAtTick.value < until
  }

  lemma ShortenedInit(before: seq<TransitionRow>, after: seq<TransitionRow>, simulation: Uuid, until: nat)
    requires |before| < |after| && !Shortened(before, after, simulation, until)
    ensures !Shortened(before, after[..|after| - 1], simulation, until) && !Shortens(after[|after| - 1], simulation, until)
  {
    var init := after[..|after| - 1];
    forall k | |before| <= k < |init| ensures !Shortens(init[k], simulation, until) {
      assert init[k] == after[k];
    }
  }

  /** Only a message of the simulation's can open a window of its, and only one of the configured length. */
  lemma OnlyMessagesShorten(c: Constitution, ctx: Context, before: seq<TransitionRow>, after: seq<TransitionRow>, simulation: Uuid, until: nat)
    requires Grown(c, ctx, before, after)
    requires ctx.OnMessage? && ctx.simulation == simulation ==> until <= ctx.tick + c.conservationTicks
    ensures !Shortened(before, after, simulation, until)
  {
    forall k | |before| <= k < |after| ensures !Shortens(after[k], simulation, until) {
      assert Allowed(c, ctx, after[..k], after[k]);
    }
  }

  /** A hold survives every early step that is no restart and no resolve, unless it opens a shorter window. */
  lemma {:induction false} HoldSurvives(c: Constitution, ctx: Context, before: seq<TransitionRow>,
                                        after: seq<TransitionRow>, simulation: Uuid, until: nat)
    requires WellFormed(before) && Grown(c, ctx, before, after) && Held(before, simulation, until)
    requires !ctx.OnStartup? && !ctx.OnResolve? && Early(ctx, simulation, until) && !Shortened(before, after, simulation, until)
    ensures Held(after, simulation, until)
    decreases |after|
  {
    if |before| == |after| {
      assert after == before;
    } else {
      var n := |after| - 1;
      GrownInit(c, ctx, before, after);
      ShortenedInit(before, after, simulation, until);
      HoldSurvives(c, ctx, before, after[..n], simulation, until);
      GrowthKeepsWellFormed(c, ctx, before, after[..n]);
      RowKeepsWellFormed(c, ctx, after[..n], after[n]);
      NewestAppend(after[..n], after[n], Some(simulation));
    }
  }

  /** A held simulation has every proposal of a snapshot refused. */
  lemma {:induction false} HoldBlocksProposals(c: Constitution, s: Server, simulation: Uuid, tick: nat, cash: int,
                                               ps: seq<Proposal>, fs: seq<ProposalFaults>)
    requires |ps| <= |fs|
    requires WellFormed(s.ledger.transitions) && Held(s.ledger.transitions, simulation, tick + 1)
    ensures HandleProposals(c, s, simulation, tick, cash, ps, fs).wire == s.wire
  {
    if ps != [] {
      var n := |ps| - 1;
      HoldBlocksProposals(c, s, simulation, tick, cash, ps[..n], fs);
      var mid := HandleProposals(c, s, simulation, tick, cash, ps[..n], fs);
      ProposalsGrow(c, s, simulation, tick, cash, ps[..n], fs);
      OnlyMessagesShorten(c, OnProposal(simulation, tick), s.ledger.transitions, mid.ledger.transitions, simulation, tick + 1);
      HoldSurvives(c, OnProposal(simulation, tick), s.ledger.transitions, mid.ledger.transitions, simulation, tick + 1);
      HeldIsNotNormal(mid.ledger.transitions, simulation, tick + 1, tick);
      ProposalSendsOnlyWhenNormal(c, mid, simulation, tick, cash, ps[n], fs[n]);
    }
  }

  /** A snapshot's commands are all for the snapshot's simulation. */
  lemma {:induction false} ProposalsSendForOne(c: Constitution, s: Server, simulation: Uuid, tick: nat, cash: int,
                                               ps: seq<Proposal>, fs: seq<ProposalFaults>)
    requires |ps| <= |fs|
    ensures var s' := HandleProposals(c, s, simulation, tick, cash, ps, fs);
            && |s.wire| <= |s'.wire| && s'.wire[..|s.wire|] == s.wire
            && (forall m :: |s.wire| <= m < |s'.wire| ==> s'.wire[m].simulation == simulation)
  {
    if ps != [] {
      var n := |ps| - 1;
      ProposalsSendForOne(c, s, simulation, tick, cash, ps[..n], fs);
      ProposalSendsOnlyWhenNormal(c, HandleProposals(c, s, simulation, tick, cash, ps[..n], fs), simulation, tick, cash, ps[n], fs[n]);
    }
  }

  lemma {:induction false} VerifyAllSendsNothing(c: Constitution, s: Server, simulation: Uuid, tick: nat, cash: int,
                                                 order: seq<nat>, fs: seq<RollbackFaults>)
    requires |order| <= |fs|
    ensures VerifyAll(c, s, simulation, tick, cash, order, fs).wire == s.wire
  {
    if order != [] {
      VerifyAllSendsNothing(c, s, simulation, tick, cash, order[..|order| - 1], fs);
    }
  }

  // --- Quarantine and Stopped -----------------------------------------------------------------

  /** The simulation is in a state only a human is meant to clear. */
  ghost predicate AwaitsHuman(rows: seq<TransitionRow>, simulation: Uuid) {
    var newest := Newest(rows, Some(simulation));
    newest.Some? && (newest.value.to.Quarantine? || newest.value.to.Stopped?)
  }

  /** The rows that end such a state: a restart's, a human's, and an automatic rollback's. */
  predicate Releases(row: TransitionRow, simulation: Uuid) {
    || (row.scope.None? && (row.to.Cautious? || row.to.Normal?))
    || (row.scope == Some(simulation) && (row.to.Rollback? || row.to.Conservation?))
  }

  ghost predicate Released(before: seq<TransitionRow>, after: seq<TransitionRow>, simulation: Uuid) {
    exists k :: |before| <= k < |after| && Releases(after[k], simulation)
  }

  /** One row: it ends the state exactly when it is a releasing row, and only a watchdog's row can
      restore the state afterwards. */
  lemma RowReleases(c: Constitution, ctx: Context, rows: seq<TransitionRow>, row: TransitionRow, simulation: Uuid)
    requires WellFormed(rows) && Allowed(c, ctx, rows, row)
    ensures AwaitsHuman(rows, simulation) ==> (AwaitsHuman(rows + [row], simulation) <==> !Releases(row, simulation))
    ensures !AwaitsHuman(rows, simulation) && !ctx.OnPoll? ==> !AwaitsHuman(rows + [row], simulation)
    ensures ctx.OnPoll? ==> !Releases(row, simulation)
  {
    RowKeepsWellFormed(c, ctx, rows, row);
    NewestAppend(rows, row, Some(simulation));
  }

  /** One kind of step keeps the state if and only if it appends none of those rows. */
  lemma {:induction false} ReleasedExactlyBy(c: Constitution, ctx: Context, before: seq<TransitionRow>,
                                             after: seq<TransitionRow>, simulation: Uuid)
    requires WellFormed(before) && Grown(c, ctx, before, after) && AwaitsHuman(before, simulation)
    ensures AwaitsHuman(after, simulation) <==> !Released(before, after, simulation)
    ensures ctx.OnPoll? ==> !Released(before, after, simulation)
    decreases |after|
  {
    if |before| == |after| {
      assert after == before;
    } else {
      var n := |after| - 1;
      GrownInit(c, ctx, before, after);
      ReleasedExactlyBy(c, ctx, before, after[..n], simulation);
      GrowthKeepsWellFormed(c, ctx, before, after[..n]);
      RowReleases(c, ctx, after[..n], after[n], simulation);
      ReleasedSplit(before, after, simulation);
    }
  }

  /** Only a poll can bring such a state about. */
  lemma {:induction false} OnlyPollsRaise(c: Constitution, ctx: Context, before: seq<TransitionRow>, after: seq<TransitionRow>, simulation: Uuid)
    requires WellFormed(before) && Grown(c, ctx, before, after) && !ctx.OnPoll? && !AwaitsHuman(before, simulation)
    ensures !AwaitsHuman(after, simulation)
    decreases |after|
  {
    if |before| == |after| {
      assert after == before;
    } else {
      var n := |after| - 1;
      GrownInit(c, ctx, before, after);
      OnlyPollsRaise(c, ctx, before, after[..n], simulation);
      GrowthKeepsWellFormed(c, ctx, before, after[..n]);
      RowReleases(c, ctx, after[..n], after[n], simulation);
    }
  }

  lemma ReleasedSplit(before: seq<TransitionRow>, after: seq<TransitionRow>, simulation: Uuid)
    requires |before| < |after|
    ensures Released(before, after, simulation) <==>
            Released(before, after[..|after| - 1], simulation) || Releases(after[|after| - 1], simulation)
  {
    var init := after[..|after| - 1];
    if k :| |before| <= k < |after| && Releases(after[k], simulation) {
      if k < |init| {
        assert Releases(init[k], simulation);
      }
    }
    if k :| |before| <= k < |init| && Releases(init[k], simulation) {
      assert Releases(after[k], simulation);
    }
  }

  lemma AwaitingIsHeld(rows: seq<TransitionRow>, simulation: Uuid, until: nat)
    requires AwaitsHuman(rows, simulation)
    ensures Held(rows, simulation, until)
  {
  }

  ghost predicate ProposalFramed(s: Server, s': Server) {
    && s'.connection == s.connection && s'.up == s.up && s'.tick == s.tick && s'.history == s.history
    && s'.pendingVerifications == s.pendingVerifications
    && s'.cleanHeartbeats == s.cleanHeartbeats && s'.heartbeats == s.heartbeats && s'.birth == s.birth
    && |s.wire| <= |s'.wire|
    && (|s'.wire| == |s.wire| ==> s'.wire == s.wire && s'.pendingActions == s.pendingActions)
  }

  /** Handling proposals leaves the connection and the verifications alone, and awaits a result only
      of what it sent. */
  lemma {:induction false} ProposalsFrame(c: Constitution, s: Server, simulation: Uuid, tick: nat, cash: int,
                                          ps: seq<Proposal>, fs: seq<ProposalFaults>)
    requires |ps| <= |fs|
    ensures ProposalFramed(s, HandleProposals(c, s, simulation, tick, cash, ps, fs))
  {
    if ps != [] {
      ProposalsFrame(c, s, simulation, tick, cash, ps[..|ps| - 1], fs);
      ProposalFrame(c, HandleProposals(c, s, simulation, tick, cash, ps[..|ps| - 1], fs), simulation, tick, cash,
                    ps[|ps| - 1], fs[|ps| - 1]);
    }
  }

  lemma ProposalFrame(c: Constitution, s: Server, simulation: Uuid, tick: nat, cash: int, p: Proposal, f: ProposalFaults)
    ensures ProposalFramed(s, HandleProposal(c, s, simulation, tick, cash, p, f))
  {
    var (l, screened) := Screen(c, s.ledger, simulation, tick, p, f);
    var s1 := s.(ledger := l);
    if screened.Some? {
      var (s2, authorization) := Judge(c, s1, tick, p, screened.value.0, f);
      JudgeFrame(c, s1, tick, p, screened.value.0, f);
      if authorization.Some? {
        ExecuteFrame(s2, simulation, tick, cash, p, authorization.value, screened.value.1, f);
      }
    }
  }

  lemma JudgeFrame(c: Constitution, s: Server, tick: nat, p: Proposal, proposal: nat, f: ProposalFaults)
    ensures var s' := Judge(c, s, tick, p, proposal, f).0;
            ProposalFramed(s, s') && s'.wire == s.wire
  {
  }

  lemma ExecuteFrame(s: Server, simulation: Uuid, tick: nat, cash: int, p: Proposal, authorization: nat, snapshot: nat, f: ProposalFaults)
    ensures ProposalFramed(s, Execute(s, simulation, tick, cash, p, authorization, snapshot, f))
  {
  }

  lemma {:induction false} VerifyAllFrame(c: Constitution, s: Server, simulation: Uuid, tick: nat, cash: int,
                                          order: seq<nat>, fs: seq<RollbackFaults>)
    requires |order| <= |fs|
    ensures var s' := VerifyAll(c, s, simulation, tick, cash, order, fs);
            s' == s.(ledger := s'.ledger, pendingVerifications := s'.pendingVerifications)
  {
    if order != [] {
      VerifyAllFrame(c, s, simulation, tick, cash, order[..|order| - 1], fs);
    }
  }

  /** A kind of step that is no message of this simulation's, no restart and no resolve. */
  lemma OtherStepsReleaseNothing(c: Constitution, ctx: Context, before: seq<TransitionRow>, after: seq<TransitionRow>, simulation: Uuid)
    requires Grown(c, ctx, before, after) && WellFormed(before) && AwaitsHuman(before, simulation)
    requires !ctx.OnStartup? && !ctx.OnResolve? && (ctx.OnMessage? ==> ctx.simulation != simulation)
    ensures AwaitsHuman(after, simulation)
  {
    ReleasedExactlyBy(c, ctx, before, after, simulation);
    if !ctx.OnPoll? {
      forall k | |before| <= k < |after| ensures !Releases(after[k], simulation) {
        assert Allowed(c, ctx, after[..k], after[k]);
      }
    }
  }
}
