/** The main results about commands and actions, over every run and every pattern of failures. */
module ActionLaws {
  import opened Common
  import opened SafetyStates
  import opened Governors
  import opened WorldModels
  import opened IdempotencyKeys
  import opened Ledgers
  import opened Servers
  import opened Runs
  import opened Transitions
  import opened SafetyLaws
  import opened LedgerLaws
  import opened OutcomeLaws
  import RecoveryLaws

  /** The ledger never loses or changes a row. */
  lemma {:induction false} LedgerIsAppendOnly(c: Constitution, start: seq<Event>, es: seq<Event>)
    ensures Extends(Run(c, BOOT, start).ledger, Run(c, Run(c, BOOT, start), es).ledger)
  {
    var s := Run(c, BOOT, start);
    if es == [] {
      ExtendsReflexive(s.ledger);
    } else {
      var n := |es| - 1;
      LedgerIsAppendOnly(c, start, es[..n]);
      RunConcat(c, BOOT, start, es[..n]);
      RunIsSound(c, start + es[..n]);
      StepIsSound(c, Run(c, s, es[..n]), es[n]);
      ExtendsTransitive(s.ledger, Run(c, s, es[..n]).ledger, Run(c, s, es).ledger);
    }
  }

  // --- What a sent command proves --------------------------------------------------------

  /** Every command ever written has its whole justification in the ledger; and its price on the
      wire is the price that was authorized when the bounds fit 32 bits. */
  lemma {:induction false} SentCommandsAreBacked(c: Constitution, es: seq<Event>, m: nat)
    requires m < |Run(c, BOOT, es).wire|
    ensures var s := Run(c, BOOT, es);
            && Linked(c, s.ledger, s.wire[m])
            && (0 <= c.minPrice && c.maxPrice < 0x1_0000_0000 ==> s.wire[m].price == s.ledger.actions[s.wire[m].action].price)
  {
    RunIsSound(c, es);
    WrittenIsBacked(c, Run(c, BOOT, es), m);
  }

  lemma WrittenIsBacked(c: Constitution, s: Server, m: nat)
    requires Sound(c, s) && m < |s.wire|
    ensures Linked(c, s.ledger, s.wire[m])
    ensures 0 <= c.minPrice && c.maxPrice < 0x1_0000_0000 ==> s.wire[m].price == s.ledger.actions[s.wire[m].action].price
  {
    assert Linked(c, s.ledger, s.wire[m]);
  }

  /** No authorized price is altered by the cast if and only if the bounds fit 32 bits. */
  lemma PricesSurviveCastIff(c: Constitution)
    requires c.minPrice <= c.maxPrice
    ensures (forall price :: c.minPrice <= price <= c.maxPrice ==> AsU32(price) == price) <==>
            0 <= c.minPrice && c.maxPrice < 0x1_0000_0000
  {
    if forall price :: c.minPrice <= price <= c.maxPrice ==> AsU32(price) == price {
      assert AsU32(c.minPrice) == c.minPrice && AsU32(c.maxPrice) == c.maxPrice;
    }
  }

  /** The state in which the j-th proposal of a snapshot is taken up. */
  function TakenUp(c: Constitution, s: Server, simulation: Uuid, tick: nat, cash: int, ps: seq<Proposal>,
                   fs: seq<ProposalFaults>, j: nat): Server
    requires j <= |ps| <= |fs|
  {
    HandleProposals(c, s, simulation, tick, cash, ps[..j], fs)
  }

  /** Entry `m` of the log is the j-th proposal's, and the state that proposal read was Normal. */
  ghost predicate WritesWhileNormal(c: Constitution, s: Server, simulation: Uuid, tick: nat, cash: int, ps: seq<Proposal>,
                                    fs: seq<ProposalFaults>, j: nat, m: nat)
    requires j < |ps| <= |fs|
  {
    var taken := TakenUp(c, s, simulation, tick, cash, ps, fs, j);
    && |taken.wire| == m && |HandleProposal(c, taken, simulation, tick, cash, ps[j], fs[j]).wire| == m + 1
    && Derived(taken.ledger.transitions, Some(simulation), tick).Normal?
  }

  lemma {:induction false} ProposalsWriteWhileNormal(c: Constitution, s: Server, simulation: Uuid, tick: nat, cash: int,
                                                     ps: seq<Proposal>, fs: seq<ProposalFaults>, m: nat)
    returns (j: nat)
    requires |ps| <= |fs| && |s.wire| <= m < |HandleProposals(c, s, simulation, tick, cash, ps, fs).wire|
    ensures j < |ps| && WritesWhileNormal(c, s, simulation, tick, cash, ps, fs, j, m)
  {
    var n := |ps| - 1;
    var mid := HandleProposals(c, s, simulation, tick, cash, ps[..n], fs);
    ProposalSendsOnlyWhenNormal(c, mid, simulation, tick, cash, ps[n], fs[n]);
    if m < |mid.wire| {
      j := ProposalsWriteWhileNormal(c, s, simulation, tick, cash, ps[..n], fs, m);
      assert ps[..n][..j] == ps[..j];
      assert WritesWhileNormal(c, s, simulation, tick, cash, ps[..n], fs, j, m);
    } else {
      j := n;
    }
  }

  /** Each command is the work of one proposal of a snapshot, and the safety state that this proposal itself
      read, for its own simulation and tick, was Normal. */
  lemma {:induction false} CommandsAreSentWhileNormal(c: Constitution, s: Server, e: Event, m: nat) returns (j: nat)
    requires |s.wire| <= m < |Step(c, s, e).wire|
    ensures e.Snapshot? && Enabled(c, s, e) && j < |ProposalsOn(c, s, e.observation)|
    ensures WritesWhileNormal(c, Drained(c, s, e), s.connection.value, CurrentTick(s), e.observation.cash,
                              ProposalsOn(c, s, e.observation), e.proposals, j, m)
  {
    OnlySnapshotsSend(c, s, e);
    var s1 := s.(history := Suffix(s.history + [e.observation], MAX_HISTORY));
    VerifyAllSendsNothing(c, s1, s.connection.value, CurrentTick(s), e.observation.cash, e.order, e.rollbacks);
    j := ProposalsWriteWhileNormal(c, Drained(c, s, e), s.connection.value, CurrentTick(s), e.observation.cash,
                                   ProposalsOn(c, s, e.observation), e.proposals, m);
  }

  lemma OnlySnapshotsSend(c: Constitution, s: Server, e: Event)
    ensures Step(c, s, e).wire != s.wire ==> e.Snapshot? && Enabled(c, s, e)
  {
    if Enabled(c, s, e) && (e.Hello? || e.Heartbeat? || e.WatchdogPoll? || e.Resolve?) {
      LightStepFrame(c, s, e);
    }
  }

  // --- At most once --------------------------------------------------------------------------

  /** No idempotency key, and no (simulation, ride, tick), is ever written to the wire twice, over
      any number of crashes, restarts and reconnects. */
  lemma EachKeyIsSentOnce(c: Constitution, es: seq<Event>, m: nat, n: nat)
    requires m < n < |Run(c, BOOT, es).wire|
    ensures var wire := Run(c, BOOT, es).wire;
            && wire[m].key != wire[n].key
            && (wire[m].simulation, wire[m].rideId, wire[m].tick) != (wire[n].simulation, wire[n].rideId, wire[n].tick)
  {
    RunIsSound(c, es);
    var s := Run(c, BOOT, es);
    assert Linked(c, s.ledger, s.wire[m]) && Linked(c, s.ledger, s.wire[n]);
  }

  // --- Where an action stands ---------------------------------------------------------------------

  ghost predicate Pending(s: Server, action: nat) {
    exists m :: m in s.pendingActions && s.pendingActions[m].action == action
  }

  /** Its command may have been written, but nothing will ever tell how it went. */
  ghost predicate Orphaned(s: Server, action: nat) {
    action < |s.ledger.actions| && !Resolved(s.ledger, action) && !Pending(s, action)
  }

  lemma {:induction false} InFlightLists(l: Ledger, n: nat, action: nat)
    requires n <= |l.actions|
    ensures action in InFlight(l, n) <==> action < n && !Resolved(l, action)
    ensures forall i, j :: 0 <= i < j < |InFlight(l, n)| ==> InFlight(l, n)[i] < InFlight(l, n)[j]
    ensures forall i :: 0 <= i < |InFlight(l, n)| ==> InFlight(l, n)[i] < n
  {
    if n > 0 {
      InFlightLists(l, n - 1, action);
    }
  }

  /** At every moment every action is resolved, pending or orphaned, and only one of these; it has at
      most one result and at most one pending entry; and the in-flight query lists, each once, exactly
      the pending and the orphaned ones. */
  lemma EveryActionStandsSomewhere(c: Constitution, es: seq<Event>, action: nat)
    requires action < |Run(c, BOOT, es).ledger.actions|
    ensures var s := Run(c, BOOT, es);
            && (Resolved(s.ledger, action) || Pending(s, action) || Orphaned(s, action))
            && !(Resolved(s.ledger, action) && Pending(s, action))
            && (forall i, j :: 0 <= i < j < |s.ledger.results| ==> s.ledger.results[i].action != s.ledger.results[j].action)
            && (forall m, n :: m in s.pendingActions && n in s.pendingActions && m != n ==>
                                 s.pendingActions[m].action != s.pendingActions[n].action)
            && (action in InFlight(s.ledger, |s.ledger.actions|) <==> Pending(s, action) || Orphaned(s, action))
            && (forall i, j :: 0 <= i < j < |InFlight(s.ledger, |s.ledger.actions|)| ==>
                                 InFlight(s.ledger, |s.ledger.actions|)[i] != InFlight(s.ledger, |s.ledger.actions|)[j])
  {
    RunIsSound(c, es);
    var s := Run(c, BOOT, es);
    PendingAreDistinct(c, s);
    InFlightLists(s.ledger, |s.ledger.actions|, action);
    if m :| m in s.pendingActions && s.pendingActions[m].action == action {
      assert AwaitedSoundly(s.ledger, s.wire, m, s.pendingActions[m]);
    }
  }

  // --- Entries that are gone stay gone --------------------------------------------------------------

  /** New pending entries carry message ids and actions that did not exist before. */
  ghost predicate OnlyNewPending(s: Server, s': Server) {
    && |s.wire| <= |s'.wire|
    && (forall m :: m in s'.pendingActions ==>
                      || (m in s.pendingActions && s'.pendingActions[m] == s.pendingActions[m])
                      || (m >= |s.wire| && s'.pendingActions[m].action >= |s.ledger.actions|))
  }

  lemma {:induction false} ProposalsOnlyNewPending(c: Constitution, s: Server, simulation: Uuid, tick: nat, cash: int,
                                                   ps: seq<Proposal>, fs: seq<ProposalFaults>)
    requires |ps| <= |fs|
    ensures var s' := HandleProposals(c, s, simulation, tick, cash, ps, fs);
            && OnlyNewPending(s, s') && s'.ledger.results == s.ledger.results
            && |s.ledger.actions| <= |s'.ledger.actions|
  {
    if ps != [] {
      ProposalsOnlyNewPending(c, s, simulation, tick, cash, ps[..|ps| - 1], fs);
      ProposalOnlyNewPending(c, HandleProposals(c, s, simulation, tick, cash, ps[..|ps| - 1], fs), simulation, tick, cash,
                             ps[|ps| - 1], fs[|ps| - 1]);
    }
  }

  lemma ProposalOnlyNewPending(c: Constitution, s: Server, simulation: Uuid, tick: nat, cash: int, p: Proposal, f: ProposalFaults)
    ensures var s' := HandleProposal(c, s, simulation, tick, cash, p, f);
            && OnlyNewPending(s, s') && s'.ledger.results == s.ledger.results
            && |s.ledger.actions| <= |s'.ledger.actions|
  {
    ScreenIsSound(c, s.ledger, simulation, tick, p, f);
  }

  /** What a step may do to results and to awaited commands: at most one result, of the awaited
      command it names, which is then awaited no longer. */
  lemma StepResolvesOne(c: Constitution, s: Server, e: Event)
    ensures var s' := Step(c, s, e);
            && OnlyNewPending(s, s')
            && (|| s'.ledger.results == s.ledger.results
                || (&& e.Result? && e.correlation.Some? && e.correlation.value in s.pendingActions
                    && s'.ledger.results == s.ledger.results + [ResultRow(s.pendingActions[e.correlation.value].action, e.cost, e.failed)]))
            && (e.Result? && e.correlation.Some? && Enabled(c, s, e) ==> e.correlation.value !in s'.pendingActions)
  {
    if Enabled(c, s, e) {
      if e.Snapshot? {
        SnapshotResolvesNone(c, s, e);
      } else if e.Result? {
        ResultResolvesOne(c, s, s.connection.value, e.correlation, e.cost, e.failed, e.insert, e.rollback);
      } else if e.Hello? || e.Heartbeat? || e.WatchdogPoll? || e.Resolve? {
        LightStepFrame(c, s, e);
      }
    }
  }

  lemma SnapshotResolvesNone(c: Constitution, s: Server, e: Event)
    requires e.Snapshot? && Enabled(c, s, e)
    ensures OnlyNewPending(s, Step(c, s, e)) && Step(c, s, e).ledger.results == s.ledger.results
  {
    var tick, o := CurrentTick(s), e.observation;
    var s1 := s.(history := Suffix(s.history + [o], MAX_HISTORY));
    VerifyAllFrame(c, s1, s.connection.value, tick, o.cash, e.order, e.rollbacks);
    RecoveryLaws.VerifyAllTables(c, s1, s.connection.value, tick, o.cash, e.order, e.rollbacks);
    ProposalsOnlyNewPending(c, Drained(c, s, e), s.connection.value, tick, o.cash, ProposalsOn(c, s, o), e.proposals);
  }

  lemma ResultResolvesOne(c: Constitution, s: Server, simulation: Uuid, correlation: Option<nat>, cost: Option<int>,
                          failed: bool, insert: Write, f: RollbackFaults)
    ensures var s' := HandleResult(c, s, simulation, correlation, cost, failed, insert, f);
            && OnlyNewPending(s, s')
            && (|| s'.ledger.results == s.ledger.results
                || (&& correlation.Some? && correlation.value in s.pendingActions
                    && s'.ledger.results == s.ledger.results + [ResultRow(s.pendingActions[correlation.value].action, cost, failed)]))
            && (correlation.Some? ==> correlation.value !in s'.pendingActions)
  {
    if correlation.Some? && correlation.value in s.pendingActions {
      var pending := s.pendingActions[correlation.value];
      var (l, _) := AddResult(s.ledger, ResultRow(pending.action, cost, failed), insert);
      RecoveryLaws.TriggerFrame(c, l, simulation, pending.snapshot, pending.action, CurrentTick(s), f);
    }
  }

  /** A command.result whose command is not awaited, a duplicate or a stale one, changes nothing. */
  lemma UnawaitedResultChangesNothing(c: Constitution, s: Server, e: Event)
    requires e.Result? && (e.correlation.None? || e.correlation.value !in s.pendingActions)
    ensures Step(c, s, e) == s
  {
  }

  /** A command whose result was once handled, lost with its connection, or never awaited, is never
      awaited again: every later result for it changes nothing. */
  lemma {:induction false} LateResultsChangeNothing(c: Constitution, s: Server, es: seq<Event>, e: Event)
    requires e.Result? && e.correlation.Some?
    requires e.correlation.value < |s.wire| && e.correlation.value !in s.pendingActions
    ensures |s.wire| <= |Run(c, s, es).wire| && e.correlation.value !in Run(c, s, es).pendingActions
    ensures Step(c, Run(c, s, es), e) == Run(c, s, es)
  {
    if es != [] {
      var n := |es| - 1;
      LateResultsChangeNothing(c, s, es[..n], e);
      StepResolvesOne(c, Run(c, s, es[..n]), es[n]);
    }
    UnawaitedResultChangesNothing(c, Run(c, s, es), e);
  }

  /** So the second delivery of any result changes nothing, however much later it comes. */
  lemma SecondResultChangesNothing(c: Constitution, s: Server, first: Event, es: seq<Event>, second: Event)
    requires first.Result? && second.Result? && first.correlation == second.correlation && first.correlation.Some?
    requires first.correlation.value < |s.wire| && Enabled(c, s, first)
    ensures var s' := Run(c, Step(c, s, first), es);
            Step(c, s', second) == s'
  {
    StepResolvesOne(c, s, first);
    LateResultsChangeNothing(c, Step(c, s, first), es, second);
  }

  lemma ResolvedAppend(l: Ledger, l': Ledger, row: ResultRow, action: nat)
    requires l'.results == l.results + [row] && action != row.action
    ensures Resolved(l', action) <==> Resolved(l, action)
  {
    if Resolved(l, action) {
      var r :| r in l.results && r.action == action;
      assert r in l'.results;
    }
  }

  /** An orphaned action stays orphaned for ever: no later event can give it a result. */
  lemma {:induction false} OrphansStay(c: Constitution, start: seq<Event>, es: seq<Event>, action: nat)
    requires Orphaned(Run(c, BOOT, start), action)
    ensures Orphaned(Run(c, Run(c, BOOT, start), es), action)
  {
    if es != [] {
      var n := |es| - 1;
      var s := Run(c, Run(c, BOOT, start), es[..n]);
      OrphansStay(c, start, es[..n], action);
      RunConcat(c, BOOT, start, es[..n]);
      RunIsSound(c, start + es[..n]);
      StepIsSound(c, s, es[n]);
      StepResolvesOne(c, s, es[n]);
      var s' := Step(c, s, es[n]);
      if s'.ledger.results != s.ledger.results {
        var m := es[n].correlation.value;
        assert s.pendingActions[m].action != action;
        ResolvedAppend(s.ledger, s'.ledger, ResultRow(s.pendingActions[m].action, es[n].cost, es[n].failed), action);
      }
    }
  }

  // --- Rollbacks ---------------------------------------------------------------------------------------

  /** Each action causes at most one automatic rollback, and it goes to the snapshot its own command
      was written with. */
  lemma EachActionRollsBackOnce(c: Constitution, es: seq<Event>, i: nat)
    requires var l := Run(c, BOOT, es).ledger;
             i < |l.rollbacks| && l.rollbacks[i].trigger.Automatic?
    ensures var s := Run(c, BOOT, es);
            var cause := s.ledger.rollbacks[i].trigger.action;
            && (forall j :: 0 <= j < |s.ledger.rollbacks| && j != i ==> s.ledger.rollbacks[j].trigger != Automatic(cause))
            && (exists m :: 0 <= m < |s.wire| && s.wire[m].action == cause && s.wire[m].snapshot == s.ledger.rollbacks[i].snapshot)
            && (forall m :: 0 <= m < |s.wire| && s.wire[m].action == cause ==> s.wire[m].snapshot == s.ledger.rollbacks[i].snapshot)
  {
    RunIsSound(c, es);
    SoundRollsBackOnce(c, Run(c, BOOT, es), i);
  }

  lemma SoundRollsBackOnce(c: Constitution, s: Server, i: nat)
    requires Sound(c, s) && i < |s.ledger.rollbacks| && s.ledger.rollbacks[i].trigger.Automatic?
    ensures var cause := s.ledger.rollbacks[i].trigger.action;
            && (forall j :: 0 <= j < |s.ledger.rollbacks| && j != i ==> s.ledger.rollbacks[j].trigger != Automatic(cause))
            && (exists m :: 0 <= m < |s.wire| && s.wire[m].action == cause && s.wire[m].snapshot == s.ledger.rollbacks[i].snapshot)
            && (forall m :: 0 <= m < |s.wire| && s.wire[m].action == cause ==> s.wire[m].snapshot == s.ledger.rollbacks[i].snapshot)
  {
    var row := s.ledger.rollbacks[i];
    assert DispatchedTo(s.wire, row.trigger.action, row.snapshot);
    var m :| 0 <= m < |s.wire| && s.wire[m].action == row.trigger.action && s.wire[m].snapshot == row.snapshot;
    forall n | 0 <= n < |s.wire| && s.wire[n].action == row.trigger.action ensures n == m {
    }
    forall j | 0 <= j < |s.ledger.rollbacks| && j != i ensures s.ledger.rollbacks[j].trigger != row.trigger {
      if j < i && s.ledger.rollbacks[j].trigger.Automatic? {
        assert s.ledger.rollbacks[j].trigger != s.ledger.rollbacks[i].trigger;
      }
    }
  }
}
