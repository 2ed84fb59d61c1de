/** What becomes of a command that was sent: exactly when its result is recorded, when it is verified,
    and when it is rolled back. */
module OutcomeLaws {
  import opened Common
  import opened SafetyStates
  import opened Governors
  import opened WorldModels
  import opened Ledgers
  import opened SafetyReading
  import opened Servers
  import opened Runs
  import opened LedgerLaws
  import RecoveryLaws
  import SafetyLaws

  /** The restore reached the ledger, whether or not the caller learned of it. */
  predicate RestoreRecorded(l: Ledger, snapshot: nat, f: RestoreFaults) {
    && f.answered && f.copied && !f.insert.Refused?
    && snapshot < |l.snapshots| && l.snapshots[snapshot].simulation in l.simulations
  }

  /** A rollback is recorded, for its action and snapshot, exactly when the restore is. */
  lemma TriggerRecordsIff(c: Constitution, l: Ledger, simulation: Uuid, snapshot: nat, action: nat, tick: nat, f: RollbackFaults)
    ensures var l' := TriggerRollback(c, l, simulation, snapshot, action, tick, f);
            if RestoreRecorded(l, snapshot, f.restore)
            then l'.rollbacks == l.rollbacks + [RollbackRow(l.snapshots[snapshot].simulation, snapshot, Automatic(action))]
            else l'.rollbacks == l.rollbacks
  {
    var (l1, state) := ReadSafety(l, Some(simulation), tick, f.read);
    ReadIsFaithful(l, Some(simulation), tick, f.read);
    var (l2, _) := AddTransition(l1, RollbackEntered(simulation, state.GetOr(Normal)), f.enter);
    assert l2.snapshots == l.snapshots && l2.simulations == l.simulations && l2.rollbacks == l.rollbacks;
  }

  lemma RolledBackAppend(l: Ledger, l': Ledger, row: RollbackRow, action: nat)
    requires l'.rollbacks == l.rollbacks + [row]
    ensures RolledBack(l', action) <==> RolledBack(l, action) || row.trigger == Automatic(action)
  {
    if RolledBack(l, action) {
      var i :| 0 <= i < |l.rollbacks| && l.rollbacks[i].trigger == Automatic(action);
      assert l'.rollbacks[i].trigger == Automatic(action);
    }
    if row.trigger == Automatic(action) {
      assert l'.rollbacks[|l.rollbacks|].trigger == Automatic(action);
    }
  }

  lemma TriggerRollsBackIff(c: Constitution, l: Ledger, simulation: Uuid, snapshot: nat, action: nat, tick: nat,
                            f: RollbackFaults, watched: nat)
    ensures RolledBack(TriggerRollback(c, l, simulation, snapshot, action, tick, f), watched) <==>
            RolledBack(l, watched) || (watched == action && RestoreRecorded(l, snapshot, f.restore))
  {
    TriggerRecordsIff(c, l, simulation, snapshot, action, tick, f);
    if RestoreRecorded(l, snapshot, f.restore) {
      RolledBackAppend(l, TriggerRollback(c, l, simulation, snapshot, action, tick, f),
                       RollbackRow(l.snapshots[snapshot].simulation, snapshot, Automatic(action)), watched);
    } else {
      RolledBackDependsOn(l, TriggerRollback(c, l, simulation, snapshot, action, tick, f), watched);
    }
  }

  lemma RolledBackDependsOn(l: Ledger, l': Ledger, action: nat)
    requires l'.rollbacks == l.rollbacks
    ensures RolledBack(l', action) <==> RolledBack(l, action)
  {
  }

  // --- Results -------------------------------------------------------------------------------

  /** What an awaited result leads to. */
  ghost predicate ResultHandled(s: Server, s': Server, message: nat, failed: bool, insert: Write, f: RollbackFaults) {
    && message in s.pendingActions
    && var pending := s.pendingActions[message];
    && s'.pendingActions == s.pendingActions - {message}
    && (Resolved(s'.ledger, pending.action) <==> !insert.Refused?)
    && s'.pendingVerifications ==
       (if insert.Committed? && !failed
        then s.pendingVerifications[pending.action := PendingVerification(pending.snapshot, pending.cashBefore)]
        else s.pendingVerifications)
    && (RolledBack(s'.ledger, pending.action) <==>
          insert.Committed? && failed && RestoreRecorded(s.ledger, pending.snapshot, f.restore))
  }

  /** In every reachable state, the result of an awaited command is recorded unless the database refuses
      it; a success then awaits verification against the command's own snapshot and cash, a failure is
      rolled back, and neither happens when the record is in doubt. */
  lemma AwaitedResultIsHandled(c: Constitution, es: seq<Event>, message: nat, cost: Option<int>, failed: bool,
                               insert: Write, f: RollbackFaults)
    requires message in Run(c, BOOT, es).pendingActions && Run(c, BOOT, es).up
    ensures var s := Run(c, BOOT, es);
            ResultHandled(s, Step(c, s, Result(Some(message), cost, failed, insert, f)), message, failed, insert, f)
  {
    RunIsSound(c, es);
    SoundResultEvent(c, Run(c, BOOT, es), message, cost, failed, insert, f);
  }

  lemma SoundResultEvent(c: Constitution, s: Server, message: nat, cost: Option<int>, failed: bool, insert: Write, f: RollbackFaults)
    requires Sound(c, s) && message in s.pendingActions && s.up
    ensures ResultHandled(s, Step(c, s, Result(Some(message), cost, failed, insert, f)), message, failed, insert, f)
  {
    assert s.connection.Some?;
    SoundResult(c, s, s.connection.value, message, cost, failed, insert, f);
    ResultEvent(c, s, message, cost, failed, insert, f);
  }

  lemma ResultEvent(c: Constitution, s: Server, message: nat, cost: Option<int>, failed: bool, insert: Write, f: RollbackFaults)
    requires s.up && s.connection.Some?
    ensures Step(c, s, Result(Some(message), cost, failed, insert, f)) ==
            HandleResult(c, s, s.connection.value, Some(message), cost, failed, insert, f)
  {
  }

  lemma SoundResult(c: Constitution, s: Server, simulation: Uuid, message: nat, cost: Option<int>, failed: bool,
                    insert: Write, f: RollbackFaults)
    requires Sound(c, s) && message in s.pendingActions
    ensures ResultHandled(s, HandleResult(c, s, simulation, Some(message), cost, failed, insert, f), message, failed, insert, f)
  {
    assert AwaitedSoundly(s.ledger, s.wire, message, s.pendingActions[message]);
    assert Linked(c, s.ledger, s.wire[message]);
    if !insert.Committed? {
      DoubtfulResult(c, s, simulation, message, cost, failed, insert, f);
    } else if failed {
      FailedResult(c, s, simulation, message, cost, f);
    } else {
      GoodResult(c, s, simulation, message, cost, f);
    }
  }

  /** The action exists, with neither a result nor a rollback. */
  ghost predicate Awaits(s: Server, message: nat) {
    && message in s.pendingActions && s.pendingActions[message].action < |s.ledger.actions|
    && !Resolved(s.ledger, s.pendingActions[message].action) && !RolledBack(s.ledger, s.pendingActions[message].action)
  }

  lemma RecordedResult(l: Ledger, row: ResultRow, insert: Write)
    requires row.action < |l.actions| && !Resolved(l, row.action)
    ensures Resolved(AddResult(l, row, insert).0, row.action) <==> !insert.Refused?
  {
    if !insert.Refused? {
      assert row in AddResult(l, row, insert).0.results;
    }
  }

  lemma DoubtfulResult(c: Constitution, s: Server, simulation: Uuid, message: nat, cost: Option<int>, failed: bool,
                       insert: Write, f: RollbackFaults)
    requires Awaits(s, message) && !insert.Committed?
    ensures ResultHandled(s, HandleResult(c, s, simulation, Some(message), cost, failed, insert, f), message, failed, insert, f)
  {
    var row := ResultRow(s.pendingActions[message].action, cost, failed);
    RecordedResult(s.ledger, row, insert);
    RolledBackDependsOn(s.ledger, AddResult(s.ledger, row, insert).0, row.action);
  }

  lemma GoodResult(c: Constitution, s: Server, simulation: Uuid, message: nat, cost: Option<int>, f: RollbackFaults)
    requires Awaits(s, message)
    ensures ResultHandled(s, HandleResult(c, s, simulation, Some(message), cost, false, Committed, f), message, false, Committed, f)
  {
    var row := ResultRow(s.pendingActions[message].action, cost, false);
    RecordedResult(s.ledger, row, Committed);
    RolledBackDependsOn(s.ledger, AddResult(s.ledger, row, Committed).0, row.action);
  }

  lemma FailedResult(c: Constitution, s: Server, simulation: Uuid, message: nat, cost: Option<int>, f: RollbackFaults)
    requires Awaits(s, message)
    ensures ResultHandled(s, HandleResult(c, s, simulation, Some(message), cost, true, Committed, f), message, true, Committed, f)
  {
    var pending := s.pendingActions[message];
    var row := ResultRow(pending.action, cost, true);
    var l := AddResult(s.ledger, row, Committed).0;
    var l' := TriggerRollback(c, l, simulation, pending.snapshot, pending.action, CurrentTick(s), f);
    RecordedResult(s.ledger, row, Committed);
    RolledBackDependsOn(s.ledger, l, row.action);
    TriggerRollsBackIff(c, l, simulation, pending.snapshot, pending.action, CurrentTick(s), f, pending.action);
    RecoveryLaws.TriggerFrame(c, l, simulation, pending.snapshot, pending.action, CurrentTick(s), f);
    assert Resolved(l', pending.action) <==> Resolved(l, pending.action);
  }

  // --- Verification ------------------------------------------------------------------------------

  lemma ProposalKeepsRollbacks(c: Constitution, s: Server, simulation: Uuid, tick: nat, cash: int, p: Proposal, f: ProposalFaults)
    ensures HandleProposal(c, s, simulation, tick, cash, p, f).ledger.rollbacks == s.ledger.rollbacks
  {
    ScreenIsSound(c, s.ledger, simulation, tick, p, f);
  }

  lemma {:induction false} ProposalsKeepRollbacks(c: Constitution, s: Server, simulation: Uuid, tick: nat, cash: int,
                                                  ps: seq<Proposal>, fs: seq<ProposalFaults>)
    requires |ps| <= |fs|
    ensures HandleProposals(c, s, simulation, tick, cash, ps, fs).ledger.rollbacks == s.ledger.rollbacks
  {
    if ps != [] {
      var n := |ps| - 1;
      ProposalsKeepRollbacks(c, s, simulation, tick, cash, ps[..n], fs);
      ProposalKeepsRollbacks(c, HandleProposals(c, s, simulation, tick, cash, ps[..n], fs), simulation, tick, cash, ps[n], fs[n]);
    }
  }

  /** Draining rolls an action back if and only if its turn comes, its cash dropped, and its restore
      is recorded. */
  lemma {:induction false} VerifyAllRollsBackIff(c: Constitution, s: Server, simulation: Uuid, tick: nat, cash: int,
                                                 order: seq<nat>, fs: seq<RollbackFaults>, action: nat)
    requires |order| <= |fs| && forall j, k :: 0 <= j < k < |order| ==> order[j] != order[k]
    ensures RolledBack(VerifyAll(c, s, simulation, tick, cash, order, fs).ledger, action) <==>
            || RolledBack(s.ledger, action)
            || exists i :: 0 <= i < |order| && order[i] == action && DropsAndRestores(c, s, cash, action, fs[i])
  {
    if order != [] {
      var n := |order| - 1;
      VerifyAllRollsBackIff(c, s, simulation, tick, cash, order[..n], fs, action);
      RecoveryLaws.VerifyAllTables(c, s, simulation, tick, cash, order[..n], fs);
      var mid := VerifyAll(c, s, simulation, tick, cash, order[..n], fs);
      assert order[n] !in order[..n];
      assert order[n] in mid.pendingVerifications <==> order[n] in s.pendingVerifications;
      VerifyOneRollsBackIff(c, mid, simulation, tick, cash, order[n], fs[n], action);
      if i :| 0 <= i < n && order[..n][i] == action && DropsAndRestores(c, s, cash, action, fs[i]) {
        assert order[i] == action;
      }
      assert DropsAndRestores(c, mid, cash, order[n], fs[n]) <==> DropsAndRestores(c, s, cash, order[n], fs[n]);
      if i :| 0 <= i < |order| && order[i] == action && DropsAndRestores(c, s, cash, action, fs[i]) {
        assert i < n ==> order[..n][i] == action;
      }
    }
  }

  predicate DropsAndRestores(c: Constitution, s: Server, cash: int, action: nat, f: RollbackFaults) {
    && action in s.pendingVerifications && s.pendingVerifications[action].cashBefore - cash > c.maxUnexpectedCashDrop
    && RestoreRecorded(s.ledger, s.pendingVerifications[action].snapshot, f.restore)
  }

  lemma VerifyOneRollsBackIff(c: Constitution, s: Server, simulation: Uuid, tick: nat, cash: int, action: nat,
                              f: RollbackFaults, watched: nat)
    ensures RolledBack(VerifyOne(c, s, simulation, tick, cash, action, f).ledger, watched) <==>
            RolledBack(s.ledger, watched) || (watched == action && DropsAndRestores(c, s, cash, action, f))
  {
    if action in s.pendingVerifications && s.pendingVerifications[action].cashBefore - cash > c.maxUnexpectedCashDrop {
      TriggerRollsBackIff(c, s.ledger, simulation, s.pendingVerifications[action].snapshot, action, tick, f, watched);
    }
  }

  /** In every reachable state, the next snapshot verifies every command whose action awaits it, each once and
      for good. It rolls the action of command `m` back, to that command's own snapshot, if and only if the
      cash observed is less than the cash the command was sent at by more than the limit, and the restore
      goes through. */
  lemma {:induction false} SnapshotVerifiesEveryCommand(c: Constitution, es: seq<Event>, e: Event, m: nat)
    requires e.Snapshot? && Enabled(c, Run(c, BOOT, es), e)
    requires m < |Run(c, BOOT, es).wire| && Run(c, BOOT, es).wire[m].action in Run(c, BOOT, es).pendingVerifications
    ensures var s := Run(c, BOOT, es);
            var s' := Step(c, s, e);
            && s'.pendingVerifications == map[]
            && exists i :: && 0 <= i < |e.order| && e.order[i] == s.wire[m].action
                           && (RolledBack(s'.ledger, s.wire[m].action) <==>
                                 && s.wire[m].cash - e.observation.cash > c.maxUnexpectedCashDrop
                                 && RestoreRecorded(s.ledger, s.wire[m].snapshot, e.rollbacks[i].restore))
  {
    RunIsSound(c, es);
    SoundCommand(c, Run(c, BOOT, es), e, m);
  }

  lemma SoundCommand(c: Constitution, s: Server, e: Event, m: nat)
    requires Sound(c, s) && e.Snapshot? && Enabled(c, s, e) && m < |s.wire| && s.wire[m].action in s.pendingVerifications
    ensures var s' := Step(c, s, e);
            && s'.pendingVerifications == map[]
            && exists i :: && 0 <= i < |e.order| && e.order[i] == s.wire[m].action
                           && (RolledBack(s'.ledger, s.wire[m].action) <==>
                                 && s.wire[m].cash - e.observation.cash > c.maxUnexpectedCashDrop
                                 && RestoreRecorded(s.ledger, s.wire[m].snapshot, e.rollbacks[i].restore))
  {
    var action := s.wire[m].action;
    DrainsAll(e.order, s.pendingVerifications);
    var i :| 0 <= i < |e.order| && e.order[i] == action;
    BaselineIsCommands(s, m);
    SoundSnapshot(c, s, e, i);
  }

  /** What an action is verified against is what its command was sent with. */
  lemma BaselineIsCommands(s: Server, m: nat)
    requires PendingSound(s) && OneWriteEach(s.wire) && m < |s.wire| && s.wire[m].action in s.pendingVerifications
    ensures s.pendingVerifications[s.wire[m].action] == PendingVerification(s.wire[m].snapshot, s.wire[m].cash)
  {
    var v := s.pendingVerifications[s.wire[m].action];
    assert VerifiedSoundly(s.ledger, s.wire, s.wire[m].action, v);
    var k :| 0 <= k < |s.wire| && s.wire[k].action == s.wire[m].action && s.wire[k].snapshot == v.snapshot && s.wire[k].cash == v.cashBefore;
  }

  /** The state right after the snapshot's verifications. */
  function Drained(c: Constitution, s: Server, e: Event): Server
    requires e.Snapshot? && Enabled(c, s, e)
  {
    VerifyAll(c, s.(history := Suffix(s.history + [e.observation], MAX_HISTORY)), s.connection.value, CurrentTick(s),
              e.observation.cash, e.order, e.rollbacks)
  }

  lemma SnapshotShape(c: Constitution, s: Server, e: Event)
    requires e.Snapshot? && Enabled(c, s, e)
    ensures var s' := Step(c, s, e);
            && s'.pendingVerifications == map[]
            && s'.ledger.rollbacks == Drained(c, s, e).ledger.rollbacks
  {
    var tick, o, simulation := CurrentTick(s), e.observation, s.connection.value;
    var s2 := Drained(c, s, e);
    DrainsAll(e.order, s.pendingVerifications);
    RecoveryLaws.VerifyAllTables(c, s.(history := Suffix(s.history + [o], MAX_HISTORY)), simulation, tick, o.cash, e.order, e.rollbacks);
    SafetyLaws.ProposalsFrame(c, s2, simulation, tick, o.cash, ProposalsOn(c, s, o), e.proposals);
    ProposalsKeepRollbacks(c, s2, simulation, tick, o.cash, ProposalsOn(c, s, o), e.proposals);
  }

  lemma DrainedRollsBackIff(c: Constitution, s: Server, e: Event, i: nat)
    requires Sound(c, s) && e.Snapshot? && Enabled(c, s, e) && i < |e.order|
    ensures RolledBack(Drained(c, s, e).ledger, e.order[i]) <==>
            DropsAndRestores(c, s, e.observation.cash, e.order[i], e.rollbacks[i])
  {
    var s1 := s.(history := Suffix(s.history + [e.observation], MAX_HISTORY));
    DrainsAll(e.order, s.pendingVerifications);
    VerifyAllRollsBackIff(c, s1, s.connection.value, CurrentTick(s), e.observation.cash, e.order, e.rollbacks, e.order[i]);
    assert !RolledBack(s1.ledger, e.order[i]) by {
      assert e.order[i] in e.order;
      assert VerifiedSoundly(s.ledger, s.wire, e.order[i], s.pendingVerifications[e.order[i]]);
    }
    forall k | 0 <= k < |e.order| && e.order[k] == e.order[i] ensures k == i {
    }
  }

  lemma SoundSnapshot(c: Constitution, s: Server, e: Event, i: nat)
    requires Sound(c, s) && e.Snapshot? && Enabled(c, s, e) && i < |e.order|
    ensures var s' := Step(c, s, e);
            && s'.pendingVerifications == map[]
            && (RolledBack(s'.ledger, e.order[i]) <==> DropsAndRestores(c, s, e.observation.cash, e.order[i], e.rollbacks[i]))
  {
    SnapshotShape(c, s, e);
    DrainedRollsBackIff(c, s, e, i);
    RolledBackDependsOn(Drained(c, s, e).ledger, Step(c, s, e).ledger, e.order[i]);
  }
}
