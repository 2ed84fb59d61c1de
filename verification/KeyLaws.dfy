/** What an idempotency key tells: in every reachable ledger each action's key is the text of its own
    simulation, ride and tick, so a key is taken exactly when that ride was acted on at that tick. */
module KeyLaws {
  import opened Common
  import opened Governors
  import opened WorldModels
  import opened IdempotencyKeys
  import opened Ledgers
  import opened Servers
  import opened Runs
  import opened SafetyLaws
  import opened LedgerLaws
  import opened OutcomeLaws
  import RecoveryLaws
  import RateLaws

  ghost predicate KeyTells(l: Ledger, a: ActionRow) {
    SimulationOf(l, a).Some? && a.key == KeyText(SimulationOf(l, a).value, a.rideId, a.tick)
  }

  ghost predicate Keyed(l: Ledger) {
    forall i :: 0 <= i < |l.actions| ==> KeyTells(l, l.actions[i])
  }

  lemma SimulationExtends(l: Ledger, l': Ledger, a: ActionRow)
    requires Extends(l, l') && SimulationOf(l, a).Some?
    ensures SimulationOf(l', a) == SimulationOf(l, a)
  {
    assert l'.authorizations[a.authorization] == l'.authorizations[..|l.authorizations|][a.authorization];
    var p := l.authorizations[a.authorization].proposal;
    assert l'.proposals[p] == l'.proposals[..|l.proposals|][p];
  }

  lemma KeyedExtends(l: Ledger, l': Ledger)
    requires Extends(l, l') && Keyed(l)
    requires l'.actions == l.actions || (l'.actions == l.actions + [l'.actions[|l.actions|]] && KeyTells(l', l'.actions[|l.actions|]))
    ensures Keyed(l')
  {
    forall i | 0 <= i < |l'.actions| ensures KeyTells(l', l'.actions[i]) {
      if i < |l.actions| {
        assert KeyTells(l, l.actions[i]);
        SimulationExtends(l, l', l.actions[i]);
      }
    }
  }

  /** The new action of a proposal names the proposal's own simulation. */
  lemma ProposalAddsKeyed(c: Constitution, s: Server, simulation: Uuid, tick: nat, cash: int, p: Proposal, f: ProposalFaults)
    ensures var l, l' := s.ledger, HandleProposal(c, s, simulation, tick, cash, p, f).ledger;
            l'.actions == l.actions || (l'.actions == l.actions + [l'.actions[|l.actions|]] && KeyTells(l', l'.actions[|l.actions|]))
  {
    var (l, screened) := Screen(c, s.ledger, simulation, tick, p, f);
    ScreenIsSound(c, s.ledger, simulation, tick, p, f);
    if screened.Some? {
      var (s2, authorization) := Judge(c, s.(ledger := l), tick, p, screened.value.0, f);
      if authorization.Some? {
        assert s2.ledger.authorizations[authorization.value].proposal == screened.value.0;
        ExecuteAddsKeyed(s2, simulation, tick, cash, p, authorization.value, screened.value.1, f);
      }
    }
  }

  lemma ExecuteAddsKeyed(s: Server, simulation: Uuid, tick: nat, cash: int, p: Proposal, authorization: nat, snapshot: nat, f: ProposalFaults)
    requires SimulationOf(s.ledger, ActionFor(simulation, tick, p, authorization, s.clock)) == Some(simulation)
    ensures var l, l' := s.ledger, Execute(s, simulation, tick, cash, p, authorization, snapshot, f).ledger;
            l'.actions == l.actions || (l'.actions == l.actions + [l'.actions[|l.actions|]] && KeyTells(l', l'.actions[|l.actions|]))
  {
    var l' := Execute(s, simulation, tick, cash, p, authorization, snapshot, f).ledger;
    if l'.actions != s.ledger.actions {
      assert l'.actions[|s.ledger.actions|] == ActionFor(simulation, tick, p, authorization, s.clock);
    }
  }

  lemma {:induction false} ProposalsStayKeyed(c: Constitution, s: Server, simulation: Uuid, tick: nat, cash: int,
                                              ps: seq<Proposal>, fs: seq<ProposalFaults>)
    requires |ps| <= |fs| && Sound(c, s) && s.connection.Some? && Keyed(s.ledger)
    ensures Keyed(HandleProposals(c, s, simulation, tick, cash, ps, fs).ledger)
  {
    if ps != [] {
      var n := |ps| - 1;
      var mid := HandleProposals(c, s, simulation, tick, cash, ps[..n], fs);
      ProposalsStayKeyed(c, s, simulation, tick, cash, ps[..n], fs);
      ProposalsAreSound(c, s, simulation, tick, cash, ps[..n], fs);
      ProposalIsSound(c, mid, simulation, tick, cash, ps[n], fs[n]);
      ProposalAddsKeyed(c, mid, simulation, tick, cash, ps[n], fs[n]);
      KeyedExtends(mid.ledger, HandleProposals(c, s, simulation, tick, cash, ps, fs).ledger);
    }
  }

  lemma SnapshotStaysKeyed(c: Constitution, s: Server, e: Event)
    requires Sound(c, s) && Keyed(s.ledger) && e.Snapshot? && Enabled(c, s, e)
    ensures Keyed(Step(c, s, e).ledger)
  {
    DrainedIsSound(c, s, e);
    KeyedExtends(s.ledger, Drained(c, s, e).ledger);
    ProposalsStayKeyed(c, Drained(c, s, e), s.connection.value, CurrentTick(s), e.observation.cash, ProposalsOn(c, s, e.observation),
                       e.proposals);
    assert Step(c, s, e) == HandleProposals(c, Drained(c, s, e), s.connection.value, CurrentTick(s), e.observation.cash,
                                            ProposalsOn(c, s, e.observation), e.proposals);
  }

  lemma DrainedIsSound(c: Constitution, s: Server, e: Event)
    requires Sound(c, s) && e.Snapshot? && Enabled(c, s, e)
    ensures var s' := Drained(c, s, e);
            Sound(c, s') && Extends(s.ledger, s'.ledger) && s'.ledger.actions == s.ledger.actions && s'.connection == s.connection
  {
    var tick, o, simulation := CurrentTick(s), e.observation, s.connection.value;
    var s1 := s.(history := Suffix(s.history + [o], MAX_HISTORY));
    SoundDependsOn(c, s, s1);
    VerifyAllIsSound(c, s1, simulation, tick, o.cash, e.order, e.rollbacks);
    VerifyAllFrame(c, s1, simulation, tick, o.cash, e.order, e.rollbacks);
    RecoveryLaws.VerifyAllTables(c, s1, simulation, tick, o.cash, e.order, e.rollbacks);
  }

  /** Every other event leaves the actions alone. */
  lemma OtherEventsAddNoAction(c: Constitution, s: Server, e: Event)
    requires !e.Snapshot?
    ensures Step(c, s, e).ledger.actions == s.ledger.actions
  {
    if Enabled(c, s, e) {
      if e.Hello? || e.Heartbeat? || e.WatchdogPoll? || e.Resolve? {
        LightStepFrame(c, s, e);
      } else if e.Result? {
        RateLaws.ResultKeepsActions(c, s, s.connection.value, e.correlation, e.cost, e.failed, e.insert, e.rollback);
      }
    }
  }

  lemma {:induction false} RunIsKeyed(c: Constitution, es: seq<Event>)
    ensures Keyed(Run(c, BOOT, es).ledger)
  {
    if es != [] {
      var n := |es| - 1;
      var s := Run(c, BOOT, es[..n]);
      RunIsKeyed(c, es[..n]);
      RunIsSound(c, es[..n]);
      if es[n].Snapshot? && Enabled(c, s, es[n]) {
        SnapshotStaysKeyed(c, s, es[n]);
      } else if !es[n].Snapshot? {
        StepIsSound(c, s, es[n]);
        OtherEventsAddNoAction(c, s, es[n]);
        KeyedExtends(s.ledger, Run(c, BOOT, es).ledger);
      }
    }
  }

  /** The simulation's ride was acted on at this tick. */
  ghost predicate ActedOn(l: Ledger, simulation: Uuid, ride: nat, tick: nat) {
    exists i :: 0 <= i < |l.actions| && ActsOn(l, l.actions[i], simulation, ride, tick)
  }

  predicate ActsOn(l: Ledger, a: ActionRow, simulation: Uuid, ride: nat, tick: nat) {
    SimulationOf(l, a) == Some(simulation) && a.rideId == ride && a.tick == tick
  }

  /** A key is taken if and only if its own simulation, ride and tick have an action: no two collide. */
  lemma KeyTakenIff(l: Ledger, simulation: Uuid, ride: nat, tick: nat)
    requires Keyed(l)
    ensures KeyTaken(l.actions, KeyText(simulation, ride, tick)) <==> ActedOn(l, simulation, ride, tick)
  {
    if a :| a in l.actions && a.key == KeyText(simulation, ride, tick) {
      var i :| 0 <= i < |l.actions| && l.actions[i] == a;
      assert KeyTells(l, l.actions[i]);
      KeyTextInjective(SimulationOf(l, a).value, a.rideId, a.tick, simulation, ride, tick);
      assert ActsOn(l, l.actions[i], simulation, ride, tick);
    }
    if i :| 0 <= i < |l.actions| && ActsOn(l, l.actions[i], simulation, ride, tick) {
      assert KeyTells(l, l.actions[i]);
      assert l.actions[i] in l.actions;
    }
  }
}
