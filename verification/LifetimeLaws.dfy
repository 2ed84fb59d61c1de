/** Runs and governor lifetimes: the governor of any reachable state is what the requests that reached it
    make of a fresh one, so the laws about lifetimes are laws about runs. */
module LifetimeLaws {
  import opened Common
  import opened Governors
  import opened GovernorLaws
  import opened WorldModels
  import opened Ledgers
  import opened Servers
  import opened Watchdogs
  import opened Runs
  import opened SafetyLaws
  import opened LedgerLaws
  import opened OutcomeLaws
  import opened RateLaws

  /** What one proposal asks of the governor. */
  function AskedOnce(c: Constitution, s: Server, simulation: Uuid, tick: nat, p: Proposal, f: ProposalFaults): seq<Request> {
    if Reaches(c, s, simulation, tick, p, f) then [Request(p, tick, s.clock + f.wait)] else []
  }

  /** What the proposals of one snapshot asked of the governor. */
  function AskedBy(c: Constitution, s: Server, simulation: Uuid, tick: nat, cash: int, ps: seq<Proposal>,
                   fs: seq<ProposalFaults>): seq<Request>
    requires |ps| <= |fs|
  {
    if ps == [] then []
    else
      var n := |ps| - 1;
      var mid := HandleProposals(c, s, simulation, tick, cash, ps[..n], fs);
      AskedBy(c, s, simulation, tick, cash, ps[..n], fs) + AskedOnce(c, mid, simulation, tick, ps[n], fs[n])
  }

  /** What the present process's governor has been asked over a whole run. */
  function Asked(c: Constitution, es: seq<Event>): seq<Request> {
    if es == [] then []
    else
      var n := |es| - 1;
      var s, e := Run(c, BOOT, es[..n]), es[n];
      if !Enabled(c, s, e) then Asked(c, es[..n])
      else if e.Start? && Step(c, s, e).up then []
      else if e.Snapshot? then
        Asked(c, es[..n]) + AskedBy(c, Drained(c, s, e), s.connection.value, CurrentTick(s), e.observation.cash,
                                    ProposalsOn(c, s, e.observation), e.proposals)
      else Asked(c, es[..n])
  }

  /** The governor is what these requests make of a fresh one. */
  ghost predicate Lives(c: Constitution, s: Server, rs: seq<Request>) {
    Ascending(rs) && Clock(rs) <= s.clock && After(c, rs) == s.governor && Grants(c, rs) == s.granted
  }

  lemma AscendingAppend(rs: seq<Request>, r: Request)
    requires Ascending(rs) && Clock(rs) <= r.at
    ensures Ascending(rs + [r]) && Clock(rs + [r]) == r.at
  {
    forall i, j | 0 <= i < j < |rs + [r]| ensures (rs + [r])[i].at <= (rs + [r])[j].at {
      if j == |rs| {
        assert rs[i].at <= rs[|rs| - 1].at;
      }
    }
  }

  lemma AfterAppend(c: Constitution, rs: seq<Request>, r: Request)
    ensures var (g, verdict) := Ruling(c, After(c, rs), r.proposal, r.tick, r.at);
            After(c, rs + [r]) == g && Grants(c, rs + [r]) == Extend(Grants(c, rs), verdict, r.proposal, r.tick, r.at)
  {
    VerdictsAppend(c, rs, r);
    assert (rs + [r])[..|rs|] == rs;
  }

  lemma RequestLives(c: Constitution, s: Server, rs: seq<Request>, p: Proposal, tick: nat, now: nat)
    requires Lives(c, s, rs) && s.clock <= now
    ensures forall s' :: RuledOn(c, s, s', p, tick, now) ==> Lives(c, s', rs + [Request(p, tick, now)])
  {
    AscendingAppend(rs, Request(p, tick, now));
    AfterAppend(c, rs, Request(p, tick, now));
  }

  lemma NoRequestLives(c: Constitution, s: Server, rs: seq<Request>)
    requires Lives(c, s, rs)
    ensures forall s' :: Unruled(s, s') ==> Lives(c, s', rs + [])
  {
    assert rs + [] == rs;
  }

  lemma {:induction false} ProposalsLive(c: Constitution, s: Server, rs: seq<Request>, simulation: Uuid, tick: nat, cash: int,
                                         ps: seq<Proposal>, fs: seq<ProposalFaults>)
    requires |ps| <= |fs| && Lives(c, s, rs)
    ensures Lives(c, HandleProposals(c, s, simulation, tick, cash, ps, fs), rs + AskedBy(c, s, simulation, tick, cash, ps, fs))
  {
    if ps == [] {
      assert rs + [] == rs;
    } else {
      var n := |ps| - 1;
      var mid := HandleProposals(c, s, simulation, tick, cash, ps[..n], fs);
      var before := AskedBy(c, s, simulation, tick, cash, ps[..n], fs);
      ProposalsLive(c, s, rs, simulation, tick, cash, ps[..n], fs);
      ProposalLives(c, mid, rs + before, simulation, tick, cash, ps[n], fs[n]);
      Associative(rs, before, AskedOnce(c, mid, simulation, tick, ps[n], fs[n]));
    }
  }

  lemma Associative(a: seq<Request>, b: seq<Request>, d: seq<Request>)
    ensures (a + b) + d == a + (b + d)
  {
  }

  /** Ruled on if it reached the governor, else not. */
  ghost predicate RuledIfReached(c: Constitution, s: Server, s': Server, simulation: Uuid, tick: nat, p: Proposal, f: ProposalFaults) {
    if Reaches(c, s, simulation, tick, p, f) then RuledOn(c, s, s', p, tick, s.clock + f.wait) else Unruled(s, s')
  }

  lemma ProposalLives(c: Constitution, s: Server, rs: seq<Request>, simulation: Uuid, tick: nat, cash: int, p: Proposal, f: ProposalFaults)
    requires Lives(c, s, rs)
    ensures Lives(c, HandleProposal(c, s, simulation, tick, cash, p, f), rs + AskedOnce(c, s, simulation, tick, p, f))
  {
    ReachedLives(c, s, rs, simulation, tick, p, f);
    IsRuledIfReached(c, s, simulation, tick, cash, p, f);
  }

  lemma IsRuledIfReached(c: Constitution, s: Server, simulation: Uuid, tick: nat, cash: int, p: Proposal, f: ProposalFaults)
    ensures RuledIfReached(c, s, HandleProposal(c, s, simulation, tick, cash, p, f), simulation, tick, p, f)
  {
    ReachesOrNot(c, s, simulation, tick, cash, p, f);
  }

  lemma ReachedLives(c: Constitution, s: Server, rs: seq<Request>, simulation: Uuid, tick: nat, p: Proposal, f: ProposalFaults)
    requires Lives(c, s, rs)
    ensures forall s' :: RuledIfReached(c, s, s', simulation, tick, p, f) ==> Lives(c, s', rs + AskedOnce(c, s, simulation, tick, p, f))
  {
    RequestLives(c, s, rs, p, tick, s.clock + f.wait);
    NoRequestLives(c, s, rs);
  }

  /** Every event but a successful start and a snapshot leaves governor and grants alone; time may pass. */
  lemma OtherEventsAskNothing(c: Constitution, s: Server, e: Event)
    requires Enabled(c, s, e) && !e.Snapshot? && !(e.Start? && Step(c, s, e).up)
    ensures var s' := Step(c, s, e);
            s'.governor == s.governor && s'.granted == s.granted && s.clock <= s'.clock
  {
    if e.Hello? || e.Heartbeat? || e.WatchdogPoll? || e.Resolve? {
      LightStepFrame(c, s, e);
    } else if e.Result? {
      ResultKeepsActions(c, s, s.connection.value, e.correlation, e.cost, e.failed, e.insert, e.rollback);
    }
  }

  lemma {:induction false} ProposalsTakeTime(c: Constitution, s: Server, simulation: Uuid, tick: nat, cash: int,
                                             ps: seq<Proposal>, fs: seq<ProposalFaults>)
    requires |ps| <= |fs|
    ensures s.clock <= HandleProposals(c, s, simulation, tick, cash, ps, fs).clock
  {
    if ps != [] {
      var n := |ps| - 1;
      ProposalsTakeTime(c, s, simulation, tick, cash, ps[..n], fs);
      ReachesOrNot(c, HandleProposals(c, s, simulation, tick, cash, ps[..n], fs), simulation, tick, cash, ps[n], fs[n]);
    }
  }

  lemma ClockNeverRunsBack(c: Constitution, s: Server, e: Event)
    ensures s.clock <= Step(c, s, e).clock
  {
    if Enabled(c, s, e) {
      if e.Snapshot? {
        var s1 := s.(history := Suffix(s.history + [e.observation], MAX_HISTORY));
        VerifyAllFrame(c, s1, s.connection.value, CurrentTick(s), e.observation.cash, e.order, e.rollbacks);
        ProposalsTakeTime(c, Drained(c, s, e), s.connection.value, CurrentTick(s), e.observation.cash,
                          ProposalsOn(c, s, e.observation), e.proposals);
      } else if !e.Start? {
        OtherEventsAskNothing(c, s, e);
      }
    }
  }

  lemma SnapshotLives(c: Constitution, s: Server, rs: seq<Request>, e: Event)
    requires Lives(c, s, rs) && e.Snapshot? && Enabled(c, s, e)
    ensures Lives(c, Step(c, s, e),
                  rs + AskedBy(c, Drained(c, s, e), s.connection.value, CurrentTick(s), e.observation.cash,
                               ProposalsOn(c, s, e.observation), e.proposals))
  {
    var s1 := s.(history := Suffix(s.history + [e.observation], MAX_HISTORY));
    VerifyAllFrame(c, s1, s.connection.value, CurrentTick(s), e.observation.cash, e.order, e.rollbacks);
    ProposalsLive(c, Drained(c, s, e), rs, s.connection.value, CurrentTick(s), e.observation.cash,
                  ProposalsOn(c, s, e.observation), e.proposals);
  }

  lemma {:induction false} RunLives(c: Constitution, es: seq<Event>)
    ensures Lives(c, Run(c, BOOT, es), Asked(c, es))
  {
    if es != [] {
      var n := |es| - 1;
      var s, e := Run(c, BOOT, es[..n]), es[n];
      RunLives(c, es[..n]);
      if Enabled(c, s, e) {
        if e.Snapshot? {
          SnapshotLives(c, s, Asked(c, es[..n]), e);
        } else if !(e.Start? && Step(c, s, e).up) {
          OtherEventsAskNothing(c, s, e);
        }
      }
    }
  }

  /** Over every run: what a governor decides depends on no proposal but those it granted. Delete any others
      of those that reached it (those blocked before never did): every remaining verdict, every grant, and
      the answer to any next proposal are the same. */
  lemma {:induction false} UnauthorizedProposalsAreInvisible(c: Constitution, es: seq<Event>, marks: seq<bool>, p: Proposal, tick: nat, now: nat)
    requires |marks| == |Asked(c, es)| && Run(c, BOOT, es).clock <= now
    requires forall i :: 0 <= i < |marks| && Verdicts(c, Asked(c, es))[i].Authorized? ==> marks[i]
    ensures var s := Run(c, BOOT, es);
            var kept := Keep(Asked(c, es), marks);
            && Verdicts(c, kept) == Keep(Verdicts(c, Asked(c, es)), marks)
            && Grants(c, kept) == s.granted
            && Ruling(c, After(c, kept), p, tick, now).1 == Ruling(c, s.governor, p, tick, now).1
  {
    RunLives(c, es);
    LifetimeIgnoresRejections(c, Asked(c, es), marks, p, tick, now);
  }

  lemma LifetimeIgnoresRejections(c: Constitution, rs: seq<Request>, marks: seq<bool>, p: Proposal, tick: nat, now: nat)
    requires Ascending(rs) && |marks| == |rs| && Clock(rs) <= now
    requires forall i :: 0 <= i < |rs| && Verdicts(c, rs)[i].Authorized? ==> marks[i]
    ensures var kept := Keep(rs, marks);
            && Verdicts(c, kept) == Keep(Verdicts(c, rs), marks) && Grants(c, kept) == Grants(c, rs)
            && Ruling(c, After(c, kept), p, tick, now).1 == Ruling(c, After(c, rs), p, tick, now).1
  {
    var kept := Keep(rs, marks);
    RejectionsAreInvisible(c, rs, marks);
    KeepAscending(rs, marks);
    LifetimeRepresents(c, rs);
    LifetimeRepresents(c, kept);
    assert Clock(kept) <= now by {
      if kept != [] {
        assert kept[|kept| - 1] in kept;
      }
    }
    VerdictMatchesReference(c, After(c, rs), Grants(c, rs), Clock(rs), p, tick, now);
    VerdictMatchesReference(c, After(c, kept), Grants(c, kept), Clock(kept), p, tick, now);
  }
}
