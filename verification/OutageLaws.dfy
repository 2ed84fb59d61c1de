/** The watchdog over whole runs: its outage timer is what its own polls made of it, so what a poll does
    depends on when the outage really began. */
module OutageLaws {
  import opened Common
  import opened SafetyStates
  import opened Governors
  import opened Ledgers
  import opened Servers
  import opened Watchdogs
  import opened Runs
  import opened SafetyLaws
  import opened ResponseLaws
  import LifetimeLaws

  /** What the polls of a run starting in `s` found, in order. */
  function Probes(c: Constitution, s: Server, es: seq<Event>): seq<Probe> {
    if es == [] then []
    else
      var n := |es| - 1;
      var mid := Run(c, s, es[..n]);
      Probes(c, s, es[..n]) +
      if es[n].WatchdogPoll? && Enabled(c, mid, es[n]) then [Probe(mid.clock, es[n].faults.reachable)] else []
  }

  /** The next poll of a watchdog that came up in `s` and has polled through `es`. */
  function NextPoll(c: Constitution, s: Server, es: seq<Event>, f: PollFaults): Event {
    WatchdogPoll(TimerAfter(Probes(c, s, es)), f)
  }

  lemma {:induction false} ProbesAreInThePast(c: Constitution, s: Server, es: seq<Event>, i: nat)
    requires i < |Probes(c, s, es)|
    ensures Probes(c, s, es)[i].now <= Run(c, s, es).clock
  {
    var n := |es| - 1;
    LifetimeLaws.ClockNeverRunsBack(c, Run(c, s, es[..n]), es[n]);
    if i < |Probes(c, s, es[..n])| {
      ProbesAreInThePast(c, s, es[..n], i);
    }
  }

  /** The database has been out of reach since some probe, for long enough. */
  ghost predicate LongOutage(c: Constitution, probes: seq<Probe>, now: nat) {
    exists i: nat :: BeganOutage(probes, i) && probes[i].now + c.dbUnreachableStoppedAfterSecs * 1_000_000_000 <= now
  }

  /** The timer tells of a long outage if and only if there has been one. */
  lemma OutageEndedIff(c: Constitution, probes: seq<Probe>, now: nat)
    requires forall i :: 0 <= i < |probes| ==> probes[i].now <= now
    ensures OutageEnded(c, TimerAfter(probes), now) <==> LongOutage(c, probes, now)
  {
    TimerIsStartOfOutage(probes);
    if OutageEnded(c, TimerAfter(probes), now) {
      var i: nat :| BeganOutage(probes, i) && probes[i].now == TimerAfter(probes).value;
      assert probes[i].now + c.dbUnreachableStoppedAfterSecs * 1_000_000_000 <= now;
    }
  }

  lemma RunOutageEndedIff(c: Constitution, s: Server, es: seq<Event>)
    ensures OutageEnded(c, TimerAfter(Probes(c, s, es)), Run(c, s, es).clock) <==>
            LongOutage(c, Probes(c, s, es), Run(c, s, es).clock)
  {
    forall i | 0 <= i < |Probes(c, s, es)| ensures Probes(c, s, es)[i].now <= Run(c, s, es).clock {
      ProbesAreInThePast(c, s, es, i);
    }
    OutageEndedIff(c, Probes(c, s, es), Run(c, s, es).clock);
  }

  /** Over every run: when the database is reachable again, long enough after the first failed probe of the
      outage, and takes the row, the poll ends in Stopped, whatever its later checks do. */
  lemma {:induction false} LongOutageStops(c: Constitution, start: seq<Event>, es: seq<Event>, f: PollFaults)
    requires var s := Run(c, BOOT, start);
             LongOutage(c, Probes(c, s, es), Run(c, s, es).clock) && Enabled(c, Run(c, s, es), NextPoll(c, s, es, f))
    requires f.reachable && Answers(f.outage)
    ensures var s := Run(c, BOOT, start);
            Derived(Step(c, Run(c, s, es), NextPoll(c, s, es, f)).ledger.transitions, None, 0).Stopped?
  {
    var s := Run(c, BOOT, start);
    RunOutageEndedIff(c, s, es);
    RunConcat(c, BOOT, start, es);
    RunKeepsWellFormed(c, BOOT, start + es);
    OutageStops(c, Run(c, s, es).ledger, TimerAfter(Probes(c, s, es)), Run(c, s, es).clock, f);
  }

  /** Over every run, a poll in which everything answers leaves exactly the global state that the outage, the
      rate and the prices call for. */
  lemma {:induction false} PollResponds(c: Constitution, start: seq<Event>, es: seq<Event>, f: PollFaults)
    requires var s := Run(c, BOOT, start);
             EverythingAnswers(f) && Enabled(c, Run(c, s, es), NextPoll(c, s, es, f))
    ensures var s := Run(c, BOOT, start);
            var s' := Run(c, s, es);
            Derived(Step(c, s', NextPoll(c, s, es, f)).ledger.transitions, None, 0) ==
            Response(c, s'.ledger, LongOutage(c, Probes(c, s, es), s'.clock), s'.clock)
  {
    var s := Run(c, BOOT, start);
    RunOutageEndedIff(c, s, es);
    RunConcat(c, BOOT, start, es);
    RunKeepsWellFormed(c, BOOT, start + es);
    WellFormedPoll(c, Run(c, s, es).ledger, TimerAfter(Probes(c, s, es)), Run(c, s, es).clock, f);
  }
}
