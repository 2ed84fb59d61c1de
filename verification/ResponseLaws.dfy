/** What clears a safety state and what raises one: heartbeats, the `resolve` command, and the
    watchdog's three triggers, each with exactly when it acts. */
module ResponseLaws {
  import opened Common
  import opened SafetyStates
  import opened Governors
  import opened Oscillation
  import opened Ledgers
  import opened SafetyReading
  import opened Servers
  import opened Watchdogs
  import opened Runs
  import opened Transitions
  import opened SafetyLaws
  import opened RecoveryLaws
  import opened WindowQueries

  // --- Heartbeats -------------------------------------------------------------------------

  /** The newest row a simulation sees is Cautious, which no tick changes. */
  predicate IsCautious(rows: seq<TransitionRow>, simulation: Uuid) {
    Newest(rows, Some(simulation)).Some? && Newest(rows, Some(simulation)).value.to.Cautious?
  }

  /** A heartbeat takes its simulation out of Cautious if and only if that simulation is registered, enough
      have been counted and both database calls go through; it changes no other state. It counts in Cautious
      only: the count starts over when Cautious is cleared, and is zero in every other state that is read. */
  lemma HeartbeatClearsIff(c: Constitution, s: Server, simulation: Uuid, tick: nat, read: ReadFaults, write: Write)
    ensures var s' := HandleHeartbeat(c, s, simulation, tick, read, write);
            var before, after := Derived(s.ledger.transitions, Some(simulation), tick), Derived(s'.ledger.transitions, Some(simulation), tick);
            && s'.tick == Some(tick)
            && s'.cleanHeartbeats == CountAfter(c, s, simulation, before, read, write)
            && after == if before.Cautious? && simulation in s.ledger.simulations && read.answered && !write.Refused?
                           && s.cleanHeartbeats + 1 >= c.cautiousRecoveryHeartbeats
                        then Normal else before
  {
    ReadIsFaithful(s.ledger, Some(simulation), tick, read);
    NewestAppend(s.ledger.transitions, CautiousCleared(simulation), Some(simulation));
  }

  /** The count of clean heartbeats after one more, in state `before`. A read fails when the query does, or
      when it cannot write the end of a window. */
  function CountAfter(c: Constitution, s: Server, simulation: Uuid, before: SafetyState, read: ReadFaults, write: Write): nat {
    var newest := Newest(s.ledger.transitions, Some(simulation));
    var heals := before.Normal? && newest.Some? && newest.value.to.Conservation?;
    if !read.answered || (heals && !(simulation in s.ledger.simulations && read.recovery.Committed?)) then s.cleanHeartbeats
    else if !before.Cautious? then 0
    else if s.cleanHeartbeats + 1 >= c.cautiousRecoveryHeartbeats && simulation in s.ledger.simulations && write.Committed? then 0
    else s.cleanHeartbeats + 1
  }

  predicate Clean(e: Event) {
    e.Heartbeat? && e.read.answered && e.write.Committed?
  }

  lemma CleanHeartbeat(c: Constitution, s: Server, simulation: Uuid, e: Event)
    requires s.up && s.connection == Some(simulation) && simulation in s.ledger.simulations
    requires IsCautious(s.ledger.transitions, simulation) && Clean(e)
    ensures var s' := Step(c, s, e);
            && s'.up && s'.connection == s.connection && s'.ledger.simulations == s.ledger.simulations
            && (if s.cleanHeartbeats + 1 < c.cautiousRecoveryHeartbeats
                then IsCautious(s'.ledger.transitions, simulation) && s'.cleanHeartbeats == s.cleanHeartbeats + 1
                else s'.cleanHeartbeats == 0 && forall tick :: Derived(s'.ledger.transitions, Some(simulation), tick).Normal?)
  {
    NewestAppend(s.ledger.transitions, CautiousCleared(simulation), Some(simulation));
  }

  /** Clean heartbeats in a row: Cautious lasts until the configured number is reached, ends with that
      heartbeat, and the count then starts over. */
  lemma {:induction false} HeartbeatsClearCautious(c: Constitution, s: Server, simulation: Uuid, es: seq<Event>)
    requires s.up && s.connection == Some(simulation) && simulation in s.ledger.simulations
    requires IsCautious(s.ledger.transitions, simulation)
    requires forall i :: 0 <= i < |es| ==> Clean(es[i])
    requires s.cleanHeartbeats < HeartbeatsNeeded(c) && s.cleanHeartbeats + |es| <= HeartbeatsNeeded(c)
    ensures CountedUpTo(c, s, Run(c, s, es), simulation, s.cleanHeartbeats + |es|)
  {
    if es != [] {
      var n := |es| - 1;
      HeartbeatsClearCautious(c, s, simulation, es[..n]);
      OneMoreCounted(c, s, Run(c, s, es[..n]), simulation, s.cleanHeartbeats + n, es[n]);
    }
  }

  /** After `count` clean heartbeats: Cautious with that count below the configured number, Normal at it. */
  ghost predicate CountedUpTo(c: Constitution, s: Server, s': Server, simulation: Uuid, count: nat) {
    && s'.up && s'.connection == s.connection && s'.ledger.simulations == s.ledger.simulations
    && (count < HeartbeatsNeeded(c) ==> IsCautious(s'.ledger.transitions, simulation) && s'.cleanHeartbeats == count)
    && (count == HeartbeatsNeeded(c) ==>
          s'.cleanHeartbeats == 0 && forall tick :: Derived(s'.ledger.transitions, Some(simulation), tick).Normal?)
  }

  lemma OneMoreCounted(c: Constitution, s: Server, mid: Server, simulation: Uuid, count: nat, e: Event)
    requires s.connection == Some(simulation) && simulation in s.ledger.simulations && Clean(e)
    requires CountedUpTo(c, s, mid, simulation, count) && count < HeartbeatsNeeded(c)
    ensures CountedUpTo(c, s, Step(c, mid, e), simulation, count + 1)
  {
    CleanHeartbeat(c, mid, simulation, e);
  }

  // --- Resolve ---------------------------------------------------------------------------------

  /** `resolve` acts if and only if the global state is Quarantine or Stopped and the database takes the
      row; it then makes every simulation Normal, whatever state of its own each was in, and otherwise
      it changes nothing at all. */
  lemma ResolveActsIff(l: Ledger, read: ReadFaults, write: Write)
    requires WellFormed(l.transitions)
    ensures var l' := ResolveByHand(l, read, write);
            var before := Derived(l.transitions, None, 0);
            var acts := read.answered && !write.Refused? && (before.Quarantine? || before.Stopped?);
            && (!acts ==> l' == l)
            && (acts ==> l' != l && forall scope, tick :: Derived(l'.transitions, scope, tick).Normal?)
  {
    NoGlobalConservation(l.transitions);
    forall scope ensures Newest(l.transitions + [ResolvedByHand(Derived(l.transitions, None, 0))], scope) ==
                         Some(ResolvedByHand(Derived(l.transitions, None, 0)))
    {
      NewestAppend(l.transitions, ResolvedByHand(Derived(l.transitions, None, 0)), scope);
    }
  }

  // --- The watchdog -------------------------------------------------------------------------------

  predicate Answers(f: EscalationFaults) {
    f.read.answered && !f.write.Refused?
  }

  /** An escalation writes if and only if it goes through and the global state is neither Stopped nor the
      target already; what it writes reaches every simulation. */
  lemma EscalationReaches(l: Ledger, to: SafetyState, f: EscalationFaults)
    requires WellFormed(l.transitions) && (to.Quarantine? || to.Stopped?)
    ensures var l' := Escalate(l, to, f);
            var before := Derived(l.transitions, None, 0);
            && Derived(l'.transitions, None, 0) == (if Answers(f) && !before.Stopped? then to else before)
            && (l' != l <==> Answers(f) && !before.Stopped? && before != to)
            && (l' != l ==> forall simulation, tick :: Derived(l'.transitions, Some(simulation), tick) == to)
  {
    NoGlobalConservation(l.transitions);
    var row := Escalation(Derived(l.transitions, None, 0), to);
    forall scope ensures Newest(l.transitions + [row], scope) == Some(row) {
      NewestAppend(l.transitions, row, scope);
    }
  }

  /** `actions_in_last_minute` counts the simulation's actions at most a minute old. */
  lemma {:induction false} LastMinuteCounts(l: Ledger, simulation: Uuid, now: nat, n: nat)
    requires n <= |l.actions|
    ensures ActionsInLastMinute(l, simulation, now, n) == |FreshActions(l, simulation, now, n)|
  {
    if n > 0 {
      LastMinuteCounts(l, simulation, now, n - 1);
      OneMoreFresh(l, simulation, now, n - 1);
    }
  }

  lemma OneMoreFresh(l: Ledger, simulation: Uuid, now: nat, n: nat)
    requires n < |l.actions|
    ensures |FreshActions(l, simulation, now, n + 1)| ==
            |FreshActions(l, simulation, now, n)| + if IsFresh(l, simulation, now, n) then 1 else 0
  {
    assert FreshActions(l, simulation, now, n + 1) ==
           FreshActions(l, simulation, now, n) + if IsFresh(l, simulation, now, n) then {n} else {};
  }

  predicate IsFresh(l: Ledger, simulation: Uuid, now: nat, i: nat)
    requires i < |l.actions|
  {
    SimulationOf(l, l.actions[i]) == Some(simulation) && now <= l.actions[i].createdAt + 60_000_000_000
  }

  ghost function FreshActions(l: Ledger, simulation: Uuid, now: nat, n: nat): set<nat>
    requires n <= |l.actions|
  {
    set i: nat | 0 <= i < n && IsFresh(l, simulation, now, i)
  }

  /** The rate check stops the system if and only if more actions than the threshold are fresh. */
  lemma RunawayRateStopsIff(c: Constitution, l: Ledger, simulation: Uuid, now: nat, f: EscalationFaults)
    requires WellFormed(l.transitions) && Answers(f)
    ensures Derived(CheckActionRate(c, l, simulation, now, true, f).transitions, None, 0).Stopped? <==>
            || Derived(l.transitions, None, 0).Stopped?
            || |FreshActions(l, simulation, now, |l.actions|)| > c.actionRateStoppedThresholdPerMinute
  {
    LastMinuteCounts(l, simulation, now, |l.actions|);
    EscalationReaches(l, Stopped, f);
  }

  lemma {:induction false} EscalateTimesReaches(c: Constitution, l: Ledger, count: nat, fs: seq<EscalationFaults>)
    requires count <= |fs| && WellFormed(l.transitions)
    ensures var after := Derived(EscalateTimes(l, Quarantine, count, fs).transitions, None, 0);
            && after == if (exists i :: 0 <= i < count && Answers(fs[i])) && !Derived(l.transitions, None, 0).Stopped?
                        then Quarantine else Derived(l.transitions, None, 0)
    ensures WellFormed(EscalateTimes(l, Quarantine, count, fs).transitions)
  {
    EscalateTimesGrows(c, l, Quarantine, count, fs);
    GrowthKeepsWellFormed(c, OnPoll, l.transitions, EscalateTimes(l, Quarantine, count, fs).transitions);
    if count > 0 {
      EscalateTimesReaches(c, l, count - 1, fs);
      EscalationReaches(EscalateTimes(l, Quarantine, count - 1, fs), Quarantine, fs[count - 1]);
    }
  }

  /** The oscillation check quarantines if and only if the stored prices of some ride swing too often within
      the window; Stopped stays Stopped. */
  lemma OscillationQuarantinesIff(c: Constitution, l: Ledger, simulation: Uuid, fs: seq<EscalationFaults>)
    requires WellFormed(l.transitions) && forall i :: 0 <= i < |fs| ==> Answers(fs[i])
    requires |Tripped(c, RecentPriceChanges(l, simulation, c.oscillationWindowTicks))| <= |fs|
    ensures var before := Derived(l.transitions, None, 0);
            Derived(CheckOscillation(c, l, simulation, true, fs).transitions, None, 0) ==
            if before.Stopped? then Stopped
            else if Swings(l, simulation, c.oscillationWindowTicks, c.oscillationMaxReversals) then Quarantine
            else before
  {
    var tripped := Tripped(c, RecentPriceChanges(l, simulation, c.oscillationWindowTicks));
    EscalateTimesReaches(c, l, |tripped|, fs);
    TrippedIffSwings(c, l, simulation);
    if tripped != {} {
      assert Answers(fs[0]);
    }
  }

  /** A poll that finds an outage over, and long enough, ends in Stopped, whatever its later checks do. */
  lemma OutageStops(c: Constitution, l: Ledger, since: Option<nat>, now: nat, f: PollFaults)
    requires |f.oscillation| >= |l.actions| && WellFormed(l.transitions)
    requires f.reachable && OutageEnded(c, since, now) && Answers(f.outage)
    ensures Derived(Poll(c, l, since, now, f).transitions, None, 0).Stopped?
  {
    var l1 := PollOutage(c, l, since, now, f.outage);
    EscalationReaches(l, Stopped, f.outage);
    EscalateGrows(c, l, Stopped, f.outage);
    GrowthKeepsWellFormed(c, OnPoll, l.transitions, l1.transitions);
    ChecksGrow(c, l1, now, f);
    EscalationNeverLowers(c, l1.transitions, PollChecks(c, l1, now, f).transitions);
  }

  // --- A whole poll -------------------------------------------------------------------------------

  predicate EverythingAnswers(f: PollFaults) {
    && f.reachable && f.simulationRead && f.rateRead && f.oscillationRead && Answers(f.outage) && Answers(f.rate)
    && forall i :: 0 <= i < |f.oscillation| ==> Answers(f.oscillation[i])
  }

  /** The simulation started last has more fresh actions than the threshold. */
  ghost predicate Runaway(c: Constitution, l: Ledger, now: nat) {
    l.simulations != []
    && |FreshActions(l, l.simulations[|l.simulations| - 1], now, |l.actions|)| > c.actionRateStoppedThresholdPerMinute
  }

  /** The prices of some ride of the simulation started last swing too often. */
  ghost predicate Oscillating(c: Constitution, l: Ledger) {
    l.simulations != []
    && Swings(l, l.simulations[|l.simulations| - 1], c.oscillationWindowTicks, c.oscillationMaxReversals)
  }

  /** The queries do not look at the transitions. */
  lemma QueriesIgnoreTransitions(c: Constitution, l: Ledger, l': Ledger, now: nat)
    requires l' == l.(transitions := l'.transitions)
    ensures Runaway(c, l', now) <==> Runaway(c, l, now)
    ensures Oscillating(c, l') <==> Oscillating(c, l)
  {
    if l.simulations != [] {
      var latest := l.simulations[|l.simulations| - 1];
      assert FreshActions(l', latest, now, |l.actions|) == FreshActions(l, latest, now, |l.actions|);
      SwingsIgnoreTransitions(l, l', latest, c.oscillationWindowTicks, c.oscillationMaxReversals);
      SwingsIgnoreTransitions(l', l, latest, c.oscillationWindowTicks, c.oscillationMaxReversals);
    }
  }

  lemma SwingsIgnoreTransitions(l: Ledger, l': Ledger, simulation: Uuid, window: nat, limit: nat)
    requires l'.actions == l.actions && l'.authorizations == l.authorizations && l'.proposals == l.proposals
    ensures Swings(l, simulation, window, limit) ==> Swings(l', simulation, window, limit)
  {
    if Swings(l, simulation, window, limit) {
      ZigzagIgnoresTransitions(l, l', simulation, window, limit);
    }
  }

  lemma ZigzagIgnoresTransitions(l: Ledger, l': Ledger, simulation: Uuid, window: nat, limit: nat)
    requires l'.actions == l.actions && l'.authorizations == l.authorizations && l'.proposals == l.proposals
    requires Swings(l, simulation, window, limit)
    ensures Swings(l', simulation, window, limit)
  {
    var ride: nat, at: seq<nat> :| Zigzag(l, simulation, window, ride, at) && |at| > limit + 2;
    forall i: nat ensures IsOwn(l', simulation, i) <==> IsOwn(l, simulation, i) {
    }
    forall j, k | 0 <= j < k < |at| ensures Precedes(l', at[j], at[k]) {
      assert Precedes(l, at[j], at[k]);
    }
    assert Zigzag(l', simulation, window, ride, at);
  }

  /** What a poll makes of the global state: Stopped after a long outage or at a runaway rate, else
      Quarantine when prices oscillate, else what it was. */
  ghost function Response(c: Constitution, l: Ledger, longOutage: bool, now: nat): SafetyState {
    var before := Derived(l.transitions, None, 0);
    if before.Stopped? || longOutage || Runaway(c, l, now) then Stopped
    else if Oscillating(c, l) then Quarantine
    else before
  }

  lemma WellFormedPoll(c: Constitution, l: Ledger, since: Option<nat>, now: nat, f: PollFaults)
    requires WellFormed(l.transitions) && |f.oscillation| >= |l.actions| && EverythingAnswers(f)
    ensures Derived(Poll(c, l, since, now, f).transitions, None, 0) == Response(c, l, OutageEnded(c, since, now), now)
  {
    var l1 := PollOutage(c, l, since, now, f.outage);
    EscalationReaches(l, Stopped, f.outage);
    EscalateGrows(c, l, Stopped, f.outage);
    GrowthKeepsWellFormed(c, OnPoll, l.transitions, l1.transitions);
    WellFormedChecks(c, l1, now, f);
    QueriesIgnoreTransitions(c, l, l1, now);
  }

  lemma WellFormedChecks(c: Constitution, l: Ledger, now: nat, f: PollFaults)
    requires WellFormed(l.transitions) && |f.oscillation| >= |l.actions| && EverythingAnswers(f)
    ensures Derived(PollChecks(c, l, now, f).transitions, None, 0) ==
            var before := Derived(l.transitions, None, 0);
            if before.Stopped? || Runaway(c, l, now) then Stopped else if Oscillating(c, l) then Quarantine else before
  {
    if l.simulations != [] {
      var latest := l.simulations[|l.simulations| - 1];
      var l1 := CheckActionRate(c, l, latest, now, f.rateRead, f.rate);
      LastMinuteCounts(l, latest, now, |l.actions|);
      EscalationReaches(l, Stopped, f.rate);
      RateGrows(c, l, latest, now, f.rateRead, f.rate);
      GrowthKeepsWellFormed(c, OnPoll, l.transitions, l1.transitions);
      TrippedAreFew(c, l1, latest);
      OscillationQuarantinesIff(c, l1, latest, f.oscillation);
      QueriesIgnoreTransitions(c, l, l1, now);
    }
  }

  // --- The outage timer ------------------------------------------------------------------------------

  /** One probe of the database. */
  datatype Probe = Probe(now: nat, reachable: bool)

  function TimerAfter(probes: seq<Probe>): Option<nat> {
    if probes == [] then None
    else
      var n := |probes| - 1;
      Timer(TimerAfter(probes[..n]), probes[n].now, probes[n].reachable)
  }

  /** Probe `i` began the outage that has lasted to the end. */
  ghost predicate BeganOutage(probes: seq<Probe>, i: nat) {
    && i < |probes| && (forall j :: i <= j < |probes| ==> !probes[j].reachable)
    && (i > 0 ==> probes[i - 1].reachable)
  }

  lemma OutageGoesOn(probes: seq<Probe>)
    requires probes != [] && !probes[|probes| - 1].reachable
    ensures var n := |probes| - 1;
            forall i: nat :: BeganOutage(probes, i) <==>
                             if i < n then BeganOutage(probes[..n], i) else i == n && (n > 0 ==> probes[n - 1].reachable)
  {
    var n := |probes| - 1;
    forall i: nat | BeganOutage(probes[..n], i) ensures BeganOutage(probes, i) {
      assert !probes[..n][n - 1].reachable;
      forall j | i <= j < |probes| ensures !probes[j].reachable {
        assert j < n ==> !probes[..n][j].reachable;
      }
    }
  }

  /** The timer is set exactly while the latest probes failed, and holds the time of the first of them. */
  lemma {:induction false} TimerIsStartOfOutage(probes: seq<Probe>)
    ensures TimerAfter(probes).Some? <==> probes != [] && !probes[|probes| - 1].reachable
    ensures TimerAfter(probes).Some? ==> exists i: nat :: BeganOutage(probes, i) && probes[i].now == TimerAfter(probes).value
    ensures forall i: nat :: BeganOutage(probes, i) ==> TimerAfter(probes) == Some(probes[i].now)
  {
    if probes != [] {
      var n := |probes| - 1;
      TimerIsStartOfOutage(probes[..n]);
      if !probes[n].reachable {
        OutageGoesOn(probes);
        if n > 0 && !probes[n - 1].reachable {
          var i: nat :| BeganOutage(probes[..n], i) && probes[i].now == TimerAfter(probes[..n]).value;
          assert BeganOutage(probes, i);
        }
      }
    }
  }

  // --- The window query ---------------------------------------------------------------------------------

  ghost predicate SortedByTick(xs: seq<PriceChange>) {
    forall i, j :: 0 <= i < j < |xs| ==> xs[i].tick <= xs[j].tick
  }

  lemma {:induction false} InsertKeeps(sorted: seq<PriceChange>, x: PriceChange)
    ensures multiset(InsertByTick(sorted, x)) == multiset(sorted) + multiset{x}
  {
    if sorted != [] && sorted[|sorted| - 1].tick > x.tick {
      var n := |sorted| - 1;
      InsertKeeps(sorted[..n], x);
      assert sorted == sorted[..n] + [sorted[n]];
    }
  }

  lemma {:induction false} InsertSorts(sorted: seq<PriceChange>, x: PriceChange)
    requires SortedByTick(sorted)
    ensures SortedByTick(InsertByTick(sorted, x))
  {
    if sorted != [] && sorted[|sorted| - 1].tick > x.tick {
      var n := |sorted| - 1;
      var inserted := InsertByTick(sorted[..n], x);
      InsertSorts(sorted[..n], x);
      InsertKeeps(sorted[..n], x);
      forall i | 0 <= i < |inserted| ensures inserted[i].tick <= sorted[n].tick {
        assert inserted[i] in multiset(inserted);
      }
      LastIsHighest(inserted, sorted[n]);
    }
  }

  lemma LastIsHighest(xs: seq<PriceChange>, last: PriceChange)
    requires SortedByTick(xs) && forall i :: 0 <= i < |xs| ==> xs[i].tick <= last.tick
    ensures SortedByTick(xs + [last])
  {
  }

  lemma LastIsOneMore(xs: seq<PriceChange>)
    requires xs != []
    ensures multiset(xs) == multiset(xs[..|xs| - 1]) + multiset{xs[|xs| - 1]}
  {
    assert xs == xs[..|xs| - 1] + [xs[|xs| - 1]];
  }

  /** `recent_price_changes` returns the selected rows, all of them, in order of tick. */
  lemma {:induction false} SortOrders(xs: seq<PriceChange>)
    ensures SortedByTick(SortByTick(xs)) && multiset(SortByTick(xs)) == multiset(xs)
  {
    if xs != [] {
      var n := |xs| - 1;
      SortOrders(xs[..n]);
      InsertSorts(SortByTick(xs[..n]), xs[n]);
      InsertKeeps(SortByTick(xs[..n]), xs[n]);
      LastIsOneMore(xs);
    }
  }
}
