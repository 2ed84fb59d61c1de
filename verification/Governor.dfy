/** The policy engine (core/governor/src/lib.rs): confidence, price bounds, per-ride cooldown and
    two sliding-window budgets. */
module Governors {
  import opened Common
  import opened SafetyStates

  /** config/constitution-0.1.yaml. Confidence is only ever compared, so a real stands for the f32. */
  datatype Constitution = Constitution(
    dailyActionBudget: nat,
    maxActionsPerHour: nat,
    minConfidence: real,
    minPrice: int,
    maxPrice: int,
    perRideCooldownTicks: nat,
    queueLengthHighThreshold: nat,
    queueLengthLowThreshold: nat,
    consecutiveSnapshotsRequired: nat,
    priceStep: int,
    snapshotMaxAgeTicks: nat,
    maxUnexpectedCashDrop: int,
    conservationTicks: nat,
    cautiousRecoveryHeartbeats: nat,
    oscillationWindowTicks: nat,
    oscillationMaxReversals: nat,
    dbUnreachableStoppedAfterSecs: nat,
    actionRateStoppedThresholdPerMinute: nat
  )

  datatype Proposal = Proposal(rideId: nat, proposedPrice: int, confidence: real, expiryTick: nat)

  datatype Reason =
    | LowConfidence
    | PriceOutOfBounds
    | OnCooldown
    | HourlyLimit
    | DailyBudget
    | BlockedBy(state: SafetyState)
    | NoRecentSnapshot

  datatype Verdict = Authorized | Rejected(reason: Reason)

  datatype GovernorState = GovernorState(authorizedAt: seq<nat>, lastTick: map<nat, nat>)

  const FRESH_GOVERNOR := GovernorState([], map[])

  /** The instants of `ts` less than `window` before `now`, in order: `retain`, or `filter`. */
  function Recent(ts: seq<nat>, now: nat, window: nat): seq<nat> {
    if ts == [] then []
    else
      var n := |ts| - 1;
      if SaturatingSub(now, ts[n]) < window then Recent(ts[..n], now, window) + [ts[n]]
      else Recent(ts[..n], now, window)
  }

  /** `Governor::authorize`, as a function of the governor's state: checks in order, the first
      failure is the reason, and only the checks from the budgets on touch the state. */
  function Ruling(c: Constitution, g: GovernorState, p: Proposal, tick: nat, now: nat): (GovernorState, Verdict) {
    if p.confidence < c.minConfidence then (g, Rejected(LowConfidence))
    else if p.proposedPrice < c.minPrice || p.proposedPrice > c.maxPrice then (g, Rejected(PriceOutOfBounds))
    else if p.rideId in g.lastTick && SaturatingSub(tick, g.lastTick[p.rideId]) < c.perRideCooldownTicks then
      (g, Rejected(OnCooldown))
    else
      var kept := Recent(g.authorizedAt, now, ONE_DAY);
      if |Recent(kept, now, ONE_HOUR)| >= c.maxActionsPerHour then
        (g.(authorizedAt := kept), Rejected(HourlyLimit))
      else if |kept| >= c.dailyActionBudget then
        (g.(authorizedAt := kept), Rejected(DailyBudget))
      else
        (GovernorState(kept + [now], g.lastTick[p.rideId := tick]), Authorized)
  }

  class Governor {
    const constitution: Constitution
    var authorizedAt: seq<nat>
    var perRideLastAuthorizedTick: map<nat, nat>

    ghost function View(): GovernorState
      reads this
    {
      GovernorState(authorizedAt, perRideLastAuthorizedTick)
    }

    constructor (constitution: Constitution)
      ensures this.constitution == constitution && View() == FRESH_GOVERNOR
    {
      this.constitution := constitution;
      authorizedAt := [];
      perRideLastAuthorizedTick := map[];
    }

    /** `now` is what `Instant::now()` returns inside the call. */
    method Authorize(proposal: Proposal, currentTick: nat, now: nat) returns (verdict: Verdict)
      modifies this
      ensures (View(), verdict) == Ruling(constitution, old(View()), proposal, currentTick, now)
    {
      if proposal.confidence < constitution.minConfidence {
        return Rejected(LowConfidence);
      }
      if proposal.proposedPrice < constitution.minPrice || proposal.proposedPrice > constitution.maxPrice {
        return Rejected(PriceOutOfBounds);
      }
      if proposal.rideId in perRideLastAuthorizedTick {
        var elapsed := SaturatingSub(currentTick, perRideLastAuthorizedTick[proposal.rideId]);
        if elapsed < constitution.perRideCooldownTicks {
          return Rejected(OnCooldown);
        }
      }
      authorizedAt := Recent(authorizedAt, now, ONE_DAY);
      if |Recent(authorizedAt, now, ONE_HOUR)| >= constitution.maxActionsPerHour {
        return Rejected(HourlyLimit);
      }
      if |authorizedAt| >= constitution.dailyActionBudget {
        return Rejected(DailyBudget);
      }
      authorizedAt := authorizedAt + [now];
      perRideLastAuthorizedTick := perRideLastAuthorizedTick[proposal.rideId := currentTick];
      return Authorized;
    }
  }
}

/** What the policy means over a whole governor lifetime, stated on the complete, never pruned list
    of grants. */
module GovernorLaws {
  import opened Common
  import opened Governors

  datatype Grant = Grant(rideId: nat, tick: nat, at: nat)

  function Times(log: seq<Grant>): (ts: seq<nat>)
    ensures |ts| == |log|
  {
    seq(|log|, i requires 0 <= i < |log| => log[i].at)
  }

  /** The tick of the ride's latest grant. */
  function LastGrant(log: seq<Grant>, ride: nat): Option<nat> {
    if log == [] then None
    else
      var n := |log| - 1;
      if log[n].rideId == ride then Some(log[n].tick) else LastGrant(log[..n], ride)
  }

  /** The grants made less than `window` before `now`. */
  function GrantedWithin(log: seq<Grant>, now: nat, window: nat): set<nat> {
    set i: nat | 0 <= i < |log| && now < log[i].at + window
  }

  /** The same policy read off the complete list of grants: the reference the pruned vector must match.
      An hour and a day are counted in nanoseconds. */
  function ReferenceVerdict(c: Constitution, log: seq<Grant>, p: Proposal, tick: nat, now: nat): Verdict {
    var last := LastGrant(log, p.rideId);
    if p.confidence < c.minConfidence then Rejected(LowConfidence)
    else if p.proposedPrice < c.minPrice || p.proposedPrice > c.maxPrice then Rejected(PriceOutOfBounds)
    else if last.Some? && c.perRideCooldownTicks > 0 && tick < last.value + c.perRideCooldownTicks then Rejected(OnCooldown)
    else if |GrantedWithin(log, now, 3_600_000_000_000)| >= c.maxActionsPerHour then Rejected(HourlyLimit)
    else if |GrantedWithin(log, now, 86_400_000_000_000)| >= c.dailyActionBudget then Rejected(DailyBudget)
    else Authorized
  }

  function Extend(log: seq<Grant>, v: Verdict, p: Proposal, tick: nat, now: nat): seq<Grant> {
    if v.Authorized? then log + [Grant(p.rideId, tick, now)] else log
  }

  /** The governor's state answers every question from `clock` on as the complete list would. */
  ghost predicate Represents(g: GovernorState, log: seq<Grant>, clock: nat) {
    && (forall ride :: ride in g.lastTick <==> LastGrant(log, ride).Some?)
    && (forall ride :: ride in g.lastTick ==> LastGrant(log, ride) == Some(g.lastTick[ride]))
    && (forall now :: clock <= now ==> Recent(g.authorizedAt, now, ONE_DAY) == Recent(Times(log), now, ONE_DAY))
    && (forall i :: 0 <= i < |log| ==> log[i].at <= clock)
  }

  /** `Recent` keeps exactly the grants made within the window. */
  lemma {:induction false} RecentCounts(log: seq<Grant>, now: nat, window: nat)
    requires window > 0
    ensures |Recent(Times(log), now, window)| == |GrantedWithin(log, now, window)|
  {
    if log != [] {
      var n := |log| - 1;
      RecentCounts(log[..n], now, window);
      assert Times(log)[..n] == Times(log[..n]);
      OneMoreGranted(log, now, window);
    }
  }

  lemma OneMoreGranted(log: seq<Grant>, now: nat, window: nat)
    requires log != []
    ensures var n := |log| - 1;
            |GrantedWithin(log, now, window)| == |GrantedWithin(log[..n], now, window)| + if now < log[n].at + window then 1 else 0
  {
    var n := |log| - 1;
    assert GrantedWithin(log, now, window) == GrantedWithin(log[..n], now, window) + if now < log[n].at + window then {n} else {};
  }

  // --- Windows --------------------------------------------------------------

  /** Filtering by a longer window first changes nothing. */
  lemma {:induction false} RecentNested(ts: seq<nat>, earlier: nat, now: nat, wide: nat, narrow: nat)
    requires earlier <= now && narrow <= wide
    ensures Recent(Recent(ts, earlier, wide), now, narrow) == Recent(ts, now, narrow)
  {
    if ts != [] {
      var n := |ts| - 1;
      RecentNested(ts[..n], earlier, now, wide, narrow);
      if SaturatingSub(earlier, ts[n]) < wide {
        var r := Recent(ts[..n], earlier, wide);
        assert (r + [ts[n]])[..|r|] == r;
      }
    }
  }

  lemma RecentAppend(ts: seq<nat>, t: nat, now: nat, window: nat)
    ensures Recent(ts + [t], now, window) ==
            if SaturatingSub(now, t) < window then Recent(ts, now, window) + [t] else Recent(ts, now, window)
  {
    assert (ts + [t])[..|ts|] == ts;
  }

  /** How many instants fall in the window [from, from + length). */
  function CountWindow(ts: seq<nat>, from: nat, length: nat): nat {
    if ts == [] then 0
    else
      var n := |ts| - 1;
      CountWindow(ts[..n], from, length) + if from <= ts[n] < from + length then 1 else 0
  }

  lemma CountAppend(ts: seq<nat>, t: nat, from: nat, length: nat)
    ensures CountWindow(ts + [t], from, length) ==
            CountWindow(ts, from, length) + if from <= t < from + length then 1 else 0
  {
    assert (ts + [t])[..|ts|] == ts;
  }

  /** Seen from an instant inside a window, all of the window so far is recent. */
  lemma {:induction false} WindowIsRecent(ts: seq<nat>, from: nat, length: nat, now: nat)
    requires forall i :: 0 <= i < |ts| ==> ts[i] <= now
    requires from <= now < from + length
    ensures CountWindow(ts, from, length) <= |Recent(ts, now, length)|
  {
    if ts != [] {
      WindowIsRecent(ts[..|ts| - 1], from, length, now);
    }
  }

  ghost predicate Budgeted(ts: seq<nat>, length: nat, limit: nat) {
    forall from: nat :: CountWindow(ts, from, length) <= limit
  }

  /** A grant made only while fewer than `limit` are recent keeps every window, wherever it starts,
      within `limit`. */
  lemma BudgetKept(ts: seq<nat>, now: nat, length: nat, limit: nat)
    requires Budgeted(ts, length, limit)
    requires forall i :: 0 <= i < |ts| ==> ts[i] <= now
    requires |Recent(ts, now, length)| < limit
    ensures Budgeted(ts + [now], length, limit)
  {
    forall from: nat ensures CountWindow(ts + [now], from, length) <= limit {
      CountAppend(ts, now, from, length);
      if from <= now < from + length {
        WindowIsRecent(ts, from, length, now);
      }
    }
  }

  // --- One call ---------------------------------------------------------------

  ghost predicate WithinBudgets(c: Constitution, log: seq<Grant>) {
    Budgeted(Times(log), ONE_HOUR, c.maxActionsPerHour) && Budgeted(Times(log), ONE_DAY, c.dailyActionBudget)
  }

  /** Any two grants of one ride, neighbours or not, are a cooldown apart, the later one later. */
  ghost predicate CooldownSpaced(c: Constitution, log: seq<Grant>) {
    forall i, j :: 0 <= i < j < |log| && log[i].rideId == log[j].rideId ==>
                     log[i].tick + c.perRideCooldownTicks <= log[j].tick
  }

  lemma TimesAppend(log: seq<Grant>, x: Grant)
    ensures Times(log + [x]) == Times(log) + [x.at]
  {
  }

  lemma LastGrantAppend(log: seq<Grant>, x: Grant, ride: nat)
    ensures LastGrant(log + [x], ride) == if x.rideId == ride then Some(x.tick) else LastGrant(log, ride)
  {
    assert (log + [x])[..|log|] == log;
  }

  /** Pruning loses nothing that a later call could still count. */
  lemma PrunedRepresents(g: GovernorState, log: seq<Grant>, clock: nat, now: nat)
    requires Represents(g, log, clock) && clock <= now
    ensures Represents(GovernorState(Recent(g.authorizedAt, now, ONE_DAY), g.lastTick), log, now)
  {
    var kept := Recent(g.authorizedAt, now, ONE_DAY);
    forall later | now <= later ensures Recent(kept, later, ONE_DAY) == Recent(Times(log), later, ONE_DAY) {
      RecentNested(g.authorizedAt, now, later, ONE_DAY, ONE_DAY);
    }
  }

  lemma GrantRepresents(g: GovernorState, log: seq<Grant>, p: Proposal, tick: nat, now: nat)
    requires Represents(g, log, now)
    ensures Represents(GovernorState(g.authorizedAt + [now], g.lastTick[p.rideId := tick]),
                       log + [Grant(p.rideId, tick, now)], now)
  {
    var grant := Grant(p.rideId, tick, now);
    TimesAppend(log, grant);
    forall later | now <= later
      ensures Recent(g.authorizedAt + [now], later, ONE_DAY) == Recent(Times(log + [grant]), later, ONE_DAY)
    {
      RecentAppend(g.authorizedAt, now, later, ONE_DAY);
      RecentAppend(Times(log), now, later, ONE_DAY);
    }
    forall ride ensures LastGrant(log + [grant], ride) == if p.rideId == ride then Some(tick) else LastGrant(log, ride) {
      LastGrantAppend(log, grant, ride);
    }
  }

  lemma VerdictMatchesReference(c: Constitution, g: GovernorState, log: seq<Grant>, clock: nat,
                                p: Proposal, tick: nat, now: nat)
    requires Represents(g, log, clock) && clock <= now
    ensures Ruling(c, g, p, tick, now).1 == ReferenceVerdict(c, log, p, tick, now)
  {
    assert Recent(g.authorizedAt, now, ONE_DAY) == Recent(Times(log), now, ONE_DAY);
    RecentNested(g.authorizedAt, now, now, ONE_DAY, ONE_HOUR);
    RecentNested(Times(log), now, now, ONE_DAY, ONE_HOUR);
    RecentCounts(log, now, ONE_HOUR);
    RecentCounts(log, now, ONE_DAY);
  }

  /** One call of the real governor answers as the reference does, and still represents the list. */
  lemma AuthorizeMatchesReference(c: Constitution, g: GovernorState, log: seq<Grant>, clock: nat,
                                  p: Proposal, tick: nat, now: nat)
    requires Represents(g, log, clock) && clock <= now
    ensures var (g', v) := Ruling(c, g, p, tick, now);
            && v == ReferenceVerdict(c, log, p, tick, now)
            && Represents(g', Extend(log, v, p, tick, now), now)
  {
    VerdictMatchesReference(c, g, log, clock, p, tick, now);
    var pruned := GovernorState(Recent(g.authorizedAt, now, ONE_DAY), g.lastTick);
    PrunedRepresents(g, log, clock, now);
    GrantRepresents(pruned, log, p, tick, now);
    assert Represents(g, log, now);
  }

  /** One call keeps both budgets, in every window. */
  lemma AuthorizeKeepsBudgets(c: Constitution, g: GovernorState, log: seq<Grant>, clock: nat,
                              p: Proposal, tick: nat, now: nat)
    requires Represents(g, log, clock) && clock <= now && WithinBudgets(c, log)
    ensures WithinBudgets(c, Extend(log, Ruling(c, g, p, tick, now).1, p, tick, now))
  {
    AuthorizeMatchesReference(c, g, log, clock, p, tick, now);
    if Ruling(c, g, p, tick, now).1.Authorized? {
      TimesAppend(log, Grant(p.rideId, tick, now));
      RecentCounts(log, now, ONE_HOUR);
      RecentCounts(log, now, ONE_DAY);
      BudgetKept(Times(log), now, ONE_HOUR, c.maxActionsPerHour);
      BudgetKept(Times(log), now, ONE_DAY, c.dailyActionBudget);
    }
  }

  /** The latest grant of a ride has the highest tick, given spacing. */
  lemma {:induction false} LastGrantIsHighest(c: Constitution, log: seq<Grant>, i: nat)
    requires CooldownSpaced(c, log) && i < |log|
    ensures LastGrant(log, log[i].rideId).Some?
    ensures log[i].tick <= LastGrant(log, log[i].rideId).value
  {
    var n := |log| - 1;
    if i < n && log[n].rideId != log[i].rideId {
      LastGrantIsHighest(c, log[..n], i);
    }
  }

  lemma AuthorizeKeepsSpacing(c: Constitution, g: GovernorState, log: seq<Grant>, clock: nat,
                              p: Proposal, tick: nat, now: nat)
    requires Represents(g, log, clock) && clock <= now
    requires c.perRideCooldownTicks > 0 && CooldownSpaced(c, log)
    ensures CooldownSpaced(c, Extend(log, Ruling(c, g, p, tick, now).1, p, tick, now))
  {
    AuthorizeMatchesReference(c, g, log, clock, p, tick, now);
    if Ruling(c, g, p, tick, now).1.Authorized? {
      forall i | 0 <= i < |log| && log[i].rideId == p.rideId
        ensures log[i].tick + c.perRideCooldownTicks <= tick
      {
        LastGrantIsHighest(c, log, i);
      }
    }
  }

  // --- Whole lifetimes ----------------------------------------------------------

  datatype Request = Request(proposal: Proposal, tick: nat, at: nat)

  /** The clock never runs backwards. */
  ghost predicate Ascending(rs: seq<Request>) {
    forall i, j :: 0 <= i < j < |rs| ==> rs[i].at <= rs[j].at
  }

  function Clock(rs: seq<Request>): nat {
    if rs == [] then 0 else rs[|rs| - 1].at
  }

  /** The governor after a whole sequence of calls. */
  function After(c: Constitution, rs: seq<Request>): GovernorState {
    if rs == [] then FRESH_GOVERNOR
    else
      var r := rs[|rs| - 1];
      Ruling(c, After(c, rs[..|rs| - 1]), r.proposal, r.tick, r.at).0
  }

  /** Its answers, one for each call. */
  function Verdicts(c: Constitution, rs: seq<Request>): (vs: seq<Verdict>)
    ensures |vs| == |rs|
  {
    if rs == [] then []
    else
      var r := rs[|rs| - 1];
      Verdicts(c, rs[..|rs| - 1]) + [Ruling(c, After(c, rs[..|rs| - 1]), r.proposal, r.tick, r.at).1]
  }

  /** Every grant it ever made. */
  function Grants(c: Constitution, rs: seq<Request>): seq<Grant> {
    if rs == [] then []
    else
      var n := |rs| - 1;
      Extend(Grants(c, rs[..n]), Verdicts(c, rs)[n], rs[n].proposal, rs[n].tick, rs[n].at)
  }

  lemma {:induction false} LifetimeRepresents(c: Constitution, rs: seq<Request>)
    requires Ascending(rs)
    ensures Represents(After(c, rs), Grants(c, rs), Clock(rs))
    ensures rs != [] ==>
              var r := rs[|rs| - 1];
              Verdicts(c, rs)[|rs| - 1] == ReferenceVerdict(c, Grants(c, rs[..|rs| - 1]), r.proposal, r.tick, r.at)
  {
    if rs != [] {
      var n := |rs| - 1;
      LifetimeRepresents(c, rs[..n]);
      AuthorizeMatchesReference(c, After(c, rs[..n]), Grants(c, rs[..n]), Clock(rs[..n]), rs[n].proposal, rs[n].tick, rs[n].at);
    }
  }

  /** Over a whole lifetime, every hour-long and every day-long window, wherever it starts, holds no
      more grants than its budget. */
  lemma {:induction false} BudgetsHoldInEveryWindow(c: Constitution, rs: seq<Request>)
    requires Ascending(rs)
    ensures forall from: nat :: CountWindow(Times(Grants(c, rs)), from, 3_600_000_000_000) <= c.maxActionsPerHour
    ensures forall from: nat :: CountWindow(Times(Grants(c, rs)), from, 86_400_000_000_000) <= c.dailyActionBudget
  {
    if rs != [] {
      var n := |rs| - 1;
      BudgetsHoldInEveryWindow(c, rs[..n]);
      LifetimeRepresents(c, rs[..n]);
      AuthorizeKeepsBudgets(c, After(c, rs[..n]), Grants(c, rs[..n]), Clock(rs[..n]), rs[n].proposal, rs[n].tick, rs[n].at);
    }
  }

  lemma {:induction false} RecentIsShorter(ts: seq<nat>, now: nat, window: nat)
    ensures |Recent(ts, now, window)| <= |ts|
  {
    if ts != [] {
      RecentIsShorter(ts[..|ts| - 1], now, window);
    }
  }

  /** Pruning keeps the vector small: over a whole lifetime it never holds more instants than the daily budget. */
  lemma {:induction false} VectorStaysBounded(c: Constitution, rs: seq<Request>)
    ensures |After(c, rs).authorizedAt| <= c.dailyActionBudget
  {
    if rs != [] {
      var n := |rs| - 1;
      VectorStaysBounded(c, rs[..n]);
      RecentIsShorter(After(c, rs[..n]).authorizedAt, rs[n].at, ONE_DAY);
    }
  }

  /** With a positive cooldown, any two grants of a ride are a cooldown apart in ticks and in the
      order they were decided in, whatever ticks the bridge reported. */
  lemma {:induction false} CooldownHoldsForAllPairs(c: Constitution, rs: seq<Request>)
    requires Ascending(rs) && c.perRideCooldownTicks > 0
    ensures CooldownSpaced(c, Grants(c, rs))
  {
    if rs != [] {
      var n := |rs| - 1;
      CooldownHoldsForAllPairs(c, rs[..n]);
      LifetimeRepresents(c, rs[..n]);
      AuthorizeKeepsSpacing(c, After(c, rs[..n]), Grants(c, rs[..n]), Clock(rs[..n]), rs[n].proposal, rs[n].tick, rs[n].at);
    }
  }

  ghost predicate AlwaysSpaced(c: Constitution) {
    forall rs: seq<Request> :: Ascending(rs) ==> CooldownSpaced(c, Grants(c, rs))
  }

  /** A policy under which at least two changes of one ride can be granted at all. */
  ghost predicate PermitsTwo(c: Constitution) {
    c.minPrice <= c.maxPrice && c.maxActionsPerHour >= 2 && c.dailyActionBudget >= 2
  }

  /** With no cooldown, a tick that runs backwards is granted out of order. */
  lemma ZeroCooldownCounterexample(c: Constitution)
    requires PermitsTwo(c) && c.perRideCooldownTicks == 0
    ensures var p := Proposal(0, c.minPrice, c.minConfidence, 0);
            var rs := [Request(p, 1, 0), Request(p, 0, 0)];
            Ascending(rs) && Grants(c, rs) == [Grant(0, 1, 0), Grant(0, 0, 0)]
  {
    var p := Proposal(0, c.minPrice, c.minConfidence, 0);
    var r0, r1 := Request(p, 1, 0), Request(p, 0, 0);
    var rs := [r0, r1];
    assert rs[..1] == [r0];
    assert [r0][..0] == [];
    var g1 := GovernorState([0], map[0 := 1]);
    assert Recent([], 0, ONE_DAY) == [];
    assert After(c, []) == FRESH_GOVERNOR;
    assert Recent([], 0, ONE_HOUR) == [] && [] + [0] == [0];
    assert Ruling(c, FRESH_GOVERNOR, p, 1, 0) == (g1, Authorized);
    assert After(c, [r0]) == g1;
    assert |Recent(g1.authorizedAt, 0, ONE_DAY)| <= 1;
    var kept := Recent(g1.authorizedAt, 0, ONE_DAY);
    assert |Recent(kept, 0, ONE_HOUR)| <= 1;
    assert Ruling(c, g1, p, 0, 0).1 == Authorized;
    assert Grants(c, []) == [];
    assert Grants(c, [r0]) == [Grant(0, 1, 0)];
  }

  /** The all-pairs law holds exactly when the cooldown is positive. */
  lemma SpacingIffPositiveCooldown(c: Constitution)
    requires PermitsTwo(c)
    ensures AlwaysSpaced(c) <==> c.perRideCooldownTicks > 0
  {
    if c.perRideCooldownTicks > 0 {
      forall rs: seq<Request> | Ascending(rs) ensures CooldownSpaced(c, Grants(c, rs)) {
        CooldownHoldsForAllPairs(c, rs);
      }
    } else {
      ZeroCooldownCounterexample(c);
      var p := Proposal(0, c.minPrice, c.minConfidence, 0);
      var rs := [Request(p, 1, 0), Request(p, 0, 0)];
      assert Grants(c, rs)[0].tick > Grants(c, rs)[1].tick;
      assert !CooldownSpaced(c, Grants(c, rs));
    }
  }

  // --- Rejected proposals leave no trace --------------------------------------

  /** The elements whose mark is set, in order. */
  function Keep<T>(xs: seq<T>, marks: seq<bool>): seq<T>
    requires |xs| == |marks|
  {
    if xs == [] then []
    else
      var n := |xs| - 1;
      if marks[n] then Keep(xs[..n], marks[..n]) + [xs[n]] else Keep(xs[..n], marks[..n])
  }

  lemma {:induction false} KeepAscending(rs: seq<Request>, marks: seq<bool>)
    requires |rs| == |marks| && Ascending(rs)
    ensures Ascending(Keep(rs, marks))
    ensures forall r :: r in Keep(rs, marks) ==> r.at <= Clock(rs)
  {
    if rs != [] {
      var n := |rs| - 1;
      KeepAscending(rs[..n], marks[..n]);
      if n > 0 {
        assert rs[n - 1].at <= rs[n].at;
      }
    }
  }

  lemma VerdictsAppend(c: Constitution, rs: seq<Request>, r: Request)
    ensures var vs := Verdicts(c, rs + [r]);
            && vs == Verdicts(c, rs) + [vs[|rs|]]
            && Grants(c, rs + [r]) == Extend(Grants(c, rs), vs[|rs|], r.proposal, r.tick, r.at)
  {
    assert (rs + [r])[..|rs|] == rs;
  }

  /** Two lifetimes with the same grants answer the next call alike. */
  lemma AnswerDependsOnGrants(c: Constitution, rs: seq<Request>, rs': seq<Request>, r: Request)
    requires Ascending(rs + [r]) && Ascending(rs' + [r]) && Grants(c, rs) == Grants(c, rs')
    ensures Verdicts(c, rs + [r])[|rs|] == Verdicts(c, rs' + [r])[|rs'|]
  {
    LifetimeRepresents(c, rs + [r]);
    LifetimeRepresents(c, rs' + [r]);
    assert (rs + [r])[..|rs|] == rs && (rs' + [r])[..|rs'|] == rs';
  }

  /** Deleting any rejected proposals from a lifetime leaves every remaining answer as it was,
      although a rejection may prune the vector. */
  lemma {:induction false} RejectionsAreInvisible(c: Constitution, rs: seq<Request>, marks: seq<bool>)
    requires Ascending(rs) && |marks| == |rs|
    requires forall i :: 0 <= i < |rs| && Verdicts(c, rs)[i].Authorized? ==> marks[i]
    ensures Verdicts(c, Keep(rs, marks)) == Keep(Verdicts(c, rs), marks)
    ensures Grants(c, Keep(rs, marks)) == Grants(c, rs)
  {
    if rs != [] {
      var n := |rs| - 1;
      var before, kept := rs[..n], Keep(rs[..n], marks[..n]);
      assert rs == before + [rs[n]];
      VerdictsAppend(c, before, rs[n]);
      RejectionsAreInvisible(c, before, marks[..n]);
      if marks[n] {
        KeepAscending(rs, marks);
        AnswerDependsOnGrants(c, kept, before, rs[n]);
        VerdictsAppend(c, kept, rs[n]);
      }
    }
  }
}
