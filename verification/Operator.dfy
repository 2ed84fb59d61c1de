/** The deterministic pricing rule (core/orchestrator/src/operator.rs). */
module Operators {
  import opened Common
  import opened Governors
  import opened WorldModels

  const CONFIDENCE: real := 0.8
  const EXPIRY_WINDOW_TICKS: nat := 2000

  /** The first ride with this id. */
  function FindRide(rides: seq<Ride>, id: nat): Option<Ride> {
    if rides == [] then None
    else if rides[0].id == id then Some(rides[0])
    else FindRide(rides[1..], id)
  }

  /** The ride as the last `n` snapshots show it, newest first, skipping those that lack it:
      `iter().rev().take(n).filter_map(find)`. */
  function RecentSightings(history: seq<Observation>, n: nat, id: nat): seq<Ride> {
    if n == 0 || history == [] then []
    else
      var last := |history| - 1;
      var found := FindRide(history[last].rides, id);
      (if found.Some? then [found.value] else []) + RecentSightings(history[..last], n - 1, id)
  }

  function PriceProposal(ride: Ride, price: int, currentTick: nat): Proposal {
    Proposal(ride.id, price, CONFIDENCE, currentTick + EXPIRY_WINDOW_TICKS)
  }

  /** What one pass of the loop over the latest rides contributes. */
  function ProposeFor(history: seq<Observation>, c: Constitution, currentTick: nat, ride: Ride): seq<Proposal> {
    var n := c.consecutiveSnapshotsRequired;
    var recent := RecentSightings(history, n, ride.id);
    if |recent| < n then []
    else if forall r :: r in recent ==> r.queueLength > c.queueLengthHighThreshold then
      if ride.price + c.priceStep <= c.maxPrice then [PriceProposal(ride, ride.price + c.priceStep, currentTick)] else []
    else if forall r :: r in recent ==> r.queueLength <= c.queueLengthLowThreshold then
      if ride.price - c.priceStep >= c.minPrice then [PriceProposal(ride, ride.price - c.priceStep, currentTick)] else []
    else []
  }

  function ProposeAll(history: seq<Observation>, c: Constitution, currentTick: nat, rides: seq<Ride>): seq<Proposal> {
    if rides == [] then []
    else
      var n := |rides| - 1;
      ProposeAll(history, c, currentTick, rides[..n]) + ProposeFor(history, c, currentTick, rides[n])
  }

  function Proposals(history: seq<Observation>, c: Constitution, currentTick: nat): seq<Proposal> {
    var n := c.consecutiveSnapshotsRequired;
    if history == [] || n == 0 || |history| < n then []
    else ProposeAll(history, c, currentTick, history[|history| - 1].rides)
  }

  method ProposePriceChanges(history: seq<Observation>, c: Constitution, currentTick: nat)
    returns (proposals: seq<Proposal>)
    ensures proposals == Proposals(history, c, currentTick)
  {
    if history == [] {
      return [];
    }
    var latest := history[|history| - 1];
    var n := c.consecutiveSnapshotsRequired;
    if n == 0 || |history| < n {
      return [];
    }
    proposals := [];
    var i := 0;
    while i < |latest.rides|
      invariant 0 <= i <= |latest.rides|
      invariant proposals == ProposeAll(history, c, currentTick, latest.rides[..i])
    {
      var ride := latest.rides[i];
      assert latest.rides[..i + 1][..i] == latest.rides[..i];
      i := i + 1;
      var recent := RecentSightings(history, n, ride.id);
      if |recent| < n {
        continue;
      }
      var allHigh := forall r :: r in recent ==> r.queueLength > c.queueLengthHighThreshold;
      var allLow := forall r :: r in recent ==> r.queueLength <= c.queueLengthLowThreshold;
      if allHigh {
        var proposedPrice := ride.price + c.priceStep;
        if proposedPrice <= c.maxPrice {
          proposals := proposals + [PriceProposal(ride, proposedPrice, currentTick)];
        }
      } else if allLow {
        var proposedPrice := ride.price - c.priceStep;
        if proposedPrice >= c.minPrice {
          proposals := proposals + [PriceProposal(ride, proposedPrice, currentTick)];
        }
      }
    }
    assert latest.rides[..i] == latest.rides;
  }

  // --- What the rule says, snapshot by snapshot --------------------------------

  /** Ride `id` as snapshot `k`, counted back from the latest, shows it. */
  function Seen(history: seq<Observation>, id: nat, k: nat): Option<Ride> {
    if k < |history| then FindRide(history[|history| - 1 - k].rides, id) else None
  }

  /** The queue of ride `id` in snapshot `k`, counted back from the latest, is as `high` asks. */
  ghost predicate QueueAt(history: seq<Observation>, c: Constitution, id: nat, high: bool, k: nat) {
    var seen := Seen(history, id, k);
    seen.Some? && if high then seen.value.queueLength > c.queueLengthHighThreshold
                  else seen.value.queueLength <= c.queueLengthLowThreshold
  }

  /** The ride was there in every one of the last n snapshots, its queue high (or low) in each. */
  ghost predicate Uniform(history: seq<Observation>, c: Constitution, id: nat, high: bool) {
    forall k :: 0 <= k < c.consecutiveSnapshotsRequired ==> QueueAt(history, c, id, high, k)
  }

  /** `price` is the change the rule calls for on a ride observed at `ride.price`. */
  ghost predicate Warranted(history: seq<Observation>, c: Constitution, ride: Ride, price: int) {
    && c.consecutiveSnapshotsRequired > 0
    && (|| (Uniform(history, c, ride.id, true) && price == ride.price + c.priceStep && price <= c.maxPrice)
        || (!Uniform(history, c, ride.id, true) && Uniform(history, c, ride.id, false)
            && price == ride.price - c.priceStep && price >= c.minPrice))
  }

  lemma SeenEarlier(history: seq<Observation>, id: nat, k: nat)
    requires history != []
    ensures Seen(history, id, k + 1) == Seen(history[..|history| - 1], id, k)
  {
  }

  /** A full count of sightings means the ride was there every time, and lists what was seen. */
  lemma {:induction false} FullSightings(history: seq<Observation>, n: nat, id: nat)
    requires n <= |history|
    ensures |RecentSightings(history, n, id)| <= n
    ensures |RecentSightings(history, n, id)| == n ==>
              forall k :: 0 <= k < n ==> Seen(history, id, k) == Some(RecentSightings(history, n, id)[k])
  {
    if n > 0 {
      var rest := history[..|history| - 1];
      FullSightings(rest, n - 1, id);
      if |RecentSightings(history, n, id)| == n {
        forall k | 0 <= k < n ensures Seen(history, id, k) == Some(RecentSightings(history, n, id)[k]) {
          if k > 0 {
            SeenEarlier(history, id, k - 1);
          }
        }
      }
    }
  }

  /** Anything less means some snapshot lacked it. */
  lemma {:induction false} MissingSighting(history: seq<Observation>, n: nat, id: nat) returns (k: nat)
    requires n <= |history| && |RecentSightings(history, n, id)| < n
    ensures k < n && Seen(history, id, k).None?
  {
    if Seen(history, id, 0).None? {
      k := 0;
    } else {
      k := MissingSighting(history[..|history| - 1], n - 1, id);
      SeenEarlier(history, id, k);
      k := k + 1;
    }
  }

  /** `FindRide` finds the first ride with the id, and none if and only if there is none. */
  lemma {:induction false} FindRideIsFirst(rides: seq<Ride>, id: nat)
    ensures FindRide(rides, id).None? <==> forall i :: 0 <= i < |rides| ==> rides[i].id != id
    ensures FindRide(rides, id).Some? ==>
              exists i :: 0 <= i < |rides| && rides[i] == FindRide(rides, id).value && rides[i].id == id
                          && forall j :: 0 <= j < i ==> rides[j].id != id
  {
    if rides != [] && rides[0].id != id {
      FindRideIsFirst(rides[1..], id);
      if FindRide(rides, id).Some? {
        var i :| 0 <= i < |rides[1..]| && rides[1..][i] == FindRide(rides, id).value && rides[1..][i].id == id
                 && forall j :: 0 <= j < i ==> rides[1..][j].id != id;
        assert rides[i + 1] == rides[1..][i];
        forall j | 0 <= j < i + 1 ensures rides[j].id != id {
          assert j > 0 ==> rides[j] == rides[1..][j - 1];
        }
      } else {
        forall i | 0 <= i < |rides| ensures rides[i].id != id {
          assert i > 0 ==> rides[i] == rides[1..][i - 1];
        }
      }
    }
  }

  /** A proposal that asks for this price for this ride, and for nothing else. */
  predicate AsksFor(p: Proposal, ride: Ride, price: int, currentTick: nat) {
    p.rideId == ride.id && p.proposedPrice == price && p.confidence == 0.8 && p.expiryTick == currentTick + 2000
  }

  /** One pass proposes exactly when a change is warranted, and then exactly that change. */
  lemma PassIsExact(history: seq<Observation>, c: Constitution, currentTick: nat, ride: Ride, price: int)
    requires 0 < c.consecutiveSnapshotsRequired <= |history|
    ensures Warranted(history, c, ride, price) <==>
            && |ProposeFor(history, c, currentTick, ride)| == 1
            && AsksFor(ProposeFor(history, c, currentTick, ride)[0], ride, price, currentTick)
  {
    var n := c.consecutiveSnapshotsRequired;
    var recent := RecentSightings(history, n, ride.id);
    FullSightings(history, n, ride.id);
    if |recent| == n {
      UniformIsAll(history, c, ride.id, true);
      UniformIsAll(history, c, ride.id, false);
    } else {
      var k := MissingSighting(history, n, ride.id);
      assert !QueueAt(history, c, ride.id, true, k) && !QueueAt(history, c, ride.id, false, k);
    }
  }

  lemma UniformIsAll(history: seq<Observation>, c: Constitution, id: nat, high: bool)
    requires c.consecutiveSnapshotsRequired <= |history|
    requires |RecentSightings(history, c.consecutiveSnapshotsRequired, id)| == c.consecutiveSnapshotsRequired
    ensures var recent := RecentSightings(history, c.consecutiveSnapshotsRequired, id);
            Uniform(history, c, id, high) <==>
            forall r :: r in recent ==> if high then r.queueLength > c.queueLengthHighThreshold
                                        else r.queueLength <= c.queueLengthLowThreshold
  {
    var n := c.consecutiveSnapshotsRequired;
    var recent := RecentSightings(history, n, id);
    FullSightings(history, n, id);
    if Uniform(history, c, id, high) {
      forall r | r in recent
        ensures if high then r.queueLength > c.queueLengthHighThreshold else r.queueLength <= c.queueLengthLowThreshold
      {
        var k :| 0 <= k < n && recent[k] == r;
        assert QueueAt(history, c, id, high, k);
      }
    } else {
      var k :| 0 <= k < n && !QueueAt(history, c, id, high, k);
      assert recent[k] in recent;
    }
  }

  /** Soundness and completeness: the proposals correspond one to one, in ride order, to the latest
      rides for which a change is warranted, each asking for just that change; `chosen` lists the
      positions of those rides. */
  lemma ProposalsAreExact(history: seq<Observation>, c: Constitution, currentTick: nat) returns (chosen: seq<nat>)
    requires history != []
    ensures var rides := history[|history| - 1].rides;
            var made := Proposals(history, c, currentTick);
            && |chosen| == |made|
            && (forall k :: 0 <= k < |chosen| ==>
                              && chosen[k] < |rides|
                              && AsksFor(made[k], rides[chosen[k]], made[k].proposedPrice, currentTick)
                              && Warranted(history, c, rides[chosen[k]], made[k].proposedPrice))
            && (forall j, k :: 0 <= j < k < |chosen| ==> chosen[j] < chosen[k])
            && (forall i, price :: 0 <= i < |rides| && Warranted(history, c, rides[i], price) ==> i in chosen)
  {
    var n := c.consecutiveSnapshotsRequired;
    var rides := history[|history| - 1].rides;
    if n == 0 || |history| < n {
      chosen := [];
      if 0 < n {
        forall i, price | 0 <= i < |rides| ensures !Warranted(history, c, rides[i], price) {
          assert !QueueAt(history, c, rides[i].id, true, n - 1) && !QueueAt(history, c, rides[i].id, false, n - 1);
        }
      }
    } else {
      chosen := PassesAreExact(history, c, currentTick, rides);
    }
  }

  lemma {:induction false} PassesAreExact(history: seq<Observation>, c: Constitution, currentTick: nat, rides: seq<Ride>)
    returns (chosen: seq<nat>)
    requires 0 < c.consecutiveSnapshotsRequired <= |history|
    ensures var made := ProposeAll(history, c, currentTick, rides);
            && |chosen| == |made|
            && (forall k :: 0 <= k < |chosen| ==>
                              && chosen[k] < |rides|
                              && AsksFor(made[k], rides[chosen[k]], made[k].proposedPrice, currentTick)
                              && Warranted(history, c, rides[chosen[k]], made[k].proposedPrice))
            && (forall j, k :: 0 <= j < k < |chosen| ==> chosen[j] < chosen[k])
            && (forall i, price :: 0 <= i < |rides| && Warranted(history, c, rides[i], price) ==> i in chosen)
  {
    chosen := [];
    if rides != [] {
      var last := |rides| - 1;
      var ride := rides[last];
      chosen := PassesAreExact(history, c, currentTick, rides[..last]);
      forall price ensures Warranted(history, c, ride, price) <==>
                           && |ProposeFor(history, c, currentTick, ride)| == 1
                           && AsksFor(ProposeFor(history, c, currentTick, ride)[0], ride, price, currentTick)
      {
        PassIsExact(history, c, currentTick, ride, price);
      }
      if |ProposeFor(history, c, currentTick, ride)| == 1 {
        chosen := chosen + [last];
      }
    }
  }

  // --- The bounded history ------------------------------------------------------

  lemma {:induction false} SightingsInSuffix(history: seq<Observation>, bound: nat, n: nat, id: nat)
    requires n <= bound
    ensures RecentSightings(Suffix(history, bound), n, id) == RecentSightings(history, n, id)
  {
    if n > 0 && history != [] {
      var last := |history| - 1;
      SuffixInit(history, bound);
      SightingsInSuffix(history[..last], bound - 1, n - 1, id);
      SightingsStep(Suffix(history, bound), n, id);
      SightingsStep(history, n, id);
    }
  }

  /** The sightings are that of the last snapshot, if any, and those before. */
  lemma SightingsStep(history: seq<Observation>, n: nat, id: nat)
    requires n > 0 && history != []
    ensures var last := |history| - 1;
            var found := FindRide(history[last].rides, id);
            RecentSightings(history, n, id) ==
            (if found.Some? then [found.value] else []) + RecentSightings(history[..last], n - 1, id)
  {
  }

  lemma SuffixInit(history: seq<Observation>, bound: nat)
    requires bound > 0 && history != []
    ensures var s := Suffix(history, bound);
            && s != [] && s[|s| - 1] == history[|history| - 1]
            && s[..|s| - 1] == Suffix(history[..|history| - 1], bound - 1)
  {
  }

  lemma {:induction false} PassesInSuffix(history: seq<Observation>, c: Constitution, currentTick: nat, rides: seq<Ride>)
    requires c.consecutiveSnapshotsRequired <= MAX_HISTORY
    ensures ProposeAll(Suffix(history, MAX_HISTORY), c, currentTick, rides) == ProposeAll(history, c, currentTick, rides)
  {
    if rides != [] {
      var last := |rides| - 1;
      PassesInSuffix(history, c, currentTick, rides[..last]);
      SightingsInSuffix(history, MAX_HISTORY, c.consecutiveSnapshotsRequired, rides[last].id);
    }
  }

  /** For every stream of snapshots, the rule sees no difference between the 64 entries kept and the
      whole stream, unless it needs more than 64 of them, and then it never proposes anything. */
  lemma BoundedHistoryRefinesStream(stream: seq<Observation>, c: Constitution, currentTick: nat)
    ensures c.consecutiveSnapshotsRequired <= 64 ==>
              Proposals(Recorded(stream), c, currentTick) == Proposals(stream, c, currentTick)
    ensures c.consecutiveSnapshotsRequired > 64 ==> Proposals(Recorded(stream), c, currentTick) == []
  {
    RecordedIsSuffix(stream);
    if c.consecutiveSnapshotsRequired <= MAX_HISTORY && stream != [] {
      PassesInSuffix(stream, c, currentTick, stream[|stream| - 1].rides);
    }
  }
}
