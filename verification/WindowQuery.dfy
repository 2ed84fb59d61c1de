/** What the watchdog's window query returns, and when its oscillation check trips, said of the stored
    action rows themselves. */
module WindowQueries {
  import opened Common
  import opened Governors
  import opened Ledgers
  import opened Watchdogs
  import opened Oscillation

  /** Action `i` is the simulation's. */
  predicate IsOwn(l: Ledger, simulation: Uuid, i: nat) {
    i < |l.actions| && SimulationOf(l, l.actions[i]) == Some(simulation)
  }

  /** Action `i` is the simulation's, and no other of its actions is more than `window` ticks later. */
  ghost predicate InWindow(l: Ledger, simulation: Uuid, window: nat, i: nat) {
    IsOwn(l, simulation, i) && forall j: nat :: IsOwn(l, simulation, j) ==> l.actions[j].tick <= l.actions[i].tick + window
  }

  /** Action `i` comes before action `j`: at an earlier tick, or created earlier at the same one. */
  predicate Precedes(l: Ledger, i: nat, j: nat)
    requires i < |l.actions| && j < |l.actions|
  {
    l.actions[i].tick < l.actions[j].tick || (l.actions[i].tick == l.actions[j].tick && i < j)
  }

  predicate Valid(l: Ledger, at: seq<nat>) {
    forall k :: 0 <= k < |at| ==> at[k] < |l.actions|
  }

  ghost predicate InOrder(l: Ledger, at: seq<nat>) {
    Valid(l, at) && forall j, k :: 0 <= j < k < |at| ==> Precedes(l, at[j], at[k])
  }

  /** The rows are those of these actions, field by field. */
  ghost predicate AreRowsOf(l: Ledger, rows: seq<PriceChange>, at: seq<nat>) {
    && |rows| == |at| && Valid(l, at)
    && (forall k :: 0 <= k < |at| ==>
                      && rows[k].rideId == l.actions[at[k]].rideId && rows[k].price == l.actions[at[k]].price
                      && rows[k].tick == l.actions[at[k]].tick)
  }

  // --- The query ---------------------------------------------------------------------------

  /** The actions the query selects, in order of creation. */
  ghost function Selected(l: Ledger, simulation: Uuid, since: int, n: nat): seq<nat>
    requires n <= |l.actions|
  {
    if n == 0 then []
    else Selected(l, simulation, since, n - 1) + if IsOwn(l, simulation, n - 1) && l.actions[n - 1].tick >= since then [n - 1] else []
  }

  /** Rising positions below `n`. */
  predicate Climbs(at: seq<nat>, n: nat) {
    (forall k :: 0 <= k < |at| ==> at[k] < n) && (forall j, k :: 0 <= j < k < |at| ==> at[j] < at[k])
  }

  lemma ClimbsOn(at: seq<nat>, n: nat)
    requires Climbs(at, n)
    ensures Climbs(at, n + 1) && Climbs(at + [], n + 1) && Climbs(at + [n], n + 1)
  {
    assert at + [] == at;
  }

  lemma {:induction false} SelectedRows(l: Ledger, simulation: Uuid, since: int, n: nat)
    requires n <= |l.actions|
    ensures AreRowsOf(l, ChangesSince(l, simulation, since, n), Selected(l, simulation, since, n))
  {
    if n > 0 {
      SelectedRows(l, simulation, since, n - 1);
    }
  }

  lemma {:induction false} SelectedIs(l: Ledger, simulation: Uuid, since: int, n: nat)
    requires n <= |l.actions|
    ensures Climbs(Selected(l, simulation, since, n), n)
    ensures forall i: nat :: i in Selected(l, simulation, since, n) <==> i < n && IsOwn(l, simulation, i) && l.actions[i].tick >= since
  {
    if n > 0 {
      SelectedIs(l, simulation, since, n - 1);
      ClimbsOn(Selected(l, simulation, since, n - 1), n - 1);
    }
  }

  ghost function Inserted(l: Ledger, at: seq<nat>, i: nat): (r: seq<nat>)
    requires Valid(l, at) && i < |l.actions|
    ensures Valid(l, r)
  {
    if at == [] || l.actions[at[|at| - 1]].tick <= l.actions[i].tick then at + [i]
    else Inserted(l, at[..|at| - 1], i) + [at[|at| - 1]]
  }

  lemma {:induction false} InsertedRows(l: Ledger, rows: seq<PriceChange>, at: seq<nat>, x: PriceChange, i: nat)
    requires AreRowsOf(l, rows, at) && i < |l.actions| && AreRowsOf(l, [x], [i])
    ensures AreRowsOf(l, InsertByTick(rows, x), Inserted(l, at, i))
  {
    assert [x][0] == x && [i][0] == i;
    if at != [] && l.actions[at[|at| - 1]].tick > l.actions[i].tick {
      InsertedRows(l, rows[..|rows| - 1], at[..|at| - 1], x, i);
    }
  }

  lemma {:induction false} InsertedElements(l: Ledger, at: seq<nat>, i: nat)
    requires Valid(l, at) && i < |l.actions|
    ensures forall x :: x in Inserted(l, at, i) <==> x in at || x == i
  {
    if at != [] && l.actions[at[|at| - 1]].tick > l.actions[i].tick {
      InsertedElements(l, at[..|at| - 1], i);
      assert at == at[..|at| - 1] + [at[|at| - 1]];
    }
  }

  lemma {:induction false} InsertedInOrder(l: Ledger, at: seq<nat>, i: nat)
    requires InOrder(l, at) && i < |l.actions| && forall k :: 0 <= k < |at| ==> at[k] < i
    ensures InOrder(l, Inserted(l, at, i))
  {
    if at != [] {
      var last := at[|at| - 1];
      if l.actions[last].tick > l.actions[i].tick {
        var init := at[..|at| - 1];
        InsertedInOrder(l, init, i);
        InsertedElements(l, init, i);
        forall x | x in Inserted(l, init, i) ensures Precedes(l, x, last) {
          if x != i {
            var k :| 0 <= k < |init| && init[k] == x;
            assert at[k] == x;
          }
        }
        OrderAppend(l, Inserted(l, init, i), last);
      } else {
        forall x | x in at ensures Precedes(l, x, i) {
          var k :| 0 <= k < |at| && at[k] == x;
        }
        OrderAppend(l, at, i);
      }
    }
  }

  lemma OrderAppend(l: Ledger, at: seq<nat>, last: nat)
    requires InOrder(l, at) && last < |l.actions| && forall x :: x in at ==> Precedes(l, x, last)
    ensures InOrder(l, at + [last])
  {
    forall j, k | 0 <= j < k < |at + [last]| ensures Precedes(l, (at + [last])[j], (at + [last])[k]) {
      if k == |at| {
        assert at[j] in at;
      }
    }
  }

  /** Sorting the rows sorts their actions. */
  lemma {:induction false} SortedActions(l: Ledger, rows: seq<PriceChange>, at: seq<nat>) returns (r: seq<nat>)
    requires AreRowsOf(l, rows, at) && Climbs(at, |l.actions|)
    ensures InOrder(l, r) && AreRowsOf(l, SortByTick(rows), r) && forall x :: x in r <==> x in at
  {
    r := [];
    if rows != [] {
      var n := |rows| - 1;
      var init := SortedActions(l, rows[..n], at[..n]);
      r := Inserted(l, init, at[n]);
      forall k | 0 <= k < |init| ensures init[k] < at[n] {
        assert init[k] in at[..n];
      }
      InsertedInOrder(l, init, at[n]);
      InsertedElements(l, init, at[n]);
      InsertedRows(l, SortByTick(rows[..n]), init, rows[n], at[n]);
      assert at == at[..n] + [at[n]];
    }
  }

  lemma {:induction false} MaxTickIsLargest(l: Ledger, simulation: Uuid, n: nat)
    requires n <= |l.actions|
    ensures forall j: nat :: j < n && IsOwn(l, simulation, j) ==> l.actions[j].tick <= MaxTick(l, simulation, n)
    ensures MaxTick(l, simulation, n) > 0 || (exists j: nat :: j < n && IsOwn(l, simulation, j)) ==>
              exists j: nat :: j < n && IsOwn(l, simulation, j) && l.actions[j].tick == MaxTick(l, simulation, n)
  {
    if n > 0 {
      MaxTickIsLargest(l, simulation, n - 1);
      if IsOwn(l, simulation, n - 1) && l.actions[n - 1].tick >= MaxTick(l, simulation, n - 1) {
        assert l.actions[n - 1].tick == MaxTick(l, simulation, n);
      } else {
        assert MaxTick(l, simulation, n) == MaxTick(l, simulation, n - 1);
        if i: nat :| i < n - 1 && IsOwn(l, simulation, i) && l.actions[i].tick == MaxTick(l, simulation, n - 1) {
          assert i < n;
        }
      }
    }
  }

  lemma SinceIsWindow(l: Ledger, simulation: Uuid, window: nat, i: nat)
    ensures IsOwn(l, simulation, i) ==>
              (l.actions[i].tick >= MaxTick(l, simulation, |l.actions|) - window <==> InWindow(l, simulation, window, i))
  {
    MaxTickIsLargest(l, simulation, |l.actions|);
    if IsOwn(l, simulation, i) {
      var j: nat :| j < |l.actions| && IsOwn(l, simulation, j) && l.actions[j].tick == MaxTick(l, simulation, |l.actions|);
      assert InWindow(l, simulation, window, i) ==> l.actions[j].tick <= l.actions[i].tick + window;
    }
  }

  lemma RowsSince(l: Ledger, simulation: Uuid, since: int) returns (at: seq<nat>)
    ensures InOrder(l, at) && AreRowsOf(l, SortByTick(ChangesSince(l, simulation, since, |l.actions|)), at)
    ensures forall i: nat :: i in at <==> IsOwn(l, simulation, i) && l.actions[i].tick >= since
  {
    var n := |l.actions|;
    SelectedIs(l, simulation, since, n);
    SelectedRows(l, simulation, since, n);
    at := SortedActions(l, ChangesSince(l, simulation, since, n), Selected(l, simulation, since, n));
  }

  /** The rows the query returns are exactly the simulation's actions at most `window` ticks before its
      newest one, each once, with its own ride, price and tick, by tick and then by creation. */
  lemma WindowQueryIsExact(l: Ledger, simulation: Uuid, window: nat) returns (at: seq<nat>)
    ensures InOrder(l, at) && AreRowsOf(l, RecentPriceChanges(l, simulation, window), at)
    ensures forall i: nat :: i in at <==> InWindow(l, simulation, window, i)
  {
    var n := |l.actions|;
    var since := MaxTick(l, simulation, n) - window;
    at := RowsSince(l, simulation, since);
    forall i: nat ensures i in at <==> InWindow(l, simulation, window, i) {
      SinceIsWindow(l, simulation, window, i);
    }
  }

  // --- The check -----------------------------------------------------------------------------

  /** The actions of one ride. */
  ghost function OfRide(l: Ledger, at: seq<nat>, ride: nat): (r: seq<nat>)
    requires Valid(l, at)
    ensures Valid(l, r) && forall x :: x in r <==> x in at && l.actions[x].rideId == ride
  {
    if at == [] then []
    else
      var n := |at| - 1;
      assert at == at[..n] + [at[n]];
      OfRide(l, at[..n], ride) + if l.actions[at[n]].rideId == ride then [at[n]] else []
  }

  lemma {:induction false} OfRideInOrder(l: Ledger, at: seq<nat>, ride: nat)
    requires InOrder(l, at)
    ensures InOrder(l, OfRide(l, at, ride))
  {
    if at != [] {
      var n := |at| - 1;
      OfRideInOrder(l, at[..n], ride);
      if l.actions[at[n]].rideId == ride {
        forall x | x in OfRide(l, at[..n], ride) ensures Precedes(l, x, at[n]) {
          var k :| 0 <= k < n && at[..n][k] == x;
          assert at[k] == x;
        }
        OrderAppend(l, OfRide(l, at[..n], ride), at[n]);
      }
    }
  }

  lemma {:induction false} OfRidePrices(l: Ledger, rows: seq<PriceChange>, at: seq<nat>, ride: nat)
    requires AreRowsOf(l, rows, at)
    ensures var own := OfRide(l, at, ride);
            |PricesOf(rows, ride)| == |own| && forall k :: 0 <= k < |own| ==> PricesOf(rows, ride)[k] == l.actions[own[k]].price
  {
    if rows != [] {
      OfRidePrices(l, rows[..|rows| - 1], at[..|at| - 1], ride);
    }
  }

  /** These actions of the ride are in the window and in order, and their prices go up and down in turn. */
  ghost predicate Zigzag(l: Ledger, simulation: Uuid, window: nat, ride: nat, at: seq<nat>) {
    && InOrder(l, at)
    && (forall k :: 0 <= k < |at| ==> InWindow(l, simulation, window, at[k]) && l.actions[at[k]].rideId == ride)
    && (forall k :: 0 < k < |at| ==> l.actions[at[k - 1]].price != l.actions[at[k]].price)
    && (forall k :: 1 < k < |at| ==>
                      (l.actions[at[k - 2]].price < l.actions[at[k - 1]].price <==> l.actions[at[k - 1]].price > l.actions[at[k]].price))
  }

  /** A ride's actions in the window, all of them. */
  ghost predicate AllOfRide(l: Ledger, simulation: Uuid, window: nat, ride: nat, own: seq<nat>) {
    && InOrder(l, own)
    && forall i: nat :: i in own <==> InWindow(l, simulation, window, i) && l.actions[i].rideId == ride
  }

  ghost predicate ArePrices(l: Ledger, prices: seq<int>, own: seq<nat>) {
    Valid(l, own) && |prices| == |own| && forall k :: 0 <= k < |own| ==> prices[k] == l.actions[own[k]].price
  }

  /** Picking from the prices is picking from the actions. */
  lemma PickedZigzag(l: Ledger, simulation: Uuid, window: nat, ride: nat, own: seq<nat>, prices: seq<int>, t: seq<nat>)
    requires AllOfRide(l, simulation, window, ride, own) && ArePrices(l, prices, own) && Picks(prices, t) && Alternates(prices, t)
    ensures Zigzag(l, simulation, window, ride, Compose(own, t))
  {
    var at := Compose(own, t);
    forall j, k | 0 <= j < k < |at| ensures Precedes(l, at[j], at[k]) {
      PicksStrict(prices, t, j, k);
    }
    forall k | 0 <= k < |at| ensures InWindow(l, simulation, window, at[k]) && l.actions[at[k]].rideId == ride {
      assert own[t[k]] in own;
    }
    forall k | 0 < k < |at| ensures l.actions[at[k - 1]].price != l.actions[at[k]].price {
      assert At(prices, t, k - 1) != At(prices, t, k);
    }
    forall k | 1 < k < |at|
      ensures l.actions[at[k - 2]].price < l.actions[at[k - 1]].price <==> l.actions[at[k - 1]].price > l.actions[at[k]].price
    {
      assert StepsUp(prices, t, k) != StepsUp(prices, t, k - 1);
      assert At(prices, t, k - 1) != At(prices, t, k);
    }
  }

  ghost function Position(own: seq<nat>, x: nat): (k: nat)
    requires x in own
    ensures k < |own| && own[k] == x
  {
    var k :| 0 <= k < |own| && own[k] == x;
    k
  }

  lemma PositionsFollow(l: Ledger, own: seq<nat>, i: nat, j: nat)
    requires InOrder(l, own) && i < |own| && j < |own|
    ensures Precedes(l, own[i], own[j]) <==> i < j
  {
    assert i < j ==> Precedes(l, own[i], own[j]);
    assert j < i ==> Precedes(l, own[j], own[i]);
  }

  /** And the other way round. */
  lemma ZigzagIsPicked(l: Ledger, simulation: Uuid, window: nat, ride: nat, own: seq<nat>, prices: seq<int>, at: seq<nat>)
    returns (t: seq<nat>)
    requires AllOfRide(l, simulation, window, ride, own) && ArePrices(l, prices, own) && Zigzag(l, simulation, window, ride, at)
    ensures |t| == |at| && Picks(prices, t) && Alternates(prices, t)
  {
    assert forall k :: 0 <= k < |at| ==> at[k] in own;
    t := seq(|at|, k requires 0 <= k < |at| => Position(own, at[k]));
    forall k | 0 < k < |t| ensures t[k - 1] < t[k] {
      PositionsFollow(l, own, t[k - 1], t[k]);
    }
    forall k | 0 <= k < |t| ensures At(prices, t, k) == l.actions[at[k]].price {
      assert own[t[k]] == at[k];
    }
    ZigzagAlternates(l, simulation, window, ride, prices, at, t);
  }

  lemma ZigzagAlternates(l: Ledger, simulation: Uuid, window: nat, ride: nat, prices: seq<int>, at: seq<nat>, t: seq<nat>)
    requires Zigzag(l, simulation, window, ride, at) && |t| == |at|
    requires forall k :: 0 <= k < |t| ==> At(prices, t, k) == l.actions[at[k]].price
    ensures Alternates(prices, t)
  {
  }

  /** A ride's price has reversed more than `limit` times if and only if more than `limit` + 2 of its stored
      prices in the window go up and down in turn. */
  lemma ReversalsAreZigzags(l: Ledger, simulation: Uuid, window: nat, ride: nat, limit: nat)
    ensures Reversals(PricesOf(RecentPriceChanges(l, simulation, window), ride)) > limit <==>
            exists at: seq<nat> :: Zigzag(l, simulation, window, ride, at) && |at| > limit + 2
  {
    var all := WindowQueryIsExact(l, simulation, window);
    var rows := RecentPriceChanges(l, simulation, window);
    var own, prices := OfRide(l, all, ride), PricesOf(rows, ride);
    OfRideInOrder(l, all, ride);
    OfRidePrices(l, rows, all, ride);
    PricesZigzag(l, simulation, window, ride, limit, own, prices);
  }

  lemma ConstantNeverAlternates(prices: seq<int>, t: seq<nat>)
    requires Picks(prices, t) && |t| >= 2
    ensures ScanAll(prices).last.None? ==> !Alternates(prices, t)
  {
    if ScanAll(prices).last.None? {
      NoDirectionMeansConstant(prices, t[0]);
      NoDirectionMeansConstant(prices, t[1]);
      assert At(prices, t, 0) == At(prices, t, 1);
    }
  }

  lemma PricesZigzag(l: Ledger, simulation: Uuid, window: nat, ride: nat, limit: nat, own: seq<nat>, prices: seq<int>)
    requires AllOfRide(l, simulation, window, ride, own) && ArePrices(l, prices, own)
    ensures Reversals(prices) > limit <==> exists at: seq<nat> :: Zigzag(l, simulation, window, ride, at) && |at| > limit + 2
  {
    DirectionIffChange(prices);
    if Reversals(prices) > limit {
      if ScanAll(prices).last.None? {
        NoDirectionNoReversals(prices);
      }
      ReversalsAreLongestAlternation(prices);
      var t: seq<nat> :| Picks(prices, t) && Alternates(prices, t) && |t| == Reversals(prices) + 2;
      PickedZigzag(l, simulation, window, ride, own, prices, t);
      assert |Compose(own, t)| > limit + 2;
    }
    if at: seq<nat> :| Zigzag(l, simulation, window, ride, at) && |at| > limit + 2 {
      var t := ZigzagIsPicked(l, simulation, window, ride, own, prices, at);
      ConstantNeverAlternates(prices, t);
      ReversalsAreLongestAlternation(prices);
    }
  }

  /** The query finds rides that swing, and only those: some stored prices of one ride of the simulation,
      in the window and by tick, go up and down in turn, more than `limit` + 2 of them. */
  ghost predicate Swings(l: Ledger, simulation: Uuid, window: nat, limit: nat) {
    exists ride: nat, at: seq<nat> :: Zigzag(l, simulation, window, ride, at) && |at| > limit + 2
  }

  lemma TrippedIffSwings(c: Constitution, l: Ledger, simulation: Uuid)
    ensures Tripped(c, RecentPriceChanges(l, simulation, c.oscillationWindowTicks)) != {} <==>
            Swings(l, simulation, c.oscillationWindowTicks, c.oscillationMaxReversals)
  {
    var window, limit := c.oscillationWindowTicks, c.oscillationMaxReversals;
    var rows := RecentPriceChanges(l, simulation, window);
    if ride :| ride in Tripped(c, rows) {
      ReversalsAreZigzags(l, simulation, window, ride, limit);
    }
    if ride: nat, at: seq<nat> :| Zigzag(l, simulation, window, ride, at) && |at| > limit + 2 {
      ReversalsAreZigzags(l, simulation, window, ride, limit);
      OnlySeenRidesReverse(rows, ride);
      assert ride in Tripped(c, rows);
    }
  }

  lemma {:induction false} OnlySeenRidesReverse(rows: seq<PriceChange>, ride: nat)
    ensures ride !in RidesIn(rows) ==> PricesOf(rows, ride) == []
  {
    if rows != [] {
      var n := |rows| - 1;
      OnlySeenRidesReverse(rows[..n], ride);
      assert RidesIn(rows) == RidesIn(rows[..n]) + {rows[n].rideId};
    }
  }
}
