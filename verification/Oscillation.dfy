/** The watchdog's oscillation detector (core/orchestrator/src/oscillation.rs), and what its
    greedy loop really measures: the longest strictly alternating subsequence of the prices. */
module Oscillation {
  import opened Common

  datatype Direction = Up | Down

  datatype Scan = Scan(reversals: nat, last: Option<Direction>)

  /** One step of the loop: the effect of the neighbours `a`, `b` on the running state. */
  function Advance(s: Scan, a: int, b: int): Scan {
    if a == b then s
    else
      var d := if a < b then Up else Down;
      Scan(if s.last.Some? && s.last.value != d then s.reversals + 1 else s.reversals, Some(d))
  }

  /** The state of the loop once it has passed over all of `prices`. */
  function ScanAll(prices: seq<int>): Scan {
    if |prices| < 2 then Scan(0, None)
    else
      var n := |prices| - 1;
      Advance(ScanAll(prices[..n]), prices[n - 1], prices[n])
  }

  function Reversals(prices: seq<int>): nat {
    ScanAll(prices).reversals
  }

  method CountReversals(prices: seq<int>) returns (reversals: nat)
    ensures reversals == Reversals(prices)
  {
    reversals := 0;
    var lastDirection: Option<Direction> := None;
    var i := 1;
    while i < |prices|
      invariant 1 <= i
      invariant |prices| < 2 ==> Scan(reversals, lastDirection) == Scan(0, None)
      invariant i <= |prices| ==> Scan(reversals, lastDirection) == ScanAll(prices[..i])
      invariant |prices| >= 2 ==> i <= |prices|
    {
      assert prices[..i + 1][..i] == prices[..i];
      if prices[i - 1] != prices[i] {
        var direction := if prices[i - 1] < prices[i] then Up else Down;
        if lastDirection.Some? && lastDirection.value != direction {
          reversals := reversals + 1;
        }
        lastDirection := Some(direction);
      }
      i := i + 1;
    }
    assert |prices| >= 2 ==> prices[..i] == prices;
  }

  // --- Subsequences, given by the indices they keep --------------------------

  /** `at` picks out a subsequence of `prices`, first to last. */
  ghost predicate Picks(prices: seq<int>, at: seq<nat>) {
    && (forall k :: 0 <= k < |at| ==> at[k] < |prices|)
    && (forall k :: 0 < k < |at| ==> at[k - 1] < at[k])
  }

  /** The price picked k-th. */
  ghost function At(prices: seq<int>, at: seq<nat>, k: nat): int {
    if k < |at| && at[k] < |prices| then prices[at[k]] else 0
  }

  /** The direction of the step into the k-th picked price. */
  ghost predicate StepsUp(prices: seq<int>, at: seq<nat>, k: nat) {
    k > 0 && At(prices, at, k - 1) < At(prices, at, k)
  }

  /** The picked prices go strictly up and down in turn. */
  ghost predicate Alternates(prices: seq<int>, at: seq<nat>) {
    && (forall k :: 0 < k < |at| ==> At(prices, at, k - 1) != At(prices, at, k))
    && (forall k :: 1 < k < |at| ==> StepsUp(prices, at, k) != StepsUp(prices, at, k - 1))
  }

  /** The bound the scan puts on an alternating subsequence: one shorter when its last step goes
      against the scan's last direction. */
  ghost predicate WithinBound(prices: seq<int>, at: seq<nat>)
    requires Picks(prices, at)
  {
    var s := ScanAll(prices);
    if s.last.None? then |at| <= 1
    else if |at| >= 2 && StepsUp(prices, at, |at| - 1) == s.last.value.Up? then |at| <= s.reversals + 2
    else |at| <= s.reversals + 1
  }

  /** Two prices have no direction between them while the scan has seen none. */
  lemma {:induction false} NoDirectionMeansConstant(prices: seq<int>, i: nat)
    requires ScanAll(prices).last.None? && i < |prices|
    ensures prices[i] == prices[|prices| - 1]
  {
    if |prices| >= 2 && i < |prices| - 1 {
      NoDirectionMeansConstant(prices[..|prices| - 1], i);
    }
  }

  lemma PicksPrefix(prices: seq<int>, at: seq<nat>)
    requires |prices| > 0 && Picks(prices, at) && Alternates(prices, at)
    requires at == [] || at[|at| - 1] < |prices| - 1
    ensures Picks(prices[..|prices| - 1], at) && Alternates(prices[..|prices| - 1], at)
  {
    forall k | 0 <= k < |at| ensures at[k] < |prices| - 1 {
      PicksIncreasing(prices, at, k, |at| - 1);
    }
    var p := prices[..|prices| - 1];
    assert forall k :: 0 <= k < |at| ==> At(p, at, k) == At(prices, at, k);
    forall k | 1 < k < |at| ensures StepsUp(p, at, k) != StepsUp(p, at, k - 1) {
      assert StepsUp(prices, at, k) != StepsUp(prices, at, k - 1);
    }
  }

  lemma {:induction false} PicksIncreasing(prices: seq<int>, at: seq<nat>, i: nat, j: nat)
    requires Picks(prices, at) && i <= j < |at|
    ensures at[i] <= at[j]
  {
    if i < j {
      PicksIncreasing(prices, at, i, j - 1);
    }
  }

  lemma AlternatesInit(prices: seq<int>, at: seq<nat>)
    requires Picks(prices, at) && Alternates(prices, at) && |at| > 0
    ensures Picks(prices, at[..|at| - 1]) && Alternates(prices, at[..|at| - 1])
  {
    var a := at[..|at| - 1];
    assert forall k :: 0 <= k < |a| ==> At(prices, a, k) == At(prices, at, k);
    forall k | 1 < k < |a| ensures StepsUp(prices, a, k) != StepsUp(prices, a, k - 1) {
      assert StepsUp(prices, at, k) != StepsUp(prices, at, k - 1);
    }
  }

  /** Moving the last pick keeps the alternation when it keeps the direction of the last step. */
  lemma AlternatesMoveLast(prices: seq<int>, at: seq<nat>, i: nat)
    requires Picks(prices, at) && Alternates(prices, at) && |at| >= 2
    requires at[|at| - 2] < i < |prices|
    requires prices[at[|at| - 2]] != prices[i]
    requires (prices[at[|at| - 2]] < prices[i]) == StepsUp(prices, at, |at| - 1)
    ensures Picks(prices, at[|at| - 1 := i]) && Alternates(prices, at[|at| - 1 := i])
    ensures StepsUp(prices, at[|at| - 1 := i], |at| - 1) == StepsUp(prices, at, |at| - 1)
  {
    var b := at[|at| - 1 := i];
    assert forall k :: 0 <= k < |at| - 1 ==> At(prices, b, k) == At(prices, at, k);
    forall k | 1 < k < |b| ensures StepsUp(prices, b, k) != StepsUp(prices, b, k - 1) {
      assert StepsUp(prices, at, k) != StepsUp(prices, at, k - 1);
    }
  }

  /** No alternating subsequence is longer than the scan allows. */
  lemma {:induction false} AlternatingIsBounded(prices: seq<int>, at: seq<nat>)
    requires Picks(prices, at) && Alternates(prices, at)
    ensures WithinBound(prices, at)
    decreases |prices|, |at|
  {
    if |at| <= 1 {
    } else {
      PicksIncreasing(prices, at, 0, |at| - 2);
      var n := |prices| - 1;
      var p := prices[..n];
      if at[|at| - 1] < n {
        PicksPrefix(prices, at);
        AlternatingIsBounded(p, at);
        assert StepsUp(p, at, |at| - 1) == StepsUp(prices, at, |at| - 1);
      } else {
        BoundedAtLast(prices, at);
      }
    }
  }

  lemma {:induction false} BoundedAtLast(prices: seq<int>, at: seq<nat>)
    requires Picks(prices, at) && Alternates(prices, at) && |at| >= 2 && at[|at| - 1] == |prices| - 1
    ensures WithinBound(prices, at)
    decreases |prices|, |at|, 0
  {
    var n := |prices| - 1;
    var p := prices[..n];
    var prev := at[|at| - 2];
    var up := StepsUp(prices, at, |at| - 1);
    var init := at[..|at| - 1];
    AlternatesInit(prices, at);
    PicksPrefix(prices, init);
    AlternatingIsBounded(p, init);
    if |init| >= 2 {
      assert StepsUp(prices, at, |at| - 2) != up;
      assert StepsUp(p, init, |init| - 1) == StepsUp(prices, at, |at| - 2);
    }
    if ScanAll(p).last.None? {
      NoDirectionMeansConstant(p, prev);
    } else if prev < n - 1 && p[prev] != p[n - 1] && (p[prev] < p[n - 1]) == up {
      var moved := at[|at| - 1 := n - 1];
      AlternatesMoveLast(prices, at, n - 1);
      PicksPrefix(prices, moved);
      AlternatingIsBounded(p, moved);
      assert StepsUp(p, moved, |at| - 1) == up;
    }
  }

  /** The turning points of `prices`, ending with its last index. */
  ghost function TurningPoints(prices: seq<int>): (at: seq<nat>)
    requires |prices| > 0
    ensures |at| > 0 && at[|at| - 1] == |prices| - 1
  {
    if |prices| == 1 then [0]
    else
      var n := |prices| - 1;
      var t := TurningPoints(prices[..n]);
      var s := ScanAll(prices[..n]);
      if prices[n - 1] != prices[n] && (s.last.None? || s.last.value.Up? != (prices[n - 1] < prices[n]))
      then t + [n]
      else t[|t| - 1 := n]
  }

  /** The turning points alternate, and there are as many of them as the bound allows. */
  lemma {:induction false} TurningPointsMeetBound(prices: seq<int>)
    requires |prices| > 0
    ensures var at := TurningPoints(prices);
            && Picks(prices, at) && Alternates(prices, at)
            && |at| == (if ScanAll(prices).last.None? then 1 else Reversals(prices) + 2)
            && (|at| >= 2 ==> StepsUp(prices, at, |at| - 1) == ScanAll(prices).last.value.Up?)
  {
    if |prices| > 1 {
      var n := |prices| - 1;
      var p := prices[..n];
      TurningPointsMeetBound(p);
      var t := TurningPoints(p);
      var s := ScanAll(p);
      AlternatesIn(prices, t);
      if s.last.None? {
        NoDirectionNoReversals(p);
      }
      if prices[n - 1] != prices[n] && (s.last.None? || s.last.value.Up? != (prices[n - 1] < prices[n])) {
        AlternatesAppend(prices, t, n);
      } else if |t| >= 2 {
        AlternatesMoveLast(prices, t, n);
      }
    }
  }

  /** Alternation in a prefix is alternation in the whole. */
  lemma AlternatesIn(prices: seq<int>, at: seq<nat>)
    requires |prices| > 0
    requires Picks(prices[..|prices| - 1], at) && Alternates(prices[..|prices| - 1], at)
    ensures Picks(prices, at) && Alternates(prices, at)
    ensures forall k :: 0 < k < |at| ==> StepsUp(prices, at, k) == StepsUp(prices[..|prices| - 1], at, k)
  {
    var p := prices[..|prices| - 1];
    assert forall k :: 0 <= k < |at| ==> At(prices, at, k) == At(p, at, k);
    forall k | 1 < k < |at| ensures StepsUp(prices, at, k) != StepsUp(prices, at, k - 1) {
      assert StepsUp(p, at, k) != StepsUp(p, at, k - 1);
    }
  }

  lemma AlternatesAppend(prices: seq<int>, at: seq<nat>, i: nat)
    requires Picks(prices, at) && Alternates(prices, at) && |at| > 0
    requires at[|at| - 1] < i < |prices| && At(prices, at, |at| - 1) != prices[i]
    requires |at| >= 2 ==> StepsUp(prices, at, |at| - 1) != (At(prices, at, |at| - 1) < prices[i])
    ensures Picks(prices, at + [i]) && Alternates(prices, at + [i])
    ensures StepsUp(prices, at + [i], |at|) == (At(prices, at, |at| - 1) < prices[i])
  {
    var b := at + [i];
    assert forall k :: 0 <= k < |at| ==> At(prices, b, k) == At(prices, at, k);
    forall k | 1 < k < |b| ensures StepsUp(prices, b, k) != StepsUp(prices, b, k - 1) {
      if k < |at| {
        assert StepsUp(prices, at, k) != StepsUp(prices, at, k - 1);
      }
    }
  }

  /** Two unequal neighbours occur exactly when the scan has found a direction. */
  lemma {:induction false} DirectionIffChange(prices: seq<int>)
    ensures ScanAll(prices).last.Some? <==> exists i :: 0 < i < |prices| && prices[i - 1] != prices[i]
  {
    if |prices| >= 2 {
      var n := |prices| - 1;
      var p := prices[..n];
      DirectionIffChange(p);
      if ScanAll(p).last.Some? {
        var i :| 0 < i < |p| && p[i - 1] != p[i];
        assert prices[i - 1] != prices[i];
      }
      if i :| 0 < i < |prices| && prices[i - 1] != prices[i] {
        if i < n {
          assert p[i - 1] != p[i];
        }
      }
    }
  }

  /** For a price history that changes at all, the count plus two is exactly the length of the
      longest strictly alternating subsequence. */
  lemma ReversalsAreLongestAlternation(prices: seq<int>)
    requires exists i :: 0 < i < |prices| && prices[i - 1] != prices[i]
    ensures forall at: seq<nat> :: Picks(prices, at) && Alternates(prices, at) ==> |at| <= Reversals(prices) + 2
    ensures exists at: seq<nat> :: Picks(prices, at) && Alternates(prices, at) && |at| == Reversals(prices) + 2
  {
    DirectionIffChange(prices);
    TurningPointsMeetBound(prices);
    forall at: seq<nat> | Picks(prices, at) && Alternates(prices, at)
      ensures |at| <= Reversals(prices) + 2
    {
      AlternatingIsBounded(prices, at);
    }
  }

  ghost function Picked(prices: seq<int>, at: seq<nat>): seq<int>
    requires Picks(prices, at)
  {
    seq(|at|, k requires 0 <= k < |at| => prices[at[k]])
  }

  ghost function Compose(at: seq<nat>, t: seq<nat>): (r: seq<nat>)
    requires forall k :: 0 <= k < |t| ==> t[k] < |at|
    ensures |r| == |t| && forall k :: 0 <= k < |t| ==> r[k] == at[t[k]]
  {
    seq(|t|, k requires 0 <= k < |t| => at[t[k]])
  }

  /** A subsequence of a subsequence is a subsequence of the whole, and alternates as it does. */
  lemma ComposedAlternates(prices: seq<int>, at: seq<nat>, t: seq<nat>)
    requires Picks(prices, at) && Picks(Picked(prices, at), t) && Alternates(Picked(prices, at), t)
    ensures Picks(prices, Compose(at, t)) && Alternates(prices, Compose(at, t))
  {
    var sub, composed := Picked(prices, at), Compose(at, t);
    forall k | 0 < k < |composed| ensures composed[k - 1] < composed[k] {
      PicksStrict(prices, at, t[k - 1], t[k]);
    }
    assert forall k :: 0 <= k < |t| ==> At(prices, composed, k) == At(sub, t, k);
    forall k | 1 < k < |composed|
      ensures StepsUp(prices, composed, k) != StepsUp(prices, composed, k - 1)
    {
      assert StepsUp(sub, t, k) != StepsUp(sub, t, k - 1);
    }
  }

  /** No window or other subsequence of a price history has more reversals than the whole. */
  lemma SubsequenceHasNoMoreReversals(prices: seq<int>, at: seq<nat>)
    requires Picks(prices, at)
    ensures Reversals(Picked(prices, at)) <= Reversals(prices)
  {
    var sub := Picked(prices, at);
    if sub != [] && ScanAll(sub).last.Some? {
      TurningPointsMeetBound(sub);
      var t := TurningPoints(sub);
      ComposedAlternates(prices, at, t);
      AlternatingIsBounded(prices, Compose(at, t));
    } else {
      NoDirectionNoReversals(sub);
    }
  }

  lemma {:induction false} PicksStrict(prices: seq<int>, at: seq<nat>, i: nat, j: nat)
    requires Picks(prices, at) && i < j < |at|
    ensures at[i] < at[j]
  {
    PicksIncreasing(prices, at, i, j - 1);
  }

  lemma {:induction false} NoDirectionNoReversals(prices: seq<int>)
    requires ScanAll(prices).last.None?
    ensures Reversals(prices) == 0
  {
    if |prices| >= 2 {
      NoDirectionNoReversals(prices[..|prices| - 1]);
    }
  }

  /** Each reversal needs a price of its own beyond the first two. */
  lemma ReversalsBelowLength(prices: seq<int>)
    ensures Reversals(prices) <= if |prices| <= 2 then 0 else |prices| - 2
  {
    if prices != [] && ScanAll(prices).last.Some? {
      TurningPointsMeetBound(prices);
      var t := TurningPoints(prices);
      PicksBelow(prices, t, |t| - 1);
    } else {
      NoDirectionNoReversals(prices);
    }
  }

  lemma {:induction false} PicksBelow(prices: seq<int>, at: seq<nat>, k: nat)
    requires Picks(prices, at) && k < |at|
    ensures k <= at[k]
  {
    if k > 0 {
      PicksBelow(prices, at, k - 1);
    }
  }
}
