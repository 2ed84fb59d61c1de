/** The bounded in-memory view of the park (core/world-model/src/lib.rs). */
module WorldModels {
  import opened Common

  const MAX_HISTORY: nat := 64

  datatype Ride = Ride(id: nat, price: nat, queueLength: nat)

  /** An observation.snapshot, reduced to what the decision pipeline reads. */
  datatype Observation = Observation(cash: int, rides: seq<Ride>)

  /** The last `n` elements, or all of them when there are fewer. */
  function Suffix<T>(xs: seq<T>, n: nat): (r: seq<T>)
    ensures |r| == if |xs| <= n then |xs| else n
  {
    if |xs| <= n then xs else xs[|xs| - n..]
  }

  /** Change in cash between the latest entry and the one `n` before it. */
  function CashTrend(history: seq<Observation>, n: nat): Option<int> {
    if n == 0 || |history| <= n then None
    else Some(history[|history| - 1].cash - history[|history| - 1 - n].cash)
  }

  class WorldModel {
    var history: seq<Observation>
    var tick: Option<nat>

    constructor ()
      ensures history == [] && tick == None
    {
      history := [];
      tick := None;
    }

    method RecordSnapshot(snapshot: Observation)
      modifies this`history
      ensures history == Suffix(old(history) + [snapshot], MAX_HISTORY)
    {
      history := history + [snapshot];
      while |history| > MAX_HISTORY
        invariant |history| >= MAX_HISTORY || history == old(history) + [snapshot]
        invariant history == Suffix(old(history) + [snapshot], |history|)
        invariant |history| <= |old(history)| + 1
      {
        history := history[1..];
      }
    }

    method RecordTick(tick: nat)
      modifies this`tick
      ensures this.tick == Some(tick)
    {
      this.tick := Some(tick);
    }
  }

  /** The history a fresh model holds after recording a whole stream. */
  function Recorded(stream: seq<Observation>): seq<Observation> {
    if stream == [] then []
    else Suffix(Recorded(stream[..|stream| - 1]) + [stream[|stream| - 1]], MAX_HISTORY)
  }

  /** It is the last ones that are kept, in order. */
  lemma SuffixIsLast<T>(xs: seq<T>, n: nat)
    ensures forall i :: 0 <= i < |Suffix(xs, n)| ==> Suffix(xs, n)[i] == xs[i + |xs| - |Suffix(xs, n)|]
  {
  }

  lemma SuffixStep<T>(xs: seq<T>, x: T, n: nat)
    ensures Suffix(Suffix(xs, n) + [x], n) == Suffix(xs + [x], n)
  {
  }

  /** Evicting one entry at a time leaves exactly the last 64 of the stream. */
  lemma {:induction false} RecordedIsSuffix(stream: seq<Observation>)
    ensures Recorded(stream) == Suffix(stream, 64)
  {
    if stream != [] {
      var last := |stream| - 1;
      RecordedIsSuffix(stream[..last]);
      SuffixStep(stream[..last], stream[last], MAX_HISTORY);
      assert stream[..last] + [stream[last]] == stream;
    }
  }

  lemma SuffixCashTrend(stream: seq<Observation>, bound: nat, n: nat)
    ensures CashTrend(Suffix(stream, bound), n) == if n < bound then CashTrend(stream, n) else None
  {
  }

  /** A trend over fewer than 64 steps is the one the complete stream has; a longer one is never reported. It is
      what was gained since the n-th entry before the latest. */
  lemma BoundedCashTrend(stream: seq<Observation>, n: nat)
    ensures n < 64 ==> CashTrend(Recorded(stream), n) == CashTrend(stream, n)
    ensures n >= 64 ==> CashTrend(Recorded(stream), n) == None
    ensures CashTrend(stream, n).Some? <==> 0 < n < |stream|
    ensures 0 < n < |stream| ==> stream[|stream| - 1 - n].cash + CashTrend(stream, n).value == stream[|stream| - 1].cash
  {
    RecordedIsSuffix(stream);
    SuffixCashTrend(stream, MAX_HISTORY, n);
  }
}
