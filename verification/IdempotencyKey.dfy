/** The text of an action's idempotency key (core/orchestrator/src/tcp_server.rs). The ledger's
    UNIQUE constraint is on this text, so two commands may collide unless it is injective. */
module IdempotencyKeys {
  import opened Common

  function Digit(d: nat): (ch: char)
    requires d < 10
    ensures '0' <= ch <= '9' && (ch as int) == 48 + d
  {
    (48 + d) as char
  }

  /** `{}` applied to an unsigned integer. */
  function Decimal(n: nat): (s: string)
    ensures |s| > 0
    ensures forall i :: 0 <= i < |s| ==> '0' <= s[i] <= '9'
  {
    if n < 10 then [Digit(n)] else Decimal(n / 10) + [Digit(n % 10)]
  }

  function Tail(rideId: nat, tick: nat): string {
    Decimal(rideId) + "-tick" + Decimal(tick)
  }

  function KeyText(simulation: Uuid, rideId: nat, tick: nat): string {
    "operator-sim" + simulation + "-ride" + Tail(rideId, tick)
  }

  predicate AllDigits(s: string) {
    forall i :: 0 <= i < |s| ==> '0' <= s[i] <= '9'
  }

  /** What a decimal text stands for. */
  function Value(s: string): nat
    requires AllDigits(s)
  {
    if s == "" then 0 else 10 * Value(s[..|s| - 1]) + (s[|s| - 1] as int - '0' as int)
  }

  /** The text of a number reads back as the number. */
  lemma {:induction false} DecimalReadsBack(n: nat)
    ensures Value(Decimal(n)) == n
  {
    LastDigit(n);
    if n >= 10 {
      DecimalReadsBack(n / 10);
    }
  }

  lemma {:induction false} DecimalInjective(a: nat, b: nat)
    requires Decimal(a) == Decimal(b)
    ensures a == b
  {
    LastDigit(a);
    LastDigit(b);
    if a >= 10 && b >= 10 {
      DecimalInjective(a / 10, b / 10);
    }
  }

  /** How the text of a number splits into its last digit and the rest. */
  lemma LastDigit(n: nat)
    ensures var s := Decimal(n);
            && (s[|s| - 1] as int) == 48 + n % 10
            && s[..|s| - 1] == (if n < 10 then [] else Decimal(n / 10))
            && (n < 10 <==> |s| == 1)
  {
  }

  /** The ride number ends where the first hyphen is. */
  lemma TailInjective(ride1: nat, tick1: nat, ride2: nat, tick2: nat)
    requires Tail(ride1, tick1) == Tail(ride2, tick2)
    ensures ride1 == ride2 && tick1 == tick2
  {
    var s, t := Tail(ride1, tick1), Tail(ride2, tick2);
    var d1, d2 := Decimal(ride1), Decimal(ride2);
    assert s[|d1|] == '-' && t[|d2|] == '-';
    assert forall i :: 0 <= i < |d1| ==> s[i] == d1[i];
    assert forall i :: 0 <= i < |d2| ==> t[i] == d2[i];
    assert |d1| == |d2|;
    assert s[..|d1|] == d1 && t[..|d2|] == d2;
    DecimalInjective(ride1, ride2);
    assert s[|d1| + 5..] == Decimal(tick1) && t[|d2| + 5..] == Decimal(tick2);
    DecimalInjective(tick1, tick2);
  }

  lemma TailParts(rideId: nat, tick: nat)
    ensures var t, d := Tail(rideId, tick), |Decimal(rideId)|;
            |t| > d + 5 && t[..d] == Decimal(rideId) && t[d..d + 5] == "-tick" && t[d + 5..] == Decimal(tick)
  {
  }

  /** Where a key names what: the simulation, then the ride, then the tick. */
  lemma KeyTextReadsBack(simulation: Uuid, rideId: nat, tick: nat)
    ensures var s, d := KeyText(simulation, rideId, tick), |Decimal(rideId)|;
            && |s| > 53 && s[..12] == "operator-sim" && s[12..48] == simulation && s[48..53] == "-ride"
            && var tail := s[53..];
            && |tail| > d + 5 && tail[d..d + 5] == "-tick" && AllDigits(tail[..d]) && AllDigits(tail[d + 5..])
            && Value(tail[..d]) == rideId && Value(tail[d + 5..]) == tick
  {
    KeyParts(simulation, rideId, tick);
    TailReadsBack(rideId, tick);
  }

  lemma KeyParts(simulation: Uuid, rideId: nat, tick: nat)
    ensures var s := KeyText(simulation, rideId, tick);
            |s| > 53 && s[..12] == "operator-sim" && s[12..48] == simulation && s[48..53] == "-ride" && s[53..] == Tail(rideId, tick)
  {
  }

  lemma TailReadsBack(rideId: nat, tick: nat)
    ensures var tail, d := Tail(rideId, tick), |Decimal(rideId)|;
            && |tail| > d + 5 && tail[d..d + 5] == "-tick" && AllDigits(tail[..d]) && AllDigits(tail[d + 5..])
            && Value(tail[..d]) == rideId && Value(tail[d + 5..]) == tick
  {
    TailParts(rideId, tick);
    DecimalReadsBack(rideId);
    DecimalReadsBack(tick);
  }

  /** Equal keys name the same simulation, ride and tick. */
  lemma KeyTextInjective(sim1: Uuid, ride1: nat, tick1: nat, sim2: Uuid, ride2: nat, tick2: nat)
    requires KeyText(sim1, ride1, tick1) == KeyText(sim2, ride2, tick2)
    ensures sim1 == sim2 && ride1 == ride2 && tick1 == tick2
  {
    var s, t := KeyText(sim1, ride1, tick1), KeyText(sim2, ride2, tick2);
    assert s[12..48] == sim1 && t[12..48] == sim2;
    assert s[53..] == Tail(ride1, tick1) && t[53..] == Tail(ride2, tick2);
    TailInjective(ride1, tick1, ride2, tick2);
  }
}
