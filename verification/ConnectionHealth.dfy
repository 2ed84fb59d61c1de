/** Missed-heartbeat detection (core/orchestrator/src/state.rs). The state is re-evaluated whenever the
    health endpoint is asked, so it is stored and overwritten by every question; the law here is that
    the questions do not matter. */
module ConnectionHealths {
  import opened Common

  const DEGRADED_AFTER: nat := 3 * SECOND
  const LOST_AFTER: nat := 10 * SECOND

  datatype ConnectionState = Connecting | Live | Degraded | Lost

  datatype Health = Health(state: ConnectionState, lastHeartbeatAt: Option<nat>, lastHeartbeatTick: Option<nat>)

  const NO_HEALTH := Health(Connecting, None, None)

  datatype Event = Connect | Hello(at: nat) | Heartbeat(tick: nat, at: nat) | Disconnect | Check(at: nat)

  function Judged(elapsed: nat): ConnectionState {
    if elapsed >= LOST_AFTER then Lost else if elapsed >= DEGRADED_AFTER then Degraded else Live
  }

  function Step(h: Health, e: Event): Health {
    match e
    case Connect => NO_HEALTH
    case Hello(at) => h.(state := Live, lastHeartbeatAt := Some(at))
    case Heartbeat(tick, at) => Health(Live, Some(at), Some(tick))
    case Disconnect => h.(state := Lost)
    case Check(now) =>
      if h.state.Lost? || h.lastHeartbeatAt.None? then h
      else h.(state := Judged(SaturatingSub(now, h.lastHeartbeatAt.value)))
  }

  function Run(es: seq<Event>): Health {
    if es == [] then NO_HEALTH else Step(Run(es[..|es| - 1]), es[|es| - 1])
  }

  class ConnectionHealth {
    var state: ConnectionState
    var lastHeartbeatAt: Option<nat>
    var lastHeartbeatTick: Option<nat>

    ghost function View(): Health
      reads this
    {
      Health(state, lastHeartbeatAt, lastHeartbeatTick)
    }

    constructor ()
      ensures View() == NO_HEALTH
    {
      state, lastHeartbeatAt, lastHeartbeatTick := Connecting, None, None;
    }

    method OnConnect()
      modifies this
      ensures View() == Step(old(View()), Connect)
    {
      state, lastHeartbeatAt, lastHeartbeatTick := Connecting, None, None;
    }

    method OnHello(now: nat)
      modifies this
      ensures View() == Step(old(View()), Hello(now))
    {
      state := Live;
      lastHeartbeatAt := Some(now);
    }

    method OnHeartbeat(tick: nat, now: nat)
      modifies this
      ensures View() == Step(old(View()), Heartbeat(tick, now))
    {
      state := Live;
      lastHeartbeatAt := Some(now);
      lastHeartbeatTick := Some(tick);
    }

    method OnDisconnect()
      modifies this
      ensures View() == Step(old(View()), Disconnect)
    {
      state := Lost;
    }

    method TickCheck(now: nat)
      modifies this
      ensures View() == Step(old(View()), Check(now))
    {
      if state == Lost {
        return;
      }
      if lastHeartbeatAt.None? {
        return;
      }
      var elapsed := SaturatingSub(now, lastHeartbeatAt.value);
      state := if elapsed >= LOST_AFTER then Lost else if elapsed >= DEGRADED_AFTER then Degraded else Live;
    }
  }

  /** The latest instant any of the events mentions. */
  function Clock(es: seq<Event>): nat {
    if es == [] then 0
    else
      var e := es[|es| - 1];
      if e.Connect? || e.Disconnect? then Clock(es[..|es| - 1]) else e.at
  }

  /** The clock never runs backwards. */
  ghost predicate Ascending(es: seq<Event>) {
    es == [] || (Ascending(es[..|es| - 1]) && Clock(es[..|es| - 1]) <= Clock(es))
  }

  function WithoutChecks(es: seq<Event>): seq<Event> {
    if es == [] then []
    else
      var n := |es| - 1;
      if es[n].Check? then WithoutChecks(es[..n]) else WithoutChecks(es[..n]) + [es[n]]
  }

  /** `h` is `plain` as some check between the last heartbeat and `clock` may have left it. */
  ghost predicate Checked(h: Health, plain: Health, clock: nat) {
    && h.lastHeartbeatAt == plain.lastHeartbeatAt && h.lastHeartbeatTick == plain.lastHeartbeatTick
    && !plain.state.Degraded? && (plain.state.Connecting? ==> plain.lastHeartbeatAt.None?)
    && (plain.state.Live? ==> plain.lastHeartbeatAt.Some? && plain.lastHeartbeatAt.value <= clock)
    && (h.state == plain.state
        || (plain.state.Live? && !h.state.Connecting?
            && (h.state.Lost? ==> Judged(SaturatingSub(clock, plain.lastHeartbeatAt.value)).Lost?)))
  }

  lemma {:induction false} ChecksLeaveNoTrace(es: seq<Event>)
    requires Ascending(es)
    ensures Checked(Run(es), Run(WithoutChecks(es)), Clock(es))
  {
    if es != [] {
      var n := |es| - 1;
      ChecksLeaveNoTrace(es[..n]);
      if es[n].Check? {
        CheckIsACheck(Run(es[..n]), Run(WithoutChecks(es[..n])), Clock(es[..n]), es[n].at);
      } else {
        var plain := WithoutChecks(es[..n]);
        assert (plain + [es[n]])[..|plain|] == plain;
      }
    }
  }

  lemma CheckIsACheck(h: Health, plain: Health, clock: nat, now: nat)
    requires Checked(h, plain, clock) && clock <= now
    ensures Checked(Step(h, Check(now)), plain, now)
    ensures Step(h, Check(now)) == Step(plain, Check(now))
  {
  }

  /** What the health endpoint reports does not depend on how often, or when, it was asked before:
      it is what the connects, hellos, heartbeats and disconnects alone lead to. */
  lemma ReportIgnoresEarlierChecks(es: seq<Event>, now: nat)
    requires Ascending(es) && Clock(es) <= now
    ensures Step(Run(es), Check(now)) == Step(Run(WithoutChecks(es)), Check(now))
  {
    ChecksLeaveNoTrace(es);
    CheckIsACheck(Run(es), Run(WithoutChecks(es)), Clock(es), now);
  }

  /** Events that are only checks change nothing but the state. */
  lemma {:induction false} OnlyChecks(es: seq<Event>, checks: seq<Event>)
    requires forall i :: 0 <= i < |checks| ==> checks[i].Check?
    ensures WithoutChecks(es + checks) == WithoutChecks(es)
  {
    if checks == [] {
      assert es + checks == es;
    } else {
      var n := |checks| - 1;
      assert (es + checks)[..|es| + n] == es + checks[..n];
      OnlyChecks(es, checks[..n]);
    }
  }

  /** What a check reports at `now`, when the last event that was no check was `last`: Live for three
      seconds after a hello or heartbeat, Degraded until ten, then Lost; Lost after a disconnect, and
      Connecting after a connect. */
  function Reported(last: Event, now: nat): ConnectionState {
    match last
    case Connect => Connecting
    case Disconnect => Lost
    case _ =>
      if now < last.at + 3_000_000_000 then Live else if now < last.at + 10_000_000_000 then Degraded else Lost
  }

  lemma ReportTellsAge(es: seq<Event>, last: Event, checks: seq<Event>, now: nat)
    requires !last.Check? && forall i :: 0 <= i < |checks| ==> checks[i].Check?
    requires Ascending(es + [last] + checks) && Clock(es + [last] + checks) <= now
    ensures Step(Run(es + [last] + checks), Check(now)).state == Reported(last, now)
    ensures var tick := Step(Run(es + [last] + checks), Check(now)).lastHeartbeatTick;
            (last.Heartbeat? ==> tick == Some(last.tick)) && (last.Connect? ==> tick == None)
  {
    OnlyChecks(es + [last], checks);
    ReportIgnoresEarlierChecks(es + [last] + checks, now);
    assert (es + [last])[..|es|] == es;
    if !last.Connect? && !last.Disconnect? {
      TimeOfLast(es, last, checks);
    }
    PlainReport(WithoutChecks(es), last, now);
  }

  lemma PlainReport(plain: seq<Event>, last: Event, now: nat)
    requires !last.Check? && (last.Hello? || last.Heartbeat? ==> last.at <= now)
    ensures Step(Run(plain + [last]), Check(now)).state == Reported(last, now)
    ensures var tick := Step(Run(plain + [last]), Check(now)).lastHeartbeatTick;
            (last.Heartbeat? ==> tick == Some(last.tick)) && (last.Connect? ==> tick == None)
  {
    assert (plain + [last])[..|plain|] == plain;
  }

  lemma {:induction false} TimeOfLast(es: seq<Event>, last: Event, checks: seq<Event>)
    requires Ascending(es + [last] + checks) && (last.Hello? || last.Heartbeat? || last.Check?)
    ensures last.at <= Clock(es + [last] + checks)
  {
    var all := es + [last] + checks;
    if checks == [] {
      assert all == es + [last] && all[|all| - 1] == last;
    } else {
      var n := |checks| - 1;
      assert all[..|all| - 1] == es + [last] + checks[..n];
      TimeOfLast(es, last, checks[..n]);
    }
  }

  /** After a disconnect, only a new connection, a hello or a heartbeat leaves Lost. */
  lemma {:induction false} DisconnectIsFinal(es: seq<Event>, more: seq<Event>)
    requires forall i :: 0 <= i < |more| ==> more[i].Check? || more[i].Disconnect?
    ensures Run(es + [Disconnect] + more).state.Lost?
  {
    if more == [] {
      assert (es + [Disconnect] + more)[..|es|] == es && |es + [Disconnect] + more| == |es| + 1;
    } else {
      var n := |more| - 1;
      DisconnectIsFinal(es, more[..n]);
      assert (es + [Disconnect] + more)[..|es| + 1 + n] == es + [Disconnect] + more[..n];
    }
  }
}
