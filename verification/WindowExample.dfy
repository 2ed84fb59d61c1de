/** A concrete run, under the shipped policy and with nothing failing but two commands, in which a command
    goes out before an open Conservation window has ended: the second failure is at an earlier tick. */
module WindowExample {
  import opened Common
  import opened SafetyStates
  import opened Governors
  import opened GovernorLaws
  import opened WorldModels
  import opened Operators
  import opened IdempotencyKeys
  import opened Ledgers
  import opened SafetyReading
  import opened Servers
  import opened Runs
  import opened SafetyLaws
  import opened SendLaws

  /** config/constitution-0.1.yaml. */
  const SHIPPED := Constitution(20, 10, 0.6, 0, 20, 2000, 5, 0, 2, 1, 2000, 1000, 4000, 2, 5000, 3, 60, 20)

  const PARK: Uuid := "00000000-0000-0000-0000-000000000000"
  const READ := ReadFaults(true, Committed)
  const WORKS := ProposalFaults(Committed, READ, Committed, SnapshotFaults(true, true, Committed), 0, Committed, Committed, Committed)
  const RESTORED := RollbackFaults(READ, Committed, RestoreFaults(true, true, Committed), Committed)

  const BUSY := Observation(0, [Ride(0, 5, 10), Ride(1, 5, 10)])
  const OTHER := Observation(0, [Ride(2, 5, 10)])

  function Sent(action: nat, ride: nat, tick: nat): Command {
    Command(action, PARK, ride, 6, KeyText(PARK, ride, tick), tick + 2000, tick, 0, 0, true)
  }

  function Priced(ride: nat, tick: nat): Proposal {
    PriceProposal(Ride(ride, 5, 10), 6, tick)
  }

  /** A grant of the proposal for `ride`, and all it leads to, while the state is Normal. */
  function AfterSend(s: Server, ride: nat, tick: nat): Server {
    var p := Priced(ride, tick);
    var l := s.ledger.(
      proposals := s.ledger.proposals + [ProposalRow(PARK, p)],
      snapshots := [SnapshotRow(PARK, 5000)],
      authorizations := s.ledger.authorizations + [AuthorizationRow(|s.ledger.proposals|, Authorized)],
      actions := s.ledger.actions + [ActionFor(PARK, tick, p, |s.ledger.authorizations|, s.clock)]);
    s.(ledger := l, wire := s.wire + [Sent(|s.ledger.actions|, ride, tick)],
       governor := GovernorState(s.governor.authorizedAt + [s.clock], s.governor.lastTick[ride := tick]),
       granted := s.granted + [Grant(ride, tick, s.clock)],
       pendingActions := s.pendingActions[|s.wire| := PendingAction(|s.ledger.actions|, 0, 0)])
  }

  /** The state allows the next send: few grants so far, none for this ride, one snapshot at most. */
  ghost predicate Ready(s: Server, ride: nat, tick: nat) {
    && s.clock == 0 && s.ledger.simulations == [PARK]
    && Newest(s.ledger.transitions, Some(PARK)).Some? && Newest(s.ledger.transitions, Some(PARK)).value.to.Normal?
    && (s.ledger.snapshots == [] || s.ledger.snapshots == [SnapshotRow(PARK, 5000)]) && (tick == 4100 || tick == 5000)
    && (s.ledger.snapshots == [] ==> tick == 5000)
    && ride !in s.governor.lastTick && |s.governor.authorizedAt| < 3
    && (forall i :: 0 <= i < |s.governor.authorizedAt| ==> s.governor.authorizedAt[i] == 0)
    && (forall a :: a in s.ledger.actions ==> exists other, t :: other != ride && a.key == KeyText(PARK, other, t))
  }

  lemma {:induction false} NowIsRecent(ts: seq<nat>, window: nat)
    requires window > 0 && forall i :: 0 <= i < |ts| ==> ts[i] == 0
    ensures Recent(ts, 0, window) == ts
  {
    if ts != [] {
      NowIsRecent(ts[..|ts| - 1], window);
    }
  }

  lemma KeyIsNew(s: Server, ride: nat, tick: nat)
    requires Ready(s, ride, tick)
    ensures !KeyTaken(s.ledger.actions, KeyText(PARK, ride, tick))
  {
    if a :| a in s.ledger.actions && a.key == KeyText(PARK, ride, tick) {
      var other, t :| other != ride && a.key == KeyText(PARK, other, t);
      KeyTextInjective(PARK, other, t, PARK, ride, tick);
    }
  }

  lemma PassesScreen(l: Ledger, ride: nat, tick: nat)
    requires l.simulations == [PARK] && (tick == 4100 || tick == 5000)
    requires Newest(l.transitions, Some(PARK)).Some? && Newest(l.transitions, Some(PARK)).value.to.Normal?
    requires (l.snapshots == [] && tick == 5000) || l.snapshots == [SnapshotRow(PARK, 5000)]
    ensures Screen(SHIPPED, l, PARK, tick, Priced(ride, tick), WORKS) ==
            (l.(proposals := l.proposals + [ProposalRow(PARK, Priced(ride, tick))], snapshots := [SnapshotRow(PARK, 5000)]),
             Some((|l.proposals|, 0)))
  {
    if l.snapshots == [] {
      assert l.snapshots + [SnapshotRow(PARK, 5000)] == [SnapshotRow(PARK, 5000)];
    } else {
      assert LatestSnapshot(l.snapshots, PARK) == Some(0);
    }
  }

  lemma IsGranted(g: GovernorState, ride: nat, tick: nat)
    requires ride !in g.lastTick && |g.authorizedAt| < 3
    requires forall i :: 0 <= i < |g.authorizedAt| ==> g.authorizedAt[i] == 0
    ensures Ruling(SHIPPED, g, Priced(ride, tick), tick, 0) ==
            (GovernorState(g.authorizedAt + [0], g.lastTick[ride := tick]), Authorized)
  {
    NowIsRecent(g.authorizedAt, ONE_DAY);
    NowIsRecent(g.authorizedAt, ONE_HOUR);
  }

  /** A proposal that is screened, granted and new is sent. */
  lemma Send(s: Server, ride: nat, tick: nat)
    requires Ready(s, ride, tick)
    ensures HandleProposal(SHIPPED, s, PARK, tick, 0, Priced(ride, tick), WORKS) == AfterSend(s, ride, tick)
  {
    PassesScreen(s.ledger, ride, tick);
    IsGranted(s.governor, ride, tick);
    KeyIsNew(s, ride, tick);
    var p := Priced(ride, tick);
    var s1 := s.(ledger := Screen(SHIPPED, s.ledger, PARK, tick, p, WORKS).0);
    GoesOut(s1, ride, tick, |s.ledger.proposals|);
  }

  lemma GoesOut(s: Server, ride: nat, tick: nat, proposal: nat)
    requires s.clock == 0 && proposal < |s.ledger.proposals|
    requires Ruling(SHIPPED, s.governor, Priced(ride, tick), tick, 0) ==
             (GovernorState(s.governor.authorizedAt + [0], s.governor.lastTick[ride := tick]), Authorized)
    requires !KeyTaken(s.ledger.actions, KeyText(PARK, ride, tick))
    ensures var p := Priced(ride, tick);
            var (s2, authorization) := Judge(SHIPPED, s, tick, p, proposal, WORKS);
            && authorization == Some(|s.ledger.authorizations|)
            && Execute(s2, PARK, tick, 0, p, |s.ledger.authorizations|, 0, WORKS) ==
               s.(ledger := s.ledger.(
                    authorizations := s.ledger.authorizations + [AuthorizationRow(proposal, Authorized)],
                    actions := s.ledger.actions + [ActionFor(PARK, tick, p, |s.ledger.authorizations|, 0)]),
                  wire := s.wire + [Sent(|s.ledger.actions|, ride, tick)],
                  governor := GovernorState(s.governor.authorizedAt + [0], s.governor.lastTick[ride := tick]),
                  granted := s.granted + [Grant(ride, tick, 0)],
                  pendingActions := s.pendingActions[|s.wire| := PendingAction(|s.ledger.actions|, 0, 0)])
  {
  }

  // --- The run -------------------------------------------------------------------------------

  const START := Start(true, READ, Committed, true)
  const FAILURE_OF_0 := Result(Some(0), None, true, Committed, RESTORED)
  const FAILURE_OF_1 := Result(Some(1), None, true, Committed, RESTORED)

  /** Start, connect, clear Cautious; two snapshots, of which the second makes two proposals; then the first
      of the two commands fails, at tick 5000. */
  const UNTIL_FIRST_FAILURE := [
    START, Connect(PARK), Hello(Committed), Heartbeat(5000, READ, Committed), Heartbeat(5000, READ, Committed),
    Snapshot(BUSY, [], [], []), Snapshot(BUSY, [], [], [WORKS, WORKS]), FAILURE_OF_0]

  /** The bridge reports tick 100, the second command fails, its window runs out, and two snapshots show
      another ride. */
  const AFTERWARDS := [
    Heartbeat(100, READ, Committed), FAILURE_OF_1, Heartbeat(4100, READ, Committed),
    Snapshot(OTHER, [], [], []), Snapshot(OTHER, [], [], [WORKS])]

  function Cleared(): Server {
    Server(EMPTY_LEDGER.(simulations := [PARK], transitions := [StartupRow(Normal), CautiousCleared(PARK)]), [], 0, true,
           Some(PARK), FRESH_GOVERNOR, map[], map[], [], Some(5000), 0, [], 2, Birth(0, 0, 1))
  }

  function TwoSent(): Server {
    AfterSend(AfterSend(Cleared().(history := [BUSY, BUSY]), 0, 5000), 1, 5000)
  }

  lemma RunOne(s: Server, es: seq<Event>, e: Event)
    ensures Run(SHIPPED, s, es + [e]) == Step(SHIPPED, Run(SHIPPED, s, es), e)
  {
    assert (es + [e])[..|es|] == es;
  }

  function Registered(): Server {
    Reborn(BOOT, EMPTY_LEDGER.(transitions := [StartupRow(Normal)])).(
      connection := Some(PARK), ledger := EMPTY_LEDGER.(simulations := [PARK], transitions := [StartupRow(Normal)]))
  }

  lemma Registers()
    ensures Run(SHIPPED, BOOT, UNTIL_FIRST_FAILURE[..3]) == Registered()
  {
    var es := UNTIL_FIRST_FAILURE;
    var started := Reborn(BOOT, EMPTY_LEDGER.(transitions := [StartupRow(Normal)]));
    assert es[..1] == [] + [es[0]] && es[..2] == es[..1] + [es[1]] && es[..3] == es[..2] + [es[2]];
    RunOne(BOOT, [], es[0]);
    assert [] + [StartupRow(Normal)] == [StartupRow(Normal)];
    assert Run(SHIPPED, BOOT, es[..1]) == started;
    RunOne(BOOT, es[..1], es[1]);
    RunOne(BOOT, es[..2], es[2]);
    assert [] + [PARK] == [PARK];
  }

  lemma ClearsCautious()
    ensures Run(SHIPPED, BOOT, UNTIL_FIRST_FAILURE[..5]) == Cleared()
  {
    var es := UNTIL_FIRST_FAILURE;
    Registers();
    assert es[..4] == es[..3] + [es[3]] && es[..5] == es[..4] + [es[4]];
    RunOne(BOOT, es[..3], es[3]);
    RunOne(BOOT, es[..4], es[4]);
    ClearedByTwo();
  }

  lemma ClearedByTwo()
    ensures var beat := Heartbeat(5000, READ, Committed);
            Step(SHIPPED, Step(SHIPPED, Registered(), beat), beat) == Cleared()
  {
    var s := Registered();
    assert HandleHeartbeat(SHIPPED, s, PARK, 5000, READ, Committed) == s.(tick := Some(5000), heartbeats := 1, cleanHeartbeats := 1);
    assert s.ledger.transitions + [CautiousCleared(PARK)] == [StartupRow(Normal), CautiousCleared(PARK)];
  }

  lemma SeenTwice(o: Observation, ride: Ride)
    requires FindRide(o.rides, ride.id) == Some(ride)
    ensures RecentSightings([o, o], 2, ride.id) == [ride, ride]
  {
    assert [o, o][..1] == [o] && [o][..0] == [];
    assert RecentSightings([o], 1, ride.id) == [ride] + RecentSightings([], 0, ride.id);
  }

  /** A snapshot with nothing to verify. */
  lemma OnlyProposals(s: Server, o: Observation, fs: seq<ProposalFaults>)
    requires s.up && s.connection == Some(PARK) && s.pendingVerifications == map[] && |ProposalsOn(SHIPPED, s, o)| <= |fs|
    ensures Step(SHIPPED, s, Snapshot(o, [], [], fs)) ==
            HandleProposals(SHIPPED, s.(history := Suffix(s.history + [o], MAX_HISTORY)), PARK, CurrentTick(s), o.cash,
                            ProposalsOn(SHIPPED, s, o), fs)
  {
    assert Drains([], s.pendingVerifications);
  }

  lemma ProposesBoth()
    ensures ProposalsOn(SHIPPED, Cleared(), BUSY) == []
    ensures ProposalsOn(SHIPPED, Cleared().(history := [BUSY]), BUSY) == [Priced(0, 5000), Priced(1, 5000)]
  {
    var h := [BUSY, BUSY];
    assert [BUSY] + [BUSY] == h && h[..1] == [BUSY] && [BUSY][..0] == [] && [] + [BUSY] == [BUSY];
    assert BUSY.rides[1..] == [Ride(1, 5, 10)];
    SeenTwice(BUSY, Ride(0, 5, 10));
    SeenTwice(BUSY, Ride(1, 5, 10));
    assert BUSY.rides[..1] == [Ride(0, 5, 10)] && BUSY.rides[..1][..0] == [];
    assert ProposeAll(h, SHIPPED, 5000, BUSY.rides[..1]) == [Priced(0, 5000)];
    assert ProposeAll(h, SHIPPED, 5000, BUSY.rides) == [Priced(0, 5000)] + [Priced(1, 5000)];
  }

  lemma SendsBoth()
    ensures HandleProposals(SHIPPED, Cleared().(history := [BUSY, BUSY]), PARK, 5000, 0, [Priced(0, 5000), Priced(1, 5000)], [WORKS, WORKS]) ==
            TwoSent()
  {
    var s := Cleared().(history := [BUSY, BUSY]);
    var ps := [Priced(0, 5000), Priced(1, 5000)];
    assert ps[..1] == [Priced(0, 5000)] && ps[..1][..0] == [];
    assert Newest(s.ledger.transitions, Some(PARK)) == Some(CautiousCleared(PARK));
    Send(s, 0, 5000);
    var s1 := AfterSend(s, 0, 5000);
    assert HandleProposals(SHIPPED, s, PARK, 5000, 0, ps[..1], [WORKS, WORKS]) == s1;
    assert s1.ledger.actions[0].key == KeyText(PARK, 0, 5000);
    Send(s1, 1, 5000);
  }

  /** Two snapshots: the first leads to no proposal, the second to `ps`. */
  lemma SnapshotPair(s: Server, ps: seq<Proposal>)
    requires s.up && s.connection == Some(PARK) && s.pendingVerifications == map[] && s.history == [] && s.tick == Some(5000)
    requires ProposalsOn(SHIPPED, s, BUSY) == [] && ProposalsOn(SHIPPED, s.(history := [BUSY]), BUSY) == ps && |ps| == 2
    ensures Step(SHIPPED, s, Snapshot(BUSY, [], [], [])) == s.(history := [BUSY])
    ensures Step(SHIPPED, s.(history := [BUSY]), Snapshot(BUSY, [], [], [WORKS, WORKS])) ==
            HandleProposals(SHIPPED, s.(history := [BUSY, BUSY]), PARK, 5000, 0, ps, [WORKS, WORKS])
  {
    OnlyProposals(s, BUSY, []);
    assert [] + [BUSY] == [BUSY] && [BUSY] + [BUSY] == [BUSY, BUSY];
    OnlyProposals(s.(history := [BUSY]), BUSY, [WORKS, WORKS]);
  }

  lemma RunTwo(es: seq<Event>, a: Event, b: Event)
    ensures Run(SHIPPED, BOOT, es + [a] + [b]) == Step(SHIPPED, Step(SHIPPED, Run(SHIPPED, BOOT, es), a), b)
  {
    RunOne(BOOT, es, a);
    RunOne(BOOT, es + [a], b);
  }

  lemma FirstSeven()
    ensures UNTIL_FIRST_FAILURE[..7] ==
            UNTIL_FIRST_FAILURE[..5] + [Snapshot(BUSY, [], [], [])] + [Snapshot(BUSY, [], [], [WORKS, WORKS])]
  {
  }

  lemma SendsTwo()
    ensures Run(SHIPPED, BOOT, UNTIL_FIRST_FAILURE[..7]) == TwoSent()
  {
    FirstSeven();
    RunTwo(UNTIL_FIRST_FAILURE[..5], Snapshot(BUSY, [], [], []), Snapshot(BUSY, [], [], [WORKS, WORKS]));
    ClearsCautious();
    ProposesBoth();
    SnapshotPair(Cleared(), [Priced(0, 5000), Priced(1, 5000)]);
    SendsBoth();
  }

  // --- Two failures ------------------------------------------------------------------------------

  /** The result of command `message` is a failure, recorded and rolled back at `tick`. */
  function AfterFailure(s: Server, message: nat, tick: nat): Server
    requires message in s.pendingActions
  {
    var action := s.pendingActions[message].action;
    s.(pendingActions := s.pendingActions - {message},
       ledger := s.ledger.(
         results := s.ledger.results + [ResultRow(action, None, true)],
         rollbacks := s.ledger.rollbacks + [RollbackRow(PARK, 0, Automatic(action))],
         transitions := s.ledger.transitions + [RollbackEntered(PARK, Derived(s.ledger.transitions, Some(PARK), tick)),
                                                ConservationEntered(PARK, tick + 4000)]))
  }

  lemma Failure(s: Server, message: nat, tick: nat)
    requires message in s.pendingActions && s.pendingActions[message].snapshot == 0
    requires s.pendingActions[message].action < |s.ledger.actions| && s.tick == Some(tick) && s.ledger.simulations == [PARK]
    requires s.ledger.snapshots == [SnapshotRow(PARK, 5000)] && !MustHeal(s.ledger.transitions, Some(PARK), tick)
    ensures HandleResult(SHIPPED, s, PARK, Some(message), None, true, Committed, RESTORED) == AfterFailure(s, message, tick)
  {
    var rows := s.ledger.transitions;
    var entered := RollbackEntered(PARK, Derived(rows, Some(PARK), tick));
    assert rows + [entered, ConservationEntered(PARK, tick + 4000)] == rows + [entered] + [ConservationEntered(PARK, tick + 4000)];
  }

  lemma NewestOfTwo(rows: seq<TransitionRow>, a: TransitionRow, b: TransitionRow)
    requires b.scope == Some(PARK)
    ensures Newest(rows + [a, b], Some(PARK)) == Some(b)
  {
  }

  lemma FailsOnce()
    ensures Run(SHIPPED, BOOT, UNTIL_FIRST_FAILURE) == AfterFailure(TwoSent(), 0, 5000)
    ensures Held(AfterFailure(TwoSent(), 0, 5000).ledger.transitions, PARK, 9000)
  {
    var es := UNTIL_FIRST_FAILURE;
    SendsTwo();
    assert es == es[..7] + [FAILURE_OF_0];
    RunOne(BOOT, es[..7], FAILURE_OF_0);
    assert Newest(TwoSent().ledger.transitions, Some(PARK)) == Some(CautiousCleared(PARK));
    Failure(TwoSent(), 0, 5000);
    NewestOfTwo(TwoSent().ledger.transitions, RollbackEntered(PARK, Normal), ConservationEntered(PARK, 9000));
  }

  /** After the second failure, at tick 100, and the heartbeat at which its window ends. */
  function WindowOver(): Server {
    var s := AfterFailure(AfterFailure(TwoSent(), 0, 5000).(tick := Some(100), heartbeats := 3), 1, 100);
    s.(tick := Some(4100), heartbeats := 4,
       ledger := s.ledger.(transitions := s.ledger.transitions + [RecoveryRow(Some(PARK))]))
  }

  lemma FailsAgain()
    ensures var first := AfterFailure(TwoSent(), 0, 5000);
            && Run(SHIPPED, first, AFTERWARDS[..2]) == AfterFailure(first.(tick := Some(100), heartbeats := 3), 1, 100)
            && Newest(Run(SHIPPED, first, AFTERWARDS[..2]).ledger.transitions, Some(PARK)) == Some(ConservationEntered(PARK, 4100))
  {
    var es := AFTERWARDS;
    var first := AfterFailure(TwoSent(), 0, 5000);
    var later := first.(tick := Some(100), heartbeats := 3);
    NewestOfTwo(TwoSent().ledger.transitions, RollbackEntered(PARK, Derived(TwoSent().ledger.transitions, Some(PARK), 5000)),
                ConservationEntered(PARK, 9000));
    assert es[..1] == [] + [es[0]] && es[..2] == es[..1] + [es[1]];
    RunOne(first, [], es[0]);
    assert Run(SHIPPED, first, es[..1]) == later;
    RunOne(first, es[..1], es[1]);
    Failure(later, 1, 100);
    NewestOfTwo(first.ledger.transitions, RollbackEntered(PARK, Derived(first.ledger.transitions, Some(PARK), 100)),
                ConservationEntered(PARK, 4100));
  }

  lemma WindowEnds()
    ensures Run(SHIPPED, AfterFailure(TwoSent(), 0, 5000), AFTERWARDS[..3]) == WindowOver()
    ensures Newest(WindowOver().ledger.transitions, Some(PARK)) == Some(RecoveryRow(Some(PARK)))
  {
    var es := AFTERWARDS;
    FailsAgain();
    assert es[..3] == es[..2] + [es[2]];
    RunOne(AfterFailure(TwoSent(), 0, 5000), es[..2], es[2]);
  }

  lemma ProposesOther(h: seq<Observation>)
    requires h == [BUSY, BUSY]
    ensures Proposals(h + [OTHER], SHIPPED, 4100) == []
    ensures Proposals(h + [OTHER, OTHER], SHIPPED, 4100) == [Priced(2, 4100)]
  {
    var ride := Ride(2, 5, 10);
    var one, two := h + [OTHER], h + [OTHER, OTHER];
    assert one[..2] == h && two[..3] == one;
    assert BUSY.rides[1..] == [Ride(1, 5, 10)] && BUSY.rides[1..][1..] == [];
    assert FindRide(BUSY.rides, 2) == None;
    assert RecentSightings(one, 1, 2) == [ride] + RecentSightings(h, 0, 2);
    assert RecentSightings(h, 1, 2) == [] + RecentSightings(h[..1], 0, 2);
    assert RecentSightings(one, 2, 2) == [ride] + RecentSightings(h, 1, 2);
    assert RecentSightings(two, 2, 2) == [ride] + RecentSightings(one, 1, 2);
    assert OTHER.rides[..0] == [] && OTHER.rides[0] == ride;
    assert ProposeAll(one, SHIPPED, 4100, OTHER.rides) == [] + ProposeFor(one, SHIPPED, 4100, ride);
    assert ProposeAll(two, SHIPPED, 4100, OTHER.rides) == [] + ProposeFor(two, SHIPPED, 4100, ride);
  }

  /** The first snapshot of the other ride: nothing to propose yet. */
  lemma SeesOther(s: Server)
    requires s.up && s.connection == Some(PARK) && s.pendingVerifications == map[] && s.history == [BUSY, BUSY] && s.tick == Some(4100)
    ensures Step(SHIPPED, s, Snapshot(OTHER, [], [], [])) == s.(history := [BUSY, BUSY, OTHER])
  {
    ProposesOther([BUSY, BUSY]);
    assert [BUSY, BUSY] + [OTHER] == [BUSY, BUSY, OTHER];
    OnlyProposals(s, OTHER, []);
  }

  lemma HandlesOne(s: Server, p: Proposal)
    ensures HandleProposals(SHIPPED, s, PARK, 4100, 0, [p], [WORKS]) == HandleProposal(SHIPPED, s, PARK, 4100, 0, p, WORKS)
  {
    assert [p][..0] == [];
    assert HandleProposals(SHIPPED, s, PARK, 4100, 0, [], [WORKS]) == s;
  }

  /** The second one, from a state that allows the ride's command. */
  lemma SendsOther(s: Server)
    requires s.up && s.connection == Some(PARK) && s.pendingVerifications == map[] && s.history == [BUSY, BUSY, OTHER]
    requires s.tick == Some(4100) && Ready(s, 2, 4100)
    ensures Step(SHIPPED, s, Snapshot(OTHER, [], [], [WORKS])) == AfterSend(s.(history := [BUSY, BUSY, OTHER, OTHER]), 2, 4100)
  {
    ProposesOther([BUSY, BUSY]);
    assert [BUSY, BUSY, OTHER] + [OTHER] == [BUSY, BUSY, OTHER, OTHER] == [BUSY, BUSY] + [OTHER, OTHER];
    OnlyProposals(s, OTHER, [WORKS]);
    HandlesOne(s.(history := [BUSY, BUSY, OTHER, OTHER]), Priced(2, 4100));
    Send(s.(history := [BUSY, BUSY, OTHER, OTHER]), 2, 4100);
  }

  lemma WindowOverIsReady()
    ensures var s := WindowOver();
            && s.up && s.connection == Some(PARK) && s.pendingVerifications == map[] && s.history == [BUSY, BUSY]
            && s.tick == Some(4100) && Ready(s, 2, 4100) && |s.ledger.actions| == 2
            && s.wire == AfterFailure(TwoSent(), 0, 5000).wire
  {
    var s := WindowOver();
    WindowEnds();
    assert s.ledger.actions[0].key == KeyText(PARK, 0, 5000) && s.ledger.actions[1].key == KeyText(PARK, 1, 5000);
  }

  predicate Unattended(es: seq<Event>) {
    forall i :: 0 <= i < |es| ==> !es[i].Start? && !es[i].Resolve?
  }

  lemma NobodyStepsIn()
    ensures Unattended(AFTERWARDS)
  {
  }

  /** With a Conservation window open until tick 9000, and with neither a restart nor a resolve, a command
      for that simulation goes out at tick 4100. */
  lemma WindowIsCutShort()
    ensures Held(Run(SHIPPED, BOOT, UNTIL_FIRST_FAILURE).ledger.transitions, PARK, 9000)
    ensures Unattended(AFTERWARDS)
    ensures Run(SHIPPED, Run(SHIPPED, BOOT, UNTIL_FIRST_FAILURE), AFTERWARDS).wire ==
            Run(SHIPPED, BOOT, UNTIL_FIRST_FAILURE).wire + [Sent(2, 2, 4100)]
  {
    FailsOnce();
    NobodyStepsIn();
    LastTwoEvents(Run(SHIPPED, BOOT, UNTIL_FIRST_FAILURE), WindowOver());
  }

  /** The last two events, from any state like the one the others lead to. */
  lemma SendsAfter(first: Server, es: seq<Event>, s: Server)
    requires Run(SHIPPED, first, es) == s && s.wire == first.wire && |s.ledger.actions| == 2
    requires s.up && s.connection == Some(PARK) && s.pendingVerifications == map[] && s.history == [BUSY, BUSY]
    requires s.tick == Some(4100) && Ready(s, 2, 4100)
    ensures Run(SHIPPED, first, es + [Snapshot(OTHER, [], [], [])] + [Snapshot(OTHER, [], [], [WORKS])]).wire ==
            first.wire + [Sent(2, 2, 4100)]
  {
    SeesOther(s);
    SendsOther(s.(history := [BUSY, BUSY, OTHER]));
    RunOne(first, es, Snapshot(OTHER, [], [], []));
    RunOne(first, es + [Snapshot(OTHER, [], [], [])], Snapshot(OTHER, [], [], [WORKS]));
  }

  lemma LastTwoEvents(first: Server, s: Server)
    requires first == AfterFailure(TwoSent(), 0, 5000) && s == WindowOver()
    ensures Run(SHIPPED, first, AFTERWARDS).wire == first.wire + [Sent(2, 2, 4100)]
  {
    WindowEnds();
    WindowOverIsReady();
    EndsInTwoSnapshots();
    SendsAfter(first, AFTERWARDS[..3], s);
  }

  lemma EndsInTwoSnapshots()
    ensures AFTERWARDS == AFTERWARDS[..3] + [Snapshot(OTHER, [], [], [])] + [Snapshot(OTHER, [], [], [WORKS])]
  {
  }
}
