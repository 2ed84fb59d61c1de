/** The append-only ledger (db/migrations, core/orchestrator/src/db.rs): tables as sequences whose
    positions are the row ids, inserts under the foreign-key and UNIQUE rules, and the queries.
    Order of creation is order of position. */
module Ledgers {
  import opened Common
  import opened SafetyStates
  import opened Governors
  import opened IdempotencyKeys

  datatype ProposalRow = ProposalRow(simulation: Uuid, proposal: Proposal)

  datatype AuthorizationRow = AuthorizationRow(proposal: nat, verdict: Verdict)

  datatype ActionRow = ActionRow(authorization: nat, rideId: nat, price: int, key: string, expiryTick: nat,
                                 tick: nat, createdAt: nat)

  datatype ResultRow = ResultRow(action: nat, cost: Option<int>, failed: bool)

  datatype SnapshotRow = SnapshotRow(simulation: Uuid, tick: nat)

  /** What brought a rollback about; an automatic one names its action in the reason text. */
  datatype Trigger = Manual | Automatic(action: nat)

  datatype RollbackRow = RollbackRow(simulation: Uuid, snapshot: nat, trigger: Trigger)

  datatype Writer = Orchestrator | Watchdog | Human

  datatype TransitionRow = TransitionRow(scope: Option<Uuid>, from: SafetyState, to: SafetyState, writer: Writer,
                                         expiresAtTick: Option<nat>)

  /** `simulations` is in order of `started_at`. */
  datatype Ledger = Ledger(
    simulations: seq<Uuid>,
    proposals: seq<ProposalRow>,
    authorizations: seq<AuthorizationRow>,
    actions: seq<ActionRow>,
    results: seq<ResultRow>,
    snapshots: seq<SnapshotRow>,
    rollbacks: seq<RollbackRow>,
    transitions: seq<TransitionRow>
  )

  const EMPTY_LEDGER := Ledger([], [], [], [], [], [], [], [])

  // --- Inserts ------------------------------------------------------------------

  /** One insert: the table afterwards, and the new id if the caller learns of it. */
  function Append<T>(table: seq<T>, row: T, legal: bool, write: Write): (seq<T>, Option<nat>) {
    if !legal || write.Refused? then (table, None)
    else (table + [row], if write.Committed? then Some(|table|) else None)
  }

  function AddSimulation(l: Ledger, simulation: Uuid, write: Write): Ledger {
    l.(simulations := Append(l.simulations, simulation, simulation !in l.simulations, write).0)
  }

  function AddProposal(l: Ledger, row: ProposalRow, write: Write): (Ledger, Option<nat>) {
    var (t, id) := Append(l.proposals, row, row.simulation in l.simulations, write);
    (l.(proposals := t), id)
  }

  function AddAuthorization(l: Ledger, row: AuthorizationRow, write: Write): (Ledger, Option<nat>) {
    var (t, id) := Append(l.authorizations, row, row.proposal < |l.proposals|, write);
    (l.(authorizations := t), id)
  }

  /** `idempotency_key` is UNIQUE over the whole table. */
  predicate KeyTaken(actions: seq<ActionRow>, key: string) {
    exists a :: a in actions && a.key == key
  }

  function AddAction(l: Ledger, row: ActionRow, write: Write): (Ledger, Option<nat>) {
    var (t, id) := Append(l.actions, row, row.authorization < |l.authorizations| && !KeyTaken(l.actions, row.key), write);
    (l.(actions := t), id)
  }

  function AddResult(l: Ledger, row: ResultRow, write: Write): (Ledger, Option<nat>) {
    var (t, id) := Append(l.results, row, row.action < |l.actions|, write);
    (l.(results := t), id)
  }

  function AddSnapshot(l: Ledger, row: SnapshotRow, write: Write): (Ledger, Option<nat>) {
    var (t, id) := Append(l.snapshots, row, row.simulation in l.simulations, write);
    (l.(snapshots := t), id)
  }

  function AddRollback(l: Ledger, row: RollbackRow, write: Write): (Ledger, Option<nat>) {
    var (t, id) := Append(l.rollbacks, row, row.simulation in l.simulations && row.snapshot < |l.snapshots|, write);
    (l.(rollbacks := t), id)
  }

  function AddTransition(l: Ledger, row: TransitionRow, write: Write): (Ledger, Option<nat>) {
    var (t, id) := Append(l.transitions, row, row.scope.None? || row.scope.value in l.simulations, write);
    (l.(transitions := t), id)
  }

  // --- The safety state ---------------------------------------------------------

  /** A read for a simulation sees its own rows and the global ones; a global read only the global ones. */
  predicate Visible(row: TransitionRow, scope: Option<Uuid>) {
    row.scope.None? || row.scope == scope
  }

  /** `ORDER BY created_at DESC LIMIT 1`. */
  function Newest(rows: seq<TransitionRow>, scope: Option<Uuid>): Option<TransitionRow> {
    if rows == [] then None
    else
      var n := |rows| - 1;
      if Visible(rows[n], scope) then Some(rows[n]) else Newest(rows[..n], scope)
  }

  /** The row is a Conservation window that `tick` has reached the end of. */
  predicate Expired(row: TransitionRow, tick: nat) {
    row.to.Conservation? && row.expiresAtTick.Some? && tick >= row.expiresAtTick.value
  }

  /** The safety state the rows stand for, as far as a reader at `tick` is concerned. */
  function Derived(rows: seq<TransitionRow>, scope: Option<Uuid>, tick: nat): SafetyState {
    var row := Newest(rows, scope);
    if row.None? || Expired(row.value, tick) then Normal else row.value.to
  }

  function RecoveryRow(scope: Option<Uuid>): TransitionRow {
    TransitionRow(scope, Conservation, Normal, Orchestrator, None)
  }

  /** What happens to the query, and to the recovery row it may have to write. */
  datatype ReadFaults = ReadFaults(answered: bool, recovery: Write)

  /** `current_safety_state`; `None` is the error case. */
  function ReadSafety(l: Ledger, scope: Option<Uuid>, tick: nat, f: ReadFaults): (Ledger, Option<SafetyState>) {
    if !f.answered then (l, None)
    else
      var row := Newest(l.transitions, scope);
      if row.None? then (l, Some(Normal))
      else if Expired(row.value, tick) then
        var (l', id) := AddTransition(l, RecoveryRow(scope), f.recovery);
        (l', if id.Some? then Some(Normal) else None)
      else (l, Some(row.value.to))
  }

  // --- Other queries --------------------------------------------------------------

  function LatestSnapshot(snapshots: seq<SnapshotRow>, simulation: Uuid): Option<nat> {
    if snapshots == [] then None
    else
      var n := |snapshots| - 1;
      if snapshots[n].simulation == simulation then Some(n) else LatestSnapshot(snapshots[..n], simulation)
  }

  predicate Resolved(l: Ledger, action: nat) {
    exists r :: r in l.results && r.action == action
  }

  /** `LEFT JOIN action_results ... WHERE ar.id IS NULL`, over the first `n` actions. */
  function InFlight(l: Ledger, n: nat): seq<nat>
    requires n <= |l.actions|
  {
    if n == 0 then []
    else InFlight(l, n - 1) + if Resolved(l, n - 1) then [] else [n - 1]
  }

  /** The simulation an action belongs to, through its authorization and proposal. */
  function SimulationOf(l: Ledger, a: ActionRow): Option<Uuid> {
    if a.authorization < |l.authorizations| && l.authorizations[a.authorization].proposal < |l.proposals|
    then Some(l.proposals[l.authorizations[a.authorization].proposal].simulation)
    else None
  }

  /** `actions_in_last_minute`, over the first `n` actions. */
  function ActionsInLastMinute(l: Ledger, simulation: Uuid, now: nat, n: nat): nat
    requires n <= |l.actions|
  {
    if n == 0 then 0
    else
      var a := l.actions[n - 1];
      ActionsInLastMinute(l, simulation, now, n - 1) +
      if SimulationOf(l, a) == Some(simulation) && a.createdAt + ONE_MINUTE >= now then 1 else 0
  }

  /** `COALESCE(MAX(tick), 0)` over one simulation's first `n` actions. */
  function MaxTick(l: Ledger, simulation: Uuid, n: nat): nat
    requires n <= |l.actions|
  {
    if n == 0 then 0
    else
      var rest := MaxTick(l, simulation, n - 1);
      var a := l.actions[n - 1];
      if SimulationOf(l, a) == Some(simulation) && a.tick > rest then a.tick else rest
  }

  datatype PriceChange = PriceChange(rideId: nat, price: int, tick: nat)

  /** The simulation's price changes among its first `n` actions at `since` or later. */
  function ChangesSince(l: Ledger, simulation: Uuid, since: int, n: nat): seq<PriceChange>
    requires n <= |l.actions|
  {
    if n == 0 then []
    else
      var a := l.actions[n - 1];
      ChangesSince(l, simulation, since, n - 1) +
      if SimulationOf(l, a) == Some(simulation) && a.tick >= since then [PriceChange(a.rideId, a.price, a.tick)] else []
  }

  function InsertByTick(sorted: seq<PriceChange>, x: PriceChange): seq<PriceChange> {
    if sorted == [] || sorted[|sorted| - 1].tick <= x.tick then sorted + [x]
    else InsertByTick(sorted[..|sorted| - 1], x) + [sorted[|sorted| - 1]]
  }

  /** `ORDER BY tick ASC`; rows of equal tick stay in order of creation. */
  function SortByTick(xs: seq<PriceChange>): seq<PriceChange> {
    if xs == [] then [] else InsertByTick(SortByTick(xs[..|xs| - 1]), xs[|xs| - 1])
  }

  function RecentPriceChanges(l: Ledger, simulation: Uuid, windowTicks: nat): seq<PriceChange> {
    var n := |l.actions|;
    SortByTick(ChangesSince(l, simulation, MaxTick(l, simulation, n) - windowTicks, n))
  }

  /** The database as the orchestrator, the watchdog and the command line share it. Every method
      takes as its last argument what becomes of the call. */
  class Database {
    var simulations: seq<Uuid>
    var proposals: seq<ProposalRow>
    var authorizations: seq<AuthorizationRow>
    var actions: seq<ActionRow>
    var results: seq<ResultRow>
    var snapshots: seq<SnapshotRow>
    var rollbacks: seq<RollbackRow>
    var transitions: seq<TransitionRow>

    function View(): Ledger
      reads this
    {
      Ledger(simulations, proposals, authorizations, actions, results, snapshots, rollbacks, transitions)
    }

    constructor ()
      ensures View() == EMPTY_LEDGER
    {
      simulations, proposals, authorizations, actions := [], [], [], [];
      results, snapshots, rollbacks, transitions := [], [], [], [];
    }

    method InsertSimulationStart(simulation: Uuid, write: Write)
      modifies this`simulations
      ensures View() == AddSimulation(old(View()), simulation, write)
    {
      if !write.Refused? && simulation !in simulations {
        simulations := simulations + [simulation];
      }
    }

    method InsertProposal(simulation: Uuid, proposal: Proposal, write: Write) returns (id: Option<nat>)
      modifies this`proposals
      ensures (View(), id) == AddProposal(old(View()), ProposalRow(simulation, proposal), write)
    {
      if write.Refused? || simulation !in simulations {
        return None;
      }
      proposals := proposals + [ProposalRow(simulation, proposal)];
      id := if write.Committed? then Some(|proposals| - 1) else None;
    }

    method InsertAuthorization(proposal: nat, verdict: Verdict, write: Write) returns (id: Option<nat>)
      modifies this`authorizations
      ensures (View(), id) == AddAuthorization(old(View()), AuthorizationRow(proposal, verdict), write)
    {
      if write.Refused? || proposal >= |proposals| {
        return None;
      }
      authorizations := authorizations + [AuthorizationRow(proposal, verdict)];
      id := if write.Committed? then Some(|authorizations| - 1) else None;
    }

    method InsertAction(row: ActionRow, write: Write) returns (id: Option<nat>)
      modifies this`actions
      ensures (View(), id) == AddAction(old(View()), row, write)
    {
      if write.Refused? || row.authorization >= |authorizations| || KeyTaken(actions, row.key) {
        return None;
      }
      actions := actions + [row];
      id := if write.Committed? then Some(|actions| - 1) else None;
    }

    method InsertActionResult(row: ResultRow, write: Write) returns (id: Option<nat>)
      modifies this`results
      ensures (View(), id) == AddResult(old(View()), row, write)
    {
      if write.Refused? || row.action >= |actions| {
        return None;
      }
      results := results + [row];
      id := if write.Committed? then Some(|results| - 1) else None;
    }

    method InsertSnapshot(simulation: Uuid, tick: nat, write: Write) returns (id: Option<nat>)
      modifies this`snapshots
      ensures (View(), id) == AddSnapshot(old(View()), SnapshotRow(simulation, tick), write)
    {
      if write.Refused? || simulation !in simulations {
        return None;
      }
      snapshots := snapshots + [SnapshotRow(simulation, tick)];
      id := if write.Committed? then Some(|snapshots| - 1) else None;
    }

    method InsertRollback(row: RollbackRow, write: Write) returns (id: Option<nat>)
      modifies this`rollbacks
      ensures (View(), id) == AddRollback(old(View()), row, write)
    {
      if write.Refused? || row.simulation !in simulations || row.snapshot >= |snapshots| {
        return None;
      }
      rollbacks := rollbacks + [row];
      id := if write.Committed? then Some(|rollbacks| - 1) else None;
    }

    method InsertStateTransition(row: TransitionRow, write: Write) returns (id: Option<nat>)
      modifies this`transitions
      ensures (View(), id) == AddTransition(old(View()), row, write)
    {
      if write.Refused? || (row.scope.Some? && row.scope.value !in simulations) {
        return None;
      }
      transitions := transitions + [row];
      id := if write.Committed? then Some(|transitions| - 1) else None;
    }

    /** Self-healing: an expired Conservation window is resolved to Normal by the read itself. */
    method CurrentSafetyState(scope: Option<Uuid>, currentTick: nat, faults: ReadFaults)
      returns (state: Option<SafetyState>)
      modifies this`transitions
      ensures (View(), state) == ReadSafety(old(View()), scope, currentTick, faults)
    {
      if !faults.answered {
        return None;
      }
      var row := Newest(transitions, scope);
      if row.None? {
        return Some(Normal);
      }
      if row.value.to.Conservation? {
        if row.value.expiresAtTick.Some? && currentTick >= row.value.expiresAtTick.value {
          var id := InsertStateTransition(RecoveryRow(scope), faults.recovery);
          return if id.Some? then Some(Normal) else None;
        }
      }
      return Some(row.value.to);
    }
  }
}

/** What reading the safety state means. */
module SafetyReading {
  import opened Common
  import opened SafetyStates
  import opened Ledgers

  lemma NewestAppend(rows: seq<TransitionRow>, row: TransitionRow, scope: Option<Uuid>)
    ensures Newest(rows + [row], scope) == if Visible(row, scope) then Some(row) else Newest(rows, scope)
  {
    assert (rows + [row])[..|rows|] == rows;
  }

  lemma {:induction false} NewestIsVisible(rows: seq<TransitionRow>, scope: Option<Uuid>)
    ensures Newest(rows, scope).Some? ==> Visible(Newest(rows, scope).value, scope) && Newest(rows, scope).value in rows
  {
    if rows != [] {
      NewestIsVisible(rows[..|rows| - 1], scope);
    }
  }

  /** Row `k` is the last one that is global or of this very scope. */
  ghost predicate IsLastSeen(rows: seq<TransitionRow>, scope: Option<Uuid>, k: nat) {
    && k < |rows| && (rows[k].scope == None || rows[k].scope == scope)
    && forall j :: k < j < |rows| ==> rows[j].scope != None && rows[j].scope != scope
  }

  lemma {:induction false} NewestIsLastSeen(rows: seq<TransitionRow>, scope: Option<Uuid>)
    ensures forall k: nat :: IsLastSeen(rows, scope, k) ==> Newest(rows, scope) == Some(rows[k])
    ensures Newest(rows, scope).Some? ==> exists k: nat :: IsLastSeen(rows, scope, k)
  {
    if rows != [] {
      var n := |rows| - 1;
      NewestIsLastSeen(rows[..n], scope);
      if rows[n].scope == None || rows[n].scope == scope {
        assert IsLastSeen(rows, scope, n);
      } else {
        forall k: nat ensures IsLastSeen(rows, scope, k) <==> IsLastSeen(rows[..n], scope, k) {
          if IsLastSeen(rows[..n], scope, k) {
            forall j | k < j < |rows| ensures rows[j].scope != None && rows[j].scope != scope {
              assert j < n ==> rows[j] == rows[..n][j];
            }
          }
        }
      }
    }
  }

  /** The state that is derived: where the last row seen leads, unless that is a window whose bound the tick
      has reached; Normal when no row is seen. */
  lemma DerivedIsLastSeen(rows: seq<TransitionRow>, scope: Option<Uuid>, tick: nat)
    ensures forall k: nat :: IsLastSeen(rows, scope, k) ==>
              Derived(rows, scope, tick) ==
              if rows[k].to == Conservation && rows[k].expiresAtTick.Some? && rows[k].expiresAtTick.value <= tick then Normal
              else rows[k].to
    ensures (forall k: nat :: !IsLastSeen(rows, scope, k)) ==> Derived(rows, scope, tick) == Normal
  {
    NewestIsLastSeen(rows, scope);
  }

  /** A read that answers at all answers with the derived state, and healing does not change what
      any later reader of that scope, at that tick or beyond, derives. */
  lemma ReadIsFaithful(l: Ledger, scope: Option<Uuid>, tick: nat, f: ReadFaults)
    ensures var (l', s) := ReadSafety(l, scope, tick, f);
            && (s.Some? ==> s.value == Derived(l.transitions, scope, tick))
            && (forall later :: tick <= later ==>
                                  Derived(l'.transitions, scope, later) == Derived(l.transitions, scope, later))
            && l' == l.(transitions := l'.transitions)
  {
    var (l', s) := ReadSafety(l, scope, tick, f);
    if l'.transitions != l.transitions {
      NewestAppend(l.transitions, RecoveryRow(scope), scope);
    }
  }

  /** Once healed, reading again at the same tick answers the same and writes nothing, whatever
      becomes of the second read's own writes. */
  lemma SecondReadIsQuiet(l: Ledger, scope: Option<Uuid>, tick: nat, f: ReadFaults, g: ReadFaults)
    requires g.answered && ReadSafety(l, scope, tick, f).1.Some?
    ensures ReadSafety(ReadSafety(l, scope, tick, f).0, scope, tick, g) == ReadSafety(l, scope, tick, f)
  {
    var (l', s) := ReadSafety(l, scope, tick, f);
    if l'.transitions != l.transitions {
      NewestAppend(l.transitions, RecoveryRow(scope), scope);
    }
  }

  /** Rows written for one simulation never change what is derived for another. */
  lemma {:induction false} OtherSimulationsAreUntouched(rows: seq<TransitionRow>, more: seq<TransitionRow>,
                                                        writer: Uuid, reader: Uuid, tick: nat)
    requires writer != reader && forall i :: 0 <= i < |more| ==> more[i].scope == Some(writer)
    ensures Newest(rows + more, Some(reader)) == Newest(rows, Some(reader))
    ensures Derived(rows + more, Some(reader), tick) == Derived(rows, Some(reader), tick)
  {
    if more == [] {
      assert rows + more == rows;
    } else {
      var n := |more| - 1;
      OtherSimulationsAreUntouched(rows, more[..n], writer, reader, tick);
      NewestAppend(rows + more[..n], more[n], Some(reader));
      assert rows + more == (rows + more[..n]) + [more[n]];
    }
  }
}
