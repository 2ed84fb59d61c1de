/** Orchestrator and bridge together: at most one execution for each key. */
module EndToEnd {
  import opened Common
  import opened Governors
  import opened Servers
  import Runs
  import ActionLaws
  import BridgeCommands

  /** TCP may lose commands, but it neither repeats nor reorders them: the bridge receives the keys of
      some of the written commands, in order. `at` lists their message ids. */
  ghost predicate Deliveries(wire: seq<Command>, keys: seq<string>, at: seq<nat>) {
    && |at| == |keys|
    && (forall i, j :: 0 <= i < j < |at| ==> at[i] < at[j])
    && (forall i :: 0 <= i < |at| ==> at[i] < |wire| && wire[at[i]].delivered && keys[i] == wire[at[i]].key)
  }

  /** Over any run of the orchestrator, with every crash, restart, reconnect and failed write, and any
      run of the bridge on what was delivered to it, with every reload and every engine answer, the
      engine executes each idempotency key at most once. */
  lemma EachKeyIsExecutedOnce(c: Constitution, es: seq<Runs.Event>, bridge: seq<BridgeCommands.Event>, at: seq<nat>, key: string)
    requires Deliveries(Runs.Run(c, Runs.BOOT, es).wire, BridgeCommands.Received(bridge), at)
    ensures BridgeCommands.Count(BridgeCommands.Run(BridgeCommands.FRESH_BRIDGE, bridge).executed, key) <= 1
  {
    var wire := Runs.Run(c, Runs.BOOT, es).wire;
    var keys := BridgeCommands.Received(bridge);
    forall i, j | 0 <= i < j < |keys| ensures keys[i] != keys[j] {
      ActionLaws.EachKeyIsSentOnce(c, es, at[i], at[j]);
    }
    BridgeCommands.DistinctKeysAreCareful(bridge);
    BridgeCommands.CarefulRunsExecuteOnce(bridge, key);
  }
}
