/** The bridge's idempotency cache (bridge/openrct2-plugin/src/commands.ts). `handleCommandRequest`
    awaits the engine twice, so other requests are handled in between; each request in progress is a
    task that is waiting for the query's or the execution's answer. */
module BridgeCommands {
  import opened Common

  /** An engine answer: an error code, none or zero meaning success, and a cost. */
  datatype EngineAnswer = EngineAnswer(error: Option<nat>, cost: Option<int>)

  datatype CommandResult = CommandResult(cost: Option<int>, error: Option<nat>)

  datatype Phase = Querying | Executing

  datatype Task = Task(key: string, phase: Phase)

  /** `executed` lists the keys of the `executeAction` calls the engine has seen, and `replies` the
      results sent; both outlive a reload of the plugin. */
  datatype Bridge = Bridge(
    cache: map<string, CommandResult>,
    tasks: map<nat, Task>,
    executed: seq<string>,
    replies: seq<(string, CommandResult)>
  )

  const FRESH_BRIDGE := Bridge(map[], map[], [], [])

  /** `toErrorInfo`: zero is not an error. */
  function ErrorOf(a: EngineAnswer): Option<nat> {
    if a.error == Some(0) then None else a.error
  }

  datatype Event =
    | Receive(task: nat, key: string)
    | Answer(task: nat, answer: EngineAnswer)
    | Reload

  function Finish(b: Bridge, task: nat, r: CommandResult): Bridge
    requires task in b.tasks
  {
    var key := b.tasks[task].key;
    b.(cache := b.cache[key := r], tasks := b.tasks - {task}, replies := b.replies + [(key, r)])
  }

  /** One event; the task of a Receive is new, and an Answer is for a task in progress. */
  function Step(b: Bridge, e: Event): Bridge {
    match e
    case Receive(task, key) =>
      if task in b.tasks then b
      else if key in b.cache then b.(replies := b.replies + [(key, b.cache[key])])
      else b.(tasks := b.tasks[task := Task(key, Querying)])
    case Answer(task, answer) =>
      if task !in b.tasks then b
      else if b.tasks[task].phase.Querying? then
        if ErrorOf(answer).Some? then Finish(b, task, CommandResult(None, ErrorOf(answer)))
        else b.(tasks := b.tasks[task := b.tasks[task].(phase := Executing)], executed := b.executed + [b.tasks[task].key])
      else
        Finish(b, task, CommandResult(if ErrorOf(answer).Some? then None else Some(answer.cost.GetOr(0)), ErrorOf(answer)))
    case Reload => b.(cache := map[], tasks := map[])
  }

  function Run(b: Bridge, es: seq<Event>): Bridge {
    if es == [] then b else Step(Run(b, es[..|es| - 1]), es[|es| - 1])
  }

  class CommandHandler {
    var idempotencyCache: map<string, CommandResult>
    var tasks: map<nat, Task>
    var executed: seq<string>
    var replies: seq<(string, CommandResult)>

    ghost function View(): Bridge
      reads this
    {
      Bridge(idempotencyCache, tasks, executed, replies)
    }

    constructor ()
      ensures View() == FRESH_BRIDGE
    {
      idempotencyCache, tasks, executed, replies := map[], map[], [], [];
    }

    /** `handleCommandRequest` up to its first await. */
    method HandleCommandRequest(task: nat, key: string)
      requires task !in tasks
      modifies this
      ensures View() == Step(old(View()), Receive(task, key))
    {
      if key in idempotencyCache {
        replies := replies + [(key, idempotencyCache[key])];
        return;
      }
      tasks := tasks[task := Task(key, Querying)];
    }

    /** The rest of it, from whichever await the answer belongs to. */
    method Resume(task: nat, answer: EngineAnswer)
      requires task in tasks
      modifies this
      ensures View() == Step(old(View()), Answer(task, answer))
    {
      var key := tasks[task].key;
      var error := ErrorOf(answer);
      if tasks[task].phase.Querying? {
        if error.Some? {
          Settle(task, key, CommandResult(None, error));
          return;
        }
        executed := executed + [key];
        tasks := tasks[task := Task(key, Executing)];
        return;
      }
      Settle(task, key, CommandResult(if error.Some? then None else Some(answer.cost.GetOr(0)), error));
    }

    method Settle(task: nat, key: string, result: CommandResult)
      requires task in tasks && tasks[task].key == key
      modifies this
      ensures View() == Finish(old(View()), task, result)
    {
      idempotencyCache := idempotencyCache[key := result];
      tasks := tasks - {task};
      replies := replies + [(key, result)];
    }

    /** The plugin starts over with the game. */
    method Reload()
      modifies this
      ensures View() == Step(old(View()), Event.Reload)
    {
      idempotencyCache, tasks := map[], map[];
    }
  }

  // --- At most one execution per key ----------------------------------------------------

  function Count(keys: seq<string>, key: string): nat {
    if keys == [] then 0 else Count(keys[..|keys| - 1], key) + if keys[|keys| - 1] == key then 1 else 0
  }

  ghost predicate InProgress(b: Bridge, key: string) {
    exists t :: t in b.tasks && b.tasks[t].key == key
  }

  /** Receiving the key now is safe: its result is known, or it has neither been executed nor is being handled. */
  ghost predicate SafeToReceive(b: Bridge, key: string) {
    key in b.cache || (!InProgress(b, key) && Count(b.executed, key) == 0)
  }

  ghost predicate Careful(b: Bridge, e: Event) {
    e.Receive? ==> SafeToReceive(b, e.key)
  }

  ghost predicate CarefulRun(b: Bridge, es: seq<Event>) {
    es == [] || (CarefulRun(b, es[..|es| - 1]) && Careful(Run(b, es[..|es| - 1]), es[|es| - 1]))
  }

  /** How one task and one key stand to each other while every receipt was safe. */
  ghost predicate Orderly(b: Bridge) {
    && (forall key :: Count(b.executed, key) <= 1)
    && (forall t :: t in b.tasks ==> b.tasks[t].key !in b.cache)
    && (forall t :: t in b.tasks && b.tasks[t].phase.Querying? ==> Count(b.executed, b.tasks[t].key) == 0)
    && (forall t :: t in b.tasks && b.tasks[t].phase.Executing? ==> Count(b.executed, b.tasks[t].key) == 1)
    && (forall t, u :: t in b.tasks && u in b.tasks && b.tasks[t].key == b.tasks[u].key ==> t == u)
  }

  lemma CountAppend(keys: seq<string>, k: string, key: string)
    ensures Count(keys + [k], key) == Count(keys, key) + if k == key then 1 else 0
  {
    assert (keys + [k])[..|keys|] == keys;
  }

  lemma OrderlyStep(b: Bridge, e: Event)
    requires Orderly(b) && Careful(b, e)
    ensures Orderly(Step(b, e))
  {
    if e.Answer? && e.task in b.tasks {
      if b.tasks[e.task].phase.Querying? && ErrorOf(e.answer).None? {
        OrderlyExecution(b, e.task, e.answer);
      } else {
        OrderlyFinish(b, e.task, e.answer);
      }
    }
  }

  lemma OrderlyExecution(b: Bridge, task: nat, a: EngineAnswer)
    requires Orderly(b) && task in b.tasks && b.tasks[task].phase.Querying? && ErrorOf(a).None?
    ensures Orderly(Step(b, Answer(task, a)))
  {
    OrderlyStart(b, task);
  }

  lemma OrderlyStart(b: Bridge, task: nat)
    requires Orderly(b) && task in b.tasks && b.tasks[task].phase.Querying?
    ensures Orderly(b.(tasks := b.tasks[task := b.tasks[task].(phase := Executing)], executed := b.executed + [b.tasks[task].key]))
  {
    var k := b.tasks[task].key;
    forall key ensures Count(b.executed + [k], key) == Count(b.executed, key) + if k == key then 1 else 0 {
      CountAppend(b.executed, k, key);
    }
  }

  lemma OrderlyFinish(b: Bridge, task: nat, a: EngineAnswer)
    requires Orderly(b) && task in b.tasks && !(b.tasks[task].phase.Querying? && ErrorOf(a).None?)
    ensures Orderly(Step(b, Answer(task, a)))
  {
  }

  /** Over every run whose receipts are all safe, reloads and overlapping requests for other keys
      included, and whatever the engine answers, the engine executes no key twice. */
  lemma {:induction false} CarefulRunsExecuteOnce(es: seq<Event>, key: string)
    requires CarefulRun(FRESH_BRIDGE, es)
    ensures Orderly(Run(FRESH_BRIDGE, es)) && Count(Run(FRESH_BRIDGE, es).executed, key) <= 1
  {
    if es != [] {
      CarefulRunsExecuteOnce(es[..|es| - 1], key);
      OrderlyStep(Run(FRESH_BRIDGE, es[..|es| - 1]), es[|es| - 1]);
    }
  }

  lemma AllowedQueryExecutes(b: Bridge, task: nat, a: EngineAnswer)
    requires task in b.tasks && b.tasks[task].phase.Querying? && ErrorOf(a).None?
    ensures var b' := Step(b, Answer(task, a));
            && Count(b'.executed, b.tasks[task].key) == Count(b.executed, b.tasks[task].key) + 1
            && forall t :: t in b.tasks && t != task ==> t in b'.tasks && b'.tasks[t] == b.tasks[t]
  {
    CountAppend(b.executed, b.tasks[task].key, b.tasks[task].key);
  }

  /** One unsafe receipt is enough: there are engine answers after which the key has been executed twice. */
  lemma UnsafeReceiptCanExecuteTwice(b: Bridge, task: nat, key: string) returns (es: seq<Event>)
    requires Orderly(b) && !SafeToReceive(b, key) && task !in b.tasks
    ensures OnlyAnswers(es) && Count(Run(Step(b, Receive(task, key)), es).executed, key) == 2
  {
    var ok := EngineAnswer(None, None);
    var b1 := Step(b, Receive(task, key));
    assert b1 == b.(tasks := b.tasks[task := Task(key, Querying)]);
    assert Run(b1, []) == b1;
    if Count(b.executed, key) > 0 {
      es := [Answer(task, ok)];
      AllowedQueryExecutes(b1, task, ok);
      assert es[..0] == [];
    } else {
      var t :| t in b.tasks && b.tasks[t].key == key;
      es := [Answer(t, ok), Answer(task, ok)];
      assert es[..1] == [Answer(t, ok)] && es[..1][..0] == [];
      AllowedQueryExecutes(b1, t, ok);
      AllowedQueryExecutes(Step(b1, Answer(t, ok)), task, ok);
    }
  }

  predicate OnlyAnswers(es: seq<Event>) {
    forall i :: 0 <= i < |es| ==> es[i].Answer?
  }

  lemma {:induction false} AnswersKeepOrder(b: Bridge, es: seq<Event>)
    requires Orderly(b) && OnlyAnswers(es)
    ensures Orderly(Run(b, es))
  {
    if es != [] {
      AnswersKeepOrder(b, es[..|es| - 1]);
      OrderlyStep(Run(b, es[..|es| - 1]), es[|es| - 1]);
    }
  }

  /** So a request may be delivered again without any risk of a second execution if and only if its
      result is cached, or it is neither in progress nor executed. */
  lemma RedeliveryIsHarmlessIff(start: seq<Event>, task: nat, key: string)
    requires CarefulRun(FRESH_BRIDGE, start) && task !in Run(FRESH_BRIDGE, start).tasks
    ensures var b := Run(FRESH_BRIDGE, start);
            (forall es: seq<Event> :: OnlyAnswers(es) ==> Count(Run(Step(b, Receive(task, key)), es).executed, key) <= 1)
            <==> SafeToReceive(b, key)
  {
    var b := Run(FRESH_BRIDGE, start);
    CarefulRunsExecuteOnce(start, key);
    if SafeToReceive(b, key) {
      OrderlyStep(b, Receive(task, key));
      forall es: seq<Event> | OnlyAnswers(es) ensures Count(Run(Step(b, Receive(task, key)), es).executed, key) <= 1 {
        AnswersKeepOrder(Step(b, Receive(task, key)), es);
      }
    } else {
      var es := UnsafeReceiptCanExecuteTwice(b, task, key);
    }
  }

  /** A reload forgets every result but no execution: right after one, a key may safely be received if and
      only if the engine has never executed it. */
  lemma ReloadForgets(start: seq<Event>, key: string)
    requires CarefulRun(FRESH_BRIDGE, start)
    ensures var b := Step(Run(FRESH_BRIDGE, start), Reload);
            && (SafeToReceive(b, key) <==> Count(b.executed, key) == 0)
            && b.executed == Run(FRESH_BRIDGE, start).executed && forall task :: task !in b.tasks
  {
  }

  // --- Replays agree -------------------------------------------------------------------------

  ghost predicate RepliesCached(b: Bridge) {
    forall i :: 0 <= i < |b.replies| ==> b.replies[i].0 in b.cache && b.cache[b.replies[i].0] == b.replies[i].1
  }

  lemma {:induction false} RepliesStayCached(es: seq<Event>)
    requires CarefulRun(FRESH_BRIDGE, es) && forall i :: 0 <= i < |es| ==> !es[i].Reload?
    ensures RepliesCached(Run(FRESH_BRIDGE, es))
  {
    if es != [] {
      var n := |es| - 1;
      RepliesStayCached(es[..n]);
      CarefulRunsExecuteOnce(es[..n], "");
    }
  }

  /** Until the plugin is reloaded, all replies for one key carry the same result. */
  lemma ReplaysReturnTheRecordedResult(es: seq<Event>, i: nat, j: nat)
    requires CarefulRun(FRESH_BRIDGE, es) && forall k :: 0 <= k < |es| ==> !es[k].Reload?
    requires i < |Run(FRESH_BRIDGE, es).replies| && j < |Run(FRESH_BRIDGE, es).replies|
    requires Run(FRESH_BRIDGE, es).replies[i].0 == Run(FRESH_BRIDGE, es).replies[j].0
    ensures Run(FRESH_BRIDGE, es).replies[i].1 == Run(FRESH_BRIDGE, es).replies[j].1
  {
    RepliesStayCached(es);
  }

  /** An absent code and code zero mean success. */
  predicate Succeeded(a: EngineAnswer) {
    a.error.None? || a.error.value == 0
  }

  /** The reply the engine's two answers lead to: the query's error code, else the execution's, else its cost. */
  function Outcome(query: EngineAnswer, execution: EngineAnswer): CommandResult {
    if !Succeeded(query) then CommandResult(None, query.error)
    else if !Succeeded(execution) then CommandResult(None, execution.error)
    else CommandResult(Some(if execution.cost.Some? then execution.cost.value else 0), None)
  }

  /** A request with a new key is executed if and only if the query succeeds, and answered once; any later
      request with that key gets the same answer and executes nothing. */
  lemma RequestIsQueriedThenExecuted(b: Bridge, task: nat, key: string, query: EngineAnswer, execution: EngineAnswer, again: nat)
    requires key !in b.cache && task !in b.tasks && again !in b.tasks
    ensures var es := [Receive(task, key), Answer(task, query)] + if Succeeded(query) then [Answer(task, execution)] else [];
            var b' := Run(b, es);
            && b'.executed == b.executed + (if Succeeded(query) then [key] else [])
            && b'.replies == b.replies + [(key, Outcome(query, execution))]
            && b'.tasks == b.tasks
            && Step(b', Receive(again, key)) == b'.(replies := b'.replies + [(key, Outcome(query, execution))])
  {
    var r, q, x := Receive(task, key), Answer(task, query), Answer(task, execution);
    var b1 := Step(b, r);
    var b2 := Step(b1, q);
    assert [r][..0] == [] && [r, q][..1] == [r] && [r, q, x][..2] == [r, q];
    assert Run(b, []) == b && Run(b, [r]) == b1 && Run(b, [r, q]) == b2;
    if Succeeded(query) {
      assert Run(b, [r, q, x]) == Step(b2, x);
      assert [r, q] + [x] == [r, q, x];
      assert Step(b2, x).tasks == b.tasks;
    } else {
      assert [r, q] + [] == [r, q];
      assert b2.tasks == b.tasks;
    }
  }

  // --- Distinct requests ------------------------------------------------------------------------

  /** The keys received, in order. */
  function Received(es: seq<Event>): seq<string> {
    if es == [] then []
    else
      var n := |es| - 1;
      Received(es[..n]) + if es[n].Receive? then [es[n].key] else []
  }

  ghost predicate Distinct(keys: seq<string>) {
    forall i, j :: 0 <= i < j < |keys| ==> keys[i] != keys[j]
  }

  ghost predicate Unknown(b: Bridge, key: string) {
    && key !in b.cache && Count(b.executed, key) == 0
    && forall t :: t in b.tasks ==> b.tasks[t].key != key
  }

  lemma UnknownStays(b: Bridge, e: Event, key: string)
    requires Unknown(b, key) && !(e.Receive? && e.key == key)
    ensures Unknown(Step(b, e), key)
  {
    if e.Answer? && e.task in b.tasks {
      CountAppend(b.executed, b.tasks[e.task].key, key);
    }
  }

  /** Whatever the bridge has of a key, it has received it. */
  lemma {:induction false} OnlyReceivedKeys(es: seq<Event>, key: string)
    requires key !in Received(es)
    ensures Unknown(Run(FRESH_BRIDGE, es), key)
  {
    if es != [] {
      var n := |es| - 1;
      OnlyReceivedKeys(es[..n], key);
      if es[n].Receive? {
        assert Received(es)[|Received(es[..n])|] == es[n].key;
      }
      UnknownStays(Run(FRESH_BRIDGE, es[..n]), es[n], key);
    }
  }

  /** Requests that all have different keys are safe to receive in any interleaving, across reloads. */
  lemma {:induction false} DistinctKeysAreCareful(es: seq<Event>)
    requires Distinct(Received(es))
    ensures CarefulRun(FRESH_BRIDGE, es)
  {
    if es != [] {
      var n := |es| - 1;
      var before := Received(es[..n]);
      assert before == Received(es)[..|before|];
      DistinctKeysAreCareful(es[..n]);
      if es[n].Receive? {
        assert Received(es)[|before|] == es[n].key;
        assert es[n].key !in before;
        OnlyReceivedKeys(es[..n], es[n].key);
      }
    }
  }
}
