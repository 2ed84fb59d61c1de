/** The buffered persistence of observations (core/orchestrator/src/db.rs): a bounded queue, and one
    worker that retries each job until the database takes it. */
module Persistences {
  import opened Common
  import opened Backoffs

  const BUFFER_CAPACITY: nat := 500
  const INITIAL_RETRY_DELAY: nat := 500
  const MAX_RETRY_DELAY: nat := 30_000

  /** `payload` stands for the rest of the observation. */
  datatype Job = Job(simulation: Uuid, messageId: nat, payload: nat)

  /** The queue and the worker: the job in progress with how often it has failed, and what became of
      every job submitted. `observations` and `registered` are the two tables concerned. */
  datatype Worker = Worker(
    queue: seq<Job>,
    current: Option<Job>,
    delay: nat,
    failures: nat,
    observations: seq<Job>,
    registered: set<Uuid>,
    submitted: seq<Job>,
    accepted: seq<Job>,
    finished: seq<Job>,
    slept: seq<nat>
  )

  const IDLE := Worker([], None, 0, 0, [], {}, [], [], [], [])

  predicate Stored(observations: seq<Job>, messageId: nat) {
    exists o :: o in observations && o.messageId == messageId
  }

  /** `apply_job`: `ON CONFLICT (message_id) DO NOTHING`, and the foreign key to simulations. */
  function ApplyJob(observations: seq<Job>, registered: set<Uuid>, job: Job, write: Write): (seq<Job>, bool) {
    if write.Refused? then (observations, false)
    else if Stored(observations, job.messageId) then (observations, write.Committed?)
    else if job.simulation !in registered then (observations, false)
    else (observations + [job], write.Committed?)
  }

  datatype Event = Submit(job: Job) | Receive | Attempt(write: Write) | Register(simulation: Uuid)

  function SubmitStep(w: Worker, job: Job): Worker {
    if |w.queue| >= BUFFER_CAPACITY then w.(submitted := w.submitted + [job])
    else w.(queue := w.queue + [job], submitted := w.submitted + [job], accepted := w.accepted + [job])
  }

  function ReceiveStep(w: Worker): Worker {
    if w.current.Some? || w.queue == [] then w
    else w.(queue := w.queue[1..], current := Some(w.queue[0]), delay := INITIAL_RETRY_DELAY, failures := 0, slept := [])
  }

  function AttemptStep(w: Worker, write: Write): Worker {
    if w.current.None? then w
    else
      var (observations, ok) := ApplyJob(w.observations, w.registered, w.current.value, write);
      if ok then w.(observations := observations, current := None, finished := w.finished + [w.current.value])
      else w.(observations := observations, failures := w.failures + 1, slept := w.slept + [w.delay],
              delay := NextDelay(w.delay, MAX_RETRY_DELAY))
  }

  function Step(w: Worker, e: Event): Worker {
    match e
    case Submit(job) => SubmitStep(w, job)
    case Receive => ReceiveStep(w)
    case Attempt(write) => AttemptStep(w, write)
    case Register(simulation) => w.(registered := w.registered + {simulation})
  }

  function Run(w: Worker, es: seq<Event>): Worker {
    if es == [] then w else Step(Run(w, es[..|es| - 1]), es[|es| - 1])
  }

  lemma RunStep(w: Worker, es: seq<Event>, n: nat)
    requires n < |es|
    ensures Run(w, es[..n + 1]) == Step(Run(w, es[..n]), es[n])
  {
    assert es[..n + 1][..n] == es[..n];
  }

  /** `registered` and `observations` are tables; `current`, `delay` and the queue are the worker's and the
      channel's. The ghost fields are the record `Worker` keeps. */
  class Persistence {
    var queue: seq<Job>
    var current: Option<Job>
    var delay: nat
    var observations: seq<Job>
    var registered: set<Uuid>
    ghost var failures: nat
    ghost var submitted: seq<Job>
    ghost var accepted: seq<Job>
    ghost var finished: seq<Job>
    ghost var slept: seq<nat>

    ghost function View(): Worker
      reads this
    {
      Worker(queue, current, delay, failures, observations, registered, submitted, accepted, finished, slept)
    }

    constructor ()
      ensures View() == IDLE
    {
      queue, current, delay, observations, registered := [], None, 0, [], {};
      failures, submitted, accepted, finished, slept := 0, [], [], [], [];
    }

    /** Never blocks: a job that finds the buffer full is dropped. */
    method Submit(job: Job) returns (dropped: bool)
      modifies this
      ensures View() == SubmitStep(old(View()), job)
      ensures dropped <==> |old(queue)| >= 500
    {
      submitted := submitted + [job];
      if |queue| >= BUFFER_CAPACITY {
        return true;
      }
      queue := queue + [job];
      accepted := accepted + [job];
      dropped := false;
    }

    /** Another part of the program registers a simulation. */
    method Register(simulation: Uuid)
      modifies this`registered
      ensures View() == Step(old(View()), Event.Register(simulation))
    {
      registered := registered + {simulation};
    }

    method Receive()
      modifies this
      ensures View() == ReceiveStep(old(View()))
    {
      if current.Some? || queue == [] {
        return;
      }
      current, queue := Some(queue[0]), queue[1..];
      delay := INITIAL_RETRY_DELAY;
      failures, slept := 0, [];
    }

    /** One turn of the retry loop: store the job, or sleep and double the delay. */
    method AttemptOnce(write: Write)
      requires current.Some?
      modifies this
      ensures View() == AttemptStep(old(View()), write)
    {
      var (after, ok) := ApplyJob(observations, registered, current.value, write);
      observations := after;
      if ok {
        finished := finished + [current.value];
        current := None;
        return;
      }
      failures, slept := failures + 1, slept + [delay];
      delay := Min(delay * 2, MAX_RETRY_DELAY);
    }

    /** One turn of the worker's outer loop. `meanwhile` is what happens while it runs: the outcomes of its
        attempts, and what other tasks submit and register between them. It ends with the job's first
        success, or is still retrying when that is used up. */
    method WorkOnce(meanwhile: seq<Event>) returns (used: nat)
      requires current.None? && forall i :: 0 <= i < |meanwhile| ==> !meanwhile[i].Receive?
      modifies this
      ensures used <= |meanwhile| && View() == Run(ReceiveStep(old(View())), meanwhile[..used])
      ensures old(queue) == [] ==> used == 0 && current.None?
      ensures old(queue) != [] ==> if current.Some? then used == |meanwhile| else finished == old(finished) + [old(queue)[0]]
    {
      ghost var before := ReceiveStep(View());
      Receive();
      used := 0;
      while current.Some? && used < |meanwhile|
        invariant used <= |meanwhile| && View() == Run(before, meanwhile[..used])
        invariant old(queue) == [] ==> used == 0 && current.None?
        invariant old(queue) != [] ==>
                    if current.Some? then current.value == old(queue)[0] && finished == old(finished)
                    else finished == old(finished) + [old(queue)[0]]
        decreases |meanwhile| - used
      {
        RunStep(before, meanwhile, used);
        match meanwhile[used] {
          case Attempt(write) =>
            AttemptOnce(write);
          case Submit(job) =>
            var dropped := Submit(job);
          case Register(simulation) =>
            Register(simulation);
        }
        used := used + 1;
      }
    }
  }

  // --- Whole runs -------------------------------------------------------------------------

  /** The jobs without those whose message id came earlier in the sequence. */
  function FirstOfEach(jobs: seq<Job>): seq<Job> {
    if jobs == [] then []
    else
      var n := |jobs| - 1;
      FirstOfEach(jobs[..n]) + if Stored(jobs[..n], jobs[n].messageId) then [] else [jobs[n]]
  }

  function InProgress(w: Worker): seq<Job> {
    if w.current.Some? then [w.current.value] else []
  }

  ghost predicate Sound(w: Worker) {
    && |w.queue| <= BUFFER_CAPACITY
    && w.accepted == w.finished + InProgress(w) + w.queue
    && (w.observations == FirstOfEach(w.finished) || w.observations == FirstOfEach(w.finished + InProgress(w)))
    && (w.current.Some? ==>
          && w.delay == Delay(INITIAL_RETRY_DELAY, MAX_RETRY_DELAY, w.failures)
          && w.slept == Delays(INITIAL_RETRY_DELAY, MAX_RETRY_DELAY, w.failures))
  }

  lemma {:induction false} FirstOfEachKeepsIds(jobs: seq<Job>, messageId: nat)
    ensures Stored(FirstOfEach(jobs), messageId) <==> Stored(jobs, messageId)
  {
    if jobs != [] {
      var n := |jobs| - 1;
      FirstOfEachKeepsIds(jobs[..n], messageId);
      StoredAppend(jobs[..n], jobs[n], messageId);
      assert jobs == jobs[..n] + [jobs[n]];
      if !Stored(jobs[..n], jobs[n].messageId) {
        StoredAppend(FirstOfEach(jobs[..n]), jobs[n], messageId);
      }
    }
  }

  lemma StoredAppend(jobs: seq<Job>, job: Job, messageId: nat)
    ensures Stored(jobs + [job], messageId) <==> Stored(jobs, messageId) || job.messageId == messageId
  {
    assert job in jobs + [job];
    if Stored(jobs, messageId) {
      var o :| o in jobs && o.messageId == messageId;
      assert o in jobs + [job];
    }
  }

  lemma FirstOfEachAppend(jobs: seq<Job>, job: Job)
    ensures FirstOfEach(jobs + [job]) == FirstOfEach(jobs) + if Stored(FirstOfEach(jobs), job.messageId) then [] else [job]
  {
    assert (jobs + [job])[..|jobs|] == jobs;
    FirstOfEachKeepsIds(jobs, job.messageId);
  }

  /** Storing a job again changes nothing. */
  lemma AttemptIsIdempotent(w: Worker, write: Write)
    requires Sound(w) && w.current.Some?
    ensures var (observations, ok) := ApplyJob(w.observations, w.registered, w.current.value, write);
            && (observations == FirstOfEach(w.finished) || observations == FirstOfEach(w.finished + [w.current.value]))
            && (ok ==> observations == FirstOfEach(w.finished + [w.current.value]))
  {
    var job := w.current.value;
    FirstOfEachAppend(w.finished, job);
    FirstOfEachKeepsIds(w.finished + [job], job.messageId);
    StoredAppend(w.finished, job, job.messageId);
    FirstOfEachKeepsIds(w.finished, job.messageId);
    assert FirstOfEach(w.finished) + [] == FirstOfEach(w.finished);
  }

  lemma StepIsSound(w: Worker, e: Event)
    requires Sound(w)
    ensures Sound(Step(w, e))
  {
    match e
    case Submit(job) =>
    case Receive =>
      if w.current.None? && w.queue != [] {
        assert w.queue == [w.queue[0]] + w.queue[1..];
        assert w.finished + [] == w.finished;
      }
    case Attempt(write) => AttemptIsSound(w, write);
    case Register(simulation) =>
  }

  lemma AttemptIsSound(w: Worker, write: Write)
    requires Sound(w)
    ensures Sound(AttemptStep(w, write))
  {
    if w.current.Some? {
      AttemptIsIdempotent(w, write);
      assert w.finished + [w.current.value] + [] == w.finished + [w.current.value];
      assert w.finished + [w.current.value] + w.queue == w.finished + InProgress(w) + w.queue;
    }
  }

  lemma {:induction false} RunIsSound(es: seq<Event>)
    ensures Sound(Run(IDLE, es))
  {
    if es != [] {
      RunIsSound(es[..|es| - 1]);
      StepIsSound(Run(IDLE, es[..|es| - 1]), es[|es| - 1]);
    }
  }

  lemma {:induction false} FirstOfEachIsDistinct(jobs: seq<Job>, i: nat, j: nat)
    requires i < j < |FirstOfEach(jobs)|
    ensures FirstOfEach(jobs)[i].messageId != FirstOfEach(jobs)[j].messageId
  {
    var n := |jobs| - 1;
    if j < |FirstOfEach(jobs[..n])| {
      FirstOfEachIsDistinct(jobs[..n], i, j);
    } else {
      FirstOfEachKeepsIds(jobs[..n], jobs[n].messageId);
      assert FirstOfEach(jobs[..n])[i] in FirstOfEach(jobs[..n]);
    }
  }

  /** Over every run: nothing accepted is lost or reordered; what is stored is, in order of acceptance,
      each message once, of the jobs finished so far and perhaps the one in progress (committed, but
      reported as failed); the queue is bounded; and the k-th delay is 500 * 2^k ms, at most 30 s. */
  lemma WorkerKeepsOrderAndStoresOnce(es: seq<Event>)
    ensures var w := Run(IDLE, es);
            && w.accepted == w.finished + InProgress(w) + w.queue && |w.queue| <= 500
            && (w.observations == FirstOfEach(w.finished) || w.observations == FirstOfEach(w.finished + InProgress(w)))
            && (forall i, j :: 0 <= i < j < |w.observations| ==> w.observations[i].messageId != w.observations[j].messageId)
            && (w.current.Some? ==> |w.slept| == w.failures)
            && (w.current.Some? ==>
                  forall k :: 0 <= k < |w.slept| ==> w.slept[k] == if 500 * Pow2(k) <= 30_000 then 500 * Pow2(k) else 30_000)
  {
    RunIsSound(es);
    var w := Run(IDLE, es);
    forall i, j | 0 <= i < j < |w.observations| ensures w.observations[i].messageId != w.observations[j].messageId {
      if w.observations == FirstOfEach(w.finished) {
        FirstOfEachIsDistinct(w.finished, i, j);
      } else {
        FirstOfEachIsDistinct(w.finished + InProgress(w), i, j);
      }
    }
    if w.current.Some? {
      forall k | 0 <= k < |w.slept| ensures w.slept[k] == if 500 * Pow2(k) <= 30_000 then 500 * Pow2(k) else 30_000 {
        DelayClosedForm(INITIAL_RETRY_DELAY, MAX_RETRY_DELAY, k);
      }
    }
  }

  function Dropped(es: seq<Event>): nat {
    if es == [] then 0
    else
      var n := |es| - 1;
      Dropped(es[..n]) + if es[n].Submit? && |Run(IDLE, es[..n]).queue| >= 500 then 1 else 0
  }

  /** Every job submitted is dropped, queued, in progress or finished. */
  lemma {:induction false} JobsAreConserved(es: seq<Event>)
    ensures var w := Run(IDLE, es);
            |w.submitted| == Dropped(es) + |w.queue| + |InProgress(w)| + |w.finished|
  {
    if es != [] {
      JobsAreConserved(es[..|es| - 1]);
    }
  }

  // --- A job that can never be stored ---------------------------------------------------------

  /** An attempt can succeed if and only if the message is already there or its simulation is known. */
  lemma AttemptSucceedsIff(observations: seq<Job>, registered: set<Uuid>, job: Job)
    ensures (exists write: Write :: ApplyJob(observations, registered, job, write).1) <==>
            Stored(observations, job.messageId) || job.simulation in registered
  {
    if Stored(observations, job.messageId) || job.simulation in registered {
      assert ApplyJob(observations, registered, job, Committed).1;
    }
  }

  /** A job whose simulation is unknown blocks everything behind it: until that simulation is
      registered nothing more is stored and nothing more finishes, however often the worker tries. */
  lemma {:induction false} UnregisteredJobBlocksTheQueue(w: Worker, es: seq<Event>)
    requires w.current.Some? && w.current.value.simulation !in w.registered
    requires !Stored(w.observations, w.current.value.messageId)
    requires forall i :: 0 <= i < |es| ==> es[i] != Register(w.current.value.simulation)
    ensures var w' := Run(w, es);
            && w'.current == w.current && w'.observations == w.observations && w'.finished == w.finished
            && w.current.value.simulation !in w'.registered
  {
    if es != [] {
      UnregisteredJobBlocksTheQueue(w, es[..|es| - 1]);
    }
  }
}
