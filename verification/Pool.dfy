/** The execution backend on values: a bounded queue, a fixed pool of workers, the state store, the
    futures handed to callers and the idempotency ledger. One step is the code between two points
    where a coroutine can be suspended. */
module Pool {
  import opened Workflow

  type RunId = string
  type Key = string
  type Hash = string

  /** The part of a stored run the backend looks at. */
  datatype Stored = Stored(status: RunStatus, requiresHuman: bool)

  predicate Terminal(s: RunStatus) {
    s in {RunCompleted, RunFailed, RunCancelled}
  }

  datatype Future = Open | Result(state: Stored) | Raised

  datatype JobStatus = Queued | JobRunning | WaitingForHuman | JobCompleted | JobFailed | JobCancelled

  datatype Job = Job(status: JobStatus, isCancelled: bool)

  datatype Kind = StartRun | ResumeRun

  /** A work item. Futures are numbered in the order they were created. */
  datatype Item = Item(run: RunId, kind: Kind, future: nat, key: Option<Key>)

  datatype Record = Record(requestHash: Hash, run: RunId, future: nat, completed: bool, cached: Option<Stored>)

  /** `Starved` is a worker that waits for a termination signal nobody will send. */
  datatype Worker = Resting | Busy(item: Item, cancelling: bool) | Stopped | Starved

  datatype Phase = Serving | Draining | Stopping

  datatype Place = InQueue | AtWorker(worker: nat) | Finished

  /** A ledger call, with the future of the record it was about. */
  datatype LedgerEvent =
    | KeyClaimed(key: Key, future: nat)
    | KeyCompleted(key: Key, future: nat)
    | KeyReleased(key: Key, future: nat)

  /** The fields after `done` only record history: every admitted item and where it is, runs whose
      cancellation returned true, keys claimed by a submission the full queue refused, and ledger calls. */
  datatype Backend = Backend(
    capacity: nat,
    concurrency: nat,
    phase: Phase,
    queue: seq<Item>,
    workers: seq<Worker>,
    active: map<RunId, nat>,
    jobs: map<RunId, Job>,
    futures: seq<Future>,
    runFuture: map<RunId, nat>,
    cancelledRuns: set<RunId>,
    ledger: map<Key, Record>,
    store: map<RunId, Stored>,
    sentinels: nat,
    put: nat,
    done: nat,
    items: map<nat, Item>,
    place: map<nat, Place>,
    killed: set<RunId>,
    refused: set<Key>,
    log: seq<LedgerEvent>)

  function Initial(capacity: nat, concurrency: nat): Backend {
    Backend.Backend(capacity, concurrency, Serving, [], seq(concurrency, _ => Resting),
                    map[], map[], [], map[], {}, map[], map[], 0, 0, 0, map[], map[], {}, {}, [])
  }

  /** A capacity of zero is an unbounded queue. */
  predicate QueueFull(s: Backend) {
    s.capacity > 0 && |s.queue| >= s.capacity
  }

  // ---- Ledger and futures ----

  function SetIfOpen(futures: seq<Future>, f: nat, v: Future): (r: seq<Future>)
    ensures |r| == |futures|
    ensures forall i | 0 <= i < |futures| :: r[i] == if i == f && futures[i].Open? then v else futures[i]
  {
    if f < |futures| && futures[f].Open? then futures[f := v] else futures
  }

  function LedgerComplete(s: Backend, key: Key, result: Stored): (t: Backend)
    ensures t.workers == s.workers && t.queue == s.queue
  {
    if key in s.ledger then
      var rec := s.ledger[key];
      s.(ledger := s.ledger[key := rec.(completed := true, cached := Some(result))],
         futures := SetIfOpen(s.futures, rec.future, Result(result)),
         log := s.log + [KeyCompleted(key, rec.future)])
    else s
  }

  function LedgerFail(s: Backend, key: Key): (t: Backend)
    ensures t.workers == s.workers && t.queue == s.queue
  {
    if key in s.ledger then
      s.(ledger := s.ledger - {key},
         futures := SetIfOpen(s.futures, s.ledger[key].future, Raised),
         log := s.log + [KeyReleased(key, s.ledger[key].future)])
    else s
  }

  /** Settle an item's future and its ledger record with a state. */
  function ConcludeWith(s: Backend, item: Item, result: Stored): (t: Backend)
    ensures t.workers == s.workers && t.queue == s.queue
  {
    var s1 := s.(futures := SetIfOpen(s.futures, item.future, Result(result)),
        place := s.place[item.future := Finished]);
    if item.key.Some? then LedgerComplete(s1, item.key.value, result) else s1
  }

  function ConcludeRaised(s: Backend, item: Item): (t: Backend)
    ensures t.workers == s.workers && t.queue == s.queue
  {
    var s1 := s.(futures := SetIfOpen(s.futures, item.future, Raised), place := s.place[item.future := Finished]);
    if item.key.Some? then LedgerFail(s1, item.key.value) else s1
  }

  function SetJob(jobs: map<RunId, Job>, run: RunId, status: JobStatus): (r: map<RunId, Job>)
    ensures r.Keys == jobs.Keys && forall x | x in jobs && x != run :: r[x] == jobs[x]
  {
    if run in jobs then jobs[run := jobs[run].(status := status)] else jobs
  }

  function FinalizeCancelled(s: Backend, item: Item): (t: Backend)
    ensures t.workers == s.workers && t.queue == s.queue
  {
    var s1 := if item.run in s.jobs then s.(jobs := s.jobs[item.run := Job(JobCancelled, true)]) else s;
    if item.run in s1.store then
      var st := s1.store[item.run].(status := RunCancelled);
      ConcludeWith(s1.(store := s1.store[item.run := st]), item, st)
    else ConcludeRaised(s1, item)
  }

  // ---- Submissions ----

  datatype Answer =
    | ShuttingDown
    | Conflict
    | Joined(future: nat)
    | Full
    | NotFound
    | NotPending
    | AlreadyTerminal
    | Admitted(future: nat)

  /** Put an item with its future on the queue. */
  function Admit(s: Backend, item: Item): Backend {
    s.(queue := s.queue + [item], runFuture := s.runFuture[item.run := item.future], put := s.put + 1,
       items := s.items[item.future := item], place := s.place[item.future := InQueue])
  }

  function SubmitRun(s: Backend, run: RunId, hash: Hash, key: Option<Key>): (Backend, Answer) {
    if s.phase != Serving then (s, ShuttingDown)
    else if key.Some? && key.value in s.ledger then
      var rec := s.ledger[key.value];
      if rec.requestHash != hash then (s, Conflict)
      else if rec.completed && rec.cached.Some? then
        (s.(futures := SetIfOpen(s.futures, rec.future, Result(rec.cached.value))), Joined(rec.future))
      else (s, Joined(rec.future))
    else
      var f := |s.futures|;
      var claimed :=
        if key.Some? then
          s.(futures := s.futures + [Open], ledger := s.ledger[key.value := Record(hash, run, f, false, None)],
             log := s.log + [KeyClaimed(key.value, f)])
        else s;
      if QueueFull(s) then
        (if key.Some? then claimed.(refused := s.refused + {key.value}) else claimed, Full)
      else
        var stored := claimed.(store := s.store[run := Stored(Idle, false)], jobs := s.jobs[run := Job(Queued, false)],
                               futures := s.futures + [Open]);
        (Admit(stored, Item(run, StartRun, f, key)), Admitted(f))
  }

  function SubmitResume(s: Backend, run: RunId): (Backend, Answer) {
    if s.phase != Serving then (s, ShuttingDown)
    else if run !in s.store then (s, NotFound)
    else if !s.store[run].requiresHuman then (s, NotPending)
    else if Terminal(s.store[run].status) then (s, AlreadyTerminal)
    else if QueueFull(s) then (s, Full)
    else
      var f := |s.futures|;
      var s1 := s.(jobs := s.jobs[run := Job(Queued, false)], cancelledRuns := s.cancelledRuns - {run},
          futures := s.futures + [Open]);
      (Admit(s1, Item(run, ResumeRun, f, None)), Admitted(f))
  }

  /** Remember that a run is to be cancelled. */
  function Flag(s: Backend, run: RunId): Backend {
    s.(cancelledRuns := s.cancelledRuns + {run},
       jobs := if run in s.jobs then s.jobs[run := s.jobs[run].(isCancelled := true)] else s.jobs)
  }

  /** Cancel the worker task that runs the run. */
  function CancelActive(s: Backend, run: RunId): Backend
    requires run in s.active
  {
    var w := s.active[run];
    s.(workers := if w < |s.workers| && s.workers[w].Busy? then s.workers[w := s.workers[w].(cancelling := true)]
                  else s.workers,
       killed := s.killed + {run})
  }

  /** Cancel a run no worker is busy with: it waits in the queue, is paused, or broke off. */
  function CancelStored(s: Backend, run: RunId): Backend
    requires run in s.store
  {
    var st := s.store[run].(status := RunCancelled);
    s.(store := s.store[run := st], jobs := SetJob(s.jobs, run, JobCancelled), killed := s.killed + {run},
       futures := if run in s.runFuture then SetIfOpen(s.futures, s.runFuture[run], Result(st)) else s.futures)
  }

  function CancelRun(s: Backend, run: RunId): (Backend, bool) {
    var s1 := Flag(s, run);
    if run in s1.active then (CancelActive(s1, run), true)
    else if run in s1.store && s1.store[run].status in {Idle, PausedForHuman, Running} then
      (CancelStored(s1, run), true)
    else (s1, false)
  }

  // ---- Worker steps ----

  predicate Flagged(s: Backend, run: RunId) {
    run in s.cancelledRuns || (run in s.jobs && s.jobs[run].isCancelled)
  }

  /** Take the first item off the queue and finalize it without running it. */
  function DropFront(s: Backend): Backend
    requires s.queue != []
  {
    var s1 := FinalizeCancelled(s.(queue := s.queue[1..]), s.queue[0]);
    s1.(done := s1.done + 1)
  }

  /** Worker `w` gets the first item: a cancelled one is finalized, any other starts the runtime. */
  function Take(s: Backend, w: nat): Backend
    requires w < |s.workers| && s.queue != []
  {
    var item := s.queue[0];
    if Flagged(s, item.run) then DropFront(s)
    else
      s.(queue := s.queue[1..], jobs := SetJob(s.jobs, item.run, JobRunning),
          active := s.active[item.run := w], workers := s.workers[w := Busy(item, false)],
          store := if item.kind == ResumeRun then s.store[item.run := Stored(Running, true)] else s.store,
          place := s.place[item.future := AtWorker(w)])
  }

  /** The worker hands its item in: nothing of it stays in the pool. */
  function Leave(s: Backend, w: nat): Backend
    requires w < |s.workers| && s.workers[w].Busy?
  {
    var after := if s.phase != Stopping then Resting else if s.sentinels > 0 then Stopped else Starved;
    s.(active := s.active - {s.workers[w].item.run}, workers := s.workers[w := after], done := s.done + 1,
       sentinels := if s.phase == Stopping && s.sentinels > 0 then s.sentinels - 1 else s.sentinels)
  }

  datatype RuntimeOutcome = Returned(state: Stored) | Threw

  function JobAfter(status: RunStatus): JobStatus {
    if status == PausedForHuman then WaitingForHuman else if status == RunCompleted then JobCompleted else JobFailed
  }

  /** The runtime call of worker `w` comes back. */
  function Finish(s: Backend, w: nat, o: RuntimeOutcome): Backend
    requires w < |s.workers| && s.workers[w].Busy?
  {
    var item := s.workers[w].item;
    match o
    case Returned(st) =>
      Leave(ConcludeWith(s.(store := s.store[item.run := st],
          jobs := SetJob(s.jobs, item.run, JobAfter(st.status))), item, st), w)
    case Threw => Leave(ConcludeRaised(s.(jobs := SetJob(s.jobs, item.run, JobFailed)), item), w)
  }

  /** The cancellation of worker `w`'s call is delivered. */
  function DeliverCancel(s: Backend, w: nat): Backend
    requires w < |s.workers| && s.workers[w].Busy?
  {
    Leave(FinalizeCancelled(s, s.workers[w].item), w)
  }

  // ---- Shutdown ----

  function Drain(s: Backend): Backend
    decreases |s.queue|
  {
    if s.queue == [] then s else Drain(DropFront(s))
  }

  function BeginShutdown(s: Backend): Backend {
    Drain(s.(phase := Draining))
  }

  /** After the grace period: one termination signal for each worker, as far as the queue takes them;
      resting workers end at once, running calls are cancelled. */
  function ForceStop(s: Backend): Backend {
    s.(phase := Stopping,
       sentinels := if s.capacity > 0 && s.capacity < |s.workers| then s.capacity else |s.workers|,
       workers := seq(|s.workers|, i requires 0 <= i < |s.workers| =>
         if s.workers[i].Busy? then s.workers[i].(cancelling := true) else Stopped))
  }

  // ---- Runs of the backend ----

  datatype Step =
    | DoSubmit(run: RunId, hash: Hash, key: Option<Key>)
    | DoResume(run: RunId)
    | DoCancel(run: RunId)
    | DoTake(worker: nat)
    | DoFinish(worker: nat, outcome: RuntimeOutcome)
    | DoDeliver(worker: nat)
    | DoBeginShutdown
    | DoForceStop

  predicate CanStep(s: Backend, step: Step) {
    match step
    case DoTake(w) => w < |s.workers| && s.workers[w].Resting? && s.queue != []
    case DoFinish(w, _) => w < |s.workers| && s.workers[w].Busy? && !s.workers[w].cancelling
    case DoDeliver(w) => w < |s.workers| && s.workers[w].Busy? && s.workers[w].cancelling
    case DoBeginShutdown => s.phase == Serving
    case DoForceStop => s.phase == Draining
    case _ => true
  }

  function DoStep(s: Backend, step: Step): Backend
    requires CanStep(s, step)
  {
    match step
    case DoSubmit(run, hash, key) => SubmitRun(s, run, hash, key).0
    case DoResume(run) => SubmitResume(s, run).0
    case DoCancel(run) => CancelRun(s, run).0
    case DoTake(w) => Take(s, w)
    case DoFinish(w, o) => Finish(s, w, o)
    case DoDeliver(w) => DeliverCancel(s, w)
    case DoBeginShutdown => BeginShutdown(s)
    case DoForceStop => ForceStop(s)
  }
}
