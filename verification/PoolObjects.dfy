/** The execution backend as the program runs it: futures, the idempotency ledger and the backend are
    objects changed in place, and every method follows the step function of the same name. */
module PoolObjects {
  import opened Workflow
  import opened Pool
  import opened PoolSafety
  import opened PoolSteps

  /** The futures in the order they were created; work items, records and runs refer to them by number. */
  class FutureTable {
    var states: seq<Future>

    constructor ()
      ensures states == []
    {
      states := [];
    }

    method Create() returns (f: nat)
      modifies this
      ensures f == |old(states)| && states == old(states) + [Open]
    {
      f := |states|;
      states := states + [Open];
    }

    /** Give a future its value unless it is done. */
    method Settle(f: nat, v: Future)
      requires !v.Open?
      modifies this
      ensures states == SetIfOpen(old(states), f, v)
    {
      if f < |states| && states[f].Open? {
        states := states[f := v];
      }
    }
  }

  datatype Acquisition = HashConflict | Joins(joined: nat, cached: Option<Stored>) | Initiates(created: nat)

  class IdempotencyLedger {
    const futures: FutureTable
    var records: map<Key, Record>
    ghost var log: seq<LedgerEvent>

    constructor (futures: FutureTable)
      ensures this.futures == futures && records == map[] && log == []
    {
      this.futures, records, log := futures, map[], [];
    }

    /** A new key is claimed with a new future; a known key with the same payload is joined. */
    method AcquireOrJoin(key: Key, hash: Hash, run: RunId) returns (r: Acquisition)
      modifies this, futures
      ensures key in old(records) ==>
                records == old(records) && futures.states == old(futures.states) && log == old(log)
      ensures key in old(records) ==>
                var rec := old(records)[key];
                r == if rec.requestHash != hash then HashConflict
                     else Joins(rec.future, if rec.completed then rec.cached else None)
      ensures key !in old(records) ==>
                var f := |old(futures.states)|;
                && r == Initiates(f) && records == old(records)[key := Record(hash, run, f, false, None)]
                && futures.states == old(futures.states) + [Open] && log == old(log) + [KeyClaimed(key, f)]
    {
      if key in records {
        var record := records[key];
        if record.requestHash != hash {
          return HashConflict;
        }
        if record.completed {
          return Joins(record.future, record.cached);
        }
        return Joins(record.future, None);
      }
      var f := futures.Create();
      records := records[key := Record(hash, run, f, false, None)];
      log := log + [KeyClaimed(key, f)];
      r := Initiates(f);
    }

    method Complete(key: Key, result: Stored)
      modifies this, futures
      ensures key !in old(records) ==>
                records == old(records) && futures.states == old(futures.states) && log == old(log)
      ensures key in old(records) ==>
                var rec := old(records)[key];
                && records == old(records)[key := rec.(completed := true, cached := Some(result))]
                && futures.states == SetIfOpen(old(futures.states), rec.future, Result(result))
                && log == old(log) + [KeyCompleted(key, rec.future)]
    {
      if key in records {
        var record := records[key];
        records := records[key := record.(completed := true, cached := Some(result))];
        futures.Settle(record.future, Result(result));
        log := log + [KeyCompleted(key, record.future)];
      }
    }

    method Fail(key: Key)
      modifies this, futures
      ensures key !in old(records) ==>
                records == old(records) && futures.states == old(futures.states) && log == old(log)
      ensures key in old(records) ==>
                && records == old(records) - {key}
                && futures.states == SetIfOpen(old(futures.states), old(records)[key].future, Raised)
                && log == old(log) + [KeyReleased(key, old(records)[key].future)]
    {
      if key in records {
        var record := records[key];
        records := records - {key};
        futures.Settle(record.future, Raised);
        log := log + [KeyReleased(key, record.future)];
      }
    }
  }

  class LocalBackend {
    const capacity: nat
    const concurrency: nat
    const futures: FutureTable
    const ledger: IdempotencyLedger
    var phase: Phase
    var queue: seq<Item>
    var workers: seq<Worker>
    var active: map<RunId, nat>
    var jobs: map<RunId, Job>
    var runFuture: map<RunId, nat>
    var cancelledRuns: set<RunId>
    var store: map<RunId, Stored>
    var sentinels: nat
    var put: nat
    var done: nat

    ghost var items: map<nat, Item>
    ghost var place: map<nat, Place>
    ghost var killed: set<RunId>
    ghost var refused: set<Key>

    /** Ledger and backend share one table of futures. */
    ghost predicate Valid()
      reads this
    {
      ledger.futures == futures
    }

    ghost function View(): Backend
      reads this, futures, ledger
    {
      Backend.Backend(capacity, concurrency, phase, queue, workers, active, jobs, futures.states, runFuture,
                      cancelledRuns, ledger.records, store, sentinels, put, done, items, place, killed, refused,
                      ledger.log)
    }

    constructor (capacity: nat, concurrency: nat)
      ensures Valid() && View() == Pool.Initial(capacity, concurrency)
    {
      this.capacity, this.concurrency := capacity, concurrency;
      var table := new FutureTable();
      futures := table;
      ledger := new IdempotencyLedger(table);
      phase, queue, workers := Serving, [], seq(concurrency, _ => Resting);
      active, jobs, runFuture, cancelledRuns, store := map[], map[], map[], {}, map[];
      sentinels, put, done := 0, 0, 0;
      items, place, killed, refused := map[], map[], {}, {};
    }

    // ---- Settling an item ----

    method ConcludeWith(item: Item, result: Stored)
      requires Valid()
      modifies this`place, ledger, futures
      ensures Valid() && View() == Pool.ConcludeWith(old(View()), item, result)
    {
      futures.Settle(item.future, Result(result));
      place := place[item.future := Finished];
      if item.key.Some? {
        ledger.Complete(item.key.value, result);
      }
    }

    method ConcludeRaised(item: Item)
      requires Valid()
      modifies this`place, ledger, futures
      ensures Valid() && View() == Pool.ConcludeRaised(old(View()), item)
    {
      futures.Settle(item.future, Raised);
      place := place[item.future := Finished];
      if item.key.Some? {
        ledger.Fail(item.key.value);
      }
    }

    method FinalizeCancelled(item: Item)
      requires Valid()
      modifies this`jobs, this`store, this`place, ledger, futures
      ensures Valid() && View() == Pool.FinalizeCancelled(old(View()), item)
    {
      hide Pool.ConcludeWith, Pool.ConcludeRaised;
      if item.run in jobs {
        jobs := jobs[item.run := Job(JobCancelled, true)];
      }
      if item.run in store {
        var state := store[item.run].(status := RunCancelled);
        store := store[item.run := state];
        ConcludeWith(item, state);
      } else {
        ConcludeRaised(item);
      }
    }

    // ---- Submissions ----

    predicate Full()
      reads this
      ensures Full() <==> (capacity > 0 && |queue| >= capacity)
    {
      capacity > 0 && |queue| >= capacity
    }

    method Enqueue(item: Item)
      modifies this`queue, this`put, this`runFuture, this`items, this`place
      ensures View() == Pool.Admit(old(View()), item)
    {
      runFuture := runFuture[item.run := item.future];
      queue := queue + [item];
      put := put + 1;
      items := items[item.future := item];
      place := place[item.future := InQueue];
    }

    /** The state and the job of a new run. */
    method Register(run: RunId)
      requires Valid()
      modifies this`store, this`jobs
      ensures Valid() && View() == old(View()).(store := old(store)[run := Stored(Idle, false)],
                jobs := old(jobs)[run := Job(Queued, false)])
    {
      store := store[run := Stored(Idle, false)];
      jobs := jobs[run := Job(Queued, false)];
    }

    /** Claim the key or join whoever holds it. */
    method Acquire(run: RunId, hash: Hash, key: Key) returns (answer: Option<Answer>)
      requires Valid() && phase == Serving
      modifies ledger, futures
      ensures Valid()
      ensures key in old(ledger.records) <==> answer.Some?
      ensures answer.Some? ==> (View(), answer.value) == Pool.SubmitRun(old(View()), run, hash, Some(key))
      ensures answer.None? ==>
                View() == old(View()).(futures := old(futures.states) + [Open],
                                       ledger := old(ledger.records)[key :=
                                         Record(hash, run, |old(futures.states)|, false, None)],
                                       log := old(ledger.log) + [KeyClaimed(key, |old(futures.states)|)])
    {
      var acquired := ledger.AcquireOrJoin(key, hash, run);
      match acquired
      case HashConflict => return Some(Conflict);
      case Joins(f, cached) =>
        if cached.Some? {
          futures.Settle(f, Result(cached.value));
        }
        return Some(Joined(f));
      case Initiates(_) => return None;
    }

    method SubmitRun(run: RunId, hash: Hash, key: Option<Key>) returns (answer: Answer)
      requires Valid()
      modifies this, ledger, futures
      ensures Valid() && (View(), answer) == Pool.SubmitRun(old(View()), run, hash, key)
    {
      hide Pool.Admit, SetIfOpen;
      if phase != Serving {
        return ShuttingDown;
      }
      var future := |futures.states|;
      if key.Some? {
        var joined := Acquire(run, hash, key.value);
        if joined.Some? {
          return joined.value;
        }
      }
      if Full() {
        if key.Some? {
          refused := refused + {key.value};
        }
        return Answer.Full;
      }
      Register(run);
      if key.None? {
        future := futures.Create();
      }
      Enqueue(Item(run, StartRun, future, key));
      answer := Admitted(future);
    }

    method SubmitResume(run: RunId) returns (answer: Answer)
      requires Valid()
      modifies this, futures
      ensures Valid() && (View(), answer) == Pool.SubmitResume(old(View()), run)
    {
      hide Pool.Admit, SetIfOpen;
      if phase != Serving {
        return ShuttingDown;
      }
      if run !in store {
        return NotFound;
      }
      if !store[run].requiresHuman {
        return NotPending;
      }
      if Terminal(store[run].status) {
        return AlreadyTerminal;
      }
      if Full() {
        return Answer.Full;
      }
      jobs := jobs[run := Job(Queued, false)];
      cancelledRuns := cancelledRuns - {run};
      var future := futures.Create();
      Enqueue(Item(run, ResumeRun, future, None));
      answer := Admitted(future);
    }

    method Flag(run: RunId)
      requires Valid()
      modifies this`cancelledRuns, this`jobs
      ensures Valid() && View() == Pool.Flag(old(View()), run)
    {
      cancelledRuns := cancelledRuns + {run};
      if run in jobs {
        jobs := jobs[run := jobs[run].(isCancelled := true)];
      }
    }

    method CancelActive(run: RunId)
      requires Valid() && run in active
      modifies this`workers, this`killed
      ensures Valid() && View() == Pool.CancelActive(old(View()), run)
    {
      var w := active[run];
      if w < |workers| && workers[w].Busy? {
        workers := workers[w := workers[w].(cancelling := true)];
      }
      killed := killed + {run};
    }

    method CancelStored(run: RunId)
      requires Valid() && run in store
      modifies this`store, this`jobs, this`killed, futures
      ensures Valid() && View() == Pool.CancelStored(old(View()), run)
    {
      var state := store[run].(status := RunCancelled);
      store := store[run := state];
      if run in runFuture {
        futures.Settle(runFuture[run], Result(state));
      }
      SetJobStatus(run, JobCancelled);
      killed := killed + {run};
    }

    method CancelRun(run: RunId) returns (cancelled: bool)
      requires Valid()
      modifies this, futures
      ensures Valid() && (View(), cancelled) == Pool.CancelRun(old(View()), run)
    {
      hide Pool.Flag, Pool.CancelActive, Pool.CancelStored;
      Flag(run);
      if run in active {
        CancelActive(run);
        return true;
      }
      if run in store && store[run].status in {Idle, PausedForHuman, Running} {
        CancelStored(run);
        return true;
      }
      return false;
    }

    // ---- The worker loop between two suspensions ----

    method SetJobStatus(run: RunId, status: JobStatus)
      modifies this`jobs
      ensures jobs == SetJob(old(jobs), run, status)
    {
      if run in jobs {
        jobs := jobs[run := jobs[run].(status := status)];
      }
    }

    /** Worker `w` starts the runtime for the item it took. */
    method Start(w: nat, item: Item)
      requires w < |workers|
      modifies this`active, this`workers, this`jobs, this`store, this`place
      ensures active == old(active)[item.run := w] && workers == old(workers)[w := Busy(item, false)]
      ensures jobs == SetJob(old(jobs), item.run, JobRunning) && place == old(place)[item.future := AtWorker(w)]
      ensures store == if item.kind == ResumeRun then old(store)[item.run := Stored(Running, true)] else old(store)
    {
      if item.run in jobs {
        jobs := jobs[item.run := jobs[item.run].(status := JobRunning)];
      }
      active, workers := active[item.run := w], workers[w := Busy(item, false)];
      if item.kind == ResumeRun {
        store := store[item.run := Stored(Running, true)];
      }
      place := place[item.future := AtWorker(w)];
    }

    /** Finalize the first item without running it. */
    method DropFirst()
      requires Valid() && queue != []
      modifies this, ledger, futures
      ensures Valid() && View() == DropFront(old(View())) && queue == old(queue)[1..] && phase == old(phase)
    {
      hide Pool.ConcludeWith, Pool.ConcludeRaised, SetJob;
      var item := queue[0];
      queue := queue[1..];
      FinalizeCancelled(item);
      done := done + 1;
    }

    predicate IsFlagged(run: RunId)
      reads this, futures, ledger
      ensures IsFlagged(run) <==> Flagged(View(), run)
    {
      run in cancelledRuns || (run in jobs && jobs[run].isCancelled)
    }

    /** Worker `w` gets the first item and runs it. */
    method TakeLive(w: nat)
      requires Valid() && w < |workers| && queue != [] && !Flagged(View(), queue[0].run)
      modifies this
      ensures Valid() && View() == Pool.Take(old(View()), w)
    {
      hide SetJob;
      var item := queue[0];
      queue := queue[1..];
      Start(w, item);
    }

    /** Worker `w` comes back from the queue with the first item. */
    method Take(w: nat)
      requires Valid() && w < |workers| && workers[w].Resting? && queue != []
      modifies this, ledger, futures
      ensures Valid() && View() == Pool.Take(old(View()), w)
    {
      hide DropFront, Flagged;
      if IsFlagged(queue[0].run) {
        DropFirst();
      } else {
        TakeLive(w);
      }
    }

    method Leave(w: nat)
      requires Valid() && w < |workers| && workers[w].Busy?
      modifies this`active, this`workers, this`done, this`sentinels
      ensures Valid() && View() == Pool.Leave(old(View()), w)
    {
      active := active - {workers[w].item.run};
      done := done + 1;
      if phase != Stopping {
        workers := workers[w := Resting];
      } else if sentinels > 0 {
        sentinels := sentinels - 1;
        workers := workers[w := Stopped];
      } else {
        workers := workers[w := Starved];
      }
    }

    /** The runtime call of worker `w` returns or raises. */
    method Finish(w: nat, o: RuntimeOutcome)
      requires Valid() && w < |workers| && workers[w].Busy?
      modifies this, ledger, futures
      ensures Valid() && View() == Pool.Finish(old(View()), w, o)
    {
      hide Pool.ConcludeWith, Pool.ConcludeRaised, Pool.Leave, SetJob;
      var item := workers[w].item;
      match o {
        case Returned(st) =>
          store := store[item.run := st];
          if st.status == PausedForHuman {
            SetJobStatus(item.run, WaitingForHuman);
          } else {
            SetJobStatus(item.run, if st.status == RunCompleted then JobCompleted else JobFailed);
          }
          ConcludeWith(item, st);
        case Threw =>
          SetJobStatus(item.run, JobFailed);
          ConcludeRaised(item);
      }
      Leave(w);
    }

    /** The runtime call of worker `w` ends in its cancellation. */
    method DeliverCancel(w: nat)
      requires Valid() && w < |workers| && workers[w].Busy?
      modifies this, ledger, futures
      ensures Valid() && View() == Pool.DeliverCancel(old(View()), w)
    {
      hide Pool.FinalizeCancelled, Pool.Leave;
      FinalizeCancelled(workers[w].item);
      Leave(w);
    }

    // ---- Shutdown ----

    /** Refuse new work and finalize everything that waits. */
    method BeginShutdown()
      requires Valid() && phase == Serving
      modifies this, ledger, futures
      ensures Valid() && View() == Pool.BeginShutdown(old(View()))
    {
      hide DropFront;
      phase := Draining;
      ghost var start := View();
      while queue != []
        invariant phase == Draining && Valid()
        invariant Drain(View()) == Drain(start)
        decreases |queue|
      {
        DropFirst();
      }
    }

    /** Send one termination signal for each worker, as far as the queue takes them, and cancel all workers. */
    method ForceStop()
      requires Valid() && phase == Draining && queue == []
      modifies this
      ensures Valid() && View() == Pool.ForceStop(old(View()))
    {
      ghost var was := workers;
      var signals := 0;
      for i := 0 to |workers|
        invariant signals == if capacity > 0 && capacity < i then capacity else i
      {
        if capacity == 0 || |queue| + signals < capacity {
          signals := signals + 1;
        }
      }
      sentinels := signals;
      for i := 0 to |workers|
        modifies this`workers
        invariant |workers| == |was|
        invariant forall j | 0 <= j < i :: workers[j] == if was[j].Busy? then was[j].(cancelling := true) else Stopped
        invariant forall j | i <= j < |was| :: workers[j] == was[j]
      {
        workers := workers[i := if workers[i].Busy? then workers[i].(cancelling := true) else Stopped];
      }
      phase := Stopping;
    }

    // ---- Driving the backend ----

    /** One step of callers, workers or shutdown. */
    method Perform(step: Step)
      requires Valid() && CanStep(View(), step) && (phase != Serving ==> queue == [])
      modifies this, ledger, futures
      ensures Valid() && View() == DoStep(old(View()), step)
    {
      hide Pool.SubmitRun, Pool.SubmitResume, Pool.CancelRun, Pool.Take, Pool.Finish, Pool.DeliverCancel,
        Pool.BeginShutdown, Pool.ForceStop;
      match step {
        case DoSubmit(run, hash, key) =>
          var answer := SubmitRun(run, hash, key);
        case DoResume(run) =>
          var answer := SubmitResume(run);
        case DoCancel(run) =>
          var cancelled := CancelRun(run);
        case DoTake(w) => Take(w);
        case DoFinish(w, o) => Finish(w, o);
        case DoDeliver(w) => DeliverCancel(w);
        case DoBeginShutdown => BeginShutdown();
        case DoForceStop => ForceStop();
      }
    }

    /** Any run of legal steps takes the object where it takes the values, and the pool invariant holds throughout. */
    method Serve(steps: seq<Step>)
      requires Valid() && Inv(View()) && Allowed(View(), steps)
      modifies this, ledger, futures
      ensures Valid() && Inv(View()) && View() == After(old(View()), steps)
    {
      hide Inv, DoStep, CanStep, Legal;
      ghost var start := View();
      assert steps[0..] == steps;
      for i := 0 to |steps|
        invariant Valid() && Inv(View()) && Allowed(View(), steps[i..])
        invariant After(View(), steps[i..]) == After(start, steps)
      {
        assert steps[i..][1..] == steps[i + 1..];
        StepKeeps(View(), steps[i]);
        NothingWaits(View());
        Perform(steps[i]);
      }
      assert steps[|steps|..] == [];
    }
  }

  lemma NothingWaits(s: Backend)
    requires Inv(s)
    ensures s.phase != Serving ==> s.queue == []
  {
    hide Body;
  }
}
