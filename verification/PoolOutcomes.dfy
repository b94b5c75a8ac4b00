/** What every call of the backend answers and what it leaves behind, field by field: the answer and the future a caller
    gets, the stored run, the job and the key's record, and that nobody else's change. */
module PoolOutcomes {
  import opened Workflow
  import opened Pool
  import opened PoolSafety
  import opened PoolSteps
  import opened PoolProgress
  import opened PoolPromises

  /** Everything a call may change is as before. */
  predicate Untouched(s: Backend, t: Backend) {
    && t.capacity == s.capacity && t.concurrency == s.concurrency && t.phase == s.phase
    && t.active == s.active && t.sentinels == s.sentinels && t.done == s.done
  }

  // ---- Submissions ----

  /** Shutdown is told first, then a conflict or a join on a known key, then the full queue; nothing else is refused. */
  lemma SubmissionAnswer(s: Backend, run: RunId, hash: Hash, key: Option<Key>)
    ensures var a := SubmitRun(s, run, hash, key).1;
            var known := key.Some? && key.value in s.ledger;
            var full := s.capacity > 0 && |s.queue| >= s.capacity;
            && (a == ShuttingDown <==> s.phase != Serving)
            && (a == Conflict <==> s.phase == Serving && known && s.ledger[key.value].requestHash != hash)
            && (a.Joined? <==> s.phase == Serving && known && s.ledger[key.value].requestHash == hash)
            && (a.Joined? ==> a == Joined(s.ledger[key.value].future))
            && (a == Full <==> s.phase == Serving && !known && full)
            && (a.Admitted? <==> s.phase == Serving && !known && !full)
            && (a.Admitted? ==> a == Admitted(|s.futures|))
  {
  }

  /** An admitted submission: a new open future, the run stored IDLE, a queued job, the item at the end of the queue
      and, with a key, an open record for it; nothing of any other run, future or key changes. */
  lemma SubmissionAdmittedLeaves(s: Backend, run: RunId, hash: Hash, key: Option<Key>)
    requires SubmitRun(s, run, hash, key).1.Admitted?
    ensures var t, f := SubmitRun(s, run, hash, key).0, |s.futures|;
            && Untouched(s, t) && t.workers == s.workers && t.cancelledRuns == s.cancelledRuns && t.put == s.put + 1
            && t.futures == s.futures + [Open] && t.runFuture == s.runFuture[run := f]
            && t.store == s.store[run := Stored(Idle, false)] && t.jobs == s.jobs[run := Job(Queued, false)]
            && t.queue == s.queue + [Item(run, StartRun, f, key)]
            && t.ledger == (if key.Some? then s.ledger[key.value := Record(hash, run, f, false, None)] else s.ledger)
  {
  }

  /** A keyed submission the full queue turns away leaves a claim with a future of its own, and nothing else. */
  lemma SubmissionRefusedLeaves(s: Backend, run: RunId, hash: Hash, key: Key)
    requires SubmitRun(s, run, hash, Some(key)).1 == Full
    ensures var t, f := SubmitRun(s, run, hash, Some(key)).0, |s.futures|;
            && Untouched(s, t) && t.workers == s.workers && t.queue == s.queue && t.store == s.store
            && t.jobs == s.jobs && t.cancelledRuns == s.cancelledRuns && t.runFuture == s.runFuture
            && t.futures == s.futures + [Open] && t.ledger == s.ledger[key := Record(hash, run, f, false, None)]
  {
  }

  /** A join changes no record, run or job; if the record is completed, whoever awaits its future has the cached
      result. */
  lemma JoinLeaves(s: Backend, run: RunId, hash: Hash, key: Key)
    requires SubmitRun(s, run, hash, Some(key)).1.Joined?
    ensures key in s.ledger
    ensures var (t, a), rec := SubmitRun(s, run, hash, Some(key)), s.ledger[key];
            && a == Joined(rec.future) && t == s.(futures := t.futures)
            && (if rec.completed && rec.cached.Some? then SettledWith(s, t, rec.future, Result(rec.cached.value))
                else t.futures == s.futures)
  {
  }

  /** A resume is refused for a closed pool, an unknown run, a run that waits for nobody, a terminal run and a full
      queue, in this order, and changes nothing then. */
  lemma ResumeAnswer(s: Backend, run: RunId)
    ensures var (t, a) := SubmitResume(s, run);
            var waits := run in s.store && s.store[run].requiresHuman;
            var over := run in s.store && s.store[run].status in {RunCompleted, RunFailed, RunCancelled};
            var full := s.capacity > 0 && |s.queue| >= s.capacity;
            && (a == ShuttingDown <==> s.phase != Serving)
            && (a == NotFound <==> s.phase == Serving && run !in s.store)
            && (a == NotPending <==> s.phase == Serving && run in s.store && !waits)
            && (a == AlreadyTerminal <==> s.phase == Serving && waits && over)
            && (a == Full <==> s.phase == Serving && waits && !over && full)
            && (a.Admitted? <==> s.phase == Serving && waits && !over && !full)
            && (a.Admitted? ==> a == Admitted(|s.futures|)) && (!a.Admitted? ==> t == s)
  {
  }

  /** An admitted resume: a new open future, a queued job that no cancellation marks any more, the item at the end
      of the queue; the stored run stays as it is until a worker takes the item. */
  lemma ResumeAdmittedLeaves(s: Backend, run: RunId)
    requires SubmitResume(s, run).1.Admitted?
    ensures var t, f := SubmitResume(s, run).0, |s.futures|;
            && Untouched(s, t) && t.workers == s.workers && t.ledger == s.ledger && t.store == s.store
            && t.put == s.put + 1 && t.cancelledRuns == s.cancelledRuns - {run}
            && t.futures == s.futures + [Open] && t.runFuture == s.runFuture[run := f]
            && t.jobs == s.jobs[run := Job(Queued, false)] && t.queue == s.queue + [Item(run, ResumeRun, f, None)]
  {
  }

  // ---- The ledger ----

  /** Completing a key: its record carries the result from now on, whoever awaits the record's open future gets it,
      and no other record or future changes; an unknown key changes nothing. */
  lemma CompletingAKey(s: Backend, key: Key, result: Stored)
    ensures var t := LedgerComplete(s, key, result);
            if key !in s.ledger then t == s
            else
              && t == s.(ledger := t.ledger, futures := t.futures, log := t.log)
              && t.ledger == s.ledger[key := s.ledger[key].(completed := true, cached := Some(result))]
              && SettledWith(s, t, s.ledger[key].future, Result(result))
  {
  }

  /** Failing a key: its record is gone, so that the key can be claimed again, and whoever awaits the record's open
      future gets the failure. */
  lemma FailingAKey(s: Backend, key: Key)
    ensures var t := LedgerFail(s, key);
            if key !in s.ledger then t == s
            else
              && t == s.(ledger := t.ledger, futures := t.futures, log := t.log)
              && t.ledger == s.ledger - {key} && SettledWith(s, t, s.ledger[key].future, Raised)
  {
  }

  // ---- Cancellation ----

  /** The state of a cancelled run. */
  function AsCancelled(st: Stored): Stored {
    Stored(RunCancelled, st.requiresHuman)
  }

  /** The future holds the value now, if it was open. */
  predicate SettledWith(s: Backend, t: Backend, f: nat, v: Future) {
    && |t.futures| == |s.futures|
    && forall g | 0 <= g < |s.futures| :: t.futures[g] == if g == f && s.futures[g] == Open then v else s.futures[g]
  }

  /** A cancellation that answered true for a run no worker is busy with: the run is stored CANCELLED, its job is
      CANCELLED and marked, and whoever awaits its future gets exactly this state; nothing of any other run, no
      record, no waiting item and no worker changes. */
  lemma CancelWaiting(s: Backend, run: RunId)
    requires CancelRun(s, run).1 && run !in s.active
    ensures run in s.store && !Terminal(s.store[run].status)
    ensures var t, st := CancelRun(s, run).0, AsCancelled(s.store[run]);
            && Untouched(s, t) && t.workers == s.workers && t.queue == s.queue && t.ledger == s.ledger
            && t.put == s.put && t.runFuture == s.runFuture && t.cancelledRuns == s.cancelledRuns + {run}
            && t.store == s.store[run := st]
            && t.jobs == (if run in s.jobs then s.jobs[run := Job(JobCancelled, true)] else s.jobs)
            && (if run in s.runFuture then SettledWith(s, t, s.runFuture[run], Result(st)) else t.futures == s.futures)
  {
    hide Flagged;
  }

  /** Under the invariant every waiting run has an open future, so its caller gets the CANCELLED state. */
  lemma WaitingCallerGetsCancelled(s: Backend, run: RunId, i: nat)
    requires Inv(s) && CancelRun(s, run).1 && run !in s.active && i < |s.queue| && s.queue[i].run == run
    ensures var t, f := CancelRun(s, run).0, s.queue[i].future;
            && f < |s.futures| == |t.futures| && s.futures[f] == Open && run in s.store
            && t.futures == s.futures[f := Result(AsCancelled(s.store[run]))]
  {
    hide LedgerOk, UniqueOk, WorkersOk, ActiveOk, KilledOk, CountsOk, PhaseOk, CancelRun;
    CancelWaiting(s, run);
    var f := s.queue[i].future;
    assert FutureOk(s, f);
  }

  /** A cancellation of a run that a worker is busy with: that call is being cancelled from now on, and the job and
      the run are marked; the stored run and every future stay as they are until the call is back. */
  lemma CancelBusy(s: Backend, run: RunId)
    requires Inv(s) && run in s.active
    ensures CancelRun(s, run).1 && s.active[run] < |s.workers| && s.workers[s.active[run]].Busy?
    ensures var t, w := CancelRun(s, run).0, s.active[run];
            && Untouched(s, t) && t.store == s.store && t.futures == s.futures && t.queue == s.queue
            && t.ledger == s.ledger && t.put == s.put && t.runFuture == s.runFuture
            && t.cancelledRuns == s.cancelledRuns + {run} && t.jobs.Keys == s.jobs.Keys
            && t.workers == s.workers[w := Busy(s.workers[w].item, true)]
            && (forall r | r in s.jobs :: t.jobs[r] == if r == run then Job(s.jobs[r].status, true) else s.jobs[r])
  {
    hide Core, QueueOk, WorkersOk, KilledOk, CountsOk, PhaseOk;
  }

  /** A cancellation that answered false leaves its marks only. */
  lemma CancelRefused(s: Backend, run: RunId)
    requires !CancelRun(s, run).1
    ensures var t := CancelRun(s, run).0;
            && Untouched(s, t) && t.workers == s.workers && t.store == s.store && t.futures == s.futures
            && t.queue == s.queue && t.ledger == s.ledger && t.put == s.put && t.runFuture == s.runFuture
            && t.cancelledRuns == s.cancelledRuns + {run} && t.jobs.Keys == s.jobs.Keys
            && (forall r | r in s.jobs :: t.jobs[r] == if r == run then Job(s.jobs[r].status, true) else s.jobs[r])
  {
  }

  /** A cancelled call that is back: what `OutcomeDelivered` says of a result, with the CANCELLED state. */
  lemma CancellationDelivered(s: Backend, w: nat)
    requires Inv(s) && CanStep(s, DoDeliver(w))
    ensures var item, t := s.workers[w].item, DoStep(s, DoDeliver(w));
            && item.run in s.store && item.run in s.jobs && item.future < |s.futures| && s.futures[item.future] == Open
            && t.futures == s.futures[item.future := Result(AsCancelled(s.store[item.run]))]
            && t.store == s.store[item.run := AsCancelled(s.store[item.run])]
            && t.jobs == s.jobs[item.run := Job(JobCancelled, true)]
            && KeySettled(s, t, item, Returned(AsCancelled(s.store[item.run])))
            && t.active == s.active - {item.run} && t.queue == s.queue && t.runFuture == s.runFuture
            && t.cancelledRuns == s.cancelledRuns && t.done == s.done + 1
            && |t.workers| == |s.workers| && !t.workers[w].Busy?
            && forall v | 0 <= v < |s.workers| && v != w :: t.workers[v] == s.workers[v]
  {
    hide Inv, Core, FinalizeCancelled;
    BusyItem(s, w);
    var f := s.workers[w].item.future;
    OutstandingFacts(s, f);
    FinalizeEffect(s, s.items[f]);
  }

  /** An item that is finalized unrun: its run is stored CANCELLED, its job is CANCELLED, its caller gets that state
      unless it already has one, and its key is completed with it. */
  predicate FinalizedUnrun(s: Backend, t: Backend, item: Item) {
    && item.run in s.store && item.run in s.jobs && item.future < |s.futures|
    && t.store == s.store[item.run := AsCancelled(s.store[item.run])]
    && t.jobs == s.jobs[item.run := Job(JobCancelled, true)]
    && SettledWith(s, t, item.future, Result(AsCancelled(s.store[item.run])))
    && KeySettled(s, t, item, Returned(AsCancelled(s.store[item.run])))
    && t.runFuture == s.runFuture && t.cancelledRuns == s.cancelledRuns && t.put == s.put && t.done == s.done + 1
    && t.active == s.active && t.workers == s.workers && t.phase == s.phase && t.capacity == s.capacity
    && t.concurrency == s.concurrency && t.sentinels == s.sentinels
  }

  lemma DropSettles(s: Backend)
    requires Body(s) && s.queue != []
    ensures FinalizedUnrun(s, DropFront(s), s.queue[0]) && DropFront(s).queue == s.queue[1..]
  {
    hide FutureOk, UniqueOk, LedgerOk, FinalizeCancelled, WorkersOk, ActiveOk, KilledOk, CountsOk, PhaseOk;
    var item := s.queue[0];
    assert Outstanding(s, item.future);
    OutstandingFacts(s, item.future);
    FinalizeEffect(s.(queue := s.queue[1..]), item);
  }

  /** The run, or its job, is marked as cancelled. */
  predicate Marked(s: Backend, run: RunId) {
    run in s.cancelledRuns || (run in s.jobs && s.jobs[run].isCancelled)
  }

  /** A worker that gets an item of a cancelled run finalizes it unrun and goes on resting. */
  lemma CancelledItemIsDropped(s: Backend, w: nat)
    requires Inv(s) && CanStep(s, DoTake(w)) && Marked(s, s.queue[0].run)
    ensures var t := DoStep(s, DoTake(w)); FinalizedUnrun(s, t, s.queue[0]) && t.queue == s.queue[1..]
  {
    hide Body, DropFront, FinalizedUnrun;
    DropSettles(s);
  }

  /** A worker that gets any other item: the run is active at this worker, its job is RUNNING, a resumed run is stored
      RUNNING, and every future and record stays as it is. */
  lemma ItemIsStarted(s: Backend, w: nat)
    requires CanStep(s, DoTake(w)) && !Marked(s, s.queue[0].run)
    ensures var item, t := s.queue[0], DoStep(s, DoTake(w));
            && t.queue == s.queue[1..] && t.workers == s.workers[w := Busy(item, false)]
            && t.active == s.active[item.run := w] && t.futures == s.futures && t.ledger == s.ledger
            && t.store == (if item.kind == ResumeRun then s.store[item.run := Stored(Running, true)] else s.store)
            && t.jobs.Keys == s.jobs.Keys && t.cancelledRuns == s.cancelledRuns && t.runFuture == s.runFuture
            && (forall r | r in s.jobs ::
                  t.jobs[r] == if r == item.run then Job(JobRunning, s.jobs[r].isCancelled) else s.jobs[r])
            && t.put == s.put && t.done == s.done && t.phase == s.phase && t.capacity == s.capacity
  {
    hide DropFront;
  }

  // ---- Shutdown ----

  predicate RunIn(queue: seq<Item>, run: RunId) {
    exists x :: x in queue && x.run == run
  }

  /** Every waiting run is stored CANCELLED with a CANCELLED job, and nothing else is. */
  ghost predicate DrainedRuns(s: Backend, t: Backend) {
    && t.store.Keys == s.store.Keys && t.jobs.Keys == s.jobs.Keys
    && (forall x | x in s.queue :: x.run in s.store)
    && (forall r | r in s.store :: t.store[r] == if RunIn(s.queue, r) then AsCancelled(s.store[r]) else s.store[r])
    && (forall r | r in s.jobs :: t.jobs[r] == if RunIn(s.queue, r) then Job(JobCancelled, true) else s.jobs[r])
  }

  /** Every waiting caller has that state, unless it had an answer, and nobody else has got one. */
  ghost predicate DrainedFutures(s: Backend, t: Backend) {
    && |t.futures| == |s.futures|
    && (forall x | x in s.queue ::
          x.run in s.store && x.future < |s.futures|
          && t.futures[x.future] == if s.futures[x.future] == Open then Result(AsCancelled(s.store[x.run]))
                                    else s.futures[x.future])
    && (forall g | 0 <= g < |s.futures| && (forall x | x in s.queue :: x.future != g) :: t.futures[g] == s.futures[g])
  }

  ghost predicate DrainedTo(s: Backend, t: Backend) {
    && DrainedRuns(s, t) && DrainedFutures(s, t)
    && t.queue == [] && t.active == s.active && t.workers == s.workers && t.cancelledRuns == s.cancelledRuns
  }

  predicate Distinct(queue: seq<Item>) {
    forall i, j | 0 <= i < j < |queue| :: queue[i].future != queue[j].future && queue[i].run != queue[j].run
  }

  lemma FirstIsAlone(queue: seq<Item>)
    requires queue != [] && Distinct(queue)
    ensures forall x | x in queue[1..] :: x.future != queue[0].future && x.run != queue[0].run
    ensures forall x :: x in queue <==> x == queue[0] || x in queue[1..]
    ensures forall r :: RunIn(queue, r) <==> r == queue[0].run || RunIn(queue[1..], r)
  {
    assert queue == [queue[0]] + queue[1..];
    forall x | x in queue[1..] ensures x.future != queue[0].future && x.run != queue[0].run {
      var i :| 0 <= i < |queue[1..]| && queue[1..][i] == x;
      assert queue[i + 1] == x;
    }
  }

  lemma DrainedRunsOnce(s: Backend, t: Backend, u: Backend)
    requires s.queue != [] && FinalizedUnrun(s, t, s.queue[0]) && t.queue == s.queue[1..] && DrainedRuns(t, u)
    requires Distinct(s.queue)
    ensures DrainedRuns(s, u)
  {
    hide KeySettled, SettledWith, Distinct, RunIn;
    FirstIsAlone(s.queue);
  }

  lemma DrainedFuturesOnce(s: Backend, t: Backend, u: Backend)
    requires s.queue != [] && FinalizedUnrun(s, t, s.queue[0]) && t.queue == s.queue[1..] && DrainedFutures(t, u)
    requires Distinct(s.queue)
    ensures DrainedFutures(s, u)
  {
    hide KeySettled, Distinct, RunIn;
    FirstIsAlone(s.queue);
    forall x | x in s.queue
      ensures x.run in s.store && x.future < |s.futures|
      ensures u.futures[x.future] == if s.futures[x.future] == Open then Result(AsCancelled(s.store[x.run]))
                                     else s.futures[x.future]
    {
      if x != s.queue[0] {
        assert x in t.queue;
      }
    }
  }

  lemma DrainedOnce(s: Backend, t: Backend, u: Backend)
    requires s.queue != [] && FinalizedUnrun(s, t, s.queue[0]) && t.queue == s.queue[1..] && DrainedTo(t, u)
    requires Distinct(s.queue)
    ensures DrainedTo(s, u)
  {
    DrainedRunsOnce(s, t, u);
    DrainedFuturesOnce(s, t, u);
    hide KeySettled, SettledWith, Distinct, RunIn, DrainedRuns, DrainedFutures;
  }

  lemma QueueIsDistinct(s: Backend)
    requires Body(s)
    ensures Distinct(s.queue)
  {
    hide FuturesOk, LedgerOk, WorkersOk, ActiveOk, KilledOk, CountsOk, PhaseOk;
    forall i, j | 0 <= i < j < |s.queue| ensures s.queue[i].future != s.queue[j].future
        && s.queue[i].run != s.queue[j].run {
      assert Outstanding(s, s.queue[i].future) && Outstanding(s, s.queue[j].future);
    }
  }

  lemma {:induction false} DrainSettles(s: Backend)
    requires Body(s)
    ensures DrainedTo(s, Drain(s))
    decreases |s.queue|
  {
    hide Body, DropFront, FinalizedUnrun, DrainedTo;
    if s.queue == [] {
      NothingToDrain(s);
    } else {
      DropSettles(s);
      DropFrontKeeps(s);
      QueueIsDistinct(s);
      DrainSettles(DropFront(s));
      DrainedOnce(s, DropFront(s), Drain(s));
    }
  }

  lemma NothingToDrain(s: Backend)
    requires s.queue == []
    ensures DrainedTo(s, s)
  {
  }

  /** When shutdown begins, every waiting caller gets the CANCELLED state of its run, exactly the waiting runs are
      stored CANCELLED with CANCELLED jobs, and what the workers are busy with goes on. */
  lemma ShutdownCancelsWaiting(s: Backend)
    requires Inv(s) && s.phase == Serving
    ensures DrainedTo(s, BeginShutdown(s)) && BeginShutdown(s).phase == Draining
  {
    hide Core, Drain, QueueOk, WorkersOk, ActiveOk, KilledOk, CountsOk, DrainedTo;
    var s1 := s.(phase := Draining);
    SameCore(s, s1);
    SameQueue(s, s1);
    PhaseBody(s);
    DrainSettles(s1);
    DrainKeeps(s1);
    DrainedFrom(s, s1, Drain(s1));
  }

  lemma PhaseBody(s: Backend)
    requires Body(s) && s.phase == Serving
    ensures Body(s.(phase := Draining))
  {
    hide Core;
    SameCore(s, s.(phase := Draining));
  }

  lemma DrainedFrom(s: Backend, s1: Backend, t: Backend)
    requires s1 == s.(phase := Draining) && DrainedTo(s1, t)
    ensures DrainedTo(s, t)
  {
  }

  /** The forced stop cancels every running call, ends every resting worker, and sends one signal for each worker as far
      as a bounded queue takes them. */
  lemma ForcedStop(s: Backend)
    ensures var t := ForceStop(s);
            && t.phase == Stopping && |t.workers| == |s.workers|
            && (forall w | 0 <= w < |s.workers| ::
                  t.workers[w] == if s.workers[w].Busy? then Busy(s.workers[w].item, true) else Stopped)
            && t.sentinels <= |s.workers| && (s.capacity == 0 ==> t.sentinels == |s.workers|)
            && (s.capacity > 0 ==> t.sentinels <= s.capacity)
            && (t.sentinels == s.capacity || t.sentinels == |s.workers|)
            && t.store == s.store && t.futures == s.futures && t.jobs == s.jobs && t.queue == s.queue
            && t.active == s.active && t.ledger == s.ledger
  {
  }
}
