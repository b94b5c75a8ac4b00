/** What the execution backend promises its callers, over all runs. */
module PoolPromises {
  import opened Workflow
  import opened Pool
  import opened PoolSafety
  import opened PoolSteps
  import opened PoolProgress
  import WorkflowRuns

  // ---- Conservation and capacity ----

  lemma BusyCountNext(workers: seq<Worker>, n: nat)
    requires n < |workers|
    ensures BusyCount(workers[..n + 1]) == BusyCount(workers[..n]) + if workers[n].Busy? then 1 else 0
  {
    assert workers[..n + 1][..n] == workers[..n];
  }

  function ActiveBelow(s: Backend, n: nat): set<RunId> {
    set r | r in s.active && s.active[r] < n
  }

  lemma {:induction false} ActiveUpTo(s: Backend, n: nat)
    requires ActiveOk(s) && n <= |s.workers|
    ensures |ActiveBelow(s, n)| == BusyCount(s.workers[..n])
  {
    hide BusyCount;
    if n == 0 {
      assert ActiveBelow(s, 0) == {};
      BusyCountNone(s.workers[..0]);
    } else {
      ActiveUpTo(s, n - 1);
      BusyCountNext(s.workers, n - 1);
      if s.workers[n - 1].Busy? {
        assert ActiveBelow(s, n) == ActiveBelow(s, n - 1) + {s.workers[n - 1].item.run};
      } else {
        assert ActiveBelow(s, n) == ActiveBelow(s, n - 1);
      }
    }
  }

  lemma {:induction false} BusyCountBounded(workers: seq<Worker>)
    ensures BusyCount(workers) <= |workers|
  {
    if workers != [] {
      BusyCountBounded(workers[..|workers| - 1]);
    }
  }

  /** Every item put on the queue is still queued, held by a worker, or marked done; the active runs are
      the runs of the busy workers, never more than the pool allows; the queue never exceeds its capacity. */
  lemma Conservation(capacity: nat, concurrency: nat, steps: seq<Step>)
    requires Allowed(Initial(capacity, concurrency), steps)
    ensures var s := After(Initial(capacity, concurrency), steps);
            && s.put == |s.queue| + |s.active| + s.done
            && |s.active| <= concurrency
            && (capacity > 0 ==> |s.queue| <= capacity)
  {
    hide Core, QueueOk, WorkersOk, KilledOk, PhaseOk, Allowed, After;
    InitialKeeps(capacity, concurrency);
    RunsAdvance(Initial(capacity, concurrency), steps);
    var s := After(Initial(capacity, concurrency), steps);
    ActiveUpTo(s, |s.workers|);
    assert s.workers[..|s.workers|] == s.workers;
    assert ActiveBelow(s, |s.workers|) == s.active.Keys;
    BusyCountBounded(s.workers);
  }

  /** First come, first served: whoever waits was admitted after the item the next worker gets. */
  lemma FirstComeFirstServed(s: Backend, f: nat)
    requires Inv(s) && s.queue != [] && f in s.items && f in s.place && s.place[f] == InQueue
    ensures s.queue[0].future <= f
  {
    hide Core, WorkersOk, ActiveOk, KilledOk, CountsOk, PhaseOk;
    var i :| 0 <= i < |s.queue| && s.queue[i].future == f;
  }

  // ---- Futures ----

  /** An admitted item is never lost: once it has left the pool its future is settled, and from then on
      neither its place nor the value of its future changes. */
  lemma SettledExactlyOnce(s: Backend, steps: seq<Step>, f: nat)
    requires Inv(s) && Allowed(s, steps) && f in s.items
    ensures var u := After(s, steps);
            && f in s.place && f < |s.futures| && f in u.items && f in u.place && f < |u.futures|
                && u.items[f] == s.items[f]
            && (u.place[f] == Finished ==> !u.futures[f].Open?)
            && (s.place[f] == Finished ==> u.place[f] == Finished && u.futures[f] == s.futures[f])
            && (!s.futures[f].Open? ==> u.futures[f] == s.futures[f])
  {
    hide Inv, Allowed, After, StoreAdvance, RefusedAdvance, KilledAdvance;
    RunsAdvance(s, steps);
    ItemFacts(s, f);
    ItemFacts(After(s, steps), f);
  }

  lemma ItemFacts(s: Backend, f: nat)
    requires Inv(s) && f in s.items
    ensures f in s.place && f < |s.futures| && (s.place[f] == Finished ==> !s.futures[f].Open?)
  {
    hide UniqueOk, LedgerOk, QueueOk, WorkersOk, ActiveOk, KilledOk, CountsOk, PhaseOk;
    assert FutureOk(s, f);
  }

  /** The record of the item's key is completed with the returned state, or gone; no other record is touched. */
  predicate KeySettled(s: Backend, t: Backend, item: Item, o: RuntimeOutcome) {
    match item.key
    case None => t.ledger == s.ledger
    case Some(k) =>
      && k in s.ledger && s.ledger[k].future == item.future
      && match o
         case Returned(st) => t.ledger == s.ledger[k := s.ledger[k].(completed := true, cached := Some(st))]
         case Threw => t.ledger == s.ledger - {k}
  }

  /** The job status a caller sees after the outcome. */
  function JobFor(o: RuntimeOutcome): JobStatus {
    match o
    case Returned(Stored(PausedForHuman, _)) => WaitingForHuman
    case Returned(Stored(RunCompleted, _)) => JobCompleted
    case _ => JobFailed
  }

  /** What the runtime returned reaches the caller's future, the store and the key's record; what it
      raised reaches the future and releases the key, and the stored state stays as it was. */
  lemma OutcomeDelivered(s: Backend, w: nat, o: RuntimeOutcome)
    requires Inv(s) && CanStep(s, DoFinish(w, o))
    ensures var item, t := s.workers[w].item, DoStep(s, DoFinish(w, o));
            && item.future < |s.futures| && s.futures[item.future].Open?
            && t.futures == s.futures[item.future := if o.Returned? then Result(o.state) else Raised]
            && t.store == (if o.Returned? then s.store[item.run := o.state] else s.store)
            && KeySettled(s, t, item, o)
            && item.run in t.jobs && t.jobs[item.run].status == JobFor(o)
            && item.run !in t.active && |t.workers| == |s.workers| && !t.workers[w].Busy?
  {
    hide Inv, Core, ConcludeWith, ConcludeRaised;
    BusyItem(s, w);
    var f := s.workers[w].item.future;
    OutstandingFacts(s, f);
    var item := s.items[f];
    match o
    case Returned(st) =>
      ConcludeWithEffect(s.(store := s.store[item.run := st],
          jobs := SetJob(s.jobs, item.run, JobAfter(st.status))), item, st);
    case Threw =>
      ConcludeRaisedEffect(s.(jobs := SetJob(s.jobs, item.run, JobFailed)), item);
  }

  // ---- Cancellation ----

  /** The call answers true exactly for a run that is active or stored in a status that is not terminal. */
  lemma CancelAnswer(s: Backend, run: RunId)
    requires Inv(s)
    ensures CancelRun(s, run).1 <==> run in s.active || (run in s.store && !Terminal(s.store[run].status))
    ensures CancelRun(s, run).1 ==> run in CancelRun(s, run).0.killed
    ensures !CancelRun(s, run).1 ==> CancelRun(s, run).0.store == s.store && CancelRun(s, run).0.futures == s.futures
  {
    if run in s.store {
      LiveStatus(s.store[run].status);
    }
  }

  lemma KilledStatus(s: Backend, run: RunId)
    requires Inv(s) && run in s.killed
    ensures run in s.store && (run !in s.active ==> s.store[run].status == RunCancelled)
  {
    hide Core, QueueOk, WorkersOk, ActiveOk, CountsOk, PhaseOk;
  }

  /** After a cancellation that answered true, while callers keep to the rules, the runtime is never started for the
      run again, in a resumed segment either: a worker busy with it was busy with the same item before. As soon as no
      worker is, the run is stored CANCELLED. */
  lemma CancellationIsFinal(s: Backend, run: RunId, steps: seq<Step>)
    requires Inv(s) && CancelRun(s, run).1 && Allowed(CancelRun(s, run).0, steps)
    ensures var u := After(CancelRun(s, run).0, steps);
            && run in u.killed && run in u.store
            && (run !in u.active ==> u.store[run].status == RunCancelled)
            && |u.workers| == |s.workers|
            && (forall w | 0 <= w < |u.workers| && u.workers[w].Busy? && u.workers[w].item.run == run ::
                  s.workers[w].Busy? && s.workers[w].item == u.workers[w].item)
  {
    hide Inv, Allowed, After, Settles;
    CancelAnswer(s, run);
    CancelKeeps(s, run);
    CancelAdvances(s, run);
    CancelTouchesNoItem(s, run);
    hide CancelRun;
    var t := CancelRun(s, run).0;
    RunsAdvance(t, steps);
    KilledStatus(After(t, steps), run);
  }

  lemma CancelTouchesNoItem(s: Backend, run: RunId)
    ensures var t := CancelRun(s, run).0;
            |t.workers| == |s.workers|
            && forall w | 0 <= w < |t.workers| && t.workers[w].Busy? :: s.workers[w].Busy?
                && s.workers[w].item == t.workers[w].item
  {
    hide SetJob, SetIfOpen;
  }

  /** What a finished workflow segment leaves in the store can be resumed exactly if the segment ended PAUSED. */
  lemma SegmentResumableIff(moves: seq<Move>, s: Backend, run: RunId)
    requires WorkflowRuns.Run(moves).Some? && WorkflowRuns.Run(moves).value.at == NodeName.End
    requires var st := WorkflowRuns.Run(moves).value.state;
             run in s.store && s.store[run] == Stored(st.status, st.requiresHuman)
    ensures SubmitResume(s, run).1.Admitted? <==>
            s.phase == Serving && !QueueFull(s) && WorkflowRuns.Run(moves).value.state.status == PausedForHuman
  {
    hide WorkflowRuns.Run;
    WorkflowRuns.SegmentsEndAtTheGate(moves);
  }

  // ---- Refused keys ----

  /** A keyed submission that the full queue turned away leaves its claim behind. */
  lemma RefusalLeavesClaim(s: Backend, run: RunId, hash: Hash, key: Key)
    ensures SubmitRun(s, run, hash, Some(key)).1 == Full ==>
              key in SubmitRun(s, run, hash, Some(key)).0.refused
              && key in SubmitRun(s, run, hash, Some(key)).0.ledger
              && SubmitRun(s, run, hash, Some(key)).0.ledger[key].requestHash == hash
  {
  }

  lemma RefusedRecord(s: Backend, key: Key)
    requires Inv(s) && key in s.refused
    ensures key in s.ledger && !s.ledger[key].completed && s.ledger[key].future < |s.futures|
              && s.futures[s.ledger[key].future].Open?
  {
    hide UniqueOk, FuturesOk, QueueOk, WorkersOk, ActiveOk, KilledOk, CountsOk, PhaseOk;
  }

  /** Nobody ever settles a refused claim: whatever happens later, the same request with that key joins
      a future that is still open, and is never run. */
  lemma RefusedKeyNeverSettles(s: Backend, steps: seq<Step>, key: Key, run: RunId, hash: Hash)
    requires Inv(s) && Allowed(s, steps) && key in s.refused
    ensures var u := After(s, steps);
            && key in s.ledger && key in u.ledger && u.ledger[key] == s.ledger[key]
            && u.ledger[key].future < |u.futures| && u.futures[u.ledger[key].future].Open?
            && (u.phase == Serving ==>
                  SubmitRun(u, run, hash, Some(key)) ==
                  (u, if hash == u.ledger[key].requestHash then Joined(u.ledger[key].future) else Conflict))
  {
    hide Inv, Allowed, After, FuturesAdvance, ItemsAdvance, StoreAdvance, KilledAdvance;
    RunsAdvance(s, steps);
    RefusedRecord(s, key);
    RefusedRecord(After(s, steps), key);
  }

  // ---- Shutdown ----

  /** When shutdown has begun and no worker is busy, every item ever admitted has left, its future is
      settled, and the only open records left are those of refused submissions. */
  lemma ShutdownSettlesEverything(s: Backend)
    requires Inv(s) && s.phase != Serving && forall w | 0 <= w < |s.workers| :: !s.workers[w].Busy?
    ensures s.active == map[] && s.put == s.done
    ensures forall f | f in s.items :: f in s.place && s.place[f] == Finished && f < |s.futures| && !s.futures[f].Open?
    ensures forall k | k in s.ledger && !s.ledger[k].completed :: k in s.refused
  {
    hide Core, KilledOk, PhaseOk;
    BusyCountNone(s.workers);
    InvHasCore(s);
    forall f | f in s.items ensures f in s.place && s.place[f] == Finished && f < |s.futures| && !s.futures[f].Open? {
      ItemFacts(s, f);
    }
    OpenRecords(s);
  }

  lemma OpenRecords(s: Backend)
    requires Core(s)
    ensures forall k | k in s.ledger && !s.ledger[k].completed && k !in s.refused :: Outstanding(s, s.ledger[k].future)
  {
    hide UniqueOk, FuturesOk, ItemsOk;
  }

  lemma {:induction false} BusyCountMember(workers: seq<Worker>, w: nat)
    requires w < |workers| && workers[w].Busy?
    ensures BusyCount(workers) > 0
  {
    if w < |workers| - 1 {
      BusyCountMember(workers[..|workers| - 1], w);
    }
  }

  /** `ended` workers handed in since shutdown forced the stop with `signals` termination signals. */
  ghost predicate Signals(s: Backend, signals: nat, ended: nat) {
    && s.sentinels == (if ended <= signals then signals - ended else 0)
    && ((exists w :: 0 <= w < |s.workers| && s.workers[w].Starved?) <==> ended > signals)
  }

  lemma DeliverTakesSignal(s: Backend, w: nat, signals: nat, ended: nat)
    requires Inv(s) && s.phase == Stopping && CanStep(s, DoDeliver(w)) && Signals(s, signals, ended)
    ensures var t := DoStep(s, DoDeliver(w));
            t.phase == Stopping && Signals(t, signals, ended + 1) && BusyCount(t.workers) == BusyCount(s.workers) - 1
  {
    hide Inv, Core, Leaves, FinalizeCancelled;
    BusyItem(s, w);
    FinalizeLeaves(s, s.workers[w].item.future);
    var t := FinalizeCancelled(s, s.workers[w].item);
    assert t.workers == s.workers && t.sentinels == s.sentinels && t.phase == s.phase;
    var u := Leave(t, w);
    BusyCountUpdate(s.workers, w, u.workers[w]);
    assert forall v | 0 <= v < |s.workers| && v != w :: u.workers[v] == s.workers[v];
    if ended > signals {
      var v :| 0 <= v < |s.workers| && s.workers[v].Starved?;
      assert u.workers[v].Starved?;
    } else if ended == signals {
      assert u.workers[w].Starved?;
    }
  }

  lemma StoppingPhase(s: Backend, w: nat)
    requires Inv(s) && s.phase == Stopping && w < |s.workers|
    ensures !s.workers[w].Resting? && (s.workers[w].Busy? ==> s.workers[w].cancelling)
  {
    hide Core, QueueOk, WorkersOk, ActiveOk, KilledOk, CountsOk;
  }

  /** While it stops, the pool refuses submissions and starts nothing: only cancelled calls come back. */
  lemma StoppingStep(s: Backend, step: Step)
    requires Inv(s) && s.phase == Stopping && CanStep(s, step) && !step.DoDeliver?
    ensures DoStep(s, step).phase == Stopping && DoStep(s, step).sentinels == s.sentinels
              && DoStep(s, step).workers == s.workers
  {
    hide Inv, SetJob, SetIfOpen;
    match step
    case DoTake(w) => StoppingPhase(s, w);
    case DoFinish(w, o) => StoppingPhase(s, w);
    case DoCancel(run) =>
      if run in s.active && s.active[run] < |s.workers| {
        StoppingPhase(s, s.active[run]);
      }
    case _ =>
  }

  lemma {:induction false} StoppingRun(s: Backend, steps: seq<Step>, signals: nat, ended: nat)
    requires Inv(s) && s.phase == Stopping && Allowed(s, steps) && Signals(s, signals, ended)
    ensures var u := After(s, steps);
            Inv(u) && u.phase == Stopping && BusyCount(u.workers) <= BusyCount(s.workers)
            && Signals(u, signals, ended + BusyCount(s.workers) - BusyCount(u.workers))
    decreases |steps|
  {
    hide Inv, CanStep, DoStep, Legal, Signals;
    if steps != [] {
      StepKeeps(s, steps[0]);
      var t := DoStep(s, steps[0]);
      if steps[0].DoDeliver? {
        DeliverTakesSignal(s, steps[0].worker, signals, ended);
        StoppingRun(t, steps[1..], signals, ended + 1);
      } else {
        StoppingStep(s, steps[0]);
        SameSignals(s, t, signals, ended);
        StoppingRun(t, steps[1..], signals, ended);
      }
    }
  }

  lemma SameSignals(s: Backend, t: Backend, signals: nat, ended: nat)
    requires Signals(s, signals, ended) && t.workers == s.workers && t.sentinels == s.sentinels
    ensures Signals(t, signals, ended)
  {
  }

  /** Once all calls have come back, every worker has ended - so that shutdown can return - exactly when no
      more workers were busy at the forced stop than the queue takes termination signals. */
  lemma ShutdownReturnsIff(s: Backend, steps: seq<Step>)
    requires Inv(s) && s.phase == Draining && Allowed(ForceStop(s), steps)
    requires BusyCount(After(ForceStop(s), steps).workers) == 0
    ensures (forall w | 0 <= w < |s.workers| :: w < |After(ForceStop(s), steps).workers|
              && After(ForceStop(s), steps).workers[w].Stopped?)
            <==> s.capacity == 0 || BusyCount(s.workers) <= s.capacity
  {
    hide Inv, Allowed, After;
    ForceStopKeeps(s);
    var t := ForceStop(s);
    assert forall w | 0 <= w < |t.workers| :: !t.workers[w].Starved?;
    StoppingRun(t, steps, t.sentinels, 0);
    RunsAdvance(t, steps);
    BusyCountSame(s.workers, t.workers);
    BusyCountBounded(s.workers);
    var u := After(t, steps);
    assert |u.workers| == |s.workers|;
    forall w | 0 <= w < |u.workers| ensures u.workers[w].Stopped? || u.workers[w].Starved? {
      StoppingPhase(u, w);
      if u.workers[w].Busy? {
        BusyCountMember(u.workers, w);
      }
    }
  }
}
