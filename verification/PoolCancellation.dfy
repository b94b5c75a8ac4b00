/** Cancellation against callers who keep to no rules at all: exactly when a cancelled run is never started again,
    and exactly when it is stored CANCELLED in the end. */
module PoolCancellation {
  import opened Workflow
  import opened Pool
  import opened PoolSafety
  import opened PoolSteps
  import opened PoolProgress
  import opened PoolPromises
  import opened PoolRuns

  /** The runtime was not started for the run: whoever is busy with it was busy with the same item before. */
  ghost predicate NotStarted(s: Backend, t: Backend, run: RunId) {
    && |t.workers| == |s.workers|
    && forall w: nat | BusyWith(t, w, run) :: BusyWith(s, w, run) && s.workers[w].item == t.workers[w].item
  }

  // ---- What can start a run ----

  /** Every call that works on the run is being cancelled. */
  ghost predicate AllCancelling(s: Backend, run: RunId) {
    forall w: nat | BusyWith(s, w, run) :: s.workers[w].cancelling
  }

  predicate Waiting(s: Backend, run: RunId) {
    exists i :: 0 <= i < |s.queue| && s.queue[i].run == run
  }

  /** An item of the run waits, and nothing tells the workers to leave it alone. */
  predicate WaitsUnmarked(s: Backend, run: RunId) {
    Waiting(s, run) && !Flagged(s, run)
  }

  /** A resume of the run is admitted, at once or when the item in front of a full queue has been taken. */
  predicate Reopens(s: Backend, run: RunId) {
    && run in s.store && s.store[run].requiresHuman && !Terminal(s.store[run].status)
    && (QueueFull(s) ==> s.queue[0].run != run)
  }

  ghost predicate WorkerFree(s: Backend, run: RunId) {
    exists w: nat :: w < |s.workers| && !BusyWith(s, w, run)
  }

  /** A worker that is not busy with the run can get an item of it to run: one that waits, or that a resume adds. */
  ghost predicate MayStart(s: Backend, run: RunId) {
    s.phase == Serving && WorkerFree(s, run) && (WaitsUnmarked(s, run) || Reopens(s, run))
  }

  // ---- Steps that start nothing ----

  /** What a step that finalizes an item, or touches other runs only, does to the run. */
  ghost predicate Spares(s: Backend, t: Backend, run: RunId) {
    && run in s.store && run in t.store && t.store[run].requiresHuman == s.store[run].requiresHuman
    && (t.store[run].status == s.store[run].status || t.store[run].status == RunCancelled)
    && (Flagged(s, run) ==> Flagged(t, run))
    && (s.phase != Serving ==> t.phase != Serving)
    && |t.workers| == |s.workers|
    && (forall w: nat | BusyWith(t, w, run) ::
          BusyWith(s, w, run) && s.workers[w].item == t.workers[w].item
              && (s.workers[w].cancelling ==> t.workers[w].cancelling))
  }

  lemma FinalizeSpares(s: Backend, item: Item, run: RunId)
    requires run in s.store
    ensures Spares(s, FinalizeCancelled(s, item), run)
    ensures item.run == run ==> FinalizeCancelled(s, item).store[run].status == RunCancelled
    ensures item.run != run ==>
              FinalizeCancelled(s, item).store[run] == s.store[run]
              && (Flagged(FinalizeCancelled(s, item), run) <==> Flagged(s, run))
  {
    hide FinalizeCancelled;
    FinalizeFrame(s, item);
  }

  lemma DropSpares(s: Backend, run: RunId)
    requires run in s.store && s.queue != []
    ensures var t := DropFront(s);
            && Spares(s, t, run) && t.queue == s.queue[1..] && t.workers == s.workers && t.phase == s.phase
            && (s.queue[0].run == run ==> t.store[run].status == RunCancelled)
            && (s.queue[0].run != run ==> t.store[run] == s.store[run] && (Flagged(t, run) <==> Flagged(s, run)))
  {
    hide FinalizeCancelled;
    var s1 := s.(queue := s.queue[1..]);
    FinalizeSpares(s1, s.queue[0], run);
    FinalizeFrame(s1, s.queue[0]);
  }

  lemma SparesTransitive(s: Backend, t: Backend, u: Backend, run: RunId)
    requires Spares(s, t, run) && Spares(t, u, run)
    ensures Spares(s, u, run)
  {
  }

  lemma {:induction false} DrainSpares(s: Backend, run: RunId)
    requires run in s.store
    ensures Spares(s, Drain(s), run) && Drain(s).phase == s.phase && Drain(s).workers == s.workers
    decreases |s.queue|
  {
    hide DropFront, Spares;
    if s.queue == [] {
      SparesItself(s, run);
    } else {
      DropSpares(s, run);
      SparesStored(s, DropFront(s), run);
      DrainSpares(DropFront(s), run);
      SparesTransitive(s, DropFront(s), Drain(s), run);
    }
  }

  lemma SparesItself(s: Backend, run: RunId)
    requires run in s.store
    ensures Spares(s, s, run)
  {
  }

  lemma SparesStored(s: Backend, t: Backend, run: RunId)
    requires Spares(s, t, run)
    ensures run in t.store
  {
  }

  lemma LeaveSpares(s: Backend, t: Backend, w: nat, run: RunId)
    requires Spares(s, t, run) && w < |t.workers| && t.workers[w].Busy?
    ensures Spares(s, Leave(t, w), run) && Leave(t, w).store == t.store
  {
  }

  lemma DeliverSpares(s: Backend, w: nat, run: RunId)
    requires run in s.store && w < |s.workers| && s.workers[w].Busy?
    ensures Spares(s, DeliverCancel(s, w), run)
    ensures s.workers[w].item.run != run ==> DeliverCancel(s, w).store[run] == s.store[run]
  {
    hide FinalizeCancelled, Leave, Spares;
    FinalizeSpares(s, s.workers[w].item, run);
    LeaveSpares(s, FinalizeCancelled(s, s.workers[w].item), w, run);
    SparesStored(s, FinalizeCancelled(s, s.workers[w].item), run);
  }

  lemma FinishSpares(s: Backend, w: nat, o: RuntimeOutcome, run: RunId)
    requires run in s.store && w < |s.workers| && s.workers[w].Busy? && s.workers[w].item.run != run
    ensures Spares(s, Finish(s, w, o), run) && Finish(s, w, o).store[run] == s.store[run]
  {
    hide ConcludeWith, ConcludeRaised, Leave;
    var item := s.workers[w].item;
    match o
    case Returned(st) =>
      var s1 := s.(store := s.store[item.run := st], jobs := SetJob(s.jobs, item.run, JobAfter(st.status)));
      ConcludeFrame(s1, item, st);
      LeaveSpares(s, ConcludeWith(s1, item, st), w, run);
    case Threw =>
      var s1 := s.(jobs := SetJob(s.jobs, item.run, JobFailed));
      RaiseFrame(s1, item);
      LeaveSpares(s, ConcludeRaised(s1, item), w, run);
  }

  lemma StartSpares(s: Backend, w: nat, run: RunId)
    requires run in s.store && w < |s.workers| && s.queue != [] && s.queue[0].run != run && !Flagged(s, s.queue[0].run)
    ensures Spares(s, Take(s, w), run) && Take(s, w).store[run] == s.store[run]
  {
    hide DropFront;
  }

  lemma FlagSpares(s: Backend, other: RunId, run: RunId)
    requires run in s.store
    ensures Spares(s, Flag(s, other), run)
  {
  }

  lemma CancelActiveSpares(s: Backend, other: RunId, run: RunId)
    requires run in s.store && other in s.active
    ensures Spares(s, CancelActive(s, other), run)
  {
  }

  lemma CancelStoredSpares(s: Backend, other: RunId, run: RunId)
    requires run in s.store && other in s.store
    ensures Spares(s, CancelStored(s, other), run)
  {
    hide SetIfOpen;
  }

  /** Marking and cancelling runs, this one or others. */
  lemma CancelSpares(s: Backend, other: RunId, run: RunId)
    requires run in s.store
    ensures Spares(s, CancelRun(s, other).0, run)
  {
    hide CancelActive, CancelStored, Flag, Spares;
    var s1 := Flag(s, other);
    FlagSpares(s, other, run);
    SparesStored(s, s1, run);
    if other in s1.active {
      CancelActiveSpares(s1, other, run);
      SparesTransitive(s, s1, CancelActive(s1, other), run);
    } else if other in s1.store {
      CancelStoredSpares(s1, other, run);
      SparesTransitive(s, s1, CancelStored(s1, other), run);
    }
  }

  lemma SubmitSpares(s: Backend, other: RunId, hash: Hash, key: Option<Key>, run: RunId)
    requires run in s.store && other != run
    ensures Spares(s, SubmitRun(s, other, hash, key).0, run)
              && SubmitRun(s, other, hash, key).0.store[run] == s.store[run]
  {
    hide SetIfOpen;
  }

  lemma ResumeSpares(s: Backend, other: RunId, run: RunId)
    requires run in s.store && (other == run ==> !SubmitResume(s, run).1.Admitted?)
    ensures Spares(s, SubmitResume(s, other).0, run)
  {
    hide QueueFull, Terminal;
    if !SubmitResume(s, other).1.Admitted? {
      SparesItself(s, run);
    }
  }

  lemma ForceStopSpares(s: Backend, run: RunId)
    requires run in s.store
    ensures Spares(s, ForceStop(s), run)
  {
  }

  lemma BeginShutdownSpares(s: Backend, run: RunId)
    requires run in s.store && s.phase == Serving
    ensures Spares(s, BeginShutdown(s), run) && BeginShutdown(s).workers == s.workers
  {
    hide Drain, Spares;
    var s1 := s.(phase := Draining);
    DrainSpares(s1, run);
    SparesPhase(s, s1, Drain(s1), run);
  }

  lemma SparesPhase(s: Backend, s1: Backend, t: Backend, run: RunId)
    requires s1 == s.(phase := Draining) && s.phase == Serving && Spares(s1, t, run)
    ensures Spares(s, t, run)
  {
  }

  /** The pool is closed, or the run's items are marked and no resume of it is admitted. */
  ghost predicate Barred(s: Backend, run: RunId) {
    && Basic(s) && run in s.store && AllCancelling(s, run)
    && (s.phase != Serving || (!WaitsUnmarked(s, run) && !Reopens(s, run)))
  }

  /** The step does not give the run to a worker, or take a result of it from one. */
  ghost predicate LeavesAlone(s: Backend, step: Step, run: RunId)
    requires CanStep(s, step)
  {
    match step
    case DoSubmit(other, _, _) => other != run
    case DoResume(other) => other != run || !SubmitResume(s, run).1.Admitted?
    case DoTake(w) => s.queue[0].run != run || Flagged(s, run)
    case DoFinish(w, _) => s.workers[w].item.run != run
    case _ => true
  }

  lemma StepSpares(s: Backend, step: Step, run: RunId)
    requires run in s.store && CanStep(s, step) && LeavesAlone(s, step, run)
    ensures Spares(s, DoStep(s, step), run)
  {
    hide SubmitRun, SubmitResume, CancelRun, DropFront, Finish, DeliverCancel, BeginShutdown, ForceStop, Spares,
        Flagged;
    match step
    case DoSubmit(other, hash, key) => SubmitSpares(s, other, hash, key, run);
    case DoResume(other) => ResumeSpares(s, other, run);
    case DoCancel(other) => CancelSpares(s, other, run);
    case DoTake(w) =>
      if Flagged(s, s.queue[0].run) {
        DropSpares(s, run);
      } else {
        StartSpares(s, w, run);
      }
    case DoFinish(w, o) => FinishSpares(s, w, o, run);
    case DoDeliver(w) => DeliverSpares(s, w, run);
    case DoBeginShutdown => BeginShutdownSpares(s, run);
    case DoForceStop => ForceStopSpares(s, run);
  }

  lemma BarredLeavesAlone(s: Backend, step: Step, run: RunId)
    requires Barred(s, run) && CanStep(s, step) && (step.DoSubmit? ==> step.run != run)
    ensures LeavesAlone(s, step, run)
  {
    hide Flagged, ItemsKnown, ActiveBusy, WithinBounds;
    if step.DoFinish? {
      var w := step.worker;
      assert BusyWith(s, w, run) <==> s.workers[w].item.run == run;
    }
  }

  /** What the step leaves of the queue. */
  predicate QueueShrinks(s: Backend, t: Backend, run: RunId) {
    && (Waiting(t, run) ==> Waiting(s, run))
    && (t.phase == Serving && s.phase == Serving && QueueFull(s) && s.queue[0].run == run && run in t.store
        && Flagged(s, run) ==>
          (t.queue == s.queue && t.capacity == s.capacity) || t.store[run].status == RunCancelled)
  }

  lemma SameQueueShrinks(s: Backend, t: Backend, run: RunId)
    requires t.queue == s.queue && t.capacity == s.capacity
    ensures QueueShrinks(s, t, run)
  {
  }

  lemma TakeShrinks(s: Backend, w: nat, run: RunId)
    requires CanStep(s, DoTake(w)) && run in s.store
    ensures QueueShrinks(s, Take(s, w), run)
  {
    hide DropFront, Flagged;
    DropSpares(s, run);
    var t := Take(s, w);
    assert t.queue == s.queue[1..];
    if i :| 0 <= i < |t.queue| && t.queue[i].run == run {
      assert s.queue[i + 1].run == run;
    }
  }

  lemma CallerShrinks(s: Backend, step: Step, run: RunId)
    requires step.DoSubmit? || step.DoResume? || step.DoCancel?
    requires step.DoSubmit? ==> step.run != run
    requires step.DoResume? ==> step.run != run || !SubmitResume(s, run).1.Admitted?
    ensures CanStep(s, step) && QueueShrinks(s, DoStep(s, step), run)
  {
    hide SubmitRun, SetIfOpen, SetJob, Flagged;
    var t := DoStep(s, step);
    if step.DoSubmit? {
      if SubmitRun(s, step.run, step.hash, step.key).1.Admitted? {
        SubmitAdmitted(s, step.run, step.hash, step.key);
      } else {
        SubmitRefused(s, step.run, step.hash, step.key);
      }
    }
    if t.queue != s.queue {
      assert t.queue[..|s.queue|] == s.queue && |t.queue| == |s.queue| + 1;
      assert t.queue[|s.queue|].run != run && !QueueFull(s);
      if i :| 0 <= i < |t.queue| && t.queue[i].run == run {
        assert s.queue[i] == t.queue[i];
      }
    } else {
      SameQueueShrinks(s, t, run);
    }
  }

  lemma ShutdownShrinks(s: Backend, step: Step, run: RunId)
    requires CanStep(s, step) && (step.DoBeginShutdown? || step.DoForceStop?)
    ensures QueueShrinks(s, DoStep(s, step), run)
  {
    hide Drain;
    if step.DoBeginShutdown? {
      DrainFrame(s.(phase := Draining));
    }
  }

  lemma StepShrinks(s: Backend, step: Step, run: RunId)
    requires run in s.store && CanStep(s, step) && LeavesAlone(s, step, run)
    ensures QueueShrinks(s, DoStep(s, step), run)
  {
    hide DoStep, QueueShrinks, Flagged, SubmitResume;
    match step
    case DoTake(w) =>
      TakeShrinks(s, w, run);
      TakeStep(s, w);
    case DoFinish(w, _) =>
      WorkerHandsIn(s, step, w);
      SameQueueShrinks(s, DoStep(s, step), run);
    case DoDeliver(w) =>
      WorkerHandsIn(s, step, w);
      SameQueueShrinks(s, DoStep(s, step), run);
    case DoBeginShutdown => ShutdownShrinks(s, step, run);
    case DoForceStop => ShutdownShrinks(s, step, run);
    case _ => CallerShrinks(s, step, run);
  }

  lemma TakeStep(s: Backend, w: nat)
    requires CanStep(s, DoTake(w))
    ensures DoStep(s, DoTake(w)) == Take(s, w)
  {
  }

  lemma BarredStays(s: Backend, t: Backend, run: RunId)
    requires Barred(s, run) && Basic(t) && Spares(s, t, run) && QueueShrinks(s, t, run)
    ensures Barred(t, run) && NotStarted(s, t, run)
  {
    hide Basic, Flagged;
  }

  // ---- A pool whose workers are all busy with the run ----

  /** The workers go on with what they do; calls may come to be cancelled. */
  predicate WorkersKept(s: Backend, t: Backend) {
    && |t.workers| == |s.workers|
    && forall w | 0 <= w < |s.workers| ::
         (t.workers[w].Busy? <==> s.workers[w].Busy?)
         && (s.workers[w].Busy? ==>
               t.workers[w].item == s.workers[w].item && (s.workers[w].cancelling ==> t.workers[w].cancelling))
  }

  lemma CallerKeepsWorkers(s: Backend, step: Step)
    requires CanStep(s, step) && (step.DoSubmit? || step.DoResume? || step.DoCancel? || step.DoBeginShutdown?)
    ensures WorkersKept(s, DoStep(s, step))
  {
    hide SetIfOpen, SetJob, Drain, SubmitRun;
    match step
    case DoSubmit(run, hash, key) =>
      if SubmitRun(s, run, hash, key).1.Admitted? {
        SubmitAdmitted(s, run, hash, key);
      } else {
        SubmitRefused(s, run, hash, key);
      }
    case DoBeginShutdown => DrainFrame(s.(phase := Draining));
    case _ =>
  }

  lemma KeptWorkers(s: Backend, t: Backend, run: RunId)
    requires WorkersKept(s, t) && AllCancelling(s, run)
    ensures AllCancelling(t, run) && NotStarted(s, t, run)
    ensures WorkerFree(t, run) ==> WorkerFree(s, run)
  {
    forall w: nat | BusyWith(t, w, run)
        ensures t.workers[w].cancelling && BusyWith(s, w, run) && s.workers[w].item == t.workers[w].item {
      assert BusyWith(s, w, run);
    }
    if w: nat :| w < |t.workers| && !BusyWith(t, w, run) {
      assert !BusyWith(s, w, run);
    }
  }

  /** Once a call is back, the run is stored CANCELLED and marked. */
  lemma DeliveredIsBarred(s: Backend, w: nat, run: RunId)
    requires Basic(s) && AllCancelling(s, run) && BusyWith(s, w, run) && CanStep(s, DoDeliver(w))
    ensures Barred(DoStep(s, DoDeliver(w)), run) && NotStarted(s, DoStep(s, DoDeliver(w)), run)
  {
    hide FinalizeCancelled, Basic;
    StepBasic(s, DoDeliver(w));
    KnownRun(s, w, run);
    FinalizeFrame(s, s.workers[w].item);
    var t := DoStep(s, DoDeliver(w));
    forall v: nat | BusyWith(t, v, run)
        ensures t.workers[v].cancelling && BusyWith(s, v, run) && s.workers[v].item == t.workers[v].item {
      assert BusyWith(s, v, run);
    }
  }

  lemma KnownRun(s: Backend, w: nat, run: RunId)
    requires Basic(s) && BusyWith(s, w, run)
    ensures run in s.store && run in s.jobs
  {
  }

  // ---- Nothing starts a run that is not startable ----

  /** Nobody works on the run but calls that are being cancelled, and nothing can start it. */
  ghost predicate Stilled(s: Backend, run: RunId) {
    Basic(s) && run in s.store && AllCancelling(s, run) && !MayStart(s, run)
  }

  lemma BarredIsStilled(s: Backend, run: RunId)
    requires Barred(s, run)
    ensures Stilled(s, run)
  {
    hide Basic, AllCancelling;
  }

  lemma CrowdedStep(s: Backend, step: Step, run: RunId)
    requires Stilled(s, run) && !WorkerFree(s, run) && s.phase == Serving && CanStep(s, step)
    ensures Stilled(DoStep(s, step), run) && NotStarted(s, DoStep(s, step), run)
  {
    hide DoStep, Basic, NotStarted, Barred, BusyWith;
    StepBasic(s, step);
    if step.DoSubmit? || step.DoResume? || step.DoCancel? || step.DoBeginShutdown? {
      CallerKeepsWorkers(s, step);
      KeptWorkers(s, DoStep(s, step), run);
      StaysKnown(s, step, run);
    } else if step.DoTake? || step.DoFinish? || step.DoDeliver? {
      assert BusyWith(s, step.worker, run);
      OnlyDelivery(s, step, run);
      DeliveredIsBarred(s, step.worker, run);
      BarredIsStilled(DoStep(s, step), run);
    }
  }

  lemma OnlyDelivery(s: Backend, step: Step, run: RunId)
    requires (step.DoTake? || step.DoFinish? || step.DoDeliver?) && CanStep(s, step)
    requires BusyWith(s, step.worker, run) && AllCancelling(s, run)
    ensures step == DoDeliver(step.worker)
  {
  }

  /** A stored run stays in the store. */
  lemma StaysKnown(s: Backend, step: Step, run: RunId)
    requires CanStep(s, step) && run in s.store
    ensures run in DoStep(s, step).store
  {
    hide SetIfOpen, SetJob, Drain, DropFront, SubmitRun, Finish, DeliverCancel, Flagged;
    match step
    case DoSubmit(other, hash, key) =>
      if SubmitRun(s, other, hash, key).1.Admitted? {
        SubmitAdmitted(s, other, hash, key);
      } else {
        SubmitRefused(s, other, hash, key);
      }
    case DoTake(w) => DropFrame(s);
    case DoFinish(w, _) => WorkerHandsIn(s, step, w);
    case DoDeliver(w) => WorkerHandsIn(s, step, w);
    case DoBeginShutdown => DrainFrame(s.(phase := Draining));
    case _ =>
  }

  lemma StilledStep(s: Backend, step: Step, run: RunId)
    requires Stilled(s, run) && CanStep(s, step) && (step.DoSubmit? ==> step.run != run)
    ensures Stilled(DoStep(s, step), run) && NotStarted(s, DoStep(s, step), run)
  {
    hide DoStep, CanStep, Basic, AllCancelling, NotStarted, Spares, QueueShrinks, WorkerFree, LeavesAlone,
        WaitsUnmarked, Reopens;
    if s.phase == Serving && !WorkerFree(s, run) {
      CrowdedStep(s, step, run);
    } else {
      StepBasic(s, step);
      BarredLeavesAlone(s, step, run);
      StepSpares(s, step, run);
      StepShrinks(s, step, run);
      BarredStays(s, DoStep(s, step), run);
      BarredIsStilled(DoStep(s, step), run);
    }
  }

  lemma {:induction false} StilledStays(s: Backend, steps: seq<Step>, run: RunId)
    requires Stilled(s, run) && Feasible(s, steps) && NotReused(steps, run)
    ensures NotStarted(s, Reached(s, steps), run)
    decreases |steps|
  {
    hide DoStep, Stilled, CanStep, NotReused;
    if steps != [] {
      NotReusedTail(steps, run);
      StilledStep(s, steps[0], run);
      StilledStays(DoStep(s, steps[0]), steps[1..], run);
    }
  }

  // ---- How a run is started ----

  /** Worker `w` rests, or is busy with another run. */
  predicate Available(s: Backend, w: nat, run: RunId) {
    && s.phase == Serving && w < |s.workers|
    && (s.workers[w].Resting? || (s.workers[w].Busy? && s.workers[w].item.run != run))
  }

  /** The run's first item stands at `k`, and nothing marks the run. */
  ghost predicate WaitsAt(s: Backend, run: RunId, k: nat) {
    && k < |s.queue| && s.queue[k].run == run && run in s.store && !Flagged(s, run)
    && forall i | 0 <= i < k :: s.queue[i].run != run
  }

  lemma {:induction false} FirstWaiting(s: Backend, run: RunId, n: nat) returns (k: nat)
    requires n <= |s.queue| && (forall i | 0 <= i < n :: s.queue[i].run != run)
    requires run in s.store && WaitsUnmarked(s, run)
    ensures WaitsAt(s, run, k)
    decreases |s.queue| - n
  {
    hide Flagged;
    if s.queue[n].run == run {
      k := n;
    } else {
      k := FirstWaiting(s, run, n + 1);
    }
  }

  /** The step that frees a busy worker: its call raises, or its cancellation arrives. */
  function Release(s: Backend, w: nat): Step
    requires w < |s.workers| && s.workers[w].Busy?
  {
    if s.workers[w].cancelling then DoDeliver(w) else DoFinish(w, Threw)
  }

  /** What the run still has after a step of worker `w` for another run. */
  predicate Untouched(s: Backend, t: Backend, run: RunId) {
    && run in s.store && run in t.store && t.store[run] == s.store[run] && (Flagged(t, run) <==> Flagged(s, run))
    && t.phase == s.phase && |t.workers| == |s.workers| && t.capacity == s.capacity
  }

  lemma RaiseReleases(s: Backend, w: nat, run: RunId)
    requires Available(s, w, run) && s.workers[w].Busy? && !s.workers[w].cancelling && run in s.store
    ensures var t := DoStep(s, DoFinish(w, Threw)); Untouched(s, t, run) && t.workers[w].Resting? && t.queue == s.queue
  {
    hide ConcludeRaised;
    var item := s.workers[w].item;
    var s1 := s.(jobs := SetJob(s.jobs, item.run, JobFailed));
    RaiseFrame(s1, item);
  }

  lemma DeliveryReleases(s: Backend, w: nat, run: RunId)
    requires Available(s, w, run) && s.workers[w].Busy? && s.workers[w].cancelling && run in s.store
    ensures var t := DoStep(s, DoDeliver(w)); Untouched(s, t, run) && t.workers[w].Resting? && t.queue == s.queue
  {
    hide FinalizeCancelled;
    FinalizeFrame(s, s.workers[w].item);
  }

  lemma ReleaseFrees(s: Backend, w: nat, run: RunId)
    requires Available(s, w, run) && s.workers[w].Busy? && run in s.store
    ensures CanStep(s, Release(s, w))
    ensures var t := DoStep(s, Release(s, w)); Untouched(s, t, run) && t.workers[w].Resting? && t.queue == s.queue
  {
    hide DoStep, Untouched;
    if s.workers[w].cancelling {
      DeliveryReleases(s, w, run);
    } else {
      RaiseReleases(s, w, run);
    }
  }

  /** A resting worker takes an item of another run off the queue. */
  lemma TakeOther(s: Backend, w: nat, run: RunId)
    requires Available(s, w, run) && s.workers[w].Resting? && s.queue != [] && s.queue[0].run != run && run in s.store
    ensures CanStep(s, DoTake(w))
    ensures var t := DoStep(s, DoTake(w)); Untouched(s, t, run) && Available(t, w, run) && t.queue == s.queue[1..]
  {
    hide FinalizeCancelled, DropFront;
    if Flagged(s, s.queue[0].run) {
      DropSpares(s, run);
      DropFrame(s);
    }
  }

  lemma TakeOwn(s: Backend, w: nat, run: RunId)
    requires Available(s, w, run) && s.workers[w].Resting? && WaitsAt(s, run, 0)
    ensures CanStep(s, DoTake(w)) && Works(DoStep(s, DoTake(w)), w, run)
  {
    hide DropFront;
    var t := DoStep(s, DoTake(w));
    assert t.workers[w] == Busy(s.queue[0], false);
  }

  /** Worker `w` works on the run, and nobody has cancelled its call. */
  predicate Works(s: Backend, w: nat, run: RunId) {
    BusyWith(s, w, run) && !s.workers[w].cancelling
  }

  lemma UntouchedWaits(s: Backend, t: Backend, run: RunId, k: nat, j: nat)
    requires WaitsAt(s, run, k) && Untouched(s, t, run) && j <= k && t.queue == s.queue[j..]
    ensures WaitsAt(t, run, k - j)
  {
  }

  /** Worker `w` works its way through the queue and starts the run. */
  lemma {:induction false} WorkerGetsThere(s: Backend, w: nat, run: RunId, k: nat) returns (steps: seq<Step>)
    requires Available(s, w, run) && WaitsAt(s, run, k)
    ensures Feasible(s, steps) && NotReused(steps, run) && Works(Reached(s, steps), w, run)
    decreases k, if s.workers[w].Busy? then 1 else 0
  {
    hide DoStep, CanStep, Untouched, NotReused, Works;
    var step := if s.workers[w].Busy? then Release(s, w) else DoTake(w);
    if s.workers[w].Busy? {
      ReleaseFrees(s, w, run);
      assert s.queue == s.queue[0..];
      ReleasedAvailable(s, DoStep(s, step), w, run);
      UntouchedWaits(s, DoStep(s, step), run, k, 0);
      steps := WorkerGetsThere(DoStep(s, step), w, run, k);
    } else if k > 0 {
      TakeOther(s, w, run);
      UntouchedWaits(s, DoStep(s, step), run, k, 1);
      steps := WorkerGetsThere(DoStep(s, step), w, run, k - 1);
    } else {
      TakeOwn(s, w, run);
      steps := [];
      assert NotReused([], run) by { NothingReused(run); }
    }
    Prepend(s, step, steps, run);
    steps := [step] + steps;
  }

  lemma NothingReused(run: RunId)
    ensures NotReused([], run)
  {
  }

  lemma ReleasedAvailable(s: Backend, t: Backend, w: nat, run: RunId)
    requires Available(s, w, run) && Untouched(s, t, run) && t.workers[w].Resting?
    ensures Available(t, w, run)
  {
  }

  lemma ResumeWaits(s: Backend, w: nat, run: RunId)
    requires Available(s, w, run) && Reopens(s, run) && !QueueFull(s)
    ensures CanStep(s, DoResume(run))
    ensures var t := DoStep(s, DoResume(run)); Available(t, w, run) && run in t.store && WaitsUnmarked(t, run)
  {
    var t := DoStep(s, DoResume(run));
    assert t.queue[|s.queue|].run == run;
  }

  lemma UntouchedReopens(s: Backend, t: Backend, run: RunId)
    requires Reopens(s, run) && Untouched(s, t, run) && (s.capacity > 0 ==> |s.queue| <= s.capacity)
    requires t.queue == s.queue || (s.queue != [] && t.queue == s.queue[1..])
    ensures Reopens(t, run) && (t.capacity > 0 ==> |t.queue| <= t.capacity)
  {
    hide Flagged;
  }

  /** Worker `w` makes room, the run is resumed, and `w` starts it. */
  lemma {:induction false} ResumeGetsThere(s: Backend, w: nat, run: RunId) returns (steps: seq<Step>)
    requires Available(s, w, run) && Reopens(s, run) && (s.capacity > 0 ==> |s.queue| <= s.capacity)
    ensures Feasible(s, steps) && NotReused(steps, run) && Works(Reached(s, steps), w, run)
    decreases |s.queue|, if s.workers[w].Busy? then 1 else 0
  {
    hide DoStep, CanStep, Untouched, NotReused, Works, Terminal, WaitsUnmarked, WaitsAt;
    var step;
    if !QueueFull(s) {
      step := DoResume(run);
      ResumeWaits(s, w, run);
      var k := FirstWaiting(DoStep(s, step), run, 0);
      steps := WorkerGetsThere(DoStep(s, step), w, run, k);
    } else {
      step := if s.workers[w].Busy? then Release(s, w) else DoTake(w);
      if s.workers[w].Busy? {
        ReleaseFrees(s, w, run);
        ReleasedAvailable(s, DoStep(s, step), w, run);
      } else {
        TakeOther(s, w, run);
      }
      UntouchedReopens(s, DoStep(s, step), run);
      steps := ResumeGetsThere(DoStep(s, step), w, run);
    }
    Prepend(s, step, steps, run);
    steps := [step] + steps;
  }

  lemma FreeIsAvailable(s: Backend, w: nat, run: RunId)
    requires Basic(s) && s.phase == Serving && w < |s.workers| && !BusyWith(s, w, run)
    ensures Available(s, w, run)
  {
  }

  lemma StartReached(s: Backend, run: RunId) returns (steps: seq<Step>, w: nat)
    requires Basic(s) && MayStart(s, run) && run in s.store
    ensures Feasible(s, steps) && NotReused(steps, run) && !BusyWith(s, w, run) && Works(Reached(s, steps), w, run)
  {
    hide Feasible, Reached, NotReused, Works, BusyWith, Reopens, WaitsUnmarked, Available, WaitsAt;
    w :| w < |s.workers| && !BusyWith(s, w, run);
    FreeIsAvailable(s, w, run);
    if WaitsUnmarked(s, run) {
      var k := FirstWaiting(s, run, 0);
      steps := WorkerGetsThere(s, w, run, k);
    } else {
      steps := ResumeGetsThere(s, w, run);
    }
  }

  /** While every call that works on the run is being cancelled, whatever callers do except submit under its id: the
      runtime is never started for it exactly if no free worker can get an item of it to run. */
  lemma NotStartedIff(s: Backend, run: RunId)
    requires Basic(s) && run in s.store && AllCancelling(s, run)
    ensures (forall steps | Feasible(s, steps) && NotReused(steps, run) :: NotStarted(s, Reached(s, steps), run))
            <==> !MayStart(s, run)
  {
    hide Basic, Feasible, Reached, NotReused, MayStart;
    if MayStart(s, run) {
      var steps, w := StartReached(s, run);
      assert BusyWith(Reached(s, steps), w, run);
    } else {
      forall steps | Feasible(s, steps) && NotReused(steps, run) ensures NotStarted(s, Reached(s, steps), run) {
        StilledStays(s, steps, run);
      }
    }
  }

  // ---- What is stored in the end ----

  predicate BeingCancelled(s: Backend, w: nat, run: RunId) {
    BusyWith(s, w, run) && s.workers[w].cancelling
  }

  /** A call that is being cancelled goes on being cancelled until it is back, and then the run is stored CANCELLED. */
  lemma CancellationArrives(s: Backend, step: Step, w: nat, run: RunId)
    requires BeingCancelled(s, w, run) && run in s.store && CanStep(s, step)
    ensures var t := DoStep(s, step);
            BeingCancelled(t, w, run) || (run in t.store && t.store[run].status == RunCancelled)
  {
    hide ConcludeWith, ConcludeRaised, FinalizeCancelled, DropFront, Drain, SubmitRun, SubmitResume, CancelRun;
    match step
    case DoTake(v) =>
      if Flagged(s, s.queue[0].run) {
        DropFrame(s);
      }
    case DoFinish(v, o) =>
    case DoDeliver(v) => FinalizeFrame(s, s.workers[v].item);
    case DoForceStop =>
    case _ => CallerKeepsWorkers(s, step);
  }

  /** The run is stored CANCELLED, or will be when the call of a worker is back. */
  ghost predicate EndsCancelled(s: Backend, run: RunId) {
    run in s.store && (s.store[run].status == RunCancelled || exists w: nat :: BeingCancelled(s, w, run))
  }

  lemma CancelledLeavesAlone(s: Backend, step: Step, run: RunId)
    requires Stilled(s, run) && s.store[run].status == RunCancelled
    requires CanStep(s, step) && (step.DoSubmit? ==> step.run != run)
    ensures LeavesAlone(s, step, run)
  {
    hide Flagged, ItemsKnown, ActiveBusy, WithinBounds;
    if step.DoTake? {
      assert !BusyWith(s, step.worker, run);
    } else if step.DoFinish? {
      var w := step.worker;
      assert BusyWith(s, w, run) <==> s.workers[w].item.run == run;
    }
  }

  lemma StepEndsCancelled(s: Backend, step: Step, run: RunId)
    requires Stilled(s, run) && EndsCancelled(s, run) && CanStep(s, step) && (step.DoSubmit? ==> step.run != run)
    ensures EndsCancelled(DoStep(s, step), run)
  {
    hide DoStep, CanStep, Flagged, BusyWith, Stilled, LeavesAlone;
    StaysKnown(s, step, run);
    if w: nat :| BeingCancelled(s, w, run) {
      CancellationArrives(s, step, w, run);
    } else {
      CancelledLeavesAlone(s, step, run);
      StepSpares(s, step, run);
    }
  }

  lemma {:induction false} StilledEndsCancelled(s: Backend, steps: seq<Step>, run: RunId)
    requires Stilled(s, run) && EndsCancelled(s, run) && Feasible(s, steps) && NotReused(steps, run)
    ensures EndsCancelled(Reached(s, steps), run)
    decreases |steps|
  {
    hide DoStep, Stilled, CanStep, EndsCancelled, NotReused;
    if steps != [] {
      NotReusedTail(steps, run);
      StilledStep(s, steps[0], run);
      StepEndsCancelled(s, steps[0], run);
      StilledEndsCancelled(DoStep(s, steps[0]), steps[1..], run);
    }
  }

  predicate Nobody(s: Backend, run: RunId) {
    forall w | 0 <= w < |s.workers| && s.workers[w].Busy? :: s.workers[w].item.run != run
  }

  /** A cancellation that answered true has stored CANCELLED or reached the call of a worker. */
  lemma CancelledEnds(s: Backend, run: RunId)
    requires Basic(s) && CancelRun(s, run).1
    ensures Basic(CancelRun(s, run).0) && EndsCancelled(CancelRun(s, run).0, run)
  {
    CancelBasic(s, run);
    hide Flagged, ItemsKnown, WithinBounds, SetIfOpen, SetJob;
    if run in s.active {
      KnownRun(s, s.active[run], run);
      CancelledActive(s, run, s.active[run]);
      assert BeingCancelled(CancelRun(s, run).0, s.active[run], run);
    }
  }

  lemma CancelledActive(s: Backend, run: RunId, w: nat)
    requires run in s.active && s.active[run] == w && BusyWith(s, w, run)
    ensures var t := CancelRun(s, run).0;
            && t.workers == s.workers[w := s.workers[w].(cancelling := true)] && t.store == s.store
                && t.queue == s.queue
            && t.phase == s.phase && t.capacity == s.capacity && t.jobs.Keys == s.jobs.Keys && Flagged(t, run)
  {
  }

  lemma ReleaseClears(s: Backend, w: nat, n: nat, run: RunId)
    requires Works(s, w, run) && BusyWith(s, n, run) && n != w
    ensures CanStep(s, Release(s, n))
    ensures var t := DoStep(s, Release(s, n));
            && Works(t, w, run) && !BusyWith(t, n, run)
            && forall v: nat | v < n && !BusyWith(s, v, run) :: !BusyWith(t, v, run)
  {
    hide DoStep;
    WorkerHandsIn(s, Release(s, n), n);
  }

  /** Every worker but `w` that is busy with the run hands it in. */
  lemma {:induction false} OthersHandIn(s: Backend, w: nat, run: RunId, n: nat) returns (steps: seq<Step>)
    requires Works(s, w, run) && n <= |s.workers| && forall v: nat | v < n && v != w :: !BusyWith(s, v, run)
    ensures Feasible(s, steps) && NotReused(steps, run) && Works(Reached(s, steps), w, run)
    ensures forall v: nat | v != w :: !BusyWith(Reached(s, steps), v, run)
    decreases |s.workers| - n
  {
    hide DoStep, CanStep, NotReused, Release;
    if n == |s.workers| {
      steps := [];
      NothingReused(run);
    } else if n == w || !BusyWith(s, n, run) {
      steps := OthersHandIn(s, w, run, n + 1);
    } else {
      ReleaseClears(s, w, n, run);
      ReleaseKeepsCount(s, n);
      var step := Release(s, n);
      steps := OthersHandIn(DoStep(s, step), w, run, n + 1);
      ReleaseSubmitsNothing(s, n);
      Prepend(s, step, steps, run);
      steps := [step] + steps;
    }
  }

  lemma ReleaseKeepsCount(s: Backend, n: nat)
    requires n < |s.workers| && s.workers[n].Busy?
    ensures CanStep(s, Release(s, n)) && |DoStep(s, Release(s, n)).workers| == |s.workers|
  {
    hide DoStep;
    WorkerHandsIn(s, Release(s, n), n);
  }

  lemma ReleaseSubmitsNothing(s: Backend, n: nat)
    requires n < |s.workers| && s.workers[n].Busy?
    ensures !Release(s, n).DoSubmit?
  {
  }

  lemma ReturnStores(s: Backend, w: nat, run: RunId, st: Stored)
    requires Works(s, w, run) && forall v: nat | v != w :: !BusyWith(s, v, run)
    ensures CanStep(s, DoFinish(w, Returned(st)))
    ensures var t := DoStep(s, DoFinish(w, Returned(st))); Nobody(t, run) && run in t.store && t.store[run] == st
  {
    var step := DoFinish(w, Returned(st));
    WorkerHandsIn(s, step, w);
    FinishStores(s, w, st);
    hide DoStep;
    var t := DoStep(s, step);
    forall v | 0 <= v < |t.workers| && t.workers[v].Busy? ensures t.workers[v].item.run != run {
      assert v != w && !BusyWith(s, v, run);
    }
  }

  lemma FinishStores(s: Backend, w: nat, st: Stored)
    requires w < |s.workers| && s.workers[w].Busy?
    ensures Finish(s, w, Returned(st)).store == s.store[s.workers[w].item.run := st]
  {
    hide ConcludeWith;
    var item := s.workers[w].item;
    ConcludeFrame(s.(store := s.store[item.run := st], jobs := SetJob(s.jobs, item.run, JobAfter(st.status))), item,
                  st);
  }

  /** A call that nobody cancels can be the last to come back. */
  lemma WorkerHasTheLastWord(s: Backend, w: nat, run: RunId, st: Stored) returns (steps: seq<Step>)
    requires Works(s, w, run)
    ensures Feasible(s, steps) && NotReused(steps, run)
    ensures var u := Reached(s, steps); Nobody(u, run) && run in u.store && u.store[run] == st
  {
    hide DoStep, CanStep, Works, Nobody, Feasible, Reached, NotReused, BusyWith;
    steps := OthersHandIn(s, w, run, 0);
    var last := DoFinish(w, Returned(st));
    ReturnStores(Reached(s, steps), w, run, st);
    AppendOne(s, steps, last, run);
    steps := steps + [last];
  }

  lemma AppendOne(s: Backend, steps: seq<Step>, step: Step, run: RunId)
    requires Feasible(s, steps) && NotReused(steps, run) && CanStep(Reached(s, steps), step) && !step.DoSubmit?
    ensures Feasible(s, steps + [step]) && NotReused(steps + [step], run)
    ensures Reached(s, steps + [step]) == DoStep(Reached(s, steps), step)
  {
    hide Feasible, Reached, CanStep, DoStep;
    One(Reached(s, steps), step);
    Append(s, steps, [step]);
  }

  lemma AppendNotReused(a: seq<Step>, b: seq<Step>, run: RunId)
    requires NotReused(a, run) && NotReused(b, run)
    ensures NotReused(a + b, run)
  {
  }

  /** The run can end with what a worker returned instead of CANCELLED. */
  lemma EndsOtherwise(s: Backend, run: RunId, st: Stored) returns (steps: seq<Step>)
    requires Basic(s) && run in s.store && (!AllCancelling(s, run) || MayStart(s, run))
    ensures Feasible(s, steps) && NotReused(steps, run)
    ensures var u := Reached(s, steps); Nobody(u, run) && run in u.store && u.store[run] == st
  {
    hide Basic, Feasible, Reached, NotReused, MayStart, Nobody;
    if MayStart(s, run) {
      var w;
      steps, w := StartReached(s, run);
      var more := WorkerHasTheLastWord(Reached(s, steps), w, run, st);
      Append(s, steps, more);
      AppendNotReused(steps, more, run);
      steps := steps + more;
    } else {
      var w: nat :| BusyWith(s, w, run) && !s.workers[w].cancelling;
      steps := WorkerHasTheLastWord(s, w, run, st);
    }
  }

  lemma StilledEnds(s: Backend, steps: seq<Step>, run: RunId)
    requires Stilled(s, run) && EndsCancelled(s, run) && Feasible(s, steps) && NotReused(steps, run)
    requires Nobody(Reached(s, steps), run)
    ensures var u := Reached(s, steps); run in u.store && u.store[run].status == RunCancelled
  {
    hide Stilled, Feasible, Reached, NotReused;
    StilledEndsCancelled(s, steps, run);
  }

  /** After a cancellation that answered true, in any state and whatever callers do except submit under its id: the run
      is stored CANCELLED whenever nobody works on it, exactly if every call that works on it is being cancelled and
      no free worker can get an item of it to run. */
  lemma StoredCancelledInTheEndIff(s: Backend, run: RunId)
    requires Basic(s) && CancelRun(s, run).1
    ensures var t := CancelRun(s, run).0;
            (forall steps | Feasible(t, steps) && NotReused(steps, run) && Nobody(Reached(t, steps), run) ::
               run in Reached(t, steps).store && Reached(t, steps).store[run].status == RunCancelled)
            <==> AllCancelling(t, run) && !MayStart(t, run)
  {
    hide Basic, CancelRun, Feasible, Reached, NotReused, MayStart, AllCancelling, Nobody;
    var t := CancelRun(s, run).0;
    CancelledEnds(s, run);
    if AllCancelling(t, run) && !MayStart(t, run) {
      forall steps | Feasible(t, steps) && NotReused(steps, run) && Nobody(Reached(t, steps), run)
          ensures run in Reached(t, steps).store && Reached(t, steps).store[run].status == RunCancelled {
        StilledEnds(t, steps, run);
      }
    } else {
      var steps := EndsOtherwise(t, run, Stored(RunCompleted, false));
    }
  }

  // ---- When callers have kept to the rules so far ----

  /** The run is in a resumed segment, the pool serves, and there is another worker. */
  predicate Revivable(s: Backend, run: RunId) {
    run in s.active && run in s.store && s.store[run].requiresHuman && s.phase == Serving && |s.workers| >= 2
  }

  lemma ActiveFacts(s: Backend, run: RunId) returns (w: nat)
    requires Inv(s) && run in s.active
    ensures BusyWith(s, w, run) && s.active[run] == w && run in s.store && run in s.jobs
              && !Terminal(s.store[run].status)
    ensures forall v: nat | BusyWith(s, v, run) :: v == w
    ensures forall i | 0 <= i < |s.queue| :: s.queue[i].run != run
  {
    hide Core, QueueOk, WorkersOk, KilledOk, CountsOk, PhaseOk, Outstanding, Terminal;
    w := s.active[run];
    var f := s.workers[w].item.future;
    BusyItem(s, w);
    OutstandingFacts(s, f);
    OutstandingStatus(s, f);
    LiveStatus(s.store[run].status);
    forall i | 0 <= i < |s.queue| ensures s.queue[i].run != run {
      NotQueuedTwice(s, f, i);
    }
  }

  lemma NotQueuedTwice(s: Backend, f: nat, i: nat)
    requires Inv(s) && Outstanding(s, f) && s.place[f] != InQueue && i < |s.queue|
    ensures s.queue[i].run != s.items[f].run
  {
    hide LedgerOk, FuturesOk, ItemsOk, WorkersOk, ActiveOk, KilledOk, CountsOk, PhaseOk;
    assert Outstanding(s, s.queue[i].future);
  }

  /** Where callers have kept to the rules, only the resumed segment of a serving pool with another worker is open. */
  lemma MayStartAfterCancel(s: Backend, run: RunId)
    requires Inv(s) && CancelRun(s, run).1
    ensures var t := CancelRun(s, run).0;
            run in t.store && AllCancelling(t, run) && (MayStart(t, run) <==> Revivable(s, run))
  {
    hide Inv, CancelRun, Flagged, WorkerFree, AllCancelling;
    var t := CancelRun(s, run).0;
    if run in s.active {
      var w := ActiveFacts(s, run);
      CancelledActive(s, run, w);
      OneCancelling(s, t, w, run);
    } else {
      CancelledWaiting(s, run);
    }
  }

  lemma OneCancelling(s: Backend, t: Backend, w: nat, run: RunId)
    requires BusyWith(s, w, run) && (forall v: nat | BusyWith(s, v, run) :: v == w)
    requires t.workers == s.workers[w := s.workers[w].(cancelling := true)]
    ensures AllCancelling(t, run) && (WorkerFree(t, run) <==> |s.workers| >= 2)
  {
    forall v: nat | BusyWith(t, v, run) ensures t.workers[v].cancelling {
      assert v != w ==> BusyWith(s, v, run);
    }
    if |s.workers| >= 2 {
      var v := if w == 0 then 1 else 0;
      assert !BusyWith(s, v, run) && !BusyWith(t, v, run);
    } else {
      assert BusyWith(t, w, run);
    }
  }

  lemma CancelledWaiting(s: Backend, run: RunId)
    requires Inv(s) && run !in s.active && CancelRun(s, run).1
    ensures var t := CancelRun(s, run).0; run in t.store && AllCancelling(t, run) && !MayStart(t, run)
  {
    hide Core, QueueOk, WorkersOk, KilledOk, CountsOk, PhaseOk, SetIfOpen;
  }

  /** From a state that callers who kept to the rules have reached, after a cancellation that answered true, and
      whatever follows - resumes of the run included - except a submission under its id: the runtime is never started
      for the run again, and the run is stored CANCELLED whenever nobody works on it, each exactly unless the run is
      in a resumed segment of a serving pool that has another worker. */
  lemma CancellationIsFinalIff(s: Backend, run: RunId)
    requires Inv(s) && CancelRun(s, run).1
    ensures var t := CancelRun(s, run).0;
            (forall steps | Feasible(t, steps) && NotReused(steps, run) :: NotStarted(t, Reached(t, steps), run))
            <==> !Revivable(s, run)
    ensures var t := CancelRun(s, run).0;
            (forall steps | Feasible(t, steps) && NotReused(steps, run) && Nobody(Reached(t, steps), run) ::
               run in Reached(t, steps).store && Reached(t, steps).store[run].status == RunCancelled)
            <==> !Revivable(s, run)
  {
    hide Inv, Basic, CancelRun, Feasible, Reached, NotStarted, NotReused, MayStart, AllCancelling, Nobody;
    InvBasic(s);
    CancelledEnds(s, run);
    MayStartAfterCancel(s, run);
    NotStartedIff(CancelRun(s, run).0, run);
    StoredCancelledInTheEndIff(s, run);
  }

  /** What decides whether a resume of a cancelled run is admitted: its stored state still waits for a human,
      as it does while the cancelled call of a resumed segment has not come back. */
  lemma CancelledResumeAdmittedIff(s: Backend, run: RunId)
    requires Inv(s) && run in s.killed
    ensures SubmitResume(s, run).1.Admitted? <==>
            s.phase == Serving && !QueueFull(s) && run in s.store && s.store[run].requiresHuman
            && s.store[run].status != RunCancelled
    ensures SubmitResume(s, run).1.Admitted? ==> run in s.active
  {
    hide Inv, FutureOk;
    KilledStatus(s, run);
    if run in s.active {
      var w := ActiveFacts(s, run);
    }
  }
}
