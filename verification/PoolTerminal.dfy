/** How long COMPLETED, FAILED and CANCELLED stay, against callers who keep to no rules at all. */
module PoolTerminal {
  import opened Workflow
  import opened Pool
  import opened PoolSafety
  import opened PoolSteps
  import opened PoolProgress
  import opened PoolRuns
  import opened PoolCancellation

  /** The stored state of the run is `st` now and after every step. */
  ghost predicate StaysStored(s: Backend, steps: seq<Step>, run: RunId, st: Stored)
    requires Feasible(s, steps)
    decreases |steps|
  {
    && run in s.store && s.store[run] == st
    && (steps != [] ==> StaysStored(DoStep(s, steps[0]), steps[1..], run, st))
  }

  /** On the way a submission under the run's id is admitted. */
  ghost predicate Reused(s: Backend, steps: seq<Step>, run: RunId)
    requires Feasible(s, steps)
    decreases |steps|
  {
    steps != []
    && ((steps[0].DoSubmit? && steps[0].run == run && SubmitRun(s, run, steps[0].hash, steps[0].key).1.Admitted?)
        || Reused(DoStep(s, steps[0]), steps[1..], run))
  }

  /** Nothing in the pool can change the stored state of the run: nobody works on a COMPLETED or FAILED run and no item
      of it waits; calls that work on a CANCELLED one are being cancelled, and no free worker can get an item of it. */
  ghost predicate Settled(s: Backend, run: RunId) {
    && run in s.store && Terminal(s.store[run].status)
    && if s.store[run].status == RunCancelled then AllCancelling(s, run) && !MayStart(s, run)
       else Nobody(s, run) && !Waiting(s, run)
  }

  // ---- What is settled stays ----

  /** The submission of a run under this id is admitted. */
  predicate Reuses(s: Backend, step: Step, run: RunId) {
    step.DoSubmit? && step.run == run && SubmitRun(s, run, step.hash, step.key).1.Admitted?
  }

  lemma SettlingKeepsStilled(s: Backend, t: Backend, run: RunId)
    requires Stilled(s, run) && OnlySettles(s, t)
    ensures Stilled(t, run)
  {
    hide Basic;
    SameBasic(s, t);
    forall w: nat | BusyWith(t, w, run) ensures t.workers[w].cancelling {
      assert BusyWith(s, w, run);
    }
    if w: nat :| w < |t.workers| && !BusyWith(t, w, run) {
      assert w < |s.workers| && !BusyWith(s, w, run);
    }
    SettlingKeepsMarks(s, t, run);
  }

  lemma SettlingKeepsMarks(s: Backend, t: Backend, run: RunId)
    requires OnlySettles(s, t)
    ensures WaitsUnmarked(t, run) <==> WaitsUnmarked(s, run)
    ensures Reopens(t, run) <==> Reopens(s, run)
  {
  }

  lemma StilledStored(s: Backend, run: RunId)
    requires Stilled(s, run)
    ensures run in s.store
  {
  }

  /** A run stored CANCELLED that is settled. */
  lemma CancelledStep(s: Backend, step: Step, run: RunId)
    requires Stilled(s, run) && s.store[run].status == RunCancelled && CanStep(s, step) && !Reuses(s, step, run)
    ensures var t := DoStep(s, step); Stilled(t, run) && t.store[run] == s.store[run]
  {
    hide DoStep, CanStep, Stilled, SubmitRun, LeavesAlone;
    StilledStored(s, run);
    if step.DoSubmit? && step.run == run {
      SubmitStep(s, step);
      SubmitRefused(s, run, step.hash, step.key);
      SettlingKeepsStilled(s, DoStep(s, step), run);
    } else {
      StilledStep(s, step, run);
      CancelledLeavesAlone(s, step, run);
      StepSpares(s, step, run);
    }
  }

  lemma SubmitStep(s: Backend, step: Step)
    requires step.DoSubmit?
    ensures CanStep(s, step) && DoStep(s, step) == SubmitRun(s, step.run, step.hash, step.key).0
  {
  }

  lemma {:induction false} DrainLeaves(s: Backend, run: RunId)
    requires run in s.store && !Waiting(s, run)
    ensures run in Drain(s).store && Drain(s).store[run] == s.store[run]
    decreases |s.queue|
  {
    hide DropFront, Spares;
    if s.queue != [] {
      DropSpares(s, run);
      DropFrame(s);
      var t := DropFront(s);
      TailWaits(s, t, run);
      DrainLeaves(t, run);
    }
  }

  lemma TailWaits(s: Backend, t: Backend, run: RunId)
    requires s.queue != [] && t.queue == s.queue[1..]
    ensures Waiting(t, run) ==> Waiting(s, run)
  {
    if i :| 0 <= i < |t.queue| && t.queue[i].run == run {
      assert s.queue[i + 1].run == run;
    }
  }

  lemma ActiveIsBusy(s: Backend, run: RunId)
    requires Basic(s)
    ensures run in s.active ==> !Nobody(s, run)
  {
    if run in s.active {
      assert BusyWith(s, s.active[run], run);
    }
  }

  /** A terminal run that nobody works on and no item of which waits. */
  predicate Absent(s: Backend, run: RunId) {
    run in s.store && Terminal(s.store[run].status) && Nobody(s, run) && !Waiting(s, run)
  }

  lemma AbsentLeavesAlone(s: Backend, step: Step, run: RunId)
    requires Absent(s, run) && CanStep(s, step) && (step.DoSubmit? ==> step.run != run)
    ensures LeavesAlone(s, step, run)
  {
    hide Flagged;
  }

  lemma CancelLeaves(s: Backend, other: RunId, run: RunId)
    requires Basic(s) && Absent(s, run)
    ensures run in CancelRun(s, other).0.store && CancelRun(s, other).0.store[run] == s.store[run]
  {
    hide Flagged, Basic, SetIfOpen, SetJob;
    ActiveIsBusy(s, run);
  }

  lemma AbsentStored(s: Backend, step: Step, run: RunId)
    requires Basic(s) && Absent(s, run) && CanStep(s, step) && (step.DoSubmit? ==> step.run != run)
    ensures run in DoStep(s, step).store && DoStep(s, step).store[run] == s.store[run]
  {
    hide SubmitRun, CancelRun, DropFront, Finish, DeliverCancel, Drain, Basic, Flagged;
    match step
    case DoSubmit(other, hash, key) => SubmitSpares(s, other, hash, key, run);
    case DoCancel(other) => CancelLeaves(s, other, run);
    case DoTake(w) =>
      assert s.queue[0].run != run;
      DropSpares(s, run);
      if !Flagged(s, s.queue[0].run) {
        StartSpares(s, w, run);
      }
    case DoFinish(w, o) => FinishSpares(s, w, o, run);
    case DoDeliver(w) => DeliverSpares(s, w, run);
    case DoBeginShutdown =>
      var s1 := s.(phase := Draining);
      assert !Waiting(s1, run);
      DrainLeaves(s1, run);
    case _ =>
  }

  lemma AbsentStep(s: Backend, step: Step, run: RunId)
    requires Basic(s) && Absent(s, run) && CanStep(s, step) && !Reuses(s, step, run)
    ensures var t := DoStep(s, step); Basic(t) && Absent(t, run) && t.store[run] == s.store[run]
  {
    hide DoStep, CanStep, Basic, SubmitRun, Waiting, LeavesAlone;
    StepBasic(s, step);
    if step.DoSubmit? && step.run == run {
      SubmitStep(s, step);
      SubmitRefused(s, run, step.hash, step.key);
      SettlingKeepsWaiting(s, DoStep(s, step), run);
    } else {
      AbsentLeavesAlone(s, step, run);
      AbsentStored(s, step, run);
      StepSpares(s, step, run);
      StepShrinks(s, step, run);
      SparedNobody(s, DoStep(s, step), run);
    }
  }

  lemma SettlingKeepsWaiting(s: Backend, t: Backend, run: RunId)
    requires OnlySettles(s, t)
    ensures Waiting(t, run) <==> Waiting(s, run)
  {
  }

  lemma SparedNobody(s: Backend, t: Backend, run: RunId)
    requires Spares(s, t, run) && Nobody(s, run)
    ensures Nobody(t, run)
  {
    NobodyBusy(s, run);
    NobodyBusy(t, run);
    hide Nobody, BusyWith;
  }

  lemma NobodyBusy(s: Backend, run: RunId)
    ensures Nobody(s, run) <==> forall w: nat :: !BusyWith(s, w, run)
  {
    if forall w: nat :: !BusyWith(s, w, run) {
      forall w | 0 <= w < |s.workers| && s.workers[w].Busy? ensures s.workers[w].item.run != run {
        assert !BusyWith(s, w, run);
      }
    }
  }

  lemma SettledStep(s: Backend, step: Step, run: RunId)
    requires Basic(s) && Settled(s, run) && CanStep(s, step) && !Reuses(s, step, run)
    ensures var t := DoStep(s, step); Basic(t) && Settled(t, run) && t.store[run] == s.store[run]
  {
    hide DoStep, CanStep, Basic, Reuses, AllCancelling, MayStart, Nobody, Waiting;
    StepBasic(s, step);
    if s.store[run].status == RunCancelled {
      CancelledStep(s, step, run);
    } else {
      AbsentStep(s, step, run);
    }
  }

  lemma ReuseOverwrites(s: Backend, run: RunId, hash: Hash, key: Option<Key>)
    requires SubmitRun(s, run, hash, key).1.Admitted?
    ensures var t := SubmitRun(s, run, hash, key).0; run in t.store && t.store[run].status == Idle
  {
  }

  /** A settled state stays as it is exactly until a submission under the run's id is admitted. */
  lemma {:induction false} SettledStaysIff(s: Backend, steps: seq<Step>, run: RunId)
    requires Basic(s) && Settled(s, run) && Feasible(s, steps)
    ensures StaysStored(s, steps, run, s.store[run]) <==> !Reused(s, steps, run)
    decreases |steps|
  {
    hide DoStep, CanStep, SubmitRun, Basic, Settled;
    SettledStored(s, run);
    if steps != [] {
      var step := steps[0];
      if Reuses(s, step, run) {
        ReuseOverwrites(s, run, step.hash, step.key);
        SubmitStep(s, step);
      } else {
        SettledStep(s, step, run);
        SettledStaysIff(DoStep(s, step), steps[1..], run);
      }
    }
  }

  lemma SettledStored(s: Backend, run: RunId)
    requires Settled(s, run)
    ensures run in s.store && Terminal(s.store[run].status)
  {
  }

  // ---- What is not settled can change ----

  lemma {:induction false} StaysReached(s: Backend, steps: seq<Step>, run: RunId, st: Stored)
    requires Feasible(s, steps) && StaysStored(s, steps, run, st)
    ensures run in Reached(s, steps).store && Reached(s, steps).store[run] == st
    decreases |steps|
  {
    hide DoStep, CanStep;
    if steps != [] {
      StaysReached(DoStep(s, steps[0]), steps[1..], run, st);
    }
  }

  lemma {:induction false} NeverReused(s: Backend, steps: seq<Step>, run: RunId)
    requires Feasible(s, steps) && NotReused(steps, run)
    ensures !Reused(s, steps, run)
    decreases |steps|
  {
    hide DoStep, CanStep, SubmitRun, NotReused;
    if steps != [] {
      NotReusedTail(steps, run);
      NeverReused(DoStep(s, steps[0]), steps[1..], run);
    }
  }

  lemma {:induction false} DrainCancels(s: Backend, run: RunId)
    requires run in s.store && (Waiting(s, run) || s.store[run].status == RunCancelled)
    ensures run in Drain(s).store && Drain(s).store[run].status == RunCancelled
    decreases |s.queue|
  {
    hide DropFront;
    if s.queue != [] {
      DropSpares(s, run);
      DropFrame(s);
      var t := DropFront(s);
      if s.queue[0].run != run && s.store[run].status != RunCancelled {
        var i :| 0 <= i < |s.queue| && s.queue[i].run == run;
        assert t.queue[i - 1].run == run;
      }
      DrainCancels(t, run);
    }
  }

  /** A waiting item of a COMPLETED or FAILED run: shutdown stores CANCELLED. */
  lemma ShutdownOverwrites(s: Backend, run: RunId)
    requires Basic(s) && run in s.store && Waiting(s, run)
    ensures CanStep(s, DoBeginShutdown)
    ensures var t := DoStep(s, DoBeginShutdown); run in t.store && t.store[run].status == RunCancelled
  {
    hide Drain, ItemsKnown, ActiveBusy, WithinBounds;
    var s1 := s.(phase := Draining);
    assert Waiting(s1, run);
    DrainCancels(s1, run);
  }

  lemma WorkerOverwrites(s: Backend, run: RunId) returns (step: Step)
    requires Basic(s) && run in s.store && !Nobody(s, run) && s.store[run].status != RunCancelled
    ensures CanStep(s, step) && !step.DoSubmit?
    ensures var t := DoStep(s, step); run in t.store && t.store[run] != s.store[run]
  {
    hide Finish, FinalizeCancelled, Basic;
    var w :| 0 <= w < |s.workers| && s.workers[w].Busy? && s.workers[w].item.run == run;
    if s.workers[w].cancelling {
      step := DoDeliver(w);
      FinalizeFrame(s, s.workers[w].item);
    } else {
      var st := Stored(RunCancelled, false);
      step := DoFinish(w, Returned(st));
      FinishStores(s, w, st);
    }
  }

  lemma UnsettledChanges(s: Backend, run: RunId) returns (steps: seq<Step>)
    requires Basic(s) && run in s.store && Terminal(s.store[run].status) && !Settled(s, run)
    ensures Feasible(s, steps) && NotReused(steps, run)
    ensures run in Reached(s, steps).store ==> Reached(s, steps).store[run] != s.store[run]
  {
    hide Basic, Feasible, Reached, DoStep, CanStep, AllCancelling, MayStart, Nobody, Waiting, Terminal;
    if s.store[run].status == RunCancelled {
      steps := EndsOtherwise(s, run, Stored(RunCompleted, false));
    } else if Waiting(s, run) {
      ShutdownOverwrites(s, run);
      steps := [DoBeginShutdown];
      One(s, DoBeginShutdown);
    } else {
      var step := WorkerOverwrites(s, run);
      steps := [step];
      One(s, step);
    }
  }

  /** In every state, whatever callers do: a COMPLETED, FAILED or CANCELLED run stays as it is stored until a submission
      under its id is admitted, exactly if nothing that is in the pool already can change it. */
  lemma TerminalStaysIff(s: Backend, run: RunId)
    requires Basic(s) && run in s.store && Terminal(s.store[run].status)
    ensures (forall steps | Feasible(s, steps) && !Reused(s, steps, run) :: StaysStored(s, steps, run, s.store[run]))
            <==> Settled(s, run)
  {
    hide Basic, Feasible, StaysStored, Reused, Settled, NotReused, Reached;
    if Settled(s, run) {
      forall steps | Feasible(s, steps) && !Reused(s, steps, run) ensures StaysStored(s, steps, run, s.store[run]) {
        SettledStaysIff(s, steps, run);
      }
    } else {
      var steps := UnsettledChanges(s, run);
      NeverReused(s, steps, run);
      if StaysStored(s, steps, run, s.store[run]) {
        StaysReached(s, steps, run, s.store[run]);
        assert false;
      }
    }
  }

  /** Where callers have kept to the rules so far, every terminal state is settled. */
  lemma TerminalIsSettled(s: Backend, run: RunId)
    requires Inv(s) && run in s.store && Terminal(s.store[run].status)
    ensures Settled(s, run)
  {
    hide LedgerOk, UniqueOk, KilledOk, CountsOk, PhaseOk, FutureOk, Flagged;
    forall w | 0 <= w < |s.workers| && s.workers[w].Busy? ensures s.workers[w].item.run != run {
      BusyItem(s, w);
      OutstandingStatus(s, s.workers[w].item.future);
      LiveStatus(s.store[run].status);
    }
    forall i | 0 <= i < |s.queue| && s.queue[i].run == run
        ensures s.store[run].status == RunCancelled && Flagged(s, run) {
      assert Outstanding(s, s.queue[i].future);
      OutstandingStatus(s, s.queue[i].future);
      LiveStatus(s.store[run].status);
    }
  }
}
