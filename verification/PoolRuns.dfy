/** Runs of the backend under callers who keep to no rules at all: any steps that can happen one after the other,
    and what every state on the way has in common. */
module PoolRuns {
  import opened Workflow
  import opened Pool
  import opened PoolSafety
  import opened PoolSteps

  /** Steps that can happen one after the other, whether or not the callers keep to the rules. */
  ghost predicate Feasible(s: Backend, steps: seq<Step>)
    decreases |steps|
  {
    steps == [] || (CanStep(s, steps[0]) && Feasible(DoStep(s, steps[0]), steps[1..]))
  }

  ghost function Reached(s: Backend, steps: seq<Step>): Backend
    requires Feasible(s, steps)
    decreases |steps|
  {
    if steps == [] then s else Reached(DoStep(s, steps[0]), steps[1..])
  }

  /** Nobody submits a new run under this id. */
  predicate NotReused(steps: seq<Step>, run: RunId) {
    forall i | 0 <= i < |steps| && steps[i].DoSubmit? :: steps[i].run != run
  }

  predicate BusyWith(s: Backend, w: nat, run: RunId) {
    w < |s.workers| && s.workers[w].Busy? && s.workers[w].item.run == run
  }

  lemma NotReusedTail(steps: seq<Step>, run: RunId)
    requires steps != [] && NotReused(steps, run)
    ensures NotReused(steps[1..], run) && (steps[0].DoSubmit? ==> steps[0].run != run)
  {
    assert forall i | 0 <= i < |steps[1..]| :: steps[1..][i] == steps[i + 1];
  }

  /** One step, and the steps that follow it. */
  lemma Prepend(s: Backend, step: Step, rest: seq<Step>, run: RunId)
    requires CanStep(s, step) && !step.DoSubmit? && Feasible(DoStep(s, step), rest) && NotReused(rest, run)
    ensures Feasible(s, [step] + rest) && NotReused([step] + rest, run)
    ensures Reached(s, [step] + rest) == Reached(DoStep(s, step), rest)
  {
    hide CanStep, DoStep;
    assert ([step] + rest)[1..] == rest;
    forall i | 0 <= i < |[step] + rest| && ([step] + rest)[i].DoSubmit? ensures ([step] + rest)[i].run != run {
      assert i > 0 && ([step] + rest)[i] == rest[i - 1];
    }
  }

  lemma {:induction false} Append(s: Backend, steps: seq<Step>, rest: seq<Step>)
    requires Feasible(s, steps) && Feasible(Reached(s, steps), rest)
    ensures Feasible(s, steps + rest) && Reached(s, steps + rest) == Reached(Reached(s, steps), rest)
    decreases |steps|
  {
    hide CanStep, DoStep;
    if steps == [] {
      assert [] + rest == rest;
    } else {
      Append(DoStep(s, steps[0]), steps[1..], rest);
      assert (steps + rest)[1..] == steps[1..] + rest;
    }
  }

  lemma One(s: Backend, step: Step)
    requires CanStep(s, step)
    ensures Feasible(s, [step]) && Reached(s, [step]) == DoStep(s, step)
  {
    hide CanStep, DoStep;
    assert [step][1..] == [];
  }

  // ---- What finalizing an item touches ----

  /** Settling an item touches futures and ledger only. */
  predicate OnlySettles(s: Backend, t: Backend) {
    && t.store == s.store && t.jobs == s.jobs && t.cancelledRuns == s.cancelledRuns && t.phase == s.phase
    && t.workers == s.workers && t.queue == s.queue && t.active == s.active && t.capacity == s.capacity
    && t.sentinels == s.sentinels
  }

  lemma ConcludeFrame(s: Backend, item: Item, result: Stored)
    ensures OnlySettles(s, ConcludeWith(s, item, result))
  {
    hide SetIfOpen;
  }

  lemma RaiseFrame(s: Backend, item: Item)
    ensures OnlySettles(s, ConcludeRaised(s, item))
  {
    hide SetIfOpen;
  }

  lemma FinalizeFrame(s: Backend, item: Item)
    ensures var t := FinalizeCancelled(s, item);
            && t.phase == s.phase && t.workers == s.workers && t.queue == s.queue && t.cancelledRuns == s.cancelledRuns
            && t.capacity == s.capacity && t.sentinels == s.sentinels && t.active == s.active
            && t.jobs == (if item.run in s.jobs then s.jobs[item.run := Job(JobCancelled, true)] else s.jobs)
            && t.store == (if item.run in s.store then s.store[item.run := s.store[item.run].(status := RunCancelled)]
                           else s.store)
  {
    hide ConcludeWith, ConcludeRaised;
    var s1 := if item.run in s.jobs then s.(jobs := s.jobs[item.run := Job(JobCancelled, true)]) else s;
    if item.run in s1.store {
      var st := s1.store[item.run].(status := RunCancelled);
      ConcludeFrame(s1.(store := s1.store[item.run := st]), item, st);
    } else {
      RaiseFrame(s1, item);
    }
  }

  /** Finalizing items changes no worker, and knows no run that was not known. */
  predicate OnlyFinalizes(s: Backend, t: Backend) {
    && t.phase == s.phase && t.workers == s.workers && t.active == s.active && t.capacity == s.capacity
    && t.cancelledRuns == s.cancelledRuns && t.jobs.Keys == s.jobs.Keys && t.store.Keys == s.store.Keys
  }

  lemma DropFrame(s: Backend)
    requires s.queue != []
    ensures OnlyFinalizes(s, DropFront(s)) && DropFront(s).queue == s.queue[1..]
  {
    hide FinalizeCancelled;
    FinalizeFrame(s.(queue := s.queue[1..]), s.queue[0]);
  }

  lemma {:induction false} DrainFrame(s: Backend)
    ensures OnlyFinalizes(s, Drain(s)) && Drain(s).queue == []
    decreases |s.queue|
  {
    hide DropFront;
    if s.queue != [] {
      DropFrame(s);
      DrainFrame(DropFront(s));
    }
  }

  lemma FinishBeforeLeave(s: Backend, w: nat, o: RuntimeOutcome) returns (t: Backend)
    requires w < |s.workers| && s.workers[w].Busy?
    ensures t.workers == s.workers && Finish(s, w, o) == Leave(t, w)
    ensures t.phase == s.phase && t.active == s.active && t.capacity == s.capacity && t.queue == s.queue
    ensures t.sentinels == s.sentinels && t.jobs.Keys == s.jobs.Keys && s.store.Keys <= t.store.Keys
  {
    hide ConcludeWith, ConcludeRaised, Leave;
    var item := s.workers[w].item;
    match o
    case Returned(st) =>
      t := s.(store := s.store[item.run := st], jobs := SetJob(s.jobs, item.run, JobAfter(st.status)));
      ConcludeFrame(t, item, st);
      t := ConcludeWith(t, item, st);
    case Threw =>
      t := s.(jobs := SetJob(s.jobs, item.run, JobFailed));
      RaiseFrame(t, item);
      t := ConcludeRaised(t, item);
  }

  /** A worker hands its item in: it is not busy any more, and nobody else changes. */
  lemma WorkerHandsIn(s: Backend, step: Step, w: nat)
    requires CanStep(s, step) && (step == DoDeliver(w) || (step.DoFinish? && step.worker == w))
    ensures var t := DoStep(s, step);
            && |t.workers| == |s.workers| && !t.workers[w].Busy? && (s.phase != Stopping ==> t.workers[w].Resting?)
            && t.workers == s.workers[w := t.workers[w]] && t.active == s.active - {s.workers[w].item.run}
            && t.queue == s.queue && t.phase == s.phase && t.capacity == s.capacity
            && t.jobs.Keys == s.jobs.Keys && s.store.Keys <= t.store.Keys
  {
    hide Finish, FinalizeCancelled;
    if step.DoDeliver? {
      FinalizeFrame(s, s.workers[w].item);
    } else {
      var t := FinishBeforeLeave(s, w, step.outcome);
    }
  }

  // ---- What every state has ----

  /** Whatever waits or is being worked on was stored, and has a job. */
  ghost predicate ItemsKnown(s: Backend) {
    && (forall i | 0 <= i < |s.queue| :: s.queue[i].run in s.store && s.queue[i].run in s.jobs)
    && (forall w | 0 <= w < |s.workers| && s.workers[w].Busy? ::
          s.workers[w].item.run in s.store && s.workers[w].item.run in s.jobs)
  }

  /** Whoever is entered as active for a run is busy with it. */
  ghost predicate ActiveBusy(s: Backend) {
    forall r | r in s.active :: BusyWith(s, s.active[r], r)
  }

  predicate WithinBounds(s: Backend) {
    && (s.capacity > 0 ==> |s.queue| <= s.capacity)
    && (s.phase != Stopping ==> forall w | 0 <= w < |s.workers| :: s.workers[w].Resting? || s.workers[w].Busy?)
  }

  /** What holds of every state of the backend, whatever its callers did. */
  ghost predicate Basic(s: Backend) {
    && ItemsKnown(s) && ActiveBusy(s) && WithinBounds(s)
    && (s.phase != Serving ==> s.queue == [])
  }

  lemma InitialBasic(capacity: nat, concurrency: nat)
    ensures Basic(Initial(capacity, concurrency))
  {
  }

  /** A submission that is not admitted changes futures and ledger only. */
  lemma SubmitRefused(s: Backend, run: RunId, hash: Hash, key: Option<Key>)
    requires !SubmitRun(s, run, hash, key).1.Admitted?
    ensures OnlySettles(s, SubmitRun(s, run, hash, key).0)
  {
    hide SetIfOpen, Admit, QueueFull, OnlySettles;
    var t := SubmitRun(s, run, hash, key).0;
    assert t == s.(futures := t.futures, ledger := t.ledger, log := t.log, refused := t.refused);
    LedgerOnly(s, t);
  }

  lemma LedgerOnly(s: Backend, t: Backend)
    requires t == s.(futures := t.futures, ledger := t.ledger, log := t.log, refused := t.refused)
    ensures OnlySettles(s, t)
  {
  }

  lemma SubmitAdmitted(s: Backend, run: RunId, hash: Hash, key: Option<Key>)
    requires SubmitRun(s, run, hash, key).1.Admitted?
    ensures var t := SubmitRun(s, run, hash, key).0;
            && !QueueFull(s) && s.phase == t.phase == Serving && t.workers == s.workers && t.active == s.active
            && t.capacity == s.capacity && t.cancelledRuns == s.cancelledRuns
            && t.queue == s.queue + [Item(run, StartRun, |s.futures|, key)]
            && t.store == s.store[run := Stored(Idle, false)] && t.jobs == s.jobs[run := Job(Queued, false)]
  {
    hide SetIfOpen;
  }

  lemma SubmitBasic(s: Backend, run: RunId, hash: Hash, key: Option<Key>)
    requires Basic(s)
    ensures Basic(SubmitRun(s, run, hash, key).0)
  {
    hide SubmitRun, Basic, QueueFull;
    if SubmitRun(s, run, hash, key).1.Admitted? {
      SubmitAdmitted(s, run, hash, key);
      OneMoreBasic(s, SubmitRun(s, run, hash, key).0, Item(run, StartRun, |s.futures|, key));
    } else {
      SubmitRefused(s, run, hash, key);
      SameBasic(s, SubmitRun(s, run, hash, key).0);
    }
  }

  lemma SameBasic(s: Backend, t: Backend)
    requires Basic(s) && t.phase == s.phase && t.queue == s.queue && t.workers == s.workers && t.active == s.active
    requires t.capacity == s.capacity && s.store.Keys <= t.store.Keys && s.jobs.Keys <= t.jobs.Keys
    ensures Basic(t)
  {
    forall r | r in t.active ensures BusyWith(t, t.active[r], r) {
      assert BusyWith(s, s.active[r], r);
    }
  }

  lemma OneMoreBasic(s: Backend, t: Backend, item: Item)
    requires Basic(s) && t.phase == s.phase == Serving && t.queue == s.queue + [item] && !QueueFull(s)
    requires t.workers == s.workers && t.active == s.active && t.capacity == s.capacity
    requires s.store.Keys <= t.store.Keys && s.jobs.Keys <= t.jobs.Keys && item.run in t.store && item.run in t.jobs
    ensures Basic(t)
  {
    forall r | r in t.active ensures BusyWith(t, t.active[r], r) {
      assert BusyWith(s, s.active[r], r);
    }
  }

  lemma ResumeBasic(s: Backend, run: RunId)
    requires Basic(s)
    ensures Basic(SubmitResume(s, run).0)
  {
  }

  lemma CancelActiveBasic(s: Backend, run: RunId)
    requires Basic(s) && run in s.active
    ensures Basic(CancelActive(s, run))
  {
    var t := CancelActive(s, run);
    forall r | r in t.active ensures BusyWith(t, t.active[r], r) {
      assert BusyWith(s, s.active[r], r);
    }
  }

  lemma CancelBasic(s: Backend, run: RunId)
    requires Basic(s)
    ensures Basic(CancelRun(s, run).0)
  {
    hide SetIfOpen, Basic, CancelActive, SetJob;
    var s1 := Flag(s, run);
    SameBasic(s, s1);
    if run in s1.active {
      CancelActiveBasic(s1, run);
    } else if run in s1.store {
      SameBasic(s1, CancelStored(s1, run));
    }
  }

  lemma DropBasic(s: Backend)
    requires Basic(s) && s.queue != []
    ensures Basic(DropFront(s))
  {
    hide DropFront;
    DropFrame(s);
  }

  lemma StartBasic(s: Backend, w: nat)
    requires Basic(s) && CanStep(s, DoTake(w)) && !Flagged(s, s.queue[0].run)
    ensures Basic(Take(s, w))
  {
    hide DropFront;
    var t := Take(s, w);
    forall r | r in t.active ensures BusyWith(t, t.active[r], r) {
      assert r != s.queue[0].run ==> BusyWith(s, s.active[r], r);
    }
  }

  lemma HandInBasic(s: Backend, step: Step, w: nat)
    requires Basic(s) && CanStep(s, step) && (step == DoDeliver(w) || (step.DoFinish? && step.worker == w))
    ensures Basic(DoStep(s, step))
  {
    hide DoStep;
    WorkerHandsIn(s, step, w);
    var t := DoStep(s, step);
    forall r | r in t.active ensures BusyWith(t, t.active[r], r) {
      assert BusyWith(s, s.active[r], r);
    }
  }

  lemma BeginShutdownBasic(s: Backend)
    requires Basic(s) && s.phase == Serving
    ensures Basic(BeginShutdown(s))
  {
    hide Drain;
    DrainFrame(s.(phase := Draining));
  }

  lemma ForceStopBasic(s: Backend)
    requires Basic(s) && s.phase == Draining
    ensures Basic(ForceStop(s))
  {
    var t := ForceStop(s);
    forall r | r in t.active ensures BusyWith(t, t.active[r], r) {
      assert BusyWith(s, s.active[r], r);
    }
  }

  lemma StepBasic(s: Backend, step: Step)
    requires Basic(s) && CanStep(s, step)
    ensures Basic(DoStep(s, step))
  {
    hide Basic, SubmitRun, SubmitResume, CancelRun, DropFront, Finish, DeliverCancel, BeginShutdown, ForceStop, Flagged;
    match step
    case DoSubmit(run, hash, key) => SubmitBasic(s, run, hash, key);
    case DoResume(run) => ResumeBasic(s, run);
    case DoCancel(run) => CancelBasic(s, run);
    case DoTake(w) =>
      if Flagged(s, s.queue[0].run) {
        DropBasic(s);
      } else {
        StartBasic(s, w);
      }
    case DoFinish(w, _) => HandInBasic(s, step, w);
    case DoDeliver(w) => HandInBasic(s, step, w);
    case DoBeginShutdown => BeginShutdownBasic(s);
    case DoForceStop => ForceStopBasic(s);
  }

  lemma {:induction false} RunsBasic(s: Backend, steps: seq<Step>)
    requires Basic(s) && Feasible(s, steps)
    ensures Basic(Reached(s, steps))
    decreases |steps|
  {
    hide Basic, CanStep, DoStep;
    if steps != [] {
      StepBasic(s, steps[0]);
      RunsBasic(DoStep(s, steps[0]), steps[1..]);
    }
  }

  /** From a fresh pool, whatever its callers do: what waits or runs is stored and has a job, whoever is entered as
      active for a run is busy with it, the queue is bounded, and empty once shutdown has begun. */
  lemma AnyRunBasic(capacity: nat, concurrency: nat, steps: seq<Step>)
    requires Feasible(Initial(capacity, concurrency), steps)
    ensures Basic(Reached(Initial(capacity, concurrency), steps))
  {
    hide Basic, Reached, Initial;
    InitialBasic(capacity, concurrency);
    RunsBasic(Initial(capacity, concurrency), steps);
  }

  /** The states that callers who keep to the rules reach have it in particular. */
  lemma InvBasic(s: Backend)
    requires Inv(s)
    ensures Basic(s)
  {
    hide UniqueOk, FuturesOk, LedgerOk, KilledOk;
    forall r | r in s.active ensures BusyWith(s, s.active[r], r) {
      assert s.active[r] < |s.workers|;
    }
  }

  lemma {:induction false} AllowedFeasible(s: Backend, steps: seq<Step>)
    requires Allowed(s, steps)
    ensures Feasible(s, steps) && Reached(s, steps) == After(s, steps)
    decreases |steps|
  {
    hide CanStep, DoStep, Legal;
    if steps != [] {
      AllowedFeasible(DoStep(s, steps[0]), steps[1..]);
    }
  }
}
