/** What identical submissions share: a caller who joins a completed key finds, in the future it is given, exactly the
    state that the one run of that key ended with. */
module PoolSharing {
  import opened Workflow
  import opened Pool
  import opened PoolSafety
  import opened PoolSteps
  import opened PoolProgress
  import opened PoolPromises
  import opened PoolOutcomes

  /** The future of every completed key holds its cached result. */
  ghost predicate ResultsShared(s: Backend) {
    forall k | k in s.ledger && s.ledger[k].completed ::
      s.ledger[k].future < |s.futures| && s.ledger[k].cached.Some?
      && s.futures[s.ledger[k].future] == Result(s.ledger[k].cached.value)
  }

  /** A waiting caller who has an answer already has the stored state of its run. */
  ghost predicate WaitersAnswered(s: Backend) {
    forall x | x in s.queue ::
      x.run in s.store && x.future < |s.futures|
      && (s.futures[x.future] == Open || s.futures[x.future] == Result(s.store[x.run]))
  }

  ghost predicate Shared(s: Backend) {
    ResultsShared(s) && WaitersAnswered(s)
  }

  lemma SubmitShares(s: Backend, run: RunId, hash: Hash, key: Option<Key>)
    requires Inv(s) && Shared(s) && Legal(s, DoSubmit(run, hash, key))
    ensures Shared(SubmitRun(s, run, hash, key).0)
  {
    hide SubmitRun, FuturesOk, UniqueOk, QueueOk, WorkersOk, ActiveOk, KilledOk, CountsOk, PhaseOk;
    SubmissionAnswer(s, run, hash, key);
    if SubmitRun(s, run, hash, key).1.Admitted? {
      SubmissionAdmittedLeaves(s, run, hash, key);
    } else if SubmitRun(s, run, hash, key).1 == Full && key.Some? {
      SubmissionRefusedLeaves(s, run, hash, key.value);
    } else {
      JoiningChangesNothing(s, run, hash, key);
    }
  }

  lemma ResumeShares(s: Backend, run: RunId)
    requires Shared(s)
    ensures Shared(SubmitResume(s, run).0)
  {
    hide SubmitResume;
    ResumeAnswer(s, run);
    if SubmitResume(s, run).1.Admitted? {
      ResumeAdmittedLeaves(s, run);
    }
  }

  lemma WaitingFuture(s: Backend, x: Item)
    requires Inv(s) && x in s.queue
    ensures x.run in s.runFuture && s.runFuture[x.run] == x.future && x.future < |s.futures| && x.run in s.store
    ensures s.futures[x.future] == Open <==> s.store[x.run].status != RunCancelled
  {
    hide LedgerOk, UniqueOk, WorkersOk, ActiveOk, KilledOk, CountsOk, PhaseOk;
    assert FutureOk(s, x.future);
  }

  lemma OtherFuture(s: Backend, x: Item, run: RunId)
    requires Inv(s) && x in s.queue && run in s.runFuture && x.run != run
    ensures s.runFuture[run] != x.future
  {
    hide LedgerOk, FuturesOk, UniqueOk, WorkersOk, ActiveOk, KilledOk, CountsOk, PhaseOk;
  }

  lemma CancelShares(s: Backend, run: RunId)
    requires Inv(s) && Shared(s)
    ensures Shared(CancelRun(s, run).0)
  {
    hide CancelRun, Inv;
    var t := CancelRun(s, run).0;
    if run in s.active {
      CancelBusy(s, run);
    } else if CancelRun(s, run).1 {
      CancelWaiting(s, run);
      forall x | x in t.queue
        ensures x.run in t.store && x.future < |t.futures|
        ensures t.futures[x.future] == Open || t.futures[x.future] == Result(t.store[x.run])
      {
        WaitingFuture(s, x);
        if run in s.runFuture && x.run != run {
          OtherFuture(s, x, run);
        }
      }
    } else {
      CancelRefused(s, run);
    }
  }

  /** An item that leaves with a state leaves every shared result in place, its own included. */
  lemma LeavingShares(s: Backend, t: Backend, item: Item, st: Stored)
    requires ResultsShared(s) && KeySettled(s, t, item, Returned(st)) && item.future < |s.futures|
    requires SettledWith(s, t, item.future, Result(st))
    requires s.futures[item.future] == Open || s.futures[item.future] == Result(st)
    ensures ResultsShared(t)
  {
  }

  lemma RaisingShares(s: Backend, t: Backend, item: Item)
    requires ResultsShared(s) && KeySettled(s, t, item, Threw) && SettledWith(s, t, item.future, Raised)
    ensures ResultsShared(t)
  {
  }

  /** Who waits is not affected by what happens to another run. */
  lemma OthersWait(s: Backend, t: Backend, item: Item, v: Future)
    requires WaitersAnswered(s) && SettledWith(s, t, item.future, v)
    requires forall x | x in t.queue :: x in s.queue && x.run != item.run && x.future != item.future
    requires s.store.Keys <= t.store.Keys && forall r | r in s.store && r != item.run :: t.store[r] == s.store[r]
    ensures WaitersAnswered(t)
  {
  }

  lemma WorkedOnIsNotWaiting(s: Backend, w: nat)
    requires Inv(s) && w < |s.workers| && s.workers[w].Busy?
    ensures forall x | x in s.queue :: x.run != s.workers[w].item.run && x.future != s.workers[w].item.future
  {
    hide LedgerOk, FuturesOk, ItemsOk, ActiveOk, KilledOk, CountsOk, PhaseOk;
    forall x | x in s.queue ensures x.run != s.workers[w].item.run && x.future != s.workers[w].item.future {
      assert Outstanding(s, x.future) && Outstanding(s, s.workers[w].item.future);
    }
  }

  lemma FinishShares(s: Backend, w: nat, o: RuntimeOutcome)
    requires Inv(s) && Shared(s) && CanStep(s, DoFinish(w, o))
    ensures Shared(DoStep(s, DoFinish(w, o)))
  {
    hide Inv, DoStep, ResultsShared, WaitersAnswered;
    var item, t := s.workers[w].item, DoStep(s, DoFinish(w, o));
    OutcomeDelivered(s, w, o);
    WorkedOnIsNotWaiting(s, w);
    QueueStays(s, DoFinish(w, o), w);
    match o
    case Returned(st) =>
      LeavingShares(s, t, item, st);
      OthersWait(s, t, item, Result(st));
    case Threw =>
      RaisingShares(s, t, item);
      OthersWait(s, t, item, Raised);
  }

  lemma QueueStays(s: Backend, step: Step, w: nat)
    requires CanStep(s, step) && step.DoFinish? && step.worker == w
    ensures DoStep(s, step).queue == s.queue
  {
    hide SetIfOpen, SetJob;
  }

  lemma DeliveryShares(s: Backend, w: nat)
    requires Inv(s) && Shared(s) && CanStep(s, DoDeliver(w))
    ensures Shared(DoStep(s, DoDeliver(w)))
  {
    hide Inv, DoStep, ResultsShared, WaitersAnswered;
    var item, t := s.workers[w].item, DoStep(s, DoDeliver(w));
    CancellationDelivered(s, w);
    WorkedOnIsNotWaiting(s, w);
    LeavingShares(s, t, item, AsCancelled(s.store[item.run]));
    OthersWait(s, t, item, Result(AsCancelled(s.store[item.run])));
  }

  lemma FirstIsAnswered(s: Backend)
    requires Body(s) && s.queue != [] && WaitersAnswered(s)
    ensures var x := s.queue[0];
            && x.run in s.store && x.future < |s.futures|
            && (s.futures[x.future] == Open || s.futures[x.future] == Result(AsCancelled(s.store[x.run])))
  {
    hide LedgerOk, UniqueOk, WorkersOk, ActiveOk, KilledOk, CountsOk, PhaseOk;
    assert s.queue[0] in s.queue && FutureOk(s, s.queue[0].future);
  }

  lemma DropShares(s: Backend)
    requires Body(s) && s.queue != [] && Shared(s)
    ensures Shared(DropFront(s))
  {
    hide Body, DropFront, ResultsShared, WaitersAnswered;
    var item, t := s.queue[0], DropFront(s);
    DropSettles(s);
    QueueIsDistinct(s);
    FirstIsAlone(s.queue);
    FirstIsAnswered(s);
    LeavingShares(s, t, item, AsCancelled(s.store[item.run]));
    OthersWait(s, t, item, Result(AsCancelled(s.store[item.run])));
  }

  lemma {:induction false} DrainShares(s: Backend)
    requires Body(s) && Shared(s)
    ensures Shared(Drain(s))
    decreases |s.queue|
  {
    hide Body, DropFront, Shared;
    if s.queue != [] {
      DropShares(s);
      DropFrontKeeps(s);
      DropFrontShrinks(s);
      DrainShares(DropFront(s));
    }
  }

  lemma StartedWaits(s: Backend, t: Backend, run: RunId)
    requires Shared(s) && t.futures == s.futures && t.ledger == s.ledger
    requires forall x | x in t.queue :: x in s.queue && x.run != run
    requires forall r | r in s.store && r != run :: r in t.store && t.store[r] == s.store[r]
    ensures Shared(t)
  {
  }

  lemma StartShares(s: Backend, w: nat)
    requires Inv(s) && Shared(s) && CanStep(s, DoTake(w)) && !Flagged(s, s.queue[0].run)
    ensures Shared(DoStep(s, DoTake(w)))
  {
    hide Inv, Shared, DoStep, Distinct, RunIn;
    ItemIsStarted(s, w);
    InvHasBody(s);
    QueueIsDistinct(s);
    FirstIsAlone(s.queue);
    hide Body;
    StartedWaits(s, DoStep(s, DoTake(w)), s.queue[0].run);
  }

  lemma TakeShares(s: Backend, w: nat)
    requires Inv(s) && Shared(s) && CanStep(s, DoTake(w))
    ensures Shared(DoStep(s, DoTake(w)))
  {
    hide Inv, Shared, DropFront, Flagged;
    if Flagged(s, s.queue[0].run) {
      InvHasBody(s);
      DropShares(s);
    } else {
      StartShares(s, w);
    }
  }

  lemma InvHasBody(s: Backend)
    requires Inv(s)
    ensures Body(s)
  {
  }

  lemma ShutdownShares(s: Backend)
    requires Inv(s) && Shared(s) && s.phase == Serving
    ensures Shared(BeginShutdown(s))
  {
    hide Body, Drain;
    PhaseBody(s);
    DrainShares(s.(phase := Draining));
  }

  lemma StepShares(s: Backend, step: Step)
    requires Inv(s) && Shared(s) && CanStep(s, step) && Legal(s, step)
    ensures Shared(DoStep(s, step))
  {
    hide Inv, Shared, SubmitRun, SubmitResume, CancelRun, Take, Finish, DeliverCancel, BeginShutdown, ForceStop;
    match step
    case DoSubmit(run, hash, key) => SubmitShares(s, run, hash, key);
    case DoResume(run) => ResumeShares(s, run);
    case DoCancel(run) => CancelShares(s, run);
    case DoTake(w) => TakeShares(s, w);
    case DoFinish(w, o) => FinishShares(s, w, o);
    case DoDeliver(w) => DeliveryShares(s, w);
    case DoBeginShutdown => ShutdownShares(s);
    case DoForceStop => ForceStopShares(s);
  }

  lemma ForceStopShares(s: Backend)
    requires Shared(s)
    ensures Shared(ForceStop(s))
  {
  }

  lemma {:induction false} RunsShare(s: Backend, steps: seq<Step>)
    requires Inv(s) && Shared(s) && Allowed(s, steps)
    ensures Shared(After(s, steps))
    decreases |steps|
  {
    hide Inv, Shared, CanStep, DoStep, Legal;
    if steps != [] {
      StepKeeps(s, steps[0]);
      StepShares(s, steps[0]);
      RunsShare(DoStep(s, steps[0]), steps[1..]);
    }
  }

  /** After any run of the backend from a fresh pool: a submission with the payload of a completed key is answered
      with a future that holds exactly the state the one run of that key ended with, and changes nothing. */
  lemma JoinersShareTheResult(capacity: nat, concurrency: nat, steps: seq<Step>, run: RunId, key: Key)
    requires Allowed(Initial(capacity, concurrency), steps)
    requires var s := After(Initial(capacity, concurrency), steps);
             s.phase == Serving && key in s.ledger && s.ledger[key].completed
    ensures var s := After(Initial(capacity, concurrency), steps);
            var rec := s.ledger[key];
            && rec.cached.Some? && rec.future < |s.futures| && s.futures[rec.future] == Result(rec.cached.value)
            && SubmitRun(s, run, rec.requestHash, Some(key)) == (s, Joined(rec.future))
  {
    hide Inv, Allowed, After, Initial, SubmitRun;
    var s := After(Initial(capacity, concurrency), steps);
    InitialKeeps(capacity, concurrency);
    NothingShared(capacity, concurrency);
    RunsKeep(capacity, concurrency, steps);
    RunsShare(Initial(capacity, concurrency), steps);
    InvHasCore(s);
    JoiningChangesNothing(s, run, s.ledger[key].requestHash, Some(key));
    SubmissionAnswer(s, run, s.ledger[key].requestHash, Some(key));
  }

  lemma NothingShared(capacity: nat, concurrency: nat)
    ensures Shared(Initial(capacity, concurrency))
  {
  }
}
