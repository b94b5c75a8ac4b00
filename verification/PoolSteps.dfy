/** Every legal step of the backend keeps its invariant, so every reachable state has it. */
module PoolSteps {
  import opened Workflow
  import opened Pool
  import opened PoolSafety

  // ---- Submissions ----

  lemma NobodyInPool(s: Backend, run: RunId)
    requires Core(s) && !RunOutstanding(s, run)
    ensures NotInPool(s, run)
  {
    hide Core;
  }

  lemma UnknownRun(s: Backend, run: RunId)
    requires Inv(s) && run !in s.store
    ensures !RunOutstanding(s, run) && run !in s.killed
  {
    hide UniqueOk, LedgerOk, FuturesOk, QueueOk, WorkersOk, ActiveOk, CountsOk, PhaseOk;
  }

  /** The submission goes on the queue as a new item. */
  predicate SubmissionAdmitted(s: Backend, hash: Hash, key: Option<Key>) {
    s.phase == Serving && (key.None? || key.value !in s.ledger) && !QueueFull(s)
  }

  lemma SubmissionAdmits(s: Backend, run: RunId, hash: Hash, key: Option<Key>)
    requires SubmissionAdmitted(s, hash, key)
    ensures Admits(s, SubmitRun(s, run, hash, key).0, Item(run, StartRun, |s.futures|, key))
    ensures AdmitsKey(s, SubmitRun(s, run, hash, key).0, Item(run, StartRun, |s.futures|, key))
  {
  }

  lemma RefusalRefuses(s: Backend, run: RunId, hash: Hash, key: Key)
    requires s.phase == Serving && key !in s.ledger && QueueFull(s)
    ensures var t := SubmitRun(s, run, hash, Some(key)).0;
            Refuses(s, t, key) && SameFrame(s, t) && t.killed == s.killed
  {
  }

  lemma RefusalKeeps(s: Backend, run: RunId, hash: Hash, key: Key)
    requires Inv(s) && s.phase == Serving && key !in s.ledger && QueueFull(s)
    ensures Inv(SubmitRun(s, run, hash, Some(key)).0)
  {
    hide Core, SubmitRun;
    RefusalRefuses(s, run, hash, key);
    RefusalKeepsCore(s, SubmitRun(s, run, hash, Some(key)).0, key);
  }

  /** Joining a claimed key changes nothing: a cached result is in its future already. */
  lemma JoiningChangesNothing(s: Backend, run: RunId, hash: Hash, key: Option<Key>)
    requires Core(s) && !SubmissionAdmitted(s, hash, key)
              && !(s.phase == Serving && key.Some? && key.value !in s.ledger)
    ensures SubmitRun(s, run, hash, key).0 == s
  {
    hide ItemsOk, FuturesOk, UniqueOk;
    if s.phase == Serving && key.Some? {
      var rec := s.ledger[key.value];
      assert rec.completed ==> SetIfOpen(s.futures, rec.future, Result(rec.cached.value)) == s.futures;
    }
  }

  lemma SubmitKeeps(s: Backend, run: RunId, hash: Hash, key: Option<Key>)
    requires Inv(s) && (SubmissionAdmitted(s, hash, key) ==> !RunOutstanding(s, run) && run !in s.killed)
    ensures Inv(SubmitRun(s, run, hash, key).0)
  {
    hide Inv, SubmitRun, Admits, AdmitsKey, RunOutstanding, NotInPool;
    InvHasCore(s);
    if SubmissionAdmitted(s, hash, key) {
      NobodyInPool(s, run);
      SubmissionAdmits(s, run, hash, key);
      AdmitKeeps(s, SubmitRun(s, run, hash, key).0, Item(run, StartRun, |s.futures|, key));
    } else if s.phase == Serving && key.Some? && key.value !in s.ledger {
      RefusalKeeps(s, run, hash, key.value);
    } else {
      JoiningChangesNothing(s, run, hash, key);
    }
  }

  lemma InvHasCore(s: Backend)
    requires Inv(s)
    ensures Core(s)
  {
    hide Core;
  }

  predicate ResumeAdmitted(s: Backend, run: RunId) {
    s.phase == Serving && run in s.store && s.store[run].requiresHuman && !Terminal(s.store[run].status)
        && !QueueFull(s)
  }

  lemma LiveStatus(status: RunStatus)
    ensures !Terminal(status) <==> status in {Idle, PausedForHuman, Running}
  {
    match status
    case Idle =>
    case _ =>
  }

  lemma ResumeAdmits(s: Backend, run: RunId)
    requires ResumeAdmitted(s, run)
    ensures Admits(s, SubmitResume(s, run).0, Item(run, ResumeRun, |s.futures|, None))
    ensures AdmitsKey(s, SubmitResume(s, run).0, Item(run, ResumeRun, |s.futures|, None))
  {
    LiveStatus(s.store[run].status);
  }

  /** A killed run that is not in the pool is stored CANCELLED. */
  lemma KilledAndGone(s: Backend, run: RunId)
    requires Inv(s) && run in s.killed && !RunOutstanding(s, run)
    ensures run in s.store && s.store[run].status == RunCancelled
  {
    hide Core, QueueOk, CountsOk, PhaseOk;
    if run in s.active {
      var f := ActiveItem(s, run);
      assert false;
    }
  }

  lemma ResumeKeeps(s: Backend, run: RunId)
    requires Inv(s) && (ResumeAdmitted(s, run) ==> !RunOutstanding(s, run))
    ensures Inv(SubmitResume(s, run).0)
  {
    hide Inv, Admits, AdmitsKey, RunOutstanding, NotInPool;
    InvHasCore(s);
    if ResumeAdmitted(s, run) {
      NobodyInPool(s, run);
      if run in s.killed {
        KilledAndGone(s, run);
      }
      ResumeAdmits(s, run);
      AdmitKeeps(s, SubmitResume(s, run).0, Item(run, ResumeRun, |s.futures|, None));
    }
  }

  // ---- Cancellation ----

  lemma FlagKeepsLedger(s: Backend, run: RunId)
    requires LedgerOk(s)
    ensures LedgerOk(Flag(s, run))
  {
    forall g ensures Outstanding(Flag(s, run), g) <==> Outstanding(s, g) {
    }
  }

  lemma FlagKeepsFutures(s: Backend, run: RunId)
    requires s.place.Keys == s.items.Keys && ItemsOk(s) && FuturesOk(s)
    ensures ItemsOk(Flag(s, run)) && FuturesOk(Flag(s, run))
  {
    forall f | f in s.items ensures FutureOk(Flag(s, run), f) {
      assert FutureOk(s, f);
    }
  }

  lemma FlagKeepsCore(s: Backend, run: RunId)
    requires Core(s)
    ensures Core(Flag(s, run))
  {
    hide UniqueOk, LedgerOk, FuturesOk, ItemsOk;
    SameUnique(s, Flag(s, run));
    FlagKeepsLedger(s, run);
    FlagKeepsFutures(s, run);
  }

  lemma FlagKeeps(s: Backend, run: RunId)
    requires Inv(s)
    ensures Inv(Flag(s, run))
  {
    hide Core;
    FlagKeepsCore(s, run);
  }

  lemma CancelActiveKeepsWorkers(s: Backend, run: RunId)
    requires WorkersOk(s) && ActiveOk(s) && KilledOk(s) && run in s.active && run in s.store
    ensures var t := CancelActive(s, run); WorkersOk(t) && ActiveOk(t) && KilledOk(t)
  {
  }

  lemma CancelActiveKeepsCounts(s: Backend, run: RunId)
    requires CountsOk(s) && PhaseOk(s) && run in s.active
    ensures var t := CancelActive(s, run); CountsOk(t) && PhaseOk(t)
  {
    BusyCountSame(s.workers, CancelActive(s, run).workers);
  }

  lemma CancelActiveKeeps(s: Backend, run: RunId)
    requires Inv(s) && run in s.active
    ensures Inv(CancelActive(s, run))
  {
    hide UniqueOk, WorkersOk, ActiveOk, KilledOk, CountsOk, PhaseOk, QueueOk, FutureOk, LedgerOk;
    var t := CancelActive(s, run);
    var f := ActiveItem(s, run);
    CancelActiveKeepsWorkers(s, run);
    CancelActiveKeepsCounts(s, run);
    SameCoreBut(s, t);
    assert QueueOk(t) by {
      SameQueue(s, t);
    }
  }

  lemma SameQueue(s: Backend, t: Backend)
    requires QueueOk(s) && t.items == s.items && t.place == s.place && t.queue == s.queue
    ensures QueueOk(t)
  {
  }

  /** The core does not look at the set of killed runs. */
  lemma SameCoreBut(s: Backend, t: Backend)
    requires Core(s) && SameSettlement(s.(killed := t.killed), t)
    ensures Core(t)
  {
    hide UniqueOk, Outstanding;
    SameUnique(s, t);
    forall g ensures Outstanding(t, g) <==> Outstanding(s, g) {
      SameOutstanding(s, t, g);
    }
    forall f | f in t.items ensures FutureOk(t, f) {
      assert FutureOk(s, f);
    }
  }

  lemma SameOutstanding(s: Backend, t: Backend, g: nat)
    requires t.items == s.items && t.place == s.place
    ensures Outstanding(t, g) <==> Outstanding(s, g)
  {
  }

  /** No worker is busy with the run: whatever item of it is in the pool waits in the queue. */
  lemma IdleRunWaits(s: Backend, run: RunId, f: nat)
    requires WorkersOk(s) && ActiveOk(s) && run !in s.active && Outstanding(s, f) && s.items[f].run == run
    ensures s.place[f] == InQueue
  {
  }

  /** The items of the cancelled run: one that waits gets its future settled, one that left is as before. */
  lemma CancelStoredOwn(s: Backend, run: RunId, f: nat)
    requires ItemsOk(s) && run in s.store && run in s.cancelledRuns && f in s.items && f in s.place
              && s.items[f].run == run
    requires FutureOk(s, f) && !s.place[f].AtWorker?
    ensures var t := CancelStored(s, run); ItemsOk(t) && FutureOk(t, f)
  {
    hide SetJob;
  }

  lemma CancelStoredOther(s: Backend, run: RunId, f: nat)
    requires ItemsOk(s) && run in s.store && f in s.items && f in s.place && s.items[f].run != run && FutureOk(s, f)
    ensures var t := CancelStored(s, run); ItemsOk(t) && FutureOk(t, f)
  {
    hide SetJob;
  }

  lemma CancelStoredFuture(s: Backend, run: RunId, f: nat)
    requires Core(s) && WorkersOk(s) && ActiveOk(s) && run !in s.active && run in s.store && f in s.items
    requires run in s.cancelledRuns
    ensures var t := CancelStored(s, run); ItemsOk(t) && FutureOk(t, f)
  {
    hide UniqueOk, LedgerOk, WorkersOk, ActiveOk, FutureOk, CancelStored;
    assert FutureOk(s, f);
    if s.items[f].run == run {
      if Outstanding(s, f) {
        IdleRunWaits(s, run, f);
      }
      CancelStoredOwn(s, run, f);
    } else {
      CancelStoredOther(s, run, f);
    }
  }

  lemma CancelStoredKeepsLedger(s: Backend, run: RunId)
    requires Core(s) && run in s.store
    ensures LedgerOk(CancelStored(s, run))
  {
    hide UniqueOk, FuturesOk, SetJob;
    var t := CancelStored(s, run);
    forall g ensures Outstanding(t, g) <==> Outstanding(s, g) {
    }
    forall k | k in t.refused ensures t.ledger[k].future < |t.futures| && t.futures[t.ledger[k].future].Open? {
      assert s.ledger[k].future !in s.items;
    }
  }

  lemma CancelStoredKeeps(s: Backend, run: RunId)
    requires Inv(s) && run !in s.active && run in s.store && run in s.cancelledRuns
    ensures Inv(CancelStored(s, run))
  {
    hide LedgerOk, UniqueOk, FutureOk, QueueOk, WorkersOk, ActiveOk, CountsOk, PhaseOk;
    var t := CancelStored(s, run);
    CancelStoredKeepsLedger(s, run);
    SameUnique(s, t);
    SameQueue(s, t);
    CancelStoredFrame(s, run);
    assert ItemsOk(t);
    forall f | f in t.items ensures FutureOk(t, f) {
      CancelStoredFuture(s, run, f);
    }
  }

  lemma CancelStoredFrame(s: Backend, run: RunId)
    requires WorkersOk(s) && ActiveOk(s) && CountsOk(s) && PhaseOk(s) && run in s.store
    ensures var t := CancelStored(s, run); WorkersOk(t) && ActiveOk(t) && CountsOk(t) && PhaseOk(t)
  {
  }

  lemma CancelKeeps(s: Backend, run: RunId)
    requires Inv(s)
    ensures Inv(CancelRun(s, run).0)
  {
    hide Inv, CancelActive, CancelStored;
    var s1 := Flag(s, run);
    FlagKeeps(s, run);
    if run in s1.active {
      CancelActiveKeeps(s1, run);
    } else if run in s1.store {
      CancelStoredKeeps(s1, run);
    }
  }

  // ---- Shutdown ----

  lemma DropFrontShrinks(s: Backend)
    requires Body(s) && s.queue != []
    ensures DropFront(s).queue == s.queue[1..] && DropFront(s).phase == s.phase
  {
    hide Body, DropFront, Leaves;
    DropFrontEffect(s);
  }

  lemma {:induction false} DrainKeeps(s: Backend)
    requires Body(s)
    ensures Body(Drain(s)) && Drain(s).queue == [] && Drain(s).phase == s.phase
    decreases |s.queue|
  {
    hide Body, DropFront;
    if s.queue != [] {
      DropFrontKeeps(s);
      DropFrontShrinks(s);
      DrainKeeps(DropFront(s));
    }
  }

  lemma BeginShutdownKeeps(s: Backend)
    requires Inv(s) && s.phase == Serving
    ensures Inv(BeginShutdown(s)) && BeginShutdown(s).phase == Draining
  {
    hide Core, Drain;
    var s1 := s.(phase := Draining);
    SameCore(s, s1);
    DrainKeeps(s1);
  }

  lemma ForceStopKeeps(s: Backend)
    requires Inv(s) && s.phase == Draining
    ensures Inv(ForceStop(s))
  {
    hide Core, QueueOk;
    var t := ForceStop(s);
    SameCore(s, t);
    SameQueue(s, t);
    ForceStopWorkers(s);
  }

  lemma ForceStopWorkers(s: Backend)
    requires WorkersOk(s) && ActiveOk(s) && KilledOk(s) && CountsOk(s)
    ensures var t := ForceStop(s); WorkersOk(t) && ActiveOk(t) && KilledOk(t) && CountsOk(t) && PhaseOk(t)
  {
    BusyCountSame(s.workers, ForceStop(s).workers);
  }

  // ---- All steps ----

  lemma StepKeeps(s: Backend, step: Step)
    requires Inv(s) && CanStep(s, step) && Legal(s, step)
    ensures Inv(DoStep(s, step))
  {
    hide Inv, RunOutstanding, SubmitRun, SubmitResume, CancelRun, Take, Finish, DeliverCancel, BeginShutdown, ForceStop;
    match step
    case DoSubmit(run, hash, key) =>
      UnknownRun(s, run);
      SubmitKeeps(s, run, hash, key);
    case DoResume(run) => ResumeKeeps(s, run);
    case DoCancel(run) => CancelKeeps(s, run);
    case DoTake(w) => TakeKeeps(s, w);
    case DoFinish(w, o) => FinishKeeps(s, w, o);
    case DoDeliver(w) => DeliverKeeps(s, w);
    case DoBeginShutdown => BeginShutdownKeeps(s);
    case DoForceStop => ForceStopKeeps(s);
  }

  ghost predicate Allowed(s: Backend, steps: seq<Step>)
    decreases |steps|
  {
    steps == []
    || (CanStep(s, steps[0]) && Legal(s, steps[0]) && Allowed(DoStep(s, steps[0]), steps[1..]))
  }

  /** The state after a list of steps. */
  ghost function After(s: Backend, steps: seq<Step>): Backend
    requires Allowed(s, steps)
    decreases |steps|
  {
    if steps == [] then s else After(DoStep(s, steps[0]), steps[1..])
  }

  lemma {:induction false} StepsKeep(s: Backend, steps: seq<Step>)
    requires Inv(s) && Allowed(s, steps)
    ensures Inv(After(s, steps))
    decreases |steps|
  {
    hide Inv, DoStep, CanStep, Legal;
    if steps != [] {
      StepKeeps(s, steps[0]);
      StepsKeep(DoStep(s, steps[0]), steps[1..]);
    }
  }

  /** Whatever callers, workers and the runtime do, a backend that starts empty keeps its invariant. */
  lemma RunsKeep(capacity: nat, concurrency: nat, steps: seq<Step>)
    requires Allowed(Initial(capacity, concurrency), steps)
    ensures Inv(After(Initial(capacity, concurrency), steps))
  {
    hide Inv;
    InitialKeeps(capacity, concurrency);
    StepsKeep(Initial(capacity, concurrency), steps);
  }

  // ---- When a submission breaks the pool ----

  /** Two items of one run, or an item of a cancelled run, are what the invariant rules out. */
  lemma TwoItemsBreak(s: Backend, f: nat, g: nat)
    requires Outstanding(s, f) && Outstanding(s, g) && f != g && s.items[f].run == s.items[g].run
    ensures !Inv(s)
  {
    hide Outstanding, ItemsOk, FuturesOk, LedgerOk, QueueOk, WorkersOk, ActiveOk, KilledOk, CountsOk, PhaseOk;
  }

  lemma ReusedRunBreaks(s: Backend, t: Backend, item: Item)
    requires Inv(s) && Admits(s, t, item) && RunOutstanding(s, item.run)
    ensures !Inv(t)
  {
    hide Inv, AdmitsRun, AdmitsFrame, AdmitsItem;
    InvHasCore(s);
    var f :| f in s.items && Outstanding(s, f) && s.items[f].run == item.run;
    assert s.place.Keys == s.items.Keys && ItemsOk(s);
    AdmitKeepsOutstanding(s, t, item, f);
    AdmitKeepsOutstanding(s, t, item, item.future);
    TwoItemsBreak(t, f, item.future);
  }

  /** A resume is safe exactly when it is not admitted or no item of the run is in the pool. */
  lemma ResumeKeepsIff(s: Backend, run: RunId)
    requires Inv(s)
    ensures Inv(SubmitResume(s, run).0) <==> (SubmitResume(s, run).1.Admitted? ==> !RunOutstanding(s, run))
  {
    hide Inv, RunOutstanding, Admits, AdmitsKey;
    assert SubmitResume(s, run).1.Admitted? <==> ResumeAdmitted(s, run);
    if ResumeAdmitted(s, run) && RunOutstanding(s, run) {
      ResumeAdmits(s, run);
      ReusedRunBreaks(s, SubmitResume(s, run).0, Item(run, ResumeRun, |s.futures|, None));
    } else {
      ResumeKeeps(s, run);
    }
  }

  lemma RevivedRunBreaks(s: Backend, run: RunId, hash: Hash, key: Option<Key>)
    requires Inv(s) && SubmissionAdmitted(s, hash, key) && run in s.killed && !RunOutstanding(s, run)
    ensures !Inv(SubmitRun(s, run, hash, key).0)
  {
    hide Core, QueueOk, CountsOk, PhaseOk;
    if run in s.active {
      var f := ActiveItem(s, run);
      assert false;
    }
  }

  /** A submission is safe exactly when it is not admitted, or its id names no run that is in the pool or was
      cancelled. */
  lemma SubmitKeepsIff(s: Backend, run: RunId, hash: Hash, key: Option<Key>)
    requires Inv(s)
    ensures Inv(SubmitRun(s, run, hash, key).0) <==>
            (SubmitRun(s, run, hash, key).1.Admitted? ==> !RunOutstanding(s, run) && run !in s.killed)
  {
    hide Inv, RunOutstanding, Admits, AdmitsKey;
    assert SubmitRun(s, run, hash, key).1.Admitted? <==> SubmissionAdmitted(s, hash, key);
    hide SubmitRun;
    if SubmissionAdmitted(s, hash, key) && RunOutstanding(s, run) {
      SubmissionAdmits(s, run, hash, key);
      ReusedRunBreaks(s, SubmitRun(s, run, hash, key).0, Item(run, StartRun, |s.futures|, key));
    } else if SubmissionAdmitted(s, hash, key) && run in s.killed {
      RevivedRunBreaks(s, run, hash, key);
    } else {
      SubmitKeeps(s, run, hash, key);
    }
  }
}
