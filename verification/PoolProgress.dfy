/** What never goes back over a run of the backend: settled futures, items that left, terminal runs,
    refused keys and accepted cancellations. */
module PoolProgress {
  import opened Workflow
  import opened Pool
  import opened PoolSafety
  import opened PoolSteps

  /** A future is settled once and keeps its value. */
  ghost predicate FuturesAdvance(s: Backend, t: Backend) {
    |s.futures| <= |t.futures| && forall i | 0 <= i < |s.futures| && !s.futures[i].Open? :: t.futures[i] == s.futures[i]
  }

  /** Admitted items are remembered, and one that left does not come back. */
  ghost predicate ItemsAdvance(s: Backend, t: Backend) {
    forall f | f in s.items && f in s.place ::
      f in t.items && t.items[f] == s.items[f] && f in t.place && (s.place[f] == Finished ==> t.place[f] == Finished)
  }

  /** Stored runs stay stored, and one that is COMPLETED, FAILED or CANCELLED stays as it is. */
  ghost predicate StoreAdvance(s: Backend, t: Backend) {
    forall r | r in s.store :: r in t.store && (Terminal(s.store[r].status) ==> t.store[r] == s.store[r])
  }

  /** The record of a refused key stays as it is. */
  ghost predicate RefusedAdvance(s: Backend, t: Backend) {
    forall k | k in s.refused && k in s.ledger :: k in t.refused && k in t.ledger && t.ledger[k] == s.ledger[k]
  }

  /** A cancelled run is busy only where it was busy before: the runtime is not started for it again. */
  ghost predicate KilledAdvance(s: Backend, t: Backend) {
    && s.killed <= t.killed && |t.workers| == |s.workers|
    && (forall w | 0 <= w < |t.workers| && t.workers[w].Busy? && t.workers[w].item.run in s.killed ::
          s.workers[w].Busy? && s.workers[w].item == t.workers[w].item)
  }

  ghost predicate Settles(s: Backend, t: Backend) {
    FuturesAdvance(s, t) && ItemsAdvance(s, t) && StoreAdvance(s, t) && RefusedAdvance(s, t)
  }

  ghost predicate Progress(s: Backend, t: Backend) {
    Settles(s, t) && KilledAdvance(s, t) && t.capacity == s.capacity && t.concurrency == s.concurrency
  }

  lemma SettlesFutures(s: Backend, t: Backend, u: Backend)
    requires FuturesAdvance(s, t) && FuturesAdvance(t, u)
    ensures FuturesAdvance(s, u)
  {
  }

  lemma SettlesTransitive(s: Backend, t: Backend, u: Backend)
    requires Settles(s, t) && Settles(t, u)
    ensures Settles(s, u)
  {
    hide FuturesAdvance;
    SettlesFutures(s, t, u);
  }

  lemma ProgressTransitive(s: Backend, t: Backend, u: Backend)
    requires Progress(s, t) && Progress(t, u)
    ensures Progress(s, u)
  {
    hide Settles;
    SettlesTransitive(s, t, u);
  }

  // ---- An item leaves ----

  lemma LeavingAdvances(s: Backend, t: Backend, f: nat)
    requires f in s.items && Leaves(s, t, f)
    ensures FuturesAdvance(s, t) && ItemsAdvance(s, t)
  {
    hide LeavesLedger;
  }

  lemma LeavingAdvancesStore(s: Backend, t: Backend, f: nat)
    requires f in s.items && Leaves(s, t, f) && s.items[f].run in s.store
    requires Terminal(s.store[s.items[f].run].status) ==>
              s.items[f].run in t.store && t.store[s.items[f].run] == s.store[s.items[f].run]
    ensures StoreAdvance(s, t)
  {
    hide LeavesLedger;
  }

  lemma LeavingAdvancesRefused(s: Backend, t: Backend, f: nat)
    requires Core(s) && Outstanding(s, f) && Leaves(s, t, f)
    ensures RefusedAdvance(s, t)
  {
    hide FuturesOk, UniqueOk, ItemsOk;
    forall k | k in s.refused && k in s.ledger ensures k in t.refused && k in t.ledger && t.ledger[k] == s.ledger[k] {
      assert s.items[f].key != Some(k);
    }
  }

  lemma LeavingSettles(s: Backend, t: Backend, f: nat)
    requires Core(s) && Outstanding(s, f) && Leaves(s, t, f) && s.items[f].run in s.store
    requires Terminal(s.store[s.items[f].run].status) ==>
              s.items[f].run in t.store && t.store[s.items[f].run] == s.store[s.items[f].run]
    ensures Settles(s, t)
  {
    hide Core, Leaves, FuturesAdvance, ItemsAdvance, StoreAdvance, RefusedAdvance;
    LeavingAdvances(s, t, f);
    LeavingAdvancesStore(s, t, f);
    LeavingAdvancesRefused(s, t, f);
  }

  /** A waiting item's run is live or CANCELLED, a running item's is live. */
  lemma OutstandingStatus(s: Backend, f: nat)
    requires Core(s) && Outstanding(s, f)
    ensures s.items[f].run in s.store
    ensures s.store[s.items[f].run].status in {Idle, PausedForHuman, Running}
            || (s.place[f] == InQueue && s.store[s.items[f].run].status == RunCancelled && Flagged(s, s.items[f].run))
  {
    hide UniqueOk, LedgerOk;
    assert FutureOk(s, f);
  }

  lemma DropFrontSettles(s: Backend)
    requires Body(s) && s.queue != []
    ensures Progress(s, DropFront(s))
  {
    hide Leaves, DropFront, Core, Settles, Flagged;
    DropFrontEffect(s);
    var f := s.queue[0].future;
    OutstandingStatus(s, f);
    LeavingSettles(s, DropFront(s), f);
    LeavingKeepsItemTable(s, DropFront(s), f);
  }

  lemma {:induction false} DrainAdvances(s: Backend)
    requires Body(s)
    ensures Progress(s, Drain(s))
    decreases |s.queue|
  {
    hide Body, DropFront, Progress;
    if s.queue == [] {
      Stays(s);
    } else {
      DropFrontSettles(s);
      DropFrontKeeps(s);
      DropFrontShrinks(s);
      DrainAdvances(DropFront(s));
      ProgressTransitive(s, DropFront(s), Drain(s));
    }
  }

  lemma Stays(s: Backend)
    ensures Progress(s, s)
  {
  }

  /** Worker `w` hands in: it is not busy afterwards, the others are as before. */
  lemma LeaveAdvances(s: Backend, t: Backend, w: nat)
    requires w < |s.workers| && s.workers[w].Busy? && t.workers == s.workers && t.killed == s.killed && Settles(s, t)
    requires t.capacity == s.capacity && t.concurrency == s.concurrency
    ensures Progress(s, Leave(t, w))
  {
    hide StoreAdvance, FuturesAdvance, ItemsAdvance, RefusedAdvance;
    SameSettles(s, t, Leave(t, w));
  }

  lemma SameSettles(s: Backend, t: Backend, u: Backend)
    requires Settles(s, t) && t.futures == u.futures && t.items == u.items && t.place == u.place && t.store == u.store
    requires t.refused == u.refused && t.ledger == u.ledger
    ensures Settles(s, u)
  {
  }

  /** The item of a busy worker. */
  lemma BusyItem(s: Backend, w: nat)
    requires Inv(s) && w < |s.workers| && s.workers[w].Busy?
    ensures var f := s.workers[w].item.future;
            Outstanding(s, f) && s.items[f] == s.workers[w].item && s.place[f] == AtWorker(w) && Core(s)
  {
    hide Core, QueueOk, ActiveOk, KilledOk, CountsOk, PhaseOk;
  }

  lemma FinishAdvances(s: Backend, w: nat, o: RuntimeOutcome)
    requires Inv(s) && CanStep(s, DoFinish(w, o))
    ensures Progress(s, Finish(s, w, o))
  {
    hide Inv, Core, Leaves, Settles, Progress, Flagged, Leave, ConcludeWith, ConcludeRaised, SetJob;
    BusyItem(s, w);
    var f := s.workers[w].item.future;
    OutstandingStatus(s, f);
    SettledLeaves(s, f, o);
    LeavingSettles(s, SettledBy(s, s.items[f], o), f);
    LeavingKeepsItemTable(s, SettledBy(s, s.items[f], o), f);
    LeaveAdvances(s, SettledBy(s, s.items[f], o), w);
  }

  lemma DeliverAdvances(s: Backend, w: nat)
    requires Inv(s) && CanStep(s, DoDeliver(w))
    ensures Progress(s, DeliverCancel(s, w))
  {
    hide Inv, Core, Leaves, Settles, Progress, Flagged, Leave, FinalizeCancelled;
    BusyItem(s, w);
    var f := s.workers[w].item.future;
    OutstandingStatus(s, f);
    FinalizeLeaves(s, f);
    LeavingSettles(s, FinalizeCancelled(s, s.items[f]), f);
    LeavingKeepsItemTable(s, FinalizeCancelled(s, s.items[f]), f);
    LeaveAdvances(s, FinalizeCancelled(s, s.items[f]), w);
  }

  lemma StartAdvances(s: Backend, w: nat)
    requires Inv(s) && w < |s.workers| && s.queue != [] && !Flagged(s, s.queue[0].run)
    ensures Progress(s, Take(s, w))
  {
    hide Inv, Core, Flagged, Take;
    FrontIsLive(s);
    InvHasCore(s);
    TakeStarts(s, w);
    OutstandingStatus(s, s.queue[0].future);
  }

  // ---- The other steps ----

  lemma AdmittingAdvances(s: Backend, t: Backend, item: Item)
    requires s.place.Keys == s.items.Keys && ItemsOk(s) && Admits(s, t, item) && AdmitsKey(s, t, item)
    requires item.run in s.store ==> t.store[item.run] == s.store[item.run]
    ensures Progress(s, t)
  {
  }

  lemma SubmitAdvances(s: Backend, run: RunId, hash: Hash, key: Option<Key>)
    requires Inv(s) && run !in s.store
    ensures Progress(s, SubmitRun(s, run, hash, key).0)
  {
    hide Inv, SubmitRun, Admits, AdmitsKey, Progress, FuturesOk, UniqueOk, LedgerOk;
    InvHasCore(s);
    if SubmissionAdmitted(s, hash, key) {
      SubmissionAdmits(s, run, hash, key);
      AdmittingAdvances(s, SubmitRun(s, run, hash, key).0, Item(run, StartRun, |s.futures|, key));
    } else if s.phase == Serving && key.Some? && key.value !in s.ledger {
      RefusalRefuses(s, run, hash, key.value);
      RefusalAdvances(s, SubmitRun(s, run, hash, key).0, key.value);
    } else {
      JoiningChangesNothing(s, run, hash, key);
      Stays(s);
    }
  }

  lemma RefusalAdvances(s: Backend, t: Backend, key: Key)
    requires Refuses(s, t, key) && SameFrame(s, t) && t.killed == s.killed
    ensures Progress(s, t)
  {
  }

  lemma ResumeAdvances(s: Backend, run: RunId)
    requires Inv(s)
    ensures Progress(s, SubmitResume(s, run).0)
  {
    hide Inv, Admits, AdmitsKey, Progress, FuturesOk, UniqueOk, LedgerOk;
    InvHasCore(s);
    if ResumeAdmitted(s, run) {
      ResumeAdmits(s, run);
      AdmittingAdvances(s, SubmitResume(s, run).0, Item(run, ResumeRun, |s.futures|, None));
    } else {
      Stays(s);
    }
  }

  lemma CancelStoredAdvances(s: Backend, run: RunId)
    requires run in s.store && !Terminal(s.store[run].status)
    ensures Progress(s, CancelStored(s, run))
  {
    hide SetJob;
  }

  lemma CancelActiveAdvances(s: Backend, run: RunId)
    requires run in s.active
    ensures Progress(s, CancelActive(s, run))
  {
  }

  lemma CancelAdvances(s: Backend, run: RunId)
    ensures Progress(s, CancelRun(s, run).0)
  {
    hide CancelStored, CancelActive, Progress;
    var s1 := Flag(s, run);
    FlagAdvances(s, run);
    if run in s1.active {
      CancelActiveAdvances(s1, run);
      ProgressTransitive(s, s1, CancelActive(s1, run));
    } else if run in s1.store && s1.store[run].status in {Idle, PausedForHuman, Running} {
      CancelStoredAdvances(s1, run);
      ProgressTransitive(s, s1, CancelStored(s1, run));
    }
  }

  lemma FlagAdvances(s: Backend, run: RunId)
    ensures Progress(s, Flag(s, run))
  {
  }

  lemma BeginShutdownAdvances(s: Backend)
    requires Inv(s) && s.phase == Serving
    ensures Progress(s, BeginShutdown(s))
  {
    hide Core, Drain;
    var s1 := s.(phase := Draining);
    SameCore(s, s1);
    DrainAdvances(s1);
    ProgressTransitive(s, s1, Drain(s1));
  }

  lemma StepAdvances(s: Backend, step: Step)
    requires Inv(s) && CanStep(s, step) && Legal(s, step)
    ensures Progress(s, DoStep(s, step))
  {
    hide Inv, Progress, RunOutstanding, SubmitRun, SubmitResume, CancelRun, Take, Finish, DeliverCancel,
        BeginShutdown, ForceStop;
    match step
    case DoSubmit(run, hash, key) => SubmitAdvances(s, run, hash, key);
    case DoResume(run) => ResumeAdvances(s, run);
    case DoCancel(run) => CancelAdvances(s, run);
    case DoTake(w) => TakeAdvances(s, w);
    case DoFinish(w, o) => FinishAdvances(s, w, o);
    case DoDeliver(w) => DeliverAdvances(s, w);
    case DoBeginShutdown => BeginShutdownAdvances(s);
    case DoForceStop => ForceStopAdvances(s);
  }

  lemma TakeAdvances(s: Backend, w: nat)
    requires Inv(s) && CanStep(s, DoTake(w))
    ensures Progress(s, Take(s, w))
  {
    hide Core, Progress, DropFront, QueueOk, WorkersOk, ActiveOk, KilledOk, CountsOk, PhaseOk;
    if Flagged(s, s.queue[0].run) {
      DropFrontSettles(s);
    } else {
      StartAdvances(s, w);
    }
  }

  lemma ForceStopAdvances(s: Backend)
    ensures Progress(s, ForceStop(s))
  {
  }

  /** Over any run of legal steps nothing settled is undone. */
  lemma {:induction false} RunsAdvance(s: Backend, steps: seq<Step>)
    requires Inv(s) && Allowed(s, steps)
    ensures Inv(After(s, steps)) && Progress(s, After(s, steps))
    decreases |steps|
  {
    hide Inv, DoStep, CanStep, Legal, Progress;
    if steps == [] {
      Stays(s);
    } else {
      StepKeeps(s, steps[0]);
      StepAdvances(s, steps[0]);
      RunsAdvance(DoStep(s, steps[0]), steps[1..]);
      ProgressTransitive(s, DoStep(s, steps[0]), After(s, steps));
    }
  }
}
