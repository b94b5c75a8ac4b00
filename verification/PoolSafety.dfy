/** The invariant of the execution backend and the proof that every legal step keeps it. */
module PoolSafety {
  import opened Workflow
  import opened Pool

  /** Item `f` was admitted and has not left the pool. */
  predicate Outstanding(s: Backend, f: nat) {
    f in s.items && f in s.place && s.place[f] != Finished
  }

  predicate RunOutstanding(s: Backend, run: RunId) {
    exists f | f in s.items :: Outstanding(s, f) && s.items[f].run == run
  }

  // ---- The invariant, in parts ----

  /** The queue holds the waiting items in the order they were admitted. */
  ghost predicate QueueOk(s: Backend) {
    && s.place.Keys == s.items.Keys
    && (forall i | 0 <= i < |s.queue| ::
          s.queue[i].future in s.items && s.items[s.queue[i].future] == s.queue[i]
              && s.place[s.queue[i].future] == InQueue)
    && (forall i, j | 0 <= i < j < |s.queue| :: s.queue[i].future < s.queue[j].future)
    && (forall f | f in s.place && s.place[f] == InQueue :: exists i :: 0 <= i < |s.queue| && s.queue[i].future == f)
  }

  ghost predicate WorkersOk(s: Backend) {
    && s.place.Keys == s.items.Keys
    && (forall w | 0 <= w < |s.workers| && s.workers[w].Busy? ::
          s.workers[w].item.future in s.items && s.items[s.workers[w].item.future] == s.workers[w].item
          && s.place[s.workers[w].item.future] == AtWorker(w))
    && (forall f | f in s.place && s.place[f].AtWorker? ::
          s.place[f].worker < |s.workers| && s.workers[s.place[f].worker].Busy?
              && s.workers[s.place[f].worker].item.future == f)
  }

  ghost predicate ActiveOk(s: Backend) {
    && (forall r | r in s.active ::
          s.active[r] < |s.workers| && s.workers[s.active[r]].Busy? && s.workers[s.active[r]].item.run == r)
    && (forall w | 0 <= w < |s.workers| && s.workers[w].Busy? ::
          s.workers[w].item.run in s.active && s.active[s.workers[w].item.run] == w)
  }

  /** At most one item of a run, and one of a key, is in the pool. */
  ghost predicate UniqueOk(s: Backend) {
    forall f, g | Outstanding(s, f) && Outstanding(s, g) && f != g ::
      s.items[f].run != s.items[g].run && (s.items[f].key.None? || s.items[f].key != s.items[g].key)
  }

  ghost predicate ItemsOk(s: Backend) {
    && (forall f | f in s.items ::
          f < |s.futures| && s.items[f].future == f && s.items[f].run in s.jobs && s.items[f].run in s.store
          && s.items[f].run in s.runFuture)
    && (forall r | r in s.runFuture :: s.runFuture[r] in s.items && s.items[s.runFuture[r]].run == r)
  }

  /** A waiting item's future is open unless its run was cancelled, and then the run is flagged; a running
      item's is open; an item that left has settled it. */
  ghost predicate FutureOk(s: Backend, f: nat)
    requires f in s.items && f in s.place && f < |s.futures| && s.items[f].run in s.store
              && s.items[f].run in s.runFuture
  {
    var run := s.items[f].run;
    match s.place[f]
    case InQueue =>
      && s.runFuture[run] == f
      && (s.futures[f].Open? <==> s.store[run].status != RunCancelled)
      && (s.store[run].status in {Idle, PausedForHuman, Running} || (s.store[run].status == RunCancelled
          && Flagged(s, run)))
      && (s.items[f].kind == StartRun ==> s.store[run].status in {Idle, RunCancelled})
    case AtWorker(_) => s.runFuture[run] == f && s.futures[f].Open? && s.store[run].status in {Idle, Running}
    case Finished => !s.futures[f].Open?
  }

  ghost predicate FuturesOk(s: Backend)
    requires ItemsOk(s) && s.place.Keys == s.items.Keys
  {
    forall f | f in s.items :: FutureOk(s, f)
  }

  /** An open record belongs to exactly one item in the pool, unless the full queue refused it; then
      nobody will ever settle its future. A completed record has a settled future. */
  ghost predicate LedgerOk(s: Backend) {
    && (forall k | k in s.ledger && s.ledger[k].completed ::
          s.ledger[k].future < |s.futures| && !s.futures[s.ledger[k].future].Open? && s.ledger[k].cached.Some?)
    && (forall k | k in s.ledger && !s.ledger[k].completed && k !in s.refused ::
          Outstanding(s, s.ledger[k].future) && s.items[s.ledger[k].future].key == Some(k))
    && (forall f | Outstanding(s, f) && s.items[f].key.Some? ::
          s.items[f].key.value in s.ledger && !s.ledger[s.items[f].key.value].completed
          && s.ledger[s.items[f].key.value].future == f)
    && (forall k | k in s.refused ::
          k in s.ledger && !s.ledger[k].completed && s.ledger[k].future !in s.items
          && s.ledger[k].future < |s.futures| && s.futures[s.ledger[k].future].Open?)
  }

  /** A run whose cancellation was accepted is stored CANCELLED, or is about to be: its call is being cancelled. */
  ghost predicate KilledOk(s: Backend) {
    forall r | r in s.killed ::
      && r in s.store
      && (s.store[r].status == RunCancelled
          || (r in s.active && s.active[r] < |s.workers| && s.workers[s.active[r]].Busy?
              && s.workers[s.active[r]].cancelling))
  }

  function BusyCount(workers: seq<Worker>): nat {
    if workers == [] then 0
    else BusyCount(workers[..|workers| - 1]) + (if workers[|workers| - 1].Busy? then 1 else 0)
  }

  ghost predicate CountsOk(s: Backend) {
    && s.put == |s.queue| + BusyCount(s.workers) + s.done
    && (s.capacity > 0 ==> |s.queue| <= s.capacity)
    && |s.workers| == s.concurrency
  }

  ghost predicate PhaseOk(s: Backend) {
    && (s.phase != Stopping ==> forall w | 0 <= w < |s.workers| :: s.workers[w].Resting? || s.workers[w].Busy?)
    && (s.phase == Stopping ==>
          forall w | 0 <= w < |s.workers| ::
            !s.workers[w].Resting? && (s.workers[w].Busy? ==> s.workers[w].cancelling))
  }

  ghost predicate Core(s: Backend) {
    && s.place.Keys == s.items.Keys
    && ItemsOk(s) && FuturesOk(s) && UniqueOk(s) && LedgerOk(s)
  }

  ghost predicate Body(s: Backend) {
    Core(s) && QueueOk(s) && WorkersOk(s) && ActiveOk(s) && KilledOk(s) && CountsOk(s) && PhaseOk(s)
  }

  /** Once shutdown has begun, nothing waits in the queue. */
  ghost predicate Inv(s: Backend) {
    Body(s) && (s.phase != Serving ==> s.queue == [])
  }

  /** What the callers owe the pool: new runs have new ids, and a run is resumed only while no item of it is in the
      pool. */
  predicate Legal(s: Backend, step: Step) {
    match step
    case DoSubmit(run, _, _) => run !in s.store
    case DoResume(run) => !RunOutstanding(s, run)
    case _ => true
  }

  // ---- Small facts ----

  lemma {:induction false} BusyCountUpdate(workers: seq<Worker>, w: nat, v: Worker)
    requires w < |workers|
    ensures BusyCount(workers[w := v]) + (if workers[w].Busy? then 1 else 0) ==
              BusyCount(workers) + (if v.Busy? then 1 else 0)
  {
    var n := |workers| - 1;
    if w == n {
      assert workers[w := v][..n] == workers[..n];
    } else {
      assert workers[w := v][..n] == workers[..n][w := v];
      BusyCountUpdate(workers[..n], w, v);
    }
  }

  lemma {:induction false} BusyCountNone(workers: seq<Worker>)
    requires forall w | 0 <= w < |workers| :: !workers[w].Busy?
    ensures BusyCount(workers) == 0
  {
    if workers != [] {
      BusyCountNone(workers[..|workers| - 1]);
    }
  }

  lemma {:induction false} BusyCountSame(a: seq<Worker>, b: seq<Worker>)
    requires |a| == |b| && forall w | 0 <= w < |a| :: a[w].Busy? <==> b[w].Busy?
    ensures BusyCount(a) == BusyCount(b)
  {
    if a != [] {
      BusyCountSame(a[..|a| - 1], b[..|b| - 1]);
    }
  }

  lemma InitialKeeps(capacity: nat, concurrency: nat)
    ensures Inv(Initial(capacity, concurrency))
  {
    BusyCountNone(Initial(capacity, concurrency).workers);
  }

  // ---- An item leaves the pool ----

  /** The record of the item's key, if it has one, is open and carries its future. */
  predicate OwnsRecord(s: Backend, item: Item) {
    item.key.Some? ==> item.key.value in s.ledger && s.ledger[item.key.value].future == item.future
  }

  lemma ConcludeWithEffect(s: Backend, item: Item, result: Stored)
    requires OwnsRecord(s, item)
    ensures ConcludeWith(s, item, result) ==
            s.(futures := SetIfOpen(s.futures, item.future, Result(result)),
               place := s.place[item.future := Finished],
               ledger := if item.key.Some? then s.ledger[item.key.value := s.ledger[item.key.value].(completed := true,
                   cached := Some(result))] else s.ledger,
               log := if item.key.Some? then s.log + [KeyCompleted(item.key.value, item.future)] else s.log)
  {
  }

  lemma ConcludeRaisedEffect(s: Backend, item: Item)
    requires OwnsRecord(s, item)
    ensures ConcludeRaised(s, item) ==
            s.(futures := SetIfOpen(s.futures, item.future, Raised),
               place := s.place[item.future := Finished],
               ledger := if item.key.Some? then s.ledger - {item.key.value} else s.ledger,
               log := if item.key.Some? then s.log + [KeyReleased(item.key.value, item.future)] else s.log)
  {
  }

  /** The parts of the state that settle when item `f` leaves; queue and workers are not looked at. */
  ghost predicate Leaves(s: Backend, t: Backend, f: nat)
    requires f in s.items
  {
    LeavesData(s, t, f) && LeavesLedger(s, t, f)
  }

  ghost predicate LeavesData(s: Backend, t: Backend, f: nat)
    requires f in s.items
  {
    var run := s.items[f].run;
    && t.items == s.items && t.place == s.place[f := Finished] && t.runFuture == s.runFuture
    && t.cancelledRuns == s.cancelledRuns && t.refused == s.refused && t.killed == s.killed
    && |t.futures| == |s.futures| && (f < |t.futures| ==>
        !t.futures[f].Open? && (s.futures[f].Open? || t.futures[f] == s.futures[f]))
    && (forall g | 0 <= g < |s.futures| && g != f :: t.futures[g] == s.futures[g])
    && t.store.Keys == s.store.Keys && (forall r | r in s.store && r != run :: t.store[r] == s.store[r])
    && t.jobs.Keys == s.jobs.Keys && (forall r | r in s.jobs && r != run :: t.jobs[r] == s.jobs[r])
  }

  ghost predicate LeavesLedger(s: Backend, t: Backend, f: nat)
    requires f in s.items
  {
    var key := s.items[f].key;
    && (key.None? ==> t.ledger == s.ledger)
    && (key.Some? ==>
          (forall k | k != key.value :: k in t.ledger <==> k in s.ledger)
          && (forall k | k in s.ledger && k != key.value :: t.ledger[k] == s.ledger[k])
          && (key.value in t.ledger ==>
                t.ledger[key.value].completed && t.ledger[key.value].future == f && t.ledger[key.value].cached.Some?))
  }

  /** A keyed item makes one ledger call when it leaves: its key is completed or released. */
  predicate LeavesLog(s: Backend, t: Backend, f: nat)
    requires f in s.items
  {
    match s.items[f].key
    case None => t.log == s.log
    case Some(k) => t.log == s.log + [if k in t.ledger then KeyCompleted(k, f) else KeyReleased(k, f)]
  }

  predicate CancelsStored(s: Backend, t: Backend, run: RunId) {
    run in s.store && run in t.store && t.store[run] == s.store[run].(status := RunCancelled)
  }

  lemma LeavingKeepsOutstanding(s: Backend, t: Backend, f: nat, g: nat)
    requires f in s.items && Leaves(s, t, f) && s.place.Keys == s.items.Keys
    ensures Outstanding(t, g) <==> Outstanding(s, g) && g != f
  {
  }

  lemma LeavingKeepsItems(s: Backend, t: Backend, f: nat)
    requires Core(s) && Outstanding(s, f) && Leaves(s, t, f)
    ensures t.place.Keys == t.items.Keys && ItemsOk(t)
  {
    hide FuturesOk, UniqueOk, LedgerOk;
  }

  lemma LeavingKeepsOther(s: Backend, t: Backend, f: nat, g: nat)
    requires f in s.items && LeavesData(s, t, f) && g in s.items && g in s.place && g != f && g < |s.futures|
    requires s.items[g].run in s.store && s.items[g].run in s.runFuture && s.items[g].run in s.jobs && FutureOk(s, g)
    requires s.items[g].run != s.items[f].run || s.place[g] == Finished
    ensures g in t.items && g in t.place && g < |t.futures| && t.items[g].run in t.store
              && t.items[g].run in t.runFuture && FutureOk(t, g)
  {
    var run := s.items[g].run;
    if run != s.items[f].run {
      assert t.store[run] == s.store[run] && t.jobs[run] == s.jobs[run];
    }
  }

  lemma LeavingKeepsFuture(s: Backend, t: Backend, f: nat, g: nat)
    requires Core(s) && Outstanding(s, f) && Leaves(s, t, f) && g in t.items
    requires t.place.Keys == t.items.Keys && ItemsOk(t)
    ensures FutureOk(t, g)
  {
    hide LedgerOk, LeavesLedger, FutureOk;
    if g == f {
      assert t.place[f] == Finished && !t.futures[f].Open?;
      FinishedFutureOk(t, f);
    } else {
      hide LeavesData;
      LeavingKeepsNames(s, t, f);
      LeavingKeepsOther(s, t, f, g);
    }
  }

  lemma FinishedFutureOk(t: Backend, f: nat)
    requires f in t.items && f in t.place && f < |t.futures| && t.items[f].run in t.store
              && t.items[f].run in t.runFuture
    requires t.place[f] == Finished && !t.futures[f].Open?
    ensures FutureOk(t, f)
  {
  }

  lemma LeavingKeepsUnique(s: Backend, t: Backend, f: nat)
    requires Core(s) && Outstanding(s, f) && Leaves(s, t, f)
    ensures UniqueOk(t)
  {
    forall g, h | Outstanding(t, g) && Outstanding(t, h) && g != h
      ensures t.items[g].run != t.items[h].run && (t.items[g].key.None? || t.items[g].key != t.items[h].key)
    {
      LeavingKeepsOutstanding(s, t, f, g);
      LeavingKeepsOutstanding(s, t, f, h);
    }
  }

  lemma LeavingKeepsRecord(s: Backend, t: Backend, f: nat, k: Key)
    requires Core(s) && Outstanding(s, f) && Leaves(s, t, f) && k in t.ledger && k !in s.refused
              && !t.ledger[k].completed
    ensures Outstanding(t, t.ledger[k].future) && t.items[t.ledger[k].future].key == Some(k)
  {
    hide FuturesOk, UniqueOk, ItemsOk;
    assert Outstanding(s, s.ledger[k].future) && s.items[s.ledger[k].future].key == Some(k);
    LeavingKeepsOutstanding(s, t, f, s.ledger[k].future);
  }

  lemma LeavingKeepsOwner(s: Backend, t: Backend, f: nat, g: nat)
    requires Core(s) && Outstanding(s, f) && Leaves(s, t, f) && Outstanding(t, g) && t.items[g].key.Some?
    ensures t.items[g].key.value in t.ledger && !t.ledger[t.items[g].key.value].completed
              && t.ledger[t.items[g].key.value].future == g
  {
    hide FuturesOk, ItemsOk;
    LeavingKeepsOutstanding(s, t, f, g);
  }

  lemma LeavingKeepsSettled(s: Backend, t: Backend, f: nat, k: Key)
    requires Core(s) && Outstanding(s, f) && Leaves(s, t, f) && k in t.ledger && t.ledger[k].completed
    ensures t.ledger[k].future < |t.futures| && !t.futures[t.ledger[k].future].Open? && t.ledger[k].cached.Some?
  {
    hide FuturesOk, UniqueOk;
    assert s.items[f].key != Some(k) ==> t.ledger[k] == s.ledger[k];
  }

  lemma LeavingKeepsRefused(s: Backend, t: Backend, f: nat, k: Key)
    requires Core(s) && Outstanding(s, f) && Leaves(s, t, f) && k in t.refused
    ensures k in t.ledger && !t.ledger[k].completed && t.ledger[k].future !in t.items
    ensures t.ledger[k].future < |t.futures| && t.futures[t.ledger[k].future].Open?
  {
    hide FuturesOk, UniqueOk;
    assert s.items[f].key != Some(k);
  }

  lemma LeavingKeepsLedger(s: Backend, t: Backend, f: nat)
    requires Core(s) && Outstanding(s, f) && Leaves(s, t, f)
    ensures LedgerOk(t)
  {
    hide Core, Leaves;
    assert f in s.items;
    forall k | k in t.ledger && t.ledger[k].completed
      ensures t.ledger[k].future < |t.futures| && !t.futures[t.ledger[k].future].Open? && t.ledger[k].cached.Some?
    {
      LeavingKeepsSettled(s, t, f, k);
    }
    LeavingKeepsNames(s, t, f);
    forall k | k in t.ledger && !t.ledger[k].completed && k !in t.refused
      ensures Outstanding(t, t.ledger[k].future) && t.items[t.ledger[k].future].key == Some(k)
    {
      LeavingKeepsRecord(s, t, f, k);
    }
    forall g | Outstanding(t, g) && t.items[g].key.Some?
      ensures t.items[g].key.value in t.ledger && !t.ledger[t.items[g].key.value].completed
                && t.ledger[t.items[g].key.value].future == g
    {
      LeavingKeepsOwner(s, t, f, g);
    }
    forall k | k in t.refused
      ensures k in t.ledger && !t.ledger[k].completed && t.ledger[k].future !in t.items
      ensures t.ledger[k].future < |t.futures| && t.futures[t.ledger[k].future].Open?
    {
      LeavingKeepsRefused(s, t, f, k);
    }
  }

  lemma LeavingKeepsNames(s: Backend, t: Backend, f: nat)
    requires f in s.items && Leaves(s, t, f)
    ensures t.refused == s.refused && t.items == s.items
  {
  }

  lemma LeavingKeepsCore(s: Backend, t: Backend, f: nat)
    requires Core(s) && Outstanding(s, f) && Leaves(s, t, f)
    ensures Core(t)
  {
    hide Leaves, LedgerOk, UniqueOk, FutureOk, Outstanding;
    LeavingKeepsItems(s, t, f);
    LeavingKeepsUnique(s, t, f);
    LeavingKeepsLedger(s, t, f);
    forall g | g in t.items ensures FutureOk(t, g) {
      LeavingKeepsFuture(s, t, f, g);
    }
  }

  // ---- Dropping the first item ----

  lemma DequeueKeeps(s: Backend, t: Backend, p: Place)
    requires QueueOk(s) && s.queue != [] && p != InQueue
    requires t.queue == s.queue[1..] && t.items == s.items && t.place == s.place[s.queue[0].future := p]
    ensures QueueOk(t)
  {
    forall f | f in t.place && t.place[f] == InQueue ensures exists i :: 0 <= i < |t.queue| && t.queue[i].future == f {
      assert s.place[f] == InQueue;
      var i :| 0 <= i < |s.queue| && s.queue[i].future == f;
      assert t.queue[i - 1].future == f;
    }
  }

  lemma FinalizeEffect(s: Backend, item: Item)
    requires OwnsRecord(s, item) && item.run in s.jobs && item.run in s.store
    ensures var st := s.store[item.run].(status := RunCancelled);
            FinalizeCancelled(s, item) ==
            s.(jobs := s.jobs[item.run := Job(JobCancelled, true)], store := s.store[item.run := st],
               futures := SetIfOpen(s.futures, item.future, Result(st)), place := s.place[item.future := Finished],
               ledger := if item.key.Some? then s.ledger[item.key.value := s.ledger[item.key.value].(completed := true,
                   cached := Some(st))] else s.ledger,
               log := if item.key.Some? then s.log + [KeyCompleted(item.key.value, item.future)] else s.log)
  {
    var st := s.store[item.run].(status := RunCancelled);
    ConcludeWithEffect(s.(jobs := s.jobs[item.run := Job(JobCancelled, true)], store := s.store[item.run := st]), item,
        st);
  }

  /** What the pool knows about an item that is in it. */
  lemma OutstandingFacts(s: Backend, f: nat)
    requires Core(s) && Outstanding(s, f)
    ensures f < |s.futures| && s.items[f].future == f && s.items[f].run in s.jobs && s.items[f].run in s.store
    ensures OwnsRecord(s, s.items[f]) && FutureOk(s, f)
  {
  }

  /** Fields that settling an item does not touch. */
  predicate SameFrame(s: Backend, t: Backend) {
    && t.queue == s.queue && t.workers == s.workers && t.active == s.active && t.phase == s.phase
    && t.capacity == s.capacity && t.concurrency == s.concurrency && t.put == s.put && t.done == s.done
    && t.sentinels == s.sentinels
  }

  lemma FinalizeLeaves(s: Backend, f: nat)
    requires Core(s) && Outstanding(s, f)
    ensures var t := FinalizeCancelled(s, s.items[f]);
            && Leaves(s, t, f) && SameFrame(s, t) && LeavesLog(s, t, f) && CancelsStored(s, t, s.items[f].run)
  {
    hide UniqueOk, FuturesOk, LedgerOk, FinalizeCancelled;
    OutstandingFacts(s, f);
    FinalizeEffect(s, s.items[f]);
  }

  /** The fields the core is about are the same. */
  predicate SameSettlement(s: Backend, t: Backend) {
    && t.items == s.items && t.place == s.place && t.futures == s.futures && t.runFuture == s.runFuture
    && t.store == s.store && t.jobs == s.jobs && t.cancelledRuns == s.cancelledRuns
    && t.ledger == s.ledger && t.refused == s.refused && t.killed == s.killed
  }

  lemma SameLeaves(s: Backend, s1: Backend, t1: Backend, t: Backend, f: nat)
    requires SameSettlement(s, s1) && SameSettlement(t1, t) && f in s1.items && Leaves(s1, t1, f)
    ensures Leaves(s, t, f)
    ensures s1.log == s.log && t.log == t1.log && LeavesLog(s1, t1, f) ==> LeavesLog(s, t, f)
  {
  }

  lemma DropFrontEffect(s: Backend)
    requires Body(s) && s.queue != []
    ensures var f := s.queue[0].future;
            var t := DropFront(s);
            && Outstanding(s, f) && s.items[f] == s.queue[0] && Leaves(s, t, f)
            && SameFrame(s.(queue := s.queue[1..], done := s.done + 1), t)
            && LeavesLog(s, t, f) && CancelsStored(s, t, s.items[f].run)
  {
    hide FutureOk, UniqueOk, LedgerOk, WorkersOk, ActiveOk, KilledOk, CountsOk, PhaseOk, FinalizeCancelled, Leaves;
    var f := s.queue[0].future;
    var s1 := s.(queue := s.queue[1..]);
    SameCore(s, s1);
    FinalizeLeaves(s1, f);
    SameLeaves(s, s1, FinalizeCancelled(s1, s.queue[0]), DropFront(s), f);
  }

  /** The queue, the workers and the counters are not part of the core. */
  lemma SameCore(s: Backend, t: Backend)
    requires Core(s) && SameSettlement(s, t)
    ensures Core(t)
  {
    hide UniqueOk;
    forall f | f in t.items ensures FutureOk(t, f) {
      assert FutureOk(s, f);
    }
    assert UniqueOk(t) by {
      SameUnique(s, t);
    }
  }

  lemma SameUnique(s: Backend, t: Backend)
    requires UniqueOk(s) && t.items == s.items && t.place == s.place
    ensures UniqueOk(t)
  {
    forall f, g | Outstanding(t, f) && Outstanding(t, g) && f != g
      ensures t.items[f].run != t.items[g].run && (t.items[f].key.None? || t.items[f].key != t.items[g].key)
    {
      assert Outstanding(s, f) && Outstanding(s, g);
    }
  }

  lemma DropFrontKeeps(s: Backend)
    requires Body(s) && s.queue != []
    ensures Body(DropFront(s))
  {
    hide Leaves, DropFront, FutureOk, UniqueOk, LedgerOk, ItemsOk, FuturesOk;
    DropFrontEffect(s);
    var f, t := s.queue[0].future, DropFront(s);
    LeavingKeepsItemTable(s, t, f);
    LeavingKeepsCore(s, t, f);
    DequeueKeeps(s, t, Finished);
    LeavingKeepsKilled(s, t, f);
  }

  lemma LeavingKeepsItemTable(s: Backend, t: Backend, f: nat)
    requires f in s.items && Leaves(s, t, f)
    ensures t.items == s.items && t.place == s.place[f := Finished] && t.killed == s.killed
              && t.store.Keys == s.store.Keys
    ensures forall r | r in s.store && r != s.items[f].run :: t.store[r] == s.store[r]
  {
  }

  lemma LeavingKeepsKilled(s: Backend, t: Backend, f: nat)
    requires f in s.items && Leaves(s, t, f) && KilledOk(s) && t.active == s.active && t.workers == s.workers
    requires t.items[f].run in t.store && t.store[t.items[f].run].status == RunCancelled
    ensures KilledOk(t)
  {
  }

  // ---- Worker steps ----

  lemma LeaveKeepsQueue(s: Backend, r: Backend, f: nat)
    requires QueueOk(s) && f in s.place && s.place[f] != InQueue
    requires r.items == s.items && r.place == s.place[f := Finished] && r.queue == s.queue
    ensures QueueOk(r)
  {
    forall g | g in r.place && r.place[g] == InQueue ensures exists i :: 0 <= i < |r.queue| && r.queue[i].future == g {
      assert s.place[g] == InQueue;
    }
  }

  lemma LeaveKeepsWorkers(s: Backend, r: Backend, f: nat, w: nat, v: Worker)
    requires WorkersOk(s) && w < |s.workers| && s.workers[w].Busy? && f == s.workers[w].item.future && !v.Busy?
    requires r.items == s.items && r.place == s.place[f := Finished] && r.workers == s.workers[w := v]
    ensures WorkersOk(r)
  {
    forall u | 0 <= u < |r.workers| && r.workers[u].Busy?
      ensures r.workers[u].item.future in r.items && r.items[r.workers[u].item.future] == r.workers[u].item
      ensures r.place[r.workers[u].item.future] == AtWorker(u)
    {
      assert u != w && r.workers[u] == s.workers[u];
      assert s.place[s.workers[u].item.future] == AtWorker(u);
    }
    forall g | g in r.place && r.place[g].AtWorker?
      ensures r.place[g].worker < |r.workers| && r.workers[r.place[g].worker].Busy?
                && r.workers[r.place[g].worker].item.future == g
    {
      assert g != f && s.place[g] == r.place[g];
    }
  }

  lemma LeaveKeepsActive(s: Backend, r: Backend, w: nat, v: Worker)
    requires ActiveOk(s) && w < |s.workers| && s.workers[w].Busy? && !v.Busy?
    requires r.workers == s.workers[w := v] && r.active == s.active - {s.workers[w].item.run}
    ensures ActiveOk(r)
  {
    forall u | 0 <= u < |r.workers| && r.workers[u].Busy?
      ensures r.workers[u].item.run in r.active && r.active[r.workers[u].item.run] == u
    {
      assert u != w && r.workers[u] == s.workers[u];
      assert s.active[s.workers[u].item.run] == u;
    }
  }

  lemma LeaveKeepsKilled(s: Backend, r: Backend, w: nat, v: Worker)
    requires ActiveOk(s) && KilledOk(s) && w < |s.workers| && s.workers[w].Busy?
    requires r.workers == s.workers[w := v] && r.active == s.active - {s.workers[w].item.run} && r.killed == s.killed
    requires r.store.Keys == s.store.Keys && forall x | x in s.store && x != s.workers[w].item.run ::
              r.store[x] == s.store[x]
    requires s.workers[w].item.run in s.killed ==>
              s.workers[w].item.run in r.store && r.store[s.workers[w].item.run].status == RunCancelled
    ensures KilledOk(r)
  {
    forall x | x in r.killed
      ensures x in r.store
      ensures r.store[x].status == RunCancelled
              || (x in r.active && r.active[x] < |r.workers| && r.workers[r.active[x]].Busy?
                  && r.workers[r.active[x]].cancelling)
    {
      if x != s.workers[w].item.run && x in s.active {
        assert s.active[x] != w;
      }
    }
  }

  /** Worker `w` hands in its item after settling it. */
  lemma LeaveKeeps(s: Backend, t: Backend, w: nat)
    requires Body(s) && w < |s.workers| && s.workers[w].Busy?
    requires s.workers[w].item.future in s.items && Leaves(s, t, s.workers[w].item.future) && SameFrame(s, t)
    requires s.workers[w].item.run in s.killed ==>
               s.workers[w].item.run in t.store && t.store[s.workers[w].item.run].status == RunCancelled
    ensures Body(Leave(t, w))
  {
    hide Leaves, FutureOk, UniqueOk, LedgerOk, ItemsOk, FuturesOk, QueueOk, ActiveOk, KilledOk;
    var f := s.workers[w].item.future;
    var r := Leave(t, w);
    var v := r.workers[w];
    assert s.items[f] == s.workers[w].item;
    LeavingKeepsItemTable(s, t, f);
    LeavingKeepsCore(s, t, f);
    SameCore(t, r);
    BusyCountUpdate(s.workers, w, v);
    LeaveKeepsQueue(s, r, f);
    LeaveKeepsWorkers(s, r, f, w, v);
    LeaveKeepsActive(s, r, w, v);
    LeaveKeepsKilled(s, r, w, v);
  }

  /** The state in which worker `w` hands in its item after the runtime call came back. */
  function SettledBy(s: Backend, item: Item, o: RuntimeOutcome): Backend {
    match o
    case Returned(st) => ConcludeWith(s.(store := s.store[item.run := st],
        jobs := SetJob(s.jobs, item.run, JobAfter(st.status))), item, st)
    case Threw => ConcludeRaised(s.(jobs := SetJob(s.jobs, item.run, JobFailed)), item)
  }

  lemma ReturnedLeaves(s: Backend, f: nat, st: Stored)
    requires Core(s) && Outstanding(s, f)
    ensures var t := SettledBy(s, s.items[f], Returned(st)); Leaves(s, t, f) && SameFrame(s, t) && LeavesLog(s, t, f)
  {
    hide UniqueOk, FuturesOk, LedgerOk, ConcludeWith, SetJob;
    OutstandingFacts(s, f);
    var item := s.items[f];
    ConcludeWithEffect(s.(store := s.store[item.run := st], jobs := SetJob(s.jobs, item.run, JobAfter(st.status))),
        item, st);
  }

  lemma ThrewLeaves(s: Backend, f: nat)
    requires Core(s) && Outstanding(s, f)
    ensures var t := SettledBy(s, s.items[f], Threw); Leaves(s, t, f) && SameFrame(s, t) && LeavesLog(s, t, f)
  {
    hide UniqueOk, FuturesOk, LedgerOk, ConcludeRaised, SetJob;
    OutstandingFacts(s, f);
    var item := s.items[f];
    ConcludeRaisedEffect(s.(jobs := SetJob(s.jobs, item.run, JobFailed)), item);
  }

  lemma SettledLeaves(s: Backend, f: nat, o: RuntimeOutcome)
    requires Core(s) && Outstanding(s, f)
    ensures var t := SettledBy(s, s.items[f], o); Leaves(s, t, f) && SameFrame(s, t) && LeavesLog(s, t, f)
  {
    hide Core, Leaves, LeavesLog, SettledBy;
    match o
    case Returned(st) => ReturnedLeaves(s, f, st);
    case Threw => ThrewLeaves(s, f);
  }

  /** A run whose worker is not being cancelled was never killed. */
  lemma BusyIsNotKilled(s: Backend, w: nat)
    requires Inv(s) && w < |s.workers| && s.workers[w].Busy? && !s.workers[w].cancelling
    ensures s.workers[w].item.run !in s.killed && Outstanding(s, s.workers[w].item.future)
  {
    hide UniqueOk, QueueOk, LedgerOk, CountsOk, PhaseOk;
    var item := s.workers[w].item;
    assert FutureOk(s, item.future);
    assert s.active[item.run] == w;
  }

  lemma FinishKeeps(s: Backend, w: nat, o: RuntimeOutcome)
    requires Inv(s) && CanStep(s, DoFinish(w, o))
    ensures Inv(Finish(s, w, o))
  {
    hide Core, QueueOk, ActiveOk, KilledOk, CountsOk, PhaseOk, ConcludeWith, ConcludeRaised, SetJob, Leave, Leaves;
    var item := s.workers[w].item;
    BusyIsNotKilled(s, w);
    SettledLeaves(s, item.future, o);
    LeaveKeeps(s, SettledBy(s, item, o), w);
    LeaveFrame(SettledBy(s, item, o), w);
  }

  lemma LeaveFrame(s: Backend, w: nat)
    requires w < |s.workers| && s.workers[w].Busy?
    ensures Leave(s, w).queue == s.queue && Leave(s, w).phase == s.phase
  {
  }

  lemma DeliverKeeps(s: Backend, w: nat)
    requires Inv(s) && CanStep(s, DoDeliver(w))
    ensures Inv(DeliverCancel(s, w))
  {
    hide Core, QueueOk, ActiveOk, KilledOk, CountsOk, PhaseOk, FinalizeCancelled, Leave, Leaves;
    var item := s.workers[w].item;
    FinalizeLeaves(s, item.future);
    LeaveKeeps(s, FinalizeCancelled(s, item), w);
    LeaveFrame(FinalizeCancelled(s, item), w);
  }

  // ---- Starting the runtime ----

  lemma ActiveItem(s: Backend, run: RunId) returns (f: nat)
    requires WorkersOk(s) && ActiveOk(s) && run in s.active
    ensures Outstanding(s, f) && s.place[f].AtWorker? && s.items[f].run == run
  {
    f := s.workers[s.active[run]].item.future;
  }

  /** The first item belongs to a live run that nobody works on. */
  ghost predicate FrontLive(s: Backend) {
    && s.queue != []
    && var item := s.queue[0];
       && item.future in s.items && s.items[item.future] == item && item.future in s.place
           && s.place[item.future] == InQueue
       && item.future < |s.futures| && s.futures[item.future].Open?
       && item.run !in s.active && item.run !in s.killed && item.run in s.store && item.run in s.runFuture
       && s.runFuture[item.run] == item.future
       && (item.kind == StartRun ==> s.store[item.run].status == Idle)
       && (forall g | Outstanding(s, g) && g != item.future :: s.items[g].run != item.run)
  }

  lemma FrontIsLive(s: Backend)
    requires Inv(s) && s.queue != [] && !Flagged(s, s.queue[0].run)
    ensures FrontLive(s)
  {
    hide LedgerOk, CountsOk, PhaseOk;
    var item := s.queue[0];
    assert FutureOk(s, item.future);
    assert Outstanding(s, item.future);
    if item.run in s.active {
      var f := ActiveItem(s, item.run);
      assert false;
    }
  }

  /** Worker `w` starts the first item. */
  predicate StartsFront(s: Backend, t: Backend, w: nat)
    requires s.queue != []
  {
    var item := s.queue[0];
    && t.items == s.items && t.place == s.place[item.future := AtWorker(w)] && t.futures == s.futures
    && t.runFuture == s.runFuture && t.cancelledRuns == s.cancelledRuns && t.ledger == s.ledger
        && t.refused == s.refused
    && t.jobs.Keys == s.jobs.Keys && (forall r | r in s.jobs && r != item.run :: t.jobs[r] == s.jobs[r])
    && t.store == (if item.kind == ResumeRun then s.store[item.run := Stored(Running, true)] else s.store)
    && t.queue == s.queue[1..] && t.active == s.active[item.run := w] && t.killed == s.killed
    && (w < |s.workers| ==> t.workers == s.workers[w := Busy(item, false)])
    && t.phase == s.phase && t.capacity == s.capacity && t.concurrency == s.concurrency && t.put == s.put
        && t.done == s.done
  }

  lemma TakeStarts(s: Backend, w: nat)
    requires s.queue != [] && w < |s.workers| && !Flagged(s, s.queue[0].run)
    ensures StartsFront(s, Take(s, w), w)
  {
    hide SetJob;
  }

  lemma StartKeepsFuture(s: Backend, t: Backend, w: nat, g: nat)
    requires FrontLive(s) && StartsFront(s, t, w) && g in s.items && s.place.Keys == s.items.Keys && ItemsOk(s)
    requires FutureOk(s, g)
    ensures t.place.Keys == t.items.Keys && ItemsOk(t) && FutureOk(t, g)
  {
    if Outstanding(s, g) && g != s.queue[0].future {
      assert s.items[g].run != s.queue[0].run;
    }
  }

  lemma StartKeepsPairs(s: Backend, t: Backend, w: nat)
    requires UniqueOk(s) && LedgerOk(s) && FrontLive(s) && StartsFront(s, t, w)
    ensures UniqueOk(t) && LedgerOk(t)
  {
    assert forall g :: Outstanding(t, g) <==> Outstanding(s, g);
  }

  lemma StartKeepsCore(s: Backend, t: Backend, w: nat)
    requires Core(s) && FrontLive(s) && StartsFront(s, t, w)
    ensures Core(t)
  {
    hide LedgerOk, UniqueOk, FutureOk, FrontLive, StartsFront, ItemsOk;
    StartKeepsPairs(s, t, w);
    StartKeepsTable(s, t, w);
    forall g | g in t.items ensures FutureOk(t, g) {
      StartKeepsFuture(s, t, w, g);
    }
  }

  lemma StartKeepsTable(s: Backend, t: Backend, w: nat)
    requires s.place.Keys == s.items.Keys && ItemsOk(s) && FrontLive(s) && StartsFront(s, t, w)
    ensures t.items == s.items && t.place.Keys == t.items.Keys && ItemsOk(t)
  {
  }

  lemma StartKeepsWorkers(s: Backend, t: Backend, w: nat)
    requires WorkersOk(s) && w < |s.workers| && s.workers[w].Resting? && FrontLive(s) && StartsFront(s, t, w)
    ensures WorkersOk(t)
  {
    forall u | 0 <= u < |t.workers| && t.workers[u].Busy?
      ensures t.workers[u].item.future in t.items && t.items[t.workers[u].item.future] == t.workers[u].item
      ensures t.place[t.workers[u].item.future] == AtWorker(u)
    {
      assert u != w ==> t.workers[u] == s.workers[u] && s.place[s.workers[u].item.future] == AtWorker(u);
    }
    forall g | g in t.place && t.place[g].AtWorker?
      ensures t.place[g].worker < |t.workers| && t.workers[t.place[g].worker].Busy?
                && t.workers[t.place[g].worker].item.future == g
    {
      assert g != s.queue[0].future ==> t.place[g] == s.place[g];
    }
  }

  lemma StartKeepsActive(s: Backend, t: Backend, w: nat)
    requires ActiveOk(s) && w < |s.workers| && s.workers[w].Resting? && FrontLive(s) && StartsFront(s, t, w)
    ensures ActiveOk(t)
  {
    forall u | 0 <= u < |t.workers| && t.workers[u].Busy?
      ensures t.workers[u].item.run in t.active && t.active[t.workers[u].item.run] == u
    {
      assert u != w ==> t.workers[u] == s.workers[u];
    }
  }

  lemma StartKeepsKilled(s: Backend, t: Backend, w: nat)
    requires KilledOk(s) && ActiveOk(s) && w < |s.workers| && s.workers[w].Resting? && FrontLive(s)
              && StartsFront(s, t, w)
    ensures KilledOk(t)
  {
  }

  lemma StartKeepsCounts(s: Backend, t: Backend, w: nat)
    requires CountsOk(s) && PhaseOk(s) && w < |s.workers| && s.workers[w].Resting? && FrontLive(s)
              && StartsFront(s, t, w)
    ensures CountsOk(t) && PhaseOk(t) && |t.queue| == |s.queue| - 1 && t.phase == s.phase
  {
    BusyCountUpdate(s.workers, w, Busy(s.queue[0], false));
  }

  lemma StartKeepsQueue(s: Backend, t: Backend, w: nat)
    requires QueueOk(s) && FrontLive(s) && StartsFront(s, t, w)
    ensures QueueOk(t)
  {
    DequeueKeeps(s, t, AtWorker(w));
  }

  lemma TakeKeeps(s: Backend, w: nat)
    requires Inv(s) && CanStep(s, DoTake(w))
    ensures Inv(Take(s, w))
  {
    hide Core, QueueOk, WorkersOk, ActiveOk, KilledOk, CountsOk, PhaseOk, FrontLive, StartsFront, DropFront;
    if Flagged(s, s.queue[0].run) {
      DropFrontKeeps(s);
      DropFrontEffect(s);
    } else {
      FrontIsLive(s);
      TakeStarts(s, w);
      var t := Take(s, w);
      StartKeepsCore(s, t, w);
      StartKeepsQueue(s, t, w);
      StartKeepsWorkers(s, t, w);
      StartKeepsActive(s, t, w);
      StartKeepsKilled(s, t, w);
      StartKeepsCounts(s, t, w);
    }
  }

  // ---- Admitting an item ----

  predicate Startable(st: Stored, kind: Kind) {
    if kind == StartRun then st.status == Idle else st.status in {Idle, PausedForHuman, Running}
  }

  /** A new item with a new open future joins the queue; only its own run and key are touched. */
  ghost predicate Admits(s: Backend, t: Backend, item: Item) {
    AdmitsItem(s, t, item) && AdmitsRun(s, t, item) && AdmitsFrame(s, t)
  }

  predicate AdmitsItem(s: Backend, t: Backend, item: Item) {
    && item.future == |s.futures| && t.futures == s.futures + [Open]
    && t.items == s.items[item.future := item] && t.place == s.place[item.future := InQueue]
        && t.queue == s.queue + [item]
    && t.runFuture == s.runFuture[item.run := item.future]
  }

  ghost predicate AdmitsRun(s: Backend, t: Backend, item: Item) {
    && item.run in t.store && Startable(t.store[item.run], item.kind)
    && t.store.Keys == s.store.Keys + {item.run}
        && (forall r | r in s.store && r != item.run :: t.store[r] == s.store[r])
    && t.jobs.Keys == s.jobs.Keys + {item.run} && (forall r | r in s.jobs && r != item.run :: t.jobs[r] == s.jobs[r])
    && (forall r | r != item.run :: r in t.cancelledRuns <==> r in s.cancelledRuns)
  }

  predicate AdmitsFrame(s: Backend, t: Backend) {
    && t.refused == s.refused && t.killed == s.killed && t.workers == s.workers && t.active == s.active
    && t.phase == s.phase && t.capacity == s.capacity && t.concurrency == s.concurrency && t.put == s.put + 1
        && t.done == s.done
  }

  predicate AdmitsKey(s: Backend, t: Backend, item: Item) {
    if item.key.None? then t.ledger == s.ledger
    else
      && item.key.value !in s.ledger && item.key.value in t.ledger
      && t.ledger == s.ledger[item.key.value := t.ledger[item.key.value]]
      && t.ledger[item.key.value].future == item.future && !t.ledger[item.key.value].completed
  }

  predicate NotInPool(s: Backend, run: RunId) {
    forall g | g in s.items && Outstanding(s, g) :: s.items[g].run != run
  }

  lemma AdmitKeepsOutstanding(s: Backend, t: Backend, item: Item, g: nat)
    requires s.place.Keys == s.items.Keys && ItemsOk(s) && AdmitsItem(s, t, item)
    ensures item.future !in s.items && t.place.Keys == t.items.Keys
    ensures Outstanding(t, g) <==> g == item.future || Outstanding(s, g)
    ensures g in t.items ==> t.items[g] == if g == item.future then item else s.items[g]
  {
  }

  lemma AdmitKeepsItems(s: Backend, t: Backend, item: Item)
    requires s.place.Keys == s.items.Keys && ItemsOk(s) && Admits(s, t, item)
    ensures t.place.Keys == t.items.Keys && ItemsOk(t) && item.future !in s.items
  {
  }

  lemma AdmitKeepsFuture(s: Backend, t: Backend, item: Item, g: nat)
    requires s.place.Keys == s.items.Keys && ItemsOk(s) && Admits(s, t, item) && NotInPool(s, item.run)
    requires g in t.items && t.place.Keys == t.items.Keys && ItemsOk(t)
    requires g in s.items ==> FutureOk(s, g)
    ensures FutureOk(t, g)
  {
    if g in s.items && Outstanding(s, g) {
      assert s.items[g].run != item.run;
    }
  }

  lemma AdmitKeyIsNew(s: Backend, t: Backend, item: Item, g: nat)
    requires LedgerOk(s) && AdmitsKey(s, t, item) && Outstanding(s, g) && item.key.Some?
    ensures s.items[g].key != item.key
  {
  }

  lemma AdmitKeepsUnique(s: Backend, t: Backend, item: Item)
    requires s.place.Keys == s.items.Keys && ItemsOk(s) && UniqueOk(s) && AdmitsItem(s, t, item)
              && NotInPool(s, item.run)
    requires AdmitsKey(s, t, item) && LedgerOk(s)
    ensures UniqueOk(t)
  {
    hide LedgerOk, ItemsOk, AdmitsItem, AdmitsKey;
    forall f, g | Outstanding(t, f) && Outstanding(t, g) && f != g
      ensures t.items[f].run != t.items[g].run && (t.items[f].key.None? || t.items[f].key != t.items[g].key)
    {
      AdmitKeepsOutstanding(s, t, item, f);
      AdmitKeepsOutstanding(s, t, item, g);
      if item.key.Some? {
        if f == item.future {
          AdmitKeyIsNew(s, t, item, g);
        } else if g == item.future {
          AdmitKeyIsNew(s, t, item, f);
        }
      }
    }
  }

  lemma AdmitKeepsRecord(s: Backend, t: Backend, item: Item, k: Key)
    requires s.place.Keys == s.items.Keys && ItemsOk(s) && LedgerOk(s) && AdmitsItem(s, t, item)
              && AdmitsKey(s, t, item)
    requires k in t.ledger && !t.ledger[k].completed && k !in s.refused
    ensures Outstanding(t, t.ledger[k].future) && t.items[t.ledger[k].future].key == Some(k)
  {
    hide ItemsOk, AdmitsItem;
    AdmitKeepsOutstanding(s, t, item, t.ledger[k].future);
    AdmitKeepsOutstanding(s, t, item, item.future);
    assert AdmitsItem(s, t, item);
  }

  lemma AdmitKeepsOwner(s: Backend, t: Backend, item: Item, g: nat)
    requires s.place.Keys == s.items.Keys && ItemsOk(s) && LedgerOk(s) && AdmitsItem(s, t, item)
              && AdmitsKey(s, t, item)
    requires Outstanding(t, g) && t.items[g].key.Some?
    ensures t.items[g].key.value in t.ledger && !t.ledger[t.items[g].key.value].completed
              && t.ledger[t.items[g].key.value].future == g
  {
    hide ItemsOk, AdmitsItem;
    AdmitKeepsOutstanding(s, t, item, g);
  }

  lemma AdmitKeepsSettled(s: Backend, t: Backend, item: Item, k: Key)
    requires LedgerOk(s) && ItemsOk(s) && AdmitsItem(s, t, item) && AdmitsKey(s, t, item) && k in t.ledger
    ensures t.ledger[k].completed ==>
              t.ledger[k].future < |t.futures| && !t.futures[t.ledger[k].future].Open? && t.ledger[k].cached.Some?
    ensures k in s.refused ==>
              !t.ledger[k].completed && t.ledger[k].future !in t.items
              && t.ledger[k].future < |t.futures| && t.futures[t.ledger[k].future].Open?
  {
  }

  lemma AdmitKeepsLedger(s: Backend, t: Backend, item: Item)
    requires s.place.Keys == s.items.Keys && ItemsOk(s) && LedgerOk(s) && AdmitsItem(s, t, item)
              && AdmitsKey(s, t, item)
    requires t.refused == s.refused
    ensures LedgerOk(t)
  {
    hide ItemsOk, AdmitsItem;
    forall k | k in t.ledger
      ensures t.ledger[k].completed ==>
                t.ledger[k].future < |t.futures| && !t.futures[t.ledger[k].future].Open? && t.ledger[k].cached.Some?
      ensures k in s.refused ==> !t.ledger[k].completed && t.ledger[k].future !in t.items
      ensures k in s.refused ==> t.ledger[k].future < |t.futures| && t.futures[t.ledger[k].future].Open?
    {
      AdmitKeepsSettled(s, t, item, k);
    }
    forall k | k in t.ledger && !t.ledger[k].completed && k !in t.refused
      ensures Outstanding(t, t.ledger[k].future) && t.items[t.ledger[k].future].key == Some(k)
    {
      AdmitKeepsRecord(s, t, item, k);
    }
    forall g | Outstanding(t, g) && t.items[g].key.Some?
      ensures t.items[g].key.value in t.ledger && !t.ledger[t.items[g].key.value].completed
                && t.ledger[t.items[g].key.value].future == g
    {
      AdmitKeepsOwner(s, t, item, g);
    }
  }

  lemma QueueBelow(s: Backend, i: nat)
    requires QueueOk(s) && ItemsOk(s) && i < |s.queue|
    ensures s.queue[i].future < |s.futures|
  {
  }

  lemma AdmitKeepsQueue(s: Backend, t: Backend, item: Item)
    requires QueueOk(s) && ItemsOk(s) && AdmitsItem(s, t, item) && item.future !in s.items
    ensures QueueOk(t)
  {
    forall i | 0 <= i < |s.queue| ensures s.queue[i].future < item.future {
      QueueBelow(s, i);
    }
    hide ItemsOk;
    forall f | f in t.place && t.place[f] == InQueue ensures exists i :: 0 <= i < |t.queue| && t.queue[i].future == f {
      if f == item.future {
        assert t.queue[|s.queue|].future == f;
      } else {
        var i :| 0 <= i < |s.queue| && s.queue[i].future == f;
        assert t.queue[i].future == f;
      }
    }
  }

  lemma AdmitKeepsWorkers(s: Backend, t: Backend, item: Item)
    requires WorkersOk(s) && ActiveOk(s) && Admits(s, t, item) && item.future !in s.items
    ensures WorkersOk(t) && ActiveOk(t)
  {
  }

  lemma AdmitKeepsKilled(s: Backend, t: Backend, item: Item)
    requires KilledOk(s) && Admits(s, t, item) && item.run !in s.killed
    ensures KilledOk(t)
  {
  }

  lemma AdmitKeepsCore(s: Backend, t: Backend, item: Item)
    requires Core(s) && Admits(s, t, item) && AdmitsKey(s, t, item) && NotInPool(s, item.run)
    ensures Core(t) && item.future !in s.items
  {
    hide UniqueOk, LedgerOk, FutureOk, AdmitsItem, AdmitsRun, AdmitsKey, ItemsOk, NotInPool;
    AdmitKeepsItems(s, t, item);
    AdmitKeepsUnique(s, t, item);
    AdmitKeepsLedger(s, t, item);
    forall g | g in t.items ensures FutureOk(t, g) {
      AdmitKeepsOutstanding(s, t, item, g);
      AdmitKeepsFuture(s, t, item, g);
    }
  }

  lemma CoreHasItems(s: Backend)
    requires Core(s)
    ensures s.place.Keys == s.items.Keys && ItemsOk(s)
  {
  }

  lemma AdmitKeeps(s: Backend, t: Backend, item: Item)
    requires Inv(s) && s.phase == Serving && !QueueFull(s)
    requires Admits(s, t, item) && AdmitsKey(s, t, item) && NotInPool(s, item.run) && item.run !in s.killed
    ensures Inv(t)
  {
    hide Core, QueueOk, WorkersOk, ActiveOk, KilledOk, AdmitsKey, NotInPool;
    AdmitKeepsCore(s, t, item);
    CoreHasItems(s);
    AdmitKeepsQueue(s, t, item);
    AdmitKeepsWorkers(s, t, item);
    AdmitKeepsKilled(s, t, item);
  }

  /** A claim whose submission the full queue turns away. */
  predicate Refuses(s: Backend, t: Backend, k: Key) {
    && k !in s.ledger && k in t.ledger && t.ledger == s.ledger[k := t.ledger[k]]
    && t.ledger[k].future == |s.futures| && !t.ledger[k].completed
    && t.futures == s.futures + [Open] && t.refused == s.refused + {k}
    && t.items == s.items && t.place == s.place && t.runFuture == s.runFuture && t.store == s.store && t.jobs == s.jobs
    && t.cancelledRuns == s.cancelledRuns
  }

  lemma RefusalKeepsFutures(s: Backend, t: Backend, k: Key)
    requires s.place.Keys == s.items.Keys && ItemsOk(s) && FuturesOk(s) && Refuses(s, t, k)
    ensures t.place.Keys == t.items.Keys && ItemsOk(t) && FuturesOk(t) && |s.futures| !in s.items
  {
    forall f | f in t.items ensures FutureOk(t, f) {
      assert FutureOk(s, f);
    }
  }

  lemma RefusalKeepsLedger(s: Backend, t: Backend, k: Key)
    requires LedgerOk(s) && Refuses(s, t, k) && |s.futures| !in s.items
    ensures LedgerOk(t)
  {
    forall g ensures Outstanding(t, g) <==> Outstanding(s, g) {
    }
  }

  lemma RefusalKeepsCore(s: Backend, t: Backend, k: Key)
    requires Core(s) && Refuses(s, t, k)
    ensures Core(t)
  {
    hide UniqueOk, LedgerOk, FuturesOk, ItemsOk;
    RefusalKeepsFutures(s, t, k);
    RefusalKeepsLedger(s, t, k);
    SameUnique(s, t);
  }
}
