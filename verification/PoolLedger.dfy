/** The idempotency ledger over whole runs of the backend: a key is run again only after a release, and
    every keyed item makes exactly one ledger call. */
module PoolLedger {
  import opened Workflow
  import opened Pool
  import opened PoolSafety
  import opened PoolSteps
  import opened PoolProgress

  /** Where a key stands after a list of ledger calls; `Broken` is what must never happen: a claim of a key
      that is taken, or a call about a record that is not open. */
  datatype Standing = Free | Held(future: nat) | Kept | Broken

  function Apply(st: Standing, e: LedgerEvent): Standing {
    match e
    case KeyClaimed(_, f) => if st.Free? then Held(f) else Broken
    case KeyCompleted(_, f) => if st == Held(f) then Kept else Broken
    case KeyReleased(_, f) => if st == Held(f) then Free else Broken
  }

  function StandingOf(log: seq<LedgerEvent>, k: Key): Standing {
    if log == [] then Free
    else
      var st, e := StandingOf(log[..|log| - 1], k), log[|log| - 1];
      if e.key == k then Apply(st, e) else st
  }

  function RecordStanding(s: Backend, k: Key): Standing {
    if k !in s.ledger then Free else if s.ledger[k].completed then Kept else Held(s.ledger[k].future)
  }

  /** How often the log completes or releases the record with the future. */
  function Settlements(log: seq<LedgerEvent>, f: nat): nat {
    if log == [] then 0
    else
      var e := log[|log| - 1];
      Settlements(log[..|log| - 1], f) + (if !e.KeyClaimed? && e.future == f then 1 else 0)
  }

  predicate LeftWithKey(s: Backend, f: nat) {
    f in s.items && f in s.place && s.place[f] == Finished && s.items[f].key.Some?
  }

  /** The log tells where every key stands and which keyed items have left. */
  ghost predicate LogOk(s: Backend) {
    && (forall k :: StandingOf(s.log, k) == RecordStanding(s, k))
    && (forall f :: Settlements(s.log, f) == if LeftWithKey(s, f) then 1 else 0)
  }

  lemma Appended(log: seq<LedgerEvent>, e: LedgerEvent, k: Key, f: nat)
    ensures StandingOf(log + [e], k) == if e.key == k then Apply(StandingOf(log, k), e) else StandingOf(log, k)
    ensures Settlements(log + [e], f) == Settlements(log, f) + if !e.KeyClaimed? && e.future == f then 1 else 0
  {
    assert (log + [e])[..|log|] == log;
  }

  // ---- One step ----

  lemma SameLog(s: Backend, t: Backend)
    requires LogOk(s) && t.log == s.log && t.ledger == s.ledger
    requires forall f :: LeftWithKey(t, f) <==> LeftWithKey(s, f)
    ensures LogOk(t)
  {
    hide StandingOf, Settlements, LeftWithKey;
    forall k ensures StandingOf(t.log, k) == RecordStanding(t, k) {
      assert StandingOf(s.log, k) == RecordStanding(s, k);
    }
  }

  lemma LeavingKeepsStanding(s: Backend, t: Backend, f: nat, k: Key)
    requires Core(s) && LogOk(s) && Outstanding(s, f) && Leaves(s, t, f) && LeavesLog(s, t, f)
    ensures StandingOf(t.log, k) == RecordStanding(t, k)
  {
    hide StandingOf, Settlements, FuturesOk, UniqueOk, ItemsOk, LeavesData;
    assert StandingOf(s.log, k) == RecordStanding(s, k);
    match s.items[f].key
    case None =>
    case Some(key) =>
      assert RecordStanding(s, key) == Held(f);
      Appended(s.log, if key in t.ledger then KeyCompleted(key, f) else KeyReleased(key, f), k, 0);
  }

  lemma LeavingKeepsCount(s: Backend, t: Backend, f: nat, g: nat)
    requires f in s.items && LogOk(s) && Outstanding(s, f) && Leaves(s, t, f) && LeavesLog(s, t, f)
    ensures Settlements(t.log, g) == if LeftWithKey(t, g) then 1 else 0
  {
    hide StandingOf, Settlements, LeavesLedger;
    assert Settlements(s.log, g) == if LeftWithKey(s, g) then 1 else 0;
    match s.items[f].key
    case None =>
    case Some(key) => Appended(s.log, if key in t.ledger then KeyCompleted(key, f) else KeyReleased(key, f), key, g);
  }

  lemma LeavingKeepsLog(s: Backend, t: Backend, f: nat)
    requires Core(s) && LogOk(s) && Outstanding(s, f) && Leaves(s, t, f) && LeavesLog(s, t, f)
    ensures LogOk(t)
  {
    hide Core, Leaves, LeavesLog, StandingOf, Settlements, LeftWithKey;
    forall k ensures StandingOf(t.log, k) == RecordStanding(t, k) {
      LeavingKeepsStanding(s, t, f, k);
    }
    forall g ensures Settlements(t.log, g) == if LeftWithKey(t, g) then 1 else 0 {
      LeavingKeepsCount(s, t, f, g);
    }
  }

  lemma DropFrontKeepsLog(s: Backend)
    requires Body(s) && s.queue != [] && LogOk(s)
    ensures LogOk(DropFront(s))
  {
    hide Core, Leaves, LeavesLog, LogOk, DropFront;
    DropFrontEffect(s);
    LeavingKeepsLog(s, DropFront(s), s.queue[0].future);
  }

  lemma {:induction false} DrainKeepsLog(s: Backend)
    requires Body(s) && LogOk(s)
    ensures LogOk(Drain(s))
    decreases |s.queue|
  {
    hide Body, LogOk, DropFront;
    if s.queue != [] {
      DropFrontKeepsLog(s);
      DropFrontKeeps(s);
      DropFrontShrinks(s);
      DrainKeepsLog(DropFront(s));
    }
  }

  lemma FinishKeepsLog(s: Backend, w: nat, o: RuntimeOutcome)
    requires Inv(s) && CanStep(s, DoFinish(w, o)) && LogOk(s)
    ensures LogOk(Finish(s, w, o))
  {
    hide Inv, Core, Leaves, LeavesLog, LogOk, ConcludeWith, ConcludeRaised, SetJob;
    BusyItem(s, w);
    var item := s.workers[w].item;
    SettledLeaves(s, item.future, o);
    LeavingKeepsLog(s, SettledBy(s, item, o), item.future);
    SameLog(SettledBy(s, item, o), Finish(s, w, o));
  }

  lemma DeliverKeepsLog(s: Backend, w: nat)
    requires Inv(s) && CanStep(s, DoDeliver(w)) && LogOk(s)
    ensures LogOk(DeliverCancel(s, w))
  {
    hide Inv, Core, Leaves, LeavesLog, LogOk, FinalizeCancelled;
    BusyItem(s, w);
    var item := s.workers[w].item;
    FinalizeLeaves(s, item.future);
    LeavingKeepsLog(s, FinalizeCancelled(s, item), item.future);
    SameLog(FinalizeCancelled(s, item), DeliverCancel(s, w));
  }

  lemma TakeKeepsLog(s: Backend, w: nat)
    requires Inv(s) && CanStep(s, DoTake(w)) && LogOk(s)
    ensures LogOk(Take(s, w))
  {
    hide Core, LogOk, DropFront, WorkersOk, ActiveOk, KilledOk, CountsOk, PhaseOk;
    if Flagged(s, s.queue[0].run) {
      DropFrontKeepsLog(s);
    } else {
      SameLog(s, Take(s, w));
    }
  }

  /** A submission that claims its key. */
  lemma ClaimKeepsLog(s: Backend, t: Backend, k: Key)
    requires LogOk(s) && k !in s.ledger && t.log == s.log + [KeyClaimed(k, |s.futures|)] && k in t.ledger
    requires t.ledger == s.ledger[k := t.ledger[k]] && !t.ledger[k].completed && t.ledger[k].future == |s.futures|
    requires forall f :: LeftWithKey(t, f) <==> LeftWithKey(s, f)
    ensures LogOk(t)
  {
    hide StandingOf, Settlements, LeftWithKey;
    forall x ensures StandingOf(t.log, x) == RecordStanding(t, x) {
      assert StandingOf(s.log, x) == RecordStanding(s, x);
      Appended(s.log, KeyClaimed(k, |s.futures|), x, 0);
    }
    forall g ensures Settlements(t.log, g) == if LeftWithKey(t, g) then 1 else 0 {
      assert Settlements(s.log, g) == if LeftWithKey(s, g) then 1 else 0;
      Appended(s.log, KeyClaimed(k, |s.futures|), k, g);
    }
  }

  lemma SubmitLeavesNobody(s: Backend, run: RunId, hash: Hash, key: Option<Key>, f: nat)
    requires Inv(s)
    ensures LeftWithKey(SubmitRun(s, run, hash, key).0, f) <==> LeftWithKey(s, f)
  {
    hide FuturesOk, UniqueOk, LedgerOk, QueueOk, WorkersOk, ActiveOk, KilledOk, CountsOk, PhaseOk;
  }

  /** A submission makes a ledger entry exactly when it claims its key. */
  lemma SubmitClaims(s: Backend, run: RunId, hash: Hash, key: Option<Key>)
    ensures var t := SubmitRun(s, run, hash, key).0;
            if s.phase == Serving && key.Some? && key.value !in s.ledger
            then t.log == s.log + [KeyClaimed(key.value, |s.futures|)]
                 && t.ledger == s.ledger[key.value := Record(hash, run, |s.futures|, false, None)]
            else t.log == s.log && t.ledger == s.ledger
  {
    hide SetIfOpen;
  }

  lemma SubmitKeepsLog(s: Backend, run: RunId, hash: Hash, key: Option<Key>)
    requires Inv(s) && LogOk(s)
    ensures LogOk(SubmitRun(s, run, hash, key).0)
  {
    hide Inv, LogOk, LeftWithKey, SubmitRun;
    var t := SubmitRun(s, run, hash, key).0;
    SubmitClaims(s, run, hash, key);
    forall f ensures LeftWithKey(t, f) <==> LeftWithKey(s, f) {
      SubmitLeavesNobody(s, run, hash, key, f);
    }
    if s.phase == Serving && key.Some? && key.value !in s.ledger {
      ClaimKeepsLog(s, t, key.value);
    } else {
      SameLog(s, t);
    }
  }

  lemma ResumeLeavesNobody(s: Backend, run: RunId, f: nat)
    requires Inv(s)
    ensures LeftWithKey(SubmitResume(s, run).0, f) <==> LeftWithKey(s, f)
  {
    hide FuturesOk, UniqueOk, LedgerOk, QueueOk, WorkersOk, ActiveOk, KilledOk, CountsOk, PhaseOk;
  }

  lemma ResumeKeepsLog(s: Backend, run: RunId)
    requires Inv(s) && LogOk(s)
    ensures LogOk(SubmitResume(s, run).0)
  {
    hide Inv, LogOk, LeftWithKey;
    forall f ensures LeftWithKey(SubmitResume(s, run).0, f) <==> LeftWithKey(s, f) {
      ResumeLeavesNobody(s, run, f);
    }
    SameLog(s, SubmitResume(s, run).0);
  }

  lemma BeginShutdownKeepsLog(s: Backend)
    requires Inv(s) && s.phase == Serving && LogOk(s)
    ensures LogOk(BeginShutdown(s))
  {
    hide Core, LogOk, Drain;
    var s1 := s.(phase := Draining);
    SameCore(s, s1);
    SameLog(s, s1);
    DrainKeepsLog(s1);
  }

  lemma StepKeepsLog(s: Backend, step: Step)
    requires Inv(s) && LogOk(s) && CanStep(s, step) && Legal(s, step)
    ensures LogOk(DoStep(s, step))
  {
    hide Inv, LogOk, RunOutstanding, SubmitRun, SubmitResume, Take, Finish, DeliverCancel, BeginShutdown, SetIfOpen,
        SetJob;
    match step
    case DoSubmit(run, hash, key) => SubmitKeepsLog(s, run, hash, key);
    case DoResume(run) => ResumeKeepsLog(s, run);
    case DoCancel(run) => SameLog(s, CancelRun(s, run).0);
    case DoTake(w) => TakeKeepsLog(s, w);
    case DoFinish(w, o) => FinishKeepsLog(s, w, o);
    case DoDeliver(w) => DeliverKeepsLog(s, w);
    case DoBeginShutdown => BeginShutdownKeepsLog(s);
    case DoForceStop => SameLog(s, ForceStop(s));
  }

  lemma {:induction false} RunKeepsLog(s: Backend, steps: seq<Step>)
    requires Inv(s) && LogOk(s) && Allowed(s, steps)
    ensures Inv(After(s, steps)) && LogOk(After(s, steps))
    decreases |steps|
  {
    hide Inv, LogOk, DoStep, CanStep, Legal;
    if steps != [] {
      StepKeeps(s, steps[0]);
      StepKeepsLog(s, steps[0]);
      RunKeepsLog(DoStep(s, steps[0]), steps[1..]);
    }
  }

  // ---- Whole runs ----

  /** From position `i` on the key is taken, and no release has come. */
  lemma {:induction false} TakenUntilReleased(log: seq<LedgerEvent>, k: Key, i: nat)
    requires i < |log| && log[i].KeyClaimed? && log[i].key == k && !StandingOf(log, k).Broken?
    requires forall m | i < m < |log| :: !(log[m].KeyReleased? && log[m].key == k)
    ensures StandingOf(log, k).Held? || StandingOf(log, k).Kept?
  {
    var n := |log| - 1;
    if i < n {
      TakenUntilReleased(log[..n], k, i);
    }
  }

  lemma {:induction false} PrefixSound(log: seq<LedgerEvent>, k: Key, n: nat)
    requires n <= |log| && !StandingOf(log, k).Broken?
    ensures !StandingOf(log[..n], k).Broken?
  {
    if n < |log| {
      PrefixSound(log[..|log| - 1], k, n);
      assert log[..|log| - 1][..n] == log[..n];
    } else {
      assert log[..n] == log;
    }
  }

  lemma ClaimsAreSeparated(log: seq<LedgerEvent>, k: Key, i: nat, j: nat)
    requires !StandingOf(log, k).Broken? && i < j < |log|
    requires log[i].KeyClaimed? && log[i].key == k && log[j].KeyClaimed? && log[j].key == k
    ensures exists m | i < m < j :: log[m].KeyReleased? && log[m].key == k
  {
    hide StandingOf;
    if forall m | i < m < j :: !(log[m].KeyReleased? && log[m].key == k) {
      PrefixSound(log, k, j);
      PrefixSound(log, k, j + 1);
      TakenUntilReleased(log[..j], k, i);
      assert log[..j + 1] == log[..j] + [log[j]];
      Appended(log[..j], log[j], k, 0);
      assert false;
    }
  }

  /** Single flight: in any run of the backend, between two claims of one key the earlier claim was released. */
  lemma SingleFlight(capacity: nat, concurrency: nat, steps: seq<Step>, k: Key, i: nat, j: nat)
    requires Allowed(Initial(capacity, concurrency), steps)
    requires i < j < |After(Initial(capacity, concurrency), steps).log|
    requires After(Initial(capacity, concurrency), steps).log[i].KeyClaimed?
              && After(Initial(capacity, concurrency), steps).log[i].key == k
    requires After(Initial(capacity, concurrency), steps).log[j].KeyClaimed?
              && After(Initial(capacity, concurrency), steps).log[j].key == k
    ensures exists m | i < m < j :: After(Initial(capacity, concurrency), steps).log[m].KeyReleased?
                                    && After(Initial(capacity, concurrency), steps).log[m].key == k
  {
    hide Inv, Allowed, After, StandingOf, Settlements;
    InitialKeeps(capacity, concurrency);
    InitialLog(capacity, concurrency);
    RunKeepsLog(Initial(capacity, concurrency), steps);
    var s := After(Initial(capacity, concurrency), steps);
    assert StandingOf(s.log, k) == RecordStanding(s, k);
    ClaimsAreSeparated(s.log, k, i, j);
  }

  lemma InitialLog(capacity: nat, concurrency: nat)
    ensures LogOk(Initial(capacity, concurrency))
  {
  }

  /** A keyed item makes no ledger call while it is in the pool and exactly one in all once it has left;
      an item without a key makes none. */
  lemma OneLedgerCallPerItem(capacity: nat, concurrency: nat, steps: seq<Step>, f: nat)
    requires Allowed(Initial(capacity, concurrency), steps) && f in After(Initial(capacity, concurrency), steps).items
    ensures var s := After(Initial(capacity, concurrency), steps);
            Settlements(s.log, f) == if s.items[f].key.Some? && !Outstanding(s, f) then 1 else 0
  {
    hide Core, QueueOk, WorkersOk, ActiveOk, KilledOk, CountsOk, PhaseOk, Allowed, After, StandingOf, Settlements;
    InitialKeeps(capacity, concurrency);
    InitialLog(capacity, concurrency);
    RunKeepsLog(Initial(capacity, concurrency), steps);
    var s := After(Initial(capacity, concurrency), steps);
    InvHasCore(s);
    assert Settlements(s.log, f) == if LeftWithKey(s, f) then 1 else 0;
    CoreHasItems(s);
  }

  /** An open record that was not refused has exactly one item in the pool, and it is the one that carries its
      future. */
  lemma OpenRecordHasOneItem(s: Backend, k: Key)
    requires Inv(s) && k in s.ledger && !s.ledger[k].completed
    ensures k in s.refused <==> !Outstanding(s, s.ledger[k].future)
    ensures forall g | Outstanding(s, g) && s.items[g].key == Some(k) :: g == s.ledger[k].future
    ensures k !in s.refused ==> s.items[s.ledger[k].future].key == Some(k)
  {
    hide UniqueOk, FuturesOk, ItemsOk, QueueOk, WorkersOk, ActiveOk, KilledOk, CountsOk, PhaseOk;
  }
}
