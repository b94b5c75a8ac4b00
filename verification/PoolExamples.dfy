/** Runs of the backend that show what it does not promise: a cancelled run that is started again, a COMPLETED run
    that is undone, a cancelled run that ends COMPLETED, a claim nobody settles, a worker that waits forever. */
module PoolExamples {
  import opened Workflow
  import opened Pool
  import opened PoolSafety
  import opened PoolSteps
  import opened PoolPromises
  import opened PoolRuns
  import opened PoolCancellation

  lemma {:induction false} AllowedThen(s: Backend, steps: seq<Step>, step: Step)
    requires Allowed(s, steps) && CanStep(After(s, steps), step) && Legal(After(s, steps), step)
    ensures Allowed(s, steps + [step]) && After(s, steps + [step]) == DoStep(After(s, steps), step)
    decreases |steps|
  {
    hide CanStep, Legal, DoStep;
    if steps == [] {
      assert [step][1..] == [];
    } else {
      AllowedThen(DoStep(s, steps[0]), steps[1..], step);
      assert (steps + [step])[1..] == steps[1..] + [step];
    }
  }

  lemma NobodyOutstanding(s: Backend, run: RunId)
    requires Inv(s) && s.queue == [] && forall w | 0 <= w < |s.workers| :: !s.workers[w].Busy?
    ensures !RunOutstanding(s, run)
  {
    hide Core, ActiveOk, KilledOk, CountsOk, PhaseOk;
  }

  // ---- A cancelled run is started again ----

  /** A serving pool of two workers without a bound on its queue, and what it knows about the run. */
  ghost predicate Shows(s: Backend, run: RunId, queue: seq<Item>, workers: seq<Worker>, st: Stored) {
    && s.phase == Serving && s.capacity == 0 && s.queue == queue && s.workers == workers
    && run in s.store && s.store[run] == st && run in s.jobs && !Flagged(s, run)
  }

  lemma RunSubmitted(run: RunId) returns (steps: seq<Step>)
    ensures Allowed(Initial(0, 2), steps)
    ensures Shows(After(Initial(0, 2), steps), run, [Item(run, StartRun, 0, None)], [Worker.Resting, Worker.Resting],
              Stored(Idle, false))
  {
    var submit := DoSubmit(run, "h", None);
    AllowedThen(Initial(0, 2), [], submit);
    steps := [] + [submit];
  }

  lemma StartShows(s: Backend, run: RunId, queue: seq<Item>, w: nat, workers: seq<Worker>, st: Stored)
    requires Shows(s, run, queue, workers, st) && queue != [] && queue[0].run == run
    requires w < |workers| && workers[w].Resting?
    ensures CanStep(s, DoTake(w))
    ensures Shows(DoStep(s, DoTake(w)), run, queue[1..], workers[w := Busy(queue[0], false)],
                  if queue[0].kind == ResumeRun then Stored(Running, true) else st)
  {
    hide DropFront;
  }

  lemma ReturnShows(s: Backend, run: RunId, queue: seq<Item>, workers: seq<Worker>, w: nat, st: Stored, st': Stored)
    requires Shows(s, run, queue, workers, st)
    requires w < |workers| && workers[w].Busy? && !workers[w].cancelling && workers[w].item.run == run
    ensures CanStep(s, DoFinish(w, Returned(st')))
    ensures Shows(DoStep(s, DoFinish(w, Returned(st'))), run, queue, workers[w := Worker.Resting], st')
  {
    hide ConcludeWith, SetIfOpen;
    var item := workers[w].item;
    ConcludeFrame(s.(store := s.store[run := st'], jobs := SetJob(s.jobs, run, JobAfter(st'.status))), item, st');
  }

  lemma ResumeShows(s: Backend, run: RunId, queue: seq<Item>, workers: seq<Worker>, st: Stored)
    requires Shows(s, run, queue, workers, st) && st.requiresHuman && !Terminal(st.status)
    ensures CanStep(s, DoResume(run)) && SubmitResume(s, run).1.Admitted?
    ensures Shows(DoStep(s, DoResume(run)), run, queue + [Item(run, ResumeRun, |s.futures|, None)], workers, st)
  {
  }

  lemma RunPaused(run: RunId) returns (steps: seq<Step>)
    ensures Allowed(Initial(0, 2), steps)
    ensures Shows(After(Initial(0, 2), steps), run, [], [Worker.Resting, Worker.Resting], Stored(PausedForHuman, true))
  {
    hide Allowed, After, CanStep, DoStep;
    var item := Item(run, StartRun, 0, None);
    var rest := [Worker.Resting, Worker.Resting];
    var before := RunSubmitted(run);
    StartShows(After(Initial(0, 2), before), run, [item], 0, rest, Stored(Idle, false));
    AllowedThen(Initial(0, 2), before, DoTake(0));
    before := before + [DoTake(0)];
    var paused := Stored(PausedForHuman, true);
    ReturnShows(After(Initial(0, 2), before), run, [], rest[0 := Busy(item, false)], 0, Stored(Idle, false), paused);
    AllowedThen(Initial(0, 2), before, DoFinish(0, Returned(paused)));
    steps := before + [DoFinish(0, Returned(paused))];
    assert rest[0 := Busy(item, false)][0 := Worker.Resting] == rest;
  }

  lemma RunResumed(run: RunId) returns (steps: seq<Step>, item: Item)
    ensures Allowed(Initial(0, 2), steps) && item.run == run
    ensures Shows(After(Initial(0, 2), steps), run, [], [Busy(item, false), Worker.Resting], Stored(Running, true))
  {
    hide Allowed, After, CanStep, DoStep, Inv;
    var rest := [Worker.Resting, Worker.Resting];
    var before := RunPaused(run);
    RunsKeep(0, 2, before);
    NobodyOutstanding(After(Initial(0, 2), before), run);
    item := Item(run, ResumeRun, |After(Initial(0, 2), before).futures|, None);
    ResumeShows(After(Initial(0, 2), before), run, [], rest, Stored(PausedForHuman, true));
    AllowedThen(Initial(0, 2), before, DoResume(run));
    before := before + [DoResume(run)];
    StartShows(After(Initial(0, 2), before), run, [] + [item], 0, rest, Stored(PausedForHuman, true));
    AllowedThen(Initial(0, 2), before, DoTake(0));
    steps := before + [DoTake(0)];
    assert rest[0 := Busy(item, false)] == [Busy(item, false), Worker.Resting];
  }

  lemma ShowsActive(s: Backend, run: RunId, item: Item)
    requires Inv(s) && Shows(s, run, [], [Busy(item, false), Worker.Resting], Stored(Running, true)) && item.run == run
    ensures run in s.active && s.active[run] == 0 && Revivable(s, run) && CancelRun(s, run).1
  {
    hide Core, QueueOk, WorkersOk, KilledOk, CountsOk, PhaseOk;
    assert s.workers[0].Busy?;
  }

  /** From a fresh pool: submit, start, pause, resume, start; the cancellation answers true, a resume is
      admitted all the same, and the second worker starts the run. */
  lemma CancelledRunIsStartedAgain(run: RunId) returns (steps: seq<Step>)
    ensures Allowed(Initial(0, 2), steps)
    ensures var s := After(Initial(0, 2), steps);
            var t := CancelRun(s, run).0;
            var u := SubmitResume(t, run).0;
            && CancelRun(s, run).1 && SubmitResume(t, run).1.Admitted? && CanStep(u, DoTake(1))
            && !BusyWith(t, 1, run) && BusyWith(DoStep(u, DoTake(1)), 0, run) && BusyWith(DoStep(u, DoTake(1)), 1, run)
  {
    hide Allowed, After, Inv;
    var item;
    steps, item := RunResumed(run);
    RunsKeep(0, 2, steps);
    var s := After(Initial(0, 2), steps);
    ShowsActive(s, run, item);
    SecondStart(s, run, item);
  }

  lemma SecondStart(s: Backend, run: RunId, item: Item)
    requires Shows(s, run, [], [Busy(item, false), Worker.Resting], Stored(Running, true)) && item.run == run
    requires run in s.active && s.active[run] == 0
    ensures var t := CancelRun(s, run).0;
            var u := SubmitResume(t, run).0;
            && SubmitResume(t, run).1.Admitted? && CanStep(u, DoTake(1))
            && !BusyWith(t, 1, run) && BusyWith(DoStep(u, DoTake(1)), 0, run) && BusyWith(DoStep(u, DoTake(1)), 1, run)
  {
    hide DropFront;
    var t := CancelRun(s, run).0;
    CancelledActive(s, run, 0);
    hide CancelRun;
    assert t.workers == [Busy(item, true), Worker.Resting];
    var u := SubmitResume(t, run).0;
    assert u.queue == [] + [Item(run, ResumeRun, |t.futures|, None)];
  }

  // ---- A run that is resumed twice ----

  lemma FeasibleThen(s: Backend, steps: seq<Step>, step: Step)
    requires Feasible(s, steps) && CanStep(Reached(s, steps), step)
    ensures Feasible(s, steps + [step]) && Reached(s, steps + [step]) == DoStep(Reached(s, steps), step)
  {
    hide Feasible, Reached, CanStep, DoStep;
    One(Reached(s, steps), step);
    Append(s, steps, [step]);
  }

  /** Two resumes of a paused run, one after the other, are both admitted, and the first worker starts one. */
  lemma ResumedTwice(run: RunId) returns (steps: seq<Step>, a: Item, b: Item)
    ensures Feasible(Initial(0, 2), steps) && a.run == run && b.run == run && b.kind == ResumeRun
    ensures Shows(Reached(Initial(0, 2), steps), run, [b], [Busy(a, false), Worker.Resting], Stored(Running, true))
  {
    hide Allowed, After, CanStep, DoStep, Feasible, Reached, Shows;
    var s := Initial(0, 2);
    var rest := [Worker.Resting, Worker.Resting];
    var paused := Stored(PausedForHuman, true);
    steps := RunPaused(run);
    AllowedFeasible(s, steps);
    a := Item(run, ResumeRun, |Reached(s, steps).futures|, None);
    ResumeShows(Reached(s, steps), run, [], rest, paused);
    FeasibleThen(s, steps, DoResume(run));
    steps := steps + [DoResume(run)];
    b := Item(run, ResumeRun, |Reached(s, steps).futures|, None);
    ResumeShows(Reached(s, steps), run, [] + [a], rest, paused);
    FeasibleThen(s, steps, DoResume(run));
    steps := steps + [DoResume(run)];
    StartShows(Reached(s, steps), run, [] + [a] + [b], 0, rest, paused);
    FeasibleThen(s, steps, DoTake(0));
    steps := steps + [DoTake(0)];
    assert rest[0 := Busy(a, false)] == [Busy(a, false), Worker.Resting];
    assert ([] + [a] + [b])[1..] == [b];
  }

  /** The first item of a run that was resumed twice returns COMPLETED; the second one makes it RUNNING again. */
  lemma CompletedRunIsUndone(run: RunId) returns (steps: seq<Step>)
    ensures Feasible(Initial(0, 2), steps) && CanStep(Reached(Initial(0, 2), steps), DoTake(1))
    ensures var s := Reached(Initial(0, 2), steps);
            && run in s.store && s.store[run] == Stored(RunCompleted, false)
            && run in DoStep(s, DoTake(1)).store && DoStep(s, DoTake(1)).store[run] == Stored(Running, true)
  {
    hide CanStep, DoStep, Feasible, Reached;
    var s := Initial(0, 2);
    var a, b;
    var completed := Stored(RunCompleted, false);
    steps, a, b := ResumedTwice(run);
    ReturnShows(Reached(s, steps), run, [b], [Busy(a, false), Worker.Resting], 0, Stored(Running, true), completed);
    FeasibleThen(s, steps, DoFinish(0, Returned(completed)));
    steps := steps + [DoFinish(0, Returned(completed))];
    StartShows(Reached(s, steps), run, [b], 1, [Busy(a, false), Worker.Resting][0 := Worker.Resting], completed);
  }

  /** Two workers run the same run while the pool drains, one of them already cancelled. */
  predicate Drains(s: Backend, run: RunId, workers: seq<Worker>) {
    s.phase == Draining && s.queue == [] && s.workers == workers && run in s.store
  }

  lemma DrainingBegins(s: Backend, run: RunId, a: Item, b: Item, st: Stored)
    requires Shows(s, run, [], [Busy(a, false), Busy(b, false)], st) && a.run == b.run == run
    ensures CanStep(s, DoBeginShutdown) && Drains(DoStep(s, DoBeginShutdown), run, [Busy(a, false), Busy(b, false)])
    ensures DoStep(s, DoBeginShutdown).active == s.active
  {
    var s1 := s.(phase := Draining);
    DrainFrame(s1);
    hide Drain;
  }

  lemma DrainingEnds(s: Backend, run: RunId, a: Item, b: Item)
    requires Drains(s, run, [Busy(a, false), Busy(b, true)]) && a.run == b.run == run
    ensures CanStep(s, DoDeliver(1))
    ensures CanStep(DoStep(s, DoDeliver(1)), DoFinish(0, Returned(Stored(RunCompleted, false))))
    ensures var u := DoStep(DoStep(s, DoDeliver(1)), DoFinish(0, Returned(Stored(RunCompleted, false))));
            Nobody(u, run) && run in u.store && u.store[run] == Stored(RunCompleted, false)
  {
    hide DoStep;
    WorkerHandsIn(s, DoDeliver(1), 1);
    var t := DoStep(s, DoDeliver(1));
    assert t.workers == [Busy(a, false), t.workers[1]];
    ReturnStores(t, 0, run, Stored(RunCompleted, false));
  }

  lemma StartActive(s: Backend, run: RunId, queue: seq<Item>, w: nat, workers: seq<Worker>, st: Stored)
    requires Shows(s, run, queue, workers, st) && queue != [] && queue[0].run == run
    requires w < |workers| && workers[w].Resting?
    ensures CanStep(s, DoTake(w))
    ensures run in DoStep(s, DoTake(w)).active && DoStep(s, DoTake(w)).active[run] == w
  {
    hide DropFront;
  }

  lemma CancelDrains(s: Backend, run: RunId, a: Item, b: Item)
    requires Drains(s, run, [Busy(a, false), Busy(b, false)]) && b.run == run && run in s.active && s.active[run] == 1
    ensures CancelRun(s, run).1 && Drains(CancelRun(s, run).0, run, [Busy(a, false), Busy(b, true)])
  {
    CancelledActive(s, run, 1);
  }

  /** A run that was resumed twice runs on both workers when shutdown begins. The cancellation answers true and reaches
      the second; the first returns, and the run is stored COMPLETED with nobody busy. */
  lemma CancelledRunCompletes(run: RunId) returns (before: seq<Step>, rest: seq<Step>)
    ensures Feasible(Initial(0, 2), before)
    ensures var s := Reached(Initial(0, 2), before);
            s.phase == Draining && CancelRun(s, run).1 && Feasible(CancelRun(s, run).0, rest)
    ensures rest == [DoDeliver(1), DoFinish(0, Returned(Stored(RunCompleted, false)))]
    ensures var u := Reached(CancelRun(Reached(Initial(0, 2), before), run).0, rest);
            Nobody(u, run) && run in u.store && u.store[run] == Stored(RunCompleted, false)
  {
    hide CanStep, DoStep, Feasible, Reached, Shows, CancelRun, Nobody;
    var s := Initial(0, 2);
    var a, b;
    var running := Stored(Running, true);
    before, a, b := ResumedTwice(run);
    var workers := [Busy(a, false), Worker.Resting];
    StartShows(Reached(s, before), run, [b], 1, workers, running);
    StartActive(Reached(s, before), run, [b], 1, workers, running);
    FeasibleThen(s, before, DoTake(1));
    before := before + [DoTake(1)];
    assert workers[1 := Busy(b, false)] == [Busy(a, false), Busy(b, false)] && [b][1..] == [];
    DrainingBegins(Reached(s, before), run, a, b, running);
    FeasibleThen(s, before, DoBeginShutdown);
    before := before + [DoBeginShutdown];
    CancelDrains(Reached(s, before), run, a, b);
    var t := CancelRun(Reached(s, before), run).0;
    DrainingEnds(t, run, a, b);
    var last := DoFinish(0, Returned(Stored(RunCompleted, false)));
    One(DoStep(t, DoDeliver(1)), last);
    One(t, DoDeliver(1));
    Append(t, [DoDeliver(1)], [last]);
    rest := [DoDeliver(1)] + [last];
  }

  // ---- A claim that nobody settles ----

  /** A queue of one, filled by one submission, turns away a second one with a key. */
  lemma ClaimIsRefused(concurrency: nat, key: Key, hash: Hash) returns (steps: seq<Step>)
    ensures Allowed(Initial(1, concurrency), steps) && key in After(Initial(1, concurrency), steps).refused
    ensures After(Initial(1, concurrency), steps).phase == Serving
  {
    var s := Initial(1, concurrency);
    AllowedThen(s, [], DoSubmit("a", hash, None));
    steps := [] + [DoSubmit("a", hash, None)];
    assert |After(s, steps).queue| == 1;
    AllowedThen(s, steps, DoSubmit("b", hash, Some(key)));
    RefusalLeavesClaim(After(s, steps), "b", hash, key);
    steps := steps + [DoSubmit("b", hash, Some(key))];
  }

  // ---- A worker that waits forever ----

  /** A serving pool with a queue of one in which nothing was ever cancelled. */
  ghost predicate Plain(s: Backend, queue: seq<Item>, workers: seq<Worker>, runs: set<RunId>) {
    && s.phase == Serving && s.capacity == 1 && s.queue == queue && s.workers == workers && s.store.Keys == runs
    && s.cancelledRuns == {} && forall r | r in s.jobs :: !s.jobs[r].isCancelled
  }

  lemma PlainSubmit(s: Backend, run: RunId, workers: seq<Worker>, runs: set<RunId>)
    requires Plain(s, [], workers, runs) && run !in runs
    ensures CanStep(s, DoSubmit(run, "h", None)) && Legal(s, DoSubmit(run, "h", None))
    ensures Plain(DoStep(s, DoSubmit(run, "h", None)), [Item(run, StartRun, |s.futures|, None)], workers, runs + {run})
  {
  }

  lemma PlainTake(s: Backend, item: Item, workers: seq<Worker>, runs: set<RunId>, w: nat)
    requires Plain(s, [item], workers, runs) && item.kind == StartRun && w < |workers| && workers[w].Resting?
    ensures CanStep(s, DoTake(w))
    ensures Plain(DoStep(s, DoTake(w)), [], workers[w := Busy(item, false)], runs)
  {
    hide DropFront;
  }

  /** Worker `w` gets a new run to work on. */
  lemma PlainStart(s: Backend, steps: seq<Step>, run: RunId, workers: seq<Worker>, runs: set<RunId>, w: nat)
      returns (longer: seq<Step>, item: Item)
    requires Allowed(s, steps) && Plain(After(s, steps), [], workers, runs)
    requires run !in runs && w < |workers| && workers[w].Resting?
    ensures Allowed(s, longer) && Plain(After(s, longer), [], workers[w := Busy(item, false)], runs + {run})
  {
    hide Allowed, After, CanStep, DoStep, Legal, Plain;
    var submit := DoSubmit(run, "h", None);
    PlainSubmit(After(s, steps), run, workers, runs);
    AllowedThen(s, steps, submit);
    item := Item(run, StartRun, |After(s, steps).futures|, None);
    longer := steps + [submit];
    PlainTake(After(s, longer), item, workers, runs + {run}, w);
    TakeIsLegal(After(s, longer), w);
    AllowedThen(s, longer, DoTake(w));
    longer := longer + [DoTake(w)];
  }

  lemma TakeIsLegal(s: Backend, w: nat)
    ensures Legal(s, DoTake(w)) && Legal(s, DoDeliver(w)) && Legal(s, DoBeginShutdown) && Legal(s, DoForceStop)
  {
  }

  /** A pool that is being stopped. */
  predicate Ending(s: Backend, phase: Phase, workers: seq<Worker>, signals: nat) {
    s.phase == phase && s.workers == workers && s.sentinels == signals && s.queue == [] && s.capacity == 1
  }

  lemma EndingBegins(s: Backend, a: Item, b: Item, runs: set<RunId>)
    requires Plain(s, [], [Busy(a, false), Busy(b, false)], runs)
    ensures CanStep(s, DoBeginShutdown) && CanStep(DoStep(s, DoBeginShutdown), DoForceStop)
    ensures Ending(DoStep(DoStep(s, DoBeginShutdown), DoForceStop), Stopping, [Busy(a, true), Busy(b, true)], 1)
  {
    assert Drain(s.(phase := Draining)) == s.(phase := Draining);
  }

  lemma EndingDelivers(s: Backend, workers: seq<Worker>, signals: nat, w: nat)
    requires Ending(s, Stopping, workers, signals) && w < |workers| && workers[w].Busy? && workers[w].cancelling
    ensures CanStep(s, DoDeliver(w))
    ensures Ending(DoStep(s, DoDeliver(w)), Stopping, workers[w := if signals > 0 then Stopped else Starved],
                   if signals > 0 then signals - 1 else 0)
  {
    hide FinalizeCancelled;
    FinalizeFrame(s, workers[w].item);
  }

  /** Two workers that overrun the grace period and a queue of one: the second gets no termination signal. */
  lemma WorkerIsStarved() returns (steps: seq<Step>)
    ensures Allowed(Initial(1, 2), steps) && After(Initial(1, 2), steps).workers == [Stopped, Starved]
  {
    hide Allowed, After, CanStep, DoStep, Legal;
    var s := Initial(1, 2);
    var rest := [Worker.Resting, Worker.Resting];
    NothingHappened(s);
    assert Plain(s, [], rest, {});
    var a, b;
    steps, a := PlainStart(s, [], "a", rest, {}, 0);
    steps, b := PlainStart(s, steps, "b", rest[0 := Busy(a, false)], {} + {"a"}, 1);
    assert rest[0 := Busy(a, false)][1 := Busy(b, false)] == [Busy(a, false), Busy(b, false)];
    EndingBegins(After(s, steps), a, b, {} + {"a"} + {"b"});
    TakeIsLegal(After(s, steps), 0);
    AllowedThen(s, steps, DoBeginShutdown);
    steps := steps + [DoBeginShutdown];
    TakeIsLegal(After(s, steps), 0);
    AllowedThen(s, steps, DoForceStop);
    steps := steps + [DoForceStop];
    var cancelling := [Busy(a, true), Busy(b, true)];
    EndingDelivers(After(s, steps), cancelling, 1, 0);
    TakeIsLegal(After(s, steps), 0);
    AllowedThen(s, steps, DoDeliver(0));
    steps := steps + [DoDeliver(0)];
    EndingDelivers(After(s, steps), cancelling[0 := Stopped], 0, 1);
    TakeIsLegal(After(s, steps), 1);
    AllowedThen(s, steps, DoDeliver(1));
    steps := steps + [DoDeliver(1)];
    assert cancelling[0 := Stopped][1 := Starved] == [Stopped, Starved];
  }

  lemma NothingHappened(s: Backend)
    ensures Allowed(s, []) && After(s, []) == s
  {
  }
}
