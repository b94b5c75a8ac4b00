/** The in-memory sliding-window rate limiter: a store that prunes and evicts, compared with one that keeps
    the whole history of accepted requests. Times are hundredths of a second. */
module RateLimiter {

  /** `Crashed` is the lookup of the earliest entry of an empty list, reached only with a limit below one. */
  datatype Decision = Allowed(remaining: nat) | Limited(retryAfter: int) | Crashed

  type Stamps = map<string, seq<int>>

  /** A tenth of a second. */
  const MIN_RETRY: int := 10

  /** The entries after a cutoff, in order. */
  function Since(stamps: seq<int>, cutoff: int): seq<int> {
    if stamps == [] then []
    else
      Since(stamps[..|stamps| - 1], cutoff)
      + (if stamps[|stamps| - 1] > cutoff then [stamps[|stamps| - 1]] else [])
  }

  function Lookup(store: Stamps, key: string): seq<int> {
    if key in store then store[key] else []
  }

  predicate Stale(stamps: seq<int>, cutoff: int) {
    stamps == [] || stamps[|stamps| - 1] < cutoff
  }

  function EvictStale(store: Stamps, cutoff: int): Stamps {
    map k | k in store && !Stale(store[k], cutoff) :: store[k]
  }

  /** The decision when `recent` are the entries in the window. */
  function Decide(recent: seq<int>, limit: int, now: int, window: int): Decision {
    if |recent| < limit then Allowed(limit - |recent| - 1)
    else if recent == [] then Crashed
    else
      var wait := window - (now - recent[0]);
      Limited(if wait < MIN_RETRY then MIN_RETRY else wait)
  }

  function Remember(store: Stamps, key: string, recent: seq<int>, d: Decision, now: int): Stamps {
    match d
    case Allowed(_) => store[key := recent + [now]]
    case Limited(_) => store[key := recent]
    case Crashed => store
  }

  /** Every call brings its own limit and window. */
  datatype Call = Call(key: string, limit: int, now: int, window: int) {
    function Cutoff(): int { now - window }
  }

  function Kept(store: Stamps, maxKeys: int, c: Call): Stamps {
    if |store| > maxKeys then EvictStale(store, c.now - c.window * 2) else store
  }

  /** One request at the limiter. */
  function Check(store: Stamps, maxKeys: int, c: Call): (Stamps, Decision) {
    var kept := Kept(store, maxKeys, c);
    var recent := Since(Lookup(kept, c.key), c.Cutoff());
    var d := Decide(recent, c.limit, c.now, c.window);
    (Remember(kept, c.key, recent, d, c.now), d)
  }

  /** One request when nothing accepted is ever forgotten. */
  function CheckFull(history: Stamps, c: Call): (Stamps, Decision) {
    var all := Lookup(history, c.key);
    var d := Decide(Since(all, c.Cutoff()), c.limit, c.now, c.window);
    (if d.Allowed? then history[c.key := all + [c.now]] else history, d)
  }

  // ---- Runs from the empty limiter ----

  function StoreAfter(maxKeys: int, calls: seq<Call>): Stamps {
    if calls == [] then map[] else Check(StoreAfter(maxKeys, calls[..|calls| - 1]), maxKeys, calls[|calls| - 1]).0
  }

  function HistoryAfter(calls: seq<Call>): Stamps {
    if calls == [] then map[] else CheckFull(HistoryAfter(calls[..|calls| - 1]), calls[|calls| - 1]).0
  }

  function Decisions(maxKeys: int, calls: seq<Call>): (ds: seq<Decision>)
    ensures |ds| == |calls|
  {
    if calls == [] then []
    else
      var front, c := calls[..|calls| - 1], calls[|calls| - 1];
      Decisions(maxKeys, front) + [Check(StoreAfter(maxKeys, front), maxKeys, c).1]
  }

  function DecisionsFull(calls: seq<Call>): (ds: seq<Decision>)
    ensures |ds| == |calls|
  {
    if calls == [] then []
    else
      var front, c := calls[..|calls| - 1], calls[|calls| - 1];
      DecisionsFull(front) + [CheckFull(HistoryAfter(front), c).1]
  }

  predicate InTime(calls: seq<Call>) {
    forall i, j | 0 <= i < j < |calls| :: calls[i].now <= calls[j].now
  }

  lemma {:induction false} DecisionAt(maxKeys: int, calls: seq<Call>, j: nat)
    requires j < |calls|
    ensures Decisions(maxKeys, calls)[j] == Check(StoreAfter(maxKeys, calls[..j]), maxKeys, calls[j]).1
    ensures DecisionsFull(calls)[j] == CheckFull(HistoryAfter(calls[..j]), calls[j]).1
  {
    hide Check, CheckFull, StoreAfter, HistoryAfter;
    var front := calls[..|calls| - 1];
    if j < |front| {
      assert front[..j] == calls[..j];
      DecisionAt(maxKeys, front, j);
    }
  }

  lemma OneMore(maxKeys: int, calls: seq<Call>, n: nat)
    requires n < |calls|
    ensures StoreAfter(maxKeys, calls[..n + 1]) == Check(StoreAfter(maxKeys, calls[..n]), maxKeys, calls[n]).0
    ensures HistoryAfter(calls[..n + 1]) == CheckFull(HistoryAfter(calls[..n]), calls[n]).0
  {
    assert calls[..n + 1][..n] == calls[..n];
  }

  // ---- Facts about Since ----

  predicate Sorted(s: seq<int>) {
    forall i, j | 0 <= i < j < |s| :: s[i] <= s[j]
  }

  /** In order, and nothing later than the clock. */
  predicate Past(s: seq<int>, clock: int) {
    Sorted(s) && forall i | 0 <= i < |s| :: s[i] <= clock
  }

  lemma {:induction false} SinceEntries(s: seq<int>, cutoff: int)
    ensures forall t | t in Since(s, cutoff) :: t in s && t > cutoff
    ensures forall t | t in s && t > cutoff :: t in Since(s, cutoff)
    ensures |Since(s, cutoff)| <= |s|
  {
    if s != [] {
      var front := s[..|s| - 1];
      assert s == front + [s[|s| - 1]];
      SinceEntries(front, cutoff);
    }
  }

  lemma {:induction false} SincePast(s: seq<int>, cutoff: int, clock: int)
    requires Past(s, clock)
    ensures Past(Since(s, cutoff), clock)
    ensures s != [] && s[|s| - 1] <= cutoff ==> Since(s, cutoff) == []
  {
    if s != [] {
      SincePast(s[..|s| - 1], cutoff, s[|s| - 1]);
      if s[|s| - 1] <= cutoff {
        SinceNone(s, cutoff);
      }
    }
  }

  lemma {:induction false} SinceNone(s: seq<int>, cutoff: int)
    requires forall i | 0 <= i < |s| :: s[i] <= cutoff
    ensures Since(s, cutoff) == []
  {
    if s != [] {
      SinceNone(s[..|s| - 1], cutoff);
    }
  }

  lemma {:induction false} SinceAll(s: seq<int>, cutoff: int)
    requires forall i | 0 <= i < |s| :: s[i] > cutoff
    ensures Since(s, cutoff) == s
  {
    if s != [] {
      SinceAll(s[..|s| - 1], cutoff);
    }
  }

  lemma SinceAppended(s: seq<int>, t: int, cutoff: int)
    ensures Since(s + [t], cutoff) == Since(s, cutoff) + (if t > cutoff then [t] else [])
  {
    assert (s + [t])[..|s|] == s;
  }

  /** Pruning at one cutoff does not matter to a look behind another if no entry lies between them. */
  lemma {:induction false} SincePruned(s: seq<int>, early: int, late: int)
    requires forall i | 0 <= i < |s| && s[i] > late :: s[i] > early
    ensures Since(Since(s, early), late) == Since(s, late)
  {
    if s != [] {
      var n := |s| - 1;
      SincePruned(s[..n], early, late);
      var front := Since(s[..n], early);
      if s[n] > early {
        assert Since(s, early) == front + [s[n]];
        SinceAppended(front, s[n], late);
      } else {
        assert Since(s, early) == front;
      }
    }
  }

  /** Pruning at one cutoff and then looking behind another loses nothing of any list exactly when the
      second cutoff does not lie before the first. */
  lemma PruningHarmlessIff(pruned: int, looked: int)
    ensures (forall s: seq<int> :: Since(Since(s, pruned), looked) == Since(s, looked)) <==> pruned <= looked
  {
    if pruned <= looked {
      forall s: seq<int> ensures Since(Since(s, pruned), looked) == Since(s, looked) {
        SincePruned(s, pruned, looked);
      }
    } else {
      assert Since([pruned], pruned) == [] && Since([pruned], looked) == [pruned];
      assert Since(Since([pruned], pruned), looked) == [];
    }
  }

  // ---- Which runs the pruned store decides as the whole history would ----

  /** Entries of the key up to here may be forgotten in the call: its own key is pruned behind the window,
      another key is evicted if its last entry is older than two windows. */
  function Horizon(c: Call, key: string): int {
    if c.key == key then c.Cutoff() else c.now - c.window * 2 - 1
  }

  /** Nothing a call may forget lies in a window that a later call looks at. */
  ghost predicate ForgetsNothingNeeded(calls: seq<Call>) {
    forall k, i, j | 0 <= k < i < j < |calls| && calls[k].key == calls[j].key
        && calls[k].now <= Horizon(calls[i], calls[k].key) ::
      calls[k].now <= calls[j].Cutoff()
  }

  /** The same for one key: no entry of it that a call may forget lies in a window that a later call for it looks at. */
  ghost predicate ForgetsNothingOf(calls: seq<Call>, key: string) {
    forall k, i, j | 0 <= k < i < j < |calls| && calls[k].key == key && calls[j].key == key
        && calls[k].now <= Horizon(calls[i], key) ::
      calls[k].now <= calls[j].Cutoff()
  }

  lemma NeededOfEachKey(calls: seq<Call>, key: string)
    requires ForgetsNothingNeeded(calls)
    ensures ForgetsNothingOf(calls, key)
  {
    hide Horizon;
  }

  /** After `n` calls: whatever a later call looks at of the key is in the store as it is in the history, and no
      accepted entry of it will be forgotten and needed. */
  ghost predicate Agree(store: Stamps, history: Stamps, calls: seq<Call>, n: nat, clock: int, key: string) {
    && Past(Lookup(store, key), clock) && Past(Lookup(history, key), clock)
    && (forall j | n <= j < |calls| && calls[j].key == key ::
          Since(Lookup(store, key), calls[j].Cutoff()) == Since(Lookup(history, key), calls[j].Cutoff()))
    && (forall i, j, t | n <= i < j < |calls| && calls[j].key == key && t in Lookup(history, key)
        && t <= Horizon(calls[i], key) ::
          t <= calls[j].Cutoff())
  }

  /** A list of one key, as a call leaves it for a later look behind `cutoff`. */
  lemma EvictionLeaves(s: seq<int>, all: seq<int>, c: Call, key: string, cutoff: int)
    requires Past(s, c.now) && Since(s, cutoff) == Since(all, cutoff) && Stale(s, c.now - c.window * 2)
    requires forall t | t in all && t <= Horizon(c, key) :: t <= cutoff
    ensures Since(s, cutoff) == []
  {
    if s != [] {
      var last := s[|s| - 1];
      SinceEntries(s, cutoff);
      SinceEntries(all, cutoff);
      assert last in s;
      SincePast(s, cutoff, c.now);
    }
  }

  lemma PruningLeaves(s: seq<int>, all: seq<int>, c: Call, cutoff: int)
    requires Since(s, cutoff) == Since(all, cutoff)
    requires forall t | t in all && t <= c.Cutoff() :: t <= cutoff
    ensures Since(Since(s, c.Cutoff()), cutoff) == Since(all, cutoff)
  {
    SinceEntries(s, cutoff);
    SinceEntries(all, cutoff);
    forall i | 0 <= i < |s| && s[i] > cutoff ensures s[i] > c.Cutoff() {
      assert s[i] in Since(s, cutoff);
    }
    SincePruned(s, c.Cutoff(), cutoff);
  }

  /** The call's own eviction takes nothing out of its own window. */
  lemma OwnEviction(s: seq<int>, c: Call)
    requires Past(s, c.now) && Stale(s, c.now - c.window * 2)
    ensures Since(s, c.Cutoff()) == []
  {
    if s != [] {
      SincePast(s, c.Cutoff(), c.now);
    }
  }

  lemma PastLater(s: seq<int>, clock: int, now: int)
    requires Past(s, clock) && clock <= now
    ensures Past(s, now)
  {
  }

  lemma PastAppended(s: seq<int>, t: int)
    requires Past(s, t)
    ensures Past(s + [t], t)
  {
  }

  lemma KeptLookup(store: Stamps, maxKeys: int, c: Call, key: string)
    ensures Lookup(Kept(store, maxKeys, c), key) ==
            if |store| > maxKeys && key in store && Stale(store[key], c.now - c.window * 2) then []
            else Lookup(store, key)
  {
  }

  /** What the store holds of a key that a later call looks at, after the eviction of call `n`. */
  lemma KeptAgrees(store: Stamps, history: Stamps, maxKeys: int, calls: seq<Call>, n: nat, j: nat, key: string)
    requires n <= j < |calls| && calls[j].key == key && Agree(store, history, calls, n, calls[n].now, key)
    ensures var c, cutoff := calls[n], calls[j].Cutoff();
            && Past(Lookup(Kept(store, maxKeys, c), key), c.now)
            && Since(Lookup(Kept(store, maxKeys, c), key), cutoff) == Since(Lookup(history, key), cutoff)
  {
    hide Since, Past;
    var c, cutoff := calls[n], calls[j].Cutoff();
    KeptLookup(store, maxKeys, c, key);
    var s, all := Lookup(store, key), Lookup(history, key);
    assert Past(s, c.now) && Since(s, cutoff) == Since(all, cutoff);
    if |store| > maxKeys && key in store && Stale(s, c.now - c.window * 2) {
      EmptyIsPast(c.now);
      EmptySince(cutoff);
      if j == n {
        OwnEviction(s, c);
      } else {
        EvictionLeaves(s, all, c, key, cutoff);
      }
    }
  }

  lemma EmptyIsPast(clock: int)
    ensures Past([], clock)
  {
  }

  lemma EmptySince(cutoff: int)
    ensures Since([], cutoff) == []
  {
  }

  lemma AgreeLater(store: Stamps, history: Stamps, calls: seq<Call>, n: nat, clock: int, now: int, key: string)
    requires Agree(store, history, calls, n, clock, key) && clock <= now
    ensures Agree(store, history, calls, n, now, key)
  {
    hide Since, Past;
    PastLater(Lookup(store, key), clock, now);
    PastLater(Lookup(history, key), clock, now);
  }

  lemma SameDecision(store: Stamps, history: Stamps, maxKeys: int, calls: seq<Call>, n: nat)
    requires n < |calls| && Agree(store, history, calls, n, calls[n].now, calls[n].key)
    ensures Check(store, maxKeys, calls[n]).1 == CheckFull(history, calls[n]).1
  {
    hide Since, Past, Kept;
    KeptAgrees(store, history, maxKeys, calls, n, n, calls[n].key);
  }

  /** The list of the call's own key, before and after it. */
  lemma OwnListAgrees(kept: seq<int>, all: seq<int>, c: Call, cutoff: int)
    requires Past(kept, c.now) && Past(all, c.now) && Since(kept, cutoff) == Since(all, cutoff)
    requires forall t | t in all && t <= c.Cutoff() :: t <= cutoff
    ensures var recent := Since(kept, c.Cutoff());
            && Past(recent, c.now) && Since(recent, cutoff) == Since(all, cutoff)
            && Past(recent + [c.now], c.now) && Past(all + [c.now], c.now)
            && Since(recent + [c.now], cutoff) == Since(all + [c.now], cutoff)
  {
    hide Since, Past;
    SincePast(kept, c.Cutoff(), c.now);
    PruningLeaves(kept, all, c, cutoff);
    SinceAppended(Since(kept, c.Cutoff()), c.now, cutoff);
    SinceAppended(all, c.now, cutoff);
    PastAppended(Since(kept, c.Cutoff()), c.now);
    PastAppended(all, c.now);
  }

  lemma NextAgrees(store: Stamps, history: Stamps, maxKeys: int, calls: seq<Call>, n: nat, j: nat, key: string)
    requires n < j < |calls| && calls[j].key == key && Agree(store, history, calls, n, calls[n].now, key)
    ensures var cutoff := calls[j].Cutoff();
            var store', history' := Check(store, maxKeys, calls[n]).0, CheckFull(history, calls[n]).0;
            Since(Lookup(store', key), cutoff) == Since(Lookup(history', key), cutoff)
  {
    hide Since, Past, Kept;
    var c := calls[n];
    KeptAgrees(store, history, maxKeys, calls, n, j, key);
    if key == c.key {
      SameDecision(store, history, maxKeys, calls, n);
      OwnListAgrees(Lookup(Kept(store, maxKeys, c), key), Lookup(history, key), c, calls[j].Cutoff());
    }
  }

  lemma NextPast(store: Stamps, history: Stamps, maxKeys: int, c: Call, key: string)
    requires Past(Lookup(store, key), c.now) && Past(Lookup(history, key), c.now)
    ensures Past(Lookup(Check(store, maxKeys, c).0, key), c.now) && Past(Lookup(CheckFull(history, c).0, key), c.now)
  {
    hide Since, Past, Kept;
    KeptLookup(store, maxKeys, c, key);
    EmptyIsPast(c.now);
    var kept := Lookup(Kept(store, maxKeys, c), key);
    SincePast(kept, c.Cutoff(), c.now);
    PastAppended(Since(kept, c.Cutoff()), c.now);
    PastAppended(Lookup(history, key), c.now);
  }

  lemma NextForgets(history: Stamps, calls: seq<Call>, n: nat, i: nat, j: nat, t: int, key: string)
    requires n < i < j < |calls| && ForgetsNothingOf(calls, key) && calls[j].key == key
    requires t in Lookup(CheckFull(history, calls[n]).0, key) && t <= Horizon(calls[i], key)
    requires t in Lookup(history, key) ==> t <= calls[j].Cutoff()
    ensures t <= calls[j].Cutoff()
  {
    hide Since, Horizon;
  }

  lemma CallAgrees(store: Stamps, history: Stamps, maxKeys: int, calls: seq<Call>, n: nat, key: string)
    requires n < |calls| && ForgetsNothingOf(calls, key) && Agree(store, history, calls, n, calls[n].now, key)
    ensures Agree(Check(store, maxKeys, calls[n]).0, CheckFull(history, calls[n]).0, calls, n + 1, calls[n].now, key)
  {
    hide Since, Past, Check, CheckFull, Horizon, ForgetsNothingOf;
    var store', history' := Check(store, maxKeys, calls[n]).0, CheckFull(history, calls[n]).0;
    NextPast(store, history, maxKeys, calls[n], key);
    forall j | n + 1 <= j < |calls| && calls[j].key == key
      ensures Since(Lookup(store', key), calls[j].Cutoff()) == Since(Lookup(history', key), calls[j].Cutoff())
    {
      NextAgrees(store, history, maxKeys, calls, n, j, key);
    }
    forall i, j, t | n + 1 <= i < j < |calls| && calls[j].key == key && t in Lookup(history', key)
        && t <= Horizon(calls[i], key)
      ensures t <= calls[j].Cutoff()
    {
      NextForgets(history, calls, n, i, j, t, key);
    }
  }

  lemma {:induction false} PrefixAgrees(maxKeys: int, calls: seq<Call>, n: nat, key: string)
    requires InTime(calls) && ForgetsNothingOf(calls, key) && n < |calls|
    ensures Agree(StoreAfter(maxKeys, calls[..n]), HistoryAfter(calls[..n]), calls, n, calls[n].now, key)
  {
    hide Check, CheckFull, ForgetsNothingOf, Agree;
    if n == 0 {
      assert calls[..0] == [];
      EmptyAgrees(calls, key);
    } else {
      PrefixAgrees(maxKeys, calls, n - 1, key);
      CallAgrees(StoreAfter(maxKeys, calls[..n - 1]), HistoryAfter(calls[..n - 1]), maxKeys, calls, n - 1, key);
      OneMore(maxKeys, calls, n - 1);
      AgreeLater(StoreAfter(maxKeys, calls[..n]), HistoryAfter(calls[..n]), calls, n, calls[n - 1].now, calls[n].now,
          key);
    }
  }

  lemma EmptyAgrees(calls: seq<Call>, key: string)
    requires calls != []
    ensures Agree(map[], map[], calls, 0, calls[0].now, key)
  {
  }

  /** If nothing that may be forgotten of a key is needed later, every decision about it is the one the whole history
      gives, whatever happens to other keys. */
  lemma NothingOfKeyAgrees(maxKeys: int, calls: seq<Call>, key: string)
    requires InTime(calls) && ForgetsNothingOf(calls, key)
    ensures forall j | 0 <= j < |calls| && calls[j].key == key ::
              Decisions(maxKeys, calls)[j] == DecisionsFull(calls)[j]
  {
    hide Decisions, DecisionsFull, Check, CheckFull, ForgetsNothingOf, Agree;
    forall j | 0 <= j < |calls| && calls[j].key == key ensures Decisions(maxKeys, calls)[j] == DecisionsFull(calls)[j] {
      DecisionAt(maxKeys, calls, j);
      PrefixAgrees(maxKeys, calls, j, key);
      SameDecision(StoreAfter(maxKeys, calls[..j]), HistoryAfter(calls[..j]), maxKeys, calls, j);
    }
  }

  /** If nothing that may be forgotten is needed later, every decision is the one the whole history gives. */
  lemma NothingNeededAgrees(maxKeys: int, calls: seq<Call>)
    requires InTime(calls) && ForgetsNothingNeeded(calls)
    ensures Decisions(maxKeys, calls) == DecisionsFull(calls)
  {
    hide Decisions, DecisionsFull, ForgetsNothingNeeded, ForgetsNothingOf;
    forall j | 0 <= j < |calls| ensures Decisions(maxKeys, calls)[j] == DecisionsFull(calls)[j] {
      NeededOfEachKey(calls, calls[j].key);
      NothingOfKeyAgrees(maxKeys, calls, calls[j].key);
    }
  }

  // ---- Otherwise some limits show the difference ----

  lemma {:induction false} SinceShrinks(s: seq<int>, pruned: int, cutoff: int)
    ensures |Since(Since(s, pruned), cutoff)| <= |Since(s, cutoff)|
  {
    if s != [] {
      var n := |s| - 1;
      SinceShrinks(s[..n], pruned, cutoff);
      var front := Since(s[..n], pruned);
      if s[n] > pruned {
        assert Since(s, pruned) == front + [s[n]];
        SinceAppended(front, s[n], cutoff);
      } else {
        assert Since(s, pruned) == front;
      }
    }
  }

  /** A look that reaches further back past an entry sees more. */
  lemma {:induction false} SinceSeesMore(s: seq<int>, near: int, far: int)
    requires far <= near
    ensures |Since(s, near)| <= |Since(s, far)|
    ensures (exists t :: t in s && far < t <= near) ==> |Since(s, near)| < |Since(s, far)|
  {
    if s != [] {
      var n := |s| - 1;
      assert s == s[..n] + [s[n]];
      SinceSeesMore(s[..n], near, far);
    }
  }

  /** The store never shows more of a key than the history. */
  ghost predicate Dominated(store: Stamps, history: Stamps, n: nat, clock: int) {
    && (forall key: string, cutoff: int :: |Since(Lookup(store, key), cutoff)| <= |Since(Lookup(history, key), cutoff)|)
    && (forall key: string :: |Lookup(history, key)| <= n)
    && (forall key: string, i | 0 <= i < |Lookup(store, key)| :: Lookup(store, key)[i] <= clock)
  }

  lemma KeptShows(store: Stamps, history: Stamps, maxKeys: int, c: Call, n: nat, clock: int, key: string, cutoff: int)
    requires Dominated(store, history, n, clock)
    ensures |Since(Lookup(Kept(store, maxKeys, c), key), cutoff)| <= |Since(Lookup(store, key), cutoff)|
    ensures |Since(Lookup(store, key), cutoff)| <= |Since(Lookup(history, key), cutoff)| <= n
  {
    KeptLookup(store, maxKeys, c, key);
    EmptySince(cutoff);
    SinceEntries(Lookup(history, key), cutoff);
  }

  /** A generous limit makes both accept, a limit of zero makes both refuse. */
  lemma BothDecide(store: Stamps, history: Stamps, maxKeys: int, c: Call, n: nat, clock: int)
    requires Dominated(store, history, n, clock) && (c.limit > n || c.limit == 0)
    ensures Check(store, maxKeys, c).1.Allowed? <==> c.limit > 0
    ensures CheckFull(history, c).1.Allowed? <==> c.limit > 0
  {
    hide Since, Kept;
    KeptShows(store, history, maxKeys, c, n, clock, c.key, c.Cutoff());
  }

  /** The call's effect on what a look at a key shows: an acceptance adds the same entry to both. */
  lemma CallShows(store: Stamps, history: Stamps, maxKeys: int, c: Call, n: nat, clock: int, key: string, cutoff: int)
    requires Dominated(store, history, n, clock) && (c.limit > n || c.limit == 0)
    ensures var more := if key == c.key && c.limit > 0 && c.now > cutoff then 1 else 0;
            && |Since(Lookup(Check(store, maxKeys, c).0, key), cutoff)| <= |Since(Lookup(store, key), cutoff)| + more
            && |Since(Lookup(CheckFull(history, c).0, key), cutoff)| == |Since(Lookup(history, key), cutoff)| + more
  {
    hide Since, Kept;
    BothDecide(store, history, maxKeys, c, n, clock);
    KeptShows(store, history, maxKeys, c, n, clock, key, cutoff);
    var kept := Lookup(Kept(store, maxKeys, c), key);
    SinceShrinks(kept, c.Cutoff(), cutoff);
    SinceAppended(Since(kept, c.Cutoff()), c.now, cutoff);
    SinceAppended(Lookup(history, key), c.now, cutoff);
  }

  lemma CallEntries(store: Stamps, maxKeys: int, c: Call, key: string, bound: int)
    requires forall i | 0 <= i < |Lookup(store, key)| :: Lookup(store, key)[i] <= bound
    requires c.now <= bound || c.key != key || !Check(store, maxKeys, c).1.Allowed?
    ensures var list := Lookup(Check(store, maxKeys, c).0, key); forall i | 0 <= i < |list| :: list[i] <= bound
  {
    hide Since, Kept, Decide;
    KeptLookup(store, maxKeys, c, key);
    var kept := Lookup(Kept(store, maxKeys, c), key);
    SinceEntries(kept, c.Cutoff());
    var list := Lookup(Check(store, maxKeys, c).0, key);
    forall i | 0 <= i < |list| ensures list[i] <= bound {
      assert list[i] in list;
    }
  }

  lemma CallDominated(store: Stamps, history: Stamps, maxKeys: int, c: Call, n: nat, clock: int)
    requires Dominated(store, history, n, clock) && (c.limit > n || c.limit == 0) && clock <= c.now
    ensures Dominated(Check(store, maxKeys, c).0, CheckFull(history, c).0, n + 1, c.now)
  {
    hide Since, Check;
    var store', history' := Check(store, maxKeys, c).0, CheckFull(history, c).0;
    forall key: string, cutoff: int
      ensures |Since(Lookup(store', key), cutoff)| <= |Since(Lookup(history', key), cutoff)|
    {
      CallShows(store, history, maxKeys, c, n, clock, key, cutoff);
      KeptShows(store, history, maxKeys, c, n, clock, key, cutoff);
    }
    forall key: string, i | 0 <= i < |Lookup(store', key)| ensures Lookup(store', key)[i] <= c.now {
      CallEntries(store, maxKeys, c, key, c.now);
    }
    forall key: string ensures |Lookup(history', key)| <= n + 1 {
      assert |Lookup(history, key)| <= n;
    }
  }

  /** The same keys, times and windows; the limits may differ. */
  predicate SameSchedule(tried: seq<Call>, calls: seq<Call>) {
    |tried| == |calls| && forall m | 0 <= m < |calls| :: tried[m] == calls[m].(limit := tried[m].limit)
  }

  /** Limits that let everything pass but the calls strictly between `k` and `i`. */
  function Tried(calls: seq<Call>, k: nat, i: nat): (tried: seq<Call>)
    ensures SameSchedule(tried, calls)
    ensures forall m | 0 <= m < |calls| :: tried[m].limit == if k < m < i then 0 else |calls| + 1
  {
    seq(|calls|, m requires 0 <= m < |calls| => calls[m].(limit := if k < m < i then 0 else |calls| + 1))
  }

  lemma {:induction false} TriedDominated(maxKeys: int, tried: seq<Call>, n: nat)
    requires InTime(tried) && n < |tried| && forall m | 0 <= m < |tried| :: tried[m].limit in {0, |tried| + 1}
    ensures Dominated(StoreAfter(maxKeys, tried[..n]), HistoryAfter(tried[..n]), n, tried[n].now)
  {
    hide Check, CheckFull, Dominated;
    if n == 0 {
      assert tried[..0] == [];
      EmptyDominated(tried[0].now);
    } else {
      TriedDominated(maxKeys, tried, n - 1);
      CallDominated(StoreAfter(maxKeys, tried[..n - 1]), HistoryAfter(tried[..n - 1]), maxKeys, tried[n - 1], n - 1,
          tried[n - 1].now);
      OneMore(maxKeys, tried, n - 1);
      DominatedLater(StoreAfter(maxKeys, tried[..n]), HistoryAfter(tried[..n]), n, tried[n - 1].now, tried[n].now);
    }
  }

  lemma EmptyDominated(clock: int)
    ensures Dominated(map[], map[], 0, clock)
  {
  }

  lemma DominatedLater(store: Stamps, history: Stamps, n: nat, clock: int, now: int)
    requires Dominated(store, history, n, clock) && clock <= now
    ensures Dominated(store, history, n, now)
  {
  }

  /** Call `i` may forget the entry of call `k`, and call `j` looks at it. */
  predicate Loses(calls: seq<Call>, k: nat, i: nat, j: nat) {
    && k < i < j < |calls| && calls[k].key == calls[j].key
    && calls[j].Cutoff() < calls[k].now <= Horizon(calls[i], calls[k].key)
  }

  /** Until call `i`, the history has the entry of call `k` and the store has nothing later of its key. */
  lemma {:induction false} EntryWaits(tried: seq<Call>, k: nat, i: nat, n: nat)
    requires InTime(tried) && k < n <= i < |tried| && tried[k].limit == |tried| + 1
    requires forall m | 0 <= m < |tried| :: tried[m].limit in {0, |tried| + 1}
    requires forall m | k < m < i :: tried[m].limit == 0
    ensures tried[k].now in Lookup(HistoryAfter(tried[..n]), tried[k].key)
    ensures var list := Lookup(StoreAfter(-1, tried[..n]), tried[k].key);
            forall x | 0 <= x < |list| :: list[x] <= tried[k].now
  {
    hide Check, Dominated;
    TriedDominated(-1, tried, n - 1);
    var store, history := StoreAfter(-1, tried[..n - 1]), HistoryAfter(tried[..n - 1]);
    BothDecide(store, history, -1, tried[n - 1], n - 1, tried[n - 1].now);
    OneMore(-1, tried, n - 1);
    if n - 1 > k {
      EntryWaits(tried, k, i, n - 1);
    } else {
      DominatedEntries(store, history, n - 1, tried[k].now, tried[k].key);
    }
    CallEntries(store, -1, tried[n - 1], tried[k].key, tried[k].now);
  }

  lemma DominatedEntries(store: Stamps, history: Stamps, n: nat, clock: int, key: string)
    requires Dominated(store, history, n, clock)
    ensures forall x | 0 <= x < |Lookup(store, key)| :: Lookup(store, key)[x] <= clock
  {
  }

  /** The store shows less of the key than the history. */
  ghost predicate Gap(store: Stamps, history: Stamps, key: string, cutoff: int) {
    |Since(Lookup(store, key), cutoff)| < |Since(Lookup(history, key), cutoff)|
  }

  lemma EvictionGap(store: Stamps, history: Stamps, c: Call, key: string, t: int, cutoff: int)
    requires t in Lookup(history, key) && cutoff < t <= Horizon(c, key) && key != c.key
    requires forall x | 0 <= x < |Lookup(store, key)| :: Lookup(store, key)[x] <= t
    ensures Gap(Check(store, -1, c).0, CheckFull(history, c).0, key, cutoff)
  {
    hide Since, Decide;
    KeptLookup(store, -1, c, key);
    EmptySince(cutoff);
    SinceEntries(Lookup(history, key), cutoff);
    assert Lookup(Kept(store, -1, c), key) == [];
  }

  lemma PruningGap(store: Stamps, history: Stamps, c: Call, n: nat, clock: int, t: int, cutoff: int)
    requires Dominated(store, history, n, clock) && c.limit > n
    requires t in Lookup(history, c.key) && cutoff < t <= c.Cutoff()
    ensures Gap(Check(store, -1, c).0, CheckFull(history, c).0, c.key, cutoff)
  {
    hide Since, Kept;
    BothDecide(store, history, -1, c, n, clock);
    KeptShows(store, history, -1, c, n, clock, c.key, c.Cutoff());
    var kept := Lookup(Kept(store, -1, c), c.key);
    var recent := Since(kept, c.Cutoff());
    SinceEntries(recent, cutoff);
    SinceAppended(recent, c.now, cutoff);
    SinceAppended(Lookup(history, c.key), c.now, cutoff);
    SinceSeesMore(Lookup(history, c.key), c.Cutoff(), cutoff);
  }

  /** From call `i` on, the store shows less than the history of what call `j` looks at. */
  lemma {:induction false} GapStays(tried: seq<Call>, k: nat, i: nat, j: nat, n: nat)
    requires InTime(tried) && Loses(tried, k, i, j) && i < n <= j
    requires forall m | 0 <= m < |tried| :: tried[m].limit == if k < m < i then 0 else |tried| + 1
    ensures Gap(StoreAfter(-1, tried[..n]), HistoryAfter(tried[..n]), tried[j].key, tried[j].Cutoff())
  {
    hide Check, CheckFull, Dominated;
    var store, history, c := StoreAfter(-1, tried[..n - 1]), HistoryAfter(tried[..n - 1]), tried[n - 1];
    TriedDominated(-1, tried, n - 1);
    OneMore(-1, tried, n - 1);
    if n - 1 > i {
      GapStays(tried, k, i, j, n - 1);
      CallShows(store, history, -1, c, n - 1, c.now, tried[j].key, tried[j].Cutoff());
    } else {
      EntryWaits(tried, k, i, i);
      if c.key == tried[j].key {
        PruningGap(store, history, c, n - 1, c.now, tried[k].now, tried[j].Cutoff());
      } else {
        EvictionGap(store, history, c, tried[j].key, tried[k].now, tried[j].Cutoff());
      }
    }
  }

  lemma GapShows(store: Stamps, history: Stamps, c: Call, n: nat, clock: int)
    requires Dominated(store, history, n, clock) && c.limit > n && Gap(store, history, c.key, c.Cutoff())
    ensures Check(store, -1, c).1 != CheckFull(history, c).1
  {
    hide Since, Kept;
    BothDecide(store, history, -1, c, n, clock);
    KeptShows(store, history, -1, c, n, clock, c.key, c.Cutoff());
  }

  lemma LossShows(calls: seq<Call>, k: nat, i: nat, j: nat)
    requires InTime(calls) && Loses(calls, k, i, j)
    ensures Decisions(-1, Tried(calls, k, i)) != DecisionsFull(Tried(calls, k, i))
  {
    hide Check, CheckFull, Dominated, Gap, Decisions, DecisionsFull;
    var tried := Tried(calls, k, i);
    TriedDominated(-1, tried, j);
    GapStays(tried, k, i, j, j);
    GapShows(StoreAfter(-1, tried[..j]), HistoryAfter(tried[..j]), tried[j], j, tried[j].now);
    DecisionAt(-1, tried, j);
  }

  /** For any keys, times and windows: the limiter decides as the whole history would, whatever the limits
      and the size of the store, exactly when nothing a call may forget is looked at by a later call. */
  lemma DecidesAsHistoryIff(calls: seq<Call>)
    requires InTime(calls)
    ensures (forall maxKeys, tried | SameSchedule(tried, calls) :: Decisions(maxKeys, tried) == DecisionsFull(tried))
            <==> ForgetsNothingNeeded(calls)
  {
    hide Decisions, DecisionsFull, ForgetsNothingNeeded, InTime;
    if ForgetsNothingNeeded(calls) {
      forall maxKeys, tried | SameSchedule(tried, calls) ensures Decisions(maxKeys, tried) == DecisionsFull(tried) {
        ScheduleDecides(tried, calls);
        NothingNeededAgrees(maxKeys, tried);
      }
    } else {
      var k, i, j := SomeLoss(calls);
      LossShows(calls, k, i, j);
    }
  }

  lemma ScheduleDecides(tried: seq<Call>, calls: seq<Call>)
    requires SameSchedule(tried, calls)
    ensures InTime(calls) ==> InTime(tried)
    ensures ForgetsNothingNeeded(calls) ==> ForgetsNothingNeeded(tried)
  {
    forall m | 0 <= m < |calls|
      ensures tried[m].now == calls[m].now && tried[m].key == calls[m].key && tried[m].Cutoff() == calls[m].Cutoff()
      ensures forall key :: Horizon(tried[m], key) == Horizon(calls[m], key)
    {
    }
    hide Horizon, SameSchedule;
    if ForgetsNothingNeeded(calls) {
      forall k, i, j | 0 <= k < i < j < |tried| && tried[k].key == tried[j].key
          && tried[k].now <= Horizon(tried[i], tried[k].key)
        ensures tried[k].now <= tried[j].Cutoff()
      {
        assert calls[k].now <= Horizon(calls[i], calls[k].key);
      }
    }
  }

  lemma SomeLoss(calls: seq<Call>) returns (k: nat, i: nat, j: nat)
    requires !ForgetsNothingNeeded(calls)
    ensures Loses(calls, k, i, j)
  {
    hide Horizon;
    k, i, j :| 0 <= k < i < j < |calls| && calls[k].key == calls[j].key
      && calls[k].now <= Horizon(calls[i], calls[k].key) && !(calls[k].now <= calls[j].Cutoff());
  }

  /** The start of every window lies at or behind the start of the window before. */
  predicate CutoffsNeverGoBack(calls: seq<Call>) {
    && (forall i | 0 <= i < |calls| :: calls[i].window >= 0)
    && (forall i, j | 0 <= i < j < |calls| :: calls[i].Cutoff() <= calls[j].Cutoff())
  }

  /** With windows that never start earlier than the one before, such as one fixed window, neither pruning
      nor eviction ever changes a decision. */
  lemma LimiterRefinesFullHistory(maxKeys: int, calls: seq<Call>)
    requires InTime(calls) && CutoffsNeverGoBack(calls)
    ensures Decisions(maxKeys, calls) == DecisionsFull(calls)
  {
    assert forall i, key | 0 <= i < |calls| :: Horizon(calls[i], key) <= calls[i].Cutoff();
    NothingNeededAgrees(maxKeys, calls);
  }

  /** The limiter decides as the whole history after `before` and two more calls of a key, whatever the limits. */
  ghost predicate BothDecideAsHistory(before: seq<Call>, first: Call, second: Call) {
    forall maxKeys, tried | SameSchedule(tried, before + [first, second]) ::
        Decisions(maxKeys, tried) == DecisionsFull(tried)
  }

  ghost predicate Harmless(before: seq<Call>, first: Call, second: Call) {
    InTime(before + [first, second]) && ForgetsNothingNeeded(before + [first])
  }

  lemma StaysHarmless(before: seq<Call>, first: Call, second: Call)
    requires first.key == second.key && first.Cutoff() <= second.Cutoff() && Harmless(before, first, second)
    ensures BothDecideAsHistory(before, first, second)
  {
    var calls, shorter := before + [first, second], before + [first];
    var n := |before|;
    forall k, i, j | 0 <= k < i < j < |calls| && calls[k].key == calls[j].key
        && calls[k].now <= Horizon(calls[i], calls[k].key)
      ensures calls[k].now <= calls[j].Cutoff()
    {
      assert calls[k] == shorter[k] && calls[i] == shorter[i] && shorter[n] == first;
      if j <= n {
        assert calls[j] == shorter[j];
      } else if i < n {
        assert shorter[k].now <= shorter[n].Cutoff();
      }
    }
    assert ForgetsNothingNeeded(calls);
    hide ForgetsNothingNeeded, InTime, Decisions, DecisionsFull, SameSchedule;
    forall maxKeys, tried | SameSchedule(tried, calls) ensures Decisions(maxKeys, tried) == DecisionsFull(tried) {
      ScheduleDecides(tried, calls);
      NothingNeededAgrees(maxKeys, tried);
    }
  }

  /** When a key's window changes from one call to the next: after every harmless run the limiter still decides
      as the whole history would, exactly when the second window does not start before the first. */
  lemma WindowChangeHarmlessIff(first: Call, second: Call)
    requires first.key == second.key && first.now <= second.now && first.window >= 0
    ensures (forall before | Harmless(before, first, second) :: BothDecideAsHistory(before, first, second))
            <==> first.Cutoff() <= second.Cutoff()
  {
    hide Harmless, BothDecideAsHistory;
    if first.Cutoff() <= second.Cutoff() {
      forall before | Harmless(before, first, second) ensures BothDecideAsHistory(before, first, second) {
        StaysHarmless(before, first, second);
      }
    } else {
      EarlierWindowForgets(first, second);
    }
  }

  /** A request accepted just before the first window is pruned by it, and the second window asks for it. */
  lemma EarlierWindowForgets(first: Call, second: Call)
    requires first.key == second.key && first.now <= second.now && first.window >= 0
    requires second.Cutoff() < first.Cutoff()
    ensures var before := [Call(first.key, 1, first.Cutoff(), 0)];
            Harmless(before, first, second) && !BothDecideAsHistory(before, first, second)
  {
    var calls := [Call(first.key, 1, first.Cutoff(), 0)] + [first, second];
    assert Loses(calls, 0, 1, 2);
    LossShows(calls, 0, 1, 2);
    assert SameSchedule(Tried(calls, 0, 1), calls);
  }

  lemma ShortWindowPrunes(key: string)
    ensures var a, b, first := Call(key, 1, 0, 6000), Call(key, 1, 500, 10), map[key := [0]];
            && Check(map[], 10, a) == (first, Allowed(0)) && CheckFull(map[], a) == (first, Allowed(0))
            && Check(first, 10, b) == (map[key := [500]], Allowed(0))
            && CheckFull(first, b) == (map[key := [0, 500]], Allowed(0))
  {
    assert Since([0], 490) == [];
    var first := map[key := [0]];
    assert [] + [500] == [500] && [0] + [500] == [0, 500] && [] + [0] == [0];
    assert first[key := [] + [500]] == map[key := [500]] && first[key := [0] + [500]] == map[key := [0, 500]];
  }

  lemma LongWindowMisses(key: string)
    ensures var c := Call(key, 2, 1000, 6000);
            && Check(map[key := [500]], 10, c).1 == Allowed(0)
            && CheckFull(map[key := [0, 500]], c).1 == Limited(5000)
  {
    assert Since([500], -5000) == [500];
    assert Since([0, 500], -5000) == [0, 500] by {
      assert [0, 500][..1] == [0];
    }
  }

  /** A window of a tenth of a second between two of a minute: the third request passes a limit it would not pass. */
  lemma GrowingWindowForgets(key: string)
    ensures var calls := [Call(key, 1, 0, 6000), Call(key, 1, 500, 10), Call(key, 2, 1000, 6000)];
            Decisions(10, calls)[2] == Allowed(0) && DecisionsFull(calls)[2] == Limited(5000)
  {
    var a, b, c := Call(key, 1, 0, 6000), Call(key, 1, 500, 10), Call(key, 2, 1000, 6000);
    var calls := [a, b, c];
    ShortWindowPrunes(key);
    LongWindowMisses(key);
    hide Check, CheckFull;
    assert calls[..0] == [] && calls[..2][..1] == calls[..1];
    OneMore(10, calls, 0);
    OneMore(10, calls, 1);
    DecisionAt(10, calls, 2);
  }

  // ---- What the decisions mean ----

  /** How many entries lie in the window that ends at `x`. */
  function InWindow(s: seq<int>, x: int, window: int): nat {
    if s == [] then 0
    else InWindow(s[..|s| - 1], x, window) + (if x - window < s[|s| - 1] <= x then 1 else 0)
  }

  /** Each entry was accepted with fewer than `limit` in the window before it. */
  ghost predicate Spaced(s: seq<int>, window: int, limit: int) {
    forall i | 0 <= i < |s| :: |Since(s[..i], s[i] - window)| < limit
  }

  lemma {:induction false} WindowIsSince(s: seq<int>, x: int, window: int)
    requires Past(s, x)
    ensures InWindow(s, x, window) == |Since(s, x - window)|
  {
    if s != [] {
      WindowIsSince(s[..|s| - 1], x, window);
    }
  }

  lemma {:induction false} WindowGrows(s: seq<int>, x: int, y: int, window: int)
    requires Past(s, y) && y <= x
    ensures InWindow(s, x, window) <= InWindow(s, y, window)
  {
    if s != [] {
      WindowGrows(s[..|s| - 1], x, y, window);
    }
  }

  lemma {:induction false} PastWindow(s: seq<int>, x: int, window: int)
    requires Past(s, x - window)
    ensures InWindow(s, x, window) == 0
  {
    if s != [] {
      PastWindow(s[..|s| - 1], x, window);
    }
  }

  lemma SpacedPrefix(s: seq<int>, window: int, limit: int)
    requires Spaced(s, window, limit) && s != []
    ensures Spaced(s[..|s| - 1], window, limit)
  {
    forall i | 0 <= i < |s| - 1 ensures s[..|s| - 1][..i] == s[..i] {
    }
  }

  lemma {:induction false} SpacedBounds(s: seq<int>, x: int, window: int, limit: nat, clock: int)
    requires Past(s, clock) && Spaced(s, window, limit)
    ensures InWindow(s, x, window) <= limit
  {
    if s != [] {
      var front, last := s[..|s| - 1], s[|s| - 1];
      SpacedPrefix(s, window, limit);
      if x < last {
        SpacedBounds(front, x, window, limit, last);
      } else if last <= x - window {
        PastWindow(s, x, window);
      } else {
        WindowGrows(front, x, last, window);
        WindowIsSince(front, last, window);
      }
    }
  }

  lemma {:induction false} WindowOfPrefix(s: seq<int>, i: nat, x: int, window: int)
    requires i <= |s|
    ensures InWindow(s[..i], x, window) <= InWindow(s, x, window)
  {
    if i < |s| {
      assert s[..|s| - 1][..i] == s[..i];
      WindowOfPrefix(s[..|s| - 1], i, x, window);
    } else {
      assert s[..i] == s;
    }
  }

  /** No window, wherever it ends, holds more than `limit` entries. */
  ghost predicate Bounded(s: seq<int>, window: int, limit: nat) {
    forall x: int :: InWindow(s, x, window) <= limit
  }

  lemma BoundedSpaces(s: seq<int>, window: int, limit: nat, clock: int)
    requires Past(s, clock) && window > 0 && Bounded(s, window, limit)
    ensures Spaced(s, window, limit)
  {
    forall i | 0 <= i < |s| ensures |Since(s[..i], s[i] - window)| < limit {
      assert s[..i + 1][..i] == s[..i];
      WindowIsSince(s[..i], s[i], window);
      WindowOfPrefix(s, i + 1, s[i], window);
      assert InWindow(s[..i + 1], s[i], window) == InWindow(s[..i], s[i], window) + 1;
    }
  }

  /** A history keeps to the limit in every window exactly when each entry was accepted below the limit. */
  lemma WindowsBoundedIffSpaced(s: seq<int>, window: int, limit: nat, clock: int)
    requires Past(s, clock) && window > 0
    ensures Spaced(s, window, limit) <==> Bounded(s, window, limit)
  {
    hide Spaced, Past, InWindow;
    if Spaced(s, window, limit) {
      forall x ensures InWindow(s, x, window) <= limit {
        SpacedBounds(s, x, window, limit, clock);
      }
    } else if Bounded(s, window, limit) {
      BoundedSpaces(s, window, limit, clock);
    }
  }

  /** A key that every call checks with the same limit and window. */
  predicate FixedPolicy(calls: seq<Call>, key: string, limit: int, window: int) {
    forall i | 0 <= i < |calls| && calls[i].key == key :: calls[i].limit == limit && calls[i].window == window
  }

  /** The times at which requests of the key were accepted. */
  function AcceptedTimes(calls: seq<Call>, ds: seq<Decision>, key: string): seq<int>
    requires |ds| == |calls|
  {
    if calls == [] then []
    else
      var n := |calls| - 1;
      AcceptedTimes(calls[..n], ds[..n], key) + (if calls[n].key == key && ds[n].Allowed? then [calls[n].now] else [])
  }

  lemma {:induction false} HistoryIsAccepted(calls: seq<Call>, key: string)
    ensures Lookup(HistoryAfter(calls), key) == AcceptedTimes(calls, DecisionsFull(calls), key)
  {
    hide Decide, Since;
    if calls != [] {
      var n := |calls| - 1;
      HistoryIsAccepted(calls[..n], key);
      assert DecisionsFull(calls)[..n] == DecisionsFull(calls[..n]);
    }
  }

  lemma SpacedAppended(s: seq<int>, t: int, window: int, limit: int)
    requires Spaced(s, window, limit) && |Since(s, t - window)| < limit
    ensures Spaced(s + [t], window, limit)
  {
    hide Since;
    forall i | 0 <= i < |s + [t]| ensures |Since((s + [t])[..i], (s + [t])[i] - window)| < limit {
      assert (s + [t])[..i] == s[..i];
      assert s[..|s|] == s;
    }
  }

  lemma {:induction false} HistorySpaced(calls: seq<Call>, key: string, limit: int, window: int, clock: int)
    requires InTime(calls) && FixedPolicy(calls, key, limit, window)
    requires forall i | 0 <= i < |calls| :: calls[i].now <= clock
    ensures Past(Lookup(HistoryAfter(calls), key), clock) && Spaced(Lookup(HistoryAfter(calls), key), window, limit)
  {
    hide Since, Spaced, Past;
    if calls == [] {
      EmptyIsPast(clock);
      EmptySpaced(window, limit);
    } else {
      var n := |calls| - 1;
      var c, history := calls[n], HistoryAfter(calls[..n]);
      HistorySpaced(calls[..n], key, limit, window, c.now);
      if c.key == key && CheckFull(history, c).1.Allowed? {
        SpacedAppended(Lookup(history, key), c.now, window, limit);
        PastAppended(Lookup(history, key), c.now);
      } else {
        assert Lookup(HistoryAfter(calls), key) == Lookup(history, key);
      }
      PastLater(Lookup(HistoryAfter(calls), key), c.now, clock);
    }
  }

  lemma EmptySpaced(window: int, limit: int)
    ensures Spaced([], window, limit)
  {
  }

  /** No call for another key may evict an entry of this key that a later call for it looks at. */
  ghost predicate OthersSpare(calls: seq<Call>, key: string) {
    forall k, i, j | 0 <= k < i < j < |calls| && calls[k].key == key && calls[i].key != key && calls[j].key == key
        && calls[k].now <= Horizon(calls[i], key) ::
      calls[k].now <= calls[j].Cutoff()
  }

  /** A key's own calls forget nothing it needs while its window stays the same. */
  lemma OwnCallsSpare(calls: seq<Call>, key: string, limit: int, window: int)
    requires InTime(calls) && FixedPolicy(calls, key, limit, window)
    ensures OthersSpare(calls, key) <==> ForgetsNothingOf(calls, key)
  {
    forall k, i, j | 0 <= k < i < j < |calls| && calls[i].key == key && calls[j].key == key
        && calls[k].now <= Horizon(calls[i], key)
      ensures calls[k].now <= calls[j].Cutoff()
    {
    }
  }

  lemma {:induction false} SameAccepted(calls: seq<Call>, ds: seq<Decision>, es: seq<Decision>, key: string)
    requires |ds| == |es| == |calls| && forall j | 0 <= j < |calls| && calls[j].key == key :: ds[j] == es[j]
    ensures AcceptedTimes(calls, ds, key) == AcceptedTimes(calls, es, key)
  {
    if calls != [] {
      var n := |calls| - 1;
      SameAccepted(calls[..n], ds[..n], es[..n], key);
    }
  }

  /** A key that always has the same limit and window never has more accepted requests in a window than the limit, as
      long as no call for another key evicts what this key still needs; a limit below one accepts none. */
  lemma NoWindowOverfull(maxKeys: int, calls: seq<Call>, key: string, limit: int, window: int, x: int)
    requires InTime(calls) && FixedPolicy(calls, key, limit, window) && OthersSpare(calls, key)
    ensures InWindow(AcceptedTimes(calls, Decisions(maxKeys, calls), key), x, window) <= if limit > 0 then limit else 0
  {
    hide ForgetsNothingOf, OthersSpare, InWindow, Decisions, DecisionsFull, HistoryAfter, Since;
    if calls != [] {
      OwnCallsSpare(calls, key, limit, window);
      NothingOfKeyAgrees(maxKeys, calls, key);
      SameAccepted(calls, Decisions(maxKeys, calls), DecisionsFull(calls), key);
      HistoryIsAccepted(calls, key);
      HistorySpaced(calls, key, limit, window, calls[|calls| - 1].now);
      SpacedBounds(Lookup(HistoryAfter(calls), key), x, window, if limit > 0 then limit else 0, calls[|calls| - 1].now);
    } else {
      EmptyWindow(x, window);
    }
  }

  lemma EmptyWindow(x: int, window: int)
    ensures InWindow([], x, window) == 0
  {
  }

  // ---- When to come back ----

  /** The entry whose end makes room for one more request. */
  function Blocking(history: Stamps, c: Call): int
    requires 0 < c.limit <= |Since(Lookup(history, c.key), c.Cutoff())|
  {
    var recent := Since(Lookup(history, c.key), c.Cutoff());
    recent[|recent| - c.limit]
  }

  lemma {:induction false} SinceCounts(s: seq<int>, clock: int, cutoff: int, limit: nat)
    requires Past(s, clock) && 0 < limit <= |s|
    ensures |Since(s, cutoff)| < limit <==> s[|s| - limit] <= cutoff
  {
    var n := |s| - 1;
    if s[n] <= cutoff {
      SincePast(s, cutoff, clock);
    } else if limit > 1 {
      SinceCounts(s[..n], s[n], cutoff, limit - 1);
    }
  }

  /** With nothing accepted in between, a refused request is accepted exactly once the blocking entry has left the
      window. */
  lemma AcceptedAgainIff(history: Stamps, c: Call, later: int)
    requires Past(Lookup(history, c.key), c.now) && c.now <= later && c.limit > 0 && CheckFull(history, c).1.Limited?
    ensures CheckFull(history, c.(now := later)).1.Allowed? <==> later >= Blocking(history, c) + c.window
  {
    hide Since;
    var all := Lookup(history, c.key);
    var recent := Since(all, c.Cutoff());
    SincePast(all, c.Cutoff(), c.now);
    SincePruned(all, c.Cutoff(), later - c.window);
    SinceCounts(recent, c.now, later - c.window, c.limit);
  }

  /** The retry time is exact - refused before it, accepted from it on - exactly when it is the time at which
      the blocking entry leaves; for a key at its limit that is so unless the floor of a tenth of a second applies. */
  lemma RetryAfterIsExactIff(history: Stamps, c: Call)
    requires Past(Lookup(history, c.key), c.now) && c.limit > 0 && CheckFull(history, c).1.Limited?
    ensures var retry, free := c.now + CheckFull(history, c).1.retryAfter, Blocking(history, c) + c.window;
            && ((forall later | c.now <= later ::
                CheckFull(history, c.(now := later)).1.Allowed? <==> later >= retry) <==> retry == free)
            && (|Since(Lookup(history, c.key), c.Cutoff())| == c.limit ==>
                  retry >= free && (retry == free <==> free - c.now >= MIN_RETRY))
  {
    var all := Lookup(history, c.key);
    var recent := Since(all, c.Cutoff());
    var retry, free := c.now + CheckFull(history, c).1.retryAfter, Blocking(history, c) + c.window;
    SinceEntries(all, c.Cutoff());
    assert recent[0] in recent && recent[|recent| - c.limit] in recent;
    forall later | c.now <= later ensures CheckFull(history, c.(now := later)).1.Allowed? <==> later >= free {
      AcceptedAgainIff(history, c, later);
    }
    hide CheckFull, Since, Blocking;
    if retry < free {
      assert !CheckFull(history, c.(now := retry)).1.Allowed?;
    } else if free < retry {
      assert CheckFull(history, c.(now := free)).1.Allowed?;
    }
  }

  lemma {:induction false} SinceBegins(s: seq<int>, cutoff: int, i: nat)
    requires i < |s| && s[i] > cutoff && forall j | 0 <= j < i :: s[j] <= cutoff
    ensures Since(s, cutoff) != [] && Since(s, cutoff)[0] == s[i]
  {
    var n := |s| - 1;
    if i < n {
      SinceBegins(s[..n], cutoff, i);
    } else {
      SinceNone(s[..n], cutoff);
    }
  }

  /** What a refused caller is told: the time until the first entry of its window leaves, or a tenth of a second if that
      is sooner; so it is never too early for that entry, and late by less than a tenth of a second. */
  lemma RetryAfterIsNear(history: Stamps, c: Call, i: nat)
    requires c.limit > 0 && CheckFull(history, c).1.Limited? && i < |Lookup(history, c.key)|
    requires Lookup(history, c.key)[i] > c.now - c.window
    requires forall j | 0 <= j < i :: Lookup(history, c.key)[j] <= c.now - c.window
    ensures var wait, told := Lookup(history, c.key)[i] + c.window - c.now, CheckFull(history, c).1.retryAfter;
            && wait >= 1 && 0 <= told - wait < 10 && told >= 10 && (wait >= 10 ==> told == wait)
  {
    SinceBegins(Lookup(history, c.key), c.Cutoff(), i);
    hide Since;
  }

  /** What an accepted caller is told: how many more requests its window takes right now. */
  lemma RemainingIsWhatFits(history: Stamps, c: Call)
    requires CheckFull(history, c).1.Allowed?
    ensures var more, left := CheckFull(history, c).0, CheckFull(history, c).1.remaining;
            && left + |Since(Lookup(more, c.key), c.now - c.window)| == (if c.window > 0 then c.limit else c.limit - 1)
            && (c.window > 0 ==> (left > 0 <==> CheckFull(more, c).1.Allowed?))
  {
    SinceAppended(Lookup(history, c.key), c.now, c.Cutoff());
    hide Since;
  }

  /** A limit below one accepts nobody: with an entry in the window the caller is told when it leaves; with none the
      lookup of the earliest entry fails, and nothing is stored for the key. */
  lemma LimitBelowOne(store: Stamps, maxKeys: int, c: Call)
    requires c.limit < 1 && |store| <= maxKeys
    ensures var recent, d := Since(Lookup(store, c.key), c.now - c.window), Check(store, maxKeys, c).1;
            && (d == Crashed <==> recent == []) && (d.Limited? <==> recent != [])
            && (d == Crashed ==> Check(store, maxKeys, c).0 == store)
  {
    hide Since;
  }

  // ---- The limiter object ----

  class SlidingWindowLimiter {
    const maxKeys: int
    var store: Stamps

    constructor (maxKeys: int)
      ensures this.maxKeys == maxKeys && store == map[]
    {
      this.maxKeys, store := maxKeys, map[];
    }

    /** The entries after the cutoff, one by one. */
    method Prune(stamps: seq<int>, cutoff: int) returns (recent: seq<int>)
      ensures recent == Since(stamps, cutoff)
    {
      recent := [];
      for i := 0 to |stamps|
        invariant recent == Since(stamps[..i], cutoff)
      {
        assert stamps[..i + 1][..i] == stamps[..i];
        if stamps[i] > cutoff {
          recent := recent + [stamps[i]];
        }
      }
      assert stamps[..|stamps|] == stamps;
    }

    method CheckRateLimit(key: string, maxRequests: int, window: int, now: int) returns (d: Decision)
      modifies this
      ensures (store, d) == Check(old(store), maxKeys, Call(key, maxRequests, now, window))
    {
      if |store| > maxKeys {
        var staleKeys := set k | k in store && Stale(store[k], now - window * 2);
        store := store - staleKeys;
        assert store == EvictStale(old(store), now - window * 2);
      }
      var recent := Prune(if key in store then store[key] else [], now - window);
      if |recent| >= maxRequests {
        if recent == [] {
          return Crashed;
        }
        store := store[key := recent];
        var wait := window - (now - recent[0]);
        return Limited(if wait < MIN_RETRY then MIN_RETRY else wait);
      }
      store := store[key := recent + [now]];
      return Allowed(maxRequests - |recent| - 1);
    }
  }
}
