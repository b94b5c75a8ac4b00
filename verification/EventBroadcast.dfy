/** The event stream of the orchestration service: bounded subscriber queues that drop ordinary events
    under pressure and evict the oldest event for a critical one. */
module EventBroadcast {

  datatype Event = Event(kind: string, data: string)

  const CRITICAL_EVENTS: set<string> :=
    {"run_started", "human_review_required", "human_decision_submitted", "run_completed", "run_failed",
        "run_cancelled", "stream_closed"}

  const CLOSING_EVENTS: set<string> := {"run_completed", "run_failed", "run_cancelled"}

  const CAPACITY: nat := 100

  predicate Critical(e: Event) { e.kind in CRITICAL_EVENTS }

  predicate Closing(e: Event) { e.kind in CLOSING_EVENTS }

  /** One subscriber. Besides the queue: what it has received and what was published since it joined, and
      the positions in the latter of everything it has received or will. */
  datatype Channel = Channel(queue: seq<Event>, received: seq<Event>, published: seq<Event>, kept: seq<nat>)

  const JOINED: Channel := Channel([], [], [], [])

  /** An event is published to the subscriber. */
  function Offer(c: Channel, e: Event): Channel {
    var here := |c.published|;
    var told := c.(published := c.published + [e]);
    if |c.queue| < CAPACITY then told.(queue := c.queue + [e], kept := c.kept + [here])
    else if Critical(e) && |c.received| < |c.kept| then
      told.(queue := c.queue[1..] + [e], kept := c.kept[..|c.received|] + c.kept[|c.received| + 1..] + [here])
    else told
  }

  /** The subscriber reads the first event of its queue. */
  function Read(c: Channel): Channel
    requires c.queue != []
  {
    c.(queue := c.queue[1..], received := c.received + [c.queue[0]])
  }

  ghost predicate Increasing(s: seq<nat>) {
    forall i, j | 0 <= i < j < |s| :: s[i] < s[j]
  }

  /** Received and queued events are published ones at increasing positions. */
  ghost predicate InOrder(c: Channel) {
    && |c.kept| == |c.received| + |c.queue| && Increasing(c.kept)
    && (forall i | 0 <= i < |c.kept| :: c.kept[i] < |c.published|)
    && (forall i | 0 <= i < |c.received| :: c.published[c.kept[i]] == c.received[i])
    && (forall i | 0 <= i < |c.queue| :: c.published[c.kept[|c.received| + i]] == c.queue[i])
  }

  /** The critical event at `p` has no critical event behind it. */
  ghost predicate LatestCritical(published: seq<Event>, p: nat) {
    p < |published| && Critical(published[p]) && forall q | p < q < |published| :: !Critical(published[q])
  }

  ghost predicate LatestIsKept(c: Channel) {
    forall p | LatestCritical(c.published, p) :: p in c.kept
  }

  ghost predicate Sound(c: Channel) {
    |c.queue| <= CAPACITY && InOrder(c) && LatestIsKept(c)
  }

  lemma EnqueueKeepsOrder(c: Channel, e: Event)
    requires InOrder(c) && |c.queue| < CAPACITY
    ensures InOrder(Offer(c, e))
  {
  }

  lemma DropKeepsOrder(c: Channel, e: Event)
    requires InOrder(c)
    ensures InOrder(c.(published := c.published + [e]))
  {
  }

  /** Without its oldest waiting event the channel is in order still. */
  lemma EvictKeepsOrder(c: Channel)
    requires InOrder(c) && c.queue != []
    ensures InOrder(c.(queue := c.queue[1..], kept := c.kept[..|c.received|] + c.kept[|c.received| + 1..]))
  {
    var n := |c.received|;
    var kept := c.kept[..n] + c.kept[n + 1..];
    assert forall i | 0 <= i < |kept| :: kept[i] == if i < n then c.kept[i] else c.kept[i + 1];
  }

  lemma OfferKeepsOrder(c: Channel, e: Event)
    requires InOrder(c) && |c.queue| <= CAPACITY
    ensures InOrder(Offer(c, e)) && |Offer(c, e).queue| <= CAPACITY
  {
    if |c.queue| < CAPACITY {
      EnqueueKeepsOrder(c, e);
    } else if Critical(e) {
      var evicted := c.(queue := c.queue[1..], kept := c.kept[..|c.received|] + c.kept[|c.received| + 1..]);
      EvictKeepsOrder(c);
      EnqueueKeepsOrder(evicted, e);
      hide InOrder;
      assert Offer(c, e) == Offer(evicted, e);
    } else {
      DropKeepsOrder(c, e);
    }
  }

  lemma OfferKeepsLatest(c: Channel, e: Event)
    requires Sound(c)
    ensures LatestIsKept(Offer(c, e))
  {
    var d := Offer(c, e);
    forall p | LatestCritical(d.published, p) ensures p in d.kept {
      if p == |c.published| {
        assert d.kept[|d.kept| - 1] == p;
      } else {
        assert !Critical(d.published[|c.published|]);
        assert LatestCritical(c.published, p) by {
          assert forall q | 0 <= q < |c.published| :: d.published[q] == c.published[q];
        }
      }
    }
  }

  lemma OfferKeeps(c: Channel, e: Event)
    requires Sound(c)
    ensures Sound(Offer(c, e))
  {
    OfferKeepsOrder(c, e);
    OfferKeepsLatest(c, e);
  }

  lemma ReadKeeps(c: Channel)
    requires Sound(c) && c.queue != []
    ensures Sound(Read(c))
  {
  }

  // ---- Which events are kept under pressure ----

  /** What begins or ends a run, asks a human or answers, and the end of the stream. */
  predicate Lifecycle(kind: string) {
    || kind == "run_started" || kind == "human_review_required" || kind == "human_decision_submitted"
    || kind == "run_completed" || kind == "run_failed" || kind == "run_cancelled" || kind == "stream_closed"
  }

  /** A queue with room takes every event; a full one takes exactly the lifecycle events, each in place of the event
      that has waited longest, and keeps what it has against any other. */
  lemma FullQueueTakesLifecycle(c: Channel, e: Event)
    requires Sound(c)
    ensures |c.queue| < 100 ==> Offer(c, e).queue == c.queue + [e]
    ensures |c.queue| == 100 ==> Offer(c, e).queue == if Lifecycle(e.kind) then c.queue[1..] + [e] else c.queue
    ensures Offer(c, e).received == c.received
  {
    assert Critical(e) <==> Lifecycle(e.kind);
    hide InOrder, Critical;
    SoundSizes(c);
  }

  lemma SoundSizes(c: Channel)
    requires Sound(c)
    ensures |c.kept| == |c.received| + |c.queue| && |c.queue| <= 100
  {
  }

  // ---- Runs of one subscriber ----

  datatype Action = Publish(event: Event) | Take

  function Act(c: Channel, a: Action): Channel {
    match a
    case Publish(e) => Offer(c, e)
    case Take => if c.queue == [] then c else Read(c)
  }

  function ActAll(c: Channel, actions: seq<Action>): Channel {
    if actions == [] then c else Act(ActAll(c, actions[..|actions| - 1]), actions[|actions| - 1])
  }

  function PublishedBy(actions: seq<Action>): seq<Event> {
    if actions == [] then []
    else PublishedBy(actions[..|actions| - 1]) + (match actions[|actions| - 1] case Publish(e) => [e] case Take => [])
  }

  lemma {:induction false} RunSound(actions: seq<Action>)
    ensures Sound(ActAll(JOINED, actions)) && ActAll(JOINED, actions).published == PublishedBy(actions)
  {
    hide Sound, Offer;
    if actions == [] {
      JoinedSound();
    } else {
      var before, last := actions[..|actions| - 1], actions[|actions| - 1];
      RunSound(before);
      var c := ActAll(JOINED, before);
      match last
      case Publish(e) =>
        OfferKeeps(c, e);
        OfferPublishes(c, e);
      case Take =>
        if c.queue != [] {
          ReadKeeps(c);
        }
    }
  }

  lemma JoinedSound()
    ensures Sound(JOINED)
  {
  }

  lemma OfferPublishes(c: Channel, e: Event)
    ensures Offer(c, e).published == c.published + [e]
  {
  }

  /** `kept` picks `chosen` out of `all`, in order. */
  ghost predicate Subsequence(chosen: seq<Event>, all: seq<Event>, kept: seq<nat>) {
    && |kept| == |chosen| && Increasing(kept)
    && forall i | 0 <= i < |kept| :: kept[i] < |all| && all[kept[i]] == chosen[i]
  }

  lemma SoundSubsequence(c: Channel)
    requires InOrder(c)
    ensures Subsequence(c.received + c.queue, c.published, c.kept)
  {
    var all, n := c.received + c.queue, |c.received|;
    forall i | 0 <= i < |c.kept| ensures c.published[c.kept[i]] == all[i] {
      assert i >= n ==> c.published[c.kept[n + (i - n)]] == c.queue[i - n];
    }
  }

  /** Whatever is published and read, in any order: what a subscriber has received followed by what waits for it
      is an order-preserving part of what was published since it joined, and at most 100 events wait. */
  lemma ReceivedAndQueuedAreSubsequence(actions: seq<Action>)
    ensures var c := ActAll(JOINED, actions);
            |c.queue| <= 100 && exists kept :: Subsequence(c.received + c.queue, PublishedBy(actions), kept)
  {
    RunSound(actions);
    hide ActAll, PublishedBy;
    var c := ActAll(JOINED, actions);
    SoundSubsequence(c);
    assert Subsequence(c.received + c.queue, PublishedBy(actions), c.kept);
  }

  /** A critical event is lost only to a later critical one that is not lost. */
  lemma CriticalLostOnlyToLater(actions: seq<Action>, p: nat)
    requires p < |PublishedBy(actions)| && Critical(PublishedBy(actions)[p])
    ensures var c := ActAll(JOINED, actions);
            exists q :: p <= q < |c.published| && q in c.kept && Critical(c.published[q])
                        && (c.published[q] in c.received || c.published[q] in c.queue)
  {
    RunSound(actions);
    hide ActAll, PublishedBy, Critical;
    var c := ActAll(JOINED, actions);
    var q := LastCriticalFrom(c.published, p);
    assert q in c.kept;
    var i :| 0 <= i < |c.kept| && c.kept[i] == q;
    SoundSubsequence(c);
    hide InOrder;
    assert c.published[q] == (c.received + c.queue)[i];
  }

  lemma {:induction false} LastCriticalFrom(published: seq<Event>, p: nat) returns (q: nat)
    requires p < |published| && Critical(published[p])
    ensures p <= q && LatestCritical(published, q)
  {
    var n := |published| - 1;
    if Critical(published[n]) {
      q := n;
    } else {
      q := LastCriticalFrom(published[..n], p);
      assert forall r | q < r < n :: published[r] == published[..n][r];
    }
  }

  /** No publication found the queue full. */
  predicate NoPressure(actions: seq<Action>) {
    actions == []
    || (NoPressure(actions[..|actions| - 1])
        && (actions[|actions| - 1].Publish? ==> |ActAll(JOINED, actions[..|actions| - 1]).queue| < CAPACITY))
  }

  /** A subscriber that keeps up loses nothing. */
  lemma {:induction false} NothingLostWithoutPressure(actions: seq<Action>)
    requires NoPressure(actions)
    ensures var c := ActAll(JOINED, actions); c.received + c.queue == PublishedBy(actions)
  {
    if actions != [] {
      NothingLostWithoutPressure(actions[..|actions| - 1]);
    }
  }

  /** The subscriber's loop: read until a closing event was read or nothing waits. */
  function Listen(c: Channel): Channel
    decreases |c.queue|
  {
    if c.queue == [] then c
    else if Closing(c.queue[0]) then Read(c)
    else Listen(Read(c))
  }

  lemma {:induction false} ListenStopsAtClosing(c: Channel, i: nat)
    requires i < |c.queue| && Closing(c.queue[i])
    ensures Listen(c).received != [] && Closing(Listen(c).received[|Listen(c).received| - 1])
    decreases |c.queue|
  {
    if !Closing(c.queue[0]) {
      ListenStopsAtClosing(Read(c), i - 1);
    }
  }

  /** Once the run has ended - the latest critical event published is a closing one - a subscriber that has not
      seen a closing event learns of the end by reading on, however many events it lost. */
  lemma SubscriberLearnsOfTheEnd(actions: seq<Action>, p: nat)
    requires LatestCritical(PublishedBy(actions), p) && Closing(PublishedBy(actions)[p])
    requires forall e | e in ActAll(JOINED, actions).received :: !Closing(e)
    ensures var c := Listen(ActAll(JOINED, actions)); c.received != [] && Closing(c.received[|c.received| - 1])
  {
    RunSound(actions);
    var c := ActAll(JOINED, actions);
    assert p in c.kept;
    var i :| 0 <= i < |c.kept| && c.kept[i] == p;
    ListenStopsAtClosing(c, i - |c.received|);
  }

  /** A run has ended for its listeners. */
  predicate Ends(kind: string) {
    kind == "run_completed" || kind == "run_failed" || kind == "run_cancelled"
  }

  /** A listener reads up to and including the first closing event of its queue, or everything if there is none. */
  lemma {:induction false} ListenReadsUpToTheEnd(c: Channel)
    ensures var d := Listen(c);
            && d.received + d.queue == c.received + c.queue && |d.received| >= |c.received|
            && (forall i | |c.received| <= i < |d.received| - 1 :: !Ends(d.received[i].kind))
            && (d.queue != [] ==>
                  |d.received| > |c.received| && Ends(d.received[|d.received| - 1].kind))
    decreases |c.queue|
  {
    if c.queue != [] && !Closing(c.queue[0]) {
      ListenReadsUpToTheEnd(Read(c));
      var d, n := Listen(c), |c.received|;
      assert Read(c).received + Read(c).queue == c.received + c.queue;
      assert (d.received + d.queue)[n] == c.queue[0] && d.received[n] == (d.received + d.queue)[n];
    }
  }

  /** A review request, or the end of the run, that nothing but ordinary events follow is never lost. */
  lemma LastLifecycleEventArrives(actions: seq<Action>, p: nat)
    requires p < |PublishedBy(actions)| && Lifecycle(PublishedBy(actions)[p].kind)
    requires forall q | p < q < |PublishedBy(actions)| :: !Lifecycle(PublishedBy(actions)[q].kind)
    ensures var c := ActAll(JOINED, actions);
            PublishedBy(actions)[p] in c.received || PublishedBy(actions)[p] in c.queue
    ensures Ends(PublishedBy(actions)[p].kind) ==>
              exists e :: e in Listen(ActAll(JOINED, actions)).received && Ends(e.kind)
  {
    RunSound(actions);
    var c, all := ActAll(JOINED, actions), PublishedBy(actions);
    assert forall e: Event :: Critical(e) <==> Lifecycle(e.kind);
    CriticalLostOnlyToLater(actions, p);
    ListenReadsUpToTheEnd(c);
    hide ActAll, PublishedBy, Lifecycle, Critical, Listen;
    if Ends(all[p].kind) {
      var d := Listen(c);
      if all[p] in c.received {
        assert all[p] in d.received + d.queue;
        KeptByListening(c.received, c.queue, d.received, d.queue, all[p]);
      } else if d.queue == [] {
        assert d.received == c.received + c.queue;
      } else {
        assert d.received[|d.received| - 1] in d.received;
      }
    }
  }

  lemma KeptByListening(a: seq<Event>, b: seq<Event>, c: seq<Event>, d: seq<Event>, e: Event)
    requires a + b == c + d && |c| >= |a| && e in a
    ensures e in c
  {
    var i :| 0 <= i < |a| && a[i] == e;
    assert (a + b)[i] == e && (c + d)[i] == c[i];
  }

  // ---- The queues and the hub ----

  class EventQueue {
    var items: seq<Event>
    ghost var received: seq<Event>
    ghost var published: seq<Event>
    ghost var kept: seq<nat>

    ghost function View(): Channel
      reads this
    {
      Channel(items, received, published, kept)
    }

    constructor ()
      ensures View() == JOINED
    {
      items, received, published, kept := [], [], [], [];
    }

    predicate Full()
      reads this
    {
      |items| >= CAPACITY
    }

    method GetNowait() returns (e: Event)
      requires items != []
      modifies this
      ensures e == old(items)[0] && View() == Read(old(View()))
    {
      e, items := items[0], items[1..];
      received := received + [e];
    }
  }

  lemma RemovedOnly(list: seq<EventQueue>, i: nat)
    requires i < |list| && forall j, k | 0 <= j < k < |list| :: list[j] != list[k]
    ensures var rest := list[..i] + list[i + 1..];
            && (forall x :: x in rest <==> x in list && x != list[i])
            && forall j, k | 0 <= j < k < |rest| :: rest[j] != rest[k]
  {
    var rest := list[..i] + list[i + 1..];
    forall x ensures x in rest <==> x in list && x != list[i] {
      if x in list && x != list[i] {
        var j :| 0 <= j < |list| && list[j] == x;
        assert j < i ==> rest[j] == x;
        assert j > i ==> rest[j - 1] == x;
      }
    }
  }

  class EventHub {
    const maxSubscribersPerRun: nat
    var queues: map<string, seq<EventQueue>>

    /** Every queue belongs to one subscriber of one run; runs without subscribers have no entry. */
    ghost predicate Valid()
      reads this
    {
      && (forall r | r in queues :: 0 < |queues[r]| <= maxSubscribersPerRun)
      && (forall r, i, j | r in queues && 0 <= i < j < |queues[r]| :: queues[r][i] != queues[r][j])
      && (forall r, s, q | r in queues && s in queues && q in queues[r] && q in queues[s] :: r == s)
    }

    constructor (maxSubscribersPerRun: nat)
      ensures Valid() && queues == map[] && this.maxSubscribersPerRun == maxSubscribersPerRun
    {
      this.maxSubscribersPerRun, queues := maxSubscribersPerRun, map[];
    }

    function Subscribers(run: string): seq<EventQueue>
      reads this
    {
      if run in queues then queues[run] else []
    }

    /** Offer the event to one queue. */
    method Deliver(q: EventQueue, e: Event)
      requires Sound(q.View())
      modifies q
      ensures q.View() == Offer(old(q.View()), e) && Sound(q.View())
    {
      OfferKeeps(q.View(), e);
      if q.Full() {
        if e.kind in CRITICAL_EVENTS {
          ghost var n := |q.received|;
          q.items := q.items[1..];
          q.items := q.items + [e];
          q.kept := q.kept[..n] + q.kept[n + 1..] + [|q.published|];
        }
      } else {
        q.items := q.items + [e];
        q.kept := q.kept + [|q.published|];
      }
      q.published := q.published + [e];
    }

    /** Every subscriber of the run is offered the event once, and no other subscriber's queue changes. */
    method PublishEvent(run: string, e: Event)
      requires Valid() && forall q | q in Subscribers(run) :: Sound(q.View())
      modifies set q | q in Subscribers(run)
      ensures forall q | q in Subscribers(run) :: q.View() == Offer(old(q.View()), e) && Sound(q.View())
    {
      var listeners := Subscribers(run);
      for i := 0 to |listeners|
        invariant forall j | 0 <= j < i ::
                    listeners[j].View() == Offer(old(listeners[j].View()), e) && Sound(listeners[j].View())
        invariant forall j | i <= j < |listeners| :: listeners[j].View() == old(listeners[j].View())
      {
        assert listeners[i] in Subscribers(run);
        Deliver(listeners[i], e);
      }
    }

    /** A new subscriber with an empty queue, unless the run has all it may have. */
    method Subscribe(run: string) returns (q: EventQueue?)
      requires Valid()
      modifies this
      ensures Valid()
      ensures q == null <==> |old(Subscribers(run))| >= maxSubscribersPerRun
      ensures q == null ==> queues == old(queues)
      ensures q != null ==> fresh(q) && q.View() == JOINED && queues == old(queues)[run := old(Subscribers(run)) + [q]]
    {
      var current := Subscribers(run);
      if |current| >= maxSubscribersPerRun {
        return null;
      }
      q := new EventQueue();
      queues := queues[run := current + [q]];
    }

    /** The subscriber leaves; nobody else's place changes. */
    method Unsubscribe(run: string, q: EventQueue)
      requires Valid()
      modifies this
      ensures Valid() && q !in Subscribers(run)
      ensures forall r | r != run :: Subscribers(r) == old(Subscribers(r))
      ensures forall x | x != q :: x in Subscribers(run) <==> x in old(Subscribers(run))
    {
      var current := Subscribers(run);
      for i := 0 to |current|
        invariant queues == old(queues)
        invariant forall j | 0 <= j < i :: current[j] != q
      {
        if current[i] == q {
          var rest := current[..i] + current[i + 1..];
          queues := if rest == [] then queues - {run} else queues[run := rest];
          RemovedOnly(current, i);
          return;
        }
      }
    }
  }
}
