/** The provider router: a fallback loop over registered providers, proved against the first decisive
    outcome in a fixed order. What a provider answers is the oracle `reply`. */
module ProviderRouter {
  import opened Lists

  datatype Failure =
    | Unavailable
    | TimedOut
    | ProviderFailure(retryable: bool)
    | OtherFailure(code: string)

  datatype Outcome = Reply(text: string) | Raises(error: Failure)

  type Replies = string -> Outcome

  predicate IsRetryable(e: Failure) {
    e.Unavailable? || e.TimedOut? || (e.ProviderFailure? && e.retryable)
  }

  datatype HistoryEntry = HistoryEntry(failedProvider: string, error: Failure)

  /** `fallbacks` is the history the router attaches to an answer that is not the first provider's. */
  datatype Routed =
    | Response(provider: string, text: string, fallbacks: seq<HistoryEntry>)
    | Raised(provider: string, error: Failure)
    | ProviderNotFound(name: string)
    | AllProvidersFailed(attempted: set<string>, history: seq<HistoryEntry>)

  // ---- The order of attempts ----

  /** The registered names that were not tried, in registration order. */
  function Untried(names: seq<string>, tried: set<string>): seq<string> {
    if names == [] then []
    else (if names[0] in tried then [] else [names[0]]) + Untried(names[1..], tried)
  }

  /** The primary, then the fallback if there is another one. */
  function Preferred(primary: string, fallback: string): seq<string> {
    [primary] + if fallback != "" && fallback != primary then [fallback] else []
  }

  /** Primary, fallback, then the rest by registration. */
  function Order(names: seq<string>, primary: string, fallback: string): seq<string> {
    var head := Preferred(primary, fallback);
    head + Untried(names, SetOf(head))
  }

  lemma {:induction false} UntriedMembers(names: seq<string>, tried: set<string>)
    ensures forall x :: x in Untried(names, tried) <==> x in names && x !in tried
  {
    if names != [] {
      UntriedMembers(names[1..], tried);
      assert names == [names[0]] + names[1..];
    }
  }

  lemma {:induction false} UntriedNoDup(names: seq<string>, tried: set<string>)
    requires NoDup(names)
    ensures NoDup(Untried(names, tried))
  {
    if names != [] {
      UntriedNoDup(names[1..], tried);
      UntriedMembers(names[1..], tried);
    }
  }

  lemma {:induction false} UntriedNone(names: seq<string>, tried: set<string>, x: string)
    requires x !in names
    ensures Untried(names, tried + {x}) == Untried(names, tried)
  {
    if names != [] {
      UntriedNone(names[1..], tried, x);
    }
  }

  /** Trying the first candidate leaves the others, in the same order. */
  lemma {:induction false} UntriedNext(names: seq<string>, tried: set<string>)
    requires NoDup(names) && Untried(names, tried) != []
    ensures Untried(names, tried + {Untried(names, tried)[0]}) == Untried(names, tried)[1..]
  {
    if names[0] in tried {
      UntriedNext(names[1..], tried);
    } else {
      UntriedNone(names[1..], tried, names[0]);
    }
  }

  /** Everybody who can be tried is in the order, once. */
  lemma OrderIsComplete(names: seq<string>, primary: string, fallback: string)
    requires NoDup(names)
    ensures NoDup(Order(names, primary, fallback))
    ensures forall x :: x in Order(names, primary, fallback) <==>
              x == primary || (x == fallback && fallback != "") || x in names
    ensures Order(names, primary, fallback)[0] == primary
  {
    var head := Preferred(primary, fallback);
    UntriedMembers(names, SetOf(head));
    UntriedNoDup(names, SetOf(head));
    var order, rest := Order(names, primary, fallback), Untried(names, SetOf(head));
    forall i, j | 0 <= i < j < |order| ensures order[i] != order[j] {
      if i < |head| <= j {
        assert order[i] in SetOf(head) && order[j] in rest;
      } else if |head| <= i {
        assert rest[i - |head|] != rest[j - |head|];
      }
    }
  }

  // ---- The reference: the first decisive outcome ----

  /** The search ends at this name: it is nobody, it is not registered, it answers, or its failure allows no
      fallback. */
  predicate Decisive(names: seq<string>, enabled: bool, reply: Replies, x: string) {
    x == "" || x !in names || reply(x).Reply? || !IsRetryable(reply(x).error) || !enabled
  }

  ghost predicate PassesOver(names: seq<string>, enabled: bool, reply: Replies, order: seq<string>) {
    forall j | 0 <= j < |order| :: !Decisive(names, enabled, reply, order[j])
  }

  function Failures(order: seq<string>, names: seq<string>, enabled: bool, reply: Replies): seq<HistoryEntry>
    requires PassesOver(names, enabled, reply, order)
  {
    seq(|order|, j requires 0 <= j < |order| => HistoryEntry(order[j], reply(order[j]).error))
  }

  /** The first decisive position, or the end of the list. */
  function FirstDecisive(names: seq<string>, enabled: bool, reply: Replies, order: seq<string>): (i: nat)
    ensures i <= |order| && PassesOver(names, enabled, reply, order[..i])
    ensures i < |order| ==> Decisive(names, enabled, reply, order[i])
  {
    if order == [] || Decisive(names, enabled, reply, order[0]) then 0
    else
      var i := 1 + FirstDecisive(names, enabled, reply, order[1..]);
      assert forall j | 1 <= j < i :: order[j] == order[1..][..i - 1][j - 1];
      i
  }

  lemma FirstDecisiveIs(names: seq<string>, enabled: bool, reply: Replies, order: seq<string>, i: nat)
    requires i <= |order| && PassesOver(names, enabled, reply, order[..i])
    requires i < |order| ==> Decisive(names, enabled, reply, order[i])
    ensures FirstDecisive(names, enabled, reply, order) == i
  {
  }

  /** The result when the first decisive name stands at position `i`. */
  function Conclude(names: seq<string>, enabled: bool, reply: Replies, order: seq<string>, i: nat): Routed
    requires i <= |order| && PassesOver(names, enabled, reply, order[..i])
  {
    var history := Failures(order[..i], names, enabled, reply);
    if i == |order| || order[i] == "" then AllProvidersFailed(SetOf(order[..i]), history)
    else if order[i] !in names then ProviderNotFound(order[i])
    else
      match reply(order[i])
      case Reply(text) => Response(order[i], text, history)
      case Raises(e) => Raised(order[i], e)
  }

  function Route(names: seq<string>, primary: string, fallback: string, enabled: bool, reply: Replies): Routed {
    var order := Order(names, primary, fallback);
    Conclude(names, enabled, reply, order, FirstDecisive(names, enabled, reply, order))
  }

  /** The providers that are called: everybody before the first decisive name, and its provider if there is one. */
  function Called(names: seq<string>, primary: string, fallback: string, enabled: bool, reply: Replies): seq<string> {
    var order := Order(names, primary, fallback);
    var i := FirstDecisive(names, enabled, reply, order);
    if i < |order| && order[i] != "" && order[i] in names then order[..i + 1] else order[..i]
  }

  // ---- What the order gives ----

  /** Each provider is called at most once, and only registered ones are. */
  lemma CalledOnce(names: seq<string>, primary: string, fallback: string, enabled: bool, reply: Replies)
    requires NoDup(names)
    ensures var calls := Called(names, primary, fallback, enabled, reply);
            NoDup(calls) && forall x | x in calls :: x in names
  {
    OrderIsComplete(names, primary, fallback);
    hide Order;
    var order := Order(names, primary, fallback);
    var i := FirstDecisive(names, enabled, reply, order);
    var calls := Called(names, primary, fallback, enabled, reply);
    forall x | x in calls ensures x in names {
      var j :| 0 <= j < |calls| && calls[j] == x;
      assert j < i ==> !Decisive(names, enabled, reply, order[..i][j]);
    }
  }

  /** Without fallback only the primary is asked and its outcome is the result. */
  lemma WithoutFallback(names: seq<string>, primary: string, fallback: string, reply: Replies)
    ensures |Called(names, primary, fallback, false, reply)| <= 1
    ensures primary in names && primary != "" ==>
              Route(names, primary, fallback, false, reply) ==
              (match reply(primary)
               case Reply(text) => Response(primary, text, [])
               case Raises(e) => Raised(primary, e))
  {
    var order := Order(names, primary, fallback);
    assert order[0] == primary;
    FirstDecisiveIs(names, false, reply, order, 0);
  }

  /** A request is answered exactly when some provider answers whom every name before it lets through. */
  lemma AnsweredIff(names: seq<string>, primary: string, fallback: string, enabled: bool, reply: Replies)
    ensures var order := Order(names, primary, fallback);
            Route(names, primary, fallback, enabled, reply).Response? <==>
            exists i :: 0 <= i < |order| && order[i] != "" && order[i] in names && reply(order[i]).Reply?
                        && PassesOver(names, enabled, reply, order[..i])
  {
    var order := Order(names, primary, fallback);
    var f := FirstDecisive(names, enabled, reply, order);
    if i :| 0 <= i < |order| && order[i] != "" && order[i] in names && reply(order[i]).Reply?
            && PassesOver(names, enabled, reply, order[..i]) {
      FirstDecisiveIs(names, enabled, reply, order, i);
    }
  }

  /** All providers are reported as failed exactly when nobody in the order was decisive: then each of them was
      called. */
  lemma AllFailedIff(names: seq<string>, primary: string, fallback: string, enabled: bool, reply: Replies)
    requires NoDup(names) && "" !in names && primary != ""
    ensures Route(names, primary, fallback, enabled, reply).AllProvidersFailed? <==>
            forall x | x == primary || (x == fallback && fallback != "") || x in names ::
                !Decisive(names, enabled, reply, x)
    ensures Route(names, primary, fallback, enabled, reply).AllProvidersFailed? ==>
              SetOf(Called(names, primary, fallback, enabled, reply)) == SetOf(names)
              && Route(names, primary, fallback, enabled, reply).attempted == SetOf(names)
  {
    OrderIsComplete(names, primary, fallback);
    var order := Order(names, primary, fallback);
    var i := FirstDecisive(names, enabled, reply, order);
    if i < |order| {
      assert order[i] in order;
    } else {
      assert order[..i] == order;
      forall x | x in order ensures !Decisive(names, enabled, reply, x) {
        var j :| 0 <= j < |order| && order[j] == x;
      }
    }
  }

  // ---- What the caller gets ----

  /** The provider lets the request through to the next one: it is registered, and it is unavailable, times out, or
      fails in a way it calls retryable. */
  predicate LetsThrough(names: seq<string>, reply: Replies, x: string) {
    && x in names && reply(x).Raises?
    && match reply(x).error
       case Unavailable => true
       case TimedOut => true
       case ProviderFailure(retryable) => retryable
       case OtherFailure(_) => false
  }

  /** The providers before position `i` all let the request through. */
  predicate AllLetThrough(names: seq<string>, reply: Replies, order: seq<string>, i: nat) {
    i <= |order| && forall j | 0 <= j < i :: order[j] != "" && LetsThrough(names, reply, order[j])
  }

  lemma AllPassed(names: seq<string>, reply: Replies, order: seq<string>, i: nat)
    requires AllLetThrough(names, reply, order, i)
    ensures PassesOver(names, true, reply, order[..i])
    ensures |Failures(order[..i], names, true, reply)| == i
    ensures forall j | 0 <= j < i ::
              Failures(order[..i], names, true, reply)[j] == HistoryEntry(order[j], reply(order[j]).error)
  {
    forall j | 0 <= j < i ensures !Decisive(names, true, reply, order[..i][j]) {
      assert order[..i][j] == order[j];
    }
  }

  /** The history names the providers before position `i`, each with its failure. */
  ghost predicate Tells(history: seq<HistoryEntry>, reply: Replies, order: seq<string>, i: nat) {
    && i == |history| <= |order|
    && forall j | 0 <= j < i ::
         reply(order[j]).Raises? && history[j] == HistoryEntry(order[j], reply(order[j]).error)
  }

  /** With fallback enabled, at the first position whose provider does not let the request through: a reply is
      returned as it is, with the failures before it; a failure is raised as it is; an unknown name is reported; and
      exactly the providers up to there have been called, in this order. */
  lemma FirstStopDecides(names: seq<string>, primary: string, fallback: string, reply: Replies, i: nat)
    requires var order := Order(names, primary, fallback);
             && i < |order| && order[i] != ""
             && AllLetThrough(names, reply, order, i) && !LetsThrough(names, reply, order[i])
    ensures var order := Order(names, primary, fallback);
            var r, calls := Route(names, primary, fallback, true, reply), Called(names, primary, fallback, true, reply);
            if order[i] !in names then r == ProviderNotFound(order[i]) && calls == order[..i]
            else
              && calls == order[..i + 1]
              && match reply(order[i])
                 case Reply(text) =>
                   r.Response? && r.provider == order[i] && r.text == text && Tells(r.fallbacks, reply, order, i)
                 case Raises(e) => r == Raised(order[i], e)
  {
    var order := Order(names, primary, fallback);
    hide Order;
    AllPassed(names, reply, order, i);
    assert Decisive(names, true, reply, order[i]);
    FirstDecisiveIs(names, true, reply, order, i);
  }

  /** With fallback enabled, when every provider in the order lets the request through: all of them were called, and the
      report names each with its failure. */
  lemma NobodyStops(names: seq<string>, primary: string, fallback: string, reply: Replies)
    requires AllLetThrough(names, reply, Order(names, primary, fallback), |Order(names, primary, fallback)|)
    ensures var order := Order(names, primary, fallback);
            var r := Route(names, primary, fallback, true, reply);
            && r.AllProvidersFailed? && r.attempted == SetOf(order) && Tells(r.history, reply, order, |order|)
            && Called(names, primary, fallback, true, reply) == order
  {
    var order := Order(names, primary, fallback);
    hide Order;
    assert order[..|order|] == order;
    AllPassed(names, reply, order, |order|);
    FirstDecisiveIs(names, true, reply, order, |order|);
  }

  /** A registered primary that is unavailable, times out or fails retryably, and another registered fallback that
      replies: the caller gets that reply, with the primary's failure as the only history, after these two calls. */
  lemma FallbackAnswers(names: seq<string>, primary: string, fallback: string, reply: Replies, e: Failure, text: string)
    requires primary in names && fallback in names && primary != "" && fallback != "" && primary != fallback
    requires reply(primary) == Raises(e) && reply(fallback) == Reply(text)
    requires e == Unavailable || e == TimedOut || e == ProviderFailure(true)
    ensures Route(names, primary, fallback, true, reply) == Response(fallback, text, [HistoryEntry(primary, e)])
    ensures Called(names, primary, fallback, true, reply) == [primary, fallback]
  {
    var order := Order(names, primary, fallback);
    assert order[0] == primary && order[1] == fallback;
    hide Order;
    FirstStopDecides(names, primary, fallback, reply, 1);
    assert order[..2] == [primary, fallback];
    var r := Route(names, primary, fallback, true, reply);
    assert r.fallbacks == [HistoryEntry(primary, e)];
  }

  /** Any other failure of the primary, or any failure with fallback disabled, is the caller's after one call. */
  lemma PrimaryFailureIsRaised(names: seq<string>, primary: string, fallback: string, enabled: bool, reply: Replies,
      e: Failure)
    requires primary in names && primary != "" && reply(primary) == Raises(e)
    requires e == ProviderFailure(false) || e.OtherFailure? || !enabled
    ensures Route(names, primary, fallback, enabled, reply) == Raised(primary, e)
    ensures Called(names, primary, fallback, enabled, reply) == [primary]
  {
    var order := Order(names, primary, fallback);
    assert order[0] == primary && order[..1] == [primary];
    FirstDecisiveIs(names, enabled, reply, order, 0);
  }

  lemma {:induction false} UntriedSplit(names: seq<string>, tried: set<string>, k: nat)
    requires k <= |names|
    ensures Untried(names, tried) == Untried(names[..k], tried) + Untried(names[k..], tried)
  {
    if k > 0 {
      UntriedSplit(names[1..], tried, k - 1);
      assert names[..k][1..] == names[1..][..k - 1] && names[1..][k - 1..] == names[k..];
    } else {
      assert names[0..] == names;
    }
  }

  lemma PreferredNames(primary: string, fallback: string)
    ensures Preferred(primary, fallback) ==
            if fallback != "" && fallback != primary then [primary, fallback] else [primary]
    ensures forall x :: x in SetOf(Preferred(primary, fallback)) <==> x == primary || (x == fallback && x != "")
  {
  }

  /** The order of attempts: the primary, another fallback if one is named, then every other registered provider in the
      order of registration - wherever the list of names is cut, those registered before the cut come first. */
  lemma OrderIsByRegistration(names: seq<string>, primary: string, fallback: string, k: nat)
      returns (sooner: seq<string>, later: seq<string>)
    requires k <= |names|
    ensures Order(names, primary, fallback) ==
            (if fallback != "" && fallback != primary then [primary, fallback] else [primary]) + sooner + later
    ensures forall x :: x in sooner <==> x in names[..k] && x != primary && (x != fallback || x == "")
    ensures forall x :: x in later <==> x in names[k..] && x != primary && (x != fallback || x == "")
  {
    var tried := SetOf(Preferred(primary, fallback));
    sooner, later := Untried(names[..k], tried), Untried(names[k..], tried);
    UntriedSplit(names, tried, k);
    UntriedMembers(names[..k], tried);
    UntriedMembers(names[k..], tried);
    PreferredNames(primary, fallback);
    hide Untried, Preferred, SetOf;
  }

  // ---- The router object ----

  class LLMRouter {
    var providers: seq<string>
    var defaultProvider: string
    var fallbackProvider: string
    var enableFallback: bool

    ghost predicate Valid()
      reads this
    {
      NoDup(providers)
    }

    constructor (defaultProvider: string, fallbackProvider: string, enableFallback: bool)
      ensures Valid() && providers == [] && this.enableFallback == enableFallback
      ensures this.defaultProvider == defaultProvider && this.fallbackProvider == fallbackProvider
    {
      providers := [];
      this.defaultProvider, this.fallbackProvider, this.enableFallback := defaultProvider, fallbackProvider,
          enableFallback;
    }

    /** Registering a name again keeps its place. */
    method RegisterProvider(name: string)
      requires Valid()
      modifies this`providers
      ensures Valid() && providers == if name in old(providers) then old(providers) else old(providers) + [name]
    {
      if name !in providers {
        providers := providers + [name];
      }
    }

    method Candidates(attempted: set<string>) returns (found: seq<string>)
      ensures found == Untried(providers, attempted)
    {
      found := [];
      for i := 0 to |providers|
        invariant found + Untried(providers[i..], attempted) == Untried(providers, attempted)
      {
        if providers[i] !in attempted {
          found := found + [providers[i]];
        }
      }
    }

    /** The target after `current` failed: the fallback behind the primary, else the first candidate, or nobody. */
    method NextTarget(current: string, primary: string, attempted: set<string>, ghost i: nat) returns (next: string)
      requires Valid()
      requires var order := Order(providers, primary, fallbackProvider);
               i < |order| && order[i] == current && attempted == SetOf(order[..i + 1])
      ensures var order := Order(providers, primary, fallbackProvider);
              next == if i + 1 < |order| then order[i + 1] else ""
    {
      OrderIsComplete(providers, primary, fallbackProvider);
      if current == primary && fallbackProvider != "" && fallbackProvider != primary {
        return fallbackProvider;
      }
      var candidates := Candidates(attempted);
      NextCandidate(providers, primary, fallbackProvider, i);
      next := if candidates != [] then candidates[0] else "";
    }

    /** An empty request name stands for the default; an empty target for none. */
    method Generate(requested: string, reply: Replies) returns (r: Routed, calls: seq<string>)
      requires Valid()
      ensures var primary := if requested != "" then requested else defaultProvider;
              && r == Route(providers, primary, fallbackProvider, enableFallback, reply)
              && calls == Called(providers, primary, fallbackProvider, enableFallback, reply)
    {
      var primary := if requested != "" then requested else defaultProvider;
      ghost var order := Order(providers, primary, fallbackProvider);
      ghost var i := 0;
      OrderIsComplete(providers, primary, fallbackProvider);
      hide Order, SetOf, FirstDecisive, IsRetryable;
      var attempted: set<string> := {};
      var current := primary;
      var history: seq<HistoryEntry> := [];
      calls := [];
      NothingTried(providers, enableFallback, reply, order);
      while current != "" && current !in attempted
        invariant i <= |order| && current == if i < |order| then order[i] else ""
        invariant attempted == SetOf(order[..i]) && calls == order[..i]
        invariant PassesOver(providers, enableFallback, reply, order[..i])
        invariant history == Failures(order[..i], providers, enableFallback, reply)
        decreases |order| - i
      {
        attempted := attempted + {current};
        if current !in providers {
          FirstDecisiveIs(providers, enableFallback, reply, order, i);
          return ProviderNotFound(current), calls;
        }
        calls := calls + [current];
        assert calls == order[..i + 1];
        match reply(current) {
          case Reply(text) =>
            FirstDecisiveIs(providers, enableFallback, reply, order, i);
            return Response(current, text, history), calls;
          case Raises(e) =>
            if !IsRetryable(e) || !enableFallback {
              FirstDecisiveIs(providers, enableFallback, reply, order, i);
              return Raised(current, e), calls;
            }
            history := history + [HistoryEntry(current, e)];
            Passed(providers, enableFallback, reply, order, i);
            current := NextTarget(current, primary, attempted, i);
            i := i + 1;
        }
      }
      if i < |order| {
        NotTriedTwice(order, i);
      }
      FirstDecisiveIs(providers, enableFallback, reply, order, i);
      r := AllProvidersFailed(attempted, history);
    }
  }

  lemma NothingTried(names: seq<string>, enabled: bool, reply: Replies, order: seq<string>)
    ensures PassesOver(names, enabled, reply, order[..0]) && Failures(order[..0], names, enabled, reply) == []
              && SetOf(order[..0]) == {}
  {
  }

  lemma NotTriedTwice(order: seq<string>, i: nat)
    requires NoDup(order) && i < |order|
    ensures order[i] !in SetOf(order[..i])
  {
  }

  /** One more name is passed over. */
  lemma Passed(names: seq<string>, enabled: bool, reply: Replies, order: seq<string>, i: nat)
    requires i < |order| && PassesOver(names, enabled, reply, order[..i]) && !Decisive(names, enabled, reply, order[i])
    ensures PassesOver(names, enabled, reply, order[..i + 1])
    ensures Failures(order[..i + 1], names, enabled, reply) ==
            Failures(order[..i], names, enabled, reply) + [HistoryEntry(order[i], reply(order[i]).error)]
    ensures SetOf(order[..i + 1]) == SetOf(order[..i]) + {order[i]} && order[..i + 1] == order[..i] + [order[i]]
  {
    assert forall j | 0 <= j < i :: order[..i + 1][j] == order[..i][j];
    assert order[..i + 1][i] == order[i];
    SetOfPrefix(order, i);
  }

  /** Behind the preferred names, the untried names are the rest of the order. */
  lemma {:induction false} NextCandidate(names: seq<string>, primary: string, fallback: string, i: nat)
    requires NoDup(names) && |Preferred(primary, fallback)| <= i + 1 <= |Order(names, primary, fallback)|
    ensures Untried(names, SetOf(Order(names, primary, fallback)[..i + 1])) == Order(names, primary, fallback)[i + 1..]
  {
    var head, order := Preferred(primary, fallback), Order(names, primary, fallback);
    if i + 1 == |head| {
      assert order[..i + 1] == head;
    } else {
      NextCandidate(names, primary, fallback, i - 1);
      hide Order, Preferred, SetOf, NoDup;
      UntriedNext(names, SetOf(order[..i]));
      SetOfPrefix(order, i);
      assert order[i..][1..] == order[i + 1..];
    }
  }

  lemma SetOfPrefix(s: seq<string>, i: nat)
    requires i < |s|
    ensures SetOf(s[..i + 1]) == SetOf(s[..i]) + {s[i]}
  {
    assert s[..i + 1] == s[..i] + [s[i]];
  }
}
