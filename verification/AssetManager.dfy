/** The asset manager: requests, reloads, the budgeted drain and job completions, in every interleaving. */
module AssetManager {
  import opened Sequences
  import opened Words

  datatype Priority = High | Normal | Low
  datatype Tag = Boot | Streaming | Background
  datatype Opts = Opts(priority: Priority, tag: Tag)
  datatype Request = Request(slot: nat, opts: Opts)

  /** Milliseconds spent on decoding and requests put off, per tag, since the tick began. */
  datatype Budget = Budget(
    spentBoot: U64, spentStreaming: U64, spentBackground: U64,
    throttledBoot: U64, throttledStreaming: U64, throttledBackground: U64)
  {
    static function Fresh(): Budget { Budget(0, 0, 0, 0, 0, 0) }

    function Spend(tag: Tag, ms: U64): Budget {
      match tag
      case Boot => this.(spentBoot := SatAdd(spentBoot, ms))
      case Streaming => this.(spentStreaming := SatAdd(spentStreaming, ms))
      case Background => this.(spentBackground := SatAdd(spentBackground, ms))
    }

    function Throttle(tag: Tag): Budget {
      match tag
      case Boot => this.(throttledBoot := SatAdd(throttledBoot, 1))
      case Streaming => this.(throttledStreaming := SatAdd(throttledStreaming, 1))
      case Background => this.(throttledBackground := SatAdd(throttledBackground, 1))
    }

    function TotalSpent(): U64 {
      SatAdd(SatAdd(spentBoot, spentStreaming), spentBackground)
    }

    function Throttled(tag: Tag): U64 {
      match tag
      case Boot => throttledBoot
      case Streaming => throttledStreaming
      case Background => throttledBackground
    }

    ghost predicate SameSpending(other: Budget) {
      spentBoot == other.spentBoot && spentStreaming == other.spentStreaming && spentBackground == other.spentBackground
    }
  }

  predicate ShouldThrottle(budgetMs: U64, budget: Budget, priority: Priority, tag: Tag) {
    if priority.High? then false
    else if tag.Boot? then false
    else if budgetMs == 0 then true
    else if budget.TotalSpent() >= budgetMs then tag.Background? || priority.Low?
    else false
  }

  /** What was spent under one tag. */
  function SpentOn(budget: Budget, tag: Tag): U64 {
    match tag
    case Boot => budget.spentBoot
    case Streaming => budget.spentStreaming
    case Background => budget.spentBackground
  }

  /**
   * Who is put off: never high priority or boot work; without any budget everyone else; once all tags together
   * have spent it, background work and low priority.
   */
  lemma {:induction false} PutOffIff(budgetMs: U64, budget: Budget, priority: Priority, tag: Tag)
    ensures var spent := SpentOn(budget, Boot) + SpentOn(budget, Streaming) + SpentOn(budget, Background);
      ShouldThrottle(budgetMs, budget, priority, tag) <==>
        && priority != High && tag != Boot
        && (budgetMs == 0 || (spent >= budgetMs && (tag == Background || priority == Low)))
  {
  }

  /** Time spent is added to its own tag and to the total, up to the counters' width, and to nothing else. */
  lemma {:induction false} SpendAdds(budget: Budget, tag: Tag, ms: U64, other: Tag)
    ensures var after := budget.Spend(tag, ms);
      && SpentOn(after, other) == Saturated(SpentOn(budget, other) + if other == tag then ms else 0)
      && after.TotalSpent() == Saturated(budget.TotalSpent() + ms)
      && after.Throttled(other) == budget.Throttled(other)
  {
  }

  /** Putting off counts under the request's own tag and spends nothing. */
  lemma {:induction false} ThrottleAdds(budget: Budget, tag: Tag, other: Tag)
    ensures var after := budget.Throttle(tag);
      && after.Throttled(other) == Saturated(budget.Throttled(other) + if other == tag then 1 else 0)
      && SpentOn(after, other) == SpentOn(budget, other)
  {
  }

  /** A new tick has spent nothing and put nobody off. */
  lemma {:induction false} FreshIsZero(tag: Tag)
    ensures SpentOn(Budget.Fresh(), tag) == 0 && Budget.Fresh().Throttled(tag) == 0
    ensures Budget.Fresh().TotalSpent() == 0
  {
  }

  // ----- One scheduling pass over one queue -----

  predicate Throttled(budgetMs: U64, budget: Budget, priority: Priority, request: Request) {
    ShouldThrottle(budgetMs, budget, priority, request.opts.tag)
  }

  /** Requests a pass leaves in the queue: put off, or refused by the job queue when tried. */
  function Kept(requests: seq<Request>, refused: seq<bool>, budgetMs: U64, budget: Budget, priority: Priority):
      seq<Request>
    requires |refused| == |requests|
  {
    if requests == [] then [] else
    var n := |requests| - 1;
    Kept(requests[..n], refused[..n], budgetMs, budget, priority)
      + (if Throttled(budgetMs, budget, priority, requests[n]) || refused[n] then [requests[n]] else [])
  }

  /** Requests a pass tries to start. */
  function Tried(requests: seq<Request>, budgetMs: U64, budget: Budget, priority: Priority): seq<Request> {
    if requests == [] then [] else
    var n := |requests| - 1;
    Tried(requests[..n], budgetMs, budget, priority)
      + (if Throttled(budgetMs, budget, priority, requests[n]) then [] else [requests[n]])
  }

  /** How many requests with a tag are put off. */
  function PutOff(requests: seq<Request>, budgetMs: U64, budget: Budget, priority: Priority, tag: Tag): nat {
    if requests == [] then 0 else
    var n := |requests| - 1;
    PutOff(requests[..n], budgetMs, budget, priority, tag)
      + (if Throttled(budgetMs, budget, priority, requests[n]) && requests[n].opts.tag == tag then 1 else 0)
  }

  /** The budget after a pass: one more put off for each throttled request. */
  function AfterPass(requests: seq<Request>, budgetMs: U64, budget: Budget, priority: Priority): Budget {
    if requests == [] then budget else
    var n := |requests| - 1;
    var before := AfterPass(requests[..n], budgetMs, budget, priority);
    if Throttled(budgetMs, budget, priority, requests[n]) then before.Throttle(requests[n].opts.tag) else before
  }

  /** A pass spends nothing, and each tag's counter grows by exactly its requests put off. */
  lemma {:induction false} PassCounts(requests: seq<Request>, budgetMs: U64, budget: Budget, priority: Priority,
      tag: Tag)
    ensures var after := AfterPass(requests, budgetMs, budget, priority);
      && after.SameSpending(budget)
      && after.Throttled(tag) == Saturated(budget.Throttled(tag) + PutOff(requests, budgetMs, budget, priority, tag))
  {
    if requests != [] {
      PassCounts(requests[..|requests| - 1], budgetMs, budget, priority, tag);
    }
  }

  /** Requests a pass hands over for good. */
  function Started(requests: seq<Request>, refused: seq<bool>, budgetMs: U64, budget: Budget, priority: Priority):
      seq<Request>
    requires |refused| == |requests|
  {
    if requests == [] then [] else
    var n := |requests| - 1;
    Started(requests[..n], refused[..n], budgetMs, budget, priority)
      + (if Throttled(budgetMs, budget, priority, requests[n]) || refused[n] then [] else [requests[n]])
  }

  /** A pass loses and repeats nothing: each request is either kept or started. */
  lemma {:induction false} PassPartitions(
      requests: seq<Request>, refused: seq<bool>, budgetMs: U64, budget: Budget, priority: Priority)
    requires |refused| == |requests|
    ensures multiset(Kept(requests, refused, budgetMs, budget, priority))
          + multiset(Started(requests, refused, budgetMs, budget, priority)) == multiset(requests)
  {
    if requests != [] {
      var n := |requests| - 1;
      var keep := Throttled(budgetMs, budget, priority, requests[n]) || refused[n];
      PassPartitions(requests[..n], refused[..n], budgetMs, budget, priority);
      OneMoreIsSplit(Kept(requests[..n], refused[..n], budgetMs, budget, priority),
        Kept(requests, refused, budgetMs, budget, priority),
        Started(requests[..n], refused[..n], budgetMs, budget, priority),
        Started(requests, refused, budgetMs, budget, priority), requests, keep);
    }
  }

  lemma {:induction false} OneMoreIsSplit(keptBefore: seq<Request>, kept: seq<Request>,
      startedBefore: seq<Request>, started: seq<Request>, requests: seq<Request>, keep: bool)
    requires requests != []
    requires var n := |requests| - 1;
      && multiset(keptBefore) + multiset(startedBefore) == multiset(requests[..n])
      && kept == keptBefore + (if keep then [requests[n]] else [])
      && started == startedBefore + (if keep then [] else [requests[n]])
    ensures multiset(kept) + multiset(started) == multiset(requests)
  {
    var n := |requests| - 1;
    assert requests == requests[..n] + [requests[n]];
    Grown(keptBefore);
    Grown(startedBefore);
  }

  /** Urgent work is never put off, whatever was spent. */
  lemma {:induction false} UrgentIsNeverPutOff(
      requests: seq<Request>, budgetMs: U64, budget: Budget, priority: Priority, tag: Tag)
    requires priority.High? || tag.Boot?
    ensures PutOff(requests, budgetMs, budget, priority, tag) == 0
  {
    if requests != [] {
      UrgentIsNeverPutOff(requests[..|requests| - 1], budgetMs, budget, priority, tag);
    }
  }

  class Scheduler {
    var budget: Budget
    const budgetMs: U64
    /** The requests handed to `dispatch_request`, in order. */
    ghost var tried: seq<Request>

    constructor (budgetMs: U64)
      ensures this.budgetMs == budgetMs && budget == Budget.Fresh() && tried == []
    {
      this.budgetMs := budgetMs;
      budget, tried := Budget.Fresh(), [];
    }

    /** Hands one request to the job queues; `refused` says whether they were full. */
    method Dispatch(request: Request, refused: bool) returns (started: bool)
      modifies this`tried
      ensures started == !refused && tried == old(tried) + [request]
    {
      tried := tried + [request];
      return !refused;
    }

    /** Looks at each request of the queue once; `refused` is what the job queues answer at each position. */
    method ScheduleQueue(priority: Priority, queue: seq<Request>, refused: seq<bool>) returns (left: seq<Request>)
      requires |refused| == |queue|
      modifies this
      ensures left == Kept(queue, refused, budgetMs, old(budget), priority)
      ensures tried == old(tried) + Tried(queue, budgetMs, old(budget), priority)
      ensures budget == AfterPass(queue, budgetMs, old(budget), priority)
    {
      left := queue;
      var remaining := |queue|;
      ghost var done: nat := 0;
      assert queue[0..] == queue;
      while remaining > 0
        invariant done <= |queue| && remaining == |queue| - done
        invariant left == queue[done..] + Kept(queue[..done], refused[..done], budgetMs, old(budget), priority)
        invariant tried == old(tried) + Tried(queue[..done], budgetMs, old(budget), priority)
        invariant budget == AfterPass(queue[..done], budgetMs, old(budget), priority)
      {
        PassStep(queue, refused, done);
        ghost var kept := Kept(queue[..done], refused[..done], budgetMs, old(budget), priority);
        Appended([queue[done]], queue[done + 1..], kept);
        PassCounts(queue[..done], budgetMs, old(budget), priority, Boot);
        remaining := remaining - 1;
        var request := left[0];
        left := left[1..];
        if ShouldThrottle(budgetMs, budget, priority, request.opts.tag) {
          budget := budget.Throttle(request.opts.tag);
          left := left + [request];
        } else {
          var started := Dispatch(request, refused[|queue| - remaining - 1]);
          if !started {
            left := left + [request];
          }
        }
        done := done + 1;
      }
      assert queue[..done] == queue && refused[..done] == refused && queue[done..] == [];
    }
  }

  lemma {:induction false} PassStep(queue: seq<Request>, refused: seq<bool>, done: nat)
    requires done < |queue| == |refused|
    ensures queue[..done + 1][..done] == queue[..done] && refused[..done + 1][..done] == refused[..done]
    ensures queue[done..] == [queue[done]] + queue[done + 1..]
  {
  }
}
