/** Bounded job queues: pushing, popping and waiting in every interleaving, with workers and completions. */
module JobQueue {
  import opened Results
  import opened Sequences
  import opened Words

  datatype Kind = Io | Cpu

  datatype JobError = QueueFull(kind: Kind) | QueueClosed(kind: Kind)

  /** What one pass through the locked part of `pop` does. */
  datatype Popped<T> = Closed | Job(job: T) | Sleep

  /** What the lock of a queue protects, with the number of threads that wait to be notified. */
  datatype Locked<T> = Locked(entries: seq<T>, closed: bool, sleepers: nat)
  {
    function Admits(kind: Kind, capacity: nat): Result<(), JobError> {
      if closed then Err(QueueClosed(kind)) else if |entries| >= capacity then Err(QueueFull(kind)) else Ok(())
    }

    /** An admitted job goes to the end, and one waiting thread is notified. */
    function With(job: T): Locked<T> {
      Locked(entries + [job], closed, SaturatingSub(sleepers, 1))
    }

    function Front(): Popped<T> {
      if closed then Closed else if entries == [] then Sleep else Job(entries[0])
    }

    /** The oldest job leaves, or the caller starts to wait. */
    function AfterPop(): Locked<T> {
      match Front()
      case Closed => this
      case Sleep => this.(sleepers := sleepers + 1)
      case Job(_) => this.(entries := entries[1..])
    }

    function Shut(): Locked<T> { Locked(entries, true, 0) }
  }

  /** The locked part of a queue. */
  class LockedQueue<T(==)> {
    const kind: Kind
    const capacity: nat
    var entries: seq<T>
    var shutdown: bool
    var sleepers: nat

    constructor (kind: Kind, capacity: nat)
      ensures this.kind == kind && this.capacity == capacity
      ensures View() == Locked([], false, 0)
    {
      this.kind, this.capacity := kind, capacity;
      entries, shutdown, sleepers := [], false, 0;
    }

    ghost function View(): Locked<T>
      reads this
    {
      Locked(entries, shutdown, sleepers)
    }

    /** Fails fast when the queue is closed or full, and then changes nothing. */
    method Push(job: T) returns (result: Result<(), JobError>)
      modifies this`entries, this`sleepers
      ensures result == old(View()).Admits(kind, capacity)
      ensures View() == if result.Ok? then old(View()).With(job) else old(View())
      ensures |old(entries)| <= capacity ==> |entries| <= capacity
    {
      if shutdown {
        return Err(QueueClosed(kind));
      }
      if |entries| >= capacity {
        return Err(QueueFull(kind));
      }
      entries := entries + [job];
      NotifyOne();
      return Ok(());
    }

    method NotifyOne()
      modifies this`sleepers
      ensures sleepers == SaturatingSub(old(sleepers), 1)
    {
      sleepers := SaturatingSub(sleepers, 1);
    }

    /** The oldest job, or the decision to wait. */
    method PopOnce() returns (popped: Popped<T>)
      modifies this`entries, this`sleepers
      ensures popped == old(View()).Front() && View() == old(View()).AfterPop()
      ensures popped.Job? ==> old(entries) == [popped.job] + entries
      ensures !popped.Job? ==> entries == old(entries)
    {
      if shutdown {
        return Closed;
      }
      if entries != [] {
        popped := Job(entries[0]);
        entries := entries[1..];
        return;
      }
      sleepers := sleepers + 1;
      return Sleep;
    }

    /** Closes the queue and notifies every waiting thread. */
    method Shutdown()
      modifies this`shutdown, this`sleepers
      ensures View() == old(View()).Shut()
    {
      shutdown, sleepers := true, 0;
    }
  }

  /** Where a worker is. A job is named by its place in the order of pushes. */
  datatype Worker =
    | AtPop
    | Asleep
    | Taken(job: nat)
    | Holding(job: nat)
    | Starting(job: nat)
    | Running(job: nat)
    | Computed(job: nat)
    | Ending
    | Gone
  {
    predicate HasJob() { Taken? || Holding? || Starting? || Running? || Computed? }

    predicate Is(role: Role) {
      match role
      case Heading => AtPop?
      case Uncounted => Taken?
      case Active => Running? || Computed? || Ending?
      case Waiting => Asleep?
    }

    /** At most how many steps of its own a worker still takes once its queue is closed. */
    function Rank(): nat {
      match this
      case Gone => 0
      case AtPop => 1
      case Asleep => 2
      case Ending => 2
      case Computed(_) => 3
      case Running(_) => 4
      case Starting(_) => 5
      case Holding(_) => 6
      case Taken(_) => 7
    }
  }

  datatype Role = Heading | Uncounted | Active | Waiting

  /** One queue: `pushed` and `popped` count all jobs so far, `uncounted` the pushes not yet in `depth`. */
  datatype Lane = Lane(
    entries: seq<nat>, pushed: nat, popped: nat, uncounted: nat, depth: U64, active: U64, workers: seq<Worker>,
    closed: bool)
  {
    ghost function View(): Locked<nat> { Locked(entries, closed, Count(workers, Waiting)) }
  }

  datatype Done = Done(kind: Kind, job: nat)

  /** `sent` and `ran` record the completions sent and run; `withdrawn` the jobs cancelled while queued. */
  datatype State = State(
    io: Lane, cpu: Lane, cancelled: set<Done>, completions: seq<Done>, sent: seq<Done>, ran: seq<Done>,
    withdrawn: set<Done>)
  {
    function At(kind: Kind): Lane { if kind.Io? then io else cpu }

    function With(kind: Kind, lane: Lane): State {
      if kind.Io? then this.(io := lane) else this.(cpu := lane)
    }

    predicate Cancelled(kind: Kind, job: nat) { Done(kind, job) in cancelled }
  }

  datatype Step =
    | Submit(kind: Kind, woken: nat)
    | CountPush(kind: Kind)
    | Pop(kind: Kind, worker: nat)
    | Wake(kind: Kind, worker: nat)
    | CountPop(kind: Kind, worker: nat)
    | Check(kind: Kind, worker: nat)
    | Activate(kind: Kind, worker: nat)
    | Run(kind: Kind, worker: nat)
    | Finish(kind: Kind, worker: nat)
    | Deactivate(kind: Kind, worker: nat)
    | Shutdown(kind: Kind)
    | Cancel(kind: Kind, job: nat)
    | Pump

  datatype Config = Config(ioCapacity: nat, cpuCapacity: nat)
  {
    function Capacity(kind: Kind): nat { if kind.Io? then ioCapacity else cpuCapacity }
  }

  /** `notify_one` wakes some sleeping worker whenever there is one. */
  predicate Wakes(workers: seq<Worker>, woken: nat) {
    (exists w :: 0 <= w < |workers| && workers[w].Asleep?) ==> woken < |workers| && workers[woken].Asleep?
  }

  /** The lane after a push that found room. */
  function Pushed(lane: Lane, woken: nat): Lane {
    lane.(entries := lane.entries + [lane.pushed], pushed := lane.pushed + 1, uncounted := lane.uncounted + 1,
          workers := if woken < |lane.workers| && lane.workers[woken].Asleep? then lane.workers[woken := AtPop]
                     else lane.workers)
  }

  /** `notify_all` */
  function Awakened(workers: seq<Worker>): seq<Worker> {
    seq(|workers|, i requires 0 <= i < |workers| => if workers[i].Asleep? then AtPop else workers[i])
  }

  predicate OfWorker(step: Step) {
    !step.Submit? && !step.CountPush? && !step.Shutdown? && !step.Cancel? && !step.Pump?
  }

  predicate AllGone(workers: seq<Worker>) {
    forall w :: 0 <= w < |workers| ==> workers[w].Gone?
  }

  /**
   * A shutdown is part of dropping the state that the queues live in. Every worker thread owns a share of that
   * state until it leaves, so it cannot be dropped before.
   */
  predicate Enabled(cfg: Config, s: State, step: Step) {
    match step
    case Submit(kind, woken) =>
      && !s.At(kind).closed && |s.At(kind).entries| < cfg.Capacity(kind)
      && Wakes(s.At(kind).workers, woken)
    case CountPush(kind) => s.At(kind).uncounted > 0
    case Pop(kind, w) => w < |s.At(kind).workers| && s.At(kind).workers[w].AtPop?
    case Wake(kind, w) => w < |s.At(kind).workers| && s.At(kind).workers[w].Asleep?
    case CountPop(kind, w) => w < |s.At(kind).workers| && s.At(kind).workers[w].Taken?
    case Check(kind, w) => w < |s.At(kind).workers| && s.At(kind).workers[w].Holding?
    case Activate(kind, w) => w < |s.At(kind).workers| && s.At(kind).workers[w].Starting?
    case Run(kind, w) => w < |s.At(kind).workers| && s.At(kind).workers[w].Running?
    case Finish(kind, w) => w < |s.At(kind).workers| && s.At(kind).workers[w].Computed?
    case Deactivate(kind, w) => w < |s.At(kind).workers| && s.At(kind).workers[w].Ending?
    case Shutdown(_) => AllGone(s.io.workers) && AllGone(s.cpu.workers)
    case Cancel(kind, job) => job < s.At(kind).pushed
    case Pump => s.completions != []
  }

  /** The lane's own part of a step. */
  function LaneNext(cfg: Config, s: State, step: Step): Lane
    requires Enabled(cfg, s, step) && !step.Cancel? && !step.Pump?
  {
    var kind, lane := step.kind, s.At(step.kind);
    match step
    case Submit(_, woken) => Pushed(lane, woken)
    case CountPush(_) => lane.(uncounted := lane.uncounted - 1, depth := WrapAdd(lane.depth, 1))
    case Pop(_, w) =>
      if lane.closed then lane.(workers := lane.workers[w := Gone])
      else if lane.entries == [] then lane.(workers := lane.workers[w := Asleep])
      else lane.(workers := lane.workers[w := Taken(lane.entries[0])], entries := lane.entries[1..],
                 popped := lane.popped + 1)
    case Wake(_, w) => lane.(workers := lane.workers[w := AtPop])
    case CountPop(_, w) =>
      lane.(workers := lane.workers[w := Holding(lane.workers[w].job)], depth := WrapSub(lane.depth, 1))
    case Check(_, w) =>
      var job := lane.workers[w].job;
      lane.(workers := lane.workers[w := if s.Cancelled(kind, job) then AtPop else Starting(job)])
    case Activate(_, w) =>
      lane.(workers := lane.workers[w := Running(lane.workers[w].job)], active := WrapAdd(lane.active, 1))
    case Run(_, w) =>
      var job := lane.workers[w].job;
      lane.(workers := lane.workers[w := if s.Cancelled(kind, job) then Ending else Computed(job)])
    case Finish(_, w) => lane.(workers := lane.workers[w := Ending])
    case Deactivate(_, w) => lane.(workers := lane.workers[w := AtPop], active := WrapSub(lane.active, 1))
    case Shutdown(_) => lane.(closed := true, workers := Awakened(lane.workers))
  }

  function Next(cfg: Config, s: State, step: Step): State {
    if !Enabled(cfg, s, step) then s else
    match step
    case Cancel(kind, job) =>
      var done := Done(kind, job);
      s.(cancelled := s.cancelled + {done},
         withdrawn := if job < s.At(kind).popped then s.withdrawn else s.withdrawn + {done})
    case Pump => s.(completions := s.completions[1..], ran := s.ran + [s.completions[0]])
    case Finish(kind, w) =>
      var job := s.At(kind).workers[w].job;
      var out := if s.Cancelled(kind, job) then [] else [Done(kind, job)];
      s.With(kind, LaneNext(cfg, s, step)).(completions := s.completions + out, sent := s.sent + out)
    case _ => s.With(step.kind, LaneNext(cfg, s, step))
  }

  function Execute(cfg: Config, s: State, steps: seq<Step>): State
    decreases |steps|
  {
    if steps == [] then s else Execute(cfg, Next(cfg, s, steps[0]), steps[1..])
  }

  function NewLane(workers: nat): Lane {
    Lane([], 0, 0, 0, 0, 0, seq(workers, _ => AtPop), false)
  }

  function Initial(ioWorkers: nat, cpuWorkers: nat): State {
    State(NewLane(ioWorkers), NewLane(cpuWorkers), {}, [], [], [], {})
  }

  function Count(workers: seq<Worker>, role: Role): nat {
    if workers == [] then 0 else (if workers[0].Is(role) then 1 else 0) + Count(workers[1..], role)
  }

  // ----- Invariants of one lane -----

  /** The n-th pop took the n-th push, and the queue holds the ones in between in order. */
  ghost predicate FifoOk(lane: Lane, capacity: nat) {
    && lane.popped + |lane.entries| == lane.pushed
    && (forall i :: 0 <= i < |lane.entries| ==> lane.entries[i] == lane.popped + i)
    && |lane.entries| <= capacity
  }

  /** While some worker sleeps, every queued job has a worker on its way to take it. */
  ghost predicate NoLostWakeup(lane: Lane) {
    (exists w :: 0 <= w < |lane.workers| && lane.workers[w].Asleep?) ==>
      |lane.entries| <= Count(lane.workers, Heading)
  }

  /** The depth counter, modulo its width. */
  ghost predicate DepthOk(lane: Lane) {
    lane.depth == Wrapped(|lane.entries| + Count(lane.workers, Uncounted) - lane.uncounted)
  }

  ghost predicate ActiveOk(lane: Lane) {
    lane.active == Count(lane.workers, Active) && |lane.workers| < U64_LIMIT
  }

  /** Nobody sleeps on a closed queue, and nobody leaves an open one. */
  ghost predicate ClosedOk(lane: Lane) {
    if lane.closed then forall w :: 0 <= w < |lane.workers| ==> !lane.workers[w].Asleep?
    else forall w :: 0 <= w < |lane.workers| ==> !lane.workers[w].Gone?
  }

  /** A popped job is with one worker at most. */
  ghost predicate JobsOk(lane: Lane) {
    && (forall w :: 0 <= w < |lane.workers| && lane.workers[w].HasJob() ==> lane.workers[w].job < lane.popped)
    && (forall v, w :: 0 <= v < w < |lane.workers| && lane.workers[v].HasJob() && lane.workers[w].HasJob() ==>
          lane.workers[v].job != lane.workers[w].job)
  }

  // ----- Counting workers -----

  lemma {:induction false} CountReplaced(workers: seq<Worker>, w: nat, to: Worker, role: Role)
    requires w < |workers|
    ensures Count(workers[w := to], role) + (if workers[w].Is(role) then 1 else 0)
         == Count(workers, role) + (if to.Is(role) then 1 else 0)
  {
    if w == 0 {
      assert workers[w := to][1..] == workers[1..];
    } else {
      CountReplaced(workers[1..], w - 1, to, role);
      assert workers[w := to][1..] == workers[1..][w - 1 := to];
    }
  }

  lemma {:induction false} CountBounds(workers: seq<Worker>, role: Role)
    ensures Count(workers, role) <= |workers|
    ensures (exists w :: 0 <= w < |workers| && workers[w].Is(role)) <==> Count(workers, role) > 0
  {
    if workers != [] {
      CountBounds(workers[1..], role);
      if Count(workers[1..], role) > 0 {
        var w :| 0 <= w < |workers[1..]| && workers[1..][w].Is(role);
        assert workers[w + 1].Is(role);
      }
      if w :| 0 <= w < |workers| && workers[w].Is(role) && w > 0 {
        assert workers[1..][w - 1].Is(role);
      }
    }
  }

  lemma {:induction false} CountAwakened(workers: seq<Worker>, role: Role)
    requires !role.Heading? && !role.Waiting?
    ensures Count(Awakened(workers), role) == Count(workers, role)
  {
    if workers != [] {
      assert Awakened(workers)[1..] == Awakened(workers[1..]);
      CountAwakened(workers[1..], role);
    }
  }

  lemma {:induction false} NobodySleeps(workers: seq<Worker>)
    ensures Count(Awakened(workers), Waiting) == 0
  {
    if workers != [] {
      assert Awakened(workers)[1..] == Awakened(workers[1..]);
      NobodySleeps(workers[1..]);
    }
  }

  // ----- Every step keeps the invariants of its lane -----

  /** Pushing, popping and closing are what the locked queue does; other steps leave it alone, or wake a sleeper. */
  lemma {:induction false} LaneIsQueue(cfg: Config, s: State, step: Step)
    requires Enabled(cfg, s, step) && !step.Cancel? && !step.Pump?
    ensures var queue, next, capacity := s.At(step.kind).View(), LaneNext(cfg, s, step).View(), cfg.Capacity(step.kind);
      match step
      case Submit(kind, _) => queue.Admits(kind, capacity).Ok? && next == queue.With(s.At(kind).pushed)
      case Pop(_, _) => next == queue.AfterPop()
      case Shutdown(_) => next == queue.Shut()
      case Wake(_, _) => queue.sleepers > 0 && next == queue.(sleepers := queue.sleepers - 1)
      case _ => next == queue
  {
    var lane, next := s.At(step.kind), LaneNext(cfg, s, step);
    if step.Submit? {
      CountBounds(lane.workers, Waiting);
      if step.woken < |lane.workers| && lane.workers[step.woken].Asleep? {
        CountReplaced(lane.workers, step.woken, AtPop, Waiting);
      } else {
        assert forall w :: 0 <= w < |lane.workers| ==> !lane.workers[w].Asleep?;
      }
    } else if step.Shutdown? {
      NobodySleeps(lane.workers);
    } else if OfWorker(step) {
      CountReplaced(lane.workers, step.worker, next.workers[step.worker], Waiting);
    }
  }

  lemma {:induction false} FifoKept(cfg: Config, s: State, step: Step)
    requires Enabled(cfg, s, step) && !step.Cancel? && !step.Pump?
    requires FifoOk(s.At(step.kind), cfg.Capacity(step.kind))
    ensures FifoOk(LaneNext(cfg, s, step), cfg.Capacity(step.kind))
  {
  }

  lemma {:induction false} WakeupKept(cfg: Config, s: State, step: Step)
    requires Enabled(cfg, s, step) && !step.Cancel? && !step.Pump?
    requires NoLostWakeup(s.At(step.kind)) && ClosedOk(s.At(step.kind))
    ensures NoLostWakeup(LaneNext(cfg, s, step))
  {
    var lane, next := s.At(step.kind), LaneNext(cfg, s, step);
    if step.Submit? {
      if step.woken < |lane.workers| && lane.workers[step.woken].Asleep? {
        CountReplaced(lane.workers, step.woken, AtPop, Heading);
      }
    } else if OfWorker(step) {
      CountReplaced(lane.workers, step.worker, next.workers[step.worker], Heading);
    }
  }

  lemma {:induction false} WrapsStepwise(n: int)
    ensures WrapAdd(Wrapped(n), 1) == Wrapped(n + 1)
    ensures WrapSub(Wrapped(n), 1) == Wrapped(n - 1)
  {
    var rounds, r := n / U64_LIMIT, n % U64_LIMIT;
    WrapIs(n + 1, if r + 1 < U64_LIMIT then rounds else rounds + 1, if r + 1 < U64_LIMIT then r + 1 else 0);
    WrapIs(n - 1, if r > 0 then rounds else rounds - 1, if r > 0 then r - 1 else U64_LIMIT - 1);
  }

  lemma {:induction false} WrapIs(n: int, rounds: int, r: U64)
    requires n == rounds * U64_LIMIT + r
    ensures Wrapped(n) == r
  {
  }

  lemma {:induction false} DepthKept(cfg: Config, s: State, step: Step)
    requires Enabled(cfg, s, step) && !step.Cancel? && !step.Pump?
    requires DepthOk(s.At(step.kind))
    ensures DepthOk(LaneNext(cfg, s, step))
  {
    var lane, next := s.At(step.kind), LaneNext(cfg, s, step);
    var before := |lane.entries| + Count(lane.workers, Uncounted) - lane.uncounted;
    var after := |next.entries| + Count(next.workers, Uncounted) - next.uncounted;
    if step.Submit? {
      if step.woken < |lane.workers| && lane.workers[step.woken].Asleep? {
        CountReplaced(lane.workers, step.woken, AtPop, Uncounted);
      }
      assert after == before;
    } else if step.CountPush? {
      assert after == before + 1;
      WrapsStepwise(before);
    } else if step.Shutdown? {
      CountAwakened(lane.workers, Uncounted);
    } else {
      CountReplaced(lane.workers, step.worker, next.workers[step.worker], Uncounted);
      assert after == if step.CountPop? then before - 1 else before;
      WrapsStepwise(before);
    }
  }

  lemma {:induction false} ActiveKept(cfg: Config, s: State, step: Step)
    requires Enabled(cfg, s, step) && !step.Cancel? && !step.Pump?
    requires ActiveOk(s.At(step.kind))
    ensures ActiveOk(LaneNext(cfg, s, step))
  {
    var lane, next := s.At(step.kind), LaneNext(cfg, s, step);
    CountBounds(next.workers, Active);
    CountBounds(lane.workers, Active);
    if step.Submit? {
      if step.woken < |lane.workers| && lane.workers[step.woken].Asleep? {
        CountReplaced(lane.workers, step.woken, AtPop, Active);
      }
    } else if step.Shutdown? {
      CountAwakened(lane.workers, Active);
    } else if OfWorker(step) {
      CountReplaced(lane.workers, step.worker, next.workers[step.worker], Active);
    }
  }

  lemma {:induction false} ClosedKept(cfg: Config, s: State, step: Step)
    requires Enabled(cfg, s, step) && !step.Cancel? && !step.Pump?
    requires ClosedOk(s.At(step.kind))
    ensures ClosedOk(LaneNext(cfg, s, step))
  {
  }

  /** Workers keep the jobs they have, or lose them. */
  ghost predicate JobsStay(before: seq<Worker>, after: seq<Worker>) {
    && |after| == |before|
    && forall w :: 0 <= w < |after| && after[w].HasJob() ==> before[w].HasJob() && before[w].job == after[w].job
  }

  lemma {:induction false} StepKeepsJobs(cfg: Config, s: State, step: Step)
    requires Enabled(cfg, s, step) && !step.Cancel? && !step.Pump? && !step.Pop?
    ensures var lane, next := s.At(step.kind), LaneNext(cfg, s, step);
      JobsStay(lane.workers, next.workers) && next.popped == lane.popped
  {
  }

  lemma {:induction false} PopKeepsJobs(cfg: Config, s: State, step: Step)
    requires Enabled(cfg, s, step) && step.Pop?
    requires FifoOk(s.At(step.kind), cfg.Capacity(step.kind)) && JobsOk(s.At(step.kind))
    ensures JobsOk(LaneNext(cfg, s, step))
  {
  }

  lemma {:induction false} StayingJobsOk(lane: Lane, next: Lane)
    requires JobsOk(lane) && JobsStay(lane.workers, next.workers) && next.popped == lane.popped
    ensures JobsOk(next)
  {
  }

  lemma {:induction false} JobsKept(cfg: Config, s: State, step: Step)
    requires Enabled(cfg, s, step) && !step.Cancel? && !step.Pump?
    requires FifoOk(s.At(step.kind), cfg.Capacity(step.kind)) && JobsOk(s.At(step.kind))
    ensures JobsOk(LaneNext(cfg, s, step))
  {
    if step.Pop? {
      PopKeepsJobs(cfg, s, step);
    } else {
      StepKeepsJobs(cfg, s, step);
      StayingJobsOk(s.At(step.kind), LaneNext(cfg, s, step));
    }
  }

  ghost predicate LaneOk(lane: Lane, capacity: nat) {
    FifoOk(lane, capacity) && NoLostWakeup(lane) && DepthOk(lane) && ActiveOk(lane) && JobsOk(lane) && ClosedOk(lane)
  }

  lemma {:induction false} LaneKept(cfg: Config, s: State, step: Step)
    requires Enabled(cfg, s, step) && !step.Cancel? && !step.Pump?
    requires LaneOk(s.At(step.kind), cfg.Capacity(step.kind))
    ensures LaneOk(LaneNext(cfg, s, step), cfg.Capacity(step.kind))
  {
    FifoKept(cfg, s, step);
    WakeupKept(cfg, s, step);
    DepthKept(cfg, s, step);
    ActiveKept(cfg, s, step);
    JobsKept(cfg, s, step);
    ClosedKept(cfg, s, step);
  }

  // ----- Invariants of the completions -----

  /** A completion belongs to a popped job that no worker has any more. */
  ghost predicate SentOk(lane: Lane, kind: Kind, sent: seq<Done>) {
    && (forall i :: 0 <= i < |sent| && sent[i].kind == kind ==> sent[i].job < lane.popped)
    && (forall w :: 0 <= w < |lane.workers| && lane.workers[w].HasJob() ==> Done(kind, lane.workers[w].job) !in sent)
  }

  ghost predicate NoDuplicates<T(!new)>(s: seq<T>) {
    forall i, j :: 0 <= i < j < |s| ==> s[i] != s[j]
  }

  ghost predicate CompletionsOk(s: State) {
    s.sent == s.ran + s.completions && NoDuplicates(s.sent)
  }

  ghost predicate Unstarted(s: State, kind: Kind, worker: Worker) {
    worker.HasJob() && Done(kind, worker.job) in s.withdrawn ==> worker.Taken? || worker.Holding?
  }

  /** A job cancelled while it was queued has no completion, and no worker is past its first check of it. */
  ghost predicate WithdrawnOk(s: State, kind: Kind) {
    && s.withdrawn <= s.cancelled
    && (forall d :: d in s.withdrawn && d.kind == kind ==> d !in s.sent)
    && (forall w :: 0 <= w < |s.At(kind).workers| ==> Unstarted(s, kind, s.At(kind).workers[w]))
  }

  ghost predicate KindOk(cfg: Config, s: State, kind: Kind) {
    LaneOk(s.At(kind), cfg.Capacity(kind)) && SentOk(s.At(kind), kind, s.sent) && WithdrawnOk(s, kind)
  }

  ghost predicate Inv(cfg: Config, s: State) {
    KindOk(cfg, s, Io) && KindOk(cfg, s, Cpu) && CompletionsOk(s)
  }

  lemma {:induction false} SentKeptByFinish(cfg: Config, s: State, step: Step, kind: Kind)
    requires Enabled(cfg, s, step) && step.Finish?
    requires SentOk(s.At(kind), kind, s.sent) && FifoOk(s.At(kind), cfg.Capacity(kind)) && JobsOk(s.At(kind))
    ensures SentOk(Next(cfg, s, step).At(kind), kind, Next(cfg, s, step).sent)
  {
  }

  lemma {:induction false} SentKeptByPop(cfg: Config, s: State, step: Step, kind: Kind)
    requires Enabled(cfg, s, step) && step.Pop?
    requires SentOk(s.At(kind), kind, s.sent) && FifoOk(s.At(kind), cfg.Capacity(kind)) && JobsOk(s.At(kind))
    ensures SentOk(Next(cfg, s, step).At(kind), kind, Next(cfg, s, step).sent)
  {
  }

  /** A step that neither pops nor finishes: what the lane of a kind was and is. */
  lemma {:induction false} RestKeepsJobs(cfg: Config, s: State, step: Step, kind: Kind)
    requires Enabled(cfg, s, step) && !step.Finish? && !step.Pop?
    ensures var lane, next := s.At(kind), Next(cfg, s, step).At(kind);
      JobsStay(lane.workers, next.workers) && next.popped == lane.popped
    ensures Next(cfg, s, step).sent == s.sent
  {
    if !step.Cancel? && !step.Pump? && step.kind == kind {
      StepKeepsJobs(cfg, s, step);
    }
  }

  lemma {:induction false} SentStays(lane: Lane, next: Lane, kind: Kind, sent: seq<Done>)
    requires SentOk(lane, kind, sent) && JobsStay(lane.workers, next.workers) && next.popped == lane.popped
    ensures SentOk(next, kind, sent)
  {
  }

  lemma {:induction false} SentKept(cfg: Config, s: State, step: Step, kind: Kind)
    requires Enabled(cfg, s, step)
    requires SentOk(s.At(kind), kind, s.sent) && FifoOk(s.At(kind), cfg.Capacity(kind)) && JobsOk(s.At(kind))
    ensures SentOk(Next(cfg, s, step).At(kind), kind, Next(cfg, s, step).sent)
  {
    if step.Finish? {
      SentKeptByFinish(cfg, s, step, kind);
    } else if step.Pop? {
      SentKeptByPop(cfg, s, step, kind);
    } else {
      RestKeepsJobs(cfg, s, step, kind);
      SentStays(s.At(kind), Next(cfg, s, step).At(kind), kind, s.sent);
    }
  }

  lemma {:induction false} WithdrawnKeptByFinish(cfg: Config, s: State, step: Step, kind: Kind)
    requires Enabled(cfg, s, step) && step.Finish?
    requires WithdrawnOk(s, kind) && SentOk(s.At(kind), kind, s.sent) && JobsOk(s.At(kind))
    ensures WithdrawnOk(Next(cfg, s, step), kind)
  {
  }

  lemma {:induction false} WithdrawnKeptByPop(cfg: Config, s: State, step: Step, kind: Kind)
    requires Enabled(cfg, s, step) && step.Pop?
    requires WithdrawnOk(s, kind) && SentOk(s.At(kind), kind, s.sent) && JobsOk(s.At(kind))
    ensures WithdrawnOk(Next(cfg, s, step), kind)
  {
  }

  lemma {:induction false} WithdrawnKeptByCancel(cfg: Config, s: State, step: Step, kind: Kind)
    requires Enabled(cfg, s, step) && step.Cancel?
    requires WithdrawnOk(s, kind) && SentOk(s.At(kind), kind, s.sent) && JobsOk(s.At(kind))
    ensures WithdrawnOk(Next(cfg, s, step), kind)
  {
  }

  lemma {:induction false} StaysUnstarted(cfg: Config, s: State, step: Step, kind: Kind, w: nat)
    requires Enabled(cfg, s, step) && !step.Finish? && !step.Pop? && !step.Cancel?
    requires w < |s.At(kind).workers| && Unstarted(s, kind, s.At(kind).workers[w]) && s.withdrawn <= s.cancelled
    ensures var next := Next(cfg, s, step);
      w < |next.At(kind).workers| && Unstarted(next, kind, next.At(kind).workers[w])
  {
  }

  lemma {:induction false} WithdrawnKeptByRest(cfg: Config, s: State, step: Step, kind: Kind)
    requires Enabled(cfg, s, step) && !step.Finish? && !step.Pop? && !step.Cancel?
    requires WithdrawnOk(s, kind) && SentOk(s.At(kind), kind, s.sent) && JobsOk(s.At(kind))
    ensures WithdrawnOk(Next(cfg, s, step), kind)
  {
    var next := Next(cfg, s, step);
    RestKeepsJobs(cfg, s, step, kind);
    assert next.withdrawn == s.withdrawn && next.cancelled == s.cancelled;
    forall w: nat | w < |next.At(kind).workers|
      ensures Unstarted(next, kind, next.At(kind).workers[w])
    {
      StaysUnstarted(cfg, s, step, kind, w);
    }
  }

  lemma {:induction false} WithdrawnKept(cfg: Config, s: State, step: Step, kind: Kind)
    requires Enabled(cfg, s, step)
    requires WithdrawnOk(s, kind) && SentOk(s.At(kind), kind, s.sent) && JobsOk(s.At(kind))
    ensures WithdrawnOk(Next(cfg, s, step), kind)
  {
    if step.Finish? {
      WithdrawnKeptByFinish(cfg, s, step, kind);
    } else if step.Pop? {
      WithdrawnKeptByPop(cfg, s, step, kind);
    } else if step.Cancel? {
      WithdrawnKeptByCancel(cfg, s, step, kind);
    } else {
      WithdrawnKeptByRest(cfg, s, step, kind);
    }
  }

  lemma {:induction false} CompletionsKept(cfg: Config, s: State, step: Step)
    requires Enabled(cfg, s, step) && CompletionsOk(s)
    requires step.Finish? ==> SentOk(s.At(step.kind), step.kind, s.sent)
    ensures CompletionsOk(Next(cfg, s, step))
  {
  }

  lemma {:induction false} StepKeeps(cfg: Config, s: State, step: Step)
    requires Inv(cfg, s)
    ensures Inv(cfg, Next(cfg, s, step))
  {
    if Enabled(cfg, s, step) {
      if !step.Cancel? && !step.Pump? {
        LaneKept(cfg, s, step);
      }
      SentKept(cfg, s, step, Io);
      SentKept(cfg, s, step, Cpu);
      WithdrawnKept(cfg, s, step, Io);
      WithdrawnKept(cfg, s, step, Cpu);
      CompletionsKept(cfg, s, step);
    }
  }

  lemma {:induction false} RunKeeps(cfg: Config, s: State, steps: seq<Step>)
    requires Inv(cfg, s)
    ensures Inv(cfg, Execute(cfg, s, steps))
    decreases |steps|
  {
    if steps != [] {
      StepKeeps(cfg, s, steps[0]);
      RunKeeps(cfg, Next(cfg, s, steps[0]), steps[1..]);
    }
  }

  lemma {:induction false} NewLaneOk(workers: nat, capacity: nat)
    requires workers < U64_LIMIT
    ensures LaneOk(NewLane(workers), capacity)
  {
    CountBounds(NewLane(workers).workers, Uncounted);
    CountBounds(NewLane(workers).workers, Active);
  }

  // ----- Results about every run of a pool -----

  ghost predicate PoolSize(ioWorkers: nat, cpuWorkers: nat) {
    ioWorkers < U64_LIMIT && cpuWorkers < U64_LIMIT
  }

  lemma {:induction false} Reached(cfg: Config, ioWorkers: nat, cpuWorkers: nat, steps: seq<Step>)
    requires PoolSize(ioWorkers, cpuWorkers)
    ensures Inv(cfg, Execute(cfg, Initial(ioWorkers, cpuWorkers), steps))
  {
    NewLaneOk(ioWorkers, cfg.ioCapacity);
    NewLaneOk(cpuWorkers, cfg.cpuCapacity);
    RunKeeps(cfg, Initial(ioWorkers, cpuWorkers), steps);
  }

  /** No wake-up is lost: a queue with jobs never coexists with workers that are all asleep. */
  lemma {:induction false} QueuedJobsHaveTakers(
      cfg: Config, ioWorkers: nat, cpuWorkers: nat, steps: seq<Step>, kind: Kind)
    requires PoolSize(ioWorkers, cpuWorkers)
    ensures var lane := Execute(cfg, Initial(ioWorkers, cpuWorkers), steps).At(kind);
      && NoLostWakeup(lane)
      && (lane.entries != [] && lane.workers != [] && !lane.closed ==>
            exists w :: 0 <= w < |lane.workers| && !lane.workers[w].Asleep? && !lane.workers[w].Gone?)
  {
    Reached(cfg, ioWorkers, cpuWorkers, steps);
    var lane := Execute(cfg, Initial(ioWorkers, cpuWorkers), steps).At(kind);
    if lane.entries != [] && lane.workers != [] && lane.workers[0].Asleep? {
      CountBounds(lane.workers, Heading);
      var w :| 0 <= w < |lane.workers| && lane.workers[w].Is(Heading);
      assert !lane.workers[w].Asleep?;
    }
  }

  /** Jobs leave in the order of their pushes, each to one worker, and the queue stays within its capacity. */
  lemma {:induction false} JobsLeaveInOrder(
      cfg: Config, ioWorkers: nat, cpuWorkers: nat, steps: seq<Step>, kind: Kind)
    requires PoolSize(ioWorkers, cpuWorkers)
    ensures var lane := Execute(cfg, Initial(ioWorkers, cpuWorkers), steps).At(kind);
      FifoOk(lane, cfg.Capacity(kind)) && JobsOk(lane)
  {
    Reached(cfg, ioWorkers, cpuWorkers, steps);
  }

  /** A completion is sent, and run, at most once; it is run in the order sent; withdrawn jobs have none. */
  lemma {:induction false} CompletionsRunOnce(cfg: Config, ioWorkers: nat, cpuWorkers: nat, steps: seq<Step>)
    requires PoolSize(ioWorkers, cpuWorkers)
    ensures var s := Execute(cfg, Initial(ioWorkers, cpuWorkers), steps);
      && s.ran <= s.sent
      && NoDuplicates(s.ran)
      && (forall d :: d in s.withdrawn ==> d !in s.ran)
  {
    Reached(cfg, ioWorkers, cpuWorkers, steps);
    var s := Execute(cfg, Initial(ioWorkers, cpuWorkers), steps);
    forall d | d in s.withdrawn
      ensures d !in s.ran
    {
      assert WithdrawnOk(s, d.kind) by {
        if d.kind.Io? { assert KindOk(cfg, s, Io); } else { assert KindOk(cfg, s, Cpu); }
      }
      assert forall x :: x in s.ran ==> x in s.sent;
    }
    forall i, j | 0 <= i < j < |s.ran|
      ensures s.ran[i] != s.ran[j]
    {
      assert s.sent[i] == s.ran[i] && s.sent[j] == s.ran[j];
    }
  }

  // ----- Cancelling a job -----

  lemma {:induction false} WithdrawnStays(cfg: Config, s: State, steps: seq<Step>, done: Done)
    requires done in s.withdrawn
    ensures done in Execute(cfg, s, steps).withdrawn
    decreases |steps|
  {
    if steps != [] {
      WithdrawnStays(cfg, Next(cfg, s, steps[0]), steps[1..], done);
    }
  }

  /** A job cancelled while it is queued never has a completion, whatever happens afterwards. */
  lemma {:induction false} CancelledWhileQueued(cfg: Config, s: State, steps: seq<Step>, kind: Kind, job: nat)
    requires Inv(cfg, s) && job in s.At(kind).entries
    ensures Done(kind, job) !in Execute(cfg, Next(cfg, s, Cancel(kind, job)), steps).sent
  {
    var next := Next(cfg, s, Cancel(kind, job));
    assert FifoOk(s.At(kind), cfg.Capacity(kind)) by {
      if kind.Io? { assert KindOk(cfg, s, Io); } else { assert KindOk(cfg, s, Cpu); }
    }
    StepKeeps(cfg, s, Cancel(kind, job));
    RunKeeps(cfg, next, steps);
    WithdrawnStays(cfg, next, steps, Done(kind, job));
    var last := Execute(cfg, next, steps);
    assert WithdrawnOk(last, kind) by {
      if kind.Io? { assert KindOk(cfg, last, Io); } else { assert KindOk(cfg, last, Cpu); }
    }
  }

  /** Only jobs that were submitted are cancelled. */
  ghost predicate CancelsKnown(s: State) {
    forall d :: d in s.cancelled ==> d.job < s.At(d.kind).pushed
  }

  lemma {:induction false} RunCancelsKnown(cfg: Config, s: State, steps: seq<Step>)
    requires CancelsKnown(s)
    ensures CancelsKnown(Execute(cfg, s, steps))
    decreases |steps|
  {
    if steps != [] {
      PushedGrows(cfg, s, steps[0]);
      RunCancelsKnown(cfg, Next(cfg, s, steps[0]), steps[1..]);
    }
  }

  lemma {:induction false} PushedGrows(cfg: Config, s: State, step: Step)
    ensures s.io.pushed <= Next(cfg, s, step).io.pushed && s.cpu.pushed <= Next(cfg, s, step).cpu.pushed
    ensures forall d :: d in Next(cfg, s, step).cancelled ==>
      d in s.cancelled || (step.Cancel? && d == Done(step.kind, step.job) && d.job < s.At(d.kind).pushed)
  {
  }

  // ----- Nobody is stuck -----

  /** A submitter that pushed can count its push; a job is admitted as long as the queue is open and has room. */
  lemma {:induction false} SubmittersCanGoOn(cfg: Config, s: State, kind: Kind)
    ensures s.At(kind).uncounted > 0 ==>
      var next := Next(cfg, s, CountPush(kind)).At(kind);
      next.uncounted == s.At(kind).uncounted - 1 && next.depth == WrapAdd(s.At(kind).depth, 1)
    ensures !s.At(kind).closed && |s.At(kind).entries| < cfg.Capacity(kind) ==>
      exists woken: nat :: Enabled(cfg, s, Submit(kind, woken))
  {
    var workers := s.At(kind).workers;
    if w: nat :| w < |workers| && workers[w].Asleep? {
      assert Wakes(workers, w);
    } else {
      assert Wakes(workers, 0);
    }
    if !s.At(kind).closed && |s.At(kind).entries| < cfg.Capacity(kind) {
      if w: nat :| w < |workers| && workers[w].Asleep? {
        assert Enabled(cfg, s, Submit(kind, w));
      } else {
        assert Enabled(cfg, s, Submit(kind, 0));
      }
    }
  }

  /** The steps of a worker that takes a job and runs it to its completion. */
  function JobSteps(kind: Kind, w: nat): seq<Step> {
    [Pop(kind, w), CountPop(kind, w), Check(kind, w), Activate(kind, w), Run(kind, w), Finish(kind, w),
     Deactivate(kind, w)]
  }

  /** A lane whose worker is somewhere else, and nothing besides. */
  function Moved(s: State, kind: Kind, w: nat, to: Worker): State
    requires w < |s.At(kind).workers|
  {
    s.With(kind, s.At(kind).(workers := s.At(kind).workers[w := to]))
  }

  lemma {:induction false} TakesJob(cfg: Config, s: State, kind: Kind, w: nat, job: nat)
    requires w < |s.At(kind).workers| && s.At(kind).workers[w].AtPop? && !s.At(kind).closed
    requires s.At(kind).entries != [] && job == s.At(kind).entries[0]
    ensures Next(cfg, s, Pop(kind, w)) == Moved(s.With(kind, s.At(kind).(entries := s.At(kind).entries[1..],
      popped := s.At(kind).popped + 1)), kind, w, Taken(job))
  {
  }

  lemma {:induction false} StartsJob(cfg: Config, s: State, kind: Kind, w: nat, job: nat)
    requires w < |s.At(kind).workers| && s.At(kind).workers[w] == Taken(job) && !s.Cancelled(kind, job)
    ensures var counted := s.With(kind, s.At(kind).(depth := WrapSub(s.At(kind).depth, 1)));
      Next(cfg, Next(cfg, s, CountPop(kind, w)), Check(kind, w)) == Moved(counted, kind, w, Starting(job))
  {
  }

  lemma {:induction false} ComputesJob(cfg: Config, s: State, kind: Kind, w: nat, job: nat)
    requires w < |s.At(kind).workers| && s.At(kind).workers[w] == Starting(job) && !s.Cancelled(kind, job)
    ensures var busy := s.With(kind, s.At(kind).(active := WrapAdd(s.At(kind).active, 1)));
      Next(cfg, Next(cfg, s, Activate(kind, w)), Run(kind, w)) == Moved(busy, kind, w, Computed(job))
  {
  }

  lemma {:induction false} EndsJob(cfg: Config, s: State, kind: Kind, w: nat, job: nat)
    requires w < |s.At(kind).workers| && s.At(kind).workers[w] == Computed(job) && !s.Cancelled(kind, job)
    ensures var done := s.With(kind, s.At(kind).(active := WrapSub(s.At(kind).active, 1)))
        .(completions := s.completions + [Done(kind, job)], sent := s.sent + [Done(kind, job)]);
      Next(cfg, Next(cfg, s, Finish(kind, w)), Deactivate(kind, w)) == Moved(done, kind, w, AtPop)
  {
  }

  lemma {:induction false} ExecuteSeven(cfg: Config, s: State, kind: Kind, w: nat)
    ensures Execute(cfg, s, JobSteps(kind, w)) ==
      var s1 := Next(cfg, s, Pop(kind, w));
      var s3 := Next(cfg, Next(cfg, s1, CountPop(kind, w)), Check(kind, w));
      var s5 := Next(cfg, Next(cfg, s3, Activate(kind, w)), Run(kind, w));
      Next(cfg, Next(cfg, s5, Finish(kind, w)), Deactivate(kind, w))
  {
    hide Next;
    var s1 := Next(cfg, s, Pop(kind, w));
    var s3 := Next(cfg, Next(cfg, s1, CountPop(kind, w)), Check(kind, w));
    var s5 := Next(cfg, Next(cfg, s3, Activate(kind, w)), Run(kind, w));
    var steps := JobSteps(kind, w);
    ExecuteTwo(cfg, s5, Finish(kind, w), Deactivate(kind, w), []);
    ExecuteTwo(cfg, s3, Activate(kind, w), Run(kind, w), [Finish(kind, w), Deactivate(kind, w)]);
    ExecuteTwo(cfg, s1, CountPop(kind, w), Check(kind, w),
      [Activate(kind, w), Run(kind, w), Finish(kind, w), Deactivate(kind, w)]);
    assert steps[1..] == [CountPop(kind, w), Check(kind, w)]
      + [Activate(kind, w), Run(kind, w), Finish(kind, w), Deactivate(kind, w)];
    assert [Activate(kind, w), Run(kind, w), Finish(kind, w), Deactivate(kind, w)]
      == [Activate(kind, w), Run(kind, w)] + [Finish(kind, w), Deactivate(kind, w)];
    assert [Finish(kind, w), Deactivate(kind, w)] == [Finish(kind, w), Deactivate(kind, w)] + [];
  }

  lemma {:induction false} ExecuteTwo(cfg: Config, s: State, first: Step, second: Step, rest: seq<Step>)
    ensures Execute(cfg, s, [first, second] + rest) == Execute(cfg, Next(cfg, Next(cfg, s, first), second), rest)
  {
    var steps := [first, second] + rest;
    assert steps[1..] == [second] + rest && steps[1..][1..] == rest;
  }

  /** A worker at an open queue with jobs can take the oldest and, unless it is cancelled, send its completion. */
  lemma {:induction false} OldestJobCanComplete(cfg: Config, s: State, kind: Kind, w: nat)
    requires w < |s.At(kind).workers| && s.At(kind).workers[w].AtPop? && !s.At(kind).closed
    requires s.At(kind).entries != [] && !s.Cancelled(kind, s.At(kind).entries[0])
    ensures var after, done := Execute(cfg, s, JobSteps(kind, w)), Done(kind, s.At(kind).entries[0]);
      && after.sent == s.sent + [done] && after.completions == s.completions + [done]
      && after.At(kind).entries == s.At(kind).entries[1..] && after.At(kind).workers == s.At(kind).workers
  {
    hide Next, JobSteps;
    var job := s.At(kind).entries[0];
    var s1 := Next(cfg, s, Pop(kind, w));
    var s3 := Next(cfg, Next(cfg, s1, CountPop(kind, w)), Check(kind, w));
    var s5 := Next(cfg, Next(cfg, s3, Activate(kind, w)), Run(kind, w));
    ExecuteSeven(cfg, s, kind, w);
    TakesJob(cfg, s, kind, w, job);
    StartsJob(cfg, s1, kind, w, job);
    ComputesJob(cfg, s3, kind, w, job);
    EndsJob(cfg, s5, kind, w, job);
  }

  // ----- Every job that was popped is answered for -----

  ghost predicate HeldBySome(workers: seq<Worker>, job: nat) {
    exists w :: 0 <= w < |workers| && workers[w].HasJob() && workers[w].job == job
  }

  /** Some worker still has the job, or its completion was sent, or it was cancelled. */
  ghost predicate Accounted(s: State, kind: Kind, job: nat) {
    HeldBySome(s.At(kind).workers, job) || Done(kind, job) in s.sent || s.Cancelled(kind, job)
  }

  ghost predicate AllAccounted(s: State, kind: Kind) {
    forall job: nat :: job < s.At(kind).popped ==> Accounted(s, kind, job)
  }

  lemma {:induction false} HolderAt(workers: seq<Worker>, w: nat)
    requires w < |workers| && workers[w].HasJob()
    ensures HeldBySome(workers, workers[w].job)
  {
  }

  /** A worker that changes hands over at most its own job. */
  lemma {:induction false} OthersHold(workers: seq<Worker>, w: nat, to: Worker, job: nat)
    requires w < |workers| && HeldBySome(workers, job)
    requires workers[w].HasJob() && workers[w].job == job ==> to.HasJob() && to.job == job
    ensures HeldBySome(workers[w := to], job)
  {
    var v :| 0 <= v < |workers| && workers[v].HasJob() && workers[v].job == job;
    HolderAt(workers[w := to], v);
  }

  lemma {:induction false} AwakenedHold(workers: seq<Worker>, job: nat)
    requires HeldBySome(workers, job)
    ensures HeldBySome(Awakened(workers), job)
  {
    var v :| 0 <= v < |workers| && workers[v].HasJob() && workers[v].job == job;
    HolderAt(Awakened(workers), v);
  }

  /** A step of a worker with a job keeps it, or ends in a completion, or comes after a cancellation. */
  lemma {:induction false} HolderAccounts(cfg: Config, s: State, step: Step)
    requires Enabled(cfg, s, step) && OfWorker(step) && s.At(step.kind).workers[step.worker].HasJob()
    ensures var from, to := s.At(step.kind).workers[step.worker], LaneNext(cfg, s, step).workers[step.worker];
      || (to.HasJob() && to.job == from.job)
      || Done(step.kind, from.job) in Next(cfg, s, step).sent
      || s.Cancelled(step.kind, from.job)
  {
  }

  lemma {:induction false} RecordsGrow(cfg: Config, s: State, step: Step, done: Done)
    ensures done in s.sent ==> done in Next(cfg, s, step).sent
    ensures done in s.cancelled ==> done in Next(cfg, s, step).cancelled
  {
  }

  /** What a step of a worker does to its lane: that worker changes, and only a pop counts. */
  lemma {:induction false} WorkerStepIs(cfg: Config, s: State, step: Step)
    requires Enabled(cfg, s, step) && OfWorker(step)
    ensures step.worker < |s.At(step.kind).workers|
    ensures var lane, next := s.At(step.kind), Next(cfg, s, step).At(step.kind); var to := next.workers[step.worker];
      && next == LaneNext(cfg, s, step) && |next.workers| == |lane.workers|
      && next.workers == lane.workers[step.worker := to]
      && (next.popped == lane.popped ||
            (lane.entries != [] && next.popped == lane.popped + 1 && to == Taken(lane.entries[0])))
  {
  }

  lemma {:induction false} WorkerStepAccounts(cfg: Config, s: State, step: Step, job: nat)
    requires Enabled(cfg, s, step) && OfWorker(step)
    requires FifoOk(s.At(step.kind), cfg.Capacity(step.kind))
    requires job < s.At(step.kind).popped ==> Accounted(s, step.kind, job)
    requires job < Next(cfg, s, step).At(step.kind).popped
    ensures Accounted(Next(cfg, s, step), step.kind, job)
  {
    hide Next, LaneNext, Enabled, HeldBySome;
    var lane, next := s.At(step.kind), Next(cfg, s, step);
    WorkerStepIs(cfg, s, step);
    var w, to := step.worker, next.At(step.kind).workers[step.worker];
    RecordsGrow(cfg, s, step, Done(step.kind, job));
    if job == lane.popped {
      HolderAt(next.At(step.kind).workers, w);
    } else if lane.workers[w].HasJob() && lane.workers[w].job == job {
      HolderAccounts(cfg, s, step);
      if to.HasJob() && to.job == job {
        HolderAt(next.At(step.kind).workers, w);
      } else if s.Cancelled(step.kind, job) {
        assert next.Cancelled(step.kind, job);
      }
    } else if HeldBySome(lane.workers, job) {
      OthersHold(lane.workers, w, to, job);
    }
  }

  lemma {:induction false} OtherStepAccounts(cfg: Config, s: State, step: Step, kind: Kind, job: nat)
    requires Enabled(cfg, s, step) && !(OfWorker(step) && step.kind == kind)
    requires Accounted(s, kind, job)
    ensures Accounted(Next(cfg, s, step), kind, job)
  {
    RecordsGrow(cfg, s, step, Done(kind, job));
    var workers := s.At(kind).workers;
    if HeldBySome(workers, job) {
      if step.Submit? && step.kind == kind && step.woken < |workers| && workers[step.woken].Asleep? {
        OthersHold(workers, step.woken, AtPop, job);
      } else if step.Shutdown? {
        AwakenedHold(workers, job);
      }
    }
  }

  lemma {:induction false} OnlyPopsCount(cfg: Config, s: State, step: Step, kind: Kind)
    requires Enabled(cfg, s, step) && !(OfWorker(step) && step.kind == kind)
    ensures Next(cfg, s, step).At(kind).popped == s.At(kind).popped
  {
  }

  lemma {:induction false} StepAccounts(cfg: Config, s: State, step: Step, kind: Kind)
    requires FifoOk(s.At(kind), cfg.Capacity(kind)) && AllAccounted(s, kind)
    ensures AllAccounted(Next(cfg, s, step), kind)
  {
    hide LaneNext, Accounted;
    if Enabled(cfg, s, step) {
      forall job: nat | job < Next(cfg, s, step).At(kind).popped
        ensures Accounted(Next(cfg, s, step), kind, job)
      {
        if OfWorker(step) && step.kind == kind {
          WorkerStepAccounts(cfg, s, step, job);
        } else {
          OnlyPopsCount(cfg, s, step, kind);
          OtherStepAccounts(cfg, s, step, kind, job);
        }
      }
    }
  }

  lemma {:induction false} RunAccounts(cfg: Config, s: State, steps: seq<Step>, kind: Kind)
    requires Inv(cfg, s) && AllAccounted(s, kind)
    ensures AllAccounted(Execute(cfg, s, steps), kind)
    decreases |steps|
  {
    if steps != [] {
      assert FifoOk(s.At(kind), cfg.Capacity(kind)) by {
        if kind.Io? { assert KindOk(cfg, s, Io); } else { assert KindOk(cfg, s, Cpu); }
      }
      StepAccounts(cfg, s, steps[0], kind);
      StepKeeps(cfg, s, steps[0]);
      RunAccounts(cfg, Next(cfg, s, steps[0]), steps[1..], kind);
    }
  }

  /** In every run, a job that left its queue is with a worker, or its completion was sent, or it was cancelled. */
  lemma {:induction false} PoppedJobsAreAccounted(
      cfg: Config, ioWorkers: nat, cpuWorkers: nat, steps: seq<Step>, kind: Kind, job: nat)
    requires PoolSize(ioWorkers, cpuWorkers)
    requires job < Execute(cfg, Initial(ioWorkers, cpuWorkers), steps).At(kind).popped
    ensures Accounted(Execute(cfg, Initial(ioWorkers, cpuWorkers), steps), kind, job)
  {
    Reached(cfg, ioWorkers, cpuWorkers, []);
    assert Execute(cfg, Initial(ioWorkers, cpuWorkers), []) == Initial(ioWorkers, cpuWorkers);
    RunAccounts(cfg, Initial(ioWorkers, cpuWorkers), steps, kind);
  }

  ghost predicate NobodyHolds(workers: seq<Worker>) {
    forall w :: 0 <= w < |workers| ==> !workers[w].HasJob()
  }

  /**
   * Once no worker has a job of a queue, and none of its jobs was cancelled, exactly the jobs that left it have a
   * completion that was run or waits to be run, each of them one.
   */
  lemma {:induction false} EveryJobCompletes(
      cfg: Config, ioWorkers: nat, cpuWorkers: nat, steps: seq<Step>, kind: Kind, job: nat)
    requires PoolSize(ioWorkers, cpuWorkers)
    requires var s := Execute(cfg, Initial(ioWorkers, cpuWorkers), steps);
      NobodyHolds(s.At(kind).workers) && !s.Cancelled(kind, job)
    ensures var s := Execute(cfg, Initial(ioWorkers, cpuWorkers), steps);
      multiset(s.ran + s.completions)[Done(kind, job)] == if job < s.At(kind).popped then 1 else 0
  {
    var s := Execute(cfg, Initial(ioWorkers, cpuWorkers), steps);
    Reached(cfg, ioWorkers, cpuWorkers, steps);
    assert SentOk(s.At(kind), kind, s.sent) by {
      if kind.Io? { assert KindOk(cfg, s, Io); } else { assert KindOk(cfg, s, Cpu); }
    }
    OnceIff(s.sent, Done(kind, job));
    if job < s.At(kind).popped {
      PoppedJobsAreAccounted(cfg, ioWorkers, cpuWorkers, steps, kind, job);
    }
  }

  lemma {:induction false} OnceIff(sent: seq<Done>, done: Done)
    requires NoDuplicates(sent)
    ensures multiset(sent)[done] == if done in sent then 1 else 0
  {
    if sent != [] {
      var init, last := sent[..|sent| - 1], sent[|sent| - 1];
      assert sent == init + [last];
      OnceIff(init, done);
    }
  }

  /** The depth counter is right exactly when as many pops as pushes are still to be counted. */
  lemma {:induction false} DepthIsExactIff(
      cfg: Config, ioWorkers: nat, cpuWorkers: nat, steps: seq<Step>, kind: Kind)
    requires PoolSize(ioWorkers, cpuWorkers) && cfg.Capacity(kind) < U64_LIMIT
    requires Execute(cfg, Initial(ioWorkers, cpuWorkers), steps).At(kind).uncounted < U64_LIMIT
    ensures var lane := Execute(cfg, Initial(ioWorkers, cpuWorkers), steps).At(kind);
      && (lane.depth == |lane.entries| <==> lane.uncounted == Count(lane.workers, Uncounted))
      && lane.active == Count(lane.workers, Active)
  {
    Reached(cfg, ioWorkers, cpuWorkers, steps);
    var lane := Execute(cfg, Initial(ioWorkers, cpuWorkers), steps).At(kind);
    assert LaneOk(lane, cfg.Capacity(kind)) by {
      if kind.Io? {
        assert KindOk(cfg, Execute(cfg, Initial(ioWorkers, cpuWorkers), steps), Io);
      } else {
        assert KindOk(cfg, Execute(cfg, Initial(ioWorkers, cpuWorkers), steps), Cpu);
      }
    }
    LaneDepth(lane, cfg.Capacity(kind));
  }

  lemma {:induction false} LaneDepth(lane: Lane, capacity: nat)
    requires FifoOk(lane, capacity) && DepthOk(lane) && ActiveOk(lane)
    requires capacity < U64_LIMIT && lane.uncounted < U64_LIMIT
    ensures lane.depth == |lane.entries| <==> lane.uncounted == Count(lane.workers, Uncounted)
  {
    CountBounds(lane.workers, Uncounted);
    WrapsBack(|lane.entries|, Count(lane.workers, Uncounted), lane.uncounted);
  }

  lemma {:induction false} WrapsBack(n: U64, added: U64, removed: U64)
    ensures Wrapped(n + added - removed) == n <==> added == removed
  {
    if n + added < removed {
      assert Wrapped(n + added - removed) == n + added - removed + U64_LIMIT;
    } else if n + added - removed < U64_LIMIT {
      assert Wrapped(n + added - removed) == n + added - removed;
    } else {
      assert Wrapped(n + added - removed) == n + added - removed - U64_LIMIT;
    }
  }

  /** A worker may count its pop before the submitter counts the push: the depth then wraps below zero. */
  lemma {:induction false} DepthCanWrap(cfg: Config)
    requires cfg.ioCapacity > 0
    ensures var lane := Execute(cfg, Initial(1, 1), [Submit(Io, 0), Pop(Io, 0), CountPop(Io, 0)]).io;
      lane.entries == [] && lane.depth == U64_LIMIT - 1
  {
    var s0 := Initial(1, 1);
    var s1 := Next(cfg, s0, Submit(Io, 0));
    var s2 := Next(cfg, s1, Pop(Io, 0));
    var s3 := Next(cfg, s2, CountPop(Io, 0));
    var steps := [Submit(Io, 0), Pop(Io, 0), CountPop(Io, 0)];
    assert s3.io.depth == WrapSub(0, 1);
    assert steps[1..] == [Pop(Io, 0), CountPop(Io, 0)];
    assert steps[1..][1..] == [CountPop(Io, 0)];
    assert [CountPop(Io, 0)][1..] == [];
    assert Execute(cfg, s2, [CountPop(Io, 0)]) == s3;
    assert Execute(cfg, s1, [Pop(Io, 0), CountPop(Io, 0)]) == s3;
  }

  // ----- Shutting a queue down -----

  /** Nobody left, and no queue was closed. */
  ghost predicate Staffed(s: State) {
    && !s.io.closed && !s.cpu.closed
    && (forall w :: 0 <= w < |s.io.workers| ==> !s.io.workers[w].Gone?)
    && (forall w :: 0 <= w < |s.cpu.workers| ==> !s.cpu.workers[w].Gone?)
  }

  lemma {:induction false} StepKeepsStaff(cfg: Config, s: State, step: Step)
    requires Staffed(s) && (s.io.workers != [] || s.cpu.workers != [])
    ensures var next := Next(cfg, s, step);
      Staffed(next) && |next.io.workers| == |s.io.workers| && |next.cpu.workers| == |s.cpu.workers|
  {
    if Enabled(cfg, s, step) {
      assert !step.Shutdown? by {
        if s.io.workers != [] {
          assert !s.io.workers[0].Gone?;
        } else {
          assert !s.cpu.workers[0].Gone?;
        }
      }
      if !step.Cancel? && !step.Pump? {
        LaneStaysOpen(cfg, s, step);
      }
    }
  }

  lemma {:induction false} LaneStaysOpen(cfg: Config, s: State, step: Step)
    requires Enabled(cfg, s, step) && !step.Cancel? && !step.Pump? && !step.Shutdown? && !s.At(step.kind).closed
    ensures var lane, next := s.At(step.kind), LaneNext(cfg, s, step);
      && !next.closed && |next.workers| == |lane.workers|
      && forall w :: 0 <= w < |next.workers| && next.workers[w].Gone? ==> lane.workers[w].Gone?
  {
  }

  lemma {:induction false} RunKeepsStaff(cfg: Config, s: State, steps: seq<Step>)
    requires Staffed(s) && (s.io.workers != [] || s.cpu.workers != [])
    ensures var last := Execute(cfg, s, steps);
      Staffed(last) && |last.io.workers| == |s.io.workers| && |last.cpu.workers| == |s.cpu.workers|
    decreases |steps|
  {
    if steps != [] {
      StepKeepsStaff(cfg, s, steps[0]);
      RunKeepsStaff(cfg, Next(cfg, s, steps[0]), steps[1..]);
    }
  }

  /**
   * A pool with a worker is never dropped: no run closes a queue, no worker ever leaves, and so the joins of the
   * drop are never reached. Its threads and its queues stay behind when the last user lets go of the pool.
   */
  lemma {:induction false} WorkersKeepThePoolAlive(
      cfg: Config, ioWorkers: nat, cpuWorkers: nat, steps: seq<Step>, kind: Kind)
    requires ioWorkers + cpuWorkers > 0
    ensures var s := Execute(cfg, Initial(ioWorkers, cpuWorkers), steps);
      && !s.At(kind).closed && !Enabled(cfg, s, Shutdown(kind))
      && forall w :: 0 <= w < |s.At(kind).workers| ==> !s.At(kind).workers[w].Gone?
  {
    var s := Execute(cfg, Initial(ioWorkers, cpuWorkers), steps);
    RunKeepsStaff(cfg, Initial(ioWorkers, cpuWorkers), steps);
    if ioWorkers > 0 {
      assert !s.io.workers[0].Gone?;
    } else {
      assert !s.cpu.workers[0].Gone?;
    }
  }

  /** The drop is possible, at once or ever, exactly for a pool without workers: one in inline mode. */
  lemma {:induction false} DropPossibleIff(cfg: Config, ioWorkers: nat, cpuWorkers: nat, kind: Kind)
    ensures ioWorkers + cpuWorkers == 0
       <==> exists steps :: Enabled(cfg, Execute(cfg, Initial(ioWorkers, cpuWorkers), steps), Shutdown(kind))
  {
    if ioWorkers + cpuWorkers == 0 {
      assert Execute(cfg, Initial(0, 0), []) == Initial(0, 0);
      assert Enabled(cfg, Execute(cfg, Initial(0, 0), []), Shutdown(kind));
    } else {
      forall steps
        ensures !Enabled(cfg, Execute(cfg, Initial(ioWorkers, cpuWorkers), steps), Shutdown(kind))
      {
        WorkersKeepThePoolAlive(cfg, ioWorkers, cpuWorkers, steps, kind);
      }
    }
  }

  function Ranks(workers: seq<Worker>): nat {
    if workers == [] then 0 else workers[0].Rank() + Ranks(workers[1..])
  }

  lemma {:induction false} RanksReplaced(workers: seq<Worker>, w: nat, to: Worker)
    requires w < |workers|
    ensures Ranks(workers[w := to]) + workers[w].Rank() == Ranks(workers) + to.Rank()
  {
    if w == 0 {
      assert workers[w := to][1..] == workers[1..];
    } else {
      RanksReplaced(workers[1..], w - 1, to);
      assert workers[w := to][1..] == workers[1..][w - 1 := to];
    }
  }

  lemma {:induction false} RanksBounds(workers: seq<Worker>)
    ensures Ranks(workers) <= 7 * |workers|
    ensures Ranks(workers) == 0 <==> forall w :: 0 <= w < |workers| ==> workers[w].Gone?
  {
    if workers != [] {
      RanksBounds(workers[1..]);
      if Ranks(workers) == 0 {
        forall w | 0 <= w < |workers|
          ensures workers[w].Gone?
        {
          assert w > 0 ==> workers[w] == workers[1..][w - 1];
        }
      } else if workers[0].Gone? {
        var w :| 0 <= w < |workers[1..]| && !workers[1..][w].Gone?;
        assert !workers[w + 1].Gone?;
      }
    }
  }

  /** Steps the workers of one queue take in a run. */
  ghost function WorkerSteps(cfg: Config, s: State, steps: seq<Step>, kind: Kind): nat
    decreases |steps|
  {
    if steps == [] then 0 else
    (if Enabled(cfg, s, steps[0]) && OfWorker(steps[0]) && steps[0].kind == kind then 1 else 0)
      + WorkerSteps(cfg, Next(cfg, s, steps[0]), steps[1..], kind)
  }

  lemma {:induction false} ClosedStep(cfg: Config, s: State, step: Step)
    requires Enabled(cfg, s, step) && !step.Cancel? && !step.Pump?
    requires s.At(step.kind).closed && ClosedOk(s.At(step.kind))
    ensures var lane, next := s.At(step.kind), LaneNext(cfg, s, step);
      && next.closed && next.entries == lane.entries && next.popped == lane.popped
      && Ranks(next.workers) + (if OfWorker(step) then 1 else 0) <= Ranks(lane.workers)
  {
    var lane, next := s.At(step.kind), LaneNext(cfg, s, step);
    if OfWorker(step) {
      RanksReplaced(lane.workers, step.worker, next.workers[step.worker]);
    } else if step.Shutdown? {
      assert next.workers == lane.workers;
    }
  }

  /**
   * Were a queue closed while it has workers, each of them would take at most seven more steps, whatever the
   * rest of the pool does, and no job still queued would be taken any more.
   */
  lemma {:induction false} WorkersLeave(cfg: Config, s: State, steps: seq<Step>, kind: Kind)
    requires s.At(kind).closed && ClosedOk(s.At(kind))
    ensures var lane, last := s.At(kind), Execute(cfg, s, steps).At(kind);
      && last.closed && ClosedOk(last) && last.entries == lane.entries && last.popped == lane.popped
      && WorkerSteps(cfg, s, steps, kind) + Ranks(last.workers) <= Ranks(lane.workers) <= 7 * |lane.workers|
    decreases |steps|
  {
    RanksBounds(s.At(kind).workers);
    if steps != [] {
      var step, next := steps[0], Next(cfg, s, steps[0]);
      if Enabled(cfg, s, step) && !step.Cancel? && !step.Pump? && step.kind == kind {
        ClosedStep(cfg, s, step);
        ClosedKept(cfg, s, step);
      }
      WorkersLeave(cfg, next, steps[1..], kind);
    }
  }

  /** A job queued on a closed queue never has a completion. */
  lemma {:induction false} QueuedJobsAreDropped(cfg: Config, s: State, steps: seq<Step>, kind: Kind, job: nat)
    requires Inv(cfg, s) && s.At(kind).closed && job in s.At(kind).entries
    ensures Done(kind, job) !in Execute(cfg, s, steps).sent
  {
    assert KindOk(cfg, s, kind);
    WorkersLeave(cfg, s, steps, kind);
    RunKeeps(cfg, s, steps);
    assert KindOk(cfg, Execute(cfg, s, steps), kind);
  }

  /** What a worker does next. */
  function StepOf(kind: Kind, w: nat, worker: Worker): Step
    requires !worker.Gone?
  {
    match worker
    case AtPop => Pop(kind, w)
    case Asleep => Wake(kind, w)
    case Taken(_) => CountPop(kind, w)
    case Holding(_) => Check(kind, w)
    case Starting(_) => Activate(kind, w)
    case Running(_) => Run(kind, w)
    case Computed(_) => Finish(kind, w)
    case Ending => Deactivate(kind, w)
  }

  lemma {:induction false} WorkerCanStep(cfg: Config, s: State, kind: Kind, w: nat)
    requires w < |s.At(kind).workers| && !s.At(kind).workers[w].Gone?
    ensures Enabled(cfg, s, StepOf(kind, w, s.At(kind).workers[w]))
  {
  }

  /**
   * So the workers of a closed queue could be joined: one that has not left can take a step, and once they took
   * as many as they had left, all are gone.
   */
  lemma {:induction false} ClosedWorkersCanLeave(cfg: Config, s: State, steps: seq<Step>, kind: Kind)
    requires s.At(kind).closed && ClosedOk(s.At(kind))
    ensures var last := Execute(cfg, s, steps); var workers := last.At(kind).workers;
      && (forall w: nat :: w < |workers| && !workers[w].Gone? ==> Enabled(cfg, last, StepOf(kind, w, workers[w])))
      && (WorkerSteps(cfg, s, steps, kind) >= Ranks(s.At(kind).workers) ==>
            forall w :: 0 <= w < |workers| ==> workers[w].Gone?)
  {
    var last := Execute(cfg, s, steps);
    forall w: nat | w < |last.At(kind).workers| && !last.At(kind).workers[w].Gone?
      ensures Enabled(cfg, last, StepOf(kind, w, last.At(kind).workers[w]))
    {
      WorkerCanStep(cfg, last, kind, w);
    }
    WorkersLeave(cfg, s, steps, kind);
    RanksBounds(last.At(kind).workers);
  }

  // ----- The completion channel -----

  class Completions<T> {
    var waiting: seq<T>
    var ran: seq<T>

    constructor ()
      ensures waiting == [] && ran == []
    {
      waiting, ran := [], [];
    }

    /**
     * Runs what waits, in order, until it finds nothing; `arrivals` are the completions that workers send
     * before each look, of which it uses up a part.
     */
    method PumpCompletions(arrivals: seq<seq<T>>) returns (count: nat, used: nat)
      modifies this
      ensures used <= |arrivals| && waiting == []
      ensures ran == old(ran) + (old(waiting) + Concat(arrivals[..used]))
      ensures count == |old(waiting)| + |Concat(arrivals[..used])|
    {
      count, used := 0, 0;
      ghost var all := waiting;
      assert arrivals[..0] == [];
      Grown(waiting);
      while true
        invariant used <= |arrivals| && all == old(waiting) + Concat(arrivals[..used])
        invariant ran + waiting == old(ran) + all && count + |waiting| == |all|
        decreases |arrivals| - used, |waiting|
      {
        if used < |arrivals| {
          OneMoreBatch(old(waiting), arrivals, used);
          Appended(ran, waiting, arrivals[used]);
          Appended(old(ran), all, arrivals[used]);
          all := all + arrivals[used];
          waiting := waiting + arrivals[used];
          used := used + 1;
        }
        if waiting == [] {
          Grown(ran);
          return;
        }
        HeadAndRest(waiting);
        Appended(ran, [waiting[0]], waiting[1..]);
        ran := ran + [waiting[0]];
        waiting := waiting[1..];
        count := count + 1;
      }
    }
  }

  lemma {:induction false} OneMoreBatch<T>(start: seq<T>, batches: seq<seq<T>>, k: nat)
    requires k < |batches|
    ensures start + Concat(batches[..k + 1]) == start + Concat(batches[..k]) + batches[k]
  {
    assert batches[..k + 1] == batches[..k] + [batches[k]];
    ConcatAppend(batches[..k], batches[k]);
    Appended(start, Concat(batches[..k]), batches[k]);
  }

  /** Pumping is a run of single steps of the pool: it runs all that waits, in order. */
  lemma {:induction false} PumpIsRun(cfg: Config, s: State)
    ensures Execute(cfg, s, seq(|s.completions|, _ => Pump)) == s.(completions := [], ran := s.ran + s.completions)
    decreases |s.completions|
  {
    var steps := seq(|s.completions|, _ => Pump);
    if s.completions == [] {
      Grown(s.ran);
      assert steps == [];
    } else {
      var next := Next(cfg, s, Pump);
      HeadAndRest(s.completions);
      Appended(s.ran, [s.completions[0]], s.completions[1..]);
      assert steps[1..] == seq(|next.completions|, _ => Pump);
      PumpIsRun(cfg, next);
    }
  }
}
