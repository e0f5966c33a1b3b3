/** The GPU upload queue: three classes of jobs, drained under a budget of jobs and bytes per frame. */
module UploadQueue {
  import opened Results
  import opened Sequences
  import opened Words

  datatype Priority = High | Normal | Low

  /** `slot` is the identity of the job's result slot. */
  datatype Job = Job(slot: nat, priority: Priority, bytes: U64)

  datatype Limits = Limits(jobsPerFrame: nat, bytesPerFrame: U64)

  /** The pending jobs of each class, oldest first. */
  datatype Queues = Queues(high: seq<Job>, normal: seq<Job>, low: seq<Job>)
  {
    /** The order in which jobs are popped. */
    function Order(): seq<Job> { high + normal + low }

    function Of(priority: Priority): seq<Job> {
      match priority case High => high case Normal => normal case Low => low
    }

    ghost predicate WellPlaced() {
      && (forall j :: j in high ==> j.priority.High?)
      && (forall j :: j in normal ==> j.priority.Normal?)
      && (forall j :: j in low ==> j.priority.Low?)
    }

    function Push(job: Job): Queues {
      match job.priority
      case High => this.(high := high + [job])
      case Normal => this.(normal := normal + [job])
      case Low => this.(low := low + [job])
    }

    /** The front job of the most urgent class that has one. */
    function First(): Job
      requires Order() != []
    {
      if high != [] then high[0] else if normal != [] then normal[0] else low[0]
    }

    function Rest(): Queues
      requires Order() != []
    {
      if high != [] then this.(high := high[1..])
      else if normal != [] then this.(normal := normal[1..])
      else this.(low := low[1..])
    }
  }

  lemma {:induction false} FirstOfOrder(q: Queues)
    requires q.Order() != []
    ensures q.Order() == [q.First()] + q.Rest().Order()
  {
    var first, rest := q.First(), q.Rest();
    if q.high != [] {
      assert q.high == [first] + rest.high;
    } else if q.normal != [] {
      assert q.normal == [first] + rest.normal;
    } else {
      assert q.low == [first] + rest.low;
    }
  }

  /** Whether the budget of this drain turns a job away. */
  predicate Refuses(limits: Limits, jobs: nat, bytes: U64, job: Job) {
    || limits.jobsPerFrame == 0
    || jobs >= limits.jobsPerFrame
    || limits.bytesPerFrame == 0
    || (jobs > 0 && SatAdd(bytes, job.bytes) > limits.bytesPerFrame)
  }

  /** How many jobs in a row fit the budget, after `jobs` jobs and `bytes` bytes. */
  function Fitting(order: seq<Job>, limits: Limits, jobs: nat, bytes: U64): (n: nat)
    ensures n <= |order|
  {
    if order == [] || Refuses(limits, jobs, bytes, order[0]) then 0
    else 1 + Fitting(order[1..], limits, jobs + 1, SatAdd(bytes, order[0].bytes))
  }

  function Bytes(jobs: seq<Job>): nat {
    if jobs == [] then 0 else jobs[0].bytes + Bytes(jobs[1..])
  }

  /** The jobs a drain uploads. */
  function Drained(q: Queues, limits: Limits, jobs: nat, bytes: U64): seq<Job>
    decreases |q.Order()|
  {
    if q.Order() == [] || Refuses(limits, jobs, bytes, q.First()) then [] else
    assert |q.Rest().Order()| < |q.Order()| by { FirstOfOrder(q); }
    [q.First()] + Drained(q.Rest(), limits, jobs + 1, SatAdd(bytes, q.First().bytes))
  }

  /** What it leaves: a job it turns away waits behind the other jobs of its class. */
  function Left(q: Queues, limits: Limits, jobs: nat, bytes: U64): Queues
    decreases |q.Order()|
  {
    if q.Order() == [] then q
    else if Refuses(limits, jobs, bytes, q.First()) then q.Rest().Push(q.First())
    else
      assert |q.Rest().Order()| < |q.Order()| by { FirstOfOrder(q); }
      Left(q.Rest(), limits, jobs + 1, SatAdd(bytes, q.First().bytes))
  }

  /** All jobs are either uploaded or waiting. */
  ghost predicate Balanced(all: seq<Job>, drained: seq<Job>, q: Queues) {
    multiset(all) == multiset(drained) + multiset(q.Order())
  }

  /** One look of a drain at the queue: the job it gets. */
  function Looked(q: Queues, limits: Limits, jobs: nat, bytes: U64): Option<Job> {
    if q.Order() == [] || Refuses(limits, jobs, bytes, q.First()) then None else Some(q.First())
  }

  /** The queue after that look. */
  function AfterLook(q: Queues, limits: Limits, jobs: nat, bytes: U64): Queues {
    if q.Order() == [] then q
    else if Refuses(limits, jobs, bytes, q.First()) then q.Rest().Push(q.First())
    else q.Rest()
  }

  /** A drain is its first look and the drain after it. */
  lemma {:induction false} LookStep(q: Queues, limits: Limits, jobs: nat, bytes: U64, job: Option<Job>, rest: Queues)
    requires job == Looked(q, limits, jobs, bytes) && rest == AfterLook(q, limits, jobs, bytes)
    ensures job.None? ==> Drained(q, limits, jobs, bytes) == [] && Left(q, limits, jobs, bytes) == rest
    ensures job.Some? ==>
      && Drained(q, limits, jobs, bytes)
           == [job.value] + Drained(rest, limits, jobs + 1, SatAdd(bytes, job.value.bytes))
      && Left(q, limits, jobs, bytes) == Left(rest, limits, jobs + 1, SatAdd(bytes, job.value.bytes))
      && |rest.Order()| < |q.Order()|
  {
    if q.Order() != [] {
      FirstOfOrder(q);
    }
  }

  /** What other threads do between two looks of a drain at the queue. */
  datatype Event = Event(jobs: seq<Job>, limits: Option<Limits>)

  function PushAll(q: Queues, jobs: seq<Job>): Queues {
    if jobs == [] then q else PushAll(q, jobs[..|jobs| - 1]).Push(jobs[|jobs| - 1])
  }

  /** The queue and the limits a drain finds at its next look: the next event, if there is one, comes before it. */
  function QueueThen(q: Queues, events: seq<Event>, used: nat): Queues {
    if used < |events| then PushAll(q, events[used].jobs) else q
  }

  function LimitsThen(limits: Limits, events: seq<Event>, used: nat): Limits {
    if used < |events| && events[used].limits.Some? then events[used].limits.value else limits
  }

  function UsedThen(events: seq<Event>, used: nat): nat {
    if used < |events| then used + 1 else used
  }

  /** What a drain amid events does: what it uploads, what it leaves, the last limits, the events it saw. */
  datatype Course = Course(drained: seq<Job>, left: Queues, limits: Limits, used: nat)
  {
    function After(job: Job): Course {
      this.(drained := [job] + drained)
    }
  }

  function DrainCourse(q: Queues, limits: Limits, events: seq<Event>, used: nat, jobs: nat, bytes: U64): Course
    requires used <= |events|
    decreases |events| - used, |q.Order()|
  {
    var now, bound, k := QueueThen(q, events, used), LimitsThen(limits, events, used), UsedThen(events, used);
    var job, rest := Looked(now, bound, jobs, bytes), AfterLook(now, bound, jobs, bytes);
    if job.None? then Course([], rest, bound, k)
    else
      assert |rest.Order()| < |now.Order()| by { FirstOfOrder(now); }
      DrainCourse(rest, bound, events, k, jobs + 1, SatAdd(bytes, job.value.bytes)).After(job.value)
  }

  /** Once nobody interferes any more, the course is that of a drain by itself. */
  lemma {:induction false} QuietCourse(q: Queues, limits: Limits, events: seq<Event>, jobs: nat, bytes: U64)
    ensures DrainCourse(q, limits, events, |events|, jobs, bytes)
         == Course(Drained(q, limits, jobs, bytes), Left(q, limits, jobs, bytes), limits, |events|)
    decreases |q.Order()|
  {
    var job, rest := Looked(q, limits, jobs, bytes), AfterLook(q, limits, jobs, bytes);
    LookStep(q, limits, jobs, bytes, job, rest);
    if job.Some? {
      QuietCourse(rest, limits, events, jobs + 1, SatAdd(bytes, job.value.bytes));
    }
  }

  /** A course ends at its look at `last`: empty, or its first job refused and put behind its class. */
  predicate StopsAt(last: Queues, course: Course, jobs: nat, bytes: U64) {
    var total := Saturated(bytes + Bytes(course.drained));
    && Looked(last, course.limits, jobs + |course.drained|, total).None?
    && course.left == AfterLook(last, course.limits, jobs + |course.drained|, total)
  }

  /**
   * Amid whatever events, a drain stops only when it finds the queue empty or its first job refused, with the
   * limits of then and all it uploaded counted; a refused job goes to the back of its class.
   */
  lemma {:induction false} CourseStops(
      q: Queues, limits: Limits, events: seq<Event>, used: nat, jobs: nat, bytes: U64) returns (last: Queues)
    requires used <= |events|
    ensures StopsAt(last, DrainCourse(q, limits, events, used, jobs, bytes), jobs, bytes)
    decreases |events| - used, |q.Order()|
  {
    var now, bound, k := QueueThen(q, events, used), LimitsThen(limits, events, used), UsedThen(events, used);
    var job, rest := Looked(now, bound, jobs, bytes), AfterLook(now, bound, jobs, bytes);
    CourseStep(q, limits, events, used, jobs, bytes, []);
    if job.None? {
      last := now;
    } else {
      LookShortens(now, bound, jobs, bytes);
      hide Looked, AfterLook, LimitsThen, DrainCourse, StopsAt;
      var next := SatAdd(bytes, job.value.bytes);
      last := CourseStops(rest, bound, events, k, jobs + 1, next);
      StopsOneLater(last, DrainCourse(rest, bound, events, k, jobs + 1, next), job.value, jobs, bytes);
    }
  }

  lemma {:induction false} StopsOneLater(last: Queues, later: Course, job: Job, jobs: nat, bytes: U64)
    requires StopsAt(last, later, jobs + 1, SatAdd(bytes, job.bytes))
    ensures StopsAt(last, later.After(job), jobs, bytes)
  {
    hide Looked, AfterLook;
    TotalStep(bytes, job, later.drained);
  }

  lemma {:induction false} LookShortens(q: Queues, limits: Limits, jobs: nat, bytes: U64)
    requires Looked(q, limits, jobs, bytes).Some?
    ensures |AfterLook(q, limits, jobs, bytes).Order()| < |q.Order()|
  {
    FirstOfOrder(q);
  }

  /** Counting a job and then the later ones is counting all of them. */
  lemma {:induction false} TotalStep(bytes: U64, job: Job, later: seq<Job>)
    ensures Saturated(SatAdd(bytes, job.bytes) + Bytes(later)) == Saturated(bytes + Bytes([job] + later))
    ensures |[job] + later| == 1 + |later|
  {
    assert ([job] + later)[1..] == later;
  }

  /** A turn of the loop and the course after it. */
  lemma {:induction false} CourseStep(q: Queues, limits: Limits, events: seq<Event>, used: nat, jobs: nat, bytes: U64,
      drained: seq<Job>)
    requires used <= |events|
    ensures var now, bound, k := QueueThen(q, events, used), LimitsThen(limits, events, used), UsedThen(events, used);
      var job, rest := Looked(now, bound, jobs, bytes), AfterLook(now, bound, jobs, bytes);
      var course := DrainCourse(q, limits, events, used, jobs, bytes);
      if job.None? then course == Course([], rest, bound, k) else
      var later := DrainCourse(rest, bound, events, k, jobs + 1, SatAdd(bytes, job.value.bytes));
      && course == later.After(job.value)
      && drained + course.drained == (drained + [job.value]) + later.drained
  {
    var now, bound, k := QueueThen(q, events, used), LimitsThen(limits, events, used), UsedThen(events, used);
    var job, rest := Looked(now, bound, jobs, bytes), AfterLook(now, bound, jobs, bytes);
    if job.Some? {
      Appended(drained, [job.value],
        DrainCourse(rest, bound, events, k, jobs + 1, SatAdd(bytes, job.value.bytes)).drained);
    }
  }

  /** The jobs at first and those of the first `used` events. */
  function AllJobs(first: seq<Job>, events: seq<Event>, used: nat): seq<Job>
    requires used <= |events|
  {
    if used == 0 then first else AllJobs(first, events, used - 1) + events[used - 1].jobs
  }

  /** The largest job limit in force so far. */
  function MostJobs(first: Limits, events: seq<Event>, used: nat): nat
    requires used <= |events|
  {
    if used == 0 then first.jobsPerFrame else
    var before, last := MostJobs(first, events, used - 1), events[used - 1].limits;
    if last.Some? && last.value.jobsPerFrame > before then last.value.jobsPerFrame else before
  }

  class UploadQueue {
    var pending: Queues
    var queuedBytes: U64
    var limits: Limits
    var lastDrainJobs: nat
    var lastDrainBytes: U64

    constructor ()
      ensures pending == Queues([], [], []) && queuedBytes == 0 && Exact()
      ensures limits == Limits(8, 8 * 1024 * 1024)
      ensures lastDrainJobs == 0 && lastDrainBytes == 0
    {
      pending, queuedBytes, limits := Queues([], [], []), 0, Limits(8, 8 * 1024 * 1024);
      lastDrainJobs, lastDrainBytes := 0, 0;
    }

    /** The byte counter is the bytes of the pending jobs. */
    ghost predicate Exact()
      reads this
    {
      queuedBytes == Bytes(pending.Order())
    }

    method SetLimits(limits: Limits)
      modifies this`limits
      ensures this.limits == limits
    {
      this.limits := limits;
    }

    /** The counter stays exact exactly when the new total still fits it. */
    method EnqueueImage(job: Job)
      modifies this`pending, this`queuedBytes
      ensures pending == old(pending).Push(job)
      ensures queuedBytes == SatAdd(old(queuedBytes), job.bytes)
      ensures old(Exact()) ==> (Exact() <==> Bytes(pending.Order()) < U64_LIMIT)
    {
      PushedBytes(pending, job);
      pending := pending.Push(job);
      queuedBytes := SatAdd(queuedBytes, job.bytes);
    }

    /** Pops jobs in order and uploads them until the budget turns one away. */
    method Drain() returns (drained: seq<Job>)
      modifies this`pending, this`queuedBytes, this`lastDrainJobs, this`lastDrainBytes
      ensures drained == Drained(old(pending), limits, 0, 0)
      ensures pending == Left(old(pending), limits, 0, 0)
      ensures old(Exact()) ==> Exact()
      ensures lastDrainJobs == |drained| && lastDrainBytes == Saturated(Bytes(drained))
    {
      ghost var exact := Exact();
      ghost var all, left := Drained(pending, limits, 0, 0), Left(pending, limits, 0, 0);
      drained := [];
      var drainedBytes: U64 := 0;
      Grown(all);
      while true
        invariant exact ==> Exact()
        invariant drainedBytes == Saturated(Bytes(drained))
        invariant all == drained + Drained(pending, limits, |drained|, drainedBytes)
        invariant left == Left(pending, limits, |drained|, drainedBytes)
        decreases |pending.Order()|
      {
        ghost var before := pending;
        var job, next := NextWithin(|drained|, drainedBytes);
        LookStep(before, limits, |drained|, drainedBytes, job, pending);
        if job.None? {
          Grown(drained);
          Record(|drained|, drainedBytes);
          return;
        }
        TakenBytes(drained, job.value);
        Appended(drained, [job.value], Drained(pending, limits, |drained| + 1, next));
        drained := drained + [job.value];
        drainedBytes := next;
      }
    }

    method Record(jobs: nat, bytes: U64)
      modifies this`lastDrainJobs, this`lastDrainBytes
      ensures lastDrainJobs == jobs && lastDrainBytes == bytes
    {
      lastDrainJobs, lastDrainBytes := jobs, bytes;
    }

    /** The part of the loop under the lock: the next job and the bytes with it, or none when it is turned away. */
    method NextWithin(jobs: nat, bytes: U64) returns (job: Option<Job>, next: U64)
      modifies this`pending, this`queuedBytes
      ensures old(Exact()) ==> Exact()
      ensures job == Looked(old(pending), limits, jobs, bytes)
      ensures pending == AfterLook(old(pending), limits, jobs, bytes)
      ensures next == if job.Some? then SatAdd(bytes, job.value.bytes) else bytes
    {
      next := bytes;
      job := PopNext();
      if job.None? {
        return;
      }
      if Refuses(limits, jobs, bytes, job.value) {
        PushedBytes(pending, job.value);
        pending := pending.Push(job.value);
        return None, bytes;
      }
      next := SatAdd(bytes, job.value.bytes);
      queuedBytes := SaturatingSub(queuedBytes, job.value.bytes);
    }

    /** The same limits for a number of frames, one drain in each. */
    method RunFrames(limits: Limits, frames: nat) returns (drained: seq<Job>)
      modifies this`pending, this`queuedBytes, this`lastDrainJobs, this`lastDrainBytes, this`limits
      ensures drained == DrainedOver(old(pending), limits, frames)
      ensures pending == LeftAfter(old(pending), limits, frames)
      ensures old(Exact()) ==> Exact()
      ensures limits.jobsPerFrame > 0 && limits.bytesPerFrame > 0 && frames >= |old(pending.Order())| ==>
        pending.Order() == [] && SameJobs(drained, old(pending.Order()))
    {
      SetLimits(limits);
      drained := [];
      ghost var all := DrainedOver(pending, limits, frames);
      Grown(all);
      for k := 0 to frames
        invariant this.limits == limits && (old(Exact()) ==> Exact())
        invariant all == drained + DrainedOver(pending, limits, frames - k)
        invariant LeftAfter(old(pending), limits, frames) == LeftAfter(pending, limits, frames - k)
      {
        ghost var left := Left(pending, limits, 0, 0);
        var more := Drain();
        Appended(drained, more, DrainedOver(left, limits, frames - k - 1));
        drained := drained + more;
      }
      Grown(drained);
      if limits.jobsPerFrame > 0 && limits.bytesPerFrame > 0 && frames >= |old(pending.Order())| {
        RepeatedDrainsEmpty(old(pending), limits, frames);
      }
    }

    /** Other threads enqueue jobs and may change the limits. */
    method Others(event: Event)
      modifies this`pending, this`queuedBytes, this`limits
      ensures limits == if event.limits.Some? then event.limits.value else old(limits)
      ensures pending == PushAll(old(pending), event.jobs)
      ensures SameJobs(old(pending.Order()) + event.jobs, pending.Order())
      ensures old(Exact()) && Bytes(pending.Order()) < U64_LIMIT ==> Exact()
    {
      hide Bytes, SameJobs, PushAll;
      if event.limits.Some? {
        SetLimits(event.limits.value);
      }
      ghost var first, now := pending, limits;
      NothingPushed(first, event.jobs);
      for k := 0 to |event.jobs|
        invariant limits == now && pending == PushAll(first, event.jobs[..k])
        invariant SameJobs(first.Order() + event.jobs[..k], pending.Order())
        invariant old(Exact()) && Bytes(pending.Order()) < U64_LIMIT ==> Exact()
      {
        EnqueueNext(first, event.jobs, k);
      }
      assert event.jobs[..|event.jobs|] == event.jobs;
    }

    /** One more of some jobs is enqueued. */
    method EnqueueNext(ghost first: Queues, jobs: seq<Job>, k: nat)
      requires k < |jobs| && pending == PushAll(first, jobs[..k])
      requires SameJobs(first.Order() + jobs[..k], pending.Order())
      modifies this`pending, this`queuedBytes
      ensures pending == PushAll(first, jobs[..k + 1])
      ensures SameJobs(first.Order() + jobs[..k + 1], pending.Order())
      ensures Bytes(old(pending.Order())) <= Bytes(pending.Order())
      ensures old(Exact()) && Bytes(pending.Order()) < U64_LIMIT ==> Exact()
    {
      hide Bytes, SameJobs;
      assert jobs[..k + 1][..k] == jobs[..k];
      NotFewerBytes(pending, jobs[k]);
      OneMorePushed(first.Order(), jobs, k, pending);
      EnqueueImage(jobs[k]);
    }

    /**
     * A drain during which other threads enqueue jobs and change the limits before each look at the queue, of
     * which it sees the first `used`: it takes the course specified, of `all` jobs nothing is lost or duplicated,
     * no more are uploaded than the largest limit, and the byte counter stays exact as long as the bytes of all
     * these jobs fit it.
     */
    method DrainAmid(events: seq<Event>) returns (drained: seq<Job>, used: nat, ghost all: seq<Job>)
      modifies this`pending, this`queuedBytes, this`limits, this`lastDrainJobs, this`lastDrainBytes
      ensures Course(drained, pending, limits, used) == DrainCourse(old(pending), old(limits), events, 0, 0, 0)
      ensures used <= |events| && all == AllJobs(old(pending.Order()), events, used)
      ensures Balanced(all, drained, pending)
      ensures |drained| <= MostJobs(old(limits), events, used)
      ensures old(Exact()) && Bytes(all) < U64_LIMIT ==> Exact()
      ensures lastDrainJobs == |drained| && lastDrainBytes == Saturated(Bytes(drained))
    {
      drained, used, all := [], 0, pending.Order();
      var drainedBytes: U64, done := 0, false;
      ghost var exact, start, first, most := Exact(), all, limits, limits.jobsPerFrame;
      ghost var course := DrainCourse(pending, limits, events, 0, 0, 0);
      StartAmid(pending, limits, events, course);
      hide Balanced, AllJobs, MostJobs, Bytes, DrainCourse;
      while !done
        invariant Amid(start, first, events, used, all, most, drained, drainedBytes)
        invariant exact && Bytes(all) < U64_LIMIT ==> Exact()
        invariant !done ==>
          OnCourse(course, drained, DrainCourse(pending, limits, events, used, |drained|, drainedBytes))
        invariant done ==> course == Course(drained, pending, limits, used)
        invariant done ==> lastDrainJobs == |drained| && lastDrainBytes == drainedBytes
        decreases !done, |events| - used, |pending.Order()|
      {
        drained, drainedBytes, used, done, all, most :=
          TurnAmid(drained, drainedBytes, events, used, start, first, all, most, course);
      }
    }

    /** What a drain has done so far, with every job of the events it saw accounted for. */
    ghost predicate Amid(start: seq<Job>, first: Limits, events: seq<Event>, used: nat, all: seq<Job>, most: nat,
        drained: seq<Job>, bytes: U64)
      reads this
    {
      && used <= |events| && all == AllJobs(start, events, used)
      && Balanced(all, drained, pending)
      && most == MostJobs(first, events, used) && |drained| <= most && limits.jobsPerFrame <= most
      && bytes == Saturated(Bytes(drained))
    }

    /** One turn of such a drain: others act, then it looks at the queue. */
    method TurnAmid(drained: seq<Job>, bytes: U64, events: seq<Event>, used: nat, ghost start: seq<Job>,
        ghost first: Limits, ghost all: seq<Job>, ghost most: nat, ghost course: Course)
      returns (now: seq<Job>, nowBytes: U64, k: nat, done: bool, ghost more: seq<Job>, ghost bound: nat)
      requires Amid(start, first, events, used, all, most, drained, bytes)
      requires OnCourse(course, drained, DrainCourse(pending, limits, events, used, |drained|, bytes))
      modifies this`pending, this`queuedBytes, this`limits, this`lastDrainJobs, this`lastDrainBytes
      ensures Amid(start, first, events, k, more, bound, now, nowBytes) && Bytes(all) <= Bytes(more)
      ensures old(Exact()) && Bytes(more) < U64_LIMIT ==> Exact()
      ensures done ==> course == Course(now, pending, limits, k)
      ensures done ==> lastDrainJobs == |now| && lastDrainBytes == nowBytes
      ensures !done ==>
        && OnCourse(course, now, DrainCourse(pending, limits, events, k, |now|, nowBytes))
        && (k > used || (k == used && |pending.Order()| < |old(pending.Order())|))
    {
      hide Balanced, AllJobs, MostJobs, Bytes, DrainCourse, OnCourse, Looked, AfterLook, QueueThen, LimitsThen;
      CourseGoesOn(course, drained, pending, limits, events, used, bytes);
      k, more, bound := Admit(events, used, start, first, all, most, drained);
      now, nowBytes, done := TakeNext(drained, bytes, more);
    }

    /** One turn of the loop, or its end, with all jobs accounted for. */
    method TakeNext(drained: seq<Job>, bytes: U64, ghost all: seq<Job>)
      returns (now: seq<Job>, nowBytes: U64, done: bool)
      requires Balanced(all, drained, pending) && bytes == Saturated(Bytes(drained))
      modifies this`pending, this`queuedBytes, this`lastDrainJobs, this`lastDrainBytes
      ensures pending == AfterLook(old(pending), limits, |drained|, bytes)
      ensures done <==> Looked(old(pending), limits, |drained|, bytes).None?
      ensures !done ==>
        var job := Looked(old(pending), limits, |drained|, bytes).value;
        now == drained + [job] && nowBytes == SatAdd(bytes, job.bytes)
      ensures Balanced(all, now, pending) && nowBytes == Saturated(Bytes(now))
      ensures old(Exact()) ==> Exact()
      ensures done ==> now == drained && nowBytes == bytes && lastDrainJobs == |now| && lastDrainBytes == nowBytes
      ensures !done ==>
        |now| == |drained| + 1 <= limits.jobsPerFrame && |pending.Order()| < |old(pending.Order())|
    {
      ghost var before := pending;
      var job, next := NextWithin(|drained|, bytes);
      LookKeeps(before, limits, |drained|, bytes, job, pending, all, drained);
      if job.None? {
        Record(|drained|, bytes);
        return drained, bytes, true;
      }
      TakenBytes(drained, job.value);
      return drained + [job.value], next, false;
    }

    /** The next event, if there is one, and what it adds to the jobs a drain has to account for. */
    method Admit(events: seq<Event>, used: nat, ghost start: seq<Job>, ghost first: Limits,
                 ghost all: seq<Job>, ghost most: nat, ghost drained: seq<Job>)
      returns (now: nat, ghost more: seq<Job>, ghost bound: nat)
      requires used <= |events| && all == AllJobs(start, events, used)
      requires most == MostJobs(first, events, used) && limits.jobsPerFrame <= most
      requires Balanced(all, drained, pending)
      modifies this`pending, this`queuedBytes, this`limits
      ensures now == UsedThen(events, used) && pending == QueueThen(old(pending), events, used)
      ensures limits == LimitsThen(old(limits), events, used) && (now == used ==> pending == old(pending))
      ensures more == AllJobs(start, events, now) && bound == MostJobs(first, events, now)
      ensures most <= bound && limits.jobsPerFrame <= bound
      ensures Balanced(more, drained, pending) && Bytes(all) <= Bytes(more)
      ensures old(Exact()) && Bytes(more) < U64_LIMIT ==> Exact()
    {
      now, more, bound := used, all, most;
      if used < |events| {
        ghost var before, event := pending, events[used];
        Others(events[used]);
        now, more, bound := used + 1, all + event.jobs, MostJobs(first, events, used + 1);
        AddedJobs(all, drained, before, event.jobs, pending);
        WaitingBytes(more, drained, pending);
        BytesSplit(all, event.jobs);
      }
    }

    method PopNext() returns (job: Option<Job>)
      modifies this`pending
      ensures job.None? <==> old(pending.Order()) == []
      ensures job.None? ==> pending == old(pending)
      ensures job.Some? ==> job.value == old(pending).First() && pending == old(pending).Rest()
      ensures job.Some? ==> old(pending.Order()) == [job.value] + pending.Order()
    {
      if pending.Order() == [] {
        return None;
      }
      FirstOfOrder(pending);
      job := Some(pending.First());
      pending := pending.Rest();
    }
  }

  /** A course that has come this far, with what is ahead of it. */
  predicate OnCourse(whole: Course, drained: seq<Job>, ahead: Course) {
    whole == ahead.(drained := drained + ahead.drained)
  }

  /** A turn of the loop on a course: it ends there, or goes on behind the job taken. */
  lemma {:induction false} CourseGoesOn(whole: Course, drained: seq<Job>, q: Queues, limits: Limits,
      events: seq<Event>, used: nat, bytes: U64)
    requires used <= |events| && OnCourse(whole, drained, DrainCourse(q, limits, events, used, |drained|, bytes))
    ensures var now, bound, k := QueueThen(q, events, used), LimitsThen(limits, events, used), UsedThen(events, used);
      var job, rest := Looked(now, bound, |drained|, bytes), AfterLook(now, bound, |drained|, bytes);
      if job.None? then whole == Course(drained, rest, bound, k)
      else OnCourse(whole, drained + [job.value],
        DrainCourse(rest, bound, events, k, |drained| + 1, SatAdd(bytes, job.value.bytes)))
  {
    hide DrainCourse, Looked, AfterLook, QueueThen, LimitsThen;
    CourseStep(q, limits, events, used, |drained|, bytes, drained);
    Grown(drained);
  }

  lemma {:induction false} StartAmid(q: Queues, limits: Limits, events: seq<Event>, course: Course)
    ensures Balanced(q.Order(), [], q) && Bytes([]) == 0 && OnCourse(course, [], course)
    ensures AllJobs(q.Order(), events, 0) == q.Order() && MostJobs(limits, events, 0) == limits.jobsPerFrame
  {
    Grown(course.drained);
  }

  /** The same jobs, each as often. */
  ghost predicate SameJobs(a: seq<Job>, b: seq<Job>) {
    multiset(a) == multiset(b)
  }

  lemma {:induction false} SameJobsSameBytes(a: seq<Job>, b: seq<Job>)
    requires SameJobs(a, b)
    ensures Bytes(a) == Bytes(b)
    decreases |a|
  {
    if a == [] {
      assert |multiset(b)| == 0;
    } else {
      assert a[0] in multiset(b);
      var i :| 0 <= i < |b| && b[i] == a[0];
      WithoutOne(a, b, i);
      SameJobsSameBytes(a[1..], b[..i] + b[i + 1..]);
      assert b == b[..i] + ([b[i]] + b[i + 1..]);
      BytesSplit(b[..i], b[i + 1..]);
      BytesSplit(b[..i], [b[i]] + b[i + 1..]);
      assert ([b[i]] + b[i + 1..])[1..] == b[i + 1..];
    }
  }

  lemma {:induction false} WithoutOne(a: seq<Job>, b: seq<Job>, i: nat)
    requires a != [] && i < |b| && b[i] == a[0] && SameJobs(a, b)
    ensures SameJobs(a[1..], b[..i] + b[i + 1..])
  {
    assert a == [a[0]] + a[1..] && b == b[..i] + [b[i]] + b[i + 1..];
    SameWithoutOne(multiset(a[1..]), multiset(b[..i]) + multiset(b[i + 1..]), multiset{a[0]});
  }

  lemma {:induction false} SameWithoutOne(m: multiset<Job>, n: multiset<Job>, one: multiset<Job>)
    requires one + m == n + one
    ensures m == n
  {
    assert m == (one + m) - one && n == (n + one) - one;
  }

  lemma {:induction false} NothingPushed(q: Queues, jobs: seq<Job>)
    ensures PushAll(q, jobs[..0]) == q && SameJobs(q.Order() + jobs[..0], q.Order())
  {
    Grown(q.Order());
  }

  lemma {:induction false} NotFewerBytes(q: Queues, job: Job)
    ensures Bytes(q.Order()) <= Bytes(q.Push(job).Order())
  {
    PushedBytes(q, job);
  }

  lemma {:induction false} PushedBack(q: Queues, job: Job)
    ensures SameJobs([job] + q.Order(), q.Push(job).Order())
  {
    PushedJobs(q, job);
  }

  lemma {:induction false} OneMoreJob(a: seq<Job>, b: seq<Job>, job: Job, more: seq<Job>, pushed: seq<Job>)
    requires SameJobs(a, b) && more == a + [job] && multiset(pushed) == multiset(b) + multiset{job}
    ensures SameJobs(more, pushed)
  {
  }

  lemma {:induction false} OneMorePushed(start: seq<Job>, jobs: seq<Job>, k: nat, q: Queues)
    requires k < |jobs| && SameJobs(start + jobs[..k], q.Order())
    ensures SameJobs(start + jobs[..k + 1], q.Push(jobs[k]).Order())
  {
    PushedJobs(q, jobs[k]);
    assert jobs[..k + 1] == jobs[..k] + [jobs[k]];
    Appended(start, jobs[..k], [jobs[k]]);
    OneMoreJob(start + jobs[..k], q.Order(), jobs[k], start + jobs[..k + 1], q.Push(jobs[k]).Order());
  }

  lemma {:induction false} AddedJobs(
      all: seq<Job>, drained: seq<Job>, before: Queues, added: seq<Job>, after: Queues)
    requires Balanced(all, drained, before) && SameJobs(before.Order() + added, after.Order())
    ensures Balanced(all + added, drained, after)
  {
  }

  /** A look keeps the balance of all jobs against the uploaded and the waiting ones. */
  lemma {:induction false} LookKeeps(q: Queues, limits: Limits, jobs: nat, bytes: U64,
                                     job: Option<Job>, rest: Queues, all: seq<Job>, drained: seq<Job>)
    requires job == Looked(q, limits, jobs, bytes) && rest == AfterLook(q, limits, jobs, bytes)
    requires Balanced(all, drained, q)
    ensures job.None? ==> Balanced(all, drained, rest)
    ensures job.Some? ==> Balanced(all, drained + [job.value], rest)
    ensures job.Some? ==> |rest.Order()| < |q.Order()| && jobs < limits.jobsPerFrame
  {
    if q.Order() != [] {
      FirstOfOrder(q);
      if Refuses(limits, jobs, bytes, q.First()) {
        PushedBack(q.Rest(), q.First());
      }
    }
  }

  lemma {:induction false} WaitingBytes(all: seq<Job>, drained: seq<Job>, q: Queues)
    requires Balanced(all, drained, q)
    ensures Bytes(q.Order()) <= Bytes(all)
  {
    SameJobsSameBytes(all, drained + q.Order());
    BytesSplit(drained, q.Order());
  }

  lemma {:induction false} BytesSplit(a: seq<Job>, b: seq<Job>)
    ensures Bytes(a + b) == Bytes(a) + Bytes(b)
  {
    if a == [] {
      assert a + b == b;
    } else {
      BytesSplit(a[1..], b);
      assert (a + b)[1..] == a[1..] + b;
    }
  }

  lemma {:induction false} TakenBytes(jobs: seq<Job>, job: Job)
    ensures SatAdd(Saturated(Bytes(jobs)), job.bytes) == Saturated(Bytes(jobs + [job]))
  {
    BytesSplit(jobs, [job]);
    assert [job][1..] == [];
  }

  lemma {:induction false} OrderBytes(q: Queues)
    ensures Bytes(q.Order()) == Bytes(q.high) + Bytes(q.normal) + Bytes(q.low)
  {
    BytesSplit(q.high + q.normal, q.low);
    BytesSplit(q.high, q.normal);
  }

  lemma {:induction false} PushedBytes(q: Queues, job: Job)
    ensures Bytes(q.Push(job).Order()) == Bytes(q.Order()) + job.bytes
  {
    OrderBytes(q);
    OrderBytes(q.Push(job));
    BytesSplit(q.Of(job.priority), [job]);
    assert [job][1..] == [];
  }

  // ----- What one drain does -----

  /** A drain uploads the first jobs of the pop order, as many as fit the budget. */
  lemma {:induction false} DrainTakesPrefix(q: Queues, limits: Limits, jobs: nat, bytes: U64)
    ensures Drained(q, limits, jobs, bytes) == q.Order()[..Fitting(q.Order(), limits, jobs, bytes)]
    decreases |q.Order()|
  {
    var order := q.Order();
    if order != [] {
      FirstOfOrder(q);
      assert order[0] == q.First() && order[1..] == q.Rest().Order();
      if !Refuses(limits, jobs, bytes, q.First()) {
        DrainTakesPrefix(q.Rest(), limits, jobs + 1, SatAdd(bytes, q.First().bytes));
      }
    }
  }

  /** A drain loses and duplicates nothing. */
  lemma {:induction false} DrainConserves(q: Queues, limits: Limits, jobs: nat, bytes: U64)
    ensures Balanced(q.Order(), Drained(q, limits, jobs, bytes), Left(q, limits, jobs, bytes))
    decreases |q.Order()|
  {
    if q.Order() != [] {
      FirstOfOrder(q);
      if Refuses(limits, jobs, bytes, q.First()) {
        PushedJobs(q.Rest(), q.First());
      } else {
        DrainConserves(q.Rest(), limits, jobs + 1, SatAdd(bytes, q.First().bytes));
      }
    }
  }

  lemma {:induction false} OrderJobs(q: Queues)
    ensures multiset(q.Order()) == multiset(q.high) + multiset(q.normal) + multiset(q.low)
  {
  }

  lemma {:induction false} PushedJobs(q: Queues, job: Job)
    ensures multiset(q.Push(job).Order()) == multiset(q.Order()) + multiset{job}
  {
    OrderJobs(q);
    OrderJobs(q.Push(job));
    assert multiset(q.Of(job.priority) + [job]) == multiset(q.Of(job.priority)) + multiset{job};
  }

  /** A drain never uploads more jobs than the limit. */
  lemma {:induction false} DrainWithinJobs(q: Queues, limits: Limits, jobs: nat, bytes: U64)
    requires jobs <= limits.jobsPerFrame
    ensures jobs + |Drained(q, limits, jobs, bytes)| <= limits.jobsPerFrame
    decreases |q.Order()|
  {
    if q.Order() != [] && !Refuses(limits, jobs, bytes, q.First()) {
      FirstOfOrder(q);
      DrainWithinJobs(q.Rest(), limits, jobs + 1, SatAdd(bytes, q.First().bytes));
    }
  }

  lemma {:induction false} LaterJobsWithinBytes(q: Queues, limits: Limits, jobs: nat, bytes: U64)
    requires jobs > 0 && bytes <= limits.bytesPerFrame
    ensures Saturated(bytes + Bytes(Drained(q, limits, jobs, bytes))) <= limits.bytesPerFrame
    decreases |q.Order()|
  {
    if q.Order() != [] && !Refuses(limits, jobs, bytes, q.First()) {
      FirstOfOrder(q);
      var next := SatAdd(bytes, q.First().bytes);
      var rest := Drained(q.Rest(), limits, jobs + 1, next);
      LaterJobsWithinBytes(q.Rest(), limits, jobs + 1, next);
      assert ([q.First()] + rest)[1..] == rest;
    }
  }

  /**
   * The bytes of a drain, as its counter saturates, exceed the limit only when its first job alone does; below
   * the counter's largest value that holds of the bytes themselves.
   */
  lemma {:induction false} DrainWithinBytes(q: Queues, limits: Limits)
    ensures var drained := Drained(q, limits, 0, 0);
      && (Saturated(Bytes(drained)) <= limits.bytesPerFrame || |drained| == 1)
      && (limits.bytesPerFrame < U64_LIMIT - 1 ==> Bytes(drained) <= limits.bytesPerFrame || |drained| == 1)
  {
    if q.Order() != [] && !Refuses(limits, 0, 0, q.First()) {
      FirstOfOrder(q);
      var first := q.First().bytes;
      var rest := Drained(q.Rest(), limits, 1, first);
      assert ([q.First()] + rest)[1..] == rest;
      if first <= limits.bytesPerFrame {
        LaterJobsWithinBytes(q.Rest(), limits, 1, first);
      } else if q.Rest().Order() != [] {
        assert Refuses(limits, 1, first, q.Rest().First());
      }
    }
  }

  /** A drain with non-zero limits leaves jobs behind only when one of the limits is reached. */
  lemma {:induction false} DrainStopsAtLimit(order: seq<Job>, limits: Limits, jobs: nat, bytes: U64)
    requires limits.jobsPerFrame > 0 && limits.bytesPerFrame > 0
    ensures var n := Fitting(order, limits, jobs, bytes);
      n < |order| ==>
        || jobs + n >= limits.jobsPerFrame
        || (jobs + n > 0 && bytes + Bytes(order[..n + 1]) > limits.bytesPerFrame)
  {
    var n := Fitting(order, limits, jobs, bytes);
    if n < |order| {
      assert order[..n + 1][0] == order[0];
      if n > 0 {
        assert order[..n + 1][1..] == order[1..][..n];
        DrainStopsAtLimit(order[1..], limits, jobs + 1, SatAdd(bytes, order[0].bytes));
      }
    }
  }

  // ----- What is left, and in which order -----

  function InClass(jobs: seq<Job>, priority: Priority): seq<Job> {
    if jobs == [] then []
    else (if jobs[0].priority == priority then [jobs[0]] else []) + InClass(jobs[1..], priority)
  }

  lemma {:induction false} InClassSplits(a: seq<Job>, b: seq<Job>, priority: Priority)
    ensures InClass(a + b, priority) == InClass(a, priority) + InClass(b, priority)
  {
    if a == [] {
      assert a + b == b;
    } else {
      InClassSplits(a[1..], b, priority);
      assert (a + b)[1..] == a[1..] + b;
      Appended(if a[0].priority == priority then [a[0]] else [], InClass(a[1..], priority), InClass(b, priority));
    }
  }

  lemma {:induction false} InOwnClass(jobs: seq<Job>, own: Priority, priority: Priority)
    requires forall j :: j in jobs ==> j.priority == own
    ensures InClass(jobs, priority) == if own == priority then jobs else []
  {
    if jobs != [] {
      assert jobs[0] in jobs;
      InOwnClass(jobs[1..], own, priority);
      assert jobs == [jobs[0]] + jobs[1..];
    }
  }

  /** A queue of well-placed jobs is what its pop order says class by class. */
  lemma {:induction false} ClassesOfOrder(q: Queues, priority: Priority)
    requires q.WellPlaced()
    ensures InClass(q.Order(), priority) == q.Of(priority)
  {
    InClassSplits(q.high + q.normal, q.low, priority);
    InClassSplits(q.high, q.normal, priority);
    InOwnClass(q.high, High, priority);
    InOwnClass(q.normal, Normal, priority);
    InOwnClass(q.low, Low, priority);
  }

  /** The first waiting job of its class moves behind the others; every other class is untouched. */
  function Rotated(jobs: seq<Job>, priority: Priority): seq<Job>
    requires jobs != []
  {
    var own := InClass(jobs, priority);
    if jobs[0].priority == priority && own != [] then own[1..] + [jobs[0]] else own
  }

  lemma {:induction false} RestWellPlaced(q: Queues)
    requires q.WellPlaced() && q.Order() != []
    ensures q.Rest().WellPlaced()
    ensures q.First().priority == if q.high != [] then High else if q.normal != [] then Normal else Low
  {
    assert q.First() in q.Of(if q.high != [] then High else if q.normal != [] then Normal else Low);
  }

  lemma {:induction false} PushWellPlaced(q: Queues, job: Job)
    requires q.WellPlaced()
    ensures q.Push(job).WellPlaced()
  {
  }

  lemma {:induction false} RefusedRotates(q: Queues, priority: Priority)
    requires q.WellPlaced() && q.Order() != []
    ensures q.Rest().Push(q.First()).Of(priority) == Rotated(q.Order(), priority)
  {
    ClassesOfOrder(q, priority);
    RestWellPlaced(q);
    FirstOfOrder(q);
    assert q.Order()[0] == q.First();
  }

  /** A drain leaves the jobs it did not reach in their order, except the one it turned away. */
  lemma {:induction false} DrainRotatesRefused(q: Queues, limits: Limits, jobs: nat, bytes: U64, priority: Priority)
    requires q.WellPlaced()
    ensures Left(q, limits, jobs, bytes).WellPlaced()
    ensures var rest := q.Order()[Fitting(q.Order(), limits, jobs, bytes)..];
      Left(q, limits, jobs, bytes).Of(priority) == if rest == [] then [] else Rotated(rest, priority)
    decreases |q.Order()|
  {
    var order := q.Order();
    if order == [] {
      ClassesOfOrder(q, priority);
    } else if Refuses(limits, jobs, bytes, q.First()) {
      FirstOfOrder(q);
      RestWellPlaced(q);
      assert order[0..] == order;
      RefusedRotates(q, priority);
      PushWellPlaced(q.Rest(), q.First());
    } else {
      FirstOfOrder(q);
      RestWellPlaced(q);
      FittingStep(order, limits, jobs, bytes);
      DrainRotatesRefused(q.Rest(), limits, jobs + 1, SatAdd(bytes, q.First().bytes), priority);
    }
  }

  ghost predicate AllEqual(jobs: seq<Job>) {
    jobs == [] || forall j :: j in jobs ==> j == jobs[0]
  }

  /** Moving the front to the back changes nothing exactly when all elements are the same. */
  lemma {:induction false} RotationKeepsIff(jobs: seq<Job>)
    requires jobs != []
    ensures jobs[1..] + [jobs[0]] == jobs <==> AllEqual(jobs)
  {
    if jobs[1..] + [jobs[0]] == jobs {
      forall i: nat | i < |jobs|
        ensures jobs[i] == jobs[0]
      {
        SameAsFront(jobs, i);
      }
    } else {
      var i :| 0 <= i < |jobs| && (jobs[1..] + [jobs[0]])[i] != jobs[i];
      assert jobs[i] in jobs && (i < |jobs| - 1 ==> jobs[i + 1] in jobs);
    }
  }

  lemma {:induction false} SameAsFront(jobs: seq<Job>, i: nat)
    requires i < |jobs| && jobs[1..] + [jobs[0]] == jobs
    ensures jobs[i] == jobs[0]
  {
    if i > 0 {
      SameAsFront(jobs, i - 1);
      assert (jobs[1..] + [jobs[0]])[i - 1] == jobs[i];
    }
  }

  lemma {:induction false} InClassMembers(jobs: seq<Job>, priority: Priority)
    ensures forall j :: j in InClass(jobs, priority) ==> j in jobs && j.priority == priority
    ensures jobs != [] && jobs[0].priority == priority ==>
      InClass(jobs, priority) != [] && InClass(jobs, priority)[0] == jobs[0]
  {
    if jobs != [] {
      InClassMembers(jobs[1..], priority);
    }
  }

  /**
   * A drain keeps the order within a class exactly when it turns no job of that class away, or the waiting
   * jobs of the class are all the same.
   */
  lemma {:induction false} OrderKeptIff(q: Queues, limits: Limits, jobs: nat, bytes: U64, priority: Priority)
    requires q.WellPlaced()
    ensures var rest := q.Order()[Fitting(q.Order(), limits, jobs, bytes)..];
      Left(q, limits, jobs, bytes).Of(priority) == InClass(rest, priority) <==>
        (rest == [] || rest[0].priority != priority || AllEqual(InClass(rest, priority)))
  {
    var rest := q.Order()[Fitting(q.Order(), limits, jobs, bytes)..];
    DrainRotatesRefused(q, limits, jobs, bytes, priority);
    if rest != [] && rest[0].priority == priority {
      InClassMembers(rest, priority);
      RotationKeepsIff(InClass(rest, priority));
    }
  }

  ghost predicate DistinctSlots(jobs: seq<Job>) {
    forall i, j :: 0 <= i < j < |jobs| ==> jobs[i].slot != jobs[j].slot
  }

  lemma {:induction false} InClassDistinct(jobs: seq<Job>, priority: Priority)
    requires DistinctSlots(jobs)
    ensures DistinctSlots(InClass(jobs, priority))
  {
    if jobs != [] {
      var rest := jobs[1..];
      InClassDistinct(rest, priority);
      InClassMembers(rest, priority);
      assert forall j :: j in rest ==> j.slot != jobs[0].slot;
    }
  }

  /** With a slot of its own for each job: when it turns none away, or none but it waits in the class. */
  lemma {:induction false} DistinctOrderKeptIff(q: Queues, limits: Limits, jobs: nat, bytes: U64, priority: Priority)
    requires q.WellPlaced() && DistinctSlots(q.Order())
    ensures var rest := q.Order()[Fitting(q.Order(), limits, jobs, bytes)..];
      Left(q, limits, jobs, bytes).Of(priority) == InClass(rest, priority) <==>
        (rest == [] || rest[0].priority != priority || |InClass(rest, priority)| == 1)
  {
    var rest := q.Order()[Fitting(q.Order(), limits, jobs, bytes)..];
    var own := InClass(rest, priority);
    OrderKeptIff(q, limits, jobs, bytes, priority);
    InClassDistinct(rest, priority);
    InClassMembers(rest, priority);
    if |own| > 1 && AllEqual(own) {
      assert own[1] in own && own[1].slot != own[0].slot;
    }
  }

  /** Three jobs of one class under a limit of one: the second is turned away, and the third overtakes it. */
  lemma {:induction false} RefusedJobIsOvertaken(a: Job, b: Job, c: Job)
    requires a.priority.High? && b.priority.High? && c.priority.High?
    ensures var q, limits := Queues([a, b, c], [], []), Limits(1, 10);
      Drained(q, limits, 0, 0) == [a] && Left(q, limits, 0, 0).high == [c, b]
  {
    var q, limits := Queues([a, b, c], [], []), Limits(1, 10);
    assert q.Rest() == Queues([b, c], [], []);
    assert Refuses(limits, 1, SatAdd(0, a.bytes), b);
    assert q.Rest().Rest() == Queues([c], [], []);
    assert Left(q.Rest(), limits, 1, SatAdd(0, a.bytes)).high == [c, b];
    assert Drained(q.Rest(), limits, 1, SatAdd(0, a.bytes)) == [];
  }

  lemma {:induction false} FittingStep(order: seq<Job>, limits: Limits, jobs: nat, bytes: U64)
    requires order != [] && !Refuses(limits, jobs, bytes, order[0])
    ensures order[Fitting(order, limits, jobs, bytes)..]
         == order[1..][Fitting(order[1..], limits, jobs + 1, SatAdd(bytes, order[0].bytes))..]
  {
  }

  // ----- Repeated drains -----

  /** What `frames` drains with the same limits leave, with no new jobs in between. */
  function LeftAfter(q: Queues, limits: Limits, frames: nat): Queues
    decreases frames
  {
    if frames == 0 then q else LeftAfter(Left(q, limits, 0, 0), limits, frames - 1)
  }

  function DrainedOver(q: Queues, limits: Limits, frames: nat): seq<Job>
    decreases frames
  {
    if frames == 0 then [] else Drained(q, limits, 0, 0) + DrainedOver(Left(q, limits, 0, 0), limits, frames - 1)
  }

  /** With non-zero limits every drain of a non-empty queue uploads something. */
  lemma {:induction false} DrainMakesProgress(q: Queues, limits: Limits)
    requires q.Order() != []
    ensures |Drained(q, limits, 0, 0)| >= 1 <==> limits.jobsPerFrame > 0 && limits.bytesPerFrame > 0
    ensures limits.jobsPerFrame > 0 && limits.bytesPerFrame > 0 ==> |Left(q, limits, 0, 0).Order()| < |q.Order()|
  {
    DrainConserves(q, limits, 0, 0);
    assert |multiset(Drained(q, limits, 0, 0)) + multiset(Left(q, limits, 0, 0).Order())| == |q.Order()|;
  }

  lemma {:induction false} RepeatedDrainsLeaveNone(q: Queues, limits: Limits, frames: nat)
    requires limits.jobsPerFrame > 0 && limits.bytesPerFrame > 0 && frames >= |q.Order()|
    ensures LeftAfter(q, limits, frames).Order() == []
    decreases frames
  {
    if frames > 0 {
      if q.Order() != [] {
        DrainMakesProgress(q, limits);
      }
      RepeatedDrainsLeaveNone(Left(q, limits, 0, 0), limits, frames - 1);
    }
  }

  /** Repeated drains conserve the jobs as well. */
  lemma {:induction false} RepeatedDrainsConserve(q: Queues, limits: Limits, frames: nat)
    ensures Balanced(q.Order(), DrainedOver(q, limits, frames), LeftAfter(q, limits, frames))
    decreases frames
  {
    if frames == 0 {
      NothingDrained(q);
    } else {
      var left := Left(q, limits, 0, 0);
      DrainConserves(q, limits, 0, 0);
      RepeatedDrainsConserve(left, limits, frames - 1);
      SumOfDrains(q, Drained(q, limits, 0, 0), left, DrainedOver(left, limits, frames - 1),
        LeftAfter(left, limits, frames - 1), DrainedOver(q, limits, frames), LeftAfter(q, limits, frames));
    }
  }

  lemma {:induction false} NothingDrained(q: Queues)
    ensures Balanced(q.Order(), [], q)
  {
  }

  lemma {:induction false} SumOfDrains(q: Queues, first: seq<Job>, left: Queues, later: seq<Job>, last: Queues,
                                       whole: seq<Job>, end: Queues)
    requires Balanced(q.Order(), first, left) && Balanced(left.Order(), later, last)
    requires whole == first + later && end == last
    ensures Balanced(q.Order(), whole, end)
  {
  }

  /** So as many drains as there are jobs empty the queue, and each job is uploaded once. */
  lemma {:induction false} RepeatedDrainsEmpty(q: Queues, limits: Limits, frames: nat)
    requires limits.jobsPerFrame > 0 && limits.bytesPerFrame > 0 && frames >= |q.Order()|
    ensures LeftAfter(q, limits, frames).Order() == []
    ensures SameJobs(DrainedOver(q, limits, frames), q.Order())
  {
    RepeatedDrainsLeaveNone(q, limits, frames);
    RepeatedDrainsConserve(q, limits, frames);
  }
}
