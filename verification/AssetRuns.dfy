/** Every run of the asset manager: what requests, drains, completions and cancellations keep true. */
module AssetRuns {
  import opened Sequences
  import opened Words
  import opened AssetSlot
  import opened AssetManager

  /**
   * How far the request in hand has got inside `dispatch_request`: its path was read, or is missing; its cancel
   * flag was read clear, or set; its slot was marked as loading; the job queue took it, was full, or closed.
   */
  datatype Phase =
    | Popped | PathRead | NoPath | Cleared | Withdrawn | Marked | Accepted | QueueFull | QueueClosed
  {
    /** The slot was not yet marked as loading. */
    predicate Unmarked() {
      Popped? || PathRead? || NoPath? || Cleared? || Withdrawn?
    }

    /** What is left of the dispatch is its last access to the slot, or none. */
    predicate Settling() {
      NoPath? || Withdrawn? || Accepted? || QueueFull? || QueueClosed?
    }
  }

  /** Who holds the manager's lock. */
  datatype Lock =
    | Free
    | Scanning(priority: Priority, remaining: nat)
    | Dispatching(priority: Priority, remaining: nat, request: Request, phase: Phase)

  /** A load waits for its file; for the use of the bytes, its cancel flag read clear or set; for the decoder. */
  datatype Stage = Io | Wanted | Unwanted | Cpu

  /** A load handed to the job queues that has not run its last completion. */
  datatype Load = Load(slot: nat, tag: Tag, stage: Stage)

  datatype Spending = Spending(tag: Tag, ms: U64)

  /** The three queues of requests that wait to be started. */
  datatype Queues = Queues(high: seq<Request>, normal: seq<Request>, low: seq<Request>)
  {
    function Of(priority: Priority): seq<Request> {
      match priority case High => high case Normal => normal case Low => low
    }

    function With(priority: Priority, queue: seq<Request>): Queues {
      match priority
      case High => this.(high := queue)
      case Normal => this.(normal := queue)
      case Low => this.(low := queue)
    }
  }

  datatype State = State(
    slots: seq<Slot>,
    entries: map<string, nat>,
    queues: Queues,
    budget: Budget,
    budgetMs: U64,
    loads: seq<Load>,
    spending: seq<Spending>,
    lock: Lock)
  {
    function Enqueue(request: Request): State {
      var priority := request.opts.priority;
      this.(queues := queues.With(priority, queues.Of(priority) + [request]))
    }

    function Changed(slot: nat, change: Change): State
      requires slot < |slots|
    {
      this.(slots := slots[slot := After(slots[slot], change)])
    }
  }

  /** What the asset's type and the resolver say about a key. */
  datatype Lookup = Rejected | Unresolved(error: Error) | Resolved(path: string)

  datatype Outcome = Ok | Full | Closed

  datatype Step =
    | RequestAsset(key: string, kind: nat, lookup: Lookup, opts: Opts)
    | ReloadAsset(key: string, kind: nat, lookup: Lookup, opts: Opts)
    | PurgeAsset(key: string)
    | BeginTick
    | SetBudget(ms: U64)
    | BeginDrain
    | Scan
    | ReadPath
    | ReadFlag
    | Mark
    | SubmitIo(outcome: Outcome)
    | Settle
    | IoFailed(load: nat, error: Error)
    | IoRead(load: nat)
    | IoSettle(load: nat, cpu: Outcome)
    | CpuFailed(load: nat, error: Error, ms: U64)
    | CpuDecoded(load: nat, value: nat, ms: U64)
    | RecordSpent
    | CancelFlag(slot: nat)
    | CancelFail(slot: nat)
    | DropLoad(load: nat)

  predicate Enabled(s: State, step: Step) {
    match step
    case RequestAsset(_, _, _, _) => s.lock.Free?
    case ReloadAsset(_, _, _, _) => s.lock.Free?
    case PurgeAsset(_) => s.lock.Free?
    case BeginTick => s.lock.Free?
    case SetBudget(_) => s.lock.Free?
    case BeginDrain => s.lock.Free?
    case Scan => s.lock.Scanning?
    case ReadPath => s.lock.Dispatching? && s.lock.phase.Popped? && s.lock.request.slot < |s.slots|
    case ReadFlag => s.lock.Dispatching? && s.lock.phase.PathRead? && s.lock.request.slot < |s.slots|
    case Mark => s.lock.Dispatching? && s.lock.phase.Cleared? && s.lock.request.slot < |s.slots|
    case SubmitIo(_) => s.lock.Dispatching? && s.lock.phase.Marked?
    case Settle => s.lock.Dispatching? && s.lock.phase.Settling() && s.lock.request.slot < |s.slots|
    case IoFailed(i, _) => i < |s.loads| && s.loads[i].stage.Io? && s.loads[i].slot < |s.slots|
    case IoRead(i) => i < |s.loads| && s.loads[i].stage.Io? && s.loads[i].slot < |s.slots|
    case IoSettle(i, _) =>
      i < |s.loads| && (s.loads[i].stage.Wanted? || s.loads[i].stage.Unwanted?) && s.loads[i].slot < |s.slots|
    case CpuFailed(i, _, _) => i < |s.loads| && s.loads[i].stage.Cpu? && s.loads[i].slot < |s.slots|
    case CpuDecoded(i, _, _) => i < |s.loads| && s.loads[i].stage.Cpu? && s.loads[i].slot < |s.slots|
    case RecordSpent => s.lock.Free? && s.spending != []
    case CancelFlag(slot) => slot < |s.slots|
    case CancelFail(slot) => slot < |s.slots|
    case DropLoad(i) => i < |s.loads| && (s.loads[i].stage.Io? || s.loads[i].stage.Cpu?)
  }

  function NewSlot(s: State, key: string, slot: Slot): State {
    s.(slots := s.slots + [slot], entries := s.entries[key := |s.slots|])
  }

  function RequestNext(s: State, key: string, kind: nat, lookup: Lookup, opts: Opts): State {
    if key in s.entries then
      if s.entries[key] < |s.slots| && s.slots[s.entries[key]].kind != kind
      then s.(slots := s.slots + [Slot.Refused(kind, WrongKind)])
      else s
    else match lookup
      case Rejected => NewSlot(s, key, Slot.Refused(kind, NotValidForType(key)))
      case Unresolved(error) => NewSlot(s, key, Slot.Refused(kind, error))
      case Resolved(path) =>
        NewSlot(s, key, Slot.Requested(kind, path)).Enqueue(Request(|s.slots|, opts))
  }

  function ReloadNext(s: State, key: string, kind: nat, lookup: Lookup, opts: Opts): State {
    if lookup.Rejected? then s
    else if key !in s.entries then RequestNext(s, key, kind, lookup, opts)
    else if s.entries[key] >= |s.slots| then s
    else
      var id := s.entries[key];
      var slot := s.slots[id];
      if slot.kind != kind || slot.pending || slot.inFlight || !lookup.Resolved? then s
      else s.Changed(id, Reload(lookup.path)).Enqueue(Request(id, opts))
  }

  function NextQueue(s: State, priority: Priority): Lock {
    match priority
    case High => Scanning(Normal, |s.queues.normal|)
    case Normal => Scanning(Low, |s.queues.low|)
    case Low => Free
  }

  function ScanNext(s: State): State
    requires s.lock.Scanning?
  {
    var priority, queue := s.lock.priority, s.queues.Of(s.lock.priority);
    if s.lock.remaining == 0 || queue == [] then s.(lock := NextQueue(s, priority))
    else if ShouldThrottle(s.budgetMs, s.budget, priority, queue[0].opts.tag) then
      s.(queues := s.queues.With(priority, queue[1..] + [queue[0]]), budget := s.budget.Throttle(queue[0].opts.tag),
         lock := Scanning(priority, s.lock.remaining - 1))
    else
      s.(queues := s.queues.With(priority, queue[1..]),
         lock := Dispatching(priority, s.lock.remaining - 1, queue[0], Popped))
  }

  function ReadPathNext(s: State): State
    requires Enabled(s, ReadPath)
  {
    s.(lock := s.lock.(phase := if s.slots[s.lock.request.slot].resolved.None? then NoPath else PathRead))
  }

  function ReadFlagNext(s: State): State
    requires Enabled(s, ReadFlag)
  {
    s.(lock := s.lock.(phase := if s.slots[s.lock.request.slot].cancelled then Withdrawn else Cleared))
  }

  function MarkNext(s: State): State
    requires Enabled(s, Mark)
  {
    s.Changed(s.lock.request.slot, MarkLoading).(lock := s.lock.(phase := Marked))
  }

  function SubmitNext(s: State, outcome: Outcome): State
    requires s.lock.Dispatching?
  {
    match outcome
    case Ok =>
      s.(loads := s.loads + [Load(s.lock.request.slot, s.lock.request.opts.tag, Io)],
         lock := s.lock.(phase := Accepted))
    case Full => s.(lock := s.lock.(phase := QueueFull))
    case Closed => s.(lock := s.lock.(phase := QueueClosed))
  }

  function SettleNext(s: State): State
    requires Enabled(s, Settle)
  {
    var id, priority := s.lock.request.slot, s.lock.priority;
    var free := s.(lock := Scanning(priority, s.lock.remaining));
    match s.lock.phase
    case QueueFull =>
      free.Changed(id, MarkQueued).(queues := s.queues.With(priority, s.queues.Of(priority) + [s.lock.request]))
    case QueueClosed => free.Changed(id, Fail(IoQueueError))
    case NoPath => free.Changed(id, Fail(MissingPath))
    case Withdrawn => free.Changed(id, Fail(Cancelled))
    case _ => free
  }

  function Without(loads: seq<Load>, i: nat): seq<Load>
    requires i < |loads|
  {
    loads[..i] + loads[i + 1..]
  }

  /** A load ends with one change to its slot. */
  function LoadEnds(s: State, i: nat, change: Change): State
    requires i < |s.loads| && s.loads[i].slot < |s.slots|
  {
    s.Changed(s.loads[i].slot, change).(loads := Without(s.loads, i))
  }

  function Restaged(s: State, i: nat, stage: Stage): State
    requires i < |s.loads|
  {
    s.(loads := s.loads[i := s.loads[i].(stage := stage)])
  }

  function Next(s: State, step: Step): State {
    if !Enabled(s, step) then s else
    match step
    case RequestAsset(key, kind, lookup, opts) => RequestNext(s, key, kind, lookup, opts)
    case ReloadAsset(key, kind, lookup, opts) => ReloadNext(s, key, kind, lookup, opts)
    case PurgeAsset(key) =>
      if key in s.entries && s.entries[key] < |s.slots|
      then s.Changed(s.entries[key], Purge).(entries := s.entries - {key})
      else s
    case BeginTick => s.(budget := Budget.Fresh())
    case SetBudget(ms) => s.(budgetMs := ms)
    case BeginDrain => s.(lock := Scanning(High, |s.queues.high|))
    case Scan => ScanNext(s)
    case ReadPath => ReadPathNext(s)
    case ReadFlag => ReadFlagNext(s)
    case Mark => MarkNext(s)
    case SubmitIo(outcome) => SubmitNext(s, outcome)
    case Settle => SettleNext(s)
    case IoFailed(i, error) => LoadEnds(s, i, Fail(error))
    case IoRead(i) => Restaged(s, i, if s.slots[s.loads[i].slot].cancelled then Unwanted else Wanted)
    case IoSettle(i, cpu) =>
      if s.loads[i].stage.Unwanted? then LoadEnds(s, i, Fail(Cancelled))
      else if cpu.Ok? then Restaged(s, i, Cpu)
      else LoadEnds(s, i, Fail(CpuQueueError))
    case CpuFailed(i, error, ms) =>
      LoadEnds(s, i, Fail(error)).(spending := s.spending + [Spending(s.loads[i].tag, ms)])
    case CpuDecoded(i, value, ms) =>
      LoadEnds(s, i, Finish(value)).(spending := s.spending + [Spending(s.loads[i].tag, ms)])
    case RecordSpent =>
      s.(budget := s.budget.Spend(s.spending[0].tag, s.spending[0].ms), spending := s.spending[1..])
    case CancelFlag(slot) => s.Changed(slot, SetCancelled)
    case CancelFail(slot) => s.Changed(slot, Fail(Cancelled))
    case DropLoad(i) => s.(loads := Without(s.loads, i))
  }

  function Execute(s: State, steps: seq<Step>): State
    decreases |steps|
  {
    if steps == [] then s else Execute(Next(s, steps[0]), steps[1..])
  }

  function Initial(budgetMs: U64): State {
    State([], map[], Queues([], [], []), Budget.Fresh(), budgetMs, [], [], Free)
  }

  // ----- With cancellations and everything else -----

  ghost predicate AllOk(slots: seq<Slot>) {
    forall id :: 0 <= id < |slots| ==> slots[id].Ok()
  }

  /** Slots are never removed; each one's value stays and its version counts its finishes. */
  ghost predicate Evolved(before: seq<Slot>, after: seq<Slot>) {
    && |before| <= |after|
    && forall id :: 0 <= id < |before| ==> before[id].Evolves(after[id])
  }

  ghost predicate SoundStep(before: seq<Slot>, after: seq<Slot>) {
    AllOk(before) ==> AllOk(after) && Evolved(before, after)
  }

  lemma {:induction false} ChangeIsSound(slots: seq<Slot>, id: nat, change: Change)
    requires id < |slots|
    ensures SoundStep(slots, slots[id := After(slots[id], change)])
  {
    if AllOk(slots) {
      ChangeKeepsOk(slots[id], change);
    }
  }

  lemma {:induction false} NewSlotIsSound(slots: seq<Slot>, slot: Slot)
    requires slot.Ok()
    ensures SoundStep(slots, slots + [slot])
  {
  }

  lemma {:induction false} NoChangeIsSound(slots: seq<Slot>)
    ensures SoundStep(slots, slots)
  {
  }

  lemma {:induction false} RequestIsSound(s: State, key: string, kind: nat, lookup: Lookup, opts: Opts)
    ensures SoundStep(s.slots, RequestNext(s, key, kind, lookup, opts).slots)
  {
    NoChangeIsSound(s.slots);
    if key in s.entries {
      NewSlotIsSound(s.slots, Slot.Refused(kind, WrongKind));
    } else {
      match lookup
      case Rejected => NewSlotIsSound(s.slots, Slot.Refused(kind, NotValidForType(key)));
      case Unresolved(error) => NewSlotIsSound(s.slots, Slot.Refused(kind, error));
      case Resolved(path) => NewSlotIsSound(s.slots, Slot.Requested(kind, path));
    }
  }

  lemma {:induction false} EntryStepIsSound(s: State, step: Step)
    requires Enabled(s, step) && (step.ReloadAsset? || step.PurgeAsset?)
    ensures SoundStep(s.slots, Next(s, step).slots)
  {
    NoChangeIsSound(s.slots);
    match step
    case ReloadAsset(key, kind, lookup, opts) =>
      RequestIsSound(s, key, kind, lookup, opts);
      if key in s.entries && s.entries[key] < |s.slots| && lookup.Resolved? {
        ChangeIsSound(s.slots, s.entries[key], Reload(lookup.path));
      }
    case PurgeAsset(key) =>
      if key in s.entries && s.entries[key] < |s.slots| {
        ChangeIsSound(s.slots, s.entries[key], Purge);
      }
  }

  predicate DrainStep(step: Step) {
    step.Scan? || step.ReadPath? || step.ReadFlag? || step.Mark? || step.SubmitIo? || step.Settle?
  }

  lemma {:induction false} DrainStepIsSound(s: State, step: Step)
    requires Enabled(s, step) && DrainStep(step)
    ensures SoundStep(s.slots, Next(s, step).slots)
  {
    NoChangeIsSound(s.slots);
    match step
    case Mark => ChangeIsSound(s.slots, s.lock.request.slot, MarkLoading);
    case Settle =>
      ChangeIsSound(s.slots, s.lock.request.slot, MarkQueued);
      ChangeIsSound(s.slots, s.lock.request.slot, Fail(IoQueueError));
      ChangeIsSound(s.slots, s.lock.request.slot, Fail(MissingPath));
      ChangeIsSound(s.slots, s.lock.request.slot, Fail(Cancelled));
    case _ =>
  }

  predicate LoadStep(step: Step) {
    step.IoFailed? || step.IoRead? || step.IoSettle? || step.CpuFailed? || step.CpuDecoded?
  }

  lemma {:induction false} LoadStepIsSound(s: State, step: Step)
    requires Enabled(s, step) && LoadStep(step)
    ensures SoundStep(s.slots, Next(s, step).slots)
  {
    NoChangeIsSound(s.slots);
    var id := s.loads[step.load].slot;
    match step
    case IoFailed(_, error) => ChangeIsSound(s.slots, id, Fail(error));
    case IoRead(_) =>
    case IoSettle(_, _) =>
      ChangeIsSound(s.slots, id, Fail(Cancelled));
      ChangeIsSound(s.slots, id, Fail(CpuQueueError));
    case CpuFailed(_, error, _) => ChangeIsSound(s.slots, id, Fail(error));
    case CpuDecoded(_, value, _) => ChangeIsSound(s.slots, id, Finish(value));
  }

  lemma {:induction false} StepIsSound(s: State, step: Step)
    ensures SoundStep(s.slots, Next(s, step).slots)
  {
    NoChangeIsSound(s.slots);
    if Enabled(s, step) {
      match step
      case RequestAsset(key, kind, lookup, opts) => RequestIsSound(s, key, kind, lookup, opts);
      case ReloadAsset(_, _, _, _) => EntryStepIsSound(s, step);
      case PurgeAsset(_) => EntryStepIsSound(s, step);
      case Scan => DrainStepIsSound(s, step);
      case ReadPath => DrainStepIsSound(s, step);
      case ReadFlag => DrainStepIsSound(s, step);
      case Mark => DrainStepIsSound(s, step);
      case SubmitIo(_) => DrainStepIsSound(s, step);
      case Settle => DrainStepIsSound(s, step);
      case IoFailed(_, _) => LoadStepIsSound(s, step);
      case IoRead(_) => LoadStepIsSound(s, step);
      case IoSettle(_, _) => LoadStepIsSound(s, step);
      case CpuFailed(_, _, _) => LoadStepIsSound(s, step);
      case CpuDecoded(_, _, _) => LoadStepIsSound(s, step);
      case CancelFlag(id) => ChangeIsSound(s.slots, id, SetCancelled);
      case CancelFail(id) => ChangeIsSound(s.slots, id, Fail(Cancelled));
      case _ =>
    }
  }

  /** Slots are never removed, their values stay and their versions never fall. */
  ghost predicate LiveOn(before: seq<Slot>, after: seq<Slot>) {
    && |before| <= |after|
    && forall id :: 0 <= id < |before| ==> before[id].LivesOnAs(after[id])
  }

  lemma {:induction false} SoundStepLivesOn(before: seq<Slot>, after: seq<Slot>)
    requires AllOk(before) && SoundStep(before, after)
    ensures AllOk(after) && LiveOn(before, after)
  {
    forall id | 0 <= id < |before|
      ensures before[id].LivesOnAs(after[id])
    {
      EvolvedLivesOn(before[id], after[id]);
    }
  }

  lemma {:induction false} LiveOnJoins(first: seq<Slot>, second: seq<Slot>, third: seq<Slot>)
    requires LiveOn(first, second) && LiveOn(second, third)
    ensures LiveOn(first, third)
  {
    forall id | 0 <= id < |first|
      ensures first[id].LivesOnAs(third[id])
    {
      assert second[id].LivesOnAs(third[id]);
    }
  }

  /**
   * In every run, cancellations and purges included, every slot is sound at every point; a value once present
   * stays and versions never fall.
   */
  lemma {:induction false} SlotsAlwaysOk(s: State, steps: seq<Step>)
    requires AllOk(s.slots)
    ensures AllOk(Execute(s, steps).slots) && LiveOn(s.slots, Execute(s, steps).slots)
    decreases |steps|
  {
    if steps != [] {
      var next := Next(s, steps[0]);
      StepIsSound(s, steps[0]);
      SoundStepLivesOn(s.slots, next.slots);
      SlotsAlwaysOk(next, steps[1..]);
      LiveOnJoins(s.slots, next.slots, Execute(next, steps[1..]).slots);
    }
  }

  // ----- One place in the queues, one load -----

  function One(b: bool): nat { if b then 1 else 0 }

  function InQueue(queue: seq<Request>, id: nat): nat {
    if queue == [] then 0 else One(queue[0].slot == id) + InQueue(queue[1..], id)
  }

  function Outstanding(loads: seq<Load>, id: nat): nat {
    if loads == [] then 0 else One(loads[0].slot == id) + Outstanding(loads[1..], id)
  }

  /** The request in hand still counts as queued until its slot is marked as loading. */
  function InHand(lock: Lock, id: nat): nat {
    One(lock.Dispatching? && lock.request.slot == id && lock.phase.Unmarked())
  }

  /** A slot marked as loading whose job was not taken, or not yet. */
  function Unplaced(lock: Lock, id: nat): nat {
    One(lock.Dispatching? && lock.request.slot == id && !lock.phase.Unmarked() && !lock.phase.Accepted?)
  }

  function InQueues(queues: Queues, id: nat): nat {
    InQueue(queues.high, id) + InQueue(queues.normal, id) + InQueue(queues.low, id)
  }

  function TimesQueued(s: State, id: nat): nat {
    InQueues(s.queues, id) + InHand(s.lock, id)
  }

  function TimesLoading(s: State, id: nat): nat {
    Outstanding(s.loads, id) + Unplaced(s.lock, id)
  }

  /** A slot queued once if pending and loading once if in flight, with all its requests accounted for. */
  ghost predicate Booked(slot: Slot, queued: nat, loading: nat) {
    && queued == One(slot.pending)
    && loading == One(slot.inFlight)
    && slot.Ok() && slot.Settled()
  }

  ghost predicate BooksAt(s: State, id: nat) {
    if id < |s.slots| then Booked(s.slots[id], TimesQueued(s, id), TimesLoading(s, id))
    else TimesQueued(s, id) == 0 && TimesLoading(s, id) == 0
  }

  ghost predicate EntriesOk(s: State) {
    forall key :: key in s.entries ==> s.entries[key] < |s.slots|
  }

  ghost predicate Books(s: State) {
    EntriesOk(s) && forall id: nat :: BooksAt(s, id)
  }

  /** Every step but the failing half of a cancellation of something under way, and the loss of a load. */
  predicate Orderly(s: State, step: Step) {
    match step
    case CancelFail(id) => id < |s.slots| ==> !s.slots[id].UnderWay()
    case DropLoad(_) => !Enabled(s, step)
    case _ => true
  }

  predicate OrderlyRun(s: State, steps: seq<Step>)
    decreases |steps|
  {
    steps == [] || (Orderly(s, steps[0]) && OrderlyRun(Next(s, steps[0]), steps[1..]))
  }

  lemma {:induction false} InQueueAppend(queue: seq<Request>, request: Request, id: nat)
    ensures InQueue(queue + [request], id) == InQueue(queue, id) + One(request.slot == id)
  {
    if queue == [] {
      assert queue + [request] == [request];
      assert [request][1..] == [];
    } else {
      InQueueAppend(queue[1..], request, id);
      assert (queue + [request])[1..] == queue[1..] + [request];
    }
  }

  lemma {:induction false} OutstandingAppend(loads: seq<Load>, load: Load, id: nat)
    ensures Outstanding(loads + [load], id) == Outstanding(loads, id) + One(load.slot == id)
  {
    if loads == [] {
      assert loads + [load] == [load];
      assert [load][1..] == [];
    } else {
      OutstandingAppend(loads[1..], load, id);
      assert (loads + [load])[1..] == loads[1..] + [load];
    }
  }

  lemma {:induction false} OutstandingWithout(loads: seq<Load>, i: nat, id: nat)
    requires i < |loads|
    ensures Outstanding(Without(loads, i), id) + One(loads[i].slot == id) == Outstanding(loads, id)
  {
    if i == 0 {
      assert Without(loads, 0) == loads[1..];
    } else {
      OutstandingWithout(loads[1..], i - 1, id);
      assert Without(loads, i)[1..] == Without(loads[1..], i - 1);
      assert Without(loads, i)[0] == loads[0];
    }
  }

  lemma {:induction false} OutstandingRestaged(loads: seq<Load>, i: nat, stage: Stage, id: nat)
    requires i < |loads|
    ensures Outstanding(loads[i := loads[i].(stage := stage)], id) == Outstanding(loads, id)
  {
    var restaged := loads[i := loads[i].(stage := stage)];
    if i == 0 {
      assert restaged[1..] == loads[1..];
    } else {
      OutstandingRestaged(loads[1..], i - 1, stage, id);
      assert restaged[1..] == loads[1..][i - 1 := loads[i].(stage := stage)];
    }
  }

  lemma {:induction false} WithQueueBooks(queues: Queues, priority: Priority, queue: seq<Request>, id: nat)
    ensures InQueues(queues.With(priority, queue), id) + InQueue(queues.Of(priority), id)
         == InQueues(queues, id) + InQueue(queue, id)
  {
  }

  lemma {:induction false} EnqueueBooks(s: State, request: Request, id: nat)
    ensures TimesQueued(s.Enqueue(request), id) == TimesQueued(s, id) + One(request.slot == id)
    ensures TimesLoading(s.Enqueue(request), id) == TimesLoading(s, id)
  {
    InQueueAppend(s.queues.Of(request.opts.priority), request, id);
    WithQueueBooks(s.queues, request.opts.priority, s.queues.Of(request.opts.priority) + [request], id);
  }

  lemma {:induction false} NewSlotBooks(s: State, key: string, slot: Slot, id: nat)
    requires BooksAt(s, id) && !slot.pending && Booked(slot, 0, 0)
    ensures BooksAt(NewSlot(s, key, slot), id)
  {
    assert TimesQueued(NewSlot(s, key, slot), id) == TimesQueued(s, id);
    assert TimesLoading(NewSlot(s, key, slot), id) == TimesLoading(s, id);
  }

  lemma {:induction false} RequestBooks(s: State, key: string, kind: nat, lookup: Lookup, opts: Opts, id: nat)
    requires BooksAt(s, id)
    ensures BooksAt(RequestNext(s, key, kind, lookup, opts), id)
  {
    if key !in s.entries {
      match lookup
      case Resolved(path) =>
        var added := NewSlot(s, key, Slot.Requested(kind, path));
        assert TimesQueued(added, id) == TimesQueued(s, id) && TimesLoading(added, id) == TimesLoading(s, id);
        EnqueueBooks(added, Request(|s.slots|, opts), id);
      case Unresolved(error) => NewSlotBooks(s, key, Slot.Refused(kind, error), id);
      case Rejected => NewSlotBooks(s, key, Slot.Refused(kind, NotValidForType(key)), id);
    }
  }

  lemma {:induction false} ReloadBooks(s: State, key: string, kind: nat, lookup: Lookup, opts: Opts, id: nat)
    requires BooksAt(s, id)
    ensures BooksAt(ReloadNext(s, key, kind, lookup, opts), id)
  {
    if key !in s.entries {
      RequestBooks(s, key, kind, lookup, opts, id);
    } else if s.entries[key] < |s.slots| && lookup.Resolved? {
      EnqueueBooks(s.Changed(s.entries[key], Reload(lookup.path)), Request(s.entries[key], opts), id);
    }
  }

  lemma {:induction false} ScanBooks(s: State, id: nat)
    requires s.lock.Scanning? && BooksAt(s, id)
    ensures BooksAt(ScanNext(s), id)
  {
    var queue := s.queues.Of(s.lock.priority);
    if s.lock.remaining > 0 && queue != [] {
      InQueueAppend(queue[1..], queue[0], id);
      WithQueueBooks(s.queues, s.lock.priority, queue[1..] + [queue[0]], id);
      WithQueueBooks(s.queues, s.lock.priority, queue[1..], id);
    }
  }

  lemma {:induction false} MarkBooks(s: State, id: nat)
    requires Enabled(s, Mark) && BooksAt(s, id) && BooksAt(s, s.lock.request.slot)
    ensures BooksAt(MarkNext(s), id)
  {
  }

  lemma {:induction false} SubmitBooks(s: State, outcome: Outcome, id: nat)
    requires Enabled(s, SubmitIo(outcome)) && BooksAt(s, id)
    ensures BooksAt(SubmitNext(s, outcome), id)
  {
    OutstandingAppend(s.loads, Load(s.lock.request.slot, s.lock.request.opts.tag, Io), id);
  }

  lemma {:induction false} RequeueBooks(s: State, id: nat)
    requires Enabled(s, Settle) && s.lock.phase.QueueFull? && BooksAt(s, id)
    ensures BooksAt(SettleNext(s), id)
  {
    var priority, request := s.lock.priority, s.lock.request;
    var free := s.(lock := Scanning(priority, s.lock.remaining));
    assert TimesQueued(free, id) == TimesQueued(s, id);
    assert TimesLoading(free, id) + One(request.slot == id) == TimesLoading(s, id);
    InQueueAppend(s.queues.Of(priority), request, id);
    WithQueueBooks(s.queues, priority, s.queues.Of(priority) + [request], id);
  }

  /** Failing the slot of the request in hand balances that the request, or its job, is given up. */
  lemma {:induction false} FailedBooks(s: State, free: State, reason: Error, id: nat)
    requires s.lock.Dispatching? && s.lock.request.slot < |s.slots| && BooksAt(s, id)
    requires !s.lock.phase.Accepted? && free == s.(lock := Scanning(s.lock.priority, s.lock.remaining))
    ensures BooksAt(free.Changed(s.lock.request.slot, Fail(reason)), id)
  {
    hide InQueues, Outstanding;
  }

  lemma {:induction false} ConcludedBooks(s: State, id: nat)
    requires Enabled(s, Settle) && !s.lock.phase.QueueFull? && BooksAt(s, id)
    ensures BooksAt(SettleNext(s), id)
  {
    hide InQueues, Outstanding;
    var slot, phase := s.lock.request.slot, s.lock.phase;
    var free := s.(lock := Scanning(s.lock.priority, s.lock.remaining));
    if phase.NoPath? {
      FailedBooks(s, free, MissingPath, id);
    } else if phase.Withdrawn? {
      FailedBooks(s, free, Cancelled, id);
    } else if phase.QueueClosed? {
      FailedBooks(s, free, IoQueueError, id);
    }
  }

  lemma {:induction false} SettleBooks(s: State, id: nat)
    requires Enabled(s, Settle) && BooksAt(s, id)
    ensures BooksAt(SettleNext(s), id)
  {
    hide SettleNext, BooksAt;
    if s.lock.phase.QueueFull? {
      RequeueBooks(s, id);
    } else {
      ConcludedBooks(s, id);
    }
  }

  lemma {:induction false} LoadEndsBooks(s: State, i: nat, change: Change, id: nat)
    requires i < |s.loads| && s.loads[i].slot < |s.slots| && (change.Fail? || change.Finish?)
    requires BooksAt(s, id)
    ensures BooksAt(LoadEnds(s, i, change), id)
  {
    OutstandingWithout(s.loads, i, id);
  }

  /** Setting the cancel flag moves nothing, whatever is under way; failing moves only what is under way. */
  lemma {:induction false} CancelBooks(s: State, change: Change, slot: nat, id: nat)
    requires slot < |s.slots| && (change.SetCancelled? || (change == Fail(Cancelled) && !s.slots[slot].UnderWay()))
    requires BooksAt(s, id)
    ensures BooksAt(s.Changed(slot, change), id)
  {
  }

  lemma {:induction false} SpendingBooks(s: State, spent: Spending, id: nat)
    requires BooksAt(s, id)
    ensures BooksAt(s.(spending := s.spending + [spent]), id)
  {
  }

  lemma {:induction false} RestagedBooks(s: State, i: nat, stage: Stage, id: nat)
    requires i < |s.loads| && BooksAt(s, id)
    ensures BooksAt(Restaged(s, i, stage), id)
  {
    OutstandingRestaged(s.loads, i, stage, id);
  }

  lemma {:induction false} IoSettleBooks(s: State, i: nat, cpu: Outcome, id: nat)
    requires Enabled(s, IoSettle(i, cpu)) && BooksAt(s, id)
    ensures BooksAt(Next(s, IoSettle(i, cpu)), id)
  {
    hide BooksAt;
    if s.loads[i].stage.Unwanted? {
      LoadEndsBooks(s, i, Fail(Cancelled), id);
    } else if cpu.Ok? {
      RestagedBooks(s, i, Cpu, id);
    } else {
      LoadEndsBooks(s, i, Fail(CpuQueueError), id);
    }
  }

  lemma {:induction false} LoadStepBooks(s: State, step: Step, id: nat)
    requires LoadStep(step) && Enabled(s, step) && BooksAt(s, id)
    ensures BooksAt(Next(s, step), id)
  {
    hide BooksAt;
    match step
    case IoFailed(i, error) => LoadEndsBooks(s, i, Fail(error), id);
    case IoRead(i) =>
      RestagedBooks(s, i, Wanted, id);
      RestagedBooks(s, i, Unwanted, id);
    case IoSettle(i, cpu) => IoSettleBooks(s, i, cpu, id);
    case CpuFailed(i, error, ms) =>
      LoadEndsBooks(s, i, Fail(error), id);
      SpendingBooks(LoadEnds(s, i, Fail(error)), Spending(s.loads[i].tag, ms), id);
    case CpuDecoded(i, value, ms) =>
      LoadEndsBooks(s, i, Finish(value), id);
      SpendingBooks(LoadEnds(s, i, Finish(value)), Spending(s.loads[i].tag, ms), id);
  }

  lemma {:induction false} DrainStepBooks(s: State, step: Step, id: nat)
    requires DrainStep(step) && Enabled(s, step) && Books(s)
    ensures BooksAt(Next(s, step), id)
  {
    assert BooksAt(s, id);
    match step
    case Scan => ScanBooks(s, id);
    case ReadPath =>
    case ReadFlag =>
    case Mark =>
      assert BooksAt(s, s.lock.request.slot);
      MarkBooks(s, id);
    case SubmitIo(outcome) => SubmitBooks(s, outcome, id);
    case Settle => SettleBooks(s, id);
  }

  lemma {:induction false} QuietStepBooks(s: State, step: Step, id: nat)
    requires step.PurgeAsset? || step.BeginTick? || step.SetBudget? || step.BeginDrain? || step.RecordSpent?
    requires Enabled(s, step) && BooksAt(s, id)
    ensures BooksAt(Next(s, step), id)
  {
  }

  lemma {:induction false} StepKeepsBooksAt(s: State, step: Step, id: nat)
    requires Books(s) && Enabled(s, step) && Orderly(s, step)
    ensures BooksAt(Next(s, step), id)
  {
    hide BooksAt;
    assert BooksAt(s, id);
    match step
    case RequestAsset(key, kind, lookup, opts) => RequestBooks(s, key, kind, lookup, opts, id);
    case ReloadAsset(key, kind, lookup, opts) => ReloadBooks(s, key, kind, lookup, opts, id);
    case CancelFlag(slot) => CancelBooks(s, SetCancelled, slot, id);
    case CancelFail(slot) => CancelBooks(s, Fail(Cancelled), slot, id);
    case DropLoad(_) =>
    case _ =>
      if DrainStep(step) {
        DrainStepBooks(s, step, id);
      } else if LoadStep(step) {
        LoadStepBooks(s, step, id);
      } else {
        QuietStepBooks(s, step, id);
      }
  }

  lemma {:induction false} RequestKeepsEntries(s: State, key: string, kind: nat, lookup: Lookup, opts: Opts)
    requires EntriesOk(s)
    ensures EntriesOk(RequestNext(s, key, kind, lookup, opts))
  {
  }

  lemma {:induction false} OtherStepsKeepEntries(s: State, step: Step)
    requires Enabled(s, step) && !step.RequestAsset? && !step.ReloadAsset? && !step.PurgeAsset?
    ensures |Next(s, step).slots| == |s.slots| && Next(s, step).entries == s.entries
  {
  }

  lemma {:induction false} StepKeepsEntries(s: State, step: Step)
    requires EntriesOk(s) && Enabled(s, step)
    ensures EntriesOk(Next(s, step))
  {
    match step
    case RequestAsset(key, kind, lookup, opts) => RequestKeepsEntries(s, key, kind, lookup, opts);
    case ReloadAsset(key, kind, lookup, opts) => RequestKeepsEntries(s, key, kind, lookup, opts);
    case PurgeAsset(_) =>
    case _ => OtherStepsKeepEntries(s, step);
  }

  lemma {:induction false} StepKeepsBooks(s: State, step: Step)
    requires Books(s) && Orderly(s, step)
    ensures Books(Next(s, step))
  {
    if Enabled(s, step) {
      StepKeepsEntries(s, step);
      forall id: nat
        ensures BooksAt(Next(s, step), id)
      {
        StepKeepsBooksAt(s, step, id);
      }
    }
  }

  /** Failing a slot under way by cancellation, or losing a load, breaks the accounting of that slot. */
  lemma {:induction false} DisorderBreaksBooks(s: State, step: Step)
    requires Books(s) && Enabled(s, step) && !Orderly(s, step)
    ensures !Books(Next(s, step))
  {
    if step.DropLoad? {
      var id := s.loads[step.load].slot;
      assert BooksAt(s, id);
      OutstandingWithout(s.loads, step.load, id);
      assert !BooksAt(Next(s, step), id);
    } else {
      assert BooksAt(s, step.slot);
      assert !BooksAt(Next(s, step), step.slot);
    }
  }

  /** Exactly the orderly steps keep the accounting. */
  lemma {:induction false} StepKeepsBooksIff(s: State, step: Step)
    requires Books(s) && Enabled(s, step)
    ensures Books(Next(s, step)) <==> Orderly(s, step)
  {
    if Orderly(s, step) {
      StepKeepsBooks(s, step);
    } else {
      DisorderBreaksBooks(s, step);
    }
  }

  lemma {:induction false} RunKeepsBooks(s: State, steps: seq<Step>)
    requires Books(s) && OrderlyRun(s, steps)
    ensures Books(Execute(s, steps))
    decreases |steps|
  {
    if steps != [] {
      StepKeepsBooks(s, steps[0]);
      RunKeepsBooks(Next(s, steps[0]), steps[1..]);
    }
  }

  /**
   * In every run in which no cancellation fails a slot under way and no load is lost, cancel flags set at any
   * time included, a slot is in the queues exactly once if it is pending and not at all otherwise, has one load
   * outstanding exactly when in flight, and every accepted request or reload has had one outcome or is one of
   * these two.
   */
  lemma {:induction false} OnePlaceOneLoad(budgetMs: U64, steps: seq<Step>, id: nat)
    requires OrderlyRun(Initial(budgetMs), steps)
    requires id < |Execute(Initial(budgetMs), steps).slots|
    ensures var s := Execute(Initial(budgetMs), steps); var slot := s.slots[id];
      && TimesQueued(s, id) == One(slot.pending)
      && TimesLoading(s, id) == One(slot.inFlight)
      && slot.accepted == slot.finishes + slot.fails + TimesQueued(s, id) + TimesLoading(s, id)
      && TimesQueued(s, id) + TimesLoading(s, id) <= 1
  {
    RunKeepsBooks(Initial(budgetMs), steps);
    assert BooksAt(Execute(Initial(budgetMs), steps), id);
  }

  /** A whole `cancel`, taken in one go. */
  function CancelNext(s: State, id: nat): State
    requires id < |s.slots|
  {
    var flagged := Next(s, CancelFlag(id));
    if flagged.slots[id].status.Ready? then flagged else Next(flagged, CancelFail(id))
  }

  lemma {:induction false} AfterCancel(s: State, id: nat)
    requires id < |s.slots| && s.slots[id].Ok()
    ensures var next := CancelNext(s, id);
      && next.entries == s.entries && next.lock == s.lock && next.loads == s.loads && next.queues == s.queues
      && |next.slots| == |s.slots| && next.slots[id].kind == s.slots[id].kind && !next.slots[id].UnderWay()
  {
  }

  /** A reload of a slot with nothing under way puts one more request of it into the queues. */
  lemma {:induction false} ReloadQueuesOneMore(s: State, key: string, path: string, opts: Opts)
    requires s.lock.Free? && key in s.entries && s.entries[key] < |s.slots| && !s.slots[s.entries[key]].UnderWay()
    ensures var id := s.entries[key];
      var next := Next(s, ReloadAsset(key, s.slots[id].kind, Resolved(path), opts));
      TimesQueued(next, id) == TimesQueued(s, id) + 1 && TimesLoading(next, id) == TimesLoading(s, id)
  {
    var id := s.entries[key];
    var reset := s.Changed(id, Reload(path));
    assert TimesQueued(reset, id) == TimesQueued(s, id) && TimesLoading(reset, id) == TimesLoading(s, id);
    EnqueueBooks(reset, Request(id, opts), id);
  }

  /**
   * A cancellation takes neither the request out of its queue nor the load out of the job queues, so a reload
   * after it leaves the slot with one place or load exactly when nothing was under way before: the guard of
   * the reload itself, read before the cancellation.
   */
  lemma {:induction false} CancelThenReloadIff(s: State, key: string, path: string, opts: Opts)
    requires Books(s) && s.lock.Free? && key in s.entries
    ensures var id := s.entries[key];
      var next := Next(CancelNext(s, id), ReloadAsset(key, s.slots[id].kind, Resolved(path), opts));
      && TimesQueued(next, id) == 1 + One(s.slots[id].pending)
      && TimesLoading(next, id) == One(s.slots[id].inFlight)
      && (TimesQueued(next, id) + TimesLoading(next, id) <= 1 <==> !s.slots[id].UnderWay())
  {
    var id := s.entries[key];
    assert BooksAt(s, id);
    AfterCancel(s, id);
    ReloadQueuesOneMore(CancelNext(s, id), key, path, opts);
  }

  /** When the cancelled job is dropped before it completes, the load is gone and the reload is alone. */
  lemma {:induction false} CancelDropThenReload(s: State, key: string, path: string, opts: Opts, i: nat)
    requires Books(s) && s.lock.Free? && key in s.entries
    requires Enabled(s, DropLoad(i)) && s.loads[i].slot == s.entries[key]
    ensures var id := s.entries[key];
      var dropped := Next(CancelNext(s, id), DropLoad(i));
      var next := Next(dropped, ReloadAsset(key, s.slots[id].kind, Resolved(path), opts));
      TimesQueued(next, id) == 1 && TimesLoading(next, id) == 0
  {
    var id := s.entries[key];
    assert BooksAt(s, id);
    AfterCancel(s, id);
    OutstandingWithout(s.loads, i, id);
    ReloadQueuesOneMore(Next(CancelNext(s, id), DropLoad(i)), key, path, opts);
  }

  // ----- One dispatch, without interference -----

  /** What a dispatch makes of the slot of its request. */
  function Dispatched(slot: Slot, outcome: Outcome): Slot {
    if slot.resolved.None? then slot.Failing(MissingPath)
    else if slot.cancelled then slot.Failing(Cancelled)
    else match outcome
      case Ok => slot.MarkedLoading()
      case Full => slot.MarkedLoading().MarkedQueued()
      case Closed => slot.MarkedLoading().Failing(IoQueueError)
  }

  /** The job queue had no room for the request of a slot that can be loaded. */
  predicate Refused(slot: Slot, outcome: Outcome) {
    slot.resolved.Some? && !slot.cancelled && outcome.Full?
  }

  /** The job queue took the request of a slot that can be loaded. */
  predicate TakenOn(slot: Slot, outcome: Outcome) {
    slot.resolved.Some? && !slot.cancelled && outcome.Ok?
  }

  /** `dispatch_request`; `outcome` is what the job queue answers if it is asked. */
  method DispatchRequest(slot: SharedSlot, outcome: Outcome) returns (handled: bool)
    modifies slot
    ensures slot.Snapshot() == Dispatched(old(slot.Snapshot()), outcome)
    ensures !handled <==> Refused(old(slot.Snapshot()), outcome)
  {
    if slot.resolved.None? {
      slot.Fail(MissingPath);
      return true;
    }
    if slot.cancelled {
      slot.Fail(Cancelled);
      return true;
    }
    slot.MarkLoading();
    match outcome
    case Ok => return true;
    case Full =>
      slot.MarkQueued();
      return false;
    case Closed =>
      slot.Fail(IoQueueError);
      return true;
  }

  /** The five steps of a dispatch, taken in a row; the steps that do not apply change nothing. */
  function Dispatch(s: State, outcome: Outcome): State {
    Next(Next(Next(Next(Next(s, ReadPath), ReadFlag), Mark), SubmitIo(outcome)), Settle)
  }

  /** What the first two steps of a dispatch find out. */
  function Found(slot: Slot): Phase {
    if slot.resolved.None? then NoPath else if slot.cancelled then Withdrawn else Cleared
  }

  lemma {:induction false} FoundInSteps(s: State)
    requires Enabled(s, ReadPath)
    ensures Next(Next(s, ReadPath), ReadFlag)
         == s.(lock := s.lock.(phase := Found(s.slots[s.lock.request.slot])))
  {
    assert Next(s, ReadPath) == ReadPathNext(s);
  }

  lemma {:induction false} MarkAndSubmit(s: State, outcome: Outcome)
    requires s.lock.Dispatching? && s.lock.request.slot < |s.slots|
    requires s.lock.phase.Cleared? || s.lock.phase.NoPath? || s.lock.phase.Withdrawn?
    ensures Next(Next(Next(s, Mark), SubmitIo(outcome)), Settle)
         == if s.lock.phase.Cleared? then SettleNext(SubmitNext(MarkNext(s), outcome)) else SettleNext(s)
  {
    if s.lock.phase.Cleared? {
      assert Next(s, Mark) == MarkNext(s);
      assert Next(MarkNext(s), SubmitIo(outcome)) == SubmitNext(MarkNext(s), outcome);
    } else {
      assert Next(s, Mark) == s && Next(s, SubmitIo(outcome)) == s;
    }
  }

  lemma {:induction false} DispatchFromFound(s: State, outcome: Outcome)
    requires Enabled(s, ReadPath)
    ensures var found := s.(lock := s.lock.(phase := Found(s.slots[s.lock.request.slot])));
      Dispatch(s, outcome)
        == if found.lock.phase.Cleared? then SettleNext(SubmitNext(MarkNext(found), outcome)) else SettleNext(found)
  {
    FoundInSteps(s);
    MarkAndSubmit(s.(lock := s.lock.(phase := Found(s.slots[s.lock.request.slot]))), outcome);
  }

  /** The steps of a dispatch, taken in a row, do to the slot what the whole call does. */
  lemma {:induction false} DispatchInSteps(s: State, outcome: Outcome)
    requires Enabled(s, ReadPath)
    ensures var id := s.lock.request.slot;
      && Dispatch(s, outcome).slots == s.slots[id := Dispatched(s.slots[id], outcome)]
      && Dispatch(s, outcome).lock == Scanning(s.lock.priority, s.lock.remaining)
  {
    DispatchFromFound(s, outcome);
  }

  lemma {:induction false} WithTwice(queues: Queues, priority: Priority, first: seq<Request>, second: seq<Request>)
    ensures queues.With(priority, first).Of(priority) == first
    ensures queues.With(priority, first).With(priority, second) == queues.With(priority, second)
    ensures queues.With(priority, queues.Of(priority)) == queues
  {
  }

  /** A refused request goes to the back of its queue; one taken on is a load with its slot and tag. */
  lemma {:induction false} DispatchQueues(s: State, outcome: Outcome)
    requires Enabled(s, ReadPath)
    ensures var next, request, slot := Dispatch(s, outcome), s.lock.request, s.slots[s.lock.request.slot];
      && next.budget == s.budget && next.budgetMs == s.budgetMs
      && next.queues == s.queues.With(s.lock.priority,
           s.queues.Of(s.lock.priority) + (if Refused(slot, outcome) then [request] else []))
      && next.loads == s.loads + (if TakenOn(slot, outcome) then [Load(request.slot, request.opts.tag, Io)] else [])
  {
    hide Dispatch;
    var found := s.(lock := s.lock.(phase := Found(s.slots[s.lock.request.slot])));
    DispatchFromFound(s, outcome);
    Grown(s.queues.Of(s.lock.priority));
    Grown(s.loads);
    if found.lock.phase.Cleared? {
      SubmittedQueues(MarkNext(found), outcome);
    } else {
      WithTwice(s.queues, s.lock.priority, [], []);
    }
  }

  /** What the last two steps of a dispatch do to queues, budget and loads. */
  lemma {:induction false} SubmittedQueues(s: State, outcome: Outcome)
    requires s.lock.Dispatching? && s.lock.request.slot < |s.slots|
    ensures var next, request := SettleNext(SubmitNext(s, outcome)), s.lock.request;
      && next.budget == s.budget && next.budgetMs == s.budgetMs
      && next.queues == s.queues.With(s.lock.priority,
           s.queues.Of(s.lock.priority) + (if outcome.Full? then [request] else []))
      && next.loads == s.loads + (if outcome.Ok? then [Load(request.slot, request.opts.tag, Io)] else [])
  {
    Grown(s.queues.Of(s.lock.priority));
    Grown(s.loads);
    WithTwice(s.queues, s.lock.priority, [], []);
  }

  // ----- A drain in its single steps -----

  /** What the next request of a queue goes through; the steps that do not apply to it change nothing. */
  function Turn(s: State, outcome: Outcome): State {
    Dispatch(Next(s, Scan), outcome)
  }

  /** A pass over a queue, given the job queue's answer for each position. */
  function PassRun(s: State, outcomes: seq<Outcome>): State {
    if outcomes == [] then s else Turn(PassRun(s, outcomes[..|outcomes| - 1]), outcomes[|outcomes| - 1])
  }

  function TurnSteps(outcome: Outcome): seq<Step> {
    [Scan, ReadPath, ReadFlag, Mark, SubmitIo(outcome), Settle]
  }

  function PassSteps(outcomes: seq<Outcome>): seq<Step> {
    if outcomes == [] then []
    else PassSteps(outcomes[..|outcomes| - 1]) + TurnSteps(outcomes[|outcomes| - 1])
  }

  /** Whether the job queue refused each request of a pass when its turn came. */
  function Refusals(s: State, queue: seq<Request>, outcomes: seq<Outcome>): seq<bool>
    requires |outcomes| <= |queue|
    ensures |Refusals(s, queue, outcomes)| == |outcomes|
  {
    if outcomes == [] then [] else
    var n := |outcomes| - 1;
    var before := PassRun(s, outcomes[..n]);
    Refusals(s, queue, outcomes[..n])
      + [queue[n].slot < |before.slots| && Refused(before.slots[queue[n].slot], outcomes[n])]
  }

  ghost predicate Known(queue: seq<Request>, slots: nat) {
    forall i :: 0 <= i < |queue| ==> queue[i].slot < slots
  }

  lemma {:induction false} ExecuteJoins(s: State, first: seq<Step>, second: seq<Step>)
    ensures Execute(s, first + second) == Execute(Execute(s, first), second)
    decreases |first|
  {
    if first == [] {
      Grown(second);
    } else {
      assert (first + second)[1..] == first[1..] + second;
      ExecuteJoins(Next(s, first[0]), first[1..], second);
    }
  }

  lemma {:induction false} ExecutePair(s: State, first: Step, second: Step)
    ensures Execute(s, [first, second]) == Next(Next(s, first), second)
  {
    assert [first, second][1..] == [second] && [second][1..] == [];
    assert Execute(Next(s, first), [second]) == Next(Next(s, first), second);
  }

  lemma {:induction false} TurnIsItsSteps(s: State, outcome: Outcome)
    ensures Execute(s, TurnSteps(outcome)) == Turn(s, outcome)
  {
    hide Next;
    var start, middle, end := [Scan, ReadPath], [ReadFlag, Mark], [SubmitIo(outcome), Settle];
    var read := Next(Next(s, Scan), ReadPath);
    var marked := Next(Next(read, ReadFlag), Mark);
    ExecutePair(s, Scan, ReadPath);
    ExecutePair(read, ReadFlag, Mark);
    ExecutePair(marked, SubmitIo(outcome), Settle);
    assert TurnSteps(outcome) == (start + middle) + end;
    ExecuteJoins(s, start, middle);
    ExecuteJoins(s, start + middle, end);
  }

  lemma {:induction false} PassRunIsARun(s: State, outcomes: seq<Outcome>)
    ensures Execute(s, PassSteps(outcomes)) == PassRun(s, outcomes)
  {
    if outcomes != [] {
      var init, last := outcomes[..|outcomes| - 1], outcomes[|outcomes| - 1];
      PassRunIsARun(s, init);
      ExecuteJoins(s, PassSteps(init), TurnSteps(last));
      TurnIsItsSteps(PassRun(s, init), last);
    }
  }

  /** What one turn may add to the loads. */
  function LoadOf(request: Request, taken: bool): seq<Load> {
    if taken then [Load(request.slot, request.opts.tag, Io)] else []
  }

  /** The loads of the requests that the job queue took on during a pass, in order. */
  function LoadsTaken(s: State, priority: Priority, queue: seq<Request>, outcomes: seq<Outcome>): seq<Load>
    requires |outcomes| <= |queue|
  {
    if outcomes == [] then [] else
    var n := |outcomes| - 1;
    var before := PassRun(s, outcomes[..n]);
    LoadsTaken(s, priority, queue, outcomes[..n])
      + LoadOf(queue[n], !Throttled(s.budgetMs, s.budget, priority, queue[n])
          && queue[n].slot < |before.slots| && TakenOn(before.slots[queue[n].slot], outcomes[n]))
  }

  /** The turn of a request that is put off. */
  lemma {:induction false} ThrottledTurn(s: State, priority: Priority, remaining: nat, queue: seq<Request>,
      outcome: Outcome)
    requires s.lock == Scanning(priority, remaining) && remaining > 0 && s.queues.Of(priority) == queue != []
    requires Throttled(s.budgetMs, s.budget, priority, queue[0])
    ensures var next := Turn(s, outcome);
      && next.lock == Scanning(priority, remaining - 1)
      && next.queues == s.queues.With(priority, queue[1..] + [queue[0]])
      && next.budget == s.budget.Throttle(queue[0].opts.tag) && next.budgetMs == s.budgetMs
      && next.slots == s.slots && next.loads == s.loads
  {
    var scanned := Next(s, Scan);
    assert scanned == ScanNext(s) && scanned.lock.Scanning?;
    assert Turn(s, outcome) == scanned;
  }

  /** The turn of a request that is tried. */
  lemma {:induction false} TriedTurn(s: State, priority: Priority, remaining: nat, queue: seq<Request>,
      outcome: Outcome)
    requires s.lock == Scanning(priority, remaining) && remaining > 0 && s.queues.Of(priority) == queue != []
    requires !Throttled(s.budgetMs, s.budget, priority, queue[0]) && queue[0].slot < |s.slots|
    ensures var next := Turn(s, outcome); var slot := s.slots[queue[0].slot];
      && next.lock == Scanning(priority, remaining - 1)
      && next.queues == s.queues.With(priority, queue[1..] + (if Refused(slot, outcome) then [queue[0]] else []))
      && next.budget == s.budget && next.budgetMs == s.budgetMs
      && next.slots == s.slots[queue[0].slot := Dispatched(slot, outcome)]
      && next.loads == s.loads + LoadOf(queue[0], TakenOn(slot, outcome))
  {
    hide Dispatch, ScanNext;
    var scanned, slot := Next(s, Scan), s.slots[queue[0].slot];
    ScanPops(s, priority, remaining, queue);
    DispatchInSteps(scanned, outcome);
    DispatchQueues(scanned, outcome);
    WithTwice(s.queues, priority, queue[1..], queue[1..] + (if Refused(slot, outcome) then [queue[0]] else []));
  }

  lemma {:induction false} ScanPops(s: State, priority: Priority, remaining: nat, queue: seq<Request>)
    requires s.lock == Scanning(priority, remaining) && remaining > 0 && s.queues.Of(priority) == queue != []
    requires !Throttled(s.budgetMs, s.budget, priority, queue[0])
    ensures Next(s, Scan) == s.(queues := s.queues.With(priority, queue[1..]),
                                lock := Dispatching(priority, remaining - 1, queue[0], Popped))
  {
  }

  /** The turn of the front request: it goes behind what was kept so far, or leaves the queue. */
  lemma {:induction false} FrontTurn(s: State, priority: Priority, remaining: nat,
      request: Request, rest: seq<Request>, kept: seq<Request>, outcome: Outcome)
    requires s.lock == Scanning(priority, remaining) && remaining > 0
    requires s.queues.Of(priority) == [request] + rest + kept && request.slot < |s.slots|
    ensures var next := Turn(s, outcome); var throttled := Throttled(s.budgetMs, s.budget, priority, request);
      && next.lock == Scanning(priority, remaining - 1)
      && next.queues == s.queues.With(priority, rest + (kept
           + (if throttled || Refused(s.slots[request.slot], outcome) then [request] else [])))
      && next.budget == (if throttled then s.budget.Throttle(request.opts.tag) else s.budget)
      && next.budgetMs == s.budgetMs && |next.slots| == |s.slots|
      && next.loads == s.loads + LoadOf(request, !throttled && TakenOn(s.slots[request.slot], outcome))
  {
    hide Turn;
    var queue := [request] + rest + kept;
    assert queue[0] == request && queue[1..] == rest + kept;
    Appended(rest, kept, [request]);
    Grown(rest + kept);
    Grown(kept);
    Grown(s.loads);
    if Throttled(s.budgetMs, s.budget, priority, request) {
      ThrottledTurn(s, priority, remaining, queue, outcome);
    } else {
      TriedTurn(s, priority, remaining, queue, outcome);
    }
  }

  lemma {:induction false} PassTurn(budgetMs: U64, budget: Budget, before: Budget, priority: Priority,
      queue: seq<Request>, refused: seq<bool>, n: nat)
    requires n < |queue| && |refused| == n + 1
    requires before == AfterPass(queue[..n], budgetMs, budget, priority)
    ensures Throttled(budgetMs, before, priority, queue[n]) == Throttled(budgetMs, budget, priority, queue[n])
    ensures var throttled := Throttled(budgetMs, before, priority, queue[n]);
      && Kept(queue[..n + 1], refused, budgetMs, budget, priority)
           == Kept(queue[..n], refused[..n], budgetMs, budget, priority)
                + (if throttled || refused[n] then [queue[n]] else [])
      && AfterPass(queue[..n + 1], budgetMs, budget, priority)
           == (if throttled then before.Throttle(queue[n].opts.tag) else before)
  {
    assert queue[..n + 1][..n] == queue[..n];
    PassCounts(queue[..n], budgetMs, budget, priority, queue[n].opts.tag);
  }

  /**
   * The drain's single steps over one queue leave it, and the budget, as the scheduler's pass does, when the
   * job queue's refusals are the same, leave the other queues alone, and add the loads taken on.
   */
  lemma {:induction false} PassIsRun(s: State, priority: Priority, queue: seq<Request>, outcomes: seq<Outcome>)
    requires s.lock == Scanning(priority, |queue|) && s.queues.Of(priority) == queue && Known(queue, |s.slots|)
    requires |outcomes| <= |queue|
    ensures var done := |outcomes|; var refused := Refusals(s, queue, outcomes); var next := PassRun(s, outcomes);
      && next.lock == Scanning(priority, |queue| - done)
      && next.queues == s.queues.With(priority,
           queue[done..] + Kept(queue[..done], refused, s.budgetMs, s.budget, priority))
      && next.budget == AfterPass(queue[..done], s.budgetMs, s.budget, priority)
      && next.budgetMs == s.budgetMs && |next.slots| == |s.slots|
      && next.loads == s.loads + LoadsTaken(s, priority, queue, outcomes)
  {
    hide Turn;
    if outcomes == [] {
      Grown(queue);
      Grown(s.loads);
      assert queue[..0] == [];
      WithTwice(s.queues, priority, queue, queue);
    } else {
      var n := |outcomes| - 1;
      PassIsRun(s, priority, queue, outcomes[..n]);
      var before, refused := PassRun(s, outcomes[..n]), Refusals(s, queue, outcomes);
      var earlier := Refusals(s, queue, outcomes[..n]);
      assert refused[..n] == earlier;
      HeadAndRest(queue[n..]);
      assert queue[n..][1..] == queue[n + 1..];
      var kept := Kept(queue[..n], earlier, s.budgetMs, s.budget, priority);
      WithTwice(s.queues, priority, queue[n..] + kept,
        queue[n + 1..] + Kept(queue[..n + 1], refused, s.budgetMs, s.budget, priority));
      FrontTurn(before, priority, |queue| - n, queue[n], queue[n + 1..], kept, outcomes[n]);
      PassTurn(s.budgetMs, s.budget, before.budget, priority, queue, refused, n);
      Appended(s.loads, LoadsTaken(s, priority, queue, outcomes[..n]),
        LoadOf(queue[n], !Throttled(s.budgetMs, s.budget, priority, queue[n])
          && TakenOn(before.slots[queue[n].slot], outcomes[n])));
    }
  }

  /** What a pass over a whole queue leaves, and what it adds. */
  ghost predicate Passed(s: State, priority: Priority, outcomes: seq<Outcome>, next: State)
    requires |outcomes| == |s.queues.Of(priority)|
  {
    var queue := s.queues.Of(priority);
    && next.queues
         == s.queues.With(priority, Kept(queue, Refusals(s, queue, outcomes), s.budgetMs, s.budget, priority))
    && next.budget == AfterPass(queue, s.budgetMs, s.budget, priority)
    && next.loads == s.loads + LoadsTaken(s, priority, queue, outcomes)
    && next.budgetMs == s.budgetMs && |next.slots| == |s.slots|
  }

  /** A whole pass: what `Scheduler.ScheduleQueue` specifies is what the run of its steps leaves. */
  lemma {:induction false} SchedulePassIsRun(s: State, priority: Priority, outcomes: seq<Outcome>)
    requires var queue := s.queues.Of(priority);
      s.lock == Scanning(priority, |queue|) && |outcomes| == |queue| && Known(queue, |s.slots|)
    ensures var next := Execute(s, PassSteps(outcomes));
      next.lock == Scanning(priority, 0) && Passed(s, priority, outcomes, next)
  {
    hide Next;
    var queue := s.queues.Of(priority);
    PassRunIsARun(s, outcomes);
    PassIsRun(s, priority, queue, outcomes);
    assert queue[..|queue|] == queue && queue[|queue|..] == [];
    Grown(Kept(queue, Refusals(s, queue, outcomes), s.budgetMs, s.budget, priority));
  }

  // ----- A whole drain -----

  /** The lock is taken, each queue is passed over and left, most urgent first. */
  function DrainSteps(high: seq<Outcome>, normal: seq<Outcome>, low: seq<Outcome>): seq<Step> {
    [BeginDrain] + (PassSteps(high) + [Scan]) + (PassSteps(normal) + [Scan]) + (PassSteps(low) + [Scan])
  }

  /** A pass over a queue, and the step that leaves it. */
  lemma {:induction false} PassAndLeave(s: State, priority: Priority, outcomes: seq<Outcome>, after: Lock)
    returns (next: State)
    requires var queue := s.queues.Of(priority);
      s.lock == Scanning(priority, |queue|) && |outcomes| == |queue| && Known(queue, |s.slots|)
    requires match priority
      case High => after == Scanning(Normal, |s.queues.normal|)
      case Normal => after == Scanning(Low, |s.queues.low|)
      case Low => after == Free
    ensures next == Execute(s, PassSteps(outcomes) + [Scan])
    ensures next.lock == after && Passed(s, priority, outcomes, next)
  {
    var passed := Execute(s, PassSteps(outcomes));
    SchedulePassIsRun(s, priority, outcomes);
    ExecuteJoins(s, PassSteps(outcomes), [Scan]);
    assert [Scan][1..] == [];
    assert Execute(passed, [Scan]) == Next(passed, Scan);
    next := Next(passed, Scan);
  }

  /**
   * A whole drain, from a free lock to a free lock: each of the three queues is left as one pass leaves it, and
   * the budget is what the passes over the high, normal and low queue make of it in this order. The loads taken
   * on come in the same order.
   */
  lemma {:induction false} DrainIsThreePasses(
      s: State, high: seq<Outcome>, normal: seq<Outcome>, low: seq<Outcome>)
    returns (atHigh: State, atNormal: State, atLow: State)
    requires s.lock.Free?
    requires |high| == |s.queues.high| && Known(s.queues.high, |s.slots|)
    requires |normal| == |s.queues.normal| && Known(s.queues.normal, |s.slots|)
    requires |low| == |s.queues.low| && Known(s.queues.low, |s.slots|)
    ensures atHigh == Execute(s, [BeginDrain]) && atHigh.queues == s.queues
    ensures atNormal == Execute(s, [BeginDrain] + (PassSteps(high) + [Scan]))
    ensures atNormal.queues.normal == s.queues.normal
    ensures atLow == Execute(s, [BeginDrain] + (PassSteps(high) + [Scan]) + (PassSteps(normal) + [Scan]))
    ensures atLow.queues.low == s.queues.low
    ensures var after := Execute(s, DrainSteps(high, normal, low)); var ms := s.budgetMs;
      var budget1 := AfterPass(s.queues.high, ms, s.budget, High);
      var budget2 := AfterPass(s.queues.normal, ms, budget1, Normal);
      && after.lock == Free
      && after.queues.high == Kept(s.queues.high, Refusals(atHigh, s.queues.high, high), ms, s.budget, High)
      && after.queues.normal == Kept(s.queues.normal, Refusals(atNormal, s.queues.normal, normal), ms, budget1, Normal)
      && after.queues.low == Kept(s.queues.low, Refusals(atLow, s.queues.low, low), ms, budget2, Low)
      && after.budget == AfterPass(s.queues.low, ms, budget2, Low)
      && after.loads == s.loads + LoadsTaken(atHigh, High, s.queues.high, high)
           + LoadsTaken(atNormal, Normal, s.queues.normal, normal) + LoadsTaken(atLow, Low, s.queues.low, low)
  {
    hide Next, ScanNext;
    atHigh := Next(s, BeginDrain);
    Begun(s);
    atNormal := PassAndLeave(atHigh, High, high, Scanning(Normal, |s.queues.normal|));
    atLow := PassAndLeave(atNormal, Normal, normal, Scanning(Low, |s.queues.low|));
    var last := PassAndLeave(atLow, Low, low, Free);
    var first, second, third := PassSteps(high) + [Scan], PassSteps(normal) + [Scan], PassSteps(low) + [Scan];
    ExecuteJoins(s, [BeginDrain], first);
    ExecuteJoins(s, [BeginDrain] + first, second);
    ExecuteJoins(s, [BeginDrain] + first + second, third);
  }

  lemma {:induction false} Begun(s: State)
    requires s.lock.Free?
    ensures Next(s, BeginDrain) == s.(lock := Scanning(High, |s.queues.high|))
    ensures Execute(s, [BeginDrain]) == Next(s, BeginDrain)
  {
    assert [BeginDrain][1..] == [];
  }

  // ----- Throttling over runs -----

  predicate HeldThroughout(s: State, steps: seq<Step>)
    decreases |steps|
  {
    steps == [] || (!s.lock.Free? && HeldThroughout(Next(s, steps[0]), steps[1..]))
  }

  lemma {:induction false} HeldStepSpendsNothing(s: State, step: Step)
    requires !s.lock.Free?
    ensures Next(s, step).budgetMs == s.budgetMs && Next(s, step).budget.SameSpending(s.budget)
  {
  }

  /** As long as a drain holds the lock, what was spent and the limit do not change: every verdict is constant. */
  lemma {:induction false} VerdictIsConstantDuringDrain(s: State, steps: seq<Step>, priority: Priority, tag: Tag)
    requires HeldThroughout(s, steps)
    ensures var after := Execute(s, steps);
      ShouldThrottle(after.budgetMs, after.budget, priority, tag)
      == ShouldThrottle(s.budgetMs, s.budget, priority, tag)
    decreases |steps|
  {
    if steps != [] {
      HeldStepSpendsNothing(s, steps[0]);
      VerdictIsConstantDuringDrain(Next(s, steps[0]), steps[1..], priority, tag);
    }
  }

  /** Boot work is put off in no run at all. */
  lemma {:induction false} BootIsNeverThrottled(s: State, steps: seq<Step>)
    requires s.budget.throttledBoot == 0
    ensures Execute(s, steps).budget.throttledBoot == 0
    decreases |steps|
  {
    if steps != [] {
      BootIsNeverThrottled(Next(s, steps[0]), steps[1..]);
    }
  }
}
