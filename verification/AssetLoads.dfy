/** What requests, completions and ticks mean for the runs of the asset manager. */
module AssetLoads {
  import opened Results
  import opened Sequences
  import opened Words
  import opened AssetSlot
  import opened AssetManager
  import opened AssetRuns

  // ----- Requests, purges and the slots of keys -----

  /** The first request of a key gives it a slot of its own: queued with its path, or failed with the reason. */
  lemma {:induction false} FirstRequest(s: State, key: string, kind: nat, lookup: Lookup, opts: Opts)
    requires s.lock.Free? && key !in s.entries
    ensures var next, id := Next(s, RequestAsset(key, kind, lookup, opts)), |s.slots|;
      && next.entries == s.entries[key := id]
      && |next.slots| == id + 1 && next.slots[..id] == s.slots && next.slots[id].kind == kind
      && next.slots[id].value.None? && next.slots[id].version == 0
      && match lookup
         case Resolved(path) =>
           && next.slots[id].status.Queued? && next.slots[id].pending && !next.slots[id].inFlight
           && next.slots[id].resolved == Some(path) && next.slots[id].error.None? && !next.slots[id].cancelled
           && next.queues
                == s.queues.With(opts.priority, s.queues.Of(opts.priority) + [AssetManager.Request(id, opts)])
         case Unresolved(error) => FailedAtOnce(next.slots[id], error) && next.queues == s.queues
         case Rejected => FailedAtOnce(next.slots[id], NotValidForType(key)) && next.queues == s.queues
  {
  }

  /** Failed with a reason, and nothing will ever be done for it. */
  predicate FailedAtOnce(slot: Slot, error: Error) {
    slot.status.Failed? && slot.error == Some(error) && !slot.UnderWay() && slot.resolved.None? && !slot.cancelled
  }

  /** Any further request of the key finds that slot; one of another kind gets a failed slot that no key leads to. */
  lemma {:induction false} FurtherRequest(s: State, key: string, kind: nat, lookup: Lookup, opts: Opts)
    requires s.lock.Free? && EntriesOk(s) && key in s.entries
    ensures var next, id := Next(s, RequestAsset(key, kind, lookup, opts)), |s.slots|;
      if s.slots[s.entries[key]].kind == kind then next == s
      else
        && |next.slots| == id + 1 && next == s.(slots := s.slots + [next.slots[id]])
        && next.slots[id].kind == kind && FailedAtOnce(next.slots[id], WrongKind)
  {
  }

  /** A reload of a key without a slot is a request; one under way is left alone; any other starts again. */
  lemma {:induction false} ReloadIs(s: State, key: string, kind: nat, path: string, opts: Opts)
    requires s.lock.Free? && EntriesOk(s)
    ensures var next := Next(s, ReloadAsset(key, kind, Resolved(path), opts));
      if key !in s.entries then next == Next(s, RequestAsset(key, kind, Resolved(path), opts))
      else
        var id := s.entries[key]; var slot := s.slots[id];
        if slot.kind != kind || slot.UnderWay() then next == s
        else
          && next.slots == s.slots[id := After(slot, Reload(path))] && next.entries == s.entries
          && next.queues
               == s.queues.With(opts.priority, s.queues.Of(opts.priority) + [AssetManager.Request(id, opts)])
  {
  }

  /** What a reload makes of a slot: queued without an error or a cancellation, its value as it was. */
  lemma {:induction false} ReloadedIs(slot: Slot, path: string)
    ensures var after := After(slot, Reload(path));
      && after.status.Queued? && after.pending && !after.inFlight && after.error.None? && !after.cancelled
      && after.resolved == Some(path) && after.value == slot.value && after.version == slot.version
      && after.kind == slot.kind
  {
  }

  /** A purged key has no slot any more; the slot has failed, with whatever value it had. */
  lemma {:induction false} PurgeForgets(s: State, key: string)
    requires s.lock.Free? && EntriesOk(s) && key in s.entries
    ensures var next, id := Next(s, PurgeAsset(key)), s.entries[key];
      && key !in next.entries && (forall k :: k in s.entries && k != key ==> k in next.entries)
      && (forall k :: k in next.entries ==> k in s.entries && next.entries[k] == s.entries[k])
      && next.slots[id].status.Failed? && next.slots[id].error == Some(PurgedAsset)
      && next.slots[id].value == s.slots[id].value && next.queues == s.queues && next.loads == s.loads
  {
  }

  /** No two keys lead to the same slot. */
  ghost predicate OwnSlots(s: State) {
    && EntriesOk(s)
    && forall j, k :: j in s.entries && k in s.entries && s.entries[j] == s.entries[k] ==> j == k
  }

  lemma {:induction false} StepKeepsOwnSlots(s: State, step: Step)
    requires OwnSlots(s)
    ensures OwnSlots(Next(s, step))
  {
    if Enabled(s, step) {
      StepKeepsEntries(s, step);
      if !step.RequestAsset? && !step.ReloadAsset? && !step.PurgeAsset? {
        OtherStepsKeepEntries(s, step);
      }
    }
  }

  lemma {:induction false} RunKeepsOwnSlots(s: State, steps: seq<Step>)
    requires OwnSlots(s)
    ensures OwnSlots(Execute(s, steps))
    decreases |steps|
  {
    if steps != [] {
      StepKeepsOwnSlots(s, steps[0]);
      RunKeepsOwnSlots(Next(s, steps[0]), steps[1..]);
    }
  }

  /** In every run, different keys have different slots. */
  lemma {:induction false} KeysHaveOwnSlots(budgetMs: U64, steps: seq<Step>)
    ensures OwnSlots(Execute(Initial(budgetMs), steps))
  {
    RunKeepsOwnSlots(Initial(budgetMs), steps);
  }

  // ----- The two completions of a load -----

  /** What the completion of the reading makes of the slot; `cpu` is the answer to handing the bytes on. */
  function AfterReading(slot: Slot, failure: Option<Error>, cpu: Outcome): Slot {
    if failure.Some? then slot.Failing(failure.value)
    else if slot.cancelled then slot.Failing(Cancelled)
    else if cpu.Ok? then slot
    else slot.Failing(CpuQueueError)
  }

  /** The bytes were handed on to be decoded. */
  predicate HandedOn(slot: Slot, failure: Option<Error>, cpu: Outcome) {
    failure.None? && !slot.cancelled && cpu.Ok?
  }

  method CompleteReading(slot: SharedSlot, failure: Option<Error>, cpu: Outcome) returns (decoding: bool)
    modifies slot
    ensures slot.Snapshot() == AfterReading(old(slot.Snapshot()), failure, cpu)
    ensures decoding <==> HandedOn(old(slot.Snapshot()), failure, cpu)
  {
    if failure.Some? {
      slot.Fail(failure.value);
      return false;
    }
    if slot.cancelled {
      slot.Fail(Cancelled);
      return false;
    }
    if !cpu.Ok? {
      slot.Fail(CpuQueueError);
      return false;
    }
    return true;
  }

  function AfterDecoding(slot: Slot, decoded: Result<nat, Error>): Slot {
    if decoded.Ok? then slot.Finished(decoded.value) else slot.Failing(decoded.error)
  }

  method CompleteDecoding(slot: SharedSlot, decoded: Result<nat, Error>)
    modifies slot
    ensures slot.Snapshot() == AfterDecoding(old(slot.Snapshot()), decoded)
  {
    match decoded
    case Ok(value) => slot.Finish(value);
    case Err(error) => slot.Fail(error);
  }

  function ReadingSteps(i: nat, failure: Option<Error>, cpu: Outcome): seq<Step> {
    if failure.Some? then [IoFailed(i, failure.value)] else [IoRead(i), IoSettle(i, cpu)]
  }

  /** The steps of the first completion, in a row, do what the completion does; the load goes on or is over. */
  lemma {:induction false} ReadingInSteps(s: State, i: nat, failure: Option<Error>, cpu: Outcome)
    requires i < |s.loads| && s.loads[i].stage == Io && s.loads[i].slot < |s.slots|
    ensures var id := s.loads[i].slot;
      Execute(s, ReadingSteps(i, failure, cpu)) == s.(
        slots := s.slots[id := AfterReading(s.slots[id], failure, cpu)],
        loads := if HandedOn(s.slots[id], failure, cpu) then s.loads[i := Load(id, s.loads[i].tag, Cpu)]
                 else Without(s.loads, i))
  {
    var id := s.loads[i].slot;
    if failure.Some? {
      assert [IoFailed(i, failure.value)][1..] == [];
      assert Execute(s, [IoFailed(i, failure.value)]) == Next(s, IoFailed(i, failure.value));
    } else {
      ExecutePair(s, IoRead(i), IoSettle(i, cpu));
      var read := Next(s, IoRead(i));
      assert Without(read.loads, i) == Without(s.loads, i);
      assert HandedOn(s.slots[id], failure, cpu) ==> s.slots[id := s.slots[id]] == s.slots;
    }
  }

  function DecodingStep(i: nat, decoded: Result<nat, Error>, ms: U64): Step {
    if decoded.Ok? then CpuDecoded(i, decoded.value, ms) else CpuFailed(i, decoded.error, ms)
  }

  /** The second completion ends the load, and books its time under the load's tag. */
  lemma {:induction false} DecodingIsStep(s: State, i: nat, decoded: Result<nat, Error>, ms: U64)
    requires i < |s.loads| && s.loads[i].stage == Cpu && s.loads[i].slot < |s.slots|
    ensures var id := s.loads[i].slot;
      Next(s, DecodingStep(i, decoded, ms)) == s.(
        slots := s.slots[id := AfterDecoding(s.slots[id], decoded)],
        loads := Without(s.loads, i),
        spending := s.spending + [Spending(s.loads[i].tag, ms)])
  {
  }

  /** A load of a slot that is not cancelled can always come to its end: the slot is ready with what was decoded. */
  lemma {:induction false} LoadCanFinish(s: State, i: nat, value: nat, ms: U64)
    requires i < |s.loads| && s.loads[i].stage == Io && s.loads[i].slot < |s.slots|
    requires !s.slots[s.loads[i].slot].cancelled
    ensures var id := s.loads[i].slot;
      var after := Execute(s, [IoRead(i), IoSettle(i, Outcome.Ok), CpuDecoded(i, value, ms)]);
      && |after.slots| == |s.slots|
      && after.slots[id].status.Ready? && after.slots[id].value == Some(value) && !after.slots[id].UnderWay()
      && after.loads == Without(s.loads, i)
  {
    var last := CpuDecoded(i, value, ms);
    var handed := Execute(s, [IoRead(i), IoSettle(i, Outcome.Ok)]);
    ReadingInSteps(s, i, None, Outcome.Ok);
    DecodingIsStep(handed, i, Result.Ok(value), ms);
    assert [IoRead(i), IoSettle(i, Outcome.Ok), last] == [IoRead(i), IoSettle(i, Outcome.Ok)] + [last];
    ExecuteJoins(s, [IoRead(i), IoSettle(i, Outcome.Ok)], [last]);
    assert [last][1..] == [];
    assert Execute(handed, [last]) == Next(handed, last);
    assert Without(handed.loads, i) == Without(s.loads, i);
  }

  /**
   * Cancelling a reload that is being read leaves the slot ready with its earlier value; the completion of the
   * reading, if the job was not withdrawn before, then marks it failed, although the value is still there.
   */
  lemma {:induction false} CancelledReloadEndsFailed(s: State, i: nat, failure: Option<Error>, cpu: Outcome)
    requires i < |s.loads| && s.loads[i].stage == Io && s.loads[i].slot < |s.slots|
    requires var slot := s.slots[s.loads[i].slot]; slot.Ok() && slot.inFlight && slot.retain
    ensures var id := s.loads[i].slot;
      var cancelled := CancelNext(s, id); var after := Execute(cancelled, ReadingSteps(i, failure, cpu));
      && |cancelled.slots| == |after.slots| == |s.slots|
      && cancelled.slots[id].status.Ready? && cancelled.slots[id].value == s.slots[id].value
      && after.slots[id].status.Failed? && after.slots[id].value == s.slots[id].value && s.slots[id].value.Some?
  {
    ReadingInSteps(CancelNext(s, s.loads[i].slot), i, failure, cpu);
  }

  /** Whatever stage a load is in, there is a step that takes it further, and two steps at most that end it. */
  lemma {:induction false} EveryLoadCanEnd(s: State, i: nat, error: Error) returns (step: Step)
    requires i < |s.loads| && s.loads[i].slot < |s.slots|
    ensures Next(s, step).loads == Without(s.loads, i)
    ensures step != DropLoad(i)
  {
    match s.loads[i].stage
    case Io => step := IoFailed(i, error);
    case Wanted => step := IoSettle(i, Closed);
    case Unwanted => step := IoSettle(i, Closed);
    case Cpu => step := CpuFailed(i, error, 0);
  }

  /** A job can be withdrawn exactly while it waits or runs, not in one of its completions. */
  lemma {:induction false} DropIs(s: State, i: nat)
    requires i < |s.loads|
    ensures Next(s, DropLoad(i)) == if s.loads[i].stage == Io || s.loads[i].stage == Cpu
      then s.(loads := Without(s.loads, i)) else s
  {
    if s.loads[i].stage != Io && s.loads[i].stage != Cpu {
      assert !Enabled(s, DropLoad(i));
    }
  }

  // ----- The time of a tick -----

  /** The decodes that ended during a run, in order, each with its load's tag. */
  function DecodedIn(s: State, steps: seq<Step>): seq<Spending>
    decreases |steps|
  {
    if steps == [] then [] else DecodedBy(s, steps[0]) + DecodedIn(Next(s, steps[0]), steps[1..])
  }

  function DecodedBy(s: State, step: Step): seq<Spending> {
    if (step.CpuDecoded? || step.CpuFailed?) && step.load < |s.loads| && s.loads[step.load].slot < |s.slots|
       && s.loads[step.load].stage == Cpu
    then [Spending(s.loads[step.load].tag, step.ms)] else []
  }

  /** The decodes whose time was recorded during a run. */
  function RecordedIn(s: State, steps: seq<Step>): seq<Spending>
    decreases |steps|
  {
    if steps == [] then [] else RecordedBy(s, steps[0]) + RecordedIn(Next(s, steps[0]), steps[1..])
  }

  function RecordedBy(s: State, step: Step): seq<Spending> {
    if step.RecordSpent? && s.lock.Free? && s.spending != [] then [s.spending[0]] else []
  }

  lemma {:induction false} OthersSpendNothing(s: State, step: Step)
    requires !step.CpuDecoded? && !step.CpuFailed? && !step.RecordSpent?
    ensures Next(s, step).spending == s.spending
  {
  }

  lemma {:induction false} StepBooksTime(s: State, step: Step)
    ensures s.spending + DecodedBy(s, step) == RecordedBy(s, step) + Next(s, step).spending
  {
    Grown(s.spending);
    if !step.CpuDecoded? && !step.CpuFailed? && !step.RecordSpent? {
      OthersSpendNothing(s, step);
    } else if RecordedBy(s, step) != [] {
      HeadAndRest(s.spending);
    }
  }

  /** Every decode's time is recorded once, in the order in which the decodes ended, or still waits to be. */
  lemma {:induction false} TimeIsRecordedOnce(s: State, steps: seq<Step>)
    ensures s.spending + DecodedIn(s, steps) == RecordedIn(s, steps) + Execute(s, steps).spending
    decreases |steps|
  {
    if steps == [] {
      Grown(s.spending);
    } else {
      hide Next, DecodedBy, RecordedBy;
      var next, rest := Next(s, steps[0]), steps[1..];
      StepBooksTime(s, steps[0]);
      TimeIsRecordedOnce(next, rest);
      Appended(s.spending, DecodedBy(s, steps[0]), DecodedIn(next, rest));
      Appended(RecordedBy(s, steps[0]), next.spending, DecodedIn(next, rest));
      Appended(RecordedBy(s, steps[0]), RecordedIn(next, rest), Execute(next, rest).spending);
    }
  }

  function SumFor(spent: seq<Spending>, tag: Tag): nat {
    if spent == [] then 0 else (if spent[0].tag == tag then spent[0].ms else 0) + SumFor(spent[1..], tag)
  }

  predicate NoTick(steps: seq<Step>) {
    forall i :: 0 <= i < |steps| ==> !steps[i].BeginTick?
  }

  /** What was spent under a tag grew by `ms`, up to its width. */
  ghost predicate Grew(before: Budget, after: Budget, tag: Tag, ms: nat) {
    SpentOn(after, tag) == Saturated(SpentOn(before, tag) + ms)
  }

  lemma {:induction false} GrewTwice(before: Budget, between: Budget, after: Budget, tag: Tag, first: nat, second: nat)
    requires Grew(before, between, tag, first) && Grew(between, after, tag, second)
    ensures Grew(before, after, tag, first + second)
  {
  }

  lemma {:induction false} StepSpends(s: State, step: Step, tag: Tag)
    requires !step.BeginTick?
    ensures Grew(s.budget, Next(s, step).budget, tag, SumFor(RecordedBy(s, step), tag))
  {
  }

  /** Within a tick, what was spent under a tag grows by exactly the time recorded for it, up to its width. */
  lemma {:induction false} SpendingAddsUp(s: State, steps: seq<Step>, tag: Tag)
    requires NoTick(steps)
    ensures Grew(s.budget, Execute(s, steps).budget, tag, SumFor(RecordedIn(s, steps), tag))
    decreases |steps|
  {
    if steps != [] {
      hide Next, RecordedBy, Grew, SumFor;
      var next, rest := Next(s, steps[0]), steps[1..];
      var now, later := RecordedBy(s, steps[0]), RecordedIn(next, rest);
      assert !steps[0].BeginTick?;
      StepSpends(s, steps[0], tag);
      SpendingAddsUp(next, rest, tag);
      SumJoins(now, later, tag);
      GrewTwice(s.budget, next.budget, Execute(next, rest).budget, tag, SumFor(now, tag), SumFor(later, tag));
    }
  }

  lemma {:induction false} SumJoins(a: seq<Spending>, b: seq<Spending>, tag: Tag)
    ensures SumFor(a + b, tag) == SumFor(a, tag) + SumFor(b, tag)
  {
    if a == [] {
      Grown(b);
    } else {
      SumJoins(a[1..], b, tag);
      assert (a + b)[1..] == a[1..] + b;
    }
  }

  /** A tick forgets what was spent and put off; a new limit holds from the next verdict on. */
  lemma {:induction false} TickAndLimit(s: State, ms: U64, tag: Tag)
    requires s.lock.Free?
    ensures SpentOn(Next(s, BeginTick).budget, tag) == 0 && Next(s, BeginTick).budget.Throttled(tag) == 0
    ensures Next(s, SetBudget(ms)) == s.(budgetMs := ms)
  {
  }
}
