/** The life of one asset slot: queued, loading, ready or failed, with the value of an earlier load retained. */
module AssetSlot {
  import opened Results
  import opened Words

  datatype Status = Queued | Loading | Ready | Failed

  /** The error messages of a slot. */
  datatype Error =
    | WrongKind
    | NotValidForType(key: string)
    | Cancelled
    | MissingPath
    | IoQueueError
    | CpuQueueError
    | PurgedAsset
    | Reported(message: string)

  /** A snapshot of a slot; `accepted`, `finishes` and `fails` only count what happened to it. */
  datatype Slot = Slot(
    kind: nat,
    status: Status,
    value: Option<nat>,
    error: Option<Error>,
    version: U64,
    pending: bool,
    inFlight: bool,
    resolved: Option<string>,
    retain: bool,
    cancelled: bool,
    accepted: nat,
    finishes: nat,
    fails: nat)
  {
    /** A slot that never queues anything: the key was refused. */
    static function Refused(kind: nat, error: Error): Slot {
      Slot(kind, Failed, None, Some(error), 0, false, false, None, false, false, 0, 0, 0)
    }

    static function Requested(kind: nat, path: string): Slot {
      Slot(kind, Queued, None, None, 0, true, false, Some(path), false, false, 1, 0, 0)
    }

    function Reloaded(path: string): Slot {
      this.(pending := true, inFlight := false, status := Queued, error := None, resolved := Some(path),
            retain := value.Some?, cancelled := false, accepted := accepted + 1)
    }

    function MarkedLoading(): Slot {
      this.(status := Loading, pending := false, inFlight := true)
    }

    function MarkedQueued(): Slot {
      this.(status := Queued, pending := true, inFlight := false)
    }

    function Finished(decoded: nat): Slot {
      this.(value := Some(decoded), version := SatAdd(version, 1), error := None,
            status := Ready, inFlight := false, pending := false, retain := false, finishes := finishes + 1)
    }

    /** An accepted request or reload of this slot has had no outcome yet. */
    predicate UnderWay() {
      pending || inFlight
    }

    /** A failed reload keeps the earlier value and stays ready; only what was under way counts as failed. */
    function Failing(reason: Error): Slot {
      this.(error := Some(reason), status := if retain && value.Some? then Ready else Failed,
            inFlight := false, pending := false, retain := false, fails := fails + if UnderWay() then 1 else 0)
    }

    function Purged(): Slot {
      this.(status := Failed, error := Some(PurgedAsset))
    }

    /** What holds of a slot whenever nobody holds the manager's lock. */
    ghost predicate Ok() {
      && (status.Ready? ==> value.Some?)
      && (value.Some? <==> version > 0)
      && version == Saturated(finishes)
      && !(pending && inFlight)
      && (status.Loading? ==> inFlight)
      && (status.Queued? ==> pending)
      && (pending ==> status.Queued? || status.Failed?)
      && (inFlight ==> status.Loading? || status.Failed?)
      && (retain ==> value.Some?)
    }

    /** Every accepted request or reload is still under way or has had exactly one outcome. */
    ghost predicate Settled() {
      accepted == finishes + fails + (if pending then 1 else 0) + (if inFlight then 1 else 0)
    }

    /** What one transition may do to the value and the version. */
    ghost predicate Evolves(next: Slot) {
      && (value.Some? ==> next.value.Some?)
      && finishes <= next.finishes <= finishes + 1
      && (next.finishes == finishes ==> next.version == version && next.value == value)
      && (next.finishes == finishes + 1 && version < U64_LIMIT - 1 ==> next.version == version + 1)
    }

    /** What any number of transitions may do to them. */
    ghost predicate LivesOnAs(later: Slot) {
      (value.Some? ==> later.value.Some?) && version <= later.version && finishes <= later.finishes
    }
  }

  /** Every transition a slot can make, whoever makes it. */
  datatype Change =
    | Reload(path: string)
    | MarkLoading
    | MarkQueued
    | Finish(decoded: nat)
    | Fail(reason: Error)
    | Purge
    | SetCancelled

  function After(slot: Slot, change: Change): Slot {
    match change
    case Reload(path) => slot.Reloaded(path)
    case MarkLoading => slot.MarkedLoading()
    case MarkQueued => slot.MarkedQueued()
    case Finish(decoded) => slot.Finished(decoded)
    case Fail(reason) => slot.Failing(reason)
    case Purge => slot.Purged()
    case SetCancelled => slot.(cancelled := true)
  }

  function AfterAll(slot: Slot, changes: seq<Change>): Slot {
    if changes == [] then slot else After(AfterAll(slot, changes[..|changes| - 1]), changes[|changes| - 1])
  }

  /** What the failing half of a cancellation finds, when `between` happened since its first half. */
  function AfterGap(slot: Slot, between: seq<Change>): Slot {
    AfterAll(slot.(cancelled := true), between)
  }

  /** Whatever order the transitions come in, even with cancellations and stale dispatches, the slot stays sound. */
  lemma {:induction false} SlotStaysOk(slot: Slot, changes: seq<Change>)
    requires slot.Ok()
    ensures AfterAll(slot, changes).Ok()
  {
    if changes != [] {
      SlotStaysOk(slot, changes[..|changes| - 1]);
      ChangeKeepsOk(AfterAll(slot, changes[..|changes| - 1]), changes[|changes| - 1]);
    }
  }

  lemma {:induction false} ChangeKeepsOk(slot: Slot, change: Change)
    requires slot.Ok()
    ensures After(slot, change).Ok() && slot.Evolves(After(slot, change))
  {
  }

  lemma {:induction false} EvolvedLivesOn(slot: Slot, next: Slot)
    requires slot.Ok() && next.Ok() && slot.Evolves(next)
    ensures slot.LivesOnAs(next)
  {
  }

  /** A value that is present stays; the version counts the finishes since, up to the counter's width. */
  lemma {:induction false} ValueNeverDisappears(slot: Slot, changes: seq<Change>)
    requires slot.Ok()
    ensures slot.LivesOnAs(AfterAll(slot, changes))
  {
    if changes != [] {
      var init := changes[..|changes| - 1];
      ValueNeverDisappears(slot, init);
      SlotStaysOk(slot, init);
      ChangeKeepsOk(AfterAll(slot, init), changes[|changes| - 1]);
      EvolvedLivesOn(AfterAll(slot, init), AfterAll(slot, changes));
    }
  }

  /** The slot itself: each method runs under the slot's lock. */
  class SharedSlot {
    const kind: nat
    var status: Status
    var value: Option<nat>
    var error: Option<Error>
    var version: U64
    var pending: bool
    var inFlight: bool
    var resolved: Option<string>
    var retainOnFailure: bool
    var cancelled: bool
    ghost var accepted: nat
    ghost var finishes: nat
    ghost var fails: nat

    ghost function Snapshot(): Slot
      reads this
    {
      Slot(kind, status, value, error, version, pending, inFlight, resolved, retainOnFailure, cancelled,
           accepted, finishes, fails)
    }

    constructor (kind: nat, path: string)
      ensures Snapshot() == Slot.Requested(kind, path)
    {
      this.kind := kind;
      status, value, error, version := Queued, None, None, 0;
      pending, inFlight, resolved, retainOnFailure, cancelled := true, false, Some(path), false, false;
      accepted, finishes, fails := 1, 0, 0;
    }

    /** The part of a reload that resets the slot; refused while a request is under way. */
    method StartReload(path: string) returns (started: bool)
      modifies this
      ensures started == !(old(pending) || old(inFlight))
      ensures Snapshot() == if started then old(Snapshot()).Reloaded(path) else old(Snapshot())
    {
      if pending || inFlight {
        return false;
      }
      Reset(path);
      return true;
    }

    method Reset(path: string)
      modifies this
      ensures Snapshot() == old(Snapshot()).Reloaded(path)
    {
      pending, inFlight, status, error := true, false, Queued, None;
      resolved, retainOnFailure, cancelled := Some(path), value.Some?, false;
      accepted := accepted + 1;
    }

    method MarkLoading()
      modifies this
      ensures Snapshot() == old(Snapshot()).MarkedLoading()
    {
      status, pending, inFlight := Loading, false, true;
    }

    method MarkQueued()
      modifies this
      ensures Snapshot() == old(Snapshot()).MarkedQueued()
    {
      status, pending, inFlight := Queued, true, false;
    }

    method Finish(decoded: nat)
      modifies this
      ensures Snapshot() == old(Snapshot()).Finished(decoded)
    {
      value := Some(decoded);
      version := SatAdd(version, 1);
      error, status, inFlight, pending, retainOnFailure := None, Ready, false, false, false;
      finishes := finishes + 1;
    }

    method Fail(reason: Error)
      modifies this
      ensures Snapshot() == old(Snapshot()).Failing(reason)
    {
      var keepPrevious := retainOnFailure && value.Some?;
      error := Some(reason);
      status := if keepPrevious then Ready else Failed;
      fails := fails + if pending || inFlight then 1 else 0;
      inFlight, pending, retainOnFailure := false, false, false;
    }

    /** What other threads do to the slot while its lock is free. */
    method Others(changes: seq<Change>)
      modifies this
      ensures Snapshot() == AfterAll(old(Snapshot()), changes)
    {
      assert changes[..0] == [];
      for i := 0 to |changes|
        invariant Snapshot() == AfterAll(old(Snapshot()), changes[..i])
      {
        assert changes[..i + 1][..i] == changes[..i];
        Perform(changes[i]);
      }
      assert changes[..|changes|] == changes;
    }

    method Perform(change: Change)
      modifies this
      ensures Snapshot() == After(old(Snapshot()), change)
    {
      match change
      case Reload(path) => Reset(path);
      case MarkLoading => MarkLoading();
      case MarkQueued => MarkQueued();
      case Finish(decoded) => Finish(decoded);
      case Fail(reason) => Fail(reason);
      case Purge => status, error := Failed, Some(PurgedAsset);
      case SetCancelled => cancelled := true;
    }

    /**
     * Cancels: a slot that is ready keeps its value and status. Any other is failed, but only after its lock was
     * released once more, so that `between` may happen to it first.
     */
    method Cancel(between: seq<Change>)
      modifies this
      ensures old(status).Ready? ==> Snapshot() == old(Snapshot()).(cancelled := true)
      ensures !old(status).Ready? ==>
        Snapshot() == AfterGap(old(Snapshot()), between).Failing(Cancelled)
    {
      cancelled := true;
      if status != Ready {
        Others(between);
        Fail(Cancelled);
      }
    }
  }

  /** Neither a reload nor an outcome. */
  predicate Quiet(changes: seq<Change>) {
    forall i :: 0 <= i < |changes| ==>
      !changes[i].Reload? && !changes[i].Finish? && !changes[i].Fail?
  }

  lemma {:induction false} QuietKeeps(slot: Slot, changes: seq<Change>)
    requires Quiet(changes)
    ensures var after := AfterAll(slot, changes);
      after.value == slot.value && after.version == slot.version && after.retain == slot.retain
  {
    if changes != [] {
      QuietKeeps(slot, changes[..|changes| - 1]);
    }
  }

  /**
   * What a reload that fails leaves, whatever dispatches, purges and cancel flags come in between: a slot that had
   * a value is ready with this value and version, any other has failed; both keep the error and have nothing under
   * way.
   */
  lemma {:induction false} FailedReloadKeepsValue(slot: Slot, path: string, changes: seq<Change>, reason: Error)
    requires Quiet(changes)
    ensures var after := AfterAll(After(slot, Reload(path)), changes).Failing(reason);
      && after.status == (if slot.value.Some? then Ready else Failed)
      && after.value == slot.value && after.version == slot.version
      && after.error == Some(reason) && !after.UnderWay()
  {
    QuietKeeps(After(slot, Reload(path)), changes);
  }

  /** A first load that fails leaves nothing. */
  lemma {:induction false} FailedRequestHasNothing(kind: nat, path: string, changes: seq<Change>, reason: Error)
    requires Quiet(changes)
    ensures var after := AfterAll(Slot.Requested(kind, path), changes).Failing(reason);
      after.status.Failed? && after.value.None? && after.version == 0 && after.error == Some(reason)
  {
    QuietKeeps(Slot.Requested(kind, path), changes);
  }

  /** A load that finishes leaves its own value, one version further, ready and without an error. */
  lemma {:induction false} FinishedLoadIsReady(slot: Slot, path: string, changes: seq<Change>, decoded: nat)
    requires Quiet(changes)
    ensures var after := AfterAll(After(slot, Reload(path)), changes).Finished(decoded);
      && after.status.Ready? && after.value == Some(decoded) && after.error.None? && !after.UnderWay()
      && (slot.version < U64_LIMIT - 1 ==> after.version == slot.version + 1)
  {
    QuietKeeps(After(slot, Reload(path)), changes);
  }

  /** A failure after an outcome has nothing to fall back on: the slot has failed, although the value stays. */
  lemma {:induction false} SecondFailureFails(slot: Slot, changes: seq<Change>, first: Change, reason: Error)
    requires (first.Finish? || first.Fail?) && Quiet(changes)
    ensures var before := After(slot, first); var after := AfterAll(before, changes).Failing(reason);
      after.status.Failed? && after.value == before.value
  {
    QuietKeeps(After(slot, first), changes);
  }

  /** Whether something is under way after some changes: the last of them that opens or closes decides. */
  predicate StillOpen(changes: seq<Change>, start: bool) {
    if changes == [] then start else
    match changes[|changes| - 1]
    case Reload(_) => true
    case MarkLoading => true
    case MarkQueued => true
    case Finish(_) => false
    case Fail(_) => false
    case _ => StillOpen(changes[..|changes| - 1], start)
  }

  /** A reload among the changes has had no outcome among them: the last of reload, finish and fail is a reload. */
  predicate ReloadOpen(changes: seq<Change>) {
    if changes == [] then false else
    match changes[|changes| - 1]
    case Reload(_) => true
    case Finish(_) => false
    case Fail(_) => false
    case _ => ReloadOpen(changes[..|changes| - 1])
  }

  /** Only requests under way are dispatched or put back. */
  predicate Lawful(slot: Slot, changes: seq<Change>) {
    if changes == [] then true else
    var init, last := changes[..|changes| - 1], changes[|changes| - 1];
    && Lawful(slot, init)
    && (last.MarkLoading? || last.MarkQueued? ==> AfterAll(slot, init).UnderWay())
  }

  lemma {:induction false} UnderWayIff(slot: Slot, changes: seq<Change>)
    ensures AfterAll(slot, changes).UnderWay() <==> StillOpen(changes, slot.UnderWay())
  {
    if changes != [] {
      UnderWayIff(slot, changes[..|changes| - 1]);
    }
  }

  lemma {:induction false} AcceptedGrows(slot: Slot, changes: seq<Change>)
    ensures AfterAll(slot, changes).accepted >= slot.accepted
    ensures ReloadOpen(changes) ==> AfterAll(slot, changes).accepted > slot.accepted
  {
    if changes != [] {
      AcceptedGrows(slot, changes[..|changes| - 1]);
    }
  }

  lemma {:induction false} OpenReloadIsOpen(changes: seq<Change>, start: bool)
    ensures ReloadOpen(changes) ==> StillOpen(changes, start)
  {
    if changes != [] {
      OpenReloadIsOpen(changes[..|changes| - 1], start);
    }
  }

  /** What is under way after lawful changes without an open reload was under way before them. */
  lemma {:induction false} NothingNewOpen(slot: Slot, changes: seq<Change>)
    requires Lawful(slot, changes) && AfterAll(slot, changes).UnderWay() && !ReloadOpen(changes)
    ensures AfterAll(slot, changes).accepted == slot.accepted
  {
    if changes != [] {
      NothingNewOpen(slot, changes[..|changes| - 1]);
    }
  }

  /**
   * Whatever happens in the gap, the failing half of a cancellation fails one request exactly when one is still
   * open then.
   */
  lemma {:induction false} GapFailsIff(slot: Slot, between: seq<Change>)
    ensures var found := AfterGap(slot, between); var after := found.Failing(Cancelled);
      && after.fails == found.fails + (if StillOpen(between, slot.UnderWay()) then 1 else 0)
      && after.accepted == found.accepted && !after.UnderWay()
      && (ReloadOpen(between) ==> after.fails == found.fails + 1 && after.accepted > slot.accepted)
  {
    UnderWayIff(slot.(cancelled := true), between);
    AcceptedGrows(slot.(cancelled := true), between);
    OpenReloadIsOpen(between, slot.UnderWay());
  }

  /**
   * It fails a request accepted after the cancellation began exactly when a reload in the gap is still open, and
   * one accepted before exactly when something is open but no reload of the gap is.
   */
  lemma {:induction false} GapFailsLaterIff(slot: Slot, between: seq<Change>)
    requires Lawful(slot.(cancelled := true), between)
    ensures var found := AfterGap(slot, between); var failed := found.Failing(Cancelled).fails == found.fails + 1;
      && (failed && found.accepted > slot.accepted <==> ReloadOpen(between))
      && (failed && found.accepted == slot.accepted <==>
          StillOpen(between, slot.UnderWay()) && !ReloadOpen(between))
  {
    GapFailsIff(slot, between);
    UnderWayIff(slot.(cancelled := true), between);
    AcceptedGrows(slot.(cancelled := true), between);
    OpenReloadIsOpen(between, slot.UnderWay());
    if AfterGap(slot, between).UnderWay() && !ReloadOpen(between) {
      NothingNewOpen(slot.(cancelled := true), between);
    }
  }

  /** The shortest such gap: one reload of a slot that was neither ready nor under way. */
  lemma {:induction false} GapFailsReload(slot: Slot, path: string)
    requires slot.Ok() && !slot.UnderWay() && !slot.status.Ready?
    ensures Lawful(slot.(cancelled := true), [Reload(path)])
    ensures var after := AfterGap(slot, [Reload(path)]).Failing(Cancelled);
      && !after.pending && !after.status.Queued? && after.error == Some(Cancelled)
      && after.accepted == slot.accepted + 1 && after.fails == slot.fails + 1
  {
    assert [Reload(path)][..0] == [];
    assert AfterAll(slot.(cancelled := true), []) == slot.(cancelled := true);
  }
}
