/** Forks of one Snapshot racing its Close, snapshot.go and the reservations of live.go: the reader/writer pin on
    the backing and the fate of every lease.

    Every critical section, lock operation and environment call is one step, in any interleaving. */
module SnapshotForks {
  import opened ForkLedger

  /** What became of a call of forkReserved. */
  datatype Outcome =
    | Rejected              // closed, or the lease could not be activated; nothing was started
    | FailedClean           // startup failed and everything it allocated is gone
    | FailedPending         // startup failed with cleanup still owned by someone
    | Started               // a Database that owns the lease was returned

  datatype Phase =
    | Wanting               // blocked in RLock
    | Pinned                // holds the read lock
    | Starting              // startLeased is using the backing
    | Unlocking(outcome: Outcome)
    | Over(outcome: Outcome)

  datatype Call = Call(lease: LeaseId, phase: Phase)

  datatype Closer =
    | Entering              // before s.forkLimit().Close()
    | Queued                // wants the write lock, another writer is ahead
    | Announced             // waits for readers to leave; new readers wait behind it
    | Holding               // inside the critical section
    | Returned

  datatype State = State(
    ledger: Ledger,
    next: LeaseId,
    closed: bool,
    backingCloses: nat,
    calls: seq<Call>,
    closers: seq<Closer>)

  function Init(limit: nat): State { State(Ledger(limit, false, false, map[]), 0, false, 0, [], []) }

  predicate Reading(ph: Phase) { ph == Pinned || ph == Starting || ph.Unlocking? }

  ghost predicate NoReader(s: State) { forall i | 0 <= i < |s.calls| :: !Reading(s.calls[i].phase) }

  ghost predicate NoWriter(s: State) {
    forall k | 0 <= k < |s.closers| :: s.closers[k] != Announced && s.closers[k] != Holding
  }

  ghost predicate OneWriter(s: State) {
    forall j, k | 0 <= j < |s.closers| && 0 <= k < |s.closers| && j != k ::
      !((s.closers[j] == Announced || s.closers[j] == Holding) && (s.closers[k] == Announced || s.closers[k] == Holding))
  }

  datatype Step =
    | Reserve(recover: bool)          // Acquire of Fork, TryAcquire of Live's Reserve
    | CancelReservation(l: LeaseId)   // Live's deferred Cancel, at any time
    | StartCall(l: LeaseId)           // forkReserved(ctx, lease)
    | RLock(i: nat)
    | Check(i: nat)                   // the closed test, then Activate
    | StartFails(i: nat, pending: bool)
    | StartSucceeds(i: nat)
    | RUnlock(i: nat)
    | Report(i: nat, report: Report)  // the Database of call i, or its retained startup, settles its lease
    | OwnersDone(l: LeaseId)          // the watcher of a tracked lease
    | CallClose
    | CloseAdmission(k: nat)
    | Announce(k: nat)
    | Lock(k: nat)
    | CloseBacking(k: nat)            // the critical section of Close

  datatype Report = Confirmed | Uncertain | Tracked

  predicate At(s: State, i: nat, ph: Phase) { i < |s.calls| && s.calls[i].phase == ph }

  predicate OutcomeIs(s: State, i: nat, o: Outcome) { At(s, i, Unlocking(o)) || At(s, i, Over(o)) }

  ghost predicate Enabled(s: State, step: Step) {
    match step
    case Reserve(recover) => Admits(s.ledger, recover)
    case CancelReservation(l) => l < s.next
    case StartCall(l) => l < s.next
    case RLock(i) => At(s, i, Wanting) && NoWriter(s)
    case Check(i) => At(s, i, Pinned)
    case StartFails(i, _) => At(s, i, Starting)
    case StartSucceeds(i) => At(s, i, Starting)
    case RUnlock(i) => i < |s.calls| && s.calls[i].phase.Unlocking?
    case Report(i, report) =>
      OutcomeIs(s, i, Started) || (report == Confirmed && OutcomeIs(s, i, FailedPending))
    case OwnersDone(l) => l in s.ledger.leases && s.ledger.leases[l].tracking
    case CallClose => true
    case CloseAdmission(k) => k < |s.closers| && s.closers[k] == Entering
    case Announce(k) => k < |s.closers| && s.closers[k] == Queued && NoWriter(s)
    case Lock(k) => k < |s.closers| && s.closers[k] == Announced && NoReader(s)
    case CloseBacking(k) => k < |s.closers| && s.closers[k] == Holding
  }

  function Move(s: State, i: nat, ph: Phase): State
    requires i < |s.calls|
  {
    s.(calls := s.calls[i := s.calls[i].(phase := ph)])
  }

  function Apply(s: State, step: Step): State
    requires Enabled(s, step)
  {
    match step
    case Reserve(_) => s.(ledger := Acquire(s.ledger, s.next), next := s.next + 1)
    case CancelReservation(l) => s.(ledger := Cancel(s.ledger, l))
    case StartCall(l) => s.(calls := s.calls + [Call(l, Wanting)])
    case RLock(i) => Move(s, i, Pinned)
    case Check(i) =>
      var l := s.calls[i].lease;
      if !s.closed && Activates(s.ledger, l) then Move(s, i, Starting).(ledger := Activate(s.ledger, l))
      else Move(s, i, Unlocking(Rejected)).(ledger := Cancel(s.ledger, l))
    case StartFails(i, pending) =>
      var l := s.calls[i].lease;
      if pending then Move(s, i, Unlocking(FailedPending)).(ledger := Track(s.ledger, l))
      else Move(s, i, Unlocking(FailedClean)).(ledger := Confirm(s.ledger, l))
    case StartSucceeds(i) => Move(s, i, Unlocking(Started))
    case RUnlock(i) => Move(s, i, Over(s.calls[i].phase.outcome))
    case Report(i, report) =>
      var l := s.calls[i].lease;
      s.(ledger := match report
                   case Confirmed => Confirm(s.ledger, l)
                   case Uncertain => Retain(s.ledger, l)
                   case Tracked => Track(s.ledger, l))
    case OwnersDone(l) => s.(ledger := Confirm(s.ledger, l))
    case CallClose => s.(closers := s.closers + [Entering])
    case CloseAdmission(k) => s.(ledger := CloseLedger(s.ledger), closers := s.closers[k := Queued])
    case Announce(k) => s.(closers := s.closers[k := Announced])
    case Lock(k) => s.(closers := s.closers[k := Holding])
    case CloseBacking(k) =>
      s.(closed := true,
         backingCloses := if s.closed then s.backingCloses else s.backingCloses + 1,
         closers := s.closers[k := Returned])
  }

  ghost predicate Runs(s: State, steps: seq<Step>)
    decreases |steps|
  {
    steps == [] || (Enabled(s, steps[0]) && Runs(Apply(s, steps[0]), steps[1..]))
  }

  ghost function After(s: State, steps: seq<Step>): State
    requires Runs(s, steps)
    decreases |steps|
  {
    if steps == [] then s else After(Apply(s, steps[0]), steps[1..])
  }

  // ---------- the invariant ----------

  /** The calls that activated their lease. */
  predicate HasActivated(c: Call) {
    c.phase == Starting || (c.phase.Unlocking? && c.phase.outcome != Rejected)
    || (c.phase.Over? && c.phase.outcome != Rejected)
  }

  /** The calls that still answer for their lease: the startup itself, the Database it returned, or the cleanup
      its failure left behind. */
  predicate Owns(c: Call) {
    HasActivated(c) && c.phase != Unlocking(FailedClean) && c.phase != Over(FailedClean)
  }

  /** A lease is activated by at most one call, and stays active while it occupies a slot. */
  ghost predicate ActivationsOk(s: State) {
    && (forall i | 0 <= i < |s.calls| :: s.calls[i].lease < s.next)
    && (forall i, j | 0 <= i < j < |s.calls| && HasActivated(s.calls[i]) && HasActivated(s.calls[j]) ::
          s.calls[i].lease != s.calls[j].lease)
    && (forall i | 0 <= i < |s.calls| && HasActivated(s.calls[i]) && s.calls[i].lease in s.ledger.leases ::
          s.ledger.leases[s.calls[i].lease].active && Owns(s.calls[i]))
    && (forall i | 0 <= i < |s.calls| && s.calls[i].phase == Starting :: s.calls[i].lease in s.ledger.leases)
  }

  /** An active slot has an owner, an inactive one is a reservation without debt. */
  ghost predicate SlotsOk(s: State) {
    && Bounded(s.ledger)
    && (forall l | l in s.ledger.leases :: l < s.next)
    && (forall l | l in s.ledger.leases && s.ledger.leases[l].active :: OwnerExists(s, l))
    && (forall l | l in s.ledger.leases && !s.ledger.leases[l].active ::
          !s.ledger.leases[l].debt && !s.ledger.leases[l].tracking)
  }

  ghost predicate LeasesOk(s: State) { ActivationsOk(s) && SlotsOk(s) }

  ghost predicate OwnerExists(s: State, l: LeaseId) {
    exists i :: 0 <= i < |s.calls| && s.calls[i].lease == l && Owns(s.calls[i])
  }

  ghost predicate PinOk(s: State) {
    && OneWriter(s)
    && (forall k | 0 <= k < |s.closers| && s.closers[k] == Holding :: NoReader(s))
    && (s.closed ==> forall i | 0 <= i < |s.calls| :: s.calls[i].phase != Starting)
    && s.backingCloses == (if s.closed then 1 else 0)
    && ((exists k :: 0 <= k < |s.closers| && s.closers[k] == Returned) ==> s.closed)
  }

  /** A lease with debt, or a watcher, is not one that a startup is still using. */
  ghost predicate DebtsAreLate(s: State) {
    forall i | 0 <= i < |s.calls| && s.calls[i].phase == Starting && s.calls[i].lease in s.ledger.leases ::
      !s.ledger.leases[s.calls[i].lease].tracking
  }

  ghost predicate Inv(s: State) { LeasesOk(s) && PinOk(s) && DebtsAreLate(s) }

  lemma InitInv(limit: nat)
    ensures Inv(Init(limit))
  {
  }

  // ---------- the pin ----------

  lemma ReadersKept(s: State, t: State, i: nat)
    requires PinOk(s) && i < |s.calls| && Reading(s.calls[i].phase)
    requires |t.calls| == |s.calls| && t.calls == s.calls[i := t.calls[i]]
    requires t.closed == s.closed && t.closers == s.closers && t.backingCloses == s.backingCloses
    requires t.calls[i].phase == Starting ==> !s.closed
    ensures PinOk(t)
  {
    assert forall k | 0 <= k < |s.closers| :: s.closers[k] != Holding;
  }

  lemma NewReaderKeeps(s: State, i: nat)
    requires PinOk(s) && Enabled(s, RLock(i))
    ensures PinOk(Apply(s, RLock(i)))
  {
    assert forall k | 0 <= k < |s.closers| :: s.closers[k] != Holding;
  }

  lemma CloseBackingKeeps(s: State, k: nat)
    requires PinOk(s) && Enabled(s, CloseBacking(k))
    ensures PinOk(Apply(s, CloseBacking(k)))
  {
    assert Apply(s, CloseBacking(k)).closers[k] == Returned;
    assert NoReader(s);
  }

  lemma CloserKeeps(s: State, step: Step)
    requires PinOk(s) && Enabled(s, step)
    requires step.CallClose? || step.CloseAdmission? || step.Announce? || step.Lock?
    ensures PinOk(Apply(s, step))
  {
  }

  lemma PinKept(s: State, step: Step)
    requires PinOk(s) && Enabled(s, step)
    ensures PinOk(Apply(s, step))
  {
    var t := Apply(s, step);
    match step
    case Check(i) => ReadersKept(s, t, i);
    case StartFails(i, _) => ReadersKept(s, t, i);
    case StartSucceeds(i) => ReadersKept(s, t, i);
    case RUnlock(i) => ReadersKept(s, t, i);
    case RLock(i) => NewReaderKeeps(s, i);
    case CloseBacking(k) => CloseBackingKeeps(s, k);
    case CallClose => CloserKeeps(s, step);
    case CloseAdmission(_) => CloserKeeps(s, step);
    case Announce(_) => CloserKeeps(s, step);
    case Lock(_) => CloserKeeps(s, step);
    case _ =>
  }

  // ---------- the leases ----------

  /** A ledger that lost slots, or changed nothing but debts, still has owners for the rest. */
  lemma LedgerShrinks(s: State, p: Ledger)
    requires LeasesOk(s) && Bounded(p)
    requires p.leases.Keys <= s.ledger.leases.Keys
    requires forall l | l in p.leases :: p.leases[l].active == s.ledger.leases[l].active
    requires forall l | l in p.leases && !p.leases[l].active :: p.leases[l] == s.ledger.leases[l]
    requires forall i | 0 <= i < |s.calls| && s.calls[i].phase == Starting :: s.calls[i].lease in p.leases
    ensures LeasesOk(s.(ledger := p))
  {
    var t := s.(ledger := p);
    forall l | l in t.ledger.leases && t.ledger.leases[l].active
      ensures OwnerExists(t, l)
    {
      assert OwnerExists(s, l);
      var i :| 0 <= i < |s.calls| && s.calls[i].lease == l && Owns(s.calls[i]);
      assert t.calls[i].lease == l && Owns(t.calls[i]);
    }
  }

  lemma OwnersCarryOver(s: State, t: State, l: LeaseId)
    requires OwnerExists(s, l) && |s.calls| <= |t.calls|
    requires forall i | 0 <= i < |s.calls| && Owns(s.calls[i]) :: t.calls[i].lease == s.calls[i].lease && Owns(t.calls[i])
    ensures OwnerExists(t, l)
  {
    var i :| 0 <= i < |s.calls| && s.calls[i].lease == l && Owns(s.calls[i]);
    assert t.calls[i].lease == l && Owns(t.calls[i]);
  }

  /** A call that moves on without changing whether it activated, or owns, its lease. */
  lemma MoveKeeps(s: State, i: nat, ph: Phase)
    requires LeasesOk(s) && i < |s.calls|
    requires HasActivated(s.calls[i]) == HasActivated(s.calls[i].(phase := ph))
    requires Owns(s.calls[i]) == Owns(s.calls[i].(phase := ph))
    requires ph != Starting
    ensures LeasesOk(Move(s, i, ph))
  {
    var t := Move(s, i, ph);
    forall l | l in t.ledger.leases && t.ledger.leases[l].active
      ensures OwnerExists(t, l)
    {
      OwnersCarryOver(s, t, l);
    }
  }

  /** Nobody activated a lease that can still be activated. */
  lemma FreshLease(s: State, l: LeaseId, j: nat)
    requires LeasesOk(s) && Activates(s.ledger, l) && j < |s.calls| && HasActivated(s.calls[j])
    ensures s.calls[j].lease != l
  {
  }

  lemma ActivateFindsOwners(s: State, i: nat, m: LeaseId)
    requires LeasesOk(s) && At(s, i, Pinned) && Activates(s.ledger, s.calls[i].lease)
    requires m == s.calls[i].lease || (m in s.ledger.leases && s.ledger.leases[m].active)
    ensures OwnerExists(Move(s, i, Starting).(ledger := Activate(s.ledger, s.calls[i].lease)), m)
  {
    var t := Move(s, i, Starting).(ledger := Activate(s.ledger, s.calls[i].lease));
    if m == s.calls[i].lease {
      assert t.calls[i].lease == m && Owns(t.calls[i]);
    } else {
      OwnersCarryOver(s, t, m);
    }
  }

  lemma ActivationStaysUnique(s: State, i: nat)
    requires LeasesOk(s) && At(s, i, Pinned) && Activates(s.ledger, s.calls[i].lease)
    ensures ActivationsOk(Move(s, i, Starting).(ledger := Activate(s.ledger, s.calls[i].lease)))
  {
    forall j | 0 <= j < |s.calls| && HasActivated(s.calls[j])
      ensures s.calls[j].lease != s.calls[i].lease
    {
      FreshLease(s, s.calls[i].lease, j);
    }
  }

  lemma ActivateKeeps(s: State, i: nat)
    requires LeasesOk(s) && At(s, i, Pinned) && Activates(s.ledger, s.calls[i].lease)
    ensures LeasesOk(Move(s, i, Starting).(ledger := Activate(s.ledger, s.calls[i].lease)))
  {
    var l := s.calls[i].lease;
    var t := Move(s, i, Starting).(ledger := Activate(s.ledger, l));
    SlotsStayBounded(s.ledger, l, false);
    ActivationStaysUnique(s, i);
    forall m | m in t.ledger.leases && t.ledger.leases[m].active
      ensures OwnerExists(t, m)
    {
      ActivateFindsOwners(s, i, m);
    }
  }

  /** An active lease that somebody else starts with is not this call's. */
  lemma OnlyOwner(s: State, i: nat, j: nat)
    requires LeasesOk(s) && i < |s.calls| && j < |s.calls| && i != j
    requires HasActivated(s.calls[i]) && HasActivated(s.calls[j])
    ensures s.calls[i].lease != s.calls[j].lease
  {
  }

  lemma OthersStillOwn(s: State, t: State, i: nat, m: LeaseId)
    requires OwnerExists(s, m) && i < |s.calls| && s.calls[i].lease != m
    requires |t.calls| == |s.calls| && t.calls == s.calls[i := t.calls[i]]
    ensures OwnerExists(t, m)
  {
    var j :| 0 <= j < |s.calls| && s.calls[j].lease == m && Owns(s.calls[j]);
    assert t.calls[j] == s.calls[j];
  }

  lemma StartFailsKeeps(s: State, i: nat)
    requires LeasesOk(s) && At(s, i, Starting)
    ensures LeasesOk(Move(s, i, Unlocking(FailedClean)).(ledger := Confirm(s.ledger, s.calls[i].lease)))
  {
    var l := s.calls[i].lease;
    var t := Move(s, i, Unlocking(FailedClean)).(ledger := Confirm(s.ledger, l));
    SlotsStayBounded(s.ledger, l, false);
    forall m | m in t.ledger.leases && t.ledger.leases[m].active
      ensures OwnerExists(t, m)
    {
      OthersStillOwn(s, t, i, m);
    }
    forall j | 0 <= j < |t.calls| && t.calls[j].phase == Starting
      ensures t.calls[j].lease in t.ledger.leases
    {
      OnlyOwner(s, i, j);
    }
  }

  lemma ConfirmKeeps(s: State, l: LeaseId)
    requires LeasesOk(s)
    requires forall i | 0 <= i < |s.calls| && s.calls[i].phase == Starting :: s.calls[i].lease != l
    ensures LeasesOk(s.(ledger := Confirm(s.ledger, l)))
  {
    SlotsStayBounded(s.ledger, l, false);
    LedgerShrinks(s, Confirm(s.ledger, l));
  }

  lemma RetainKeeps(s: State, i: nat)
    requires LeasesOk(s) && i < |s.calls| && HasActivated(s.calls[i])
    ensures LeasesOk(s.(ledger := Retain(s.ledger, s.calls[i].lease)))
  {
    SlotsStayBounded(s.ledger, s.calls[i].lease, false);
    LedgerShrinks(s, Retain(s.ledger, s.calls[i].lease));
  }

  lemma TrackKeeps(s: State, i: nat)
    requires LeasesOk(s) && i < |s.calls| && HasActivated(s.calls[i])
    ensures LeasesOk(s.(ledger := Track(s.ledger, s.calls[i].lease)))
  {
    SlotsStayBounded(s.ledger, s.calls[i].lease, false);
    LedgerShrinks(s, Track(s.ledger, s.calls[i].lease));
  }

  lemma CancelKeeps(s: State, l: LeaseId)
    requires LeasesOk(s)
    ensures LeasesOk(s.(ledger := Cancel(s.ledger, l)))
  {
    SlotsStayBounded(s.ledger, l, false);
    LedgerShrinks(s, Cancel(s.ledger, l));
  }

  lemma ReserveKeeps(s: State, recover: bool)
    requires LeasesOk(s) && Admits(s.ledger, recover)
    ensures LeasesOk(Apply(s, Reserve(recover)))
  {
    var t := Apply(s, Reserve(recover));
    SlotsStayBounded(s.ledger, s.next, recover);
    forall l | l in t.ledger.leases && t.ledger.leases[l].active
      ensures OwnerExists(t, l)
    {
      OwnersCarryOver(s, t, l);
    }
  }

  lemma StartCallKeeps(s: State, l: LeaseId)
    requires LeasesOk(s) && l < s.next
    ensures LeasesOk(Apply(s, StartCall(l)))
  {
    var t := Apply(s, StartCall(l));
    assert forall j | 0 <= j < |s.calls| :: t.calls[j] == s.calls[j];
    assert t.calls[|s.calls|] == Call(l, Wanting);
    forall m | m in t.ledger.leases && t.ledger.leases[m].active
      ensures OwnerExists(t, m)
    {
      OwnersCarryOver(s, t, m);
    }
  }

  lemma CheckKeeps(s: State, i: nat)
    requires LeasesOk(s) && Enabled(s, Check(i))
    ensures LeasesOk(Apply(s, Check(i)))
  {
    var l := s.calls[i].lease;
    if !s.closed && Activates(s.ledger, l) {
      ActivateKeeps(s, i);
    } else {
      CancelKeeps(s, l);
      MoveKeeps(s.(ledger := Cancel(s.ledger, l)), i, Unlocking(Rejected));
    }
  }

  lemma FailureKeeps(s: State, i: nat, pending: bool)
    requires LeasesOk(s) && Enabled(s, StartFails(i, pending))
    ensures LeasesOk(Apply(s, StartFails(i, pending)))
  {
    if pending {
      TrackKeeps(s, i);
      MoveKeeps(s.(ledger := Track(s.ledger, s.calls[i].lease)), i, Unlocking(FailedPending));
    } else {
      StartFailsKeeps(s, i);
    }
  }

  lemma ReportKeeps(s: State, i: nat, report: Report)
    requires LeasesOk(s) && Enabled(s, Report(i, report))
    ensures LeasesOk(Apply(s, Report(i, report)))
  {
    match report
    case Confirmed =>
      forall j | 0 <= j < |s.calls| && s.calls[j].phase == Starting
        ensures s.calls[j].lease != s.calls[i].lease
      {
        OnlyOwner(s, i, j);
      }
      ConfirmKeeps(s, s.calls[i].lease);
    case Uncertain => RetainKeeps(s, i);
    case Tracked => TrackKeeps(s, i);
  }

  lemma RevokeKeeps(s: State)
    requires LeasesOk(s)
    ensures LeasesOk(s.(ledger := CloseLedger(s.ledger)))
  {
    SlotsStayBounded(s.ledger, 0, false);
    LedgerShrinks(s, CloseLedger(s.ledger));
  }

  /** LeasesOk speaks of the ledger, the next lease and the calls only. */
  lemma LeasesFrame(s: State, t: State)
    requires LeasesOk(s) && t.ledger == s.ledger && t.next == s.next && t.calls == s.calls
    ensures LeasesOk(t)
  {
    assert forall l :: OwnerExists(s, l) ==> OwnerExists(t, l);
  }

  lemma ReaderKeeps(s: State, step: Step)
    requires LeasesOk(s) && Enabled(s, step)
    requires step.RLock? || step.Check? || step.StartFails? || step.StartSucceeds? || step.RUnlock?
    ensures LeasesOk(Apply(s, step))
  {
    match step
    case RLock(i) => MoveKeeps(s, i, Pinned);
    case Check(i) => CheckKeeps(s, i);
    case StartFails(i, pending) => FailureKeeps(s, i, pending);
    case StartSucceeds(i) => MoveKeeps(s, i, Unlocking(Started));
    case RUnlock(i) => MoveKeeps(s, i, Over(s.calls[i].phase.outcome));
  }

  lemma LeasesKept(s: State, step: Step)
    requires Inv(s) && Enabled(s, step)
    ensures LeasesOk(Apply(s, step))
  {
    match step
    case Reserve(recover) => ReserveKeeps(s, recover);
    case CancelReservation(l) => CancelKeeps(s, l);
    case StartCall(l) => StartCallKeeps(s, l);
    case RLock(_) => ReaderKeeps(s, step);
    case Check(_) => ReaderKeeps(s, step);
    case StartFails(_, _) => ReaderKeeps(s, step);
    case StartSucceeds(_) => ReaderKeeps(s, step);
    case RUnlock(_) => ReaderKeeps(s, step);
    case Report(i, report) => ReportKeeps(s, i, report);
    case OwnersDone(l) => ConfirmKeeps(s, l);
    case CloseAdmission(k) =>
      RevokeKeeps(s);
      LeasesFrame(s.(ledger := CloseLedger(s.ledger)), Apply(s, step));
    case _ => LeasesFrame(s, Apply(s, step));
  }

  /** No startup begins, and no lease of one becomes tracked. */
  lemma DebtsCarryOver(s: State, t: State)
    requires DebtsAreLate(s) && |s.calls| <= |t.calls|
    requires forall i | 0 <= i < |t.calls| && t.calls[i].phase == Starting :: i < |s.calls| && t.calls[i] == s.calls[i]
    requires forall i | 0 <= i < |t.calls| && t.calls[i].phase == Starting && t.calls[i].lease in t.ledger.leases ::
               t.calls[i].lease in s.ledger.leases
               && t.ledger.leases[t.calls[i].lease].tracking == s.ledger.leases[t.calls[i].lease].tracking
    ensures DebtsAreLate(t)
  {
  }

  /** What one call reports about its own lease says nothing about a startup of another call. */
  lemma OthersAreElsewhere(s: State, i: nat)
    requires LeasesOk(s) && i < |s.calls| && HasActivated(s.calls[i])
    ensures forall j | 0 <= j < |s.calls| && j != i && s.calls[j].phase == Starting ::
              s.calls[j].lease != s.calls[i].lease
  {
    forall j | 0 <= j < |s.calls| && j != i && s.calls[j].phase == Starting
      ensures s.calls[j].lease != s.calls[i].lease
    {
      OnlyOwner(s, i, j);
    }
  }

  lemma ReportStaysLate(s: State, i: nat, report: Report)
    requires LeasesOk(s) && DebtsAreLate(s) && Enabled(s, Report(i, report))
    ensures DebtsAreLate(Apply(s, Report(i, report)))
  {
    OthersAreElsewhere(s, i);
    DebtsCarryOver(s, Apply(s, Report(i, report)));
  }

  lemma FailureStaysLate(s: State, i: nat, pending: bool)
    requires LeasesOk(s) && DebtsAreLate(s) && Enabled(s, StartFails(i, pending))
    ensures DebtsAreLate(Apply(s, StartFails(i, pending)))
  {
    OthersAreElsewhere(s, i);
    DebtsCarryOver(s, Apply(s, StartFails(i, pending)));
  }

  lemma CheckStaysLate(s: State, i: nat)
    requires LeasesOk(s) && DebtsAreLate(s) && Enabled(s, Check(i))
    ensures DebtsAreLate(Apply(s, Check(i)))
  {
    var l := s.calls[i].lease;
    if !s.closed && Activates(s.ledger, l) {
      assert !s.ledger.leases[l].tracking;
    } else {
      DebtsCarryOver(s, Apply(s, Check(i)));
    }
  }

  lemma ReserveStaysLate(s: State, recover: bool)
    requires LeasesOk(s) && DebtsAreLate(s) && Enabled(s, Reserve(recover))
    ensures DebtsAreLate(Apply(s, Reserve(recover)))
  {
    assert forall i | 0 <= i < |s.calls| :: s.calls[i].lease < s.next;
    DebtsCarryOver(s, Apply(s, Reserve(recover)));
  }

  lemma DebtsStayLate(s: State, step: Step)
    requires Inv(s) && Enabled(s, step)
    ensures DebtsAreLate(Apply(s, step))
  {
    match step
    case Report(i, report) => ReportStaysLate(s, i, report);
    case StartFails(i, pending) => FailureStaysLate(s, i, pending);
    case Check(i) => CheckStaysLate(s, i);
    case Reserve(recover) => ReserveStaysLate(s, recover);
    case _ => DebtsCarryOver(s, Apply(s, step));
  }

  lemma StepKeeps(s: State, step: Step)
    requires Inv(s) && Enabled(s, step)
    ensures Inv(Apply(s, step))
  {
    PinKept(s, step);
    LeasesKept(s, step);
    DebtsStayLate(s, step);
  }

  lemma {:induction false} RunKeeps(s: State, steps: seq<Step>)
    requires Inv(s) && Runs(s, steps)
    ensures Inv(After(s, steps))
    decreases |steps|
  {
    if steps != [] {
      StepKeeps(s, steps[0]);
      RunKeeps(Apply(s, steps[0]), steps[1..]);
    }
  }
}
