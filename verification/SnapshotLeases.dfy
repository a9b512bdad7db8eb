/** The fate of every lease of a Snapshot, over whole runs: when it occupies a slot, and when debts stop admission. */
module SnapshotLeases {
  import opened ForkLedger
  import opened SnapshotForks
  import opened SnapshotTheorems

  // ---------- every lease, from its reservation to its end ----------

  predicate PastCheck(ph: Phase) { ph == Starting || ph.Unlocking? || ph.Over? }

  /** Some call has activated the lease. */
  ghost predicate Activated(s: State, l: LeaseId) {
    exists i :: 0 <= i < |s.calls| && s.calls[i].lease == l && HasActivated(s.calls[i])
  }

  /** Some call has tried to, and was admitted or rejected. */
  ghost predicate Checked(s: State, l: LeaseId) {
    exists i :: 0 <= i < |s.calls| && s.calls[i].lease == l && PastCheck(s.calls[i].phase)
  }

  predicate AdmissionClosed(steps: seq<Step>) { exists i :: 0 <= i < |steps| && steps[i].CloseAdmission? }

  /** A lease nobody activated occupies a slot exactly until it is cancelled, tried, or revoked by a Close. */
  ghost predicate UnusedOk(s: State, l: LeaseId, cancelled: bool) {
    && (cancelled ==> l < s.next)
    && (l < s.next && !Activated(s, l) ==>
          (l in s.ledger.leases <==> !s.ledger.closed && !cancelled && !Checked(s, l)))
  }

  lemma MarksStay(s: State, step: Step, l: LeaseId)
    requires Enabled(s, step)
    ensures Activated(s, l) ==> Activated(Apply(s, step), l)
    ensures Checked(s, l) ==> Checked(Apply(s, step), l)
  {
    var t := Apply(s, step);
    assert forall i | 0 <= i < |s.calls| ::
        t.calls[i].lease == s.calls[i].lease && (HasActivated(s.calls[i]) ==> HasActivated(t.calls[i]))
        && (PastCheck(s.calls[i].phase) ==> PastCheck(t.calls[i].phase));
  }

  lemma OnlyCheckMarks(s: State, step: Step, l: LeaseId)
    requires Enabled(s, step) && Checked(Apply(s, step), l)
    ensures Checked(s, l) || (step.Check? && s.calls[step.i].lease == l)
  {
    var t := Apply(s, step);
    var i :| 0 <= i < |t.calls| && t.calls[i].lease == l && PastCheck(t.calls[i].phase);
    if !(step.Check? && step.i == i) {
      assert i < |s.calls| && s.calls[i].lease == l && PastCheck(s.calls[i].phase);
    }
  }

  lemma UnactivatedIsInactive(s: State, l: LeaseId)
    requires SlotsOk(s) && l in s.ledger.leases && !Activated(s, l)
    ensures !s.ledger.leases[l].active && !s.ledger.leases[l].tracking
  {
  }

  lemma ReserveUnused(s: State, recover: bool, l: LeaseId, cancelled: bool)
    requires LeasesOk(s) && UnusedOk(s, l, cancelled) && Enabled(s, Reserve(recover))
    ensures UnusedOk(Apply(s, Reserve(recover)), l, cancelled)
  {
    var t := Apply(s, Reserve(recover));
    MarksStay(s, Reserve(recover), l);
    if Checked(t, l) { OnlyCheckMarks(s, Reserve(recover), l); }
  }

  lemma CheckUnused(s: State, i: nat, l: LeaseId, cancelled: bool)
    requires LeasesOk(s) && UnusedOk(s, l, cancelled) && Enabled(s, Check(i))
    ensures UnusedOk(Apply(s, Check(i)), l, cancelled)
  {
    var t := Apply(s, Check(i));
    MarksStay(s, Check(i), l);
    if Checked(t, l) { OnlyCheckMarks(s, Check(i), l); }
    if l in s.ledger.leases && !Activated(s, l) { UnactivatedIsInactive(s, l); }
    if s.calls[i].lease == l { assert t.calls[i].lease == l && PastCheck(t.calls[i].phase); }
  }

  lemma CallEndUnused(s: State, step: Step, l: LeaseId, cancelled: bool)
    requires LeasesOk(s) && UnusedOk(s, l, cancelled) && Enabled(s, step) && (step.Report? || step.StartFails?)
    ensures UnusedOk(Apply(s, step), l, cancelled)
  {
    MarksStay(s, step, l);
    if Checked(Apply(s, step), l) { OnlyCheckMarks(s, step, l); }
    assert HasActivated(s.calls[step.i]);
    assert s.calls[step.i].lease == l ==> Activated(s, l);
  }

  lemma WatcherUnused(s: State, m: LeaseId, l: LeaseId, cancelled: bool)
    requires LeasesOk(s) && UnusedOk(s, l, cancelled) && Enabled(s, OwnersDone(m))
    ensures UnusedOk(Apply(s, OwnersDone(m)), l, cancelled)
  {
    MarksStay(s, OwnersDone(m), l);
    if Checked(Apply(s, OwnersDone(m)), l) { OnlyCheckMarks(s, OwnersDone(m), l); }
    if l in s.ledger.leases && !Activated(s, l) { UnactivatedIsInactive(s, l); }
  }

  lemma RestUnused(s: State, step: Step, l: LeaseId, cancelled: bool)
    requires LeasesOk(s) && UnusedOk(s, l, cancelled) && Enabled(s, step)
    requires !step.Reserve? && !step.Check? && !step.Report? && !step.StartFails? && !step.OwnersDone?
    ensures UnusedOk(Apply(s, step), l, cancelled || step == CancelReservation(l))
  {
    MarksStay(s, step, l);
    if Checked(Apply(s, step), l) { OnlyCheckMarks(s, step, l); }
    if l in s.ledger.leases && !Activated(s, l) { UnactivatedIsInactive(s, l); }
  }

  lemma StepUnused(s: State, step: Step, l: LeaseId, cancelled: bool)
    requires LeasesOk(s) && UnusedOk(s, l, cancelled) && Enabled(s, step)
    ensures UnusedOk(Apply(s, step), l, cancelled || step == CancelReservation(l))
  {
    match step
    case Reserve(recover) => ReserveUnused(s, recover, l, cancelled);
    case Check(i) => CheckUnused(s, i, l, cancelled);
    case Report(_, _) => CallEndUnused(s, step, l, cancelled);
    case StartFails(_, _) => CallEndUnused(s, step, l, cancelled);
    case OwnersDone(m) => WatcherUnused(s, m, l, cancelled);
    case _ => RestUnused(s, step, l, cancelled);
  }

  lemma {:induction false} RunUnused(s: State, steps: seq<Step>, l: LeaseId, cancelled: bool)
    requires Inv(s) && UnusedOk(s, l, cancelled) && Runs(s, steps)
    ensures UnusedOk(After(s, steps), l, cancelled || CancelReservation(l) in steps)
    decreases |steps|
  {
    if steps != [] {
      assert steps == [steps[0]] + steps[1..];
      StepUnused(s, steps[0], l, cancelled);
      StepKeeps(s, steps[0]);
      RunUnused(Apply(s, steps[0]), steps[1..], l, cancelled || steps[0] == CancelReservation(l));
    }
  }

  lemma {:induction false} ClosedIff(s: State, steps: seq<Step>)
    requires Runs(s, steps)
    ensures After(s, steps).ledger.closed <==> s.ledger.closed || AdmissionClosed(steps)
    decreases |steps|
  {
    if steps != [] {
      var rest := steps[1..];
      ClosedIff(Apply(s, steps[0]), rest);
      assert forall i | 0 <= i < |rest| :: rest[i] == steps[i + 1];
      if AdmissionClosed(rest) {
        var i :| 0 <= i < |rest| && rest[i].CloseAdmission?;
        assert steps[i + 1].CloseAdmission?;
      }
      if AdmissionClosed(steps) && !steps[0].CloseAdmission? {
        var i :| 0 <= i < |steps| && steps[i].CloseAdmission?;
        assert rest[i - 1].CloseAdmission?;
      }
    }
  }

  /** Some call owns the lease, and nothing has confirmed the disposal of what it owns. */
  ghost predicate Alive(s: State, steps: seq<Step>, l: LeaseId) {
    exists i :: 0 <= i < |s.calls| && s.calls[i].lease == l && Owns(s.calls[i]) && Unconfirmed(steps, i, l)
  }

  /** No lease is lost and none is kept too long. In every run, a lease that was ever acquired occupies a slot exactly
      - if some call activated it: while its one owner's disposal is unconfirmed;
      - if none did: until it is cancelled, its call is rejected, or a Close of the snapshot revokes it. */
  lemma LeaseFate(limit: nat, steps: seq<Step>, l: LeaseId)
    requires Runs(Init(limit), steps) && l < After(Init(limit), steps).next
    ensures var s := After(Init(limit), steps);
            l in s.ledger.leases <==>
              if Activated(s, l) then Alive(s, steps, l)
              else !AdmissionClosed(steps) && CancelReservation(l) !in steps && !Checked(s, l)
  {
    var s := After(Init(limit), steps);
    InitInv(limit);
    Reachable(limit, steps);
    if Activated(s, l) {
      ActivatedFate(limit, steps, l);
    } else {
      RunUnused(Init(limit), steps, l, false);
      ClosedIff(Init(limit), steps);
    }
  }

  lemma ActivatedFate(limit: nat, steps: seq<Step>, l: LeaseId)
    requires Runs(Init(limit), steps) && Activated(After(Init(limit), steps), l)
    ensures var s := After(Init(limit), steps); l in s.ledger.leases <==> Alive(s, steps, l)
  {
    var s := After(Init(limit), steps);
    Reachable(limit, steps);
    var i :| 0 <= i < |s.calls| && s.calls[i].lease == l && HasActivated(s.calls[i]);
    if Alive(s, steps, l) {
      var j :| 0 <= j < |s.calls| && s.calls[j].lease == l && Owns(s.calls[j]) && Unconfirmed(steps, j, l);
      OwnersKeepTheirSlots(limit, steps, j);
    }
    if l in s.ledger.leases {
      assert Owns(s.calls[i]);
      OwnersKeepTheirSlots(limit, steps, i);
    }
  }

  /** A call that was rejected has given its reservation back: if the slot is occupied, another call owns it. */
  lemma RejectedHoldsNothing(limit: nat, steps: seq<Step>, i: nat)
    requires Runs(Init(limit), steps) && OutcomeIs(After(Init(limit), steps), i, Rejected)
    ensures var s := After(Init(limit), steps);
            s.calls[i].lease in s.ledger.leases ==> Alive(s, steps, s.calls[i].lease)
  {
    var s := After(Init(limit), steps);
    Reachable(limit, steps);
    assert PastCheck(s.calls[i].phase);
    LeaseFate(limit, steps, s.calls[i].lease);
  }

  /** After a Close of the snapshot every slot belongs to an owner, and no continuation adds one. */
  lemma ClosedSlotsAreOwned(limit: nat, steps: seq<Step>, l: LeaseId)
    requires Runs(Init(limit), steps) && AdmissionClosed(steps) && l in After(Init(limit), steps).ledger.leases
    ensures Alive(After(Init(limit), steps), steps, l)
  {
    Reachable(limit, steps);
    LeaseFate(limit, steps, l);
  }

  lemma {:induction false} ClosedOnlyShrinks(s: State, steps: seq<Step>)
    requires s.ledger.closed && Runs(s, steps)
    ensures After(s, steps).ledger.closed && After(s, steps).ledger.leases.Keys <= s.ledger.leases.Keys
    decreases |steps|
  {
    if steps != [] {
      assert Apply(s, steps[0]).ledger.leases.Keys <= s.ledger.leases.Keys;
      ClosedOnlyShrinks(Apply(s, steps[0]), steps[1..]);
    }
  }

  // ---------- debts stop admission ----------

  /** A slot in debt blocks the pool. */
  ghost predicate DebtBlocks(s: State) { InDebt(s.ledger) ==> s.ledger.blocked }

  lemma DebtBlocksKept(s: State, step: Step)
    requires DebtBlocks(s) && Enabled(s, step)
    ensures DebtBlocks(Apply(s, step))
  {
    var t := Apply(s, step);
    if l :| l in t.ledger.leases && t.ledger.leases[l].debt {
      if l in s.ledger.leases && s.ledger.leases[l].debt { assert InDebt(s.ledger); }
    }
  }

  /** Call `i` has told its lease that the cleanup is uncertain. */
  predicate ReportedDebt(steps: seq<Step>, i: nat) {
    Report(i, Uncertain) in steps || Report(i, Tracked) in steps || StartFails(i, true) in steps
  }

  predicate Owing(s: State, l: LeaseId) { l in s.ledger.leases ==> s.ledger.leases[l].debt }

  lemma OwingKept(s: State, step: Step, l: LeaseId)
    requires l < s.next && Owing(s, l) && Enabled(s, step)
    ensures l < Apply(s, step).next && Owing(Apply(s, step), l)
  {
  }

  lemma {:induction false} OwingToTheEnd(s: State, steps: seq<Step>, l: LeaseId)
    requires l < s.next && Owing(s, l) && Runs(s, steps)
    ensures Owing(After(s, steps), l)
    decreases |steps|
  {
    if steps != [] {
      OwingKept(s, steps[0], l);
      OwingToTheEnd(Apply(s, steps[0]), steps[1..], l);
    }
  }

  /** A lease that is tracked is in debt. */
  ghost predicate TrackedOwe(s: State) {
    forall l | l in s.ledger.leases && s.ledger.leases[l].tracking :: s.ledger.leases[l].debt
  }

  lemma {:induction false} BlockedRun(s: State, steps: seq<Step>)
    requires DebtBlocks(s) && TrackedOwe(s) && Runs(s, steps)
    ensures DebtBlocks(After(s, steps)) && TrackedOwe(After(s, steps))
    decreases |steps|
  {
    if steps != [] {
      DebtBlocksKept(s, steps[0]);
      BlockedRun(Apply(s, steps[0]), steps[1..]);
    }
  }

  lemma ReportOwes(s: State, step: Step, i: nat, l: LeaseId)
    requires LeasesOk(s) && TrackedOwe(s) && Enabled(s, step) && ReportedDebt([step], i)
    requires i < |s.calls| && s.calls[i].lease == l
    ensures l < Apply(s, step).next && Owing(Apply(s, step), l)
  {
    assert step == Report(i, Uncertain) || step == Report(i, Tracked) || step == StartFails(i, true);
  }

  lemma {:induction false} ReportedOwes(s: State, steps: seq<Step>, i: nat, l: LeaseId)
    requires Inv(s) && DebtBlocks(s) && TrackedOwe(s) && Runs(s, steps)
    requires ReportedDebt(steps, i)
    requires i < |After(s, steps).calls| && After(s, steps).calls[i].lease == l
    ensures Owing(After(s, steps), l)
    decreases |steps|
  {
    var t := Apply(s, steps[0]);
    assert steps == [steps[0]] + steps[1..];
    if ReportedDebt([steps[0]], i) {
      assert i < |s.calls|;
      LeaseFixed(s, steps, i);
      ReportOwes(s, steps[0], i, l);
      OwingToTheEnd(t, steps[1..], l);
    } else {
      StepKeeps(s, steps[0]);
      BlockedRun(s, [steps[0]]);
      assert After(s, [steps[0]]) == After(t, []);
      ReportedOwes(t, steps[1..], i, l);
    }
  }

  /** Uncertain cleanup stops admission, and only its confirmation can lift that: while what call `i` owns has reported
      a debt that nothing confirmed, no lease is handed out, with recovery or without, and no startup begins. */
  lemma DebtStopsAdmission(limit: nat, steps: seq<Step>, i: nat)
    requires Runs(Init(limit), steps) && ReportedDebt(steps, i)
    requires var s := After(Init(limit), steps);
             i < |s.calls| && Owns(s.calls[i]) && Unconfirmed(steps, i, s.calls[i].lease)
    ensures var s := After(Init(limit), steps);
            && (forall recover :: !Enabled(s, Reserve(recover)))
            && (forall l :: !Activates(s.ledger, l))
  {
    var s := After(Init(limit), steps);
    var l := s.calls[i].lease;
    InitInv(limit);
    OwnersKeepTheirSlots(limit, steps, i);
    ReportedOwes(Init(limit), steps, i, l);
    BlockedRun(Init(limit), steps);
    assert s.ledger.leases[l].debt;
    assert InDebt(s.ledger);
  }

  // ---------- and nothing else does ----------

  lemma {:induction false} BlockedOnlyBy(s: State, steps: seq<Step>)
    requires Runs(s, steps) && !s.ledger.blocked
    requires forall i: nat :: !ReportedDebt(steps, i)
    ensures !After(s, steps).ledger.blocked
    decreases |steps|
  {
    if steps != [] {
      assert steps == [steps[0]] + steps[1..];
      assert steps[0].Report? && steps[0].report != Confirmed ==> ReportedDebt(steps, steps[0].i);
      assert steps[0].StartFails? && steps[0].pending ==> ReportedDebt(steps, steps[0].i);
      assert forall i: nat :: ReportedDebt(steps[1..], i) ==> ReportedDebt(steps, i);
      BlockedOnlyBy(Apply(s, steps[0]), steps[1..]);
    }
  }

  /** As long as nothing reported uncertain cleanup and admission is open, a lease is handed out iff a slot is free. */
  lemma AdmittedIffFree(limit: nat, steps: seq<Step>)
    requires Runs(Init(limit), steps)
    requires !AdmissionClosed(steps) && forall i: nat :: !ReportedDebt(steps, i)
    ensures var s := After(Init(limit), steps); Enabled(s, Reserve(false)) <==> |s.ledger.leases| < limit
  {
    BlockedOnlyBy(Init(limit), steps);
    ClosedIff(Init(limit), steps);
    LimitFixed(Init(limit), steps);
  }

  lemma ThenRuns(s: State, step: Step, rest: seq<Step>)
    requires Enabled(s, step) && Runs(Apply(s, step), rest)
    ensures Runs(s, [step] + rest) && After(s, [step] + rest) == After(Apply(s, step), rest)
  {
    assert ([step] + rest)[1..] == rest;
  }

  /** A Fork that gets a lease on an open snapshot, with no Close at the lock, goes through to a started Database that
      owns its slot. */
  lemma ForkGoesThrough(s: State) returns (steps: seq<Step>)
    requires LeasesOk(s) && !s.closed && NoWriter(s) && Admits(s.ledger, false)
    ensures Runs(s, steps)
    ensures var t, i := After(s, steps), |s.calls|;
            && At(t, i, Over(Started)) && t.calls[i].lease == s.next
            && s.next in t.ledger.leases && t.ledger.leases[s.next].active
  {
    var l, i := s.next, |s.calls|;
    var reserved := Apply(s, Reserve(false));
    var wanting := Apply(reserved, StartCall(l));
    var pinned := Apply(wanting, RLock(i));
    var starting := Apply(pinned, Check(i));
    var started := Apply(starting, StartSucceeds(i));
    ThenRuns(started, RUnlock(i), []);
    ThenRuns(starting, StartSucceeds(i), [RUnlock(i)]);
    ThenRuns(pinned, Check(i), [StartSucceeds(i)] + [RUnlock(i)]);
    ThenRuns(wanting, RLock(i), [Check(i)] + ([StartSucceeds(i)] + [RUnlock(i)]));
    ThenRuns(reserved, StartCall(l), [RLock(i)] + ([Check(i)] + ([StartSucceeds(i)] + [RUnlock(i)])));
    steps := [StartCall(l)] + ([RLock(i)] + ([Check(i)] + ([StartSucceeds(i)] + [RUnlock(i)])));
    ThenRuns(s, Reserve(false), steps);
    steps := [Reserve(false)] + steps;
  }
}
