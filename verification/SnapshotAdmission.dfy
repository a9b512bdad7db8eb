/** Exactly when a Snapshot hands out a lease, to an ordinary Fork and to an explicit recovery, read off the run. */
module SnapshotAdmission {
  import opened ForkLedger
  import opened SnapshotForks
  import opened SnapshotTheorems
  import opened SnapshotLeases

  lemma {:induction false} RunsJoin(s: State, a: seq<Step>, b: seq<Step>)
    requires Runs(s, a + b)
    ensures Runs(s, a) && Runs(After(s, a), b) && After(s, a + b) == After(After(s, a), b)
    decreases |a|
  {
    if a == [] {
      assert a + b == b;
    } else {
      assert (a + b)[0] == a[0] && (a + b)[1..] == a[1..] + b;
      RunsJoin(Apply(s, a[0]), a[1..], b);
    }
  }

  // ---------- what blocks the pool, and what reopens it ----------

  /** The step reports uncertain cleanup. */
  predicate ReportsDebt(step: Step) {
    (step.Report? && step.report != Confirmed) || (step.StartFails? && step.pending)
  }

  /** At its place in the run, step k reported uncertain cleanup of something whose disposal was not confirmed. */
  ghost predicate Effective(limit: nat, steps: seq<Step>, k: nat)
    requires Runs(Init(limit), steps)
  {
    && k < |steps| && ReportsDebt(steps[k])
    && Runs(Init(limit), steps[..k])
    && var s := After(Init(limit), steps[..k]);
       steps[k].i < |s.calls| && Unconfirmed(steps[..k], steps[k].i, s.calls[steps[k].i].lease)
  }

  /** Such a report, and no recovery since. */
  ghost predicate BlocksFrom(limit: nat, steps: seq<Step>, k: nat)
    requires Runs(Init(limit), steps)
  {
    Effective(limit, steps, k) && Reserve(true) !in steps[k + 1..]
  }

  ghost predicate StillBlocked(limit: nat, steps: seq<Step>)
    requires Runs(Init(limit), steps)
  {
    exists k: nat :: BlocksFrom(limit, steps, k)
  }

  lemma ReportBlocksIff(limit: nat, pre: seq<Step>, step: Step)
    requires Runs(Init(limit), pre) && Enabled(After(Init(limit), pre), step) && ReportsDebt(step)
    ensures var s := After(Init(limit), pre);
            && step.i < |s.calls| && Owns(s.calls[step.i])
            && (Apply(s, step).ledger.blocked <==> s.ledger.blocked || Unconfirmed(pre, step.i, s.calls[step.i].lease))
  {
    var s := After(Init(limit), pre);
    OwnersKeepTheirSlots(limit, pre, step.i);
    BlockedRun(Init(limit), pre);
    var l := s.calls[step.i].lease;
    if l in s.ledger.leases && s.ledger.leases[l].tracking { assert InDebt(s.ledger); }
  }

  lemma OthersBlockIff(s: State, step: Step)
    requires Enabled(s, step) && !ReportsDebt(step) && DebtBlocks(s)
    ensures Apply(s, step).ledger.blocked <==> s.ledger.blocked && step != Reserve(true)
  {
  }

  lemma BlocksFromCarries(limit: nat, pre: seq<Step>, step: Step, k: nat)
    requires Runs(Init(limit), pre + [step]) && Runs(Init(limit), pre) && k < |pre|
    ensures BlocksFrom(limit, pre + [step], k) <==> BlocksFrom(limit, pre, k) && step != Reserve(true)
  {
    assert (pre + [step])[..k] == pre[..k] && (pre + [step])[k] == pre[k];
    assert (pre + [step])[k + 1..] == pre[k + 1..] + [step];
  }

  lemma BlocksFromLast(limit: nat, pre: seq<Step>, step: Step)
    requires Runs(Init(limit), pre + [step])
    ensures BlocksFrom(limit, pre + [step], |pre|) <==> Effective(limit, pre + [step], |pre|)
  {
    assert (pre + [step])[|pre| + 1..] == [];
  }

  lemma StillBlockedGrows(limit: nat, pre: seq<Step>, step: Step)
    requires Runs(Init(limit), pre + [step]) && Runs(Init(limit), pre)
    ensures StillBlocked(limit, pre + [step]) <==>
              (StillBlocked(limit, pre) && step != Reserve(true)) || Effective(limit, pre + [step], |pre|)
  {
    BlocksFromLast(limit, pre, step);
    forall k: nat
      ensures BlocksFrom(limit, pre, k) ==> k < |pre|
      ensures BlocksFrom(limit, pre + [step], k) ==> k <= |pre|
      ensures k < |pre| ==> (BlocksFrom(limit, pre + [step], k) <==> BlocksFrom(limit, pre, k) && step != Reserve(true))
    {
      if k < |pre| { BlocksFromCarries(limit, pre, step, k); }
    }
  }

  /** The pool is blocked exactly from a report of uncertain cleanup, confirmed since or not, to the next recovery. */
  lemma {:induction false} BlockedIff(limit: nat, steps: seq<Step>)
    requires Runs(Init(limit), steps)
    ensures After(Init(limit), steps).ledger.blocked <==> StillBlocked(limit, steps)
    decreases |steps|
  {
    if steps != [] {
      var pre, step := steps[..|steps| - 1], steps[|steps| - 1];
      assert steps == pre + [step];
      RunsJoin(Init(limit), pre, [step]);
      var s := After(Init(limit), pre);
      assert After(s, [step]) == After(Apply(s, step), []);
      BlockedIff(limit, pre);
      StillBlockedGrows(limit, pre, step);
      LastStepBlocksIff(limit, pre, step);
    }
  }

  lemma LastStepBlocksIff(limit: nat, pre: seq<Step>, step: Step)
    requires Runs(Init(limit), pre + [step]) && Runs(Init(limit), pre) && Enabled(After(Init(limit), pre), step)
    ensures var s := After(Init(limit), pre);
            Apply(s, step).ledger.blocked <==>
              (s.ledger.blocked && step != Reserve(true)) || Effective(limit, pre + [step], |pre|)
  {
    assert (pre + [step])[..|pre|] == pre && (pre + [step])[|pre|] == step;
    if ReportsDebt(step) {
      ReportBlocksIff(limit, pre, step);
    } else {
      BlockedRun(Init(limit), pre);
      OthersBlockIff(After(Init(limit), pre), step);
    }
  }

  // ---------- which debts are open ----------

  /** Call i has reported uncertain cleanup that nothing confirmed. */
  ghost predicate OpenDebt(s: State, steps: seq<Step>, i: nat) {
    i < |s.calls| && Owns(s.calls[i]) && ReportedDebt(steps, i) && Unconfirmed(steps, i, s.calls[i].lease)
  }

  predicate Debted(s: State, l: LeaseId) { l in s.ledger.leases && s.ledger.leases[l].debt }

  /** Somebody who reported it. */
  ghost predicate Reporter(s: State, steps: seq<Step>, l: LeaseId) {
    exists i :: 0 <= i < |s.calls| && s.calls[i].lease == l && HasActivated(s.calls[i]) && ReportedDebt(steps, i)
  }

  lemma DebtFromReport(s: State, step: Step, l: LeaseId)
    requires Enabled(s, step) && Debted(Apply(s, step), l)
    ensures Debted(s, l) || Reporter(Apply(s, step), [step], l)
  {
    if !Debted(s, l) {
      assert step.Report? || step.StartFails?;
      var t := Apply(s, step);
      assert t.calls[step.i].lease == l && HasActivated(t.calls[step.i]) && ReportedDebt([step], step.i);
    }
  }

  lemma {:induction false} ReporterStays(s: State, steps: seq<Step>, i: nat)
    requires Runs(s, steps) && i < |s.calls| && HasActivated(s.calls[i])
    ensures i < |After(s, steps).calls| && HasActivated(After(s, steps).calls[i])
    ensures After(s, steps).calls[i].lease == s.calls[i].lease
    decreases |steps|
  {
    if steps != [] { ReporterStays(Apply(s, steps[0]), steps[1..], i); }
  }

  lemma {:induction false} DebtHasReporter(s: State, steps: seq<Step>, l: LeaseId)
    requires Runs(s, steps) && Debted(After(s, steps), l)
    ensures Debted(s, l) || Reporter(After(s, steps), steps, l)
    decreases |steps|
  {
    if steps != [] {
      var step, t := steps[0], Apply(s, steps[0]);
      assert steps == [step] + steps[1..];
      DebtHasReporter(t, steps[1..], l);
      if Reporter(After(s, steps), steps[1..], l) {
        var i :| 0 <= i < |After(s, steps).calls| && After(s, steps).calls[i].lease == l
              && HasActivated(After(s, steps).calls[i]) && ReportedDebt(steps[1..], i);
        assert ReportedDebt(steps, i);
      } else {
        DebtFromReport(s, step, l);
        if Reporter(t, [step], l) {
          var i :| 0 <= i < |t.calls| && t.calls[i].lease == l && HasActivated(t.calls[i]) && ReportedDebt([step], i);
          ReporterStays(t, steps[1..], i);
          assert ReportedDebt(steps, i);
        }
      }
    }
  }

  ghost predicate SomeOpenDebt(s: State, steps: seq<Step>) { exists i: nat :: OpenDebt(s, steps, i) }

  lemma DebtIsOpen(limit: nat, steps: seq<Step>, l: LeaseId)
    requires Runs(Init(limit), steps) && Debted(After(Init(limit), steps), l)
    ensures SomeOpenDebt(After(Init(limit), steps), steps)
  {
    var s := After(Init(limit), steps);
    Reachable(limit, steps);
    DebtHasReporter(Init(limit), steps, l);
    var i: nat :| i < |s.calls| && s.calls[i].lease == l && HasActivated(s.calls[i]) && ReportedDebt(steps, i);
    OwnersKeepTheirSlots(limit, steps, i);
    assert OpenDebt(s, steps, i);
  }

  lemma OpenIsDebt(limit: nat, steps: seq<Step>, i: nat)
    requires Runs(Init(limit), steps) && OpenDebt(After(Init(limit), steps), steps, i)
    ensures InDebt(After(Init(limit), steps).ledger)
  {
    var s := After(Init(limit), steps);
    InitInv(limit);
    OwnersKeepTheirSlots(limit, steps, i);
    ReportedOwes(Init(limit), steps, i, s.calls[i].lease);
    assert Debted(s, s.calls[i].lease);
  }

  lemma InDebtIff(limit: nat, steps: seq<Step>)
    requires Runs(Init(limit), steps)
    ensures InDebt(After(Init(limit), steps).ledger) <==> SomeOpenDebt(After(Init(limit), steps), steps)
  {
    var s := After(Init(limit), steps);
    if InDebt(s.ledger) {
      var l :| l in s.ledger.leases && s.ledger.leases[l].debt;
      DebtIsOpen(limit, steps, l);
    }
    if SomeOpenDebt(s, steps) {
      var i: nat :| OpenDebt(s, steps, i);
      OpenIsDebt(limit, steps, i);
    }
  }

  // ---------- admission ----------

  /** An ordinary Fork gets a lease iff admission is open, a slot is free, and there has been no report of uncertain
      cleanup since the last recovery: confirming the cleanup alone does not reopen the pool. */
  lemma ForkAdmittedIff(limit: nat, steps: seq<Step>)
    requires Runs(Init(limit), steps)
    ensures var s := After(Init(limit), steps);
            Enabled(s, Reserve(false)) <==>
              !AdmissionClosed(steps) && |s.ledger.leases| < limit && !StillBlocked(limit, steps)
  {
    BlockedIff(limit, steps);
    ClosedIff(Init(limit), steps);
    LimitFixed(Init(limit), steps);
  }

  /** A recovery gets one iff admission is open, a slot is free, and every reported debt has been confirmed. */
  lemma RecoveryAdmittedIff(limit: nat, steps: seq<Step>)
    requires Runs(Init(limit), steps)
    ensures var s := After(Init(limit), steps);
            Enabled(s, Reserve(true)) <==>
              !AdmissionClosed(steps) && |s.ledger.leases| < limit && !SomeOpenDebt(s, steps)
  {
    var s := After(Init(limit), steps);
    InDebtIff(limit, steps);
    BlockedRun(Init(limit), steps);
    ClosedIff(Init(limit), steps);
    LimitFixed(Init(limit), steps);
  }

  // ---------- tracked cleanup can be confirmed ----------

  predicate Tracks(s: State, l: LeaseId) { l in s.ledger.leases ==> s.ledger.leases[l].tracking }

  lemma TracksStays(s: State, step: Step, l: LeaseId)
    requires l < s.next && Tracks(s, l) && Enabled(s, step)
    ensures l < Apply(s, step).next && Tracks(Apply(s, step), l)
  {
  }

  lemma {:induction false} TracksToTheEnd(s: State, steps: seq<Step>, l: LeaseId)
    requires l < s.next && Tracks(s, l) && Runs(s, steps)
    ensures Tracks(After(s, steps), l)
    decreases |steps|
  {
    if steps != [] {
      TracksStays(s, steps[0], l);
      TracksToTheEnd(Apply(s, steps[0]), steps[1..], l);
    }
  }

  predicate ReportedTracked(steps: seq<Step>, i: nat) { Report(i, Tracked) in steps || StartFails(i, true) in steps }

  lemma {:induction false} ReportedTracks(s: State, steps: seq<Step>, i: nat, l: LeaseId)
    requires Inv(s) && Runs(s, steps) && ReportedTracked(steps, i)
    requires i < |After(s, steps).calls| && After(s, steps).calls[i].lease == l
    ensures Tracks(After(s, steps), l)
    decreases |steps|
  {
    var t := Apply(s, steps[0]);
    assert steps == [steps[0]] + steps[1..];
    if steps[0] == Report(i, Tracked) || steps[0] == StartFails(i, true) {
      LeaseFixed(s, steps, i);
      assert l < t.next && Tracks(t, l);
      TracksToTheEnd(t, steps[1..], l);
    } else {
      StepKeeps(s, steps[0]);
      ReportedTracks(t, steps[1..], i, l);
    }
  }

  predicate Tracking(s: State, l: LeaseId) { l in s.ledger.leases && s.ledger.leases[l].tracking }

  /** Somebody who reported it with its owners. */
  ghost predicate Tracker(s: State, steps: seq<Step>, l: LeaseId) {
    exists i :: 0 <= i < |s.calls| && s.calls[i].lease == l && HasActivated(s.calls[i]) && ReportedTracked(steps, i)
  }

  lemma TrackingFromReport(s: State, step: Step, l: LeaseId)
    requires Enabled(s, step) && Tracking(Apply(s, step), l)
    ensures Tracking(s, l) || Tracker(Apply(s, step), [step], l)
  {
    if !Tracking(s, l) {
      assert step.Report? || step.StartFails?;
      var t := Apply(s, step);
      assert t.calls[step.i].lease == l && HasActivated(t.calls[step.i]) && ReportedTracked([step], step.i);
    }
  }

  lemma {:induction false} TrackingHasReporter(s: State, steps: seq<Step>, l: LeaseId)
    requires Runs(s, steps) && Tracking(After(s, steps), l)
    ensures Tracking(s, l) || Tracker(After(s, steps), steps, l)
    decreases |steps|
  {
    if steps != [] {
      var step, t := steps[0], Apply(s, steps[0]);
      assert steps == [step] + steps[1..];
      TrackingHasReporter(t, steps[1..], l);
      if Tracker(After(s, steps), steps[1..], l) {
        var i :| 0 <= i < |After(s, steps).calls| && After(s, steps).calls[i].lease == l
              && HasActivated(After(s, steps).calls[i]) && ReportedTracked(steps[1..], i);
        assert ReportedTracked(steps, i);
      } else {
        TrackingFromReport(s, step, l);
        if Tracker(t, [step], l) {
          var i :| 0 <= i < |t.calls| && t.calls[i].lease == l && HasActivated(t.calls[i]) && ReportedTracked([step], i);
          ReporterStays(t, steps[1..], i);
          assert ReportedTracked(steps, i);
        }
      }
    }
  }

  /** A watcher can confirm exactly the cleanups that were reported with their owners, as long as nothing else has: an
      error without owners is never taken for disposal. */
  lemma WatcherConfirmsIff(limit: nat, steps: seq<Step>, i: nat)
    requires Runs(Init(limit), steps)
    requires var s := After(Init(limit), steps);
             i < |s.calls| && Owns(s.calls[i]) && Unconfirmed(steps, i, s.calls[i].lease)
    ensures var s := After(Init(limit), steps);
            Enabled(s, OwnersDone(s.calls[i].lease)) <==> ReportedTracked(steps, i)
  {
    var s := After(Init(limit), steps);
    var l := s.calls[i].lease;
    InitInv(limit);
    OwnersKeepTheirSlots(limit, steps, i);
    if ReportedTracked(steps, i) { ReportedTracks(Init(limit), steps, i, l); }
    if Tracking(s, l) {
      TrackingHasReporter(Init(limit), steps, l);
      var j :| 0 <= j < |s.calls| && s.calls[j].lease == l && HasActivated(s.calls[j]) && ReportedTracked(steps, j);
      Reachable(limit, steps);
      if j != i { OnlyOwner(s, i, j); }
    }
  }

  // ---------- Close can finish ----------

  function CloserRank(c: Closer): nat {
    match c
    case Entering => 4
    case Queued => 3
    case Announced => 2
    case Holding => 1
    case Returned => 0
  }

  function ClosersRank(closers: seq<Closer>): nat {
    if closers == [] then 0 else CloserRank(closers[0]) + ClosersRank(closers[1..])
  }

  lemma {:induction false} ClosersRankAfter(closers: seq<Closer>, k: nat, c: Closer)
    requires k < |closers|
    ensures ClosersRank(closers[k := c]) == ClosersRank(closers) - CloserRank(closers[k]) + CloserRank(c)
  {
    if k > 0 {
      assert closers[k := c][1..] == closers[1..][k - 1 := c];
      ClosersRankAfter(closers[1..], k - 1, c);
    } else {
      assert closers[k := c][1..] == closers[1..];
    }
  }

  function CloseWork(s: State): nat { CallsRank(s.calls) + ClosersRank(s.closers) }

  /** The step moves a closer on, or a reader that holds the lock. */
  predicate Advances(step: Step) {
    ReaderStep(step) || step.CloseAdmission? || step.Announce? || step.Lock? || step.CloseBacking?
  }

  lemma AdvancesLowers(s: State, step: Step)
    requires Enabled(s, step) && Advances(step)
    ensures CloseWork(Apply(s, step)) < CloseWork(s) && |Apply(s, step).closers| == |s.closers|
  {
    if ReaderStep(step) {
      ReaderAdvances(s, step);
    } else {
      ClosersRankAfter(s.closers, step.k, Apply(s, step).closers[step.k]);
    }
  }

  /** While a Close has not returned, some step advances one. */
  lemma SomeCloseAdvances(s: State, k: nat) returns (step: Step)
    requires k < |s.closers| && s.closers[k] != Returned
    ensures Enabled(s, step) && Advances(step)
  {
    match s.closers[k]
    case Entering => step := CloseAdmission(k);
    case Holding => step := CloseBacking(k);
    case Announced => step := LockOrReader(s, k);
    case Queued =>
      if j :| 0 <= j < |s.closers| && s.closers[j] == Holding {
        step := CloseBacking(j);
      } else if j :| 0 <= j < |s.closers| && s.closers[j] == Announced {
        step := LockOrReader(s, j);
      } else {
        step := Announce(k);
      }
  }

  lemma ThenRuns(s: State, step: Step, rest: seq<Step>)
    requires Enabled(s, step) && Runs(Apply(s, step), rest)
    ensures Runs(s, [step] + rest) && After(s, [step] + rest) == After(Apply(s, step), rest)
  {
    assert ([step] + rest)[1..] == rest;
  }

  /** Every Close can return, with the backing closed, from any reachable state and within `CloseWork` steps: the
      startups ahead of it, the other closers, and its own. */
  lemma {:induction false} CloseGoesThrough(s: State, k: nat) returns (steps: seq<Step>)
    requires Inv(s) && k < |s.closers|
    ensures Runs(s, steps) && |steps| <= CloseWork(s)
    ensures var t := After(s, steps);
            k < |t.closers| && t.closers[k] == Returned && t.closed && t.backingCloses == 1
    decreases CloseWork(s)
  {
    if s.closers[k] == Returned { return []; }
    var step := SomeCloseAdvances(s, k);
    AdvancesLowers(s, step);
    StepKeeps(s, step);
    var rest := CloseGoesThrough(Apply(s, step), k);
    ThenRuns(s, step, rest);
    steps := [step] + rest;
  }

  /** A call of Close is registered, and stays until it returns. */
  lemma CallIsServed(s: State)
    ensures Enabled(s, CallClose)
    ensures var t := Apply(s, CallClose); |t.closers| == |s.closers| + 1 && t.closers[|s.closers|] == Entering
  {
  }

  /** Startups may fail either way, a Database may report either way, and a reservation may be cancelled, or tried, at
      any time. */
  lemma AnyReportMayCome(s: State, i: nat)
    ensures forall l: nat | l < s.next :: Enabled(s, CancelReservation(l)) && Enabled(s, StartCall(l))
    ensures At(s, i, Starting) ==> Enabled(s, StartSucceeds(i)) && forall pending :: Enabled(s, StartFails(i, pending))
    ensures OutcomeIs(s, i, Started) ==> forall report :: Enabled(s, Report(i, report))
    ensures OutcomeIs(s, i, FailedPending) ==> Enabled(s, Report(i, Confirmed))
  {
  }
}
