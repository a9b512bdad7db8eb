/** What a Snapshot promises its forks and its Close, over every interleaving. */
module SnapshotTheorems {
  import opened ForkLedger
  import opened SnapshotForks
  import NatSets

  // ---------- what a Snapshot promises ----------

  lemma Reachable(limit: nat, steps: seq<Step>)
    requires Runs(Init(limit), steps)
    ensures Inv(After(Init(limit), steps))
  {
    InitInv(limit);
    RunKeeps(Init(limit), steps);
  }

  /** Over every interleaving of any number of calls and closers: while a startup uses the backing it is open and
      its lease occupies a slot; the backing is closed at most once, by a closer that no startup overlaps; and
      nothing starts on a closed backing. */
  lemma BackingOutlivesStartups(limit: nat, steps: seq<Step>, i: nat)
    requires Runs(Init(limit), steps) && At(After(Init(limit), steps), i, Starting)
    ensures var s := After(Init(limit), steps);
            && !s.closed && s.backingCloses == 0
            && s.calls[i].lease in s.ledger.leases && s.ledger.leases[s.calls[i].lease].active
            && forall k :: !Enabled(s, CloseBacking(k))
  {
    Reachable(limit, steps);
    var s := After(Init(limit), steps);
    assert Reading(s.calls[i].phase);
  }

  lemma ClosedOnce(limit: nat, steps: seq<Step>)
    requires Runs(Init(limit), steps)
    ensures After(Init(limit), steps).backingCloses <= 1
    ensures (exists k :: 0 <= k < |After(Init(limit), steps).closers| && After(Init(limit), steps).closers[k] == Returned)
              ==> After(Init(limit), steps).backingCloses == 1
  {
    Reachable(limit, steps);
  }

  /** Conservation of leases over every run: never more slots than the limit; every slot is a reservation nobody
      activated, or belongs to exactly one call: its running startup, the Database it returned, or the cleanup
      its failure left; a lease whose startup failed cleanly occupies nothing. */
  lemma EveryLeaseHasOneOwner(limit: nat, steps: seq<Step>, l: LeaseId)
    requires Runs(Init(limit), steps) && l in After(Init(limit), steps).ledger.leases
    ensures var s := After(Init(limit), steps);
            && |s.ledger.leases| <= s.ledger.limit
            && (s.ledger.leases[l].active <==> OwnerExists(s, l))
            && (forall i, j | 0 <= i < |s.calls| && 0 <= j < |s.calls| && Owns(s.calls[i]) && Owns(s.calls[j])
                  && s.calls[i].lease == l && s.calls[j].lease == l :: i == j)
            && (forall i | 0 <= i < |s.calls| && s.calls[i].lease == l && HasActivated(s.calls[i]) :: Owns(s.calls[i]))
  {
    Reachable(limit, steps);
    var s := After(Init(limit), steps);
    if OwnerExists(s, l) {
      var i :| 0 <= i < |s.calls| && s.calls[i].lease == l && Owns(s.calls[i]);
    }
  }

  // ---------- an owner keeps its slot ----------

  /** Nothing in `steps` confirmed the disposal of what call `i` owns under lease `l`. */
  predicate Unconfirmed(steps: seq<Step>, i: nat, l: LeaseId) {
    Report(i, Confirmed) !in steps && OwnersDone(l) !in steps
  }

  /** If call `i` owns lease `l`, the lease occupies a slot. */
  predicate KeepsSlot(s: State, i: nat, l: LeaseId) {
    i < |s.calls| && s.calls[i].lease == l && Owns(s.calls[i]) ==> l in s.ledger.leases
  }

  /** What another call reports, or a clean failure, is about another lease. */
  lemma OthersKeepSlot(s: State, step: Step, i: nat, l: LeaseId)
    requires LeasesOk(s) && Enabled(s, step) && (step.Report? || step.StartFails?)
    requires KeepsSlot(s, i, l) && step != Report(i, Confirmed)
    ensures KeepsSlot(Apply(s, step), i, l)
  {
    if i < |s.calls| && HasActivated(s.calls[i]) && step.i != i {
      assert HasActivated(s.calls[step.i]);
      OnlyOwner(s, i, step.i);
    }
  }

  lemma CheckKeepsSlot(s: State, j: nat, i: nat, l: LeaseId)
    requires LeasesOk(s) && Enabled(s, Check(j)) && KeepsSlot(s, i, l)
    ensures KeepsSlot(Apply(s, Check(j)), i, l)
  {
  }

  lemma StepKeepsSlot(s: State, step: Step, i: nat, l: LeaseId)
    requires LeasesOk(s) && Enabled(s, step)
    requires KeepsSlot(s, i, l) && step != Report(i, Confirmed) && step != OwnersDone(l)
    ensures KeepsSlot(Apply(s, step), i, l)
  {
    match step
    case Report(_, _) => OthersKeepSlot(s, step, i, l);
    case StartFails(_, _) => OthersKeepSlot(s, step, i, l);
    case Check(j) => CheckKeepsSlot(s, j, i, l);
    case _ =>
  }

  lemma {:induction false} RunKeepsSlot(s: State, steps: seq<Step>, i: nat, l: LeaseId)
    requires Inv(s) && Runs(s, steps)
    requires KeepsSlot(s, i, l) && Unconfirmed(steps, i, l)
    ensures KeepsSlot(After(s, steps), i, l)
    decreases |steps|
  {
    if steps != [] {
      assert steps[0] in steps;
      assert forall step | step in steps[1..] :: step in steps;
      StepKeepsSlot(s, steps[0], i, l);
      StepKeeps(s, steps[0]);
      RunKeepsSlot(Apply(s, steps[0]), steps[1..], i, l);
    }
  }

  lemma {:induction false} LeaseFixed(s: State, steps: seq<Step>, i: nat)
    requires Runs(s, steps) && i < |s.calls|
    ensures i < |After(s, steps).calls| && After(s, steps).calls[i].lease == s.calls[i].lease
    decreases |steps|
  {
    if steps != [] { LeaseFixed(Apply(s, steps[0]), steps[1..], i); }
  }

  /** Leases are never reused: a slot that was given up stays free. */
  lemma {:induction false} FreedStaysFree(s: State, steps: seq<Step>, l: LeaseId)
    requires l < s.next && l !in s.ledger.leases && Runs(s, steps)
    ensures l !in After(s, steps).ledger.leases
    decreases |steps|
  {
    if steps != [] { FreedStaysFree(Apply(s, steps[0]), steps[1..], l); }
  }

  lemma OneStepFrees(s: State, step: Step, i: nat, l: LeaseId)
    requires LeasesOk(s) && Enabled(s, step) && (step == Report(i, Confirmed) || step == OwnersDone(l))
    requires i < |s.calls| ==> s.calls[i].lease == l
    ensures l < Apply(s, step).next && l !in Apply(s, step).ledger.leases
  {
  }

  lemma {:induction false} ConfirmationFrees(s: State, steps: seq<Step>, i: nat, l: LeaseId)
    requires Inv(s) && Runs(s, steps) && !Unconfirmed(steps, i, l)
    requires i < |After(s, steps).calls| && After(s, steps).calls[i].lease == l
    ensures l !in After(s, steps).ledger.leases
    decreases |steps|
  {
    var t := Apply(s, steps[0]);
    StepKeeps(s, steps[0]);
    if i < |s.calls| { LeaseFixed(s, steps, i); }
    if steps[0] == Report(i, Confirmed) || steps[0] == OwnersDone(l) {
      OneStepFrees(s, steps[0], i, l);
      FreedStaysFree(t, steps[1..], l);
    } else {
      assert steps == [steps[0]] + steps[1..];
      ConfirmationFrees(t, steps[1..], i, l);
    }
  }

  /** No owner loses its lease, and no lease outlives its owner: a startup, a returned Database, or the cleanup that a failed
      startup left behind occupies its slot exactly until its own disposal is confirmed, whatever else it reports and
      whatever anybody else does. */
  lemma OwnersKeepTheirSlots(limit: nat, steps: seq<Step>, i: nat)
    requires Runs(Init(limit), steps)
    requires var s := After(Init(limit), steps); i < |s.calls| && Owns(s.calls[i])
    ensures var s := After(Init(limit), steps);
            s.calls[i].lease in s.ledger.leases <==> Unconfirmed(steps, i, s.calls[i].lease)
  {
    var l := After(Init(limit), steps).calls[i].lease;
    InitInv(limit);
    if Unconfirmed(steps, i, l) {
      RunKeepsSlot(Init(limit), steps, i, l);
    } else {
      ConfirmationFrees(Init(limit), steps, i, l);
    }
  }

  /** The calls whose startup runs, whose Database was returned, or whose failure left a cleanup, and whose disposal
      nothing has confirmed. */
  ghost function LiveCalls(s: State, steps: seq<Step>): set<nat> {
    set i | 0 <= i < |s.calls| && Owns(s.calls[i]) && Unconfirmed(steps, i, s.calls[i].lease)
  }

  lemma {:induction false} LimitFixed(s: State, steps: seq<Step>)
    requires Runs(s, steps)
    ensures After(s, steps).ledger.limit == s.ledger.limit
    decreases |steps|
  {
    if steps != [] { LimitFixed(Apply(s, steps[0]), steps[1..]); }
  }

  /** Distinct owners occupy distinct slots. */
  lemma {:induction false} DistinctSlots(s: State, owners: set<nat>)
    requires LeasesOk(s)
    requires forall i | i in owners ::
               i < |s.calls| && HasActivated(s.calls[i]) && s.calls[i].lease in s.ledger.leases
    ensures |owners| <= |s.ledger.leases|
  {
    var slots := set i | i in owners :: s.calls[i].lease;
    SlotForEach(s, owners, slots);
    NatSets.SubsetSize(slots, s.ledger.leases.Keys);
    assert |s.ledger.leases.Keys| == |s.ledger.leases|;
  }

  lemma {:induction false} SlotForEach(s: State, owners: set<nat>, slots: set<LeaseId>)
    requires LeasesOk(s)
    requires forall i | i in owners :: i < |s.calls| && HasActivated(s.calls[i])
    requires forall l :: l in slots <==> exists i :: i in owners && s.calls[i].lease == l
    ensures |slots| == |owners|
    decreases |owners|
  {
    if owners == {} {
      assert slots == {};
    } else {
      var j :| j in owners;
      var rest := owners - {j};
      forall i | i in rest
        ensures s.calls[i].lease != s.calls[j].lease
      {
        OnlyOwner(s, i, j);
      }
      SlotForEach(s, rest, slots - {s.calls[j].lease});
    }
  }

  /** The limit is a limit on databases, not only on the ledger's entries: in every run the startups, returned
      Databases and pending cleanups that nothing has confirmed are never more than MaxForks. */
  lemma LimitBoundsDatabases(limit: nat, steps: seq<Step>)
    requires Runs(Init(limit), steps)
    ensures |LiveCalls(After(Init(limit), steps), steps)| <= limit
  {
    var s := After(Init(limit), steps);
    Reachable(limit, steps);
    LimitFixed(Init(limit), steps);
    var live := LiveCalls(s, steps);
    forall i | i in live
      ensures s.calls[i].lease in s.ledger.leases
    {
      OwnersKeepTheirSlots(limit, steps, i);
    }
    DistinctSlots(s, live);
  }

  /** A second startup on the same reservation is rejected and releases nothing. */
  lemma DuplicateStartIsRejected(s: State, i: nat, j: nat)
    requires LeasesOk(s) && i < |s.calls| && Owns(s.calls[i]) && At(s, j, Pinned)
    requires s.calls[j].lease == s.calls[i].lease
    ensures var t := Apply(s, Check(j));
            At(t, j, Unlocking(Rejected)) && t.ledger == s.ledger
  {
    var l := s.calls[i].lease;
    if l in s.ledger.leases {
      assert s.ledger.leases[l].active;
    } else {
      assert s.ledger.leases - {l} == s.ledger.leases;
    }
  }

  // ---------- Close is not starved ----------

  function CallRank(c: Call): nat {
    if c.phase == Pinned then 3 else if c.phase == Starting then 2 else if c.phase.Unlocking? then 1 else 0
  }

  function CallsRank(calls: seq<Call>): nat {
    if calls == [] then 0 else CallRank(calls[0]) + CallsRank(calls[1..])
  }

  lemma {:induction false} CallsRankAfter(calls: seq<Call>, i: nat, c: Call)
    requires i < |calls|
    ensures CallsRank(calls[i := c]) == CallsRank(calls) - CallRank(calls[i]) + CallRank(c)
  {
    if i > 0 {
      assert calls[i := c][1..] == calls[1..][i - 1 := c];
      CallsRankAfter(calls[1..], i - 1, c);
    } else {
      assert calls[i := c][1..] == calls[1..];
    }
  }

  lemma {:induction false} CallsRankAppend(calls: seq<Call>, c: Call)
    ensures CallsRank(calls + [c]) == CallsRank(calls) + CallRank(c)
  {
    if calls != [] {
      assert (calls + [c])[1..] == calls[1..] + [c];
      CallsRankAppend(calls[1..], c);
    } else {
      assert calls + [c] == [c];
    }
  }

  /** Steps of readers that already hold the lock. */
  predicate ReaderStep(step: Step) {
    step.Check? || step.StartFails? || step.StartSucceeds? || step.RUnlock?
  }

  lemma ReaderAdvances(s: State, step: Step)
    requires Enabled(s, step) && ReaderStep(step)
    ensures CallsRank(Apply(s, step).calls) < CallsRank(s.calls)
  {
    CallsRankAfter(s.calls, step.i, Apply(s, step).calls[step.i]);
  }

  /** Once a Close is announced, the readers ahead of it can only run out: no other step adds one, and each reader
      step brings the lock nearer. */
  lemma AnnouncedCloseAdvances(s: State, k: nat, step: Step)
    requires k < |s.closers| && s.closers[k] == Announced && Enabled(s, step)
    ensures CallsRank(Apply(s, step).calls) <= CallsRank(s.calls)
    ensures ReaderStep(step) ==> CallsRank(Apply(s, step).calls) < CallsRank(s.calls)
  {
    assert !NoWriter(s);
    if ReaderStep(step) {
      ReaderAdvances(s, step);
    } else if step.StartCall? {
      CallsRankAppend(s.calls, Call(step.l, Wanting));
    }
  }

  lemma AnnouncedStays(s: State, k: nat, step: Step)
    requires PinOk(s) && k < |s.closers| && s.closers[k] == Announced && Enabled(s, step) && step != Lock(k)
    ensures k < |Apply(s, step).closers| && Apply(s, step).closers[k] == Announced
  {
  }

  function ReaderSteps(steps: seq<Step>): nat {
    if steps == [] then 0 else (if ReaderStep(steps[0]) then 1 else 0) + ReaderSteps(steps[1..])
  }

  /** An announced Close waits for at most `CallsRank` reader steps, however many calls, reports and other closers
      come in between: a run with more of them has let it take the lock. */
  lemma {:induction false} CloseIsNotStarved(s: State, k: nat, steps: seq<Step>)
    requires Inv(s) && k < |s.closers| && s.closers[k] == Announced && Runs(s, steps)
    requires Lock(k) !in steps
    ensures ReaderSteps(steps) <= CallsRank(s.calls)
    decreases |steps|
  {
    if steps != [] {
      assert steps[0] in steps;
      AnnouncedCloseAdvances(s, k, steps[0]);
      AnnouncedStays(s, k, steps[0]);
      StepKeeps(s, steps[0]);
      CloseIsNotStarved(Apply(s, steps[0]), k, steps[1..]);
    }
  }

  lemma LockOrReader(s: State, k: nat) returns (step: Step)
    requires k < |s.closers| && s.closers[k] == Announced
    ensures Enabled(s, step) && (step == Lock(k) || ReaderStep(step))
  {
    if i :| 0 <= i < |s.calls| && Reading(s.calls[i].phase) {
      match s.calls[i].phase
      case Pinned => step := Check(i);
      case Starting => step := StartSucceeds(i);
      case Unlocking(_) => step := RUnlock(i);
    } else {
      step := Lock(k);
    }
  }
}
