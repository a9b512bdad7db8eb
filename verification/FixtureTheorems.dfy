/** The fixture's promises, over every interleaving. */
module FixtureTheorems {
  import opened Fixture
  import opened FixtureInvariant
  import NatSets

  // ---------- permits bound the live databases ----------

  predicate CleanlyClosed(log: seq<Event>, c: nat) {
    DbClosed(c, true) in log && PoolClosed(c, false) !in log
  }

  /** The children that were forked and whose disposal has not been confirmed, read off the history alone. */
  ghost function Outstanding(log: seq<Event>): set<nat> {
    set e | e in log && e.Forked? && !CleanlyClosed(log, e.child) :: e.child
  }

  lemma OutstandingHoldTokens(s: State)
    requires ChildrenOk(s) && LogOk(s)
    ensures Outstanding(s.log) <= Held(s.children)
  {
    forall c: nat | c in Outstanding(s.log)
      ensures c in Held(s.children)
    {
      var e := Forked(c);
      assert e in s.log && e.child < |s.children|;
      var ch := s.children[c];
      assert LogLink(s.log, c, ch) && ChildOk(ch);
      assert DbStepDone(ch.disposal) && !ch.Dirty() ==> CleanlyClosed(s.log, c);
    }
  }

  /** Child c's owner has sent a token. */
  predicate TookToken(steps: seq<Step>, c: nat) { Owner(c, Token) in steps }

  /** The disposal of child c is over. */
  predicate DisposalOver(steps: seq<Step>, c: nat) { Body(c, Settle) in steps }

  predicate CleanupFailed(log: seq<Event>, c: nat) {
    PoolClosed(c, false) in log || DbClosed(c, false) in log
  }

  /** The children that took a token, and whose disposal is not over or had a closing call fail: read off the run. */
  ghost function Holders(s: State, steps: seq<Step>): set<nat> {
    set c | 0 <= c < |s.children| && TookToken(steps, c) && !(DisposalOver(steps, c) && !CleanupFailed(s.log, c))
  }

  predicate Permitted(s: State, c: nat) { c < |s.children| && s.children[c].permit }

  predicate IsDisposed(s: State, c: nat) { c < |s.children| && s.children[c].disposal == Disposed }

  lemma OwnerMarks(s: State, d: nat, act: OwnerAct, c: nat)
    requires OwnerEnabled(s, d, act)
    ensures Permitted(OwnerApply(s, d, act), c) <==> Permitted(s, c) || (d == c && act == Token)
    ensures IsDisposed(OwnerApply(s, d, act), c) <==> IsDisposed(s, c)
  {
  }

  lemma BodyMarks(s: State, d: nat, act: BodyAct, c: nat)
    requires BodyEnabled(s, d, act)
    ensures Permitted(BodyApply(s, d, act), c) <==> Permitted(s, c)
    ensures IsDisposed(BodyApply(s, d, act), c) <==> IsDisposed(s, c) || (d == c && act == Settle)
  {
  }

  lemma OtherMarks(s: State, step: Step, c: nat)
    requires Enabled(s, step) && (step.Close? || step.Client?)
    ensures Permitted(Apply(s, step), c) <==> Permitted(s, c)
    ensures IsDisposed(Apply(s, step), c) <==> IsDisposed(s, c)
  {
  }

  lemma StepMarks(s: State, step: Step, c: nat)
    requires Enabled(s, step)
    ensures Permitted(Apply(s, step), c) <==> Permitted(s, c) || step == Owner(c, Token)
    ensures IsDisposed(Apply(s, step), c) <==> IsDisposed(s, c) || step == Body(c, Settle)
  {
    match step
    case Owner(d, act) => OwnerMarks(s, d, act, c);
    case Body(d, act) => BodyMarks(s, d, act, c);
    case _ => OtherMarks(s, step, c);
  }

  lemma {:induction false} RunMarks(s: State, steps: seq<Step>, c: nat)
    requires Runs(s, steps)
    ensures Permitted(After(s, steps), c) <==> Permitted(s, c) || TookToken(steps, c)
    ensures IsDisposed(After(s, steps), c) <==> IsDisposed(s, c) || DisposalOver(steps, c)
    decreases |steps|
  {
    if steps != [] {
      assert steps == [steps[0]] + steps[1..];
      StepMarks(s, steps[0], c);
      RunMarks(Apply(s, steps[0]), steps[1..], c);
    }
  }

  lemma HoldsIff(s: State, c: nat)
    requires ChildrenOk(s) && LogOk(s) && c < |s.children|
    ensures Holds(s.children[c]) <==> Permitted(s, c) && !(IsDisposed(s, c) && !CleanupFailed(s.log, c))
  {
    assert LogLink(s.log, c, s.children[c]) && ChildOk(s.children[c]);
  }

  /** In every interleaving: the tokens in the channel are exactly the children that sent one and did not get it back,
      because their disposal is not over or failed; a cleanly closed child gives its token back. There are never more
      than MaxForks of them, and so never more than MaxForks databases that were forked and not yet confirmed closed.
      When Close is over, only the failed cleanups still hold theirs. */
  lemma TokensBoundDatabases(capacity: nat, steps: seq<Step>)
    requires Runs(Init(capacity), steps)
    ensures var s := After(Init(capacity), steps);
            && s.capacity == capacity
            && s.permits == |Holders(s, steps)| <= capacity
            && |Outstanding(s.log)| <= capacity
            && (s.closing == Closed ==> s.permits == |s.debt|)
  {
    InitInv(capacity);
    RunKeeps(Init(capacity), steps);
    CapacityFixed(Init(capacity), steps);
    var s := After(Init(capacity), steps);
    OutstandingHoldTokens(s);
    NatSets.SubsetSize(Outstanding(s.log), Held(s.children));
    forall c | 0 <= c < |s.children|
      ensures c in Held(s.children) <==> c in Holders(s, steps)
    {
      RunMarks(Init(capacity), steps, c);
      HoldsIff(s, c);
    }
    assert Held(s.children) == Holders(s, steps);
    if s.closing == Closed { OnlyDebtsHold(s); }
  }

  lemma OnlyDebtsHold(s: State)
    requires ChildrenOk(s) && DebtOk(s) && CloseOk(s) && s.closing == Closed
    ensures Held(s.children) == s.debt
  {
    forall c | 0 <= c < |s.children|
      ensures Holds(s.children[c]) <==> Owes(s.children[c])
    {
      assert ChildOk(s.children[c]);
    }
  }

  /** An acquisition waits only for a token: its owner, or the disposal it is in, can move without its context expiring
      unless it stands at a full channel of an open fixture. */
  lemma AcquirersWaitOnlyForTokens(s: State, c: nat)
    requires ChildrenOk(s) && CountsOk(s) && c < |s.children| && s.children[c].phase != Gone
    ensures CanMove(s, c) <==> !(s.children[c].phase == Acquiring && s.permits == s.capacity && !s.closed)
  {
    assert ChildOk(s.children[c]);
    if s.children[c].phase == Acquiring { AcquirerMovesIff(s, c); } else { OwnerOrBodyMoves(s, c); }
  }

  lemma AcquirerMovesIff(s: State, c: nat)
    requires c < |s.children| && s.children[c].phase == Acquiring && s.permits <= s.capacity
    requires s.children[c].disposal == Idle
    ensures CanMove(s, c) <==> s.permits < s.capacity || s.closed
  {
    if s.permits < s.capacity { OwnerMoves(s, c, Token); }
    if s.closed { OwnerMoves(s, c, Stopped); }
  }

  /** The owner, or the disposal of its child, can move without the owner's context expiring. */
  ghost predicate CanMove(s: State, c: nat) {
    (exists act: OwnerAct :: act != Expired && OwnerEnabled(s, c, act)) || (exists act :: BodyEnabled(s, c, act))
  }

  lemma OwnerMoves(s: State, c: nat, act: OwnerAct)
    requires act != Expired && OwnerEnabled(s, c, act)
    ensures CanMove(s, c)
  {
  }

  lemma OwnerOrBodyMoves(s: State, c: nat)
    requires ChildrenOk(s) && CountsOk(s) && c < |s.children| && s.children[c].phase != Gone && s.children[c].phase != Acquiring
    ensures CanMove(s, c)
  {
    match s.children[c].phase
    case Rechecking => OwnerMoves(s, c, Recheck);
    case CheckingContext => OwnerMoves(s, c, ContextAlive);
    case Forking => OwnerMoves(s, c, Fork(true, true));
    case Opening => OwnerMoves(s, c, OpenPool(true, true));
    case Pinging => OwnerMoves(s, c, Ping(true));
    case RecheckingAgain => OwnerMoves(s, c, RecheckAgain);
    case Registering => OwnerMoves(s, c, Register);
    case Unwinding => UnwindingMoves(s, c);
    case ReadingDebt => OwnerMoves(s, c, ReadDebt);
    case Recording => OwnerMoves(s, c, Record);
    case Announcing => OwnerMoves(s, c, Announce);
    case Leaving => OwnerMoves(s, c, Leave);
  }

  lemma UnwindingMoves(s: State, c: nat)
    requires ChildrenOk(s) && CountsOk(s) && c < |s.children| && s.children[c].phase == Unwinding
    ensures CanMove(s, c)
  {
    match s.children[c].disposal
    case Idle => assert OwnerEnabled(s, c, EnterDispose);
    case ClosingPool => assert BodyEnabled(s, c, ClosePool(true));
    case ClosingDb => assert BodyEnabled(s, c, CloseDb(true));
    case Settling => SettleNeverBlocks(s, c);
    case Disposed => assert OwnerEnabled(s, c, LeaveDispose);
  }

  lemma {:induction false} CapacityFixed(s: State, steps: seq<Step>)
    requires Runs(s, steps)
    ensures After(s, steps).capacity == s.capacity
    decreases |steps|
  {
    if steps != [] { CapacityFixed(Apply(s, steps[0]), steps[1..]); }
  }

  /** `<-f.permits` in dispose has no select, and never needs one. */
  lemma ReceiveNeverBlocks(capacity: nat, steps: seq<Step>, c: nat)
    requires Runs(Init(capacity), steps)
    requires var s := After(Init(capacity), steps); c < |s.children| && s.children[c].disposal == Settling
    ensures Enabled(After(Init(capacity), steps), Body(c, Settle))
  {
    InitInv(capacity);
    RunKeeps(Init(capacity), steps);
    SettleNeverBlocks(After(Init(capacity), steps), c);
  }

  // ---------- each call to the environment once, in order ----------

  /** The same call, whatever it answered. */
  predicate SameCall(a: Event, b: Event) {
    match (a, b)
    case (PoolClosed(c, _), PoolClosed(d, _)) => c == d
    case (DbClosed(c, _), DbClosed(d, _)) => c == d
    case (BaselineClosed(_), BaselineClosed(_)) => true
    case _ => a == b
  }

  lemma NoCallRepeats(log: seq<Event>, i: nat, j: nat)
    requires WellOrdered(log) && i < j < |log|
    ensures !SameCall(log[i], log[j])
  {
    var past := log[..j];
    assert MayFollow(past, log[j]);
    assert past[i] == log[i] && log[i] in past;
    assert log[i].BaselineClosed? ==> BaselineIsClosed(past);
    assert log[i].PoolClosed? ==> PoolIsClosed(past, log[i].child);
    assert log[i].DbClosed? ==> DbIsClosed(past, log[i].child);
  }

  lemma AllCallsDiffer(log: seq<Event>)
    requires WellOrdered(log)
    ensures forall i, j | 0 <= i < j < |log| :: !SameCall(log[i], log[j])
  {
    forall i, j | 0 <= i < j < |log|
      ensures !SameCall(log[i], log[j])
    {
      NoCallRepeats(log, i, j);
    }
  }

  /** Over every run: every environment call happens at most once per child, in the order the monitor allows;
      and when Close has returned, every database and pool ever opened has been closed, each pool before its
      database, all before the baseline, which is the last call of all. */
  lemma ClosedOnceInOrder(capacity: nat, steps: seq<Step>)
    requires Runs(Init(capacity), steps)
    ensures var s := After(Init(capacity), steps);
            && WellOrdered(s.log)
            && (forall i, j | 0 <= i < j < |s.log| :: !SameCall(s.log[i], s.log[j]))
            && (s.closing == Closed ==>
                  && |s.log| > 0 && s.log[|s.log| - 1].BaselineClosed?
                  && (forall c :: PoolOpened(c) in s.log ==> PoolIsClosed(s.log, c))
                  && (forall c :: Forked(c) in s.log ==> DbIsClosed(s.log, c)))
  {
    InitInv(capacity);
    RunKeeps(Init(capacity), steps);
    var s := After(Init(capacity), steps);
    AllCallsDiffer(s.log);
    if s.closing == Closed { BaselineIsLast(s.log); }
  }

  lemma EarlierOrLast(log: seq<Event>, e: Event)
    requires |log| > 0
    ensures e in log <==> e in log[..|log| - 1] || e == log[|log| - 1]
  {
    assert log == log[..|log| - 1] + [log[|log| - 1]];
  }

  lemma BaselineIsLast(log: seq<Event>)
    requires WellOrdered(log) && BaselineIsClosed(log)
    ensures |log| > 0 && log[|log| - 1].BaselineClosed?
    ensures forall c :: PoolOpened(c) in log ==> PoolIsClosed(log, c)
    ensures forall c :: Forked(c) in log ==> DbIsClosed(log, c)
  {
    var past, last := log[..|log| - 1], log[|log| - 1];
    assert MayFollow(past, last);
    EarlierOrLast(log, BaselineClosed(true));
    EarlierOrLast(log, BaselineClosed(false));
    forall c: nat
      ensures PoolOpened(c) in log ==> PoolIsClosed(log, c)
      ensures Forked(c) in log ==> DbIsClosed(log, c)
    {
      EarlierOrLast(log, PoolOpened(c));
      EarlierOrLast(log, Forked(c));
      EarlierOrLast(log, PoolClosed(c, true));
      EarlierOrLast(log, PoolClosed(c, false));
      EarlierOrLast(log, DbClosed(c, true));
      EarlierOrLast(log, DbClosed(c, false));
    }
  }

  // ---------- what Close may rely on once starting.Wait() has returned ----------

  /** Nothing that Close, or a caller that saw the entries, depends on has moved. */
  ghost predicate Frozen(s: State, t: State) {
    && PastWait(t)
    && t.entries == s.entries
    && t.starting == 0
    && |t.children| == |s.children|
    && forall c | 0 <= c < |s.children| ::
         t.children[c].db == s.children[c].db && t.children[c].pool == s.children[c].pool
  }

  lemma NoOwnerIsLeft(s: State, c: nat, act: OwnerAct)
    requires CountsOk(s) && CloseOk(s) && PastWait(s)
    ensures !OwnerEnabled(s, c, act)
  {
    if c < |s.children| { NoStartersLeft(s, c); }
  }

  lemma FrozenByBody(s: State, c: nat, act: BodyAct)
    requires CloseOk(s) && PastWait(s) && BodyEnabled(s, c, act)
    ensures Frozen(s, BodyApply(s, c, act))
  {
  }

  lemma FrozenByClose(s: State, act: CloseAct)
    requires CloseOk(s) && PastWait(s) && CloseEnabled(s, act)
    ensures Frozen(s, CloseApply(s, act))
  {
  }

  lemma FrozenByClient(s: State, act: ClientAct)
    requires CloseOk(s) && PastWait(s) && ClientEnabled(s, act)
    ensures Frozen(s, ClientApply(s, act))
  {
  }

  /** The unlocked loop sees the final set: no later step inserts into `entries`, creates a child, or writes
      any child's database or pool. */
  lemma FrozenAfterWait(s: State, step: Step)
    requires CountsOk(s) && CloseOk(s) && PastWait(s) && Enabled(s, step)
    ensures Frozen(s, Apply(s, step))
  {
    match step
    case Owner(c, act) => NoOwnerIsLeft(s, c, act);
    case Body(c, act) => FrozenByBody(s, c, act);
    case Close(act) => FrozenByClose(s, act);
    case Client(act) => FrozenByClient(s, act);
  }

  lemma {:induction false} FrozenToTheEnd(s: State, steps: seq<Step>)
    requires Inv(s) && PastWait(s) && Runs(s, steps)
    ensures Frozen(s, After(s, steps))
    decreases |steps|
  {
    if steps != [] {
      FrozenAfterWait(s, steps[0]);
      StepKeeps(s, steps[0]);
      FrozenToTheEnd(Apply(s, steps[0]), steps[1..]);
    }
  }

  // ---------- admission stops for good ----------

  lemma OwnersAdmitNobody(s: State, c: nat, act: OwnerAct)
    requires OwnerEnabled(s, c, act)
    ensures var t := OwnerApply(s, c, act);
            t.closed == s.closed && |t.children| == |s.children| && t.entries == s.entries
  {
  }

  lemma ClosedAdmitsNobody(s: State, step: Step)
    requires s.closed && Enabled(s, step)
    ensures var t := Apply(s, step); t.closed && |t.children| == |s.children| && t.entries == s.entries
  {
    if step.Owner? { OwnersAdmitNobody(s, step.c, step.owner); }
  }

  /** Nothing reopens admission: once `closed` is set it stays set, and no new child is ever created. */
  lemma {:induction false} AdmissionStops(s: State, steps: seq<Step>)
    requires s.closed && Runs(s, steps)
    ensures var t := After(s, steps); t.closed && |t.children| == |s.children| && t.entries == s.entries
    decreases |steps|
  {
    if steps != [] {
      ClosedAdmitsNobody(s, steps[0]);
      AdmissionStops(Apply(s, steps[0]), steps[1..]);
    }
  }

  /** The point of no return for an acquisition: the error path. */
  predicate Refused(ch: Child) {
    ch.phase == Unwinding || ch.phase == ReadingDebt || ch.phase == Recording || ch.failed
  }

  /** A recheck that sees the fixture closed, or in debt, refuses the child; a refused child is never published,
      in any continuation. */
  lemma RecheckRefuses(s: State, c: nat, act: OwnerAct, steps: seq<Step>)
    requires Inv(s) && OwnerEnabled(s, c, act) && (act == Recheck || act == RecheckAgain)
    requires s.closed || s.debt != {}
    requires Runs(OwnerApply(s, c, act), steps)
    ensures var t := After(OwnerApply(s, c, act), steps); c < |t.children| && Published(c) !in t.log
  {
    OwnerKeeps(s, c, act);
    RefusedStaysRefused(OwnerApply(s, c, act), c, steps);
  }

  lemma RefusedOwner(s: State, c: nat, d: nat, act: OwnerAct)
    requires ChildrenOk(s) && c < |s.children| && Refused(s.children[c]) && OwnerEnabled(s, d, act)
    ensures Refused(OwnerApply(s, d, act).children[c])
  {
    assert ChildOk(s.children[c]);
  }

  lemma RefusedBody(s: State, c: nat, d: nat, act: BodyAct)
    requires c < |s.children| && Refused(s.children[c]) && BodyEnabled(s, d, act)
    ensures Refused(BodyApply(s, d, act).children[c])
  {
  }

  lemma RefusedClose(s: State, c: nat, act: CloseAct)
    requires c < |s.children| && Refused(s.children[c]) && CloseEnabled(s, act)
    ensures Refused(CloseApply(s, act).children[c])
  {
  }

  lemma RefusedClient(s: State, c: nat, act: ClientAct)
    requires c < |s.children| && Refused(s.children[c]) && ClientEnabled(s, act)
    ensures c < |ClientApply(s, act).children| && Refused(ClientApply(s, act).children[c])
  {
  }

  lemma RefusedStep(s: State, c: nat, step: Step)
    requires Inv(s) && c < |s.children| && Refused(s.children[c]) && Enabled(s, step)
    ensures c < |Apply(s, step).children| && Refused(Apply(s, step).children[c])
  {
    match step
    case Owner(d, act) => RefusedOwner(s, c, d, act);
    case Body(d, act) => RefusedBody(s, c, d, act);
    case Close(act) => RefusedClose(s, c, act);
    case Client(act) => RefusedClient(s, c, act);
  }

  lemma {:induction false} RefusedStaysRefused(s: State, c: nat, steps: seq<Step>)
    requires Inv(s) && c < |s.children| && Refused(s.children[c]) && Runs(s, steps)
    ensures var t := After(s, steps); c < |t.children| && Published(c) !in t.log
    decreases |steps|
  {
    if steps == [] {
      assert ChildOk(s.children[c]) && LogLink(s.log, c, s.children[c]);
    } else {
      StepKeeps(s, steps[0]);
      RefusedStep(s, c, steps[0]);
      RefusedStaysRefused(Apply(s, steps[0]), c, steps[1..]);
    }
  }

  // ---------- cleanup failures are conserved ----------

  /** `debt` names a child exactly when one of its two closing calls failed and its disposal is over; and any
      debt has stopped admission. */
  lemma DebtIsExact(s: State)
    requires ChildrenOk(s) && DebtOk(s) && LogOk(s)
    ensures s.debt != {} ==> s.closed
    ensures forall c | 0 <= c < |s.children| ::
              c in s.debt <==> s.children[c].disposal == Disposed && CleanupFailed(s.log, c)
    ensures forall c | c in s.debt :: c < |s.children|
  {
    forall c | 0 <= c < |s.children|
      ensures c in s.debt <==> s.children[c].disposal == Disposed && CleanupFailed(s.log, c)
    {
      assert LogLink(s.log, c, s.children[c]) && ChildOk(s.children[c]);
    }
  }

  lemma FailureHasChild(s: State, c: nat)
    requires LogOk(s) && CleanupFailed(s.log, c)
    ensures c < |s.children|
  {
    if PoolClosed(c, false) in s.log {
      assert PoolClosed(c, false).child < |s.children|;
    } else {
      assert DbClosed(c, false).child < |s.children|;
    }
  }

  lemma CauseOfChild(s: State, c: nat)
    requires Inv(s) && s.closing == Closed
    ensures ChildCleanup(c) in s.closeErr <==> CleanupFailed(s.log, c)
  {
    DebtIsExact(s);
    assert ChildCleanup(c) in s.closeErr <==> c in s.debt;
    if CleanupFailed(s.log, c) { FailureHasChild(s, c); }
  }

  /** The result of Close, from the history alone: the cleanup failure of every child, whoever disposed it and
      whenever, and the baseline's. It is nil iff no closing call of the whole run failed. Every caller of Close
      receives this same result. */
  lemma CloseReportsEveryFailure(capacity: nat, steps: seq<Step>)
    requires Runs(Init(capacity), steps)
    ensures var s := After(Init(capacity), steps);
            s.closing == Closed ==>
              && (forall c: nat :: ChildCleanup(c) in s.closeErr <==> CleanupFailed(s.log, c))
              && (Baseline in s.closeErr <==> BaselineClosed(false) in s.log)
              && (s.closeErr == {} <==> BaselineClosed(false) !in s.log && forall c :: !CleanupFailed(s.log, c))
              && (forall k | 0 <= k < |s.closers| && s.closers[k].Returned? :: s.closers[k].err == s.closeErr)
  {
    InitInv(capacity);
    RunKeeps(Init(capacity), steps);
    var s := After(Init(capacity), steps);
    if s.closing == Closed { CloseErrIsHistory(s); }
  }

  lemma CloseErrIsHistory(s: State)
    requires Inv(s) && s.closing == Closed
    ensures forall c: nat :: ChildCleanup(c) in s.closeErr <==> CleanupFailed(s.log, c)
    ensures Baseline in s.closeErr <==> BaselineClosed(false) in s.log
    ensures s.closeErr == {} <==> BaselineClosed(false) !in s.log && forall c :: !CleanupFailed(s.log, c)
  {
    forall c: nat
      ensures ChildCleanup(c) in s.closeErr <==> CleanupFailed(s.log, c)
    {
      CauseOfChild(s, c);
    }
    assert forall e | e in s.closeErr :: e == Baseline || e == ChildCleanup(e.child);
  }

  /** What callers are told about cleanup is what the history says: every caller of dispose that has returned learned
      that its child's cleanup failed iff a closing call of it failed; an acquisition that failed names its own failed
      cleanup, and nothing but failed cleanups. */
  lemma CallersAreTold(capacity: nat, steps: seq<Step>)
    requires Runs(Init(capacity), steps)
    ensures var s := After(Init(capacity), steps);
            && (forall d | 0 <= d < |s.disposers| && s.disposers[d].Left? ::
                  s.disposers[d].failed <==> CleanupFailed(s.log, s.disposers[d].child))
            && (forall c | 0 <= c < |s.children| && s.children[c].failed ::
                  && (CleanupFailed(s.log, c) ==> s.children[c].reported == {c})
                  && (forall d | d in s.children[c].reported :: CleanupFailed(s.log, d)))
  {
    InitInv(capacity);
    RunKeeps(Init(capacity), steps);
    var s := After(Init(capacity), steps);
    forall d | 0 <= d < |s.disposers| && s.disposers[d].Left?
      ensures s.disposers[d].failed <==> CleanupFailed(s.log, s.disposers[d].child)
    {
      DirtyIff(s, s.disposers[d].child);
    }
    forall c | 0 <= c < |s.children| && s.children[c].failed
      ensures CleanupFailed(s.log, c) ==> s.children[c].reported == {c}
      ensures forall d | d in s.children[c].reported :: CleanupFailed(s.log, d)
    {
      ReportIsTrue(s, c);
    }
  }

  lemma DirtyIff(s: State, c: nat)
    requires ChildrenOk(s) && LogOk(s) && c < |s.children|
    ensures s.children[c].Dirty() <==> CleanupFailed(s.log, c)
  {
    assert LogLink(s.log, c, s.children[c]) && ChildOk(s.children[c]);
  }

  lemma ReportIsTrue(s: State, c: nat)
    requires Inv(s) && c < |s.children| && s.children[c].failed
    ensures CleanupFailed(s.log, c) ==> s.children[c].reported == {c}
    ensures forall d | d in s.children[c].reported :: CleanupFailed(s.log, d)
  {
    DirtyIff(s, c);
    DebtIsExact(s);
    assert ReportOk(c, s.children[c], s.debt);
  }

  // ---------- one child per key, one result per child ----------

  /** All callers that used the key of a child are answered alike: with its pool and no error, or with its error
      and no pool, whatever happened in between. */
  lemma SameKeySameAnswer(capacity: nat, steps: seq<Step>, v: nat, w: nat)
    requires Runs(Init(capacity), steps)
    requires var s := After(Init(capacity), steps);
             && v < |s.waiters| && s.waiters[v].Served?
             && w < |s.waiters| && s.waiters[w].Served?
    ensures var s := After(Init(capacity), steps);
            && s.waiters[v].answer.pool == !s.waiters[v].answer.err
            && (s.waiters[v].child == s.waiters[w].child ==> s.waiters[v].answer == s.waiters[w].answer)
            && (s.waiters[v].answer.pool <==> Published(s.waiters[v].child) in s.log)
  {
    InitInv(capacity);
    RunKeeps(Init(capacity), steps);
    var s := After(Init(capacity), steps);
    var c := s.waiters[v].child;
    assert ChildOk(s.children[c]) && LogLink(s.log, c, s.children[c]);
  }

  /** A key never has two children, in any run: whoever uses it again gets the one that its first use created. */
  lemma OneChildPerKey(capacity: nat, steps: seq<Step>, c: nat, d: nat)
    requires Runs(Init(capacity), steps)
    requires var s := After(Init(capacity), steps);
             c < |s.children| && d < |s.children| && s.children[c].key == s.children[d].key
    ensures c == d
    ensures var s := After(Init(capacity), steps);
            !Rejecting(s) ==> ClientApply(s, Get(s.children[c].key)).waiters == s.waiters + [Waiting(c)]
  {
    InitInv(capacity);
    RunKeeps(Init(capacity), steps);
    var s := After(Init(capacity), steps);
    assert s.entries[s.children[c].key] == c;
  }

  /** Distinct keys never share a child. */
  lemma DistinctKeysDistinctChildren(s: State, j: Key, k: Key)
    requires EntriesOk(s) && j in s.entries && k in s.entries && j != k
    ensures s.entries[j] != s.entries[k]
  {
    assert s.children[s.entries[j]].key == j;
  }
}
