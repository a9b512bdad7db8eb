/** Which acquisitions are published: exactly those whose every call succeeded, read off the steps of the run. */
module FixtureAdmission {
  import opened Fixture
  import opened FixtureInvariant

  /** The steps of a successful acquisition, in order. */
  const SUCCESS: seq<OwnerAct> :=
    [Token, Recheck, ContextAlive, Fork(true, true), OpenPool(true, true), Ping(true), RecheckAgain, Register]

  /** How many of these steps the owner of a child has behind it. */
  function Progress(ch: Child): nat {
    if ch.registered then 8
    else match ch.phase
      case Rechecking => 1
      case CheckingContext => 2
      case Forking => 3
      case Opening => 4
      case Pinging => 5
      case RecheckingAgain => 6
      case Registering => 7
      case _ => 0
  }

  predicate Reached(s: State, c: nat, k: nat) { c < |s.children| && Progress(s.children[c]) >= k }

  lemma OwnerAdvances(s: State, d: nat, act: OwnerAct, c: nat, k: nat)
    requires OwnerEnabled(s, d, act) && 0 < k <= 8 && Reached(OwnerApply(s, d, act), c, k)
    ensures Reached(s, c, k) || (d == c && act == SUCCESS[k - 1] && Reached(s, c, k - 1))
  {
  }

  lemma BodyAdvancesNobody(s: State, d: nat, act: BodyAct, c: nat, k: nat)
    requires BodyEnabled(s, d, act) && 0 < k <= 8 && Reached(BodyApply(s, d, act), c, k)
    ensures Reached(s, c, k)
  {
  }

  lemma CloseAdvancesNobody(s: State, act: CloseAct, c: nat, k: nat)
    requires CloseEnabled(s, act) && 0 < k <= 8 && Reached(CloseApply(s, act), c, k)
    ensures Reached(s, c, k)
  {
  }

  lemma ClientAdvancesNobody(s: State, act: ClientAct, c: nat, k: nat)
    requires ClientEnabled(s, act) && 0 < k <= 8 && Reached(ClientApply(s, act), c, k)
    ensures Reached(s, c, k)
  {
  }

  lemma StepAdvances(s: State, step: Step, c: nat, k: nat)
    requires Enabled(s, step) && 0 < k <= 8 && Reached(Apply(s, step), c, k)
    ensures Reached(s, c, k) || step == Owner(c, SUCCESS[k - 1])
  {
    match step
    case Owner(d, act) => OwnerAdvances(s, d, act, c, k);
    case Body(d, act) => BodyAdvancesNobody(s, d, act, c, k);
    case Close(act) => CloseAdvancesNobody(s, act, c, k);
    case Client(act) => ClientAdvancesNobody(s, act, c, k);
  }

  lemma {:induction false} RunAdvances(s: State, steps: seq<Step>, c: nat, k: nat)
    requires Runs(s, steps) && 0 < k <= 8 && Reached(After(s, steps), c, k)
    ensures Reached(s, c, k) || Owner(c, SUCCESS[k - 1]) in steps
    decreases |steps|
  {
    if steps != [] {
      assert steps == [steps[0]] + steps[1..];
      RunAdvances(Apply(s, steps[0]), steps[1..], c, k);
      if Reached(Apply(s, steps[0]), c, k) { StepAdvances(s, steps[0], c, k); }
    }
  }

  /** A pool is handed out only after the token, both rechecks, the context, the fork, the open and the ping have all
      succeeded. */
  lemma PublishedOnlyAfterSuccess(capacity: nat, steps: seq<Step>, c: nat)
    requires Runs(Init(capacity), steps) && Published(c) in After(Init(capacity), steps).log
    ensures forall k | 0 <= k < |SUCCESS| :: Owner(c, SUCCESS[k]) in steps
  {
    InitInv(capacity);
    RunKeeps(Init(capacity), steps);
    var s := After(Init(capacity), steps);
    assert Published(c).child < |s.children| && LogLink(s.log, c, s.children[c]);
    forall k | 0 <= k < |SUCCESS|
      ensures Owner(c, SUCCESS[k]) in steps
    {
      RunAdvances(Init(capacity), steps, c, k + 1);
    }
  }

  // ---------- a call that failed ----------

  /** The answers that send an acquisition to its error path. */
  predicate FailedCall(act: OwnerAct) {
    match act
    case Expired => true
    case Stopped => true
    case Fork(_, ok) => !ok
    case OpenPool(_, ok) => !ok
    case Ping(ok) => !ok
    case _ => false
  }

  /** On the error path, or past it: whatever follows, the pool is not handed out. */
  predicate Lost(s: State, c: nat) {
    c < |s.children| && !s.children[c].registered &&
    match s.children[c].phase
    case Unwinding => true
    case ReadingDebt => true
    case Recording => true
    case Announcing => true
    case Leaving => true
    case Gone => true
    case _ => false
  }

  lemma OwnerStaysLost(s: State, d: nat, act: OwnerAct, c: nat)
    requires OwnerEnabled(s, d, act) && (Lost(s, c) || (d == c && FailedCall(act) && !s.children[c].registered))
    ensures Lost(OwnerApply(s, d, act), c)
  {
  }

  lemma BodyLeavesLost(s: State, d: nat, act: BodyAct, c: nat)
    requires BodyEnabled(s, d, act) && Lost(s, c)
    ensures Lost(BodyApply(s, d, act), c)
  {
  }

  lemma CloseLeavesLost(s: State, act: CloseAct, c: nat)
    requires CloseEnabled(s, act) && Lost(s, c)
    ensures Lost(CloseApply(s, act), c)
  {
  }

  lemma ClientLeavesLost(s: State, act: ClientAct, c: nat)
    requires ClientEnabled(s, act) && Lost(s, c)
    ensures Lost(ClientApply(s, act), c)
  {
  }

  lemma StepLeavesLost(s: State, step: Step, c: nat)
    requires Enabled(s, step) && Lost(s, c)
    ensures Lost(Apply(s, step), c)
  {
    match step
    case Owner(d, act) => OwnerStaysLost(s, d, act, c);
    case Body(d, act) => BodyLeavesLost(s, d, act, c);
    case Close(act) => CloseLeavesLost(s, act, c);
    case Client(act) => ClientLeavesLost(s, act, c);
  }

  lemma {:induction false} LostForGood(s: State, steps: seq<Step>, c: nat)
    requires Runs(s, steps) && Lost(s, c)
    ensures Lost(After(s, steps), c)
    decreases |steps|
  {
    if steps != [] {
      StepLeavesLost(s, steps[0], c);
      LostForGood(Apply(s, steps[0]), steps[1..], c);
    }
  }

  /** One failed call is enough: the pool is never handed out, and once the owner is gone its error is recorded. */
  lemma FailedCallRefuses(s: State, c: nat, act: OwnerAct, later: seq<Step>)
    requires Inv(s) && OwnerEnabled(s, c, act) && FailedCall(act) && Runs(OwnerApply(s, c, act), later)
    ensures var t := After(OwnerApply(s, c, act), later);
            && Published(c) !in t.log
            && c < |t.children| && (t.children[c].ready ==> t.children[c].failed && !t.children[c].pool)
  {
    assert ChildOk(s.children[c]);
    OwnerKeeps(s, c, act);
    OwnerStaysLost(s, c, act, c);
    LostForGood(OwnerApply(s, c, act), later, c);
    RunKeeps(OwnerApply(s, c, act), later);
    var t := After(OwnerApply(s, c, act), later);
    assert ChildOk(t.children[c]) && LogLink(t.log, c, t.children[c]);
  }

  // ---------- and success is possible ----------

  lemma ThenRuns(s: State, step: Step, rest: seq<Step>)
    requires Enabled(s, step) && Runs(Apply(s, step), rest)
    ensures Runs(s, [step] + rest) && After(s, [step] + rest) == After(Apply(s, step), rest)
  {
    assert ([step] + rest)[1..] == rest;
  }

  /** From where an owner stands, the rest of the successful steps. */
  ghost predicate OnTheWay(s: State, c: nat, k: nat) {
    && k <= 8 && c < |s.children| && !Rejecting(s) && s.permits + (if k == 0 then 1 else 0) <= s.capacity
    && Progress(s.children[c]) == k
    && (k == 0 ==> s.children[c].phase == Acquiring)
    && (k == 8 ==> Published(c) in s.log)
  }

  lemma NextSucceeds(s: State, c: nat, k: nat)
    requires OnTheWay(s, c, k) && k < 8
    ensures OwnerEnabled(s, c, SUCCESS[k]) && OnTheWay(OwnerApply(s, c, SUCCESS[k]), c, k + 1)
  {
  }

  lemma {:induction false} RestSucceeds(s: State, c: nat, k: nat) returns (steps: seq<Step>)
    requires OnTheWay(s, c, k)
    ensures Runs(s, steps) && OnTheWay(After(s, steps), c, 8)
    decreases 8 - k
  {
    if k == 8 { return []; }
    NextSucceeds(s, c, k);
    var rest := RestSucceeds(OwnerApply(s, c, SUCCESS[k]), c, k + 1);
    ThenRuns(s, Owner(c, SUCCESS[k]), rest);
    steps := [Owner(c, SUCCESS[k])] + rest;
  }

  /** On an open fixture without debt and with a free token, a new key whose calls all succeed gets its pool. */
  lemma AcquisitionGoesThrough(s: State, key: Key) returns (steps: seq<Step>)
    requires !Rejecting(s) && key !in s.entries && s.permits < s.capacity
    ensures Runs(s, steps) && Published(|s.children|) in After(s, steps).log
  {
    var admitted := Client(Get(key));
    steps := RestSucceeds(Apply(s, admitted), |s.children|, 0);
    ThenRuns(s, admitted, steps);
    steps := [admitted] + steps;
  }

  // ---------- what a failed acquisition reports ----------

  /** The error of an acquisition with clean cleanup carries the debt it read, and keeps it. */
  predicate Carries(s: State, c: nat, debt: set<nat>) {
    c < |s.children| && s.children[c].reported == debt &&
    (s.children[c].phase == Recording || s.children[c].phase == Announcing || s.children[c].phase == Leaving
     || s.children[c].phase == Gone)
  }

  lemma OwnerCarries(s: State, d: nat, act: OwnerAct, c: nat, debt: set<nat>)
    requires OwnerEnabled(s, d, act) && Carries(s, c, debt)
    ensures Carries(OwnerApply(s, d, act), c, debt)
  {
  }

  lemma OthersCarry(s: State, step: Step, c: nat, debt: set<nat>)
    requires Enabled(s, step) && !step.Owner? && Carries(s, c, debt)
    ensures Carries(Apply(s, step), c, debt)
  {
    match step
    case Body(d, act) => assert BodyApply(s, d, act).children[c].reported == debt;
    case Close(act) => assert CloseApply(s, act).children[c].reported == debt;
    case Client(act) => assert ClientApply(s, act).children[c].reported == debt;
  }

  lemma {:induction false} DebtReadIsReported(s: State, c: nat, steps: seq<Step>, debt: set<nat>)
    requires Runs(s, steps) && Carries(s, c, debt)
    ensures Carries(After(s, steps), c, debt)
    decreases |steps|
  {
    if steps != [] {
      if steps[0].Owner? { OwnerCarries(s, steps[0].c, steps[0].owner, c, debt); } else { OthersCarry(s, steps[0], c, debt); }
      DebtReadIsReported(Apply(s, steps[0]), c, steps[1..], debt);
    }
  }

  /** A failed acquisition whose own cleanup went well reports the whole debt of the fixture at that moment. */
  lemma CleanFailureReportsTheDebt(s: State, c: nat, later: seq<Step>)
    requires OwnerEnabled(s, c, ReadDebt) && Runs(OwnerApply(s, c, ReadDebt), later)
    ensures var t := After(OwnerApply(s, c, ReadDebt), later);
            c < |t.children| && t.children[c].reported == s.debt
  {
    DebtReadIsReported(OwnerApply(s, c, ReadDebt), c, later, s.debt);
  }

  // ---------- the environment and the scheduler are free ----------

  /** Every answer of every call may come, and a context may expire at the channel and at the check after it. */
  lemma AnyAnswerMayCome(s: State, c: nat)
    requires c < |s.children|
    ensures s.children[c].phase == Acquiring || s.children[c].phase == CheckingContext ==> OwnerEnabled(s, c, Expired)
    ensures s.children[c].phase == Forking ==> forall db, ok | ok ==> db :: OwnerEnabled(s, c, Fork(db, ok))
    ensures s.children[c].phase == Opening ==> forall pool, ok | ok ==> pool :: OwnerEnabled(s, c, OpenPool(pool, ok))
    ensures s.children[c].phase == Pinging ==> forall ok :: OwnerEnabled(s, c, Ping(ok))
    ensures s.children[c].disposal == ClosingPool ==> forall ok :: BodyEnabled(s, c, ClosePool(ok))
    ensures s.children[c].disposal == ClosingDb ==> forall ok :: BodyEnabled(s, c, CloseDb(ok))
    ensures s.closing == ClosingBaseline ==> forall ok :: CloseEnabled(s, CloseBaseline(ok))
  {
  }

  // ---------- a test's own cleanup ----------

  /** What a caller of dispose still has to wait for. */
  function DisposalLeft(d: Disposal): nat {
    match d
    case Idle => 4
    case ClosingPool => 3
    case ClosingDb => 2
    case Settling => 1
    case Disposed => 0
  }

  lemma DisposalMoves(s: State, d: nat) returns (step: Step)
    requires ChildrenOk(s) && CountsOk(s) && d < |s.disposers| && s.disposers[d].Entered?
    requires s.disposers[d].child < |s.children| && s.children[s.disposers[d].child].disposal != Disposed
    ensures Enabled(s, step)
    ensures var c, t := s.disposers[d].child, Apply(s, step);
            && t.disposers == s.disposers && c < |t.children|
            && DisposalLeft(t.children[c].disposal) < DisposalLeft(s.children[c].disposal)
  {
    var c := s.disposers[d].child;
    match s.children[c].disposal
    case Idle => step := Client(DisposerEnters(d));
    case ClosingPool => step := Body(c, ClosePool(true));
    case ClosingDb => step := Body(c, CloseDb(true));
    case Settling =>
      SettleNeverBlocks(s, c);
      step := Body(c, Settle);
  }

  /** A caller of dispose can always come through: the disposal is run, by it or by another, and it returns. */
  lemma {:induction false} DisposeGoesThrough(s: State, d: nat) returns (steps: seq<Step>)
    requires Inv(s) && d < |s.disposers| && s.disposers[d].Entered?
    ensures Runs(s, steps)
    ensures var t := After(s, steps); d < |t.disposers| && t.disposers[d].Left?
    ensures var t := After(s, steps); s.disposers[d].child < |t.children|
                                      && t.children[s.disposers[d].child].disposal == Disposed
    decreases DisposalLeft(s.children[s.disposers[d].child].disposal)
  {
    if s.children[s.disposers[d].child].disposal == Disposed {
      var leave := Client(DisposerLeaves(d));
      ThenRuns(s, leave, []);
      steps := [leave] + [];
    } else {
      var step := DisposalMoves(s, d);
      StepKeeps(s, step);
      var rest := DisposeGoesThrough(Apply(s, step), d);
      ThenRuns(s, step, rest);
      steps := [step] + rest;
    }
  }
}
