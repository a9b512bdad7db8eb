/** Shutdown never gets stuck: while Close is pending some step other than a timeout is enabled, and every such
    step brings the end nearer, whatever else happens in between. */
module FixtureShutdown {
  import opened Fixture
  import opened FixtureInvariant
  import NatSets

  /** Steps of the threads Close waits for. A context that expires, a caller that arrives, and a caller that
      returns are not among them. */
  predicate Productive(step: Step) {
    match step
    case Owner(_, act) => !act.Expired?
    case Body(_, _) => true
    case Close(_) => true
    case Client(_) => false
  }

  function OwnerRank(p: Phase): nat {
    match p
    case Acquiring => 13
    case Rechecking => 12
    case CheckingContext => 11
    case Forking => 10
    case Opening => 9
    case Pinging => 8
    case RecheckingAgain => 7
    case Registering => 6
    case Unwinding => 5
    case ReadingDebt => 4
    case Recording => 3
    case Announcing => 2
    case Leaving => 1
    case Gone => 0
  }

  function BodyRank(d: Disposal): nat {
    match d
    case Idle => 4
    case ClosingPool => 3
    case ClosingDb => 2
    case Settling => 1
    case Disposed => 0
  }

  function ChildRank(ch: Child): nat { OwnerRank(ch.phase) + BodyRank(ch.disposal) }

  function ChildrenRank(children: seq<Child>): nat {
    if children == [] then 0 else ChildRank(children[0]) + ChildrenRank(children[1..])
  }

  lemma {:induction false} ChildrenRankAfter(children: seq<Child>, c: nat, ch: Child)
    requires c < |children|
    ensures ChildrenRank(children[c := ch]) == ChildrenRank(children) - ChildRank(children[c]) + ChildRank(ch)
  {
    if c > 0 {
      assert children[c := ch][1..] == children[1..][c - 1 := ch];
      ChildrenRankAfter(children[1..], c - 1, ch);
    } else {
      assert children[c := ch][1..] == children[1..];
    }
  }

  /** How many steps of Close itself remain, with n children. */
  function CloseRank(closing: Closing, n: nat): int {
    match closing
    case Open => 2 * n + 5
    case Stopping => 2 * n + 4
    case AwaitingStarters => 2 * n + 3
    case Sweeping(visited) => 2 * (n - |visited|) + 2
    case Inside(_, visited) => 2 * (n - |visited|) + 1
    case ClosingBaseline => 1
    case Closed => 0
  }

  function Rank(s: State): int { ChildrenRank(s.children) + CloseRank(s.closing, |s.children|) }

  predicate ClosePending(s: State) { s.closing != Open && s.closing != Closed }

  // ---------- some productive step is always enabled ----------

  /** The next step of a child's once body. */
  lemma BodyMoves(s: State, c: nat) returns (step: Step)
    requires ChildrenOk(s) && CountsOk(s) && c < |s.children|
    requires s.children[c].disposal != Idle && s.children[c].disposal != Disposed
    ensures Enabled(s, step) && Productive(step)
  {
    match s.children[c].disposal
    case ClosingPool => step := Body(c, ClosePool(true));
    case ClosingDb => step := Body(c, CloseDb(true));
    case Settling => SettleNeverBlocks(s, c); step := Body(c, Settle);
  }

  /** Once the fixture is closed, no starter is stuck: an acquirer queued on permits is woken by `stopped`. */
  lemma StarterMoves(s: State, c: nat) returns (step: Step)
    requires ChildrenOk(s) && CountsOk(s) && s.closed && c < |s.children| && s.children[c].phase != Gone
    ensures Enabled(s, step) && Productive(step)
  {
    match s.children[c].phase
    case Acquiring => step := Owner(c, Stopped);
    case Rechecking => step := Owner(c, Recheck);
    case CheckingContext => step := Owner(c, ContextAlive);
    case Forking => step := Owner(c, Fork(true, true));
    case Opening => step := Owner(c, OpenPool(true, true));
    case Pinging => step := Owner(c, Ping(true));
    case RecheckingAgain => step := Owner(c, RecheckAgain);
    case Registering => step := Owner(c, Register);
    case Unwinding =>
      if s.children[c].disposal == Idle { step := Owner(c, EnterDispose); }
      else if s.children[c].disposal == Disposed { step := Owner(c, LeaveDispose); }
      else { step := BodyMoves(s, c); }
    case ReadingDebt => step := Owner(c, ReadDebt);
    case Recording => step := Owner(c, Record);
    case Announcing => step := Owner(c, Announce);
    case Leaving => step := Owner(c, Leave);
  }

  /** No deadlock: from any state of the invariant with Close pending, some productive step is enabled. */
  lemma CloseIsNeverStuck(s: State) returns (step: Step)
    requires Inv(s) && ClosePending(s)
    ensures Enabled(s, step) && Productive(step)
  {
    match s.closing
    case Stopping => step := Close(Stop);
    case AwaitingStarters =>
      if s.starting == 0 {
        step := Close(StartersDone);
      } else {
        assert Starters(s.children) != {};
        var c :| c in Starters(s.children);
        step := StarterMoves(s, c);
      }
    case Sweeping(visited) =>
      if s.entries.Values <= visited {
        step := Close(EndSweep);
      } else {
        var c :| c in s.entries.Values && c !in visited;
        step := Close(Visit(c));
      }
    case Inside(c, visited) =>
      if s.children[c].disposal == Idle { step := Close(EnterVisited); }
      else if s.children[c].disposal == Disposed { step := Close(LeaveVisited); }
      else { step := BodyMoves(s, c); }
    case ClosingBaseline => step := Close(CloseBaseline(true));
  }

  // ---------- and every productive step counts ----------

  /** Up to the fork, an acquisition only moves forward or onto the error path. */
  lemma EarlyOwnerIsNearer(s: State, c: nat, act: OwnerAct)
    requires OwnerEnabled(s, c, act)
    requires act.Token? || act.Expired? || act.Stopped? || act.Recheck? || act.ContextAlive? || act.Fork? || act.OpenPool?
    ensures OwnerRank(OwnerNext(s, c, act).phase) < OwnerRank(s.children[c].phase)
    ensures OwnerNext(s, c, act).disposal == s.children[c].disposal
  {
  }

  lemma LateOwnerIsNearer(s: State, c: nat, act: OwnerAct)
    requires OwnerEnabled(s, c, act)
    requires act.Ping? || act.RecheckAgain? || act.Register? || act.LeaveDispose? || act.ReadDebt?
          || act.Record? || act.Announce? || act.Leave?
    ensures OwnerRank(OwnerNext(s, c, act).phase) < OwnerRank(s.children[c].phase)
    ensures OwnerNext(s, c, act).disposal == s.children[c].disposal
  {
  }

  lemma OwnerNextIsNearer(s: State, c: nat, act: OwnerAct)
    requires OwnerEnabled(s, c, act)
    ensures ChildRank(OwnerNext(s, c, act)) < ChildRank(s.children[c])
  {
    match act
    case EnterDispose =>
    case Ping(_) => LateOwnerIsNearer(s, c, act);
    case RecheckAgain => LateOwnerIsNearer(s, c, act);
    case Register => LateOwnerIsNearer(s, c, act);
    case LeaveDispose => LateOwnerIsNearer(s, c, act);
    case ReadDebt => LateOwnerIsNearer(s, c, act);
    case Record => LateOwnerIsNearer(s, c, act);
    case Announce => LateOwnerIsNearer(s, c, act);
    case Leave => LateOwnerIsNearer(s, c, act);
    case _ => EarlyOwnerIsNearer(s, c, act);
  }

  lemma OwnerDescends(s: State, c: nat, act: OwnerAct)
    requires OwnerEnabled(s, c, act)
    ensures Rank(OwnerApply(s, c, act)) < Rank(s)
  {
    OwnerNextIsNearer(s, c, act);
    ChildrenRankAfter(s.children, c, OwnerNext(s, c, act));
  }

  lemma BodyNextIsNearer(s: State, c: nat, act: BodyAct)
    requires BodyEnabled(s, c, act)
    ensures ChildRank(BodyNext(s.children[c], act)) < ChildRank(s.children[c])
  {
  }

  lemma BodyDescends(s: State, c: nat, act: BodyAct)
    requires BodyEnabled(s, c, act)
    ensures Rank(BodyApply(s, c, act)) < Rank(s)
  {
    BodyNextIsNearer(s, c, act);
    ChildrenRankAfter(s.children, c, BodyNext(s.children[c], act));
  }

  lemma EnteringDescends(children: seq<Child>, c: nat)
    requires c < |children| && children[c].disposal == Idle
    ensures ChildrenRank(children[c := Begun(children[c])]) < ChildrenRank(children)
  {
    ChildrenRankAfter(children, c, Begun(children[c]));
  }

  lemma VisitedSize(s: State, visited: set<nat>)
    requires VisitedOk(s, visited)
    ensures |visited| <= |s.children|
  {
    NatSets.BoundedSize(visited, |s.children|);
  }

  lemma LeavingDescends(visited: set<nat>, c: nat, n: nat)
    requires c !in visited
    ensures CloseRank(Sweeping(visited + {c}), n) < CloseRank(Inside(c, visited), n)
  {
    assert |visited + {c}| == |visited| + 1;
  }

  lemma SweepDescendsInside(s: State, act: CloseAct)
    requires CloseOk(s) && CloseEnabled(s, act) && (act.Visit? || act.LeaveVisited? || act.EndSweep?)
    ensures CloseRank(CloseApply(s, act).closing, |s.children|) < CloseRank(s.closing, |s.children|)
  {
    match act
    case EndSweep => VisitedSize(s, s.closing.visited);
    case LeaveVisited => LeavingDescends(s.closing.visited, s.closing.child, |s.children|);
    case Visit(_) =>
  }

  /** The part of Close that leaves the children alone. */
  lemma SweepDescends(s: State, act: CloseAct)
    requires CloseOk(s) && CloseEnabled(s, act) && !act.EnterVisited?
    ensures CloseRank(CloseApply(s, act).closing, |s.children|) < CloseRank(s.closing, |s.children|)
  {
    match act
    case Visit(_) => SweepDescendsInside(s, act);
    case LeaveVisited => SweepDescendsInside(s, act);
    case EndSweep => SweepDescendsInside(s, act);
    case _ =>
  }

  lemma CloseDescends(s: State, act: CloseAct)
    requires CloseOk(s) && CloseEnabled(s, act)
    ensures Rank(CloseApply(s, act)) < Rank(s)
  {
    if act.EnterVisited? {
      EnteringDescends(s.children, s.closing.child);
    } else {
      SweepDescends(s, act);
      assert CloseApply(s, act).children == s.children;
    }
  }

  lemma ProductiveDescends(s: State, step: Step)
    requires CloseOk(s) && Enabled(s, step) && Productive(step)
    ensures Rank(Apply(s, step)) < Rank(s)
  {
    match step
    case Owner(c, act) => OwnerDescends(s, c, act);
    case Body(c, act) => BodyDescends(s, c, act);
    case Close(act) => CloseDescends(s, act);
  }

  lemma ClientNeverAscends(s: State, act: ClientAct)
    requires s.closed && ClientEnabled(s, act)
    ensures s.closing != Open ==> Rank(ClientApply(s, act)) <= Rank(s)
  {
    if act.DisposerEnters? { EnteringDescends(s.children, s.disposers[act.d].child); }
  }

  lemma RankIsPositive(s: State)
    requires CloseOk(s)
    ensures Rank(s) >= 0
    ensures s.closing != Closed ==> Rank(s) > 0
  {
    if s.closing.Sweeping? || s.closing.Inside? { VisitedSize(s, s.closing.visited); }
  }

  /** Once the fixture is closed with Close under way, a productive step strictly lowers the rank and no other
      step, of any number of other threads, raises it. */
  lemma RankFalls(s: State, step: Step)
    requires CloseOk(s) && s.closed && s.closing != Open && Enabled(s, step)
    ensures Rank(Apply(s, step)) <= Rank(s)
    ensures Productive(step) ==> Rank(Apply(s, step)) < Rank(s)
    ensures Apply(s, step).closed && Apply(s, step).closing != Open
  {
    match step
    case Owner(c, act) => OwnerDescends(s, c, act);
    case Body(c, act) => BodyDescends(s, c, act);
    case Close(act) => CloseDescends(s, act);
    case Client(act) => ClientNeverAscends(s, act);
  }

  function ProductiveSteps(steps: seq<Step>): nat {
    if steps == [] then 0 else (if Productive(steps[0]) then 1 else 0) + ProductiveSteps(steps[1..])
  }

  /** Close returns: in any continuation, however its steps are mixed with arriving callers and expiring
      contexts, at most `Rank(s)` productive steps are taken before the once body of Close is over. */
  lemma {:induction false} CloseFinishesWithin(s: State, steps: seq<Step>)
    requires Inv(s) && s.closed && s.closing != Open && Runs(s, steps)
    requires ProductiveSteps(steps) >= Rank(s)
    ensures After(s, steps).closing == Closed
    decreases |steps|
  {
    RankIsPositive(s);
    if steps != [] {
      RankFalls(s, steps[0]);
      StepKeeps(s, steps[0]);
      if s.closing == Closed {
        ClosedStays(s, steps);
      } else {
        CloseFinishesWithin(Apply(s, steps[0]), steps[1..]);
      }
    }
  }

  lemma {:induction false} ClosedStays(s: State, steps: seq<Step>)
    requires s.closing == Closed && Runs(s, steps)
    ensures After(s, steps).closing == Closed
    decreases |steps|
  {
    if steps != [] { ClosedStays(Apply(s, steps[0]), steps[1..]); }
  }

  lemma ThenRuns(s: State, step: Step, rest: seq<Step>)
    requires Enabled(s, step) && Runs(Apply(s, step), rest)
    ensures Runs(s, [step] + rest) && After(s, [step] + rest) == After(Apply(s, step), rest)
  {
    assert ([step] + rest)[1..] == rest;
  }

  lemma ClosingNeverReopens(s: State, step: Step)
    requires Enabled(s, step) && s.closing != Open
    ensures Apply(s, step).closing != Open
  {
  }

  /** From every state of the invariant with Close pending, Close can still finish, without any context expiring. */
  lemma {:induction false} CloseCanFinish(s: State) returns (steps: seq<Step>)
    requires Inv(s) && ClosePending(s)
    ensures Runs(s, steps) && After(s, steps).closing == Closed && |steps| <= Rank(s)
    ensures forall i | 0 <= i < |steps| :: Productive(steps[i])
    decreases Rank(s)
  {
    RankIsPositive(s);
    var step := CloseIsNeverStuck(s);
    var t := Apply(s, step);
    StepKeeps(s, step);
    ProductiveDescends(s, step);
    ClosingNeverReopens(s, step);
    var rest: seq<Step> := [];
    if t.closing != Closed {
      RankIsPositive(t);
      rest := CloseCanFinish(t);
    }
    ThenRuns(s, step, rest);
    steps := [step] + rest;
  }

  lemma ReadyAtTheEnd(s: State, c: nat)
    requires ChildrenOk(s) && CountsOk(s) && CloseOk(s) && s.closing == Closed && c < |s.children|
    ensures s.children[c].ready
  {
    NoStartersLeft(s, c);
    assert ChildOk(s.children[c]);
  }

  lemma DisposedAtTheEnd(s: State, d: nat)
    requires CloseOk(s) && RepliesOk(s) && s.closing == Closed && d < |s.disposers|
    ensures s.disposers[d].child < |s.children| && s.children[s.disposers[d].child].disposal == Disposed
  {
  }

  lemma WaitersCanReturn(s: State)
    requires Inv(s) && s.closing == Closed
    ensures forall w | 0 <= w < |s.waiters| && s.waiters[w].Waiting? :: ClientEnabled(s, WaiterServed(w))
  {
    forall w | 0 <= w < |s.waiters| && s.waiters[w].Waiting?
      ensures ClientEnabled(s, WaiterServed(w))
    {
      ReadyAtTheEnd(s, s.waiters[w].child);
    }
  }

  lemma DisposersCanReturn(s: State)
    requires CloseOk(s) && RepliesOk(s) && s.closing == Closed
    ensures forall d | 0 <= d < |s.disposers| && s.disposers[d].Entered? :: ClientEnabled(s, DisposerLeaves(d))
  {
    forall d | 0 <= d < |s.disposers| && s.disposers[d].Entered?
      ensures ClientEnabled(s, DisposerLeaves(d))
    {
      DisposedAtTheEnd(s, d);
    }
  }

  lemma ClosersCanReturn(s: State)
    requires s.closing == Closed
    ensures forall k | 0 <= k < |s.closers| && s.closers[k].Pending? :: ClientEnabled(s, CloserLeaves(k))
  {
  }

  /** When Close is over nobody is left waiting: every same-key waiter, every other caller of dispose and every
      caller of Close can return. */
  lemma NobodyIsLeftWaiting(s: State)
    requires Inv(s) && s.closing == Closed
    ensures forall w | 0 <= w < |s.waiters| && s.waiters[w].Waiting? :: ClientEnabled(s, WaiterServed(w))
    ensures forall d | 0 <= d < |s.disposers| && s.disposers[d].Entered? :: ClientEnabled(s, DisposerLeaves(d))
    ensures forall k | 0 <= k < |s.closers| && s.closers[k].Pending? :: ClientEnabled(s, CloserLeaves(k))
  {
    WaitersCanReturn(s);
    DisposersCanReturn(s);
    ClosersCanReturn(s);
  }

  /** Calling Close begins it, and it is never forgotten. */
  lemma {:induction false} CalledIsBegun(s: State, steps: seq<Step>)
    requires Runs(s, steps) && (s.closing != Open || Client(CallClose) in steps)
    ensures After(s, steps).closing != Open
    decreases |steps|
  {
    if steps != [] {
      assert steps == [steps[0]] + steps[1..];
      if s.closing != Open { ClosingNeverReopens(s, steps[0]); }
      CalledIsBegun(Apply(s, steps[0]), steps[1..]);
    }
  }

  /** Shutdown cannot deadlock: every run in which Close was called extends to one where Close is over, within `Rank`
      steps, none of them an expiring context, and then its callers can return. */
  lemma ShutdownCannotDeadlock(capacity: nat, steps: seq<Step>) returns (rest: seq<Step>)
    requires Runs(Init(capacity), steps) && Client(CallClose) in steps
    ensures var s := After(Init(capacity), steps);
            && Runs(s, rest)
            && After(s, rest).closing == Closed
            && (s.closing != Closed ==> |rest| <= Rank(s))
            && forall i | 0 <= i < |rest| :: Productive(rest[i])
  {
    InitInv(capacity);
    RunKeeps(Init(capacity), steps);
    CalledIsBegun(Init(capacity), steps);
    var s := After(Init(capacity), steps);
    if s.closing == Closed { rest := []; } else { rest := CloseCanFinish(s); }
  }
}
