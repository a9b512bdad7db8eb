/** The callers of the fixture: every call is taken up, every return is one of the source's, and nothing else changes
    what a caller has got. */
module FixtureCallers {
  import opened Fixture

  predicate TimedOutAt(s: State, w: nat) { w < |s.waiters| && s.waiters[w].TimedOut? }
  predicate ServedAt(s: State, w: nat) { w < |s.waiters| && s.waiters[w].Served? }
  predicate LeftAt(s: State, d: nat) { d < |s.disposers| && s.disposers[d].Left? }
  predicate ReturnedAt(s: State, k: nat) { k < |s.closers| && s.closers[k].Returned? }

  /** How many callers a step brings. */
  function Disposals(step: Step): nat { if step.Client? && step.client.CallDispose? then 1 else 0 }
  function Closes(step: Step): nat { if step == Client(CallClose) then 1 else 0 }

  function AllDisposals(steps: seq<Step>): nat {
    if steps == [] then 0 else Disposals(steps[0]) + AllDisposals(steps[1..])
  }

  function AllCloses(steps: seq<Step>): nat { if steps == [] then 0 else Closes(steps[0]) + AllCloses(steps[1..]) }

  lemma OwnersLeaveCallers(s: State, step: Step)
    requires Enabled(s, step) && !step.Client?
    ensures var t := Apply(s, step);
            t.waiters == s.waiters && t.disposers == s.disposers && t.closers == s.closers
  {
    match step
    case Owner(c, act) => assert OwnerApply(s, c, act).waiters == s.waiters;
    case Body(c, act) => assert BodyApply(s, c, act).waiters == s.waiters;
    case Close(act) => assert CloseApply(s, act).waiters == s.waiters;
  }

  lemma StepCounts(s: State, step: Step)
    requires Enabled(s, step)
    ensures |Apply(s, step).disposers| == |s.disposers| + Disposals(step)
    ensures |Apply(s, step).closers| == |s.closers| + Closes(step)
  {
    if !step.Client? { OwnersLeaveCallers(s, step); }
  }

  lemma WaiterReturns(s: State, step: Step, w: nat)
    requires Enabled(s, step)
    ensures TimedOutAt(Apply(s, step), w) <==> TimedOutAt(s, w) || step == Client(WaiterExpired(w))
    ensures ServedAt(Apply(s, step), w) <==> ServedAt(s, w) || step == Client(WaiterServed(w))
  {
    if !step.Client? { OwnersLeaveCallers(s, step); }
  }

  lemma DisposerReturns(s: State, step: Step, d: nat)
    requires Enabled(s, step)
    ensures LeftAt(Apply(s, step), d) <==> LeftAt(s, d) || step == Client(DisposerLeaves(d))
    ensures ReturnedAt(Apply(s, step), d) <==> ReturnedAt(s, d) || step == Client(CloserLeaves(d))
  {
    if !step.Client? { OwnersLeaveCallers(s, step); }
  }

  lemma {:induction false} RunCallers(s: State, steps: seq<Step>, i: nat)
    requires Runs(s, steps)
    ensures var t := After(s, steps);
            && |t.disposers| == |s.disposers| + AllDisposals(steps)
            && |t.closers| == |s.closers| + AllCloses(steps)
            && (TimedOutAt(t, i) <==> TimedOutAt(s, i) || Client(WaiterExpired(i)) in steps)
            && (ServedAt(t, i) <==> ServedAt(s, i) || Client(WaiterServed(i)) in steps)
            && (LeftAt(t, i) <==> LeftAt(s, i) || Client(DisposerLeaves(i)) in steps)
            && (ReturnedAt(t, i) <==> ReturnedAt(s, i) || Client(CloserLeaves(i)) in steps)
    decreases |steps|
  {
    if steps != [] {
      assert steps == [steps[0]] + steps[1..];
      StepCounts(s, steps[0]);
      WaiterReturns(s, steps[0], i);
      DisposerReturns(s, steps[0], i);
      RunCallers(Apply(s, steps[0]), steps[1..], i);
    }
  }

  /** Over every run: there is one disposer for each call of dispose and one closer for each call of Close, and each
      caller has returned iff its own return is a step of the run. */
  lemma CallersAreTakenUp(capacity: nat, steps: seq<Step>, i: nat)
    requires Runs(Init(capacity), steps)
    ensures var t := After(Init(capacity), steps);
            && |t.disposers| == AllDisposals(steps) && |t.closers| == AllCloses(steps)
            && (TimedOutAt(t, i) <==> Client(WaiterExpired(i)) in steps)
            && (ServedAt(t, i) <==> Client(WaiterServed(i)) in steps)
            && (LeftAt(t, i) <==> Client(DisposerLeaves(i)) in steps)
            && (ReturnedAt(t, i) <==> Client(CloserLeaves(i)) in steps)
  {
    RunCallers(Init(capacity), steps, i);
  }

  /** A closed fixture, or one in debt, refuses every get at once, whether its key is known or not; an open one lets a
      known key wait and creates a child for a new one. */
  lemma GetIs(s: State, key: Key)
    ensures ClientEnabled(s, Get(key))
    ensures var t := ClientApply(s, Get(key));
            && (s.closed || s.debt != {} ==> t == s)
            && (!s.closed && s.debt == {} && key in s.entries ==>
                  t == s.(waiters := t.waiters) && t.waiters == s.waiters + [Waiting(s.entries[key])])
            && (!s.closed && s.debt == {} && key !in s.entries ==>
                  && t.waiters == s.waiters && |t.children| == |s.children| + 1
                  && t.entries == s.entries[key := |s.children|] && t.starting == s.starting + 1
                  && t.children[..|s.children|] == s.children)
  {
  }

  /** A waiter may give up at any time; a test may clean up as soon as its cleanup is registered; anyone may close. */
  lemma CallersAreFree(s: State)
    ensures forall w: nat | w < |s.waiters| && s.waiters[w].Waiting? :: ClientEnabled(s, WaiterExpired(w))
    ensures forall c: nat | c < |s.children| && s.children[c].registered :: ClientEnabled(s, CallDispose(c))
    ensures ClientEnabled(s, CallClose)
  {
  }
}
