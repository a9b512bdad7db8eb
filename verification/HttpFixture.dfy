/** The exclusive case lease and the one-time teardown of HTTPFixture, mariamemtest/http.go. Every method below is
    one critical section under `f.mu`, except Setup, which runs under the lease that Reserve handed out. */
module HttpFixture {
  import opened Wrappers

  type App = nat   // comparable application handles

  datatype Call = StopApp(app: App) | CloseLive | CloseBaseline | CloseSource

  datatype Cause = Failed(call: Call) | Deadline

  datatype Owners = Owners(live: bool, baseline: bool, source: bool)

  /** A case from its reservation to the end of its finish. */
  datatype Outcome = NotTried | Succeeded | Broken
  datatype Case = Held(outcome: Outcome) | Released(outcome: Outcome)

  datatype Admission = Admitted(index: nat) | OwnerStopped | Overlap

  datatype CloseResult = Clean | CleanupFailed(causes: set<Cause>) | StillActive

  /** What the hooks, the Live endpoint and the context answer during one setup. */
  datatype Answers = Answers(
    quiesced: bool, aliveAfterQuiesce: bool,
    reset: bool, generation: nat, ready: bool, sameIdentity: bool, aliveAfterReset: bool,
    resumes: bool, resumed: bool, aliveAfterResume: bool,
    external: bool, externalDone: bool, aliveAtEnd: bool)

  /** The fixture as a value: everything its methods read or change. */
  datatype State = State(
    active: bool, failed: bool, closed: bool, closeErr: set<Cause>,
    apps: seq<App>, owners: Owners, generation: nat, cases: seq<Case>, log: seq<Call>)

  // ---------- the teardown ----------

  /** Applications in reverse registration order. */
  function StopApps(apps: seq<App>): seq<Call> {
    if apps == [] then [] else [StopApp(apps[|apps| - 1])] + StopApps(apps[..|apps| - 1])
  }

  function CloseOwners(owners: Owners): seq<Call> {
    (if owners.live then [CloseLive] else []) +
    (if owners.baseline then [CloseBaseline] else []) +
    (if owners.source then [CloseSource] else [])
  }

  function Teardown(apps: seq<App>, owners: Owners): seq<Call> { StopApps(apps) + CloseOwners(owners) }

  /** The calls of a teardown that failed. */
  function Failures(calls: seq<Call>, failing: set<Call>): set<Cause> {
    set call | call in calls && call in failing :: Failed(call)
  }

  // ---------- the transitions ----------

  function Registering(apps: seq<App>, app: App): seq<App> { if app in apps then apps else apps + [app] }

  function Reserving(s: State): (State, Admission) {
    if s.closed || s.failed then (s, OwnerStopped)
    else if s.active then (s, Overlap)
    else (s.(active := true, cases := s.cases + [Held(NotTried)]), Admitted(|s.cases|))
  }

  predicate SetupSucceeds(before: nat, a: Answers) {
    && a.quiesced && a.aliveAfterQuiesce
    && a.reset && a.ready && a.generation == before + 1 && a.sameIdentity && a.aliveAfterReset
    && (a.resumes ==> a.resumed) && a.aliveAfterResume
    && (a.external ==> a.externalDone) && a.aliveAtEnd
  }

  datatype Stage = Quiesce | Reset | Identity | Resume | ExternalState

  /** The checks of a setup, in order, each with the stage it is reported as. */
  function Rungs(before: nat, a: Answers): seq<(Stage, bool)> {
    [(Quiesce, a.quiesced), (Quiesce, a.aliveAfterQuiesce),
     (Reset, a.reset),
     (Identity, a.ready), (Identity, a.generation == before + 1), (Identity, a.sameIdentity),
     (Reset, a.aliveAfterReset),
     (Resume, !a.resumes || a.resumed), (Resume, a.aliveAfterResume),
     (ExternalState, !a.external || a.externalDone), (ExternalState, a.aliveAtEnd)]
  }

  /** The stage of the first check that fails. */
  function FirstFailed(rungs: seq<(Stage, bool)>): Option<Stage> {
    if rungs == [] then None else if !rungs[0].1 then Some(rungs[0].0) else FirstFailed(rungs[1..])
  }

  lemma {:induction false} NoneFailedIff(rungs: seq<(Stage, bool)>)
    ensures FirstFailed(rungs) == None <==> forall i | 0 <= i < |rungs| :: rungs[i].1
  {
    if rungs != [] {
      NoneFailedIff(rungs[1..]);
      assert forall i | 0 <= i < |rungs| - 1 :: rungs[1..][i] == rungs[i + 1];
    }
  }

  lemma {:induction false} FirstAt(rungs: seq<(Stage, bool)>, k: nat)
    requires k < |rungs| && !rungs[k].1 && forall i | 0 <= i < k :: rungs[i].1
    ensures FirstFailed(rungs) == Some(rungs[k].0)
  {
    if k > 0 { FirstAt(rungs[1..], k - 1); }
  }

  /** A setup succeeds iff all checks pass. */
  lemma SucceedsIff(before: nat, a: Answers)
    ensures SetupSucceeds(before, a) <==> FirstFailed(Rungs(before, a)) == None
  {
    var r := Rungs(before, a);
    NoneFailedIff(r);
    if SetupSucceeds(before, a) { AllPassed(before, a); }
    if forall i | 0 <= i < |r| :: r[i].1 { PassedAll(before, a); }
  }

  lemma AllPassed(before: nat, a: Answers)
    requires SetupSucceeds(before, a)
    ensures forall i | 0 <= i < |Rungs(before, a)| :: Rungs(before, a)[i].1
  {
  }

  lemma PassedAll(before: nat, a: Answers)
    requires forall i | 0 <= i < |Rungs(before, a)| :: Rungs(before, a)[i].1
    ensures SetupSucceeds(before, a)
  {
    var r := Rungs(before, a);
    assert r[0].1 && r[1].1 && r[2].1 && r[3].1 && r[4].1 && r[5].1;
    assert r[6].1 && r[7].1 && r[8].1 && r[9].1 && r[10].1;
  }

  /** The first failure, check by check. */
  lemma EarlyFailure(before: nat, a: Answers)
    ensures !a.quiesced || !a.aliveAfterQuiesce ==> FirstFailed(Rungs(before, a)) == Some(Quiesce)
    ensures a.quiesced && a.aliveAfterQuiesce && !a.reset ==> FirstFailed(Rungs(before, a)) == Some(Reset)
  {
    var r := Rungs(before, a);
    if !a.quiesced { FirstAt(r, 0); }
    else if !a.aliveAfterQuiesce { FirstAt(r, 1); }
    else if !a.reset { FirstAt(r, 2); }
  }

  lemma MiddleFailure(before: nat, a: Answers)
    requires a.quiesced && a.aliveAfterQuiesce && a.reset
    ensures !a.ready || a.generation != before + 1 || !a.sameIdentity ==>
              FirstFailed(Rungs(before, a)) == Some(Identity)
    ensures a.ready && a.generation == before + 1 && a.sameIdentity && !a.aliveAfterReset ==>
              FirstFailed(Rungs(before, a)) == Some(Reset)
  {
    var r := Rungs(before, a);
    if !a.ready { FirstAt(r, 3); }
    else if a.generation != before + 1 { FirstAt(r, 4); }
    else if !a.sameIdentity { FirstAt(r, 5); }
    else if !a.aliveAfterReset { FirstAt(r, 6); }
  }

  lemma LateFailure(before: nat, a: Answers)
    requires a.quiesced && a.aliveAfterQuiesce && a.reset
    requires a.ready && a.generation == before + 1 && a.sameIdentity && a.aliveAfterReset
    ensures (a.resumes && !a.resumed) || !a.aliveAfterResume ==> FirstFailed(Rungs(before, a)) == Some(Resume)
    ensures (!a.resumes || a.resumed) && a.aliveAfterResume && ((a.external && !a.externalDone) || !a.aliveAtEnd) ==>
              FirstFailed(Rungs(before, a)) == Some(ExternalState)
  {
    var r := Rungs(before, a);
    if a.resumes && !a.resumed { FirstAt(r, 7); }
    else if !a.aliveAfterResume { FirstAt(r, 8); }
    else if a.external && !a.externalDone { FirstAt(r, 9); }
    else if !a.aliveAtEnd { FirstAt(r, 10); }
  }

  /** Setup asks Live to reset unless quiescing failed; whatever Live answers becomes its generation. */
  function SettingUp(s: State, i: nat, a: Answers): State
    requires i < |s.cases|
  {
    var ok := SetupSucceeds(s.generation, a);
    s.(generation := if a.quiesced && a.aliveAfterQuiesce then a.generation else s.generation,
       failed := s.failed || !ok,
       cases := s.cases[i := Held(if ok then Succeeded else Broken)])
  }

  function Releasing(s: State, i: nat, bad: bool): State
    requires i < |s.cases|
  {
    s.(active := false, failed := s.failed || bad, cases := s.cases[i := Released(s.cases[i].outcome)])
  }

  function Closing(s: State, failing: set<Call>, expired: bool): (State, CloseResult) {
    if s.closed then (s, if s.closeErr == {} then Clean else CleanupFailed(s.closeErr))
    else if s.active then (s.(failed := true), StillActive)
    else
      var calls := Teardown(s.apps, s.owners);
      var err := Failures(calls, failing) + (if expired then {Deadline} else {});
      (s.(closed := true, closeErr := err, log := s.log + calls), if err == {} then Clean else CleanupFailed(err))
  }

  // ---------- the object ----------

  class HTTPFixture {
    var active: bool
    var failed: bool
    var closed: bool
    var closeErr: set<Cause>
    var apps: seq<App>
    var owners: Owners
    var generation: nat          // of the Live endpoint
    var cases: seq<Case>
    var log: seq<Call>           // teardown calls, in order

    ghost function View(): State
      reads this
    {
      State(active, failed, closed, closeErr, apps, owners, generation, cases, log)
    }

    constructor (owners: Owners, generation: nat)
      ensures View() == State(false, false, false, {}, [], owners, generation, [], [])
    {
      active, failed, closed, closeErr, apps := false, false, false, {}, [];
      this.owners, this.generation, cases, log := owners, generation, [], [];
    }

    /** Handles are registered once each. */
    method RegisterApp(app: App) returns (ok: bool)
      modifies this`apps
      ensures ok == (app !in old(apps))
      ensures apps == Registering(old(apps), app)
    {
      for i := 0 to |apps|
        invariant app !in apps[..i]
      {
        if apps[i] == app { return false; }
      }
      assert apps[..|apps|] == apps;
      apps := apps + [app];
      ok := true;
    }

    method Reserve() returns (r: Admission)
      modifies this`active, this`cases
      ensures (View(), r) == Reserving(old(View()))
    {
      if closed || failed { return OwnerStopped; }
      if active { return Overlap; }
      active := true;
      r := Admitted(|cases|);
      cases := cases + [Held(NotTried)];
    }

    /** Answers the stage that failed, if any. */
    method Setup(i: nat, a: Answers) returns (r: Option<Stage>)
      requires i < |cases|
      modifies this`failed, this`generation, this`cases
      ensures View() == SettingUp(old(View()), i, a)
      ensures r == FirstFailed(Rungs(old(generation), a))
    {
      var before := generation;
      SucceedsIff(before, a);
      EarlyFailure(before, a);
      r := None;
      if !a.quiesced || !a.aliveAfterQuiesce {
        r := Some(Quiesce);
      } else {
        if a.reset { MiddleFailure(before, a); }
        generation := a.generation;
        var after := generation;
        if !a.reset {
          r := Some(Reset);
        } else if !a.ready || after != before + 1 || !a.sameIdentity {
          r := Some(Identity);
        } else if !a.aliveAfterReset {
          r := Some(Reset);
        } else {
          LateFailure(before, a);
          if (a.resumes && !a.resumed) || !a.aliveAfterResume {
            r := Some(Resume);
          } else if (a.external && !a.externalDone) || !a.aliveAtEnd {
            r := Some(ExternalState);
          }
        }
      }
      if r == None {
        cases := cases[i := Held(Succeeded)];
      } else {
        failed := true;
        cases := cases[i := Held(Broken)];
      }
    }

    /** The last critical section of a case's finish. */
    method Release(i: nat, bad: bool)
      requires i < |cases|
      modifies this`active, this`failed, this`cases
      ensures View() == Releasing(old(View()), i, bad)
    {
      active := false;
      if bad { failed := true; }
      cases := cases[i := Released(cases[i].outcome)];
    }

    /** The first loop of close: applications, last registered first. */
    method StopAll(failing: set<Call>) returns (failures: set<Cause>)
      modifies this`log
      ensures log == old(log) + StopApps(apps)
      ensures failures == Failures(StopApps(apps), failing)
    {
      failures := {};
      ghost var done: seq<Call> := [];
      var i := |apps|;
      assert apps[..i] == apps;
      while i > 0
        invariant 0 <= i <= |apps|
        invariant log == old(log) + done
        invariant done + StopApps(apps[..i]) == StopApps(apps)
        invariant failures == Failures(done, failing)
      {
        i := i - 1;
        assert apps[..i + 1][..i] == apps[..i];
        var call := StopApp(apps[i]);
        ExtendFailures(done, call, failing);
        done := done + [call];
        log := log + [call];
        if call in failing { failures := failures + {Failed(call)}; }
      }
    }

    /** The second loop of close: Live, the baseline, the source, whichever exist. */
    method CloseAll(failing: set<Call>) returns (failures: set<Cause>)
      modifies this`log
      ensures log == old(log) + CloseOwners(owners)
      ensures failures == Failures(CloseOwners(owners), failing)
    {
      failures := {};
      var calls := CloseOwners(owners);
      for k := 0 to |calls|
        invariant log == old(log) + calls[..k]
        invariant failures == Failures(calls[..k], failing)
      {
        ExtendFailures(calls[..k], calls[k], failing);
        assert calls[..k + 1] == calls[..k] + [calls[k]];
        log := log + [calls[k]];
        if calls[k] in failing { failures := failures + {Failed(calls[k])}; }
      }
      assert calls[..|calls|] == calls;
    }

    method Close(failing: set<Call>, expired: bool) returns (r: CloseResult)
      modifies this`closed, this`failed, this`closeErr, this`log
      ensures (View(), r) == Closing(old(View()), failing, expired)
    {
      if closed { return if closeErr == {} then Clean else CleanupFailed(closeErr); }
      if active {
        failed := true;
        return StillActive;
      }
      closed := true;
      var failures := StopAll(failing);
      if expired { failures := failures + {Deadline}; }
      var more := CloseAll(failing);
      assert log == old(log) + Teardown(apps, owners);
      JoinFailures(StopApps(apps), CloseOwners(owners), failing);
      closeErr := failures + more;
      assert closeErr == Failures(Teardown(apps, owners), failing) + (if expired then {Deadline} else {});
      r := if closeErr == {} then Clean else CleanupFailed(closeErr);
    }

    /** Failed preparation: latch, then tear down whatever is owned. */
    method Abort(failing: set<Call>, expired: bool) returns (r: CloseResult)
      modifies this`closed, this`failed, this`closeErr, this`log
      ensures (View(), r) == Closing(old(View()).(failed := true), failing, expired)
    {
      failed := true;
      r := Close(failing, expired);
    }
  }

  lemma ExtendFailures(calls: seq<Call>, call: Call, failing: set<Call>)
    ensures Failures(calls + [call], failing)
         == Failures(calls, failing) + (if call in failing then {Failed(call)} else {})
  {
  }

  lemma JoinFailures(a: seq<Call>, b: seq<Call>, failing: set<Call>)
    ensures Failures(a + b, failing) == Failures(a, failing) + Failures(b, failing)
  {
  }

  // ---------- whole runs ----------

  datatype Op =
    | Register(app: App)                          // the hook that starts the application registers a handle
    | Abort(failing: set<Call>, expired: bool)    // the preparation fails
    | Reserve
    | Setup(i: nat, a: Answers)
    | Release(i: nat, bad: bool)
    | Close(failing: set<Call>, expired: bool)

  /** Handles are registered, and a preparation fails, before there is any case. Only the holder of a reservation sets up, once, and finishes, once. */
  predicate Enabled(s: State, op: Op) {
    match op
    case Register(_) => s.cases == [] && !s.closed
    case Abort(_, _) => s.cases == [] && !s.closed
    case Setup(i, _) => i < |s.cases| && s.cases[i] == Held(NotTried)
    case Release(i, _) => i < |s.cases| && !s.cases[i].Released?
    case _ => true
  }

  function Apply(s: State, op: Op): State
    requires Enabled(s, op)
  {
    match op
    case Register(app) => s.(apps := Registering(s.apps, app))
    case Abort(failing, expired) => Closing(s.(failed := true), failing, expired).0
    case Reserve => Reserving(s).0
    case Setup(i, a) => SettingUp(s, i, a)
    case Release(i, bad) => Releasing(s, i, bad)
    case Close(failing, expired) => Closing(s, failing, expired).0
  }

  predicate Runs(s: State, ops: seq<Op>)
    decreases |ops|
  {
    ops == [] || (Enabled(s, ops[0]) && Runs(Apply(s, ops[0]), ops[1..]))
  }

  function After(s: State, ops: seq<Op>): State
    requires Runs(s, ops)
    decreases |ops|
  {
    if ops == [] then s else After(Apply(s, ops[0]), ops[1..])
  }

  function Init(owners: Owners, generation: nat): State {
    State(false, false, false, {}, [], owners, generation, [], [])
  }

  /** How many cases were set up successfully. */
  function SetUps(cases: seq<Case>): nat {
    if cases == [] then 0
    else (if cases[|cases| - 1].outcome == Succeeded then 1 else 0) + SetUps(cases[..|cases| - 1])
  }

  ghost predicate NoneBroken(cases: seq<Case>) {
    forall i | 0 <= i < |cases| :: cases[i].outcome != Broken
  }

  /** Cases that are reserved and not finished. */
  ghost function Open(s: State): set<nat> { set i | 0 <= i < |s.cases| && !s.cases[i].Released? }

  ghost predicate Inv(s: State, from: nat) {
    && (forall i | 0 <= i < |s.cases| - 1 :: s.cases[i].Released?)
    && s.active == (|s.cases| > 0 && !s.cases[|s.cases| - 1].Released?)
    && (s.closed ==> !s.active)
    && s.log == (if s.closed then Teardown(s.apps, s.owners) else [])
    && (!s.failed ==> NoneBroken(s.cases))
    && (NoneBroken(s.cases) ==> s.generation == from + SetUps(s.cases))
  }

  lemma SetUpsOfLast(cases: seq<Case>, c: Case)
    requires cases != []
    ensures SetUps(cases[|cases| - 1 := c])
         == SetUps(cases[..|cases| - 1]) + (if c.outcome == Succeeded then 1 else 0)
  {
    assert cases[|cases| - 1 := c][..|cases| - 1] == cases[..|cases| - 1];
  }

  lemma SameOutcomes(a: seq<Case>, b: seq<Case>)
    requires |a| == |b| && forall i | 0 <= i < |a| :: a[i].outcome == b[i].outcome
    ensures SetUps(a) == SetUps(b) && (NoneBroken(a) <==> NoneBroken(b))
  {
    if a != [] { SameOutcomes(a[..|a| - 1], b[..|b| - 1]); }
    if NoneBroken(a) { assert forall i | 0 <= i < |b| :: a[i].outcome == b[i].outcome && b[i].outcome != Broken; }
    if NoneBroken(b) { assert forall i | 0 <= i < |a| :: a[i].outcome == b[i].outcome && a[i].outcome != Broken; }
  }

  lemma ReleaseKeeps(s: State, i: nat, bad: bool, from: nat)
    requires Inv(s, from) && Enabled(s, Release(i, bad))
    ensures Inv(Releasing(s, i, bad), from)
  {
    SameOutcomes(s.cases, s.cases[i := Released(s.cases[i].outcome)]);
  }

  lemma SetupKeeps(s: State, i: nat, a: Answers, from: nat)
    requires Inv(s, from) && Enabled(s, Setup(i, a))
    ensures Inv(SettingUp(s, i, a), from)
  {
    var c := Held(if SetupSucceeds(s.generation, a) then Succeeded else Broken);
    assert i == |s.cases| - 1;
    SetUpsOfLast(s.cases, c);
    assert SetUps(s.cases) == SetUps(s.cases[..|s.cases| - 1]);
    assert s.cases[i := c][i] == c;
    assert forall j | 0 <= j < i :: s.cases[i := c][j] == s.cases[j];
  }

  lemma ReserveKeeps(s: State, from: nat)
    requires Inv(s, from)
    ensures Inv(Reserving(s).0, from)
  {
    assert (s.cases + [Held(NotTried)])[..|s.cases|] == s.cases;
  }

  lemma StepKeeps(s: State, op: Op, from: nat)
    requires Inv(s, from) && Enabled(s, op)
    ensures Inv(Apply(s, op), from)
    ensures s.failed ==> Apply(s, op).failed
    ensures s.closed ==> Apply(s, op).closed
    ensures Apply(s, op).apps == (if op.Register? then Registering(s.apps, op.app) else s.apps)
    ensures Apply(s, op).owners == s.owners
  {
    match op
    case Reserve => ReserveKeeps(s, from);
    case Register(app) => assert Inv(s.(apps := Registering(s.apps, app)), from);
    case Setup(i, a) => SetupKeeps(s, i, a, from);
    case Release(i, bad) => ReleaseKeeps(s, i, bad, from);
    case _ =>
  }

  /** The handles offered for registration, in order. */
  function Offered(ops: seq<Op>): seq<App> {
    if ops == [] then [] else (if ops[0].Register? then [ops[0].app] else []) + Offered(ops[1..])
  }

  /** The applications after a sequence of registrations, accepted or refused. */
  function RegisterAll(apps: seq<App>, handles: seq<App>): seq<App>
    decreases |handles|
  {
    if handles == [] then apps else RegisterAll(Registering(apps, handles[0]), handles[1..])
  }

  lemma {:induction false} RunKeeps(s: State, ops: seq<Op>, from: nat)
    requires Inv(s, from) && Runs(s, ops)
    ensures Inv(After(s, ops), from)
    ensures s.failed ==> After(s, ops).failed
    ensures s.closed ==> After(s, ops).closed
    ensures After(s, ops).apps == RegisterAll(s.apps, Offered(ops)) && After(s, ops).owners == s.owners
    decreases |ops|
  {
    if ops != [] {
      StepKeeps(s, ops[0], from);
      RunKeeps(Apply(s, ops[0]), ops[1..], from);
      if ops[0].Register? {
        assert Offered(ops)[0] == ops[0].app && Offered(ops)[1..] == Offered(ops[1..]);
      } else {
        assert Offered(ops) == Offered(ops[1..]);
      }
    }
  }

  /** Over every run: at most one case is open, `active` says whether there is one, and a closed fixture has none;
      the teardown happens at most once, with the applications in reverse order of registration, then Live, the
      baseline and the source; and unless a setup broke, Live has advanced exactly once for each case set up. */
  lemma LeaseAndTeardown(owners: Owners, generation: nat, ops: seq<Op>)
    requires Runs(Init(owners, generation), ops)
    ensures var s := After(Init(owners, generation), ops);
            && |Open(s)| == (if s.active then 1 else 0)
            && (s.closed ==> Open(s) == {})
            && s.log == (if s.closed then Teardown(RegisterAll([], Offered(ops)), owners) else [])
            && (!s.failed ==> NoneBroken(s.cases))
            && (NoneBroken(s.cases) ==> s.generation == generation + SetUps(s.cases))
  {
    RunKeeps(Init(owners, generation), ops, generation);
    var s := After(Init(owners, generation), ops);
    OpenCases(s, generation);
  }

  lemma OpenCases(s: State, from: nat)
    requires Inv(s, from)
    ensures |Open(s)| == (if s.active then 1 else 0) && (s.closed ==> Open(s) == {})
  {
    assert Open(s) == if s.active then {|s.cases| - 1} else {};
  }

  /** A failed preparation tears down whatever was registered and owned, and no case is ever admitted. */
  lemma AbortedForGood(owners: Owners, generation: nat, ops: seq<Op>, failing: set<Call>, expired: bool, later: seq<Op>)
    requires Runs(Init(owners, generation), ops) && Enabled(After(Init(owners, generation), ops), Abort(failing, expired))
    requires Runs(Apply(After(Init(owners, generation), ops), Abort(failing, expired)), later)
    ensures var t := After(Apply(After(Init(owners, generation), ops), Abort(failing, expired)), later);
            t.closed && t.failed && t.cases == [] && t.log == Teardown(RegisterAll([], Offered(ops)), owners)
  {
    var s := After(Init(owners, generation), ops);
    RunKeeps(Init(owners, generation), ops, generation);
    StoppedAdmitsNothing(Apply(s, Abort(failing, expired)), later);
    CloseResultIsStored(Apply(s, Abort(failing, expired)), later, {}, false);
  }

  /** What stops admission: a setup that did not succeed, a finish that failed, a Close while a case is open, and a
      failed preparation. */
  predicate Fails(s: State, op: Op) {
    match op
    case Abort(_, _) => true
    case Setup(_, a) => !SetupSucceeds(s.generation, a)
    case Release(_, bad) => bad
    case Close(_, _) => !s.closed && s.active
    case _ => false
  }

  /** `failed` is set by exactly these, and then no continuation admits a case. */
  lemma FailureStopsAdmission(s: State, op: Op, later: seq<Op>)
    requires Enabled(s, op) && !s.failed && Runs(Apply(s, op), later)
    ensures Apply(s, op).failed <==> Fails(s, op)
    ensures Fails(s, op) ==> Reserving(After(Apply(s, op), later)).1 == OwnerStopped
  {
    if Fails(s, op) { StoppedAdmitsNothing(Apply(s, op), later); }
  }

  /** `failed` and `closed` only latch, and neither ever admits another case. */
  lemma {:induction false} StoppedAdmitsNothing(s: State, ops: seq<Op>)
    requires (s.failed || s.closed) && Runs(s, ops)
    ensures var t := After(s, ops);
            && (s.failed ==> t.failed) && (s.closed ==> t.closed)
            && |t.cases| == |s.cases|
            && Reserving(t) == (t, OwnerStopped)
    decreases |ops|
  {
    if ops != [] { StoppedAdmitsNothing(Apply(s, ops[0]), ops[1..]); }
  }

  /** The stored result of a completed Close never changes and every later Close returns it. */
  lemma {:induction false} CloseResultIsStored(s: State, ops: seq<Op>, failing: set<Call>, expired: bool)
    requires s.closed && Runs(s, ops)
    ensures var t := After(s, ops);
            && t.closeErr == s.closeErr && t.log == s.log
            && Closing(t, failing, expired) == (t, if s.closeErr == {} then Clean else CleanupFailed(s.closeErr))
    decreases |ops|
  {
    if ops != [] { CloseResultIsStored(Apply(s, ops[0]), ops[1..], failing, expired); }
  }

  /** Which application a teardown stops at each position. */
  lemma {:induction false} StopAppsAt(apps: seq<App>, k: nat)
    requires k < |apps|
    ensures |StopApps(apps)| == |apps| && StopApps(apps)[k] == StopApp(apps[|apps| - 1 - k])
  {
    if k > 0 { StopAppsAt(apps[..|apps| - 1], k - 1); } else if |apps| > 1 { StopAppsAt(apps[..|apps| - 1], 0); }
  }

  ghost predicate NoneTwice(apps: seq<App>) { forall a, b | 0 <= a < b < |apps| :: apps[a] != apps[b] }

  /** Every handle offered is registered, and none twice. */
  lemma {:induction false} RegisteredOnce(apps: seq<App>, handles: seq<App>)
    requires NoneTwice(apps)
    ensures forall app :: app in RegisterAll(apps, handles) <==> app in apps || app in handles
    ensures NoneTwice(RegisterAll(apps, handles))
    decreases |handles|
  {
    if handles != [] {
      RegisteredOnce(Registering(apps, handles[0]), handles[1..]);
      assert handles == [handles[0]] + handles[1..];
    }
  }

  lemma DistinctCallsOnce(apps: seq<App>, owners: Owners, i: nat, j: nat)
    requires NoneTwice(apps)
    requires i < j < |Teardown(apps, owners)|
    ensures Teardown(apps, owners)[i] != Teardown(apps, owners)[j]
  {
    if |apps| > 0 {
      StopAppsAt(apps, 0);
      if i < |apps| { StopAppsAt(apps, i); }
      if j < |apps| { StopAppsAt(apps, j); }
    }
  }

  lemma {:induction false} AllStopped(apps: seq<App>, app: App)
    ensures StopApp(app) in StopApps(apps) <==> app in apps
  {
    if apps != [] {
      AllStopped(apps[..|apps| - 1], app);
      assert apps == apps[..|apps| - 1] + [apps[|apps| - 1]];
    }
  }

  /** Whatever registrations preceded it, a teardown stops every application that was ever offered, and makes no call
      twice. */
  lemma TeardownCallsOnce(handles: seq<App>, owners: Owners)
    ensures var calls := Teardown(RegisterAll([], handles), owners);
            && (forall app :: StopApp(app) in calls <==> app in handles)
            && (forall i, j | 0 <= i < j < |calls| :: calls[i] != calls[j])
  {
    var calls := Teardown(RegisterAll([], handles), owners);
    RegisteredOnce([], handles);
    forall app
      ensures StopApp(app) in calls <==> app in handles
    {
      AllStopped(RegisterAll([], handles), app);
    }
    forall i, j | 0 <= i < j < |calls|
      ensures calls[i] != calls[j]
    {
      DistinctCallsOnce(RegisterAll([], handles), owners, i, j);
    }
  }

  /** A call of the teardown of this fixture. */
  predicate Owed(s: State, call: Call) {
    match call
    case StopApp(app) => app in s.apps
    case CloseLive => s.owners.live
    case CloseBaseline => s.owners.baseline
    case CloseSource => s.owners.source
  }

  lemma OwedIff(s: State, call: Call)
    ensures call in Teardown(s.apps, s.owners) <==> Owed(s, call)
  {
    if call.StopApp? {
      AllStopped(s.apps, call.app);
    } else {
      NoOwnerIsAnApp(s.apps, call);
    }
  }

  lemma {:induction false} NoOwnerIsAnApp(apps: seq<App>, call: Call)
    requires !call.StopApp?
    ensures call !in StopApps(apps)
  {
    if apps != [] { NoOwnerIsAnApp(apps[..|apps| - 1], call); }
  }

  /** The first completed close answers, and stores, exactly the owed calls that failed and the expired deadline: it is
      clean iff there are none. With a case open it is refused, and nothing is called. */
  lemma FirstCloseResult(s: State, failing: set<Call>, expired: bool)
    requires !s.closed
    ensures var (t, r) := Closing(s, failing, expired);
            if s.active then r == StillActive && !t.closed && t.log == s.log
            else
              && t.closed
              && (forall call :: Failed(call) in t.closeErr <==> Owed(s, call) && call in failing)
              && (Deadline in t.closeErr <==> expired)
              && (r == Clean <==> !expired && forall call :: Owed(s, call) ==> call !in failing)
              && (r != Clean ==> r == CleanupFailed(t.closeErr))
  {
    if !s.active {
      var t := Closing(s, failing, expired).0;
      forall call
        ensures Failed(call) in t.closeErr <==> Owed(s, call) && call in failing
      {
        OwedIff(s, call);
      }
      assert forall x | x in t.closeErr :: x == Deadline || (x == Failed(x.call) && Owed(s, x.call));
    }
  }

  /** A case is admitted iff the owner has not stopped and no other case is open; otherwise the caller learns which. */
  lemma ReserveIff(s: State)
    ensures var (t, r) := Reserving(s);
            && (r.Admitted? <==> !s.closed && !s.failed && !s.active)
            && (r == OwnerStopped <==> s.closed || s.failed)
            && (r.Admitted? ==> t.active && r.index == |s.cases| && t.cases == s.cases + [Held(NotTried)])
            && (!r.Admitted? ==> t == s)
  {
  }

  /** Applications are stopped before any owner is closed, Live before the baseline, and the baseline before the
      source. */
  function Turn(call: Call): nat {
    match call
    case StopApp(_) => 0
    case CloseLive => 1
    case CloseBaseline => 2
    case CloseSource => 3
  }

  lemma TeardownInTurn(apps: seq<App>, owners: Owners, i: nat, j: nat)
    requires i < j < |Teardown(apps, owners)|
    ensures Turn(Teardown(apps, owners)[i]) <= Turn(Teardown(apps, owners)[j])
    ensures j >= |apps| ==> Turn(Teardown(apps, owners)[i]) < Turn(Teardown(apps, owners)[j])
  {
    if |apps| > 0 {
      StopAppsAt(apps, 0);
      if i < |apps| { StopAppsAt(apps, i); }
      if j < |apps| { StopAppsAt(apps, j); }
    }
  }
}
