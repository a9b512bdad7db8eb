/** One HTTP case's outstanding work, mariamemtest/http.go: requests admitted by RoundTrip, response bodies closed
    by whoever comes first, and finish, which snapshots the resource list and joins the WaitGroup. */
module HttpWork {

  /** Where the call of RoundTrip stands for one admitted request. */
  datatype Phase =
    | InFlight       // work.Add(1) is done, the transport has not answered
    | Refused        // the transport failed and done() ran
    | Responded      // the body is wrapped, the second critical section is ahead
    | Listed         // the body is in c.resources, RoundTrip returned
    | Late           // finished was seen, RoundTrip has to close the body itself
    | Returned       // ... and has closed it

  datatype Request = Request(phase: Phase, done: bool)

  /** What c.resources holds: handles registered by hooks, and response bodies. */
  datatype Resource = Handle(id: nat) | Body(request: nat)

  datatype Finishing =
    | Running
    | Closing(left: nat)       // resources[..left] are still to be closed, from the end
    | Joining
    | Releasing
    | Finished

  datatype State = State(
    finished: bool,
    resources: seq<Resource>,
    work: int,                 // the WaitGroup counter
    requests: seq<Request>,
    finishing: Finishing,
    copied: seq<Resource>,     // the list finish took under the lock
    failures: nat,             // errors collected by finish
    joined: bool,              // the join succeeded rather than timed out
    added: nat,                // work.Add calls over the whole run
    dones: nat,                // work.Done calls over the whole run
    ended: seq<Resource>)      // the resources that finish has closed, in order

  function Init(): State { State(false, [], 0, [], Running, [], 0, false, 0, 0, []) }

  datatype Step =
    | Admit                    // first critical section of RoundTrip
    | Refuse(r: nat)           // base.RoundTrip fails
    | Respond(r: nat)          // base.RoundTrip answers
    | Enlist(r: nat)           // second critical section
    | CloseOwn(r: nat)         // RoundTrip closes the body it could not enlist
    | UserEnds(r: nat)         // the caller closes the body, or a read of it ends
    | Register(id: nat)
    | Finish                   // first critical section of finish
    | CloseNext(ok: bool)
    | Join                     // <-joined
    | GiveUp                   // <-timer.C
    | Release                  // the owner's lease, then close(c.done)

  predicate In(s: State, r: nat, phase: Phase) { r < |s.requests| && s.requests[r].phase == phase }

  predicate Enabled(s: State, step: Step) {
    match step
    case Admit => true
    case Refuse(r) => In(s, r, InFlight)
    case Respond(r) => In(s, r, InFlight)
    case Enlist(r) => In(s, r, Responded)
    case CloseOwn(r) => In(s, r, Late)
    case UserEnds(r) => In(s, r, Listed) || In(s, r, Returned)
    case Register(_) => true
    case Finish => s.finishing == Running
    case CloseNext(_) => s.finishing.Closing? && 0 < s.finishing.left <= |s.copied|
    case Join => s.finishing == Joining && s.work == 0
    case GiveUp => s.finishing == Joining
    case Release => s.finishing == Releasing
  }

  /** `once.Do(done)`, or a plain `done()`, with the phase the request moves to. */
  function End(s: State, r: nat, phase: Phase): State
    requires r < |s.requests|
  {
    if s.requests[r].done then s.(requests := s.requests[r := Request(phase, true)])
    else s.(requests := s.requests[r := Request(phase, true)], work := s.work - 1, dones := s.dones + 1)
  }

  function Move(s: State, r: nat, phase: Phase): State
    requires r < |s.requests|
  {
    s.(requests := s.requests[r := s.requests[r].(phase := phase)])
  }

  function AfterClosing(left: nat): Finishing { if left == 0 then Joining else Closing(left) }

  function Apply(s: State, step: Step): State
    requires Enabled(s, step)
  {
    match step
    case Admit =>
      if s.finished then s
      else s.(requests := s.requests + [Request(InFlight, false)], work := s.work + 1, added := s.added + 1)
    // done() here is not behind the once, so the phase alone keeps it from running twice.
    case Refuse(r) =>
      s.(requests := s.requests[r := Request(Refused, true)], work := s.work - 1, dones := s.dones + 1)
    case Respond(r) => Move(s, r, Responded)
    case Enlist(r) =>
      if s.finished then Move(s, r, Late)
      else Move(s, r, Listed).(resources := s.resources + [Body(r)])
    case CloseOwn(r) => End(s, r, Returned)
    case UserEnds(r) => End(s, r, s.requests[r].phase)
    case Register(id) =>
      if s.finished || Handle(id) in s.resources then s else s.(resources := s.resources + [Handle(id)])
    case Finish =>
      s.(finished := true, copied := s.resources, finishing := AfterClosing(|s.resources|))
    case CloseNext(ok) =>
      var left := s.finishing.left - 1;
      var closed :=
        match s.copied[left]
        case Handle(_) => s
        case Body(r) => if r < |s.requests| then End(s, r, s.requests[r].phase) else s;
      closed.(finishing := AfterClosing(left), failures := if ok then s.failures else s.failures + 1,
               ended := s.ended + [s.copied[left]])
    case Join => s.(finishing := Releasing, joined := true)
    case GiveUp => s.(finishing := Releasing, failures := s.failures + 1)
    case Release => s.(finishing := Finished)
  }

  predicate Runs(s: State, steps: seq<Step>)
    decreases |steps|
  {
    steps == [] || (Enabled(s, steps[0]) && Runs(Apply(s, steps[0]), steps[1..]))
  }

  function After(s: State, steps: seq<Step>): State
    requires Runs(s, steps)
    decreases |steps|
  {
    if steps == [] then s else After(Apply(s, steps[0]), steps[1..])
  }

  // ---------- the invariant ----------

  ghost function Outstanding(requests: seq<Request>): set<nat> {
    set r | 0 <= r < |requests| && !requests[r].done
  }

  predicate RequestOk(q: Request) {
    match q.phase
    case InFlight => !q.done
    case Responded => !q.done
    case Late => !q.done
    case Refused => q.done
    case Returned => q.done
    case Listed => true
  }

  ghost predicate WorkOk(s: State) {
    && s.work == |Outstanding(s.requests)|
    && s.added == |s.requests|
    && s.dones == s.added - s.work
    && forall r | 0 <= r < |s.requests| :: RequestOk(s.requests[r])
  }

  /** A body is listed exactly when its request says so. */
  ghost predicate ListOk(s: State) {
    && (forall r: nat :: Body(r) in s.resources <==> In(s, r, Listed))
    && (forall r | 0 <= r < |s.requests| && s.requests[r].phase == Late :: s.finished)
  }

  /** finish has closed everything from `left` on. */
  ghost predicate ClosedFrom(s: State, left: nat) {
    forall i | left <= i < |s.copied| && s.copied[i].Body? ::
      s.copied[i].request < |s.requests| && s.requests[s.copied[i].request].done
  }

  ghost predicate FinishOk(s: State) {
    && s.finished == (s.finishing != Running)
    && (s.finished ==> s.copied == s.resources)
    && (s.finishing.Closing? ==> 0 < s.finishing.left <= |s.copied| && ClosedFrom(s, s.finishing.left))
    && (s.finishing == Joining || s.finishing == Releasing || s.finishing == Finished ==> ClosedFrom(s, 0))
    && (s.joined ==> s.work == 0 && (s.finishing == Releasing || s.finishing == Finished))
    && (!s.joined && (s.finishing == Releasing || s.finishing == Finished) ==> s.failures > 0)
  }

  ghost predicate Inv(s: State) { WorkOk(s) && ListOk(s) && FinishOk(s) }

  lemma InitWorkOk()
    ensures WorkOk(Init())
  {
    assert Outstanding([]) == {};
  }

  lemma InitListOk()
    ensures ListOk(Init())
  {
    forall r: nat
      ensures Body(r) !in Init().resources && !In(Init(), r, Listed)
    {
    }
  }

  lemma InitFinishOk()
    ensures FinishOk(Init())
  {
  }

  lemma InitInv()
    ensures Inv(Init())
  {
    InitWorkOk();
    InitListOk();
    InitFinishOk();
  }

  lemma OutstandingAfter(requests: seq<Request>, r: nat, q: Request)
    requires r < |requests|
    ensures |Outstanding(requests[r := q])|
         == |Outstanding(requests)| - (if requests[r].done then 0 else 1) + (if q.done then 0 else 1)
  {
    assert Outstanding(requests[r := q])
        == if q.done then Outstanding(requests) - {r} else Outstanding(requests) + {r};
  }

  lemma AdmitCounts(requests: seq<Request>)
    ensures |Outstanding(requests + [Request(InFlight, false)])| == |Outstanding(requests)| + 1
  {
    var grown := requests + [Request(InFlight, false)];
    assert forall r | 0 <= r < |requests| :: grown[r] == requests[r];
    assert Outstanding(grown) == Outstanding(requests) + {|requests|};
  }

  /** A request that changes from one sound state to another, with its done or without. */
  lemma RequestKeepsWork(s: State, t: State, r: nat, q: Request)
    requires WorkOk(s) && r < |s.requests| && RequestOk(q) && (s.requests[r].done ==> q.done)
    requires t.requests == s.requests[r := q] && t.added == s.added
    requires t.work == s.work - (if q.done && !s.requests[r].done then 1 else 0)
    requires t.dones == s.dones + s.work - t.work
    ensures WorkOk(t)
  {
    OutstandingAfter(s.requests, r, q);
  }

  lemma ClosingKeepsWork(s: State, ok: bool)
    requires Inv(s) && Enabled(s, CloseNext(ok))
    ensures WorkOk(Apply(s, CloseNext(ok)))
  {
    match s.copied[s.finishing.left - 1]
    case Body(r) =>
      assert s.copied[s.finishing.left - 1] in s.resources;
      assert In(s, r, Listed);
      RequestKeepsWork(s, Apply(s, CloseNext(ok)), r, Request(Listed, true));
    case Handle(_) =>
  }

  lemma AdmitKeepsWork(s: State)
    requires WorkOk(s)
    ensures WorkOk(Apply(s, Admit))
  {
    AdmitCounts(s.requests);
  }

  lemma WorkKept(s: State, step: Step)
    requires Inv(s) && Enabled(s, step)
    ensures WorkOk(Apply(s, step))
  {
    var t := Apply(s, step);
    match step
    case Admit => AdmitKeepsWork(s);
    case Refuse(r) => RequestKeepsWork(s, t, r, t.requests[r]);
    case Respond(r) => RequestKeepsWork(s, t, r, t.requests[r]);
    case Enlist(r) => RequestKeepsWork(s, t, r, t.requests[r]);
    case CloseOwn(r) => RequestKeepsWork(s, t, r, t.requests[r]);
    case UserEnds(r) => RequestKeepsWork(s, t, r, t.requests[r]);
    case CloseNext(ok) => ClosingKeepsWork(s, ok);
    case _ =>
  }

  lemma ListKept(s: State, step: Step)
    requires ListOk(s) && Enabled(s, step)
    ensures ListOk(Apply(s, step))
  {
    var t := Apply(s, step);
    forall r: nat
      ensures Body(r) in t.resources <==> In(t, r, Listed)
    {
      BodyListedIff(s, step, r);
    }
  }

  lemma BodyListedIff(s: State, step: Step, r: nat)
    requires ListOk(s) && Enabled(s, step)
    ensures Body(r) in Apply(s, step).resources <==> In(Apply(s, step), r, Listed)
  {
    assert Body(r) in s.resources <==> In(s, r, Listed);
  }

  /** A request that is done stays done. */
  lemma DoneStays(s: State, step: Step, r: nat)
    requires Enabled(s, step) && r < |s.requests| && s.requests[r].done && RequestOk(s.requests[r])
    ensures r < |Apply(s, step).requests| && Apply(s, step).requests[r].done
  {
  }

  lemma ClosedStays(s: State, step: Step, left: nat)
    requires Inv(s) && Enabled(s, step) && ClosedFrom(s, left) && Apply(s, step).copied == s.copied
    ensures ClosedFrom(Apply(s, step), left)
  {
    var t := Apply(s, step);
    forall i | left <= i < |t.copied| && t.copied[i].Body?
      ensures t.copied[i].request < |t.requests| && t.requests[t.copied[i].request].done
    {
      DoneStays(s, step, t.copied[i].request);
    }
  }

  lemma ClosingKept(s: State, ok: bool)
    requires Inv(s) && Enabled(s, CloseNext(ok))
    ensures FinishOk(Apply(s, CloseNext(ok)))
  {
    var t := Apply(s, CloseNext(ok));
    var left := s.finishing.left - 1;
    ClosedStays(s, CloseNext(ok), left + 1);
    assert s.copied[left] in s.resources;
    assert s.copied[left].Body? ==> In(s, s.copied[left].request, Listed);
    assert ClosedFrom(t, left);
  }

  /** The steps of the callers while finish stands still. */
  lemma CallersKeepFinish(s: State, step: Step)
    requires Inv(s) && Enabled(s, step)
    requires !step.Finish? && !step.CloseNext? && !step.Join? && !step.GiveUp? && !step.Release?
    ensures FinishOk(Apply(s, step))
  {
    if s.joined { NoneOutstanding(s); }
    if s.finishing.Closing? { ClosedStays(s, step, s.finishing.left); }
    else if s.finished { ClosedStays(s, step, 0); }
  }

  lemma FinishKept(s: State, step: Step)
    requires Inv(s) && Enabled(s, step)
    ensures FinishOk(Apply(s, step))
  {
    match step
    case Finish =>
    case CloseNext(ok) => ClosingKept(s, ok);
    case Join => ClosedStays(s, step, 0);
    case GiveUp => ClosedStays(s, step, 0);
    case Release => ClosedStays(s, step, 0);
    case _ => CallersKeepFinish(s, step);
  }

  lemma NoneOutstanding(s: State)
    requires WorkOk(s) && s.work == 0
    ensures forall r | 0 <= r < |s.requests| :: s.requests[r].done
  {
    forall r | 0 <= r < |s.requests|
      ensures s.requests[r].done
    {
      assert r !in Outstanding(s.requests);
    }
  }

  lemma StepKeeps(s: State, step: Step)
    requires Inv(s) && Enabled(s, step)
    ensures Inv(Apply(s, step))
  {
    WorkKept(s, step);
    ListKept(s, step);
    FinishKept(s, step);
  }

  lemma {:induction false} RunKeeps(s: State, steps: seq<Step>)
    requires Inv(s) && Runs(s, steps)
    ensures Inv(After(s, steps))
    decreases |steps|
  {
    if steps != [] {
      StepKeeps(s, steps[0]);
      RunKeeps(Apply(s, steps[0]), steps[1..]);
    }
  }

  // ---------- what the case promises ----------

  lemma Reachable(steps: seq<Step>)
    requires Runs(Init(), steps)
    ensures Inv(After(Init(), steps))
  {
    InitInv();
    RunKeeps(Init(), steps);
  }

  /** The WaitGroup counter is the number of requests whose done has not run, and done has run exactly once for
      every other one; a join that succeeded means that no admitted request is outstanding; and a case that
      finished without a failure has joined. */
  ghost predicate Balanced(s: State) {
    && s.work == |Outstanding(s.requests)|
    && s.dones == |s.requests| - |Outstanding(s.requests)|
    && (s.joined ==> s.dones == |s.requests| && Outstanding(s.requests) == {})
    && (s.finishing == Finished && s.failures == 0 ==> s.joined)
  }

  lemma InvBalanced(s: State)
    requires Inv(s)
    ensures Balanced(s)
  {
    if s.joined {
      NoneOutstanding(s);
      assert Outstanding(s.requests) == {};
    }
  }

  /** Over every interleaving of requests, body ends and finish. In particular the counter is never negative. */
  lemma DoneOncePerRequest(steps: seq<Step>)
    requires Runs(Init(), steps)
    ensures Balanced(After(Init(), steps))
  {
    Reachable(steps);
    InvBalanced(After(Init(), steps));
  }

  /** The request whose done a step runs, if it runs one. */
  function Ended(s: State, step: Step): (r: int)
    requires Enabled(s, step)
  {
    match step
    case Refuse(r) => r
    case CloseOwn(r) => if s.requests[r].done then -1 else r
    case UserEnds(r) => if s.requests[r].done then -1 else r
    case CloseNext(_) =>
      (match s.copied[s.finishing.left - 1]
       case Handle(_) => -1
       case Body(r) => if r < |s.requests| && !s.requests[r].done then r else -1)
    case _ => -1
  }

  /** work.Done is called for one request at a time, never for one it was called for before, and for every request
      whose done flips. */
  lemma EachDoneIsFirst(s: State, step: Step)
    requires Inv(s) && Enabled(s, step)
    ensures var t, r := Apply(s, step), Ended(s, step);
            && t.dones == s.dones + (if r >= 0 then 1 else 0)
            && (r >= 0 ==> r < |s.requests| && !s.requests[r].done && t.requests[r].done)
            && (forall q | 0 <= q < |s.requests| && q != r :: t.requests[q].done == s.requests[q].done)
  {
    if step.Refuse? { assert RequestOk(s.requests[step.r]); }
  }

  /** After finish has set `finished`, no run adds to the WaitGroup and none extends the resource list it copied. */
  lemma {:induction false} NothingAddedAfterFinish(s: State, steps: seq<Step>)
    requires Inv(s) && s.finished && Runs(s, steps)
    ensures var t := After(s, steps);
            && t.finished
            && t.added == s.added
            && |t.requests| == |s.requests|
            && t.resources == s.resources == t.copied
    decreases |steps|
  {
    if steps != [] {
      StepKeeps(s, steps[0]);
      NothingAddedAfterFinish(Apply(s, steps[0]), steps[1..]);
    }
  }

  /** No body is lost: whenever finish is past its snapshot, the body of every request that was answered is in the
      list finish copied, or its own RoundTrip closes it or has closed it. */
  lemma NoBodyIsLost(steps: seq<Step>, r: nat)
    requires Runs(Init(), steps)
    requires var s := After(Init(), steps);
             s.finished && r < |s.requests| && s.requests[r].phase != InFlight && s.requests[r].phase != Refused
    ensures var s := After(Init(), steps);
            || Body(r) in s.copied
            || (Enabled(s, Enlist(r)) && Apply(s, Enlist(r)).requests[r].phase == Late)
            || Enabled(s, CloseOwn(r))
            || (s.requests[r].phase == Returned && s.requests[r].done)
  {
    Reachable(steps);
    BodyIsKept(After(Init(), steps), r);
  }

  lemma BodyIsKept(s: State, r: nat)
    requires Inv(s) && s.finished && r < |s.requests|
    ensures match s.requests[r].phase
            case InFlight => true
            case Refused => true
            case Responded => Enabled(s, Enlist(r)) && Apply(s, Enlist(r)).requests[r].phase == Late
            case Listed => Body(r) in s.copied
            case Late => Enabled(s, CloseOwn(r))
            case Returned => s.requests[r].done
  {
    assert RequestOk(s.requests[r]);
    assert Body(r) in s.resources <==> In(s, r, Listed);
  }

  // ---------- finish closes what it copied ----------

  /** finish has closed the copied resources from the end down to `left`, once each. */
  ghost predicate ClosedDownTo(s: State, left: nat) {
    && left + |s.ended| == |s.copied|
    && forall i | 0 <= i < |s.ended| :: s.ended[i] == s.copied[|s.copied| - 1 - i]
  }

  ghost predicate EndedOk(s: State) {
    match s.finishing
    case Running => s.ended == []
    case Closing(left) => 0 < left && ClosedDownTo(s, left)
    case _ => ClosedDownTo(s, 0)
  }

  lemma CloseNextEnds(s: State, ok: bool)
    requires EndedOk(s) && Enabled(s, CloseNext(ok))
    ensures EndedOk(Apply(s, CloseNext(ok)))
  {
    var t, left := Apply(s, CloseNext(ok)), s.finishing.left - 1;
    assert t.copied == s.copied && t.ended == s.ended + [s.copied[left]];
  }

  lemma StepEnds(s: State, step: Step)
    requires EndedOk(s) && Enabled(s, step)
    ensures EndedOk(Apply(s, step))
  {
    match step
    case CloseNext(ok) => CloseNextEnds(s, ok);
    case Finish =>
    case Join =>
    case GiveUp =>
    case Release =>
    case _ =>
      var t := Apply(s, step);
      assert t.finishing == s.finishing && t.copied == s.copied && t.ended == s.ended;
  }

  lemma {:induction false} EndedRun(s: State, steps: seq<Step>)
    requires EndedOk(s) && Runs(s, steps)
    ensures EndedOk(After(s, steps))
    decreases |steps|
  {
    if steps != [] {
      StepEnds(s, steps[0]);
      EndedRun(Apply(s, steps[0]), steps[1..]);
    }
  }

  /** Every resource in the list that finish copied is closed once, last registered first, before the join. */
  lemma ResourcesClosedInReverse(steps: seq<Step>)
    requires Runs(Init(), steps)
    requires var f := After(Init(), steps).finishing; f == Joining || f == Releasing || f == Finished
    ensures var s := After(Init(), steps);
            && |s.ended| == |s.copied|
            && forall i | 0 <= i < |s.copied| :: s.ended[i] == s.copied[|s.copied| - 1 - i]
  {
    EndedRun(Init(), steps);
  }

  // ---------- registered handles are among them ----------

  /** The handles of a resource list, in order. */
  function HandlesOf(resources: seq<Resource>): seq<nat> {
    if resources == [] then []
    else HandlesOf(resources[..|resources| - 1])
         + (match resources[|resources| - 1] case Handle(id) => [id] case Body(_) => [])
  }

  /** The handles after more steps: each is added when it is first registered, until finish begins. */
  function HandlesAfter(handles: seq<nat>, finished: bool, steps: seq<Step>): seq<nat>
    decreases |steps|
  {
    if steps == [] then handles
    else
      match steps[0]
      case Register(id) =>
        HandlesAfter(if finished || id in handles then handles else handles + [id], finished, steps[1..])
      case Finish => HandlesAfter(handles, true, steps[1..])
      case _ => HandlesAfter(handles, finished, steps[1..])
  }

  lemma {:induction false} HandleListed(resources: seq<Resource>, id: nat)
    ensures id in HandlesOf(resources) <==> Handle(id) in resources
  {
    if resources != [] {
      HandleListed(resources[..|resources| - 1], id);
      assert resources == resources[..|resources| - 1] + [resources[|resources| - 1]];
    }
  }

  lemma HandlesOfAppend(resources: seq<Resource>, r: Resource)
    ensures HandlesOf(resources + [r]) == HandlesOf(resources) + (match r case Handle(id) => [id] case Body(_) => [])
  {
    assert (resources + [r])[..|resources|] == resources;
  }

  lemma StepHandles(s: State, step: Step)
    requires Enabled(s, step)
    ensures HandlesOf(Apply(s, step).resources) == HandlesAfter(HandlesOf(s.resources), s.finished, [step])
    ensures Apply(s, step).finished == (s.finished || step == Finish)
  {
    match step
    case Register(id) =>
      HandleListed(s.resources, id);
      HandlesOfAppend(s.resources, Handle(id));
    case Enlist(r) => HandlesOfAppend(s.resources, Body(r));
    case _ =>
  }

  lemma {:induction false} RunHandles(s: State, steps: seq<Step>)
    requires Runs(s, steps)
    ensures HandlesOf(After(s, steps).resources) == HandlesAfter(HandlesOf(s.resources), s.finished, steps)
    decreases |steps|
  {
    if steps != [] {
      StepHandles(s, steps[0]);
      RunHandles(Apply(s, steps[0]), steps[1..]);
      assert [steps[0]][1..] == [];
    }
  }

  ghost predicate NoneTwice(ids: seq<nat>) { forall i, j | 0 <= i < j < |ids| :: ids[i] != ids[j] }

  /** Registered before finish began. */
  ghost predicate RegisteredInTime(steps: seq<Step>, id: nat) {
    exists k :: 0 <= k < |steps| && steps[k] == Register(id) && Finish !in steps[..k]
  }

  lemma RegisteredInTimeIff(steps: seq<Step>, id: nat)
    requires steps != []
    ensures RegisteredInTime(steps, id)
       <==> steps[0] == Register(id) || (steps[0] != Finish && RegisteredInTime(steps[1..], id))
  {
    var rest := steps[1..];
    if RegisteredInTime(steps, id) && steps[0] != Register(id) {
      var k :| 0 <= k < |steps| && steps[k] == Register(id) && Finish !in steps[..k];
      assert steps[0] in steps[..k];
      assert rest[..k - 1] == steps[1..k] && forall x | x in rest[..k - 1] :: x in steps[..k];
      assert rest[k - 1] == Register(id);
    }
    if steps[0] == Register(id) { assert steps[..0] == []; }
    if steps[0] != Finish && RegisteredInTime(rest, id) {
      var k :| 0 <= k < |rest| && rest[k] == Register(id) && Finish !in rest[..k];
      assert steps[..k + 1] == [steps[0]] + rest[..k];
      assert steps[k + 1] == Register(id);
    }
  }

  lemma {:induction false} HandlesAre(handles: seq<nat>, finished: bool, steps: seq<Step>, id: nat)
    requires NoneTwice(handles)
    ensures NoneTwice(HandlesAfter(handles, finished, steps))
    ensures id in HandlesAfter(handles, finished, steps) <==> id in handles || (!finished && RegisteredInTime(steps, id))
    decreases |steps|
  {
    if steps != [] {
      RegisteredInTimeIff(steps, id);
      match steps[0]
      case Register(x) =>
        HandlesAre(if finished || x in handles then handles else handles + [x], finished, steps[1..], id);
      case Finish => HandlesAre(handles, true, steps[1..], id);
      case _ => HandlesAre(handles, finished, steps[1..], id);
    }
  }

  /** Reversing a list reverses its handles. */
  function Reversed<T>(s: seq<T>): seq<T> { if s == [] then [] else [s[|s| - 1]] + Reversed(s[..|s| - 1]) }

  lemma {:induction false} ReversedAt<T>(s: seq<T>, r: seq<T>)
    requires |r| == |s| && forall i | 0 <= i < |s| :: r[i] == s[|s| - 1 - i]
    ensures r == Reversed(s)
    decreases |s|
  {
    if s != [] {
      ReversedAt(s[..|s| - 1], r[1..]);
      assert r == [s[|s| - 1]] + r[1..];
    }
  }

  lemma {:induction false} HandlesOfPrepend(r: Resource, rest: seq<Resource>)
    ensures HandlesOf([r] + rest) == (match r case Handle(id) => [id] case Body(_) => []) + HandlesOf(rest)
    decreases |rest|
  {
    if rest == [] {
      assert [r] + rest == [] + [r];
      HandlesOfAppend([], r);
    } else {
      var front, last := rest[..|rest| - 1], rest[|rest| - 1];
      HandlesOfPrepend(r, front);
      assert [r] + rest == ([r] + front) + [last];
      HandlesOfAppend([r] + front, last);
    }
  }

  lemma {:induction false} HandlesOfReversed(resources: seq<Resource>)
    ensures HandlesOf(Reversed(resources)) == Reversed(HandlesOf(resources))
  {
    if resources != [] {
      var front, last := resources[..|resources| - 1], resources[|resources| - 1];
      HandlesOfReversed(front);
      HandlesOfPrepend(last, Reversed(front));
      match last
      case Handle(id) => assert (HandlesOf(front) + [id])[..|HandlesOf(front)|] == HandlesOf(front);
      case Body(_) => assert HandlesOf(front) + [] == HandlesOf(front);
    }
  }

  lemma HandlesClosed(steps: seq<Step>)
    requires Runs(Init(), steps)
    requires var f := After(Init(), steps).finishing; f == Joining || f == Releasing || f == Finished
    ensures HandlesOf(After(Init(), steps).ended) == Reversed(HandlesAfter([], false, steps))
  {
    var s := After(Init(), steps);
    Reachable(steps);
    ResourcesClosedInReverse(steps);
    ReversedAt(s.copied, s.ended);
    RunHandles(Init(), steps);
    HandlesOfReversed(s.resources);
  }

  /** Every handle registered before finish began, and no other, is closed by finish: once, in reverse order of its
      first registration. */
  lemma RegisteredAreClosed(steps: seq<Step>)
    requires Runs(Init(), steps)
    requires var f := After(Init(), steps).finishing; f == Joining || f == Releasing || f == Finished
    ensures var handles := HandlesAfter([], false, steps);
            && HandlesOf(After(Init(), steps).ended) == Reversed(handles)
            && NoneTwice(handles)
            && forall id :: id in handles <==> RegisteredInTime(steps, id)
    ensures forall id :: Handle(id) in After(Init(), steps).ended <==> RegisteredInTime(steps, id)
  {
    var s, handles := After(Init(), steps), HandlesAfter([], false, steps);
    HandlesClosed(steps);
    forall id
      ensures id in handles <==> RegisteredInTime(steps, id)
      ensures NoneTwice(handles)
      ensures Handle(id) in s.ended <==> RegisteredInTime(steps, id)
    {
      HandlesAre([], false, steps, id);
      HandleListed(s.ended, id);
      InReversed(handles, id);
    }
    HandlesAre([], false, steps, 0);
  }

  lemma {:induction false} InReversed<T>(s: seq<T>, x: T)
    ensures x in Reversed(s) <==> x in s
  {
    if s != [] {
      InReversed(s[..|s| - 1], x);
      assert s == s[..|s| - 1] + [s[|s| - 1]];
    }
  }

  // ---------- the error of finish ----------

  /** A close that failed, or a join that was given up. */
  predicate FinishFailed(steps: seq<Step>) { CloseNext(false) in steps || GiveUp in steps }

  lemma {:induction false} FailuresRun(s: State, steps: seq<Step>)
    requires Runs(s, steps)
    ensures After(s, steps).failures > 0 <==> s.failures > 0 || FinishFailed(steps)
    decreases |steps|
  {
    if steps != [] {
      assert steps == [steps[0]] + steps[1..];
      FailuresRun(Apply(s, steps[0]), steps[1..]);
    }
  }

  /** finish reports an error iff closing a resource failed or the join was given up. */
  lemma FinishErrorIff(steps: seq<Step>)
    requires Runs(Init(), steps)
    ensures After(Init(), steps).failures == 0 <==> !FinishFailed(steps)
  {
    FailuresRun(Init(), steps);
  }

  // ---------- the join does not depend on the test closing its bodies ----------

  /** Steps of RoundTrip and of finish itself; not the test's own ends of bodies, and not the timer. */
  predicate Productive(step: Step) {
    match step
    case Refuse(_) => true
    case Respond(_) => true
    case Enlist(_) => true
    case CloseOwn(_) => true
    case CloseNext(_) => true
    case Join => true
    case Release => true
    case _ => false
  }

  function PhaseRank(p: Phase): nat {
    match p
    case InFlight => 3
    case Responded => 2
    case Late => 1
    case _ => 0
  }

  function RequestsRank(requests: seq<Request>): nat {
    if requests == [] then 0 else PhaseRank(requests[0].phase) + RequestsRank(requests[1..])
  }

  lemma {:induction false} RequestsRankAfter(requests: seq<Request>, r: nat, q: Request)
    requires r < |requests|
    ensures RequestsRank(requests[r := q])
         == RequestsRank(requests) - PhaseRank(requests[r].phase) + PhaseRank(q.phase)
  {
    if r > 0 {
      assert requests[r := q][1..] == requests[1..][r - 1 := q];
      RequestsRankAfter(requests[1..], r - 1, q);
    } else {
      assert requests[r := q][1..] == requests[1..];
    }
  }

  function FinishRank(f: Finishing): nat {
    match f
    case Running => 0
    case Closing(left) => left + 2
    case Joining => 2
    case Releasing => 1
    case Finished => 0
  }

  function Rank(s: State): nat { RequestsRank(s.requests) + FinishRank(s.finishing) }

  /** Once finish has begun some productive step is always enabled until it is over. */
  lemma FinishIsNeverStuck(s: State) returns (step: Step)
    requires Inv(s) && s.finished && s.finishing != Finished
    ensures Enabled(s, step) && Productive(step)
  {
    match s.finishing
    case Closing(_) => step := CloseNext(true);
    case Joining =>
      if s.work == 0 {
        step := Join;
      } else {
        assert Outstanding(s.requests) != {};
        var r :| r in Outstanding(s.requests);
        step := OutstandingMoves(s, r);
      }
    case Releasing => step := Release;
  }

  lemma ListedIsDone(s: State, r: nat)
    requires Inv(s) && s.finishing == Joining && In(s, r, Listed)
    ensures s.requests[r].done
  {
    assert Body(r) in s.copied;
    var i :| 0 <= i < |s.copied| && s.copied[i] == Body(r);
    assert s.copied[i].Body?;
  }

  /** After the closing loop, an outstanding request is one whose own RoundTrip has still to act. */
  lemma OutstandingMoves(s: State, r: nat) returns (step: Step)
    requires Inv(s) && s.finishing == Joining && r in Outstanding(s.requests)
    ensures Enabled(s, step) && Productive(step)
  {
    assert RequestOk(s.requests[r]);
    assert s.requests[r].phase != Listed by {
      if s.requests[r].phase == Listed { ListedIsDone(s, r); }
    }
    match s.requests[r].phase
    case InFlight => step := Respond(r);
    case Responded => step := Enlist(r);
    case Late => step := CloseOwn(r);
  }

  lemma ClosingDescends(s: State, ok: bool)
    requires Enabled(s, CloseNext(ok))
    ensures Rank(Apply(s, CloseNext(ok))) < Rank(s)
  {
    match s.copied[s.finishing.left - 1]
    case Body(r) =>
      if r < |s.requests| { RequestsRankAfter(s.requests, r, Request(s.requests[r].phase, true)); }
    case Handle(_) =>
  }

  lemma RankFalls(s: State, step: Step)
    requires Inv(s) && s.finished && Enabled(s, step)
    ensures Rank(Apply(s, step)) <= Rank(s)
    ensures Productive(step) ==> Rank(Apply(s, step)) < Rank(s)
  {
    match step
    case Refuse(r) => RequestsRankAfter(s.requests, r, Request(Refused, true));
    case Respond(r) => RequestsRankAfter(s.requests, r, s.requests[r].(phase := Responded));
    case Enlist(r) => RequestsRankAfter(s.requests, r, s.requests[r].(phase := Late));
    case CloseOwn(r) => RequestsRankAfter(s.requests, r, Request(Returned, true));
    case UserEnds(r) => RequestsRankAfter(s.requests, r, Request(s.requests[r].phase, true));
    case CloseNext(ok) => ClosingDescends(s, ok);
    case _ =>
  }

  function ProductiveSteps(steps: seq<Step>): nat {
    if steps == [] then 0 else (if Productive(steps[0]) then 1 else 0) + ProductiveSteps(steps[1..])
  }

  lemma {:induction false} FinishedStays(s: State, steps: seq<Step>)
    requires s.finishing == Finished && Runs(s, steps)
    ensures After(s, steps).finishing == Finished
    decreases |steps|
  {
    if steps != [] { FinishedStays(Apply(s, steps[0]), steps[1..]); }
  }

  /** finish returns: in any continuation, however its steps are mixed with refused requests, ends of bodies by the
      test, registrations and an expiring timer, `Rank(s)` productive steps are enough. */
  lemma {:induction false} FinishEndsWithin(s: State, steps: seq<Step>)
    requires Inv(s) && s.finished && Runs(s, steps)
    requires ProductiveSteps(steps) >= Rank(s)
    ensures After(s, steps).finishing == Finished
    decreases |steps|
  {
    if s.finishing == Finished {
      FinishedStays(s, steps);
    } else {
      assert Rank(s) > 0;
      StepKeeps(s, steps[0]);
      RankFalls(s, steps[0]);
      FinishEndsWithin(Apply(s, steps[0]), steps[1..]);
    }
  }

  lemma ThenRuns(s: State, step: Step, rest: seq<Step>)
    requires Enabled(s, step) && Runs(Apply(s, step), rest)
    ensures Runs(s, [step] + rest) && After(s, [step] + rest) == After(Apply(s, step), rest)
  {
    assert ([step] + rest)[1..] == rest;
  }

  /** From every state of a finish that has begun there is a way to its end, within `Rank` steps of the requests and of
      finish, even if the test never closes a single body and the timer never fires; and it joins, unless the timer has
      already fired. */
  lemma {:induction false} FinishCanJoin(s: State) returns (steps: seq<Step>)
    requires Inv(s) && s.finished
    ensures Runs(s, steps) && |steps| <= Rank(s) && After(s, steps).finishing == Finished
    ensures s.finishing != Releasing && s.finishing != Finished ==> After(s, steps).joined
    ensures forall i | 0 <= i < |steps| :: Productive(steps[i])
    decreases Rank(s)
  {
    if s.finishing == Finished { return []; }
    var step := FinishIsNeverStuck(s);
    var t := Apply(s, step);
    StepKeeps(s, step);
    RankFalls(s, step);
    var rest: seq<Step>;
    if step.Join? {
      rest := [Release];
      ThenRuns(t, Release, []);
      assert [Release] + [] == [Release];
    } else {
      rest := FinishCanJoin(t);
    }
    ThenRuns(s, step, rest);
    steps := [step] + rest;
  }

  // ---------- requests are admitted, and their answers are free ----------

  /** How many requests come before finish begins. */
  function AdmitsBeforeFinish(steps: seq<Step>): nat {
    if steps == [] || steps[0] == Finish then 0
    else (if steps[0] == Admit then 1 else 0) + AdmitsBeforeFinish(steps[1..])
  }

  lemma {:induction false} AdmittedRun(s: State, steps: seq<Step>)
    requires Runs(s, steps)
    ensures |After(s, steps).requests| == |s.requests| + (if s.finished then 0 else AdmitsBeforeFinish(steps))
    decreases |steps|
  {
    if steps != [] { AdmittedRun(Apply(s, steps[0]), steps[1..]); }
  }

  /** Every request that comes before finish begins is admitted, and none after. */
  lemma AdmittedUntilFinish(steps: seq<Step>)
    requires Runs(Init(), steps)
    ensures |After(Init(), steps).requests| == AdmitsBeforeFinish(steps)
  {
    AdmittedRun(Init(), steps);
  }

  /** A transport may answer or fail, a body may end at any time once it is out, a close may fail, the timer may fire,
      and anything may be offered for registration. */
  lemma AnyAnswerMayCome(s: State, r: nat)
    ensures In(s, r, InFlight) ==> Enabled(s, Respond(r)) && Enabled(s, Refuse(r))
    ensures In(s, r, Listed) || In(s, r, Returned) ==> Enabled(s, UserEnds(r))
    ensures s.finishing.Closing? && 0 < s.finishing.left <= |s.copied| ==> forall ok :: Enabled(s, CloseNext(ok))
    ensures s.finishing == Joining ==> Enabled(s, GiveUp)
    ensures s.finishing == Running ==> Enabled(s, Finish)
    ensures Enabled(s, Admit) && forall id :: Enabled(s, Register(id))
  {
  }
}
