/** The worker pool of benchmarks/ubuntu-startup/schedule.go: an unbuffered channel of jobs, a WaitGroup that
    counts starts, and an optional barrier between start and use.

    The program counter of a worker that received job i is the status of job i. */
module RunChildren {
  import NatSets

  datatype Job = Unsent | Starting | Signalling | Blocked | Using | Finished

  datatype Worker = Receiving | On(job: nat) | Leaving | Exited

  datatype Main = Sending(next: nat) | AwaitingReady | Announcing | Releasing | AwaitingFinished | Returned

  datatype Event = Start(i: nat) | AllReady | Use(i: nat)

  datatype State = State(
    barrier: bool,
    main: Main,
    jobsClosed: bool,
    released: bool,     // the release channel is closed
    ready: int,         // the two WaitGroup counters
    finished: int,
    jobs: seq<Job>,
    workers: seq<Worker>,
    log: seq<Event>)

  /** The calls that runChildren accepts; any other call panics before anything starts. */
  predicate Accepted(n: int, workers: int, barrier: bool) {
    !(n < 1 || workers < 1 || (barrier && workers != n))
  }

  function Init(n: nat, workers: nat, barrier: bool): State {
    State(barrier, Sending(0), false, false, n, workers, seq(n, _ => Unsent), seq(workers, _ => Receiving), [])
  }

  datatype Step =
    | Handoff(w: nat)        // jobs <- i meets a worker's receive
    | CloseJobs
    | ReadyReached           // ready.Wait() returns
    | Announce               // allReady()
    | Release
    | FinishedReached        // finished.Wait() returns
    | Drain(w: nat)          // range over the closed channel ends
    | RunStart(w: nat)
    | Signal(w: nat)         // ready.Done()
    | PassBarrier(w: nat)
    | RunUse(w: nat)
    | Exit(w: nat)           // deferred finished.Done()

  predicate At(s: State, w: nat, status: Job) {
    w < |s.workers| && s.workers[w].On? && s.workers[w].job < |s.jobs| && s.jobs[s.workers[w].job] == status
  }

  predicate Enabled(s: State, step: Step) {
    match step
    case Handoff(w) =>
      s.main.Sending? && s.main.next < |s.jobs| && w < |s.workers| && s.workers[w] == Receiving
    case CloseJobs => s.main == Sending(|s.jobs|)
    case ReadyReached => s.main == AwaitingReady && s.ready == 0
    case Announce => s.main == Announcing
    case Release => s.main == Releasing
    case FinishedReached => s.main == AwaitingFinished && s.finished == 0
    case Drain(w) => w < |s.workers| && s.workers[w] == Receiving && s.jobsClosed
    case RunStart(w) => At(s, w, Starting)
    case Signal(w) => At(s, w, Signalling)
    case PassBarrier(w) => At(s, w, Blocked) && s.released
    case RunUse(w) => At(s, w, Using)
    case Exit(w) => w < |s.workers| && s.workers[w] == Leaving
  }

  function Apply(s: State, step: Step): State
    requires Enabled(s, step)
  {
    match step
    case Handoff(w) =>
      var i := s.main.next;
      s.(main := Sending(i + 1), workers := s.workers[w := On(i)], jobs := s.jobs[i := Starting])
    case CloseJobs => s.(main := AwaitingReady, jobsClosed := true)
    case ReadyReached => s.(main := Announcing)
    case Announce => s.(main := Releasing, log := s.log + [AllReady])
    case Release => s.(main := AwaitingFinished, released := true)
    case FinishedReached => s.(main := Returned)
    case Drain(w) => s.(workers := s.workers[w := Leaving])
    case RunStart(w) =>
      var i := s.workers[w].job;
      s.(jobs := s.jobs[i := Signalling], log := s.log + [Start(i)])
    case Signal(w) =>
      var i := s.workers[w].job;
      s.(jobs := s.jobs[i := if s.barrier then Blocked else Using], ready := s.ready - 1)
    case PassBarrier(w) => s.(jobs := s.jobs[s.workers[w].job := Using])
    case RunUse(w) =>
      var i := s.workers[w].job;
      s.(jobs := s.jobs[i := Finished], workers := s.workers[w := Receiving], log := s.log + [Use(i)])
    case Exit(w) => s.(workers := s.workers[w := Exited], finished := s.finished - 1)
  }

  predicate Runs(s: State, steps: seq<Step>)
    decreases |steps|
  {
    steps == [] || (Enabled(s, steps[0]) && Runs(Apply(s, steps[0]), steps[1..]))
  }

  function After(s: State, steps: seq<Step>): State
    requires Runs(s, steps)
    decreases |steps|
  {
    if steps == [] then s else After(Apply(s, steps[0]), steps[1..])
  }

  // ---------- the monitor ----------

  /** May `e` come after `past`? Each start and each use once, a use after its start, allReady once after all
      starts, and with the barrier no use before allReady. */
  ghost predicate MayFollow(n: nat, barrier: bool, past: seq<Event>, e: Event) {
    match e
    case Start(i) => i < n && Start(i) !in past
    case AllReady => AllReady !in past && forall i | 0 <= i < n :: Start(i) in past
    case Use(i) => Start(i) in past && Use(i) !in past && (barrier ==> AllReady in past)
  }

  ghost predicate WellOrdered(n: nat, barrier: bool, log: seq<Event>) {
    forall j | 0 <= j < |log| :: MayFollow(n, barrier, log[..j], log[j])
  }

  lemma WellOrderedExtends(n: nat, barrier: bool, log: seq<Event>, e: Event)
    requires WellOrdered(n, barrier, log) && MayFollow(n, barrier, log, e)
    ensures WellOrdered(n, barrier, log + [e])
  {
    forall j | 0 <= j < |log| + 1
      ensures MayFollow(n, barrier, (log + [e])[..j], (log + [e])[j])
    {
      assert (log + [e])[..j] == log[..j];
      if j == |log| { assert log[..j] == log; }
    }
  }

  // ---------- the invariant ----------

  predicate Carried(j: Job) { j == Starting || j == Signalling || j == Blocked || j == Using }

  predicate Unsignalled(j: Job) { j == Unsent || j == Starting || j == Signalling }

  ghost function NotReady(jobs: seq<Job>): set<nat> { set i | 0 <= i < |jobs| && Unsignalled(jobs[i]) }

  ghost function Running(workers: seq<Worker>): set<nat> {
    set w | 0 <= w < |workers| && workers[w] != Exited
  }

  ghost predicate WorkersOk(s: State) {
    && (forall w | 0 <= w < |s.workers| && s.workers[w].On? ::
          s.workers[w].job < |s.jobs| && Carried(s.jobs[s.workers[w].job]))
    && (forall v, w | 0 <= v < w < |s.workers| && s.workers[v].On? && s.workers[w].On? ::
          s.workers[v].job != s.workers[w].job)
    && (forall i | 0 <= i < |s.jobs| && Carried(s.jobs[i]) :: On(i) in s.workers)
    && (forall w | 0 <= w < |s.workers| && (s.workers[w] == Leaving || s.workers[w] == Exited) :: s.jobsClosed)
  }

  ghost predicate MainOk(s: State) {
    && s.jobsClosed == !s.main.Sending?
    && s.released == (s.main == AwaitingFinished || s.main == Returned)
    && (s.main.Sending? ==> s.main.next <= |s.jobs|)
    && (forall i | 0 <= i < |s.jobs| ::
          s.jobs[i] == Unsent <==> s.main.Sending? && i >= s.main.next)
    && (!s.main.Sending? && s.main != AwaitingReady ==> s.ready == 0)
    && (s.main == Returned ==> s.finished == 0)
  }

  ghost predicate CountsOk(s: State) {
    && s.ready == |NotReady(s.jobs)|
    && s.finished == |Running(s.workers)|
  }

  predicate JobLogged(s: State, i: nat)
    requires i < |s.jobs|
  {
    && (Start(i) in s.log <==> s.jobs[i] != Unsent && s.jobs[i] != Starting)
    && (Use(i) in s.log <==> s.jobs[i] == Finished)
    && (s.jobs[i] == Blocked ==> s.barrier)
    && (s.barrier && (s.jobs[i] == Using || s.jobs[i] == Finished) ==> s.released)
  }

  ghost predicate LogOk(s: State) {
    && WellOrdered(|s.jobs|, s.barrier, s.log)
    && (forall i | 0 <= i < |s.jobs| :: JobLogged(s, i))
    && (AllReady in s.log <==> s.main == Releasing || s.main == AwaitingFinished || s.main == Returned)
  }

  ghost predicate Inv(s: State) { WorkersOk(s) && MainOk(s) && CountsOk(s) && LogOk(s) }

  lemma InitInv(n: nat, workers: nat, barrier: bool)
    ensures Inv(Init(n, workers, barrier))
  {
    var s := Init(n, workers, barrier);
    NatSets.FullSize(NotReady(s.jobs), n);
    NatSets.FullSize(Running(s.workers), workers);
  }

  /** Carried jobs keep their carriers when one worker that carries none of them changes. */
  lemma CarriersStay(s: State, jobs: seq<Job>, w: nat, now: Worker)
    requires WorkersOk(s) && w < |s.workers| && |jobs| == |s.jobs|
    requires forall i | 0 <= i < |jobs| && Carried(jobs[i]) :: Carried(s.jobs[i]) || now == On(i)
    requires forall i | 0 <= i < |jobs| && s.workers[w] == On(i) :: !Carried(jobs[i])
    ensures forall i | 0 <= i < |jobs| && Carried(jobs[i]) :: On(i) in s.workers[w := now]
  {
    forall i | 0 <= i < |jobs| && Carried(jobs[i])
      ensures On(i) in s.workers[w := now]
    {
      assert s.workers[w := now][w] == now;
      if now != On(i) { StillThere(s.workers, w, now, On(i)); }
    }
  }

  lemma HandoffKeepsWorkers(s: State, w: nat)
    requires WorkersOk(s) && MainOk(s) && Enabled(s, Handoff(w))
    ensures WorkersOk(Apply(s, Handoff(w)))
  {
    var t := Apply(s, Handoff(w));
    CarriersStay(s, t.jobs, w, On(s.main.next));
  }

  lemma RunUseKeepsWorkers(s: State, w: nat)
    requires WorkersOk(s) && Enabled(s, RunUse(w))
    ensures WorkersOk(Apply(s, RunUse(w)))
  {
    CarriersStay(s, Apply(s, RunUse(w)).jobs, w, Receiving);
  }

  lemma AdvanceKeepsWorkers(s: State, i: nat, j: Job)
    requires WorkersOk(s) && i < |s.jobs| && Carried(s.jobs[i]) && Carried(j)
    ensures WorkersOk(s.(jobs := s.jobs[i := j]))
  {
  }

  lemma StarterKeepsWorkers(s: State, step: Step, w: nat)
    requires WorkersOk(s) && Enabled(s, step)
    requires step == RunStart(w) || step == Signal(w) || step == PassBarrier(w)
    ensures WorkersOk(Apply(s, step))
  {
    AdvanceKeepsWorkers(s, s.workers[w].job,
                        if step.RunStart? then Signalling else if step.Signal? && s.barrier then Blocked else Using);
  }

  lemma LeaverKeepsWorkers(s: State, step: Step, w: nat)
    requires WorkersOk(s) && Enabled(s, step) && (step == Drain(w) || step == Exit(w))
    ensures WorkersOk(Apply(s, step))
  {
    CarriersStay(s, s.jobs, w, if step.Drain? then Leaving else Exited);
  }

  lemma WorkersKept(s: State, step: Step)
    requires WorkersOk(s) && MainOk(s) && Enabled(s, step)
    ensures WorkersOk(Apply(s, step))
  {
    match step
    case Handoff(w) => HandoffKeepsWorkers(s, w);
    case RunUse(w) => RunUseKeepsWorkers(s, w);
    case Drain(w) => LeaverKeepsWorkers(s, step, w);
    case Exit(w) => LeaverKeepsWorkers(s, step, w);
    case RunStart(w) => StarterKeepsWorkers(s, step, w);
    case Signal(w) => StarterKeepsWorkers(s, step, w);
    case PassBarrier(w) => StarterKeepsWorkers(s, step, w);
    case _ =>
  }

  lemma StillThere(workers: seq<Worker>, w: nat, now: Worker, x: Worker)
    requires w < |workers| && x in workers && workers[w] != x
    ensures x in workers[w := now]
  {
    var v :| 0 <= v < |workers| && workers[v] == x;
    assert workers[w := now][v] == x;
  }

  lemma NotReadyAfter(jobs: seq<Job>, i: nat, j: Job)
    requires i < |jobs|
    ensures |NotReady(jobs[i := j])|
         == |NotReady(jobs)| - (if Unsignalled(jobs[i]) then 1 else 0) + (if Unsignalled(j) then 1 else 0)
  {
    var after := jobs[i := j];
    forall k: nat | k != i
      ensures k in NotReady(jobs) <==> k in NotReady(after)
    {
      assert k < |jobs| ==> after[k] == jobs[k];
    }
    NatSets.SizeAfter(NotReady(jobs), NotReady(after), i);
  }

  lemma RunningAfter(workers: seq<Worker>, w: nat, x: Worker)
    requires w < |workers|
    ensures Running(workers[w := x]) == if x != Exited then Running(workers) + {w} else Running(workers) - {w}
  {
    var after := workers[w := x];
    assert forall v | 0 <= v < |workers| && v != w :: after[v] == workers[v];
    assert after[w] == x;
    assert forall v :: v in Running(after) <==> 0 <= v < |workers| && after[v] != Exited;
  }

  lemma StaysRunning(workers: seq<Worker>, w: nat, x: Worker)
    requires w < |workers| && workers[w] != Exited && x != Exited
    ensures Running(workers[w := x]) == Running(workers)
  {
    RunningAfter(workers, w, x);
    assert w in Running(workers);
  }

  lemma StopsRunning(workers: seq<Worker>, w: nat)
    requires w < |workers| && workers[w] != Exited
    ensures |Running(workers[w := Exited])| == |Running(workers)| - 1
  {
    RunningAfter(workers, w, Exited);
    assert w in Running(workers);
  }

  lemma StillRunning(workers: seq<Worker>, w: nat)
    requires w < |workers| && workers[w] != Exited
    ensures w in Running(workers) && |Running(workers)| > 0
  {
    assert w in Running(workers);
  }

  lemma ReadyKept(s: State, step: Step)
    requires WorkersOk(s) && MainOk(s) && CountsOk(s) && Enabled(s, step)
    ensures Apply(s, step).ready == |NotReady(Apply(s, step).jobs)|
  {
    match step
    case Handoff(w) => NotReadyAfter(s.jobs, s.main.next, Starting);
    case RunStart(w) => NotReadyAfter(s.jobs, s.workers[w].job, Signalling);
    case Signal(w) => NotReadyAfter(s.jobs, s.workers[w].job, if s.barrier then Blocked else Using);
    case PassBarrier(w) => NotReadyAfter(s.jobs, s.workers[w].job, Using);
    case RunUse(w) => NotReadyAfter(s.jobs, s.workers[w].job, Finished);
    case _ =>
  }

  lemma FinishedKept(s: State, step: Step)
    requires CountsOk(s) && Enabled(s, step)
    ensures Apply(s, step).finished == |Running(Apply(s, step).workers)|
  {
    match step
    case Handoff(w) =>
      StaysRunning(s.workers, w, On(s.main.next));
    case RunUse(w) =>
      StaysRunning(s.workers, w, Receiving);
    case Drain(w) =>
      StaysRunning(s.workers, w, Leaving);
    case Exit(w) =>
      StopsRunning(s.workers, w);
    case _ =>
  }

  /** Once the start counter is zero no worker is before its signal. */
  lemma AllSignalled(s: State, i: nat)
    requires CountsOk(s) && s.ready == 0 && i < |s.jobs|
    ensures !Unsignalled(s.jobs[i])
  {
    assert i !in NotReady(s.jobs);
  }

  lemma MainKept(s: State, step: Step)
    requires MainOk(s) && CountsOk(s) && WorkersOk(s) && Enabled(s, step)
    ensures MainOk(Apply(s, step))
  {
    if step.Signal? && s.ready == 0 {
      AllSignalled(s, s.workers[step.w].job);
    }
    if step.Exit? && s.main == Returned {
      StillRunning(s.workers, step.w);
    }
  }

  /** Each call comes where the order allows it. */
  lemma OrderKept(s: State, step: Step)
    requires CountsOk(s) && MainOk(s) && LogOk(s) && Enabled(s, step)
    ensures WellOrdered(|s.jobs|, s.barrier, Apply(s, step).log)
  {
    var n := |s.jobs|;
    match step {
      case Announce =>
        forall i | 0 <= i < n ensures Start(i) in s.log {
          AllSignalled(s, i);
          assert JobLogged(s, i);
        }
        WellOrderedExtends(n, s.barrier, s.log, AllReady);
      case RunStart(w) =>
        assert JobLogged(s, s.workers[w].job);
        WellOrderedExtends(n, s.barrier, s.log, Start(s.workers[w].job));
      case RunUse(w) =>
        assert JobLogged(s, s.workers[w].job);
        WellOrderedExtends(n, s.barrier, s.log, Use(s.workers[w].job));
      case _ =>
    }
  }

  lemma JobStaysLogged(s: State, step: Step, j: nat)
    requires WorkersOk(s) && MainOk(s) && Enabled(s, step) && j < |s.jobs| && JobLogged(s, j)
    ensures JobLogged(Apply(s, step), j)
  {
  }

  lemma JobsLogged(s: State, step: Step)
    requires WorkersOk(s) && MainOk(s) && LogOk(s) && Enabled(s, step)
    ensures forall j | 0 <= j < |s.jobs| :: JobLogged(Apply(s, step), j)
  {
    forall j | 0 <= j < |s.jobs|
      ensures JobLogged(Apply(s, step), j)
    {
      JobStaysLogged(s, step, j);
    }
  }

  lemma LogKept(s: State, step: Step)
    requires Inv(s) && Enabled(s, step)
    ensures LogOk(Apply(s, step))
  {
    OrderKept(s, step);
    JobsLogged(s, step);
  }

  lemma StepKeeps(s: State, step: Step)
    requires Inv(s) && Enabled(s, step)
    ensures Inv(Apply(s, step))
  {
    WorkersKept(s, step);
    MainKept(s, step);
    ReadyKept(s, step);
    FinishedKept(s, step);
    LogKept(s, step);
  }

  predicate SameShape(s: State, t: State) {
    |t.jobs| == |s.jobs| && |t.workers| == |s.workers| && t.barrier == s.barrier
  }

  lemma ShapeKept(s: State, step: Step)
    requires Enabled(s, step)
    ensures SameShape(s, Apply(s, step))
  {
  }

  lemma {:induction false} RunKeeps(s: State, steps: seq<Step>)
    requires Inv(s) && Runs(s, steps)
    ensures Inv(After(s, steps)) && SameShape(s, After(s, steps))
    decreases |steps|
  {
    if steps != [] {
      StepKeeps(s, steps[0]);
      ShapeKept(s, steps[0]);
      RunKeeps(Apply(s, steps[0]), steps[1..]);
    }
  }
}
