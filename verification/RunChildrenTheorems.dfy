/** What runChildren promises under its guard, and exactly when a pool without it gets stuck. */
module RunChildrenTheorems {
  import opened RunChildren
  import NatSets

  // ---------- deadlock freedom, and exactly when it fails ----------

  ghost predicate Stuck(s: State) { s.main != Returned && forall step :: !Enabled(s, step) }

  /** A pool that can always move: there are workers, and with the barrier at least one for each child. */
  predicate Enough(s: State) {
    |s.workers| > 0 && (s.barrier ==> |s.workers| >= |s.jobs|)
  }

  /** A worker that carries a job can move unless it waits at a barrier that is still closed. */
  lemma CarrierMoves(s: State, w: nat) returns (step: Step)
    requires Inv(s) && w < |s.workers| && s.workers[w].On?
    requires s.jobs[s.workers[w].job] == Blocked ==> s.released
    ensures Enabled(s, step)
  {
    match s.jobs[s.workers[w].job]
    case Starting => step := RunStart(w);
    case Signalling => step := Signal(w);
    case Blocked => step := PassBarrier(w);
    case Using => step := RunUse(w);
  }

  ghost function CarriedJobs(s: State, k: nat): set<nat>
    requires k <= |s.workers|
  {
    set w | 0 <= w < k && s.workers[w].On? :: s.workers[w].job
  }

  lemma OneMoreCarried(s: State, k: nat)
    requires WorkersOk(s) && k < |s.workers| && forall w | 0 <= w <= k :: s.workers[w].On?
    ensures CarriedJobs(s, k + 1) == CarriedJobs(s, k) + {s.workers[k].job}
    ensures s.workers[k].job !in CarriedJobs(s, k)
  {
    forall w | 0 <= w < k
      ensures s.workers[w].job != s.workers[k].job
    {
      assert s.workers[w].On? && s.workers[k].On?;
    }
  }

  lemma NobodyCarries(s: State)
    ensures CarriedJobs(s, 0) == {}
  {
  }

  /** Busy workers carry distinct jobs. */
  lemma {:induction false} CarriedSize(s: State, k: nat)
    requires WorkersOk(s) && k <= |s.workers| && forall w | 0 <= w < k :: s.workers[w].On?
    ensures |CarriedJobs(s, k)| == k
  {
    if k == 0 {
      NobodyCarries(s);
    } else {
      CarriedSize(s, k - 1);
      OneMoreCarried(s, k - 1);
      NatSets.OneMore(CarriedJobs(s, k - 1), s.workers[k - 1].job);
    }
  }

  /** The counting argument: while a job is still unsent, not every worker can be carrying one when there are at
      least as many workers as jobs. */
  lemma SomeoneIsFree(s: State) returns (w: nat)
    requires Inv(s) && s.main.Sending? && s.main.next < |s.jobs| && |s.workers| >= |s.jobs|
    ensures w < |s.workers| && s.workers[w] == Receiving
  {
    if w' :| 0 <= w' < |s.workers| && !s.workers[w'].On? {
      w := w';
    } else {
      CarriedSize(s, |s.workers|);
      NatSets.BoundedSize(CarriedJobs(s, |s.workers|), s.main.next);
      assert false;
    }
  }

  lemma SendingMoves(s: State) returns (step: Step)
    requires Inv(s) && Enough(s) && s.main.Sending?
    ensures Enabled(s, step)
  {
    if s.main.next == |s.jobs| {
      step := CloseJobs;
    } else if w :| 0 <= w < |s.workers| && s.workers[w] == Receiving {
      step := Handoff(w);
    } else if s.barrier {
      var w := SomeoneIsFree(s);
      step := Handoff(w);
    } else {
      assert s.workers[0].On?;
      assert JobLogged(s, s.workers[0].job);
      step := CarrierMoves(s, 0);
    }
  }

  lemma CarrierOf(s: State, i: nat) returns (w: nat)
    requires Inv(s) && i < |s.jobs| && Carried(s.jobs[i])
    ensures w < |s.workers| && s.workers[w] == On(i)
  {
    assert On(i) in s.workers;
    w :| w < |s.workers| && s.workers[w] == On(i);
  }

  lemma NeverStuck(s: State) returns (step: Step)
    requires Inv(s) && Enough(s) && s.main != Returned
    ensures Enabled(s, step)
  {
    match s.main
    case Sending(_) => step := SendingMoves(s);
    case AwaitingReady =>
      if s.ready == 0 {
        step := ReadyReached;
      } else {
        assert NotReady(s.jobs) != {};
        var i :| i in NotReady(s.jobs);
        var w := CarrierOf(s, i);
        step := CarrierMoves(s, w);
      }
    case Announcing => step := Announce;
    case Releasing => step := Release;
    case AwaitingFinished =>
      if s.finished == 0 {
        step := FinishedReached;
      } else {
        assert Running(s.workers) != {};
        var w :| w in Running(s.workers);
        match s.workers[w]
        case Receiving => step := Drain(w);
        case Leaving => step := Exit(w);
        case On(_) => step := CarrierMoves(s, w);
      }
  }

  // ---------- termination ----------

  function JobRank(j: Job): nat {
    match j
    case Unsent => 5
    case Starting => 4
    case Signalling => 3
    case Blocked => 2
    case Using => 1
    case Finished => 0
  }

  function JobsRank(jobs: seq<Job>): nat {
    if jobs == [] then 0 else JobRank(jobs[0]) + JobsRank(jobs[1..])
  }

  lemma {:induction false} JobsRankAfter(jobs: seq<Job>, i: nat, j: Job)
    requires i < |jobs|
    ensures JobsRank(jobs[i := j]) == JobsRank(jobs) - JobRank(jobs[i]) + JobRank(j)
  {
    if i > 0 {
      assert jobs[i := j][1..] == jobs[1..][i - 1 := j];
      JobsRankAfter(jobs[1..], i - 1, j);
    } else {
      assert jobs[i := j][1..] == jobs[1..];
    }
  }

  function WorkerRank(w: Worker): nat { if w == Exited then 0 else if w == Leaving then 1 else 2 }

  function WorkersRank(workers: seq<Worker>): nat {
    if workers == [] then 0 else WorkerRank(workers[0]) + WorkersRank(workers[1..])
  }

  lemma {:induction false} WorkersRankAfter(workers: seq<Worker>, w: nat, x: Worker)
    requires w < |workers|
    ensures WorkersRank(workers[w := x]) == WorkersRank(workers) - WorkerRank(workers[w]) + WorkerRank(x)
  {
    if w > 0 {
      assert workers[w := x][1..] == workers[1..][w - 1 := x];
      WorkersRankAfter(workers[1..], w - 1, x);
    } else {
      assert workers[w := x][1..] == workers[1..];
    }
  }

  function MainRank(m: Main): nat {
    match m
    case Sending(_) => 5
    case AwaitingReady => 4
    case Announcing => 3
    case Releasing => 2
    case AwaitingFinished => 1
    case Returned => 0
  }

  function Rank(s: State): nat { JobsRank(s.jobs) + WorkersRank(s.workers) + MainRank(s.main) }

  lemma HandoffDescends(s: State, w: nat)
    requires MainOk(s) && Enabled(s, Handoff(w))
    ensures Rank(Apply(s, Handoff(w))) < Rank(s)
  {
    JobsRankAfter(s.jobs, s.main.next, Starting);
    WorkersRankAfter(s.workers, w, On(s.main.next));
  }

  lemma RunUseDescends(s: State, w: nat)
    requires WorkersOk(s) && Enabled(s, RunUse(w))
    ensures Rank(Apply(s, RunUse(w))) < Rank(s)
  {
    JobsRankAfter(s.jobs, s.workers[w].job, Finished);
    WorkersRankAfter(s.workers, w, Receiving);
  }

  lemma AdvanceDescends(s: State, step: Step, w: nat, j: Job)
    requires Enabled(s, step) && w < |s.workers| && s.workers[w].On? && s.workers[w].job < |s.jobs|
    requires JobRank(j) < JobRank(s.jobs[s.workers[w].job])
    requires Apply(s, step).jobs == s.jobs[s.workers[w].job := j]
    requires Apply(s, step).workers == s.workers && Apply(s, step).main == s.main
    ensures Rank(Apply(s, step)) < Rank(s)
  {
    JobsRankAfter(s.jobs, s.workers[w].job, j);
  }

  lemma LeaverDescends(s: State, step: Step, w: nat)
    requires Enabled(s, step) && (step == Drain(w) || step == Exit(w))
    ensures Rank(Apply(s, step)) < Rank(s)
  {
    WorkersRankAfter(s.workers, w, if step.Drain? then Leaving else Exited);
  }

  lemma MainDescends(s: State, step: Step)
    requires Enabled(s, step)
    requires step.CloseJobs? || step.ReadyReached? || step.Announce? || step.Release? || step.FinishedReached?
    ensures Rank(Apply(s, step)) < Rank(s)
  {
  }

  lemma StepDescends(s: State, step: Step)
    requires WorkersOk(s) && MainOk(s) && Enabled(s, step)
    ensures Rank(Apply(s, step)) < Rank(s)
  {
    match step
    case Handoff(w) => HandoffDescends(s, w);
    case RunStart(w) => AdvanceDescends(s, step, w, Signalling);
    case Signal(w) => AdvanceDescends(s, step, w, if s.barrier then Blocked else Using);
    case PassBarrier(w) => AdvanceDescends(s, step, w, Using);
    case RunUse(w) => RunUseDescends(s, w);
    case Drain(w) => LeaverDescends(s, step, w);
    case Exit(w) => LeaverDescends(s, step, w);
    case _ => MainDescends(s, step);
  }

  lemma {:induction false} RunsAreShort(s: State, steps: seq<Step>)
    requires Inv(s) && Runs(s, steps)
    ensures |steps| + Rank(After(s, steps)) <= Rank(s)
    decreases |steps|
  {
    if steps != [] {
      StepKeeps(s, steps[0]);
      StepDescends(s, steps[0]);
      RunsAreShort(Apply(s, steps[0]), steps[1..]);
    }
  }

  lemma {:induction false} InitRank(n: nat, workers: nat, barrier: bool)
    ensures Rank(Init(n, workers, barrier)) == 5 * n + 2 * workers + 5
  {
    UniformJobs(seq(n, _ => Unsent));
    UniformWorkers(seq(workers, _ => Receiving));
  }

  lemma {:induction false} UniformJobs(jobs: seq<Job>)
    requires forall i | 0 <= i < |jobs| :: jobs[i] == Unsent
    ensures JobsRank(jobs) == 5 * |jobs|
  {
    if jobs != [] { UniformJobs(jobs[1..]); }
  }

  lemma {:induction false} UniformWorkers(workers: seq<Worker>)
    requires forall i | 0 <= i < |workers| :: workers[i] == Receiving
    ensures WorkersRank(workers) == 2 * |workers|
  {
    if workers != [] { UniformWorkers(workers[1..]); }
  }

  // ---------- what runChildren promises ----------

  /** Any accepted call, in any interleaving: no run is longer than a bound fixed by the dimensions, no run is
      stuck before the call has returned, and the history is always well ordered. */
  lemma AcceptedCallsReturn(n: nat, workers: nat, barrier: bool, steps: seq<Step>)
    requires Accepted(n, workers, barrier) && Runs(Init(n, workers, barrier), steps)
    ensures var s := After(Init(n, workers, barrier), steps);
            && |steps| <= 5 * n + 2 * workers + 5
            && !Stuck(s)
            && WellOrdered(n, barrier, s.log)
            && (s.main == Returned ==> forall i | 0 <= i < n :: Start(i) in s.log && Use(i) in s.log)
            && (s.main == Returned ==> AllReady in s.log)
  {
    var start := Init(n, workers, barrier);
    InitInv(n, workers, barrier);
    InitRank(n, workers, barrier);
    RunsAreShort(start, steps);
    RunKeeps(start, steps);
    var s := After(start, steps);
    if s.main == Returned {
      forall i | 0 <= i < n
        ensures Start(i) in s.log && Use(i) in s.log
      {
        EveryJobFinished(s, i);
        assert JobLogged(s, i);
      }
    } else {
      var step := NeverStuck(s);
    }
  }

  lemma EveryJobFinished(s: State, i: nat)
    requires Inv(s) && s.main == Returned && i < |s.jobs|
    ensures s.jobs[i] == Finished
  {
    if Carried(s.jobs[i]) {
      var w := CarrierOf(s, i);
      StillRunning(s.workers, w);
      assert false;
    }
  }

  /** A history in that order never repeats a call. */
  lemma NoCallRepeats(n: nat, barrier: bool, log: seq<Event>, i: nat, j: nat)
    requires WellOrdered(n, barrier, log) && i < j < |log|
    ensures log[i] != log[j]
  {
    assert MayFollow(n, barrier, log[..j], log[j]);
    assert log[..j][i] == log[i];
  }

  // ---------- without the guard ----------

  /** The schedule that jams w workers at the closed barrier. */
  function Jam(w: nat, upTo: nat): seq<Step>
    requires w <= upTo
    decreases upTo - w
  {
    if w == upTo then [] else [Handoff(w), RunStart(w), Signal(w)] + Jam(w + 1, upTo)
  }

  /** The first w workers wait at the barrier, the others have not received anything. */
  ghost predicate Jammed(s: State, w: nat) {
    && w <= |s.workers| && w <= |s.jobs|
    && s.barrier && !s.jobsClosed && !s.released
    && s.main == Sending(w)
    && (forall v | 0 <= v < w :: s.workers[v] == On(v) && s.jobs[v] == Blocked)
    && (forall v | w <= v < |s.workers| :: s.workers[v] == Receiving)
  }

  lemma ThenRuns(s: State, step: Step, rest: seq<Step>)
    requires Enabled(s, step) && Runs(Apply(s, step), rest)
    ensures Runs(s, [step] + rest) && After(s, [step] + rest) == After(Apply(s, step), rest)
  {
    assert ([step] + rest)[1..] == rest;
  }

  lemma OneMoreJammed(s: State, w: nat) returns (a: State, b: State, t: State)
    requires Jammed(s, w) && w < |s.workers| && w < |s.jobs|
    ensures Enabled(s, Handoff(w)) && a == Apply(s, Handoff(w))
    ensures Enabled(a, RunStart(w)) && b == Apply(a, RunStart(w))
    ensures Enabled(b, Signal(w)) && t == Apply(b, Signal(w))
    ensures Jammed(t, w + 1) && SameShape(s, t)
  {
    a := Apply(s, Handoff(w));
    b := Apply(a, RunStart(w));
    t := Apply(b, Signal(w));
  }

  lemma {:induction false} JamWorks(s: State, w: nat)
    requires Jammed(s, w) && |s.workers| <= |s.jobs|
    ensures Runs(s, Jam(w, |s.workers|))
    ensures SameShape(s, After(s, Jam(w, |s.workers|)))
    ensures Jammed(After(s, Jam(w, |s.workers|)), |s.workers|)
    decreases |s.workers| - w
  {
    if w < |s.workers| {
      var a, b, t := OneMoreJammed(s, w);
      JamWorks(t, w + 1);
      var rest := Jam(w + 1, |s.workers|);
      ThenRuns(b, Signal(w), rest);
      ThenRuns(a, RunStart(w), [Signal(w)] + rest);
      ThenRuns(s, Handoff(w), [RunStart(w)] + ([Signal(w)] + rest));
      assert Jam(w, |s.workers|) == [Handoff(w)] + ([RunStart(w)] + ([Signal(w)] + rest));
    }
  }

  lemma JammedIsStuck(s: State)
    requires Jammed(s, |s.workers|) && |s.workers| < |s.jobs|
    ensures Stuck(s)
  {
    forall step
      ensures !Enabled(s, step)
    {
      match step
      case RunStart(w) => assert w < |s.workers| ==> s.workers[w] == On(w);
      case Signal(w) => assert w < |s.workers| ==> s.workers[w] == On(w);
      case RunUse(w) => assert w < |s.workers| ==> s.workers[w] == On(w);
      case _ =>
    }
  }

  ghost predicate CanGetStuck(s: State) { exists steps :: Runs(s, steps) && Stuck(After(s, steps)) }

  lemma GetsStuck(s: State, steps: seq<Step>)
    requires Runs(s, steps) && Stuck(After(s, steps))
    ensures CanGetStuck(s)
  {
  }

  /** Exactly which dimensions can deadlock: no workers at all, or a barrier with fewer workers than children.
      The guard therefore keeps out every deadlock; it also keeps out barriers with spare workers, which could
      not deadlock. */
  lemma StuckIffTooFewWorkers(n: nat, workers: nat, barrier: bool)
    requires n >= 1
    ensures CanGetStuck(Init(n, workers, barrier)) <==> workers == 0 || (barrier && workers < n)
  {
    var start := Init(n, workers, barrier);
    InitInv(n, workers, barrier);
    if workers == 0 {
      assert Stuck(start);
      GetsStuck(start, []);
    } else if barrier && workers < n {
      JamWorks(start, 0);
      var steps := Jam(0, workers);
      JammedIsStuck(After(start, steps));
      GetsStuck(start, steps);
    } else {
      forall steps | Runs(start, steps)
        ensures !Stuck(After(start, steps))
      {
        RunKeeps(start, steps);
        if After(start, steps).main != Returned {
          var step := NeverStuck(After(start, steps));
        }
      }
    }
  }
}
