/** The bounded pool of test databases of mariamemtest/fixture.go, as an interleaved transition system.

    Every atomic action of the source is one step: a critical section under `f.mu`, one channel
    operation, one WaitGroup operation, or one call into the environment (fork, open, ping, close).
    The program counter of the goroutine that created a child is that child's `phase`; the program counter
    inside `dispose`'s once body is its `disposal`. Both bodies are entered at most once per child. */
module Fixture {

  // Test keys are compared for identity only.
  type Key = nat

  /** Where the goroutine that owns a child stands inside `get`. */
  datatype Phase =
    | Acquiring        // select on permits, ctx and stopped
    | Rechecking       // first locked recheck
    | CheckingContext
    | Forking
    | Opening
    | Pinging
    | RecheckingAgain  // second locked recheck
    | Registering
    | Unwinding        // the error path, at or inside dispose
    | ReadingDebt
    | Recording        // clears the pool, stores the error
    | Announcing       // deferred close(c.ready)
    | Leaving          // deferred starting.Done()
    | Gone

  /** Where the once body of `dispose` stands for a child. */
  datatype Disposal = Idle | ClosingPool | ClosingDb | Settling | Disposed

  datatype Child = Child(
    key: Key,
    phase: Phase,
    disposal: Disposal,
    permit: bool,         // c.permit: a token was sent for this child
    returned: bool,       // that token was received back
    db: bool,             // c.db != nil
    pool: bool,           // c.pool != nil
    ready: bool,          // c.ready is closed
    failed: bool,         // c.err != nil
    reported: set<nat>,   // children named by the cleanup part of c.err
    registered: bool,     // the test's cleanup was registered
    poolFailed: bool,     // poolErr != nil
    dbFailed: bool)       // dbErr != nil
  {
    predicate Dirty() { poolFailed || dbFailed }
  }

  /** The causes joined into the result of Close. */
  datatype Cause = ChildCleanup(child: nat) | Baseline

  /** A same-key caller of `get`, and what it received. */
  datatype Answer = Answer(pool: bool, err: bool)
  datatype Waiter = Waiting(child: nat) | Served(child: nat, answer: Answer) | TimedOut(child: nat)

  /** A caller of `dispose` other than the owner and Close, usually a test's cleanup. */
  datatype Disposer = Entered(child: nat) | Left(child: nat, failed: bool)

  /** Where the once body of Close stands. */
  datatype Closing =
    | Open
    | Stopping
    | AwaitingStarters
    | Sweeping(visited: set<nat>)
    | Inside(child: nat, visited: set<nat>)  // in dispose(child)
    | ClosingBaseline
    | Closed

  datatype Closer = Pending | Returned(err: set<Cause>)

  /** The calls into the environment, in the order they happened. */
  datatype Event =
    | Forked(child: nat)
    | PoolOpened(child: nat)
    | Published(child: nat)
    | PoolClosed(child: nat, ok: bool)
    | DbClosed(child: nat, ok: bool)
    | BaselineClosed(ok: bool)

  datatype State = State(
    capacity: nat,
    closed: bool,          // also: the `stopped` channel is closed
    debt: set<nat>,        // the children whose cleanup errors were joined into f.debt
    entries: map<Key, nat>,
    children: seq<Child>,
    permits: nat,          // tokens in the channel
    starting: int,         // the WaitGroup counter
    closing: Closing,
    closeErr: set<Cause>,
    waiters: seq<Waiter>,
    disposers: seq<Disposer>,
    closers: seq<Closer>,
    log: seq<Event>)

  function Init(capacity: nat): State {
    State(capacity, false, {}, map[], [], 0, 0, Open, {}, [], [], [], [])
  }

  // ---------- get: the owner of a new child ----------

  datatype OwnerAct =
    | Token                        // f.permits <- struct{}{}
    | Expired                      // ctx.Done() or ctx.Err() != nil
    | Stopped                      // <-f.stopped
    | Recheck
    | ContextAlive
    | Fork(db: bool, ok: bool)
    | OpenPool(pool: bool, ok: bool)
    | Ping(ok: bool)
    | RecheckAgain
    | Register
    | EnterDispose
    | LeaveDispose
    | ReadDebt
    | Record
    | Announce
    | Leave

  predicate OwnerEnabled(s: State, c: nat, act: OwnerAct) {
    c < |s.children| &&
    var ch := s.children[c];
    match act
    case Token => ch.phase == Acquiring && s.permits < s.capacity
    case Expired => ch.phase == Acquiring || ch.phase == CheckingContext
    case Stopped => ch.phase == Acquiring && s.closed
    case Recheck => ch.phase == Rechecking
    case ContextAlive => ch.phase == CheckingContext
    case Fork(db, ok) => ch.phase == Forking && (ok ==> db)
    case OpenPool(pool, ok) => ch.phase == Opening && (ok ==> pool)
    case Ping(_) => ch.phase == Pinging
    case RecheckAgain => ch.phase == RecheckingAgain
    case Register => ch.phase == Registering
    case EnterDispose => ch.phase == Unwinding && ch.disposal == Idle
    case LeaveDispose => ch.phase == Unwinding && ch.disposal == Disposed
    case ReadDebt => ch.phase == ReadingDebt
    case Record => ch.phase == Recording
    case Announce => ch.phase == Announcing
    case Leave => ch.phase == Leaving
  }

  predicate Rejecting(s: State) { s.closed || s.debt != {} }

  function OwnerNext(s: State, c: nat, act: OwnerAct): Child
    requires OwnerEnabled(s, c, act)
  {
    var ch := s.children[c];
    match act
    case Token => ch.(permit := true, phase := Rechecking)
    case Expired => ch.(phase := Unwinding)
    case Stopped => ch.(phase := Unwinding)
    case Recheck => ch.(phase := if Rejecting(s) then Unwinding else CheckingContext)
    case ContextAlive => ch.(phase := Forking)
    case Fork(db, ok) => ch.(db := db, phase := if ok then Opening else Unwinding)
    case OpenPool(pool, ok) => ch.(pool := pool, phase := if ok then Pinging else Unwinding)
    case Ping(ok) => ch.(phase := if ok then RecheckingAgain else Unwinding)
    case RecheckAgain => ch.(phase := if Rejecting(s) then Unwinding else Registering)
    case Register => ch.(registered := true, phase := Announcing)
    case EnterDispose => ch.(disposal := ClosingPool)
    case LeaveDispose =>
      if ch.Dirty() then ch.(reported := {c}, phase := Recording) else ch.(phase := ReadingDebt)
    case ReadDebt => ch.(reported := s.debt, phase := Recording)
    case Record => ch.(pool := false, failed := true, phase := Announcing)
    case Announce => ch.(ready := true, phase := Leaving)
    case Leave => ch.(phase := Gone)
  }

  function OwnerEvents(c: nat, act: OwnerAct): seq<Event> {
    match act
    case Fork(db, _) => if db then [Forked(c)] else []
    case OpenPool(pool, _) => if pool then [PoolOpened(c)] else []
    case Register => [Published(c)]
    case _ => []
  }

  function OwnerApply(s: State, c: nat, act: OwnerAct): State
    requires OwnerEnabled(s, c, act)
  {
    s.(children := s.children[c := OwnerNext(s, c, act)],
       permits := if act.Token? then s.permits + 1 else s.permits,
       starting := if act.Leave? then s.starting - 1 else s.starting,
       log := s.log + OwnerEvents(c, act))
  }

  // ---------- dispose: the once body ----------

  datatype BodyAct = ClosePool(ok: bool) | CloseDb(ok: bool) | Settle

  predicate BodyEnabled(s: State, c: nat, act: BodyAct) {
    c < |s.children| &&
    var ch := s.children[c];
    match act
    case ClosePool(_) => ch.disposal == ClosingPool
    case CloseDb(_) => ch.disposal == ClosingDb
    // A failed cleanup only takes the lock; a clean one receives from permits, without a select.
    case Settle => ch.disposal == Settling && (!ch.Dirty() && ch.permit ==> s.permits > 0)
  }

  function BodyNext(ch: Child, act: BodyAct): Child {
    match act
    case ClosePool(ok) => ch.(poolFailed := ch.pool && !ok, disposal := ClosingDb)
    case CloseDb(ok) => ch.(dbFailed := ch.db && !ok, disposal := Settling)
    case Settle => ch.(returned := !ch.Dirty() && ch.permit, disposal := Disposed)
  }

  function BodyEvents(c: nat, ch: Child, act: BodyAct): seq<Event> {
    match act
    case ClosePool(ok) => if ch.pool then [PoolClosed(c, ok)] else []
    case CloseDb(ok) => if ch.db then [DbClosed(c, ok)] else []
    case Settle => []
  }

  function BodyApply(s: State, c: nat, act: BodyAct): State
    requires BodyEnabled(s, c, act)
  {
    var ch := s.children[c];
    var indebted := act.Settle? && ch.Dirty();
    var receives := act.Settle? && !ch.Dirty() && ch.permit;
    s.(children := s.children[c := BodyNext(ch, act)],
       debt := if indebted then s.debt + {c} else s.debt,
       closed := s.closed || indebted,
       permits := if receives then s.permits - 1 else s.permits,
       log := s.log + BodyEvents(c, ch, act))
  }

  // ---------- Close: the once body ----------

  datatype CloseAct =
    | Stop
    | StartersDone               // starting.Wait() returns
    | Visit(child: nat)          // the next entry of the unlocked map iteration
    | EnterVisited
    | LeaveVisited
    | EndSweep
    | CloseBaseline(ok: bool)

  predicate CloseEnabled(s: State, act: CloseAct) {
    match act
    case Stop => s.closing == Stopping
    case StartersDone => s.closing == AwaitingStarters && s.starting == 0
    case Visit(c) => s.closing.Sweeping? && c in s.entries.Values && c !in s.closing.visited
    case EnterVisited =>
      s.closing.Inside? && s.closing.child < |s.children| && s.children[s.closing.child].disposal == Idle
    case LeaveVisited =>
      s.closing.Inside? && s.closing.child < |s.children| && s.children[s.closing.child].disposal == Disposed
    case EndSweep => s.closing.Sweeping? && s.entries.Values <= s.closing.visited
    case CloseBaseline(_) => s.closing == ClosingBaseline
  }

  function CloseApply(s: State, act: CloseAct): State
    requires CloseEnabled(s, act)
  {
    match act
    case Stop => s.(closed := true, closing := AwaitingStarters)
    case StartersDone => s.(closing := Sweeping({}))
    case Visit(c) => s.(closing := Inside(c, s.closing.visited))
    case EnterVisited =>
      var c := s.closing.child;
      s.(children := s.children[c := s.children[c].(disposal := ClosingPool)])
    case LeaveVisited =>
      var c := s.closing.child;
      s.(closing := Sweeping(s.closing.visited + {c}),
         closeErr := if s.children[c].Dirty() then s.closeErr + {ChildCleanup(c)} else s.closeErr)
    case EndSweep => s.(closing := ClosingBaseline)
    case CloseBaseline(ok) =>
      s.(closing := Closed,
         closeErr := if ok then s.closeErr else s.closeErr + {Baseline},
         log := s.log + [BaselineClosed(ok)])
  }

  // ---------- calls arriving from tests, and their returns ----------

  datatype ClientAct =
    | Get(key: Key)              // the first critical section of get
    | WaiterServed(w: nat)       // <-existing.ready
    | WaiterExpired(w: nat)
    | CallDispose(child: nat)
    | DisposerEnters(d: nat)
    | DisposerLeaves(d: nat)
    | CallClose
    | CloserLeaves(k: nat)

  predicate ClientEnabled(s: State, act: ClientAct) {
    match act
    case Get(_) => true
    case WaiterServed(w) =>
      w < |s.waiters| && s.waiters[w].Waiting? &&
      s.waiters[w].child < |s.children| && s.children[s.waiters[w].child].ready
    case WaiterExpired(w) => w < |s.waiters| && s.waiters[w].Waiting?
    case CallDispose(c) => c < |s.children| && s.children[c].registered
    case DisposerEnters(d) =>
      d < |s.disposers| && s.disposers[d].Entered? &&
      s.disposers[d].child < |s.children| && s.children[s.disposers[d].child].disposal == Idle
    case DisposerLeaves(d) =>
      d < |s.disposers| && s.disposers[d].Entered? &&
      s.disposers[d].child < |s.children| && s.children[s.disposers[d].child].disposal == Disposed
    case CallClose => true
    case CloserLeaves(k) => k < |s.closers| && s.closers[k].Pending? && s.closing == Closed
  }

  function FreshChild(key: Key): Child {
    Child(key, Acquiring, Idle, false, false, false, false, false, false, {}, false, false, false)
  }

  function ClientApply(s: State, act: ClientAct): State
    requires ClientEnabled(s, act)
  {
    match act
    case Get(key) =>
      if Rejecting(s) then s
      else if key in s.entries then s.(waiters := s.waiters + [Waiting(s.entries[key])])
      else s.(entries := s.entries[key := |s.children|],
              children := s.children + [FreshChild(key)],
              starting := s.starting + 1)
    case WaiterServed(w) =>
      var c := s.waiters[w].child;
      s.(waiters := s.waiters[w := Served(c, Answer(s.children[c].pool, s.children[c].failed))])
    case WaiterExpired(w) => s.(waiters := s.waiters[w := TimedOut(s.waiters[w].child)])
    case CallDispose(c) => s.(disposers := s.disposers + [Entered(c)])
    case DisposerEnters(d) =>
      var c := s.disposers[d].child;
      s.(children := s.children[c := s.children[c].(disposal := ClosingPool)])
    case DisposerLeaves(d) =>
      var c := s.disposers[d].child;
      s.(disposers := s.disposers[d := Left(c, s.children[c].Dirty())])
    case CallClose =>
      s.(closers := s.closers + [Pending], closing := if s.closing == Open then Stopping else s.closing)
    case CloserLeaves(k) => s.(closers := s.closers[k := Returned(s.closeErr)])
  }

  // ---------- the whole system ----------

  datatype Step =
    | Owner(c: nat, owner: OwnerAct)
    | Body(c: nat, body: BodyAct)
    | Close(close: CloseAct)
    | Client(client: ClientAct)

  predicate Enabled(s: State, step: Step) {
    match step
    case Owner(c, act) => OwnerEnabled(s, c, act)
    case Body(c, act) => BodyEnabled(s, c, act)
    case Close(act) => CloseEnabled(s, act)
    case Client(act) => ClientEnabled(s, act)
  }

  function Apply(s: State, step: Step): State
    requires Enabled(s, step)
  {
    match step
    case Owner(c, act) => OwnerApply(s, c, act)
    case Body(c, act) => BodyApply(s, c, act)
    case Close(act) => CloseApply(s, act)
    case Client(act) => ClientApply(s, act)
  }

  /** A schedule: each step is enabled in the state the steps before it lead to. */
  predicate Runs(s: State, steps: seq<Step>)
    decreases |steps|
  {
    steps == [] || (Enabled(s, steps[0]) && Runs(Apply(s, steps[0]), steps[1..]))
  }

  function After(s: State, steps: seq<Step>): State
    requires Runs(s, steps)
    decreases |steps|
  {
    if steps == [] then s else After(Apply(s, steps[0]), steps[1..])
  }
}
