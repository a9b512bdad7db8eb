/** What every step of the fixture protocol keeps, and what follows for every run. */
module FixtureInvariant {
  import opened Fixture

  // ---------- the monitor: which environment call may follow which history ----------

  predicate PoolIsClosed(log: seq<Event>, c: nat) {
    PoolClosed(c, true) in log || PoolClosed(c, false) in log
  }

  predicate DbIsClosed(log: seq<Event>, c: nat) {
    DbClosed(c, true) in log || DbClosed(c, false) in log
  }

  predicate BaselineIsClosed(log: seq<Event>) {
    BaselineClosed(true) in log || BaselineClosed(false) in log
  }

  /** May `e` follow the calls in `past`? Nothing follows the baseline's end; a child is forked, given a pool
      and published in that order, each once; its pool is closed before its database, each once; the baseline
      ends only after every pool and every database. */
  ghost predicate MayFollow(past: seq<Event>, e: Event) {
    && !BaselineIsClosed(past)
    && match e
       case Forked(c) => Forked(c) !in past
       case PoolOpened(c) => Forked(c) in past && PoolOpened(c) !in past && !DbIsClosed(past, c)
       case Published(c) => PoolOpened(c) in past && Published(c) !in past && !PoolIsClosed(past, c)
       case PoolClosed(c, _) => PoolOpened(c) in past && !PoolIsClosed(past, c) && !DbIsClosed(past, c)
       case DbClosed(c, _) =>
         && Forked(c) in past
         && !DbIsClosed(past, c)
         && (PoolOpened(c) in past ==> PoolIsClosed(past, c))
       case BaselineClosed(_) =>
         && (forall c :: PoolOpened(c) in past ==> PoolIsClosed(past, c))
         && (forall c :: Forked(c) in past ==> DbIsClosed(past, c))
  }

  ghost predicate WellOrdered(log: seq<Event>) {
    forall j | 0 <= j < |log| :: MayFollow(log[..j], log[j])
  }

  lemma WellOrderedExtends(log: seq<Event>, e: Event)
    requires WellOrdered(log) && MayFollow(log, e)
    ensures WellOrdered(log + [e])
  {
    forall j | 0 <= j < |log| + 1
      ensures MayFollow((log + [e])[..j], (log + [e])[j])
    {
      assert (log + [e])[..j] == log[..j];
      if j == |log| { assert log[..j] == log; }
    }
  }

  // ---------- the invariant ----------

  predicate PoolStepDone(d: Disposal) { d == ClosingDb || d == Settling || d == Disposed }
  predicate DbStepDone(d: Disposal) { d == Settling || d == Disposed }

  /** What holds of one child at each program point of its owner and of its disposal. */
  predicate ChildOk(ch: Child) {
    && (ch.pool ==> ch.db)
    && (ch.db ==> ch.permit)
    && (ch.poolFailed ==> PoolStepDone(ch.disposal) && ch.db)
    && (ch.dbFailed ==> DbStepDone(ch.disposal) && ch.db)
    && ch.returned == (ch.disposal == Disposed && !ch.Dirty() && ch.permit)
    && match ch.phase
       case Acquiring =>
         !ch.permit && ch.disposal == Idle && !ch.ready && !ch.failed && !ch.registered
       case Rechecking =>
         ch.permit && !ch.db && ch.disposal == Idle && !ch.ready && !ch.failed && !ch.registered
       case CheckingContext =>
         ch.permit && !ch.db && ch.disposal == Idle && !ch.ready && !ch.failed && !ch.registered
       case Forking =>
         ch.permit && !ch.db && ch.disposal == Idle && !ch.ready && !ch.failed && !ch.registered
       case Opening =>
         ch.db && !ch.pool && ch.disposal == Idle && !ch.ready && !ch.failed && !ch.registered
       case Pinging => ch.pool && ch.disposal == Idle && !ch.ready && !ch.failed && !ch.registered
       case RecheckingAgain => ch.pool && ch.disposal == Idle && !ch.ready && !ch.failed && !ch.registered
       case Registering => ch.pool && ch.disposal == Idle && !ch.ready && !ch.failed && !ch.registered
       case Unwinding => !ch.ready && !ch.failed && !ch.registered
       case ReadingDebt => ch.disposal == Disposed && !ch.Dirty() && !ch.ready && !ch.failed && !ch.registered
       case Recording => ch.disposal == Disposed && !ch.ready && !ch.failed && !ch.registered
       case Announcing => !ch.ready && Outcome(ch)
       case Leaving => ch.ready && Outcome(ch)
       case Gone => ch.ready && Outcome(ch)
  }

  /** A finished acquisition either published a pool or failed and was disposed. */
  predicate Outcome(ch: Child) {
    if ch.failed then !ch.registered && !ch.pool && ch.disposal == Disposed
    else ch.registered && ch.pool
  }

  ghost predicate ChildrenOk(s: State) {
    forall c | 0 <= c < |s.children| :: ChildOk(s.children[c])
  }

  predicate Holds(ch: Child) { ch.permit && !ch.returned }

  /** The children whose token is in the channel. */
  ghost function Held(children: seq<Child>): set<nat> {
    set c | 0 <= c < |children| && Holds(children[c])
  }

  /** The children whose acquisition still counts in the WaitGroup. */
  ghost function Starters(children: seq<Child>): set<nat> {
    set c | 0 <= c < |children| && children[c].phase != Gone
  }

  ghost predicate CountsOk(s: State) {
    && s.permits == |Held(s.children)|
    && s.permits <= s.capacity
    && s.starting == |Starters(s.children)|
  }

  predicate Owes(ch: Child) { ch.disposal == Disposed && ch.Dirty() }

  /** The children whose disposal is over and failed. */
  ghost function Indebted(children: seq<Child>): set<nat> {
    set c | 0 <= c < |children| && Owes(children[c])
  }

  /** A failed acquisition names its own failed cleanup, and nothing that is not owed. */
  predicate ReportOk(c: nat, ch: Child, debt: set<nat>) {
    && ch.reported <= debt
    && (ch.Dirty() && (ch.phase == Recording || ch.failed) ==> ch.reported == {c})
  }

  ghost predicate DebtOk(s: State) {
    && s.debt == Indebted(s.children)
    && (s.debt != {} ==> s.closed)
    && (forall c | 0 <= c < |s.children| :: ReportOk(c, s.children[c], s.debt))
  }

  ghost predicate EntriesOk(s: State) {
    && (forall k | k in s.entries :: s.entries[k] < |s.children| && s.children[s.entries[k]].key == k)
    && (forall c | 0 <= c < |s.children| :: s.children[c].key in s.entries && s.entries[s.children[c].key] == c)
  }

  predicate PastWait(s: State) {
    s.closing.Sweeping? || s.closing.Inside? || s.closing == ClosingBaseline || s.closing == Closed
  }

  function Causes(failed: set<nat>): set<Cause> { set c | c in failed :: ChildCleanup(c) }

  ghost predicate VisitedOk(s: State, visited: set<nat>) {
    forall c | c in visited :: c < |s.children| && s.children[c].disposal == Disposed
  }

  ghost predicate AllDisposed(s: State) {
    forall c | 0 <= c < |s.children| :: s.children[c].disposal == Disposed
  }

  ghost predicate CloseOk(s: State) {
    && (s.closing != Open && s.closing != Stopping ==> s.closed)
    && (PastWait(s) ==> s.starting == 0)
    && match s.closing
       case Open => s.closeErr == {}
       case Stopping => s.closeErr == {}
       case AwaitingStarters => s.closeErr == {}
       case Sweeping(visited) => VisitedOk(s, visited) && s.closeErr == Causes(visited * s.debt)
       case Inside(c, visited) =>
         && VisitedOk(s, visited)
         && s.closeErr == Causes(visited * s.debt)
         && c < |s.children| && c !in visited
       case ClosingBaseline => AllDisposed(s) && s.closeErr == Causes(s.debt)
       case Closed =>
         && AllDisposed(s)
         && s.closeErr == Causes(s.debt) + (if BaselineClosed(false) in s.log then {Baseline} else {})
  }

  /** How the history of environment calls determines a child's fields, and the other way round. */
  predicate LogLink(log: seq<Event>, c: nat, ch: Child) {
    && (Forked(c) in log <==> ch.db)
    && (ch.pool ==> PoolOpened(c) in log)
    && (PoolOpened(c) in log ==> ch.db && (ch.pool || ch.disposal == Disposed))
    && (forall ok :: PoolClosed(c, ok) in log <==>
          PoolOpened(c) in log && PoolStepDone(ch.disposal) && ok == !ch.poolFailed)
    && (ch.poolFailed ==> PoolOpened(c) in log)
    && (forall ok :: DbClosed(c, ok) in log <==> ch.db && DbStepDone(ch.disposal) && ok == !ch.dbFailed)
    && (Published(c) in log <==> ch.registered)
  }

  /** The child an event is about, if any. */
  predicate About(e: Event, c: nat) { !e.BaselineClosed? && e.child == c }

  ghost predicate LogOk(s: State) {
    && WellOrdered(s.log)
    && (forall c | 0 <= c < |s.children| :: LogLink(s.log, c, s.children[c]))
    && (forall e | e in s.log && !e.BaselineClosed? :: e.child < |s.children|)
    && (BaselineIsClosed(s.log) <==> s.closing == Closed)
    && !(BaselineClosed(true) in s.log && BaselineClosed(false) in s.log)
  }

  ghost predicate RepliesOk(s: State) {
    && (forall w | 0 <= w < |s.waiters| :: s.waiters[w].child < |s.children|)
    && (forall w | 0 <= w < |s.waiters| && s.waiters[w].Served? ::
          var ch := s.children[s.waiters[w].child];
          ch.ready && s.waiters[w].answer == Answer(ch.pool, ch.failed))
    && (forall d | 0 <= d < |s.disposers| ::
          s.disposers[d].child < |s.children| && s.children[s.disposers[d].child].registered)
    && (forall d | 0 <= d < |s.disposers| && s.disposers[d].Left? ::
          var ch := s.children[s.disposers[d].child];
          ch.disposal == Disposed && s.disposers[d].failed == ch.Dirty())
    && (forall k | 0 <= k < |s.closers| && s.closers[k].Returned? ::
          s.closing == Closed && s.closers[k].err == s.closeErr)
  }

  ghost predicate Inv(s: State) {
    && ChildrenOk(s)
    && CountsOk(s)
    && DebtOk(s)
    && EntriesOk(s)
    && CloseOk(s)
    && LogOk(s)
    && RepliesOk(s)
  }

  lemma InitInv(capacity: nat)
    ensures Inv(Init(capacity))
  {
    assert Held([]) == {};
    assert Starters([]) == {};
    assert Indebted([]) == {};
  }

  // ---------- how one child's change shows in the counters, the history and the replies ----------

  function One(b: bool): int { if b then 1 else 0 }

  lemma HeldAfter(children: seq<Child>, c: nat, ch: Child)
    requires c < |children|
    ensures |Held(children[c := ch])| == |Held(children)| - One(Holds(children[c])) + One(Holds(ch))
  {
    assert Held(children[c := ch]) == if Holds(ch) then Held(children) + {c} else Held(children) - {c};
  }

  lemma StartersAfter(children: seq<Child>, c: nat, ch: Child)
    requires c < |children|
    ensures |Starters(children[c := ch])|
         == |Starters(children)| - One(children[c].phase != Gone) + One(ch.phase != Gone)
  {
    assert Starters(children[c := ch])
        == if ch.phase != Gone then Starters(children) + {c} else Starters(children) - {c};
  }

  lemma IndebtedAfter(children: seq<Child>, c: nat, ch: Child)
    requires c < |children|
    ensures Indebted(children[c := ch]) == if Owes(ch) then Indebted(children) + {c} else Indebted(children) - {c}
  {
  }

  lemma NoStartersLeft(s: State, c: nat)
    requires CountsOk(s) && s.starting == 0 && c < |s.children|
    ensures s.children[c].phase == Gone
  {
    assert c !in Starters(s.children);
  }

  /** What no step takes back: a key, an announced result, a registration, a finished disposal. */
  predicate Evolves(a: Child, b: Child) {
    && a.key == b.key
    && (a.ready ==> b.ready && a.pool == b.pool && a.failed == b.failed && a.reported == b.reported)
    && (a.registered ==> b.registered)
    && (a.disposal == Disposed ==> b.disposal == Disposed && a.poolFailed == b.poolFailed && a.dbFailed == b.dbFailed)
    && (a.db ==> b.db)
  }

  lemma RepliesKept(s: State, t: State, c: nat, ch: Child)
    requires RepliesOk(s) && c < |s.children| && Evolves(s.children[c], ch)
    requires t.children == s.children[c := ch]
    requires t.waiters == s.waiters && t.disposers == s.disposers && t.closers == s.closers
    requires t.closing == s.closing && t.closeErr == s.closeErr
    ensures RepliesOk(t)
  {
  }

  lemma LinkKept(log: seq<Event>, e: Event, c: nat, ch: Child)
    requires LogLink(log, c, ch) && !About(e, c)
    ensures LogLink(log + [e], c, ch)
  {
  }

  lemma LinksGrow(s: State, t: State, c: nat, e: Event)
    requires LogOk(s) && c < |s.children| && About(e, c) && t.log == s.log + [e]
    requires |t.children| == |s.children| && LogLink(t.log, c, t.children[c])
    requires forall d | 0 <= d < |s.children| && d != c :: t.children[d] == s.children[d]
    ensures forall d | 0 <= d < |t.children| :: LogLink(t.log, d, t.children[d])
  {
    forall d | 0 <= d < |t.children|
      ensures LogLink(t.log, d, t.children[d])
    {
      if d != c { LinkKept(s.log, e, d, s.children[d]); }
    }
  }

  lemma EndsGrow(log: seq<Event>, c: nat, e: Event)
    requires About(e, c)
    ensures forall ok :: BaselineClosed(ok) in log + [e] <==> BaselineClosed(ok) in log
    ensures BaselineIsClosed(log + [e]) <==> BaselineIsClosed(log)
  {
  }

  lemma NobodyNew(log: seq<Event>, e: Event, n: nat)
    requires (forall x | x in log && !x.BaselineClosed? :: x.child < n) && (!e.BaselineClosed? ==> e.child < n)
    ensures forall x | x in log + [e] && !x.BaselineClosed? :: x.child < n
  {
  }

  lemma LogGrows(s: State, t: State, c: nat, e: Event)
    requires LogOk(s) && c < |s.children| && s.closing != Closed
    requires About(e, c) && MayFollow(s.log, e)
    requires t.log == s.log + [e] && t.closing == s.closing
    requires |t.children| == |s.children|
    requires forall d | 0 <= d < |s.children| && d != c :: t.children[d] == s.children[d]
    requires LogLink(t.log, c, t.children[c])
    ensures LogOk(t)
  {
    WellOrderedExtends(s.log, e);
    LinksGrow(s, t, c, e);
    EndsGrow(s.log, c, e);
    NobodyNew(s.log, e, |s.children|);
  }

  lemma LogStays(s: State, t: State, c: nat)
    requires LogOk(s) && c < |s.children|
    requires t.log == s.log && (t.closing == Closed <==> s.closing == Closed)
    requires |t.children| == |s.children|
    requires forall d | 0 <= d < |s.children| && d != c :: t.children[d] == s.children[d]
    requires LogLink(s.log, c, t.children[c])
    ensures LogOk(t)
  {
  }

  /** One thread's step allows its events, at most one, and keeps its child in step with the history. */
  ghost predicate LogStep(s: State, c: nat, events: seq<Event>, next: Child) {
    && s.closing != Closed
    && |events| <= 1
    && (events != [] ==> About(events[0], c) && MayFollow(s.log, events[0]))
    && LogLink(s.log + events, c, next)
  }

  lemma LogSteps(s: State, t: State, c: nat, events: seq<Event>, next: Child)
    requires LogOk(s) && c < |s.children| && LogStep(s, c, events, next)
    requires t.children == s.children[c := next] && t.log == s.log + events && t.closing == s.closing
    ensures LogOk(t)
  {
    if events == [] {
      assert t.log == s.log;
      LogStays(s, t, c);
    } else {
      assert t.log == s.log + [events[0]];
      LogGrows(s, t, c, events[0]);
    }
  }

  // ---------- owner steps ----------

  /** Up to the pool. */
  predicate Early(act: OwnerAct) {
    act.Token? || act.Expired? || act.Stopped? || act.Recheck? || act.ContextAlive? || act.Fork? || act.OpenPool?
  }

  /** Up to the registration. */
  predicate Middle(act: OwnerAct) { act.Ping? || act.RecheckAgain? || act.Register? || act.EnterDispose? }

  lemma EarlyOwnerOk(s: State, c: nat, act: OwnerAct)
    requires OwnerEnabled(s, c, act) && ChildOk(s.children[c]) && Early(act)
    ensures ChildOk(OwnerNext(s, c, act)) && Evolves(s.children[c], OwnerNext(s, c, act))
  {
  }

  lemma MiddleOwnerOk(s: State, c: nat, act: OwnerAct)
    requires OwnerEnabled(s, c, act) && ChildOk(s.children[c]) && Middle(act)
    ensures ChildOk(OwnerNext(s, c, act)) && Evolves(s.children[c], OwnerNext(s, c, act))
  {
  }

  lemma LateOwnerOk(s: State, c: nat, act: OwnerAct)
    requires OwnerEnabled(s, c, act) && ChildOk(s.children[c]) && !Early(act) && !Middle(act)
    ensures ChildOk(OwnerNext(s, c, act)) && Evolves(s.children[c], OwnerNext(s, c, act))
  {
  }

  lemma OwnerEvolves(s: State, c: nat, act: OwnerAct)
    requires OwnerEnabled(s, c, act) && ChildOk(s.children[c])
    ensures ChildOk(OwnerNext(s, c, act)) && Evolves(s.children[c], OwnerNext(s, c, act))
  {
    if Early(act) { EarlyOwnerOk(s, c, act); }
    else if Middle(act) { MiddleOwnerOk(s, c, act); }
    else { LateOwnerOk(s, c, act); }
  }

  lemma OwnerKeepsChildren(s: State, c: nat, act: OwnerAct)
    requires ChildrenOk(s) && OwnerEnabled(s, c, act)
    ensures ChildrenOk(OwnerApply(s, c, act))
  {
    OwnerEvolves(s, c, act);
  }

  /** What the owner's step does to the two tallies of the debt. */
  lemma OwnerReports(s: State, c: nat, act: OwnerAct)
    requires OwnerEnabled(s, c, act) && ChildOk(s.children[c]) && ReportOk(c, s.children[c], s.debt)
    requires Owes(s.children[c]) <==> c in s.debt
    ensures ReportOk(c, OwnerNext(s, c, act), s.debt)
    ensures Owes(OwnerNext(s, c, act)) == Owes(s.children[c])
  {
  }

  lemma OwnerKeepsCounts(s: State, c: nat, act: OwnerAct)
    requires ChildrenOk(s) && CountsOk(s) && OwnerEnabled(s, c, act)
    ensures CountsOk(OwnerApply(s, c, act))
  {
    assert ChildOk(s.children[c]);
    HeldAfter(s.children, c, OwnerNext(s, c, act));
    StartersAfter(s.children, c, OwnerNext(s, c, act));
  }

  lemma OwnerKeepsDebt(s: State, c: nat, act: OwnerAct)
    requires ChildrenOk(s) && DebtOk(s) && OwnerEnabled(s, c, act)
    ensures DebtOk(OwnerApply(s, c, act))
  {
    assert ChildOk(s.children[c]) && ReportOk(c, s.children[c], s.debt);
    assert Owes(s.children[c]) <==> c in s.debt;
    OwnerReports(s, c, act);
    IndebtedAfter(s.children, c, OwnerNext(s, c, act));
  }

  lemma OwnerKeepsEntries(s: State, c: nat, act: OwnerAct)
    requires EntriesOk(s) && OwnerEnabled(s, c, act)
    ensures EntriesOk(OwnerApply(s, c, act))
  {
  }

  lemma OwnerKeepsClose(s: State, c: nat, act: OwnerAct)
    requires CountsOk(s) && CloseOk(s) && OwnerEnabled(s, c, act)
    ensures CloseOk(OwnerApply(s, c, act))
  {
    if PastWait(s) { NoStartersLeft(s, c); }
  }

  lemma SilentOwnerLinks(log: seq<Event>, c: nat, s: State, act: OwnerAct)
    requires OwnerEnabled(s, c, act) && ChildOk(s.children[c]) && LogLink(log, c, s.children[c])
    requires OwnerEvents(c, act) == []
    ensures LogLink(log, c, OwnerNext(s, c, act))
  {
  }

  lemma OwnerLinks(log: seq<Event>, c: nat, s: State, act: OwnerAct)
    requires OwnerEnabled(s, c, act) && ChildOk(s.children[c]) && LogLink(log, c, s.children[c])
    requires !BaselineIsClosed(log)
    ensures LogLink(log + OwnerEvents(c, act), c, OwnerNext(s, c, act))
    ensures OwnerEvents(c, act) != [] ==> MayFollow(log, OwnerEvents(c, act)[0])
  {
    if OwnerEvents(c, act) == [] {
      assert log + [] == log;
      SilentOwnerLinks(log, c, s, act);
    }
  }

  lemma OwnerBeforeEnd(s: State, c: nat, act: OwnerAct)
    requires CountsOk(s) && CloseOk(s) && LogOk(s) && OwnerEnabled(s, c, act)
    ensures !BaselineIsClosed(s.log) && s.closing != Closed
  {
    if PastWait(s) { NoStartersLeft(s, c); }
  }

  lemma OwnerKeepsLog(s: State, c: nat, act: OwnerAct)
    requires ChildrenOk(s) && CountsOk(s) && CloseOk(s) && LogOk(s) && OwnerEnabled(s, c, act)
    ensures LogOk(OwnerApply(s, c, act))
  {
    OwnerBeforeEnd(s, c, act);
    assert ChildOk(s.children[c]) && LogLink(s.log, c, s.children[c]);
    OwnerLinks(s.log, c, s, act);
    LogSteps(s, OwnerApply(s, c, act), c, OwnerEvents(c, act), OwnerNext(s, c, act));
  }

  lemma OwnerKeeps(s: State, c: nat, act: OwnerAct)
    requires Inv(s) && OwnerEnabled(s, c, act)
    ensures Inv(OwnerApply(s, c, act))
  {
    OwnerKeepsChildren(s, c, act);
    OwnerKeepsCounts(s, c, act);
    OwnerKeepsDebt(s, c, act);
    OwnerKeepsEntries(s, c, act);
    OwnerKeepsClose(s, c, act);
    OwnerKeepsLog(s, c, act);
    OwnerEvolves(s, c, act);
    RepliesKept(s, OwnerApply(s, c, act), c, OwnerNext(s, c, act));
  }

  // ---------- the once body of dispose ----------

  /** The bare receive from `permits` finds a token: a clean child still owns the one it sent. */
  lemma SettleNeverBlocks(s: State, c: nat)
    requires ChildrenOk(s) && CountsOk(s) && c < |s.children| && s.children[c].disposal == Settling
    ensures BodyEnabled(s, c, Settle)
  {
    assert ChildOk(s.children[c]);
    if s.children[c].permit {
      assert c in Held(s.children);
    }
  }

  lemma BodyKeepsChildren(s: State, c: nat, act: BodyAct)
    requires ChildrenOk(s) && BodyEnabled(s, c, act)
    ensures ChildrenOk(BodyApply(s, c, act))
    ensures Evolves(s.children[c], BodyNext(s.children[c], act))
  {
    assert ChildOk(s.children[c]);
    assert ChildOk(BodyNext(s.children[c], act));
  }

  lemma BodyKeepsCounts(s: State, c: nat, act: BodyAct)
    requires ChildrenOk(s) && CountsOk(s) && BodyEnabled(s, c, act)
    ensures CountsOk(BodyApply(s, c, act))
  {
    assert ChildOk(s.children[c]);
    HeldAfter(s.children, c, BodyNext(s.children[c], act));
    StartersAfter(s.children, c, BodyNext(s.children[c], act));
  }

  lemma BodyKeepsDebt(s: State, c: nat, act: BodyAct)
    requires ChildrenOk(s) && DebtOk(s) && BodyEnabled(s, c, act)
    ensures DebtOk(BodyApply(s, c, act))
  {
    var t := BodyApply(s, c, act);
    assert ChildOk(s.children[c]) && ReportOk(c, s.children[c], s.debt);
    IndebtedAfter(s.children, c, BodyNext(s.children[c], act));
    assert c !in s.debt;
    assert ReportOk(c, BodyNext(s.children[c], act), t.debt);
    forall d | 0 <= d < |t.children|
      ensures ReportOk(d, t.children[d], t.debt)
    {
      if d != c { assert ReportOk(d, s.children[d], s.debt); }
    }
  }

  lemma EntriesKept(s: State, t: State, c: nat, ch: Child)
    requires EntriesOk(s) && c < |s.children| && s.children[c].key == ch.key
    requires t.children == s.children[c := ch] && t.entries == s.entries
    ensures EntriesOk(t)
  {
  }

  /** A child whose disposal is not over is not one Close has finished with. */
  lemma CloseKept(s: State, t: State, c: nat, ch: Child)
    requires CloseOk(s) && c < |s.children| && s.children[c].disposal != Disposed
    requires t.children == s.children[c := ch] && t.closing == s.closing && t.closeErr == s.closeErr
    requires t.starting == s.starting && (s.closed ==> t.closed)
    requires t.debt == s.debt || t.debt == s.debt + {c}
    ensures CloseOk(t)
  {
    if s.closing.Sweeping? || s.closing.Inside? {
      var visited := s.closing.visited;
      assert c !in visited;
      assert visited * t.debt == visited * s.debt;
      assert VisitedOk(t, visited);
    }
  }

  /** The history allows the two closing calls exactly where the body makes them. */
  lemma PoolMayClose(log: seq<Event>, c: nat, ch: Child, ok: bool)
    requires ChildOk(ch) && LogLink(log, c, ch) && !BaselineIsClosed(log)
    requires ch.disposal == ClosingPool && ch.pool
    ensures MayFollow(log, PoolClosed(c, ok))
    ensures LogLink(log + [PoolClosed(c, ok)], c, BodyNext(ch, ClosePool(ok)))
  {
  }

  lemma DbMayClose(log: seq<Event>, c: nat, ch: Child, ok: bool)
    requires ChildOk(ch) && LogLink(log, c, ch) && !BaselineIsClosed(log)
    requires ch.disposal == ClosingDb && ch.db
    ensures MayFollow(log, DbClosed(c, ok))
    ensures LogLink(log + [DbClosed(c, ok)], c, BodyNext(ch, CloseDb(ok)))
  {
    if PoolOpened(c) in log {
      assert PoolClosed(c, !ch.poolFailed) in log;
    }
  }

  lemma BodyLinks(log: seq<Event>, c: nat, ch: Child, act: BodyAct)
    requires ChildOk(ch) && LogLink(log, c, ch) && !BaselineIsClosed(log)
    requires ch.disposal == match act case ClosePool(_) => ClosingPool case CloseDb(_) => ClosingDb case Settle => Settling
    ensures LogLink(log + BodyEvents(c, ch, act), c, BodyNext(ch, act))
    ensures BodyEvents(c, ch, act) != [] ==> MayFollow(log, BodyEvents(c, ch, act)[0])
  {
    if BodyEvents(c, ch, act) == [] {
      assert log + [] == log;
    } else {
      match act
      case ClosePool(ok) => PoolMayClose(log, c, ch, ok);
      case CloseDb(ok) => DbMayClose(log, c, ch, ok);
      case Settle =>
    }
  }

  lemma BodyBeforeEnd(s: State, c: nat, act: BodyAct)
    requires ChildrenOk(s) && CloseOk(s) && LogOk(s) && BodyEnabled(s, c, act)
    ensures !BaselineIsClosed(s.log) && s.closing != Closed
    ensures ChildOk(s.children[c]) && LogLink(s.log, c, s.children[c])
  {
  }

  lemma BodyKeepsLog(s: State, c: nat, act: BodyAct)
    requires ChildrenOk(s) && CloseOk(s) && LogOk(s) && BodyEnabled(s, c, act)
    ensures LogOk(BodyApply(s, c, act))
  {
    BodyBeforeEnd(s, c, act);
    BodyLinks(s.log, c, s.children[c], act);
    LogSteps(s, BodyApply(s, c, act), c, BodyEvents(c, s.children[c], act), BodyNext(s.children[c], act));
  }

  lemma BodyKeeps(s: State, c: nat, act: BodyAct)
    requires Inv(s) && BodyEnabled(s, c, act)
    ensures Inv(BodyApply(s, c, act))
  {
    BodyKeepsChildren(s, c, act);
    BodyKeepsCounts(s, c, act);
    BodyKeepsDebt(s, c, act);
    EntriesKept(s, BodyApply(s, c, act), c, BodyNext(s.children[c], act));
    CloseKept(s, BodyApply(s, c, act), c, BodyNext(s.children[c], act));
    BodyKeepsLog(s, c, act);
    RepliesKept(s, BodyApply(s, c, act), c, BodyNext(s.children[c], act));
  }

  // ---------- a caller entering the once body ----------

  function Begun(ch: Child): Child { ch.(disposal := ClosingPool) }

  lemma EnteringLinks(log: seq<Event>, c: nat, ch: Child)
    requires LogLink(log, c, ch) && ch.disposal == Idle
    ensures LogLink(log, c, Begun(ch))
  {
  }

  lemma EnteringKeepsSets(s: State, c: nat)
    requires ChildrenOk(s) && c < |s.children| && s.children[c].disposal == Idle
    ensures var children := s.children[c := Begun(s.children[c])];
            |Held(children)| == |Held(s.children)| && |Starters(children)| == |Starters(s.children)|
            && Indebted(children) == Indebted(s.children)
  {
    var ch := Begun(s.children[c]);
    assert ChildOk(s.children[c]);
    HeldAfter(s.children, c, ch);
    StartersAfter(s.children, c, ch);
    IndebtedAfter(s.children, c, ch);
    assert c !in Indebted(s.children);
  }

  lemma BegunOk(ch: Child)
    requires ChildOk(ch) && ch.disposal == Idle && ch.registered
    ensures ChildOk(Begun(ch)) && Evolves(ch, Begun(ch))
  {
  }

  lemma EnteringKeepsLog(s: State, t: State, c: nat)
    requires LogOk(s) && c < |s.children| && s.children[c].disposal == Idle
    requires t == s.(children := s.children[c := Begun(s.children[c])])
    ensures LogOk(t)
  {
    EnteringLinks(s.log, c, s.children[c]);
    LogStays(s, t, c);
  }

  lemma EnteringKeepsTallies(s: State, t: State, c: nat)
    requires ChildrenOk(s) && CountsOk(s) && DebtOk(s) && c < |s.children| && s.children[c].disposal == Idle
    requires t == s.(children := s.children[c := Begun(s.children[c])])
    ensures CountsOk(t) && DebtOk(t)
  {
    EnteringKeepsSets(s, c);
    assert ReportOk(c, s.children[c], s.debt);
  }

  /** Whoever arrives first, only the child's disposal moves, from Idle. */
  lemma EnteringKeeps(s: State, t: State, c: nat)
    requires Inv(s) && c < |s.children| && s.children[c].disposal == Idle
    requires s.children[c].registered
    requires t == s.(children := s.children[c := Begun(s.children[c])])
    ensures Inv(t)
  {
    var ch := Begun(s.children[c]);
    assert ChildrenOk(t) by { BegunOk(s.children[c]); }
    assert CountsOk(t) && DebtOk(t) by { EnteringKeepsTallies(s, t, c); }
    assert EntriesOk(t) by { EntriesKept(s, t, c, ch); }
    assert CloseOk(t) by { CloseKept(s, t, c, ch); }
    assert LogOk(t) by { EnteringKeepsLog(s, t, c); }
    assert RepliesOk(t) by { RepliesKept(s, t, c, ch); }
  }

  // ---------- the once body of Close ----------

  lemma SettledAreRegistered(s: State, c: nat)
    requires ChildrenOk(s) && CountsOk(s) && CloseOk(s) && PastWait(s) && c < |s.children| && s.children[c].disposal == Idle
    ensures s.children[c].registered
  {
    NoStartersLeft(s, c);
    assert ChildOk(s.children[c]);
  }

  lemma SweepEndsOk(s: State)
    requires DebtOk(s) && EntriesOk(s) && CloseOk(s) && CloseEnabled(s, EndSweep)
    ensures CloseOk(CloseApply(s, EndSweep))
  {
    var visited := s.closing.visited;
    forall c | 0 <= c < |s.children|
      ensures s.children[c].disposal == Disposed
    {
      assert s.entries[s.children[c].key] == c;
      assert c in visited;
    }
    assert visited * s.debt == s.debt;
  }

  lemma SweepStepOk(s: State, act: CloseAct)
    requires DebtOk(s) && EntriesOk(s) && CloseOk(s) && CloseEnabled(s, act)
    requires act.Stop? || act.StartersDone? || act.Visit? || act.EndSweep?
    ensures CloseOk(CloseApply(s, act))
  {
    match act
    case StartersDone => assert Causes({} * s.debt) == {};
    case EndSweep => SweepEndsOk(s);
    case _ =>
  }

  lemma SweepStepKeeps(s: State, act: CloseAct)
    requires Inv(s) && CloseEnabled(s, act)
    requires act.Stop? || act.StartersDone? || act.Visit? || act.EndSweep?
    ensures Inv(CloseApply(s, act))
  {
    SweepStepOk(s, act);
  }

  lemma CausesPlus(failed: set<nat>, c: nat)
    ensures Causes(failed + {c}) == Causes(failed) + {ChildCleanup(c)}
  {
  }

  lemma LeaveVisitedCauses(s: State)
    requires DebtOk(s) && CloseOk(s) && CloseEnabled(s, LeaveVisited)
    ensures CloseApply(s, LeaveVisited).closeErr == Causes((s.closing.visited + {s.closing.child}) * s.debt)
  {
    var c, visited := s.closing.child, s.closing.visited;
    assert c in s.debt <==> Owes(s.children[c]);
    if s.children[c].Dirty() {
      assert (visited + {c}) * s.debt == visited * s.debt + {c};
      CausesPlus(visited * s.debt, c);
    } else {
      assert (visited + {c}) * s.debt == visited * s.debt;
    }
  }

  lemma LeaveVisitedKeeps(s: State)
    requires Inv(s) && CloseEnabled(s, LeaveVisited)
    ensures Inv(CloseApply(s, LeaveVisited))
  {
    var t := CloseApply(s, LeaveVisited);
    LeaveVisitedCauses(s);
    assert VisitedOk(t, s.closing.visited + {s.closing.child});
    assert CloseOk(t);
  }

  /** When every child is disposed, the history allows the baseline's end. */
  lemma BaselineMayClose(s: State, ok: bool)
    requires LogOk(s) && AllDisposed(s) && !BaselineIsClosed(s.log)
    ensures MayFollow(s.log, BaselineClosed(ok))
  {
    forall c: nat | PoolOpened(c) in s.log
      ensures PoolIsClosed(s.log, c)
    {
      assert PoolOpened(c).child < |s.children|;
      assert LogLink(s.log, c, s.children[c]);
      assert PoolClosed(c, !s.children[c].poolFailed) in s.log;
    }
    forall c: nat | Forked(c) in s.log
      ensures DbIsClosed(s.log, c)
    {
      assert Forked(c).child < |s.children|;
      assert LogLink(s.log, c, s.children[c]);
      assert DbClosed(c, !s.children[c].dbFailed) in s.log;
    }
  }

  lemma CloseBaselineKeepsLog(s: State, ok: bool)
    requires LogOk(s) && AllDisposed(s) && CloseEnabled(s, CloseBaseline(ok))
    ensures LogOk(CloseApply(s, CloseBaseline(ok)))
  {
    var t := CloseApply(s, CloseBaseline(ok));
    BaselineMayClose(s, ok);
    WellOrderedExtends(s.log, BaselineClosed(ok));
    forall c | 0 <= c < |s.children|
      ensures LogLink(t.log, c, t.children[c])
    {
      LinkKept(s.log, BaselineClosed(ok), c, s.children[c]);
    }
  }

  lemma CloseBaselineKeepsRest(s: State, ok: bool)
    requires CloseOk(s) && RepliesOk(s) && LogOk(s) && CloseEnabled(s, CloseBaseline(ok))
    ensures CloseOk(CloseApply(s, CloseBaseline(ok))) && RepliesOk(CloseApply(s, CloseBaseline(ok)))
  {
    assert !BaselineIsClosed(s.log);
  }

  lemma CloseBaselineKeeps(s: State, ok: bool)
    requires Inv(s) && CloseEnabled(s, CloseBaseline(ok))
    ensures Inv(CloseApply(s, CloseBaseline(ok)))
  {
    CloseBaselineKeepsLog(s, ok);
    CloseBaselineKeepsRest(s, ok);
  }

  lemma CloseKeeps(s: State, act: CloseAct)
    requires Inv(s) && CloseEnabled(s, act)
    ensures Inv(CloseApply(s, act))
  {
    match act
    case EnterVisited =>
      SettledAreRegistered(s, s.closing.child);
      EnteringKeeps(s, CloseApply(s, act), s.closing.child);
    case LeaveVisited => LeaveVisitedKeeps(s);
    case CloseBaseline(ok) => CloseBaselineKeeps(s, ok);
    case _ => SweepStepKeeps(s, act);
  }

  // ---------- arriving and returning callers ----------

  lemma NewcomerUnlogged(s: State, key: Key)
    requires LogOk(s)
    ensures LogLink(s.log, |s.children|, FreshChild(key))
  {
    var n := |s.children|;
    assert forall e | e in s.log && !e.BaselineClosed? :: e.child < n;
    assert Forked(n) !in s.log && PoolOpened(n) !in s.log && Published(n) !in s.log;
    assert forall ok :: PoolClosed(n, ok) !in s.log && DbClosed(n, ok) !in s.log;
  }

  lemma AdmitKeepsSets(children: seq<Child>, key: Key)
    ensures Held(children + [FreshChild(key)]) == Held(children)
    ensures Indebted(children + [FreshChild(key)]) == Indebted(children)
  {
    var grown := children + [FreshChild(key)];
    assert forall c | 0 <= c < |children| :: grown[c] == children[c];
    assert !Holds(grown[|children|]) && !Owes(grown[|children|]);
  }

  lemma AdmitStarts(children: seq<Child>, key: Key)
    ensures |Starters(children + [FreshChild(key)])| == |Starters(children)| + 1
  {
    var grown := children + [FreshChild(key)];
    assert forall c | 0 <= c < |children| :: grown[c] == children[c];
    assert grown[|children|].phase != Gone;
    assert Starters(grown) == Starters(children) + {|children|};
  }

  lemma AdmitKeepsLog(s: State, t: State, key: Key)
    requires LogOk(s) && t.children == s.children + [FreshChild(key)] && t.log == s.log && t.closing == s.closing
    ensures LogOk(t)
  {
    NewcomerUnlogged(s, key);
    assert forall c | 0 <= c < |s.children| :: t.children[c] == s.children[c];
  }

  lemma AdmitKeepsEntries(s: State, key: Key)
    requires EntriesOk(s) && CloseOk(s) && ChildrenOk(s) && RepliesOk(s) && !Rejecting(s) && key !in s.entries
    ensures var t := ClientApply(s, Get(key)); EntriesOk(t) && CloseOk(t) && ChildrenOk(t) && RepliesOk(t)
  {
    var t := ClientApply(s, Get(key));
    assert forall c | 0 <= c < |s.children| :: t.children[c] == s.children[c];
    assert t.children[|s.children|] == FreshChild(key) && ChildOk(FreshChild(key));
  }

  lemma AdmitKeepsDebt(s: State, key: Key)
    requires DebtOk(s) && !Rejecting(s) && key !in s.entries
    ensures DebtOk(ClientApply(s, Get(key)))
  {
    AdmitKeepsSets(s.children, key);
    assert forall c | 0 <= c < |s.children| :: ClientApply(s, Get(key)).children[c] == s.children[c];
  }

  lemma AdmitKeeps(s: State, key: Key)
    requires Inv(s) && !Rejecting(s) && key !in s.entries
    ensures Inv(ClientApply(s, Get(key)))
  {
    var t := ClientApply(s, Get(key));
    AdmitKeepsEntries(s, key);
    AdmitKeepsDebt(s, key);
    AdmitKeepsLog(s, t, key);
    assert CountsOk(t) by { AdmitKeepsSets(s.children, key); AdmitStarts(s.children, key); }
  }

  /** Calls that only record an arrival or a return leave everything but the replies as it was. */
  lemma FrameKeeps(s: State, t: State)
    requires Inv(s)
    requires t == s.(waiters := t.waiters, disposers := t.disposers, closers := t.closers, closing := t.closing)
    requires t.closing == s.closing || (s.closing == Open && t.closing == Stopping)
    requires RepliesOk(t)
    ensures Inv(t)
  {
  }

  /** A call that admits nobody and starts no disposal. */
  predicate OnlyReplies(s: State, act: ClientAct) {
    !act.DisposerEnters? && (act.Get? ==> Rejecting(s) || act.key in s.entries)
  }

  lemma WaiterRepliesOk(s: State, act: ClientAct)
    requires EntriesOk(s) && RepliesOk(s) && ClientEnabled(s, act) && OnlyReplies(s, act)
    requires act.Get? || act.WaiterServed? || act.WaiterExpired?
    ensures RepliesOk(ClientApply(s, act))
  {
  }

  lemma CallerRepliesOk(s: State, act: ClientAct)
    requires RepliesOk(s) && ClientEnabled(s, act) && OnlyReplies(s, act)
    requires act.CallDispose? || act.DisposerLeaves? || act.CallClose? || act.CloserLeaves?
    ensures RepliesOk(ClientApply(s, act))
  {
  }

  lemma ReplyKeeps(s: State, act: ClientAct)
    requires Inv(s) && ClientEnabled(s, act) && OnlyReplies(s, act)
    ensures Inv(ClientApply(s, act))
  {
    if act.Get? || act.WaiterServed? || act.WaiterExpired? {
      WaiterRepliesOk(s, act);
    } else {
      CallerRepliesOk(s, act);
    }
    FrameKeeps(s, ClientApply(s, act));
  }

  lemma ClientKeeps(s: State, act: ClientAct)
    requires Inv(s) && ClientEnabled(s, act)
    ensures Inv(ClientApply(s, act))
  {
    if act.DisposerEnters? {
      EnteringKeeps(s, ClientApply(s, act), s.disposers[act.d].child);
    } else if act.Get? && !Rejecting(s) && act.key !in s.entries {
      AdmitKeeps(s, act.key);
    } else {
      ReplyKeeps(s, act);
    }
  }

  // ---------- every step, every run ----------

  lemma StepKeeps(s: State, step: Step)
    requires Inv(s) && Enabled(s, step)
    ensures Inv(Apply(s, step))
  {
    match step
    case Owner(c, act) => OwnerKeeps(s, c, act);
    case Body(c, act) => BodyKeeps(s, c, act);
    case Close(act) => CloseKeeps(s, act);
    case Client(act) => ClientKeeps(s, act);
  }

  lemma {:induction false} RunKeeps(s: State, steps: seq<Step>)
    requires Inv(s) && Runs(s, steps)
    ensures Inv(After(s, steps))
    decreases |steps|
  {
    if steps != [] {
      StepKeeps(s, steps[0]);
      RunKeeps(Apply(s, steps[0]), steps[1..]);
    }
  }
}
