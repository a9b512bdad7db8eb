/** One Database from its start to the end of its disposal: mariamem.go, the capture in snapshot.go, and the
    disposal retry of live.go. All of it runs under `db.mu`, so each method is one atomic transition. */
module Database {

  /** A joined error is the set of its causes. An `Owned` cause carries the owner of unfinished cleanup. */
  datatype Cause = Plain(id: nat) | Owned(owner: nat)
  type Error = set<Cause>

  /** The calls a database makes on its lease. */
  datatype Report = Settled(err: Error) | Tracked(err: Error)

  /** The calls a database makes on its backend that end it. */
  datatype BackendCall = CloseCall | RetryCloseCall | CaptureCall(consumed: bool)

  /** The fields of Database that its methods read or change, with the history of the calls they make. */
  datatype State = State(
    server: bool,           // db.server != nil
    leased: bool,           // db.lease != nil
    closed: bool,
    closeErr: Error,
    failure: Error,
    temporary: bool,        // db.temporary != ""
    captureDebt: Error,
    reports: seq<Report>,
    calls: seq<BackendCall>)

  /** What the environment answers during one call: the backend's failure and close result, the result of
      removing the temporary directory, the backend's own disposal state, and the owners that are done. */
  datatype Answers = Answers(
    failure: Error, close: Error, removal: Error, disposed: bool, done: set<nat>)

  datatype CaptureAnswers = CaptureAnswers(
    optionsOk: bool, contextOk: bool, consumed: bool, backing: bool, err: Error, backingClose: Error)

  /** The result of Snapshot. */
  datatype Captured = Baseline | Failed(err: Error) | NotAttempted

  const MISSING_BACKING: Cause := Plain(0)

  // ---------- the pieces ----------

  function Invalid(s: State, a: Answers): Error {
    if s.failure != {} then s.failure
    else if s.closed || !s.server then {}
    else a.failure
  }

  /** removeTemporaryAfter: its error, and the state it leaves. */
  function Removed(s: State, a: Answers): (State, Error) {
    if !s.temporary then (s, {})
    else if a.removal == {} then (s.(temporary := false), {})
    else (s, a.removal)
  }

  function DisposalComplete(s: State, a: Answers): bool { s.captureDebt == {} && s.server && a.disposed }

  predicate Pending(err: Error, done: set<nat>) { exists c :: c in err && c.Owned? && c.owner !in done }

  function SettleFork(s: State, err: Error, confirmed: bool, done: set<nat>): State {
    if !s.leased then s
    else if s.captureDebt != {} then s.(reports := s.reports + [Settled(err)])
    else if Pending(err, done) then s.(reports := s.reports + [Tracked(err)])
    else if err == {} || confirmed then s.(reports := s.reports + [Settled({})])
    else s.(reports := s.reports + [Settled(err)])
  }

  // ---------- the four operations ----------

  /** closeLocked */
  function Closing(s: State, a: Answers): State {
    if s.closed then s
    else
      var s1 := s.(failure := Invalid(s, a), closed := true,
                   calls := if s.server then s.calls + [CloseCall] else s.calls);
      var err: Error := if s.server then a.close else {};
      var (s2, rm) := Removed(s1, a);
      var s3 := s2.(closeErr := err + rm + s.captureDebt);
      SettleFork(s3, s3.closeErr, DisposalComplete(s3, a), a.done)
  }

  /** The body of watch, once the guest is gone. */
  function Watching(s: State, a: Answers): State {
    if s.closed then s else Closing(s.(failure := Invalid(s, a)), a)
  }

  predicate CaptureAttempted(s: State, a: Answers, c: CaptureAnswers) {
    c.optionsOk && Invalid(s, a) == {} && !s.closed && s.server && c.contextOk
  }

  /** The error of a capture before its backing is closed again. */
  function CaptureError(s: State, a: Answers, c: CaptureAnswers): Error {
    var e := c.err + (if c.consumed then Removed(s, a).1 else {});
    if e == {} && !c.backing then {MISSING_BACKING} else e
  }

  /** Snapshot */
  function Capturing(s: State, a: Answers, c: CaptureAnswers): (State, Captured) {
    if !CaptureAttempted(s, a, c) then (s, NotAttempted)
    else
      var s0 := s.(calls := s.calls + [CaptureCall(c.consumed)]);
      var s1 := if c.consumed then Removed(s0, a).0.(closed := true, closeErr := Removed(s0, a).1) else s0;
      var e := CaptureError(s, a, c);
      if e != {} then
        var cleanup: Error := if c.backing then c.backingClose else {};
        var s2 := if cleanup != {} && s.leased
                  then s1.(captureDebt := s1.captureDebt + cleanup, reports := s1.reports + [Settled(cleanup)])
                  else s1;
        var s3 := if c.consumed
                  then SettleFork(s2, e + cleanup, cleanup == {} && DisposalComplete(s2, a), a.done)
                  else s2;
        (s3, Failed(e + cleanup))
      else
        (if c.consumed then SettleFork(s1, s1.closeErr, DisposalComplete(s1, a), a.done) else s1, Baseline)
  }

  /** liveChild.Close: `retried` is the result of retrying the owners of the stored close error. */
  function Retrying(s: State, a: Answers, retried: Error): (State, Error) {
    if !s.closed then (Closing(s, a), Closing(s, a).closeErr)
    else if retried != {} then (s, retried)
    else
      var s1 := s.(calls := if s.server then s.calls + [RetryCloseCall] else s.calls);
      var err: Error := if s.server then a.close else {};
      var (s2, rm) := Removed(s1, a);
      var result := err + rm + s.captureDebt;
      (SettleFork(s2, result, DisposalComplete(s2, a), a.done), result)
  }

  // ---------- the object ----------

  class Database {
    var server: bool
    const leased: bool
    var closed: bool
    var closeErr: Error
    var failure: Error
    var temporary: bool
    var captureDebt: Error
    var reports: seq<Report>
    var calls: seq<BackendCall>

    ghost function View(): State
      reads this
    {
      State(server, leased, closed, closeErr, failure, temporary, captureDebt, reports, calls)
    }

    /** A started database: a backend, a temporary directory, nothing wrong yet. */
    constructor (leased: bool)
      ensures View() == Started(leased)
    {
      server, closed, closeErr, failure, temporary, captureDebt := true, false, {}, {}, true, {};
      this.leased := leased;
      reports, calls := [], [];
    }

    function InvalidLocked(a: Answers): (err: Error)
      reads this
      ensures failure != {} || closed ==> err == failure
      ensures err != {} && failure == {} ==> server && err == a.failure
    {
      if failure != {} then failure else if closed then {} else if !server then {} else a.failure
    }

    function DisposalCompleteNow(a: Answers): (complete: bool)
      reads this
      ensures captureDebt != {} ==> !complete
      ensures complete ==> server && a.disposed
    {
      if captureDebt != {} then false else if server then a.disposed else false
    }

    method RemoveTemporaryAfter(a: Answers) returns (err: Error)
      modifies this`temporary
      ensures (View(), err) == Removed(old(View()), a)
    {
      if !temporary { return {}; }
      err := a.removal;
      if err == {} { temporary := false; }
    }

    method SettleForkLocked(err: Error, confirmed: bool, done: set<nat>)
      modifies this`reports
      ensures View() == SettleFork(old(View()), err, confirmed, done)
    {
      if !leased { return; }
      if captureDebt != {} {
        reports := reports + [Settled(err)];
        return;
      }
      if exists c :: c in err && c.Owned? && c.owner !in done {
        reports := reports + [Tracked(err)];
      } else if err == {} || confirmed {
        reports := reports + [Settled({})];
      } else {
        reports := reports + [Settled(err)];
      }
    }

    /** Close */
    method CloseLocked(a: Answers) returns (err: Error)
      modifies this
      ensures View() == Closing(old(View()), a)
      ensures err == closeErr
    {
      if closed { return closeErr; }
      var invalid := InvalidLocked(a);
      if invalid != {} { failure := invalid; }
      closed := true;
      err := {};
      if server {
        calls := calls + [CloseCall];
        err := a.close;
      }
      var removal := RemoveTemporaryAfter(a);
      closeErr := err + removal + captureDebt;
      SettleForkLocked(closeErr, DisposalCompleteNow(a), a.done);
      err := closeErr;
    }

    method Watch(a: Answers)
      modifies this
      ensures View() == Watching(old(View()), a)
    {
      if !closed {
        failure := InvalidLocked(a);
        var _ := CloseLocked(a);
      }
    }

    method Snapshot(a: Answers, c: CaptureAnswers) returns (r: Captured)
      modifies this
      ensures (View(), r) == Capturing(old(View()), a, c)
    {
      if !c.optionsOk { return NotAttempted; }
      if InvalidLocked(a) != {} { return NotAttempted; }
      if closed || !server { return NotAttempted; }
      if !c.contextOk { return NotAttempted; }
      calls := calls + [CaptureCall(c.consumed)];
      var e := c.err;
      if c.consumed {
        closed := true;
        closeErr := RemoveTemporaryAfter(a);
        e := e + closeErr;
      }
      if e == {} && !c.backing { e := {MISSING_BACKING}; }
      assert e == CaptureError(old(View()), a, c);
      if e != {} {
        var cleanup: Error := if c.backing then c.backingClose else {};
        ghost var s1 := View();
        e := e + cleanup;
        if cleanup != {} && leased {
          captureDebt := captureDebt + cleanup;
          reports := reports + [Settled(cleanup)];
        }
        if c.consumed { SettleForkLocked(e, cleanup == {} && DisposalCompleteNow(a), a.done); }
        return Failed(e);
      }
      if c.consumed { SettleForkLocked(closeErr, DisposalCompleteNow(a), a.done); }
      r := Baseline;
    }

    /** The disposal retry that only Live uses. */
    method RetryClose(a: Answers, retried: Error) returns (err: Error)
      modifies this
      ensures (View(), err) == Retrying(old(View()), a, retried)
    {
      if !closed {
        err := CloseLocked(a);
        return;
      }
      if retried != {} { return retried; }
      err := {};
      if server {
        calls := calls + [RetryCloseCall];
        err := a.close;
      }
      var removal := RemoveTemporaryAfter(a);
      err := err + removal + captureDebt;
      SettleForkLocked(err, DisposalCompleteNow(a), a.done);
    }
  }

  // ---------- whole runs ----------

  function Started(leased: bool): State { State(true, leased, false, {}, {}, true, {}, [], []) }

  datatype Op =
    | Close(a: Answers)
    | Watch(a: Answers)
    | Snapshot(a: Answers, c: CaptureAnswers)
    | Retry(a: Answers, retried: Error)

  function Apply(s: State, op: Op): State {
    match op
    case Close(a) => Closing(s, a)
    case Watch(a) => Watching(s, a)
    case Snapshot(a, c) => Capturing(s, a, c).0
    case Retry(a, retried) => Retrying(s, a, retried).0
  }

  function After(s: State, ops: seq<Op>): State
    decreases |ops|
  {
    if ops == [] then s else After(Apply(s, ops[0]), ops[1..])
  }

  /** Consumed by a capture: closed without a call of the backend's Close. */
  predicate Consumed(s: State) { CaptureCall(true) in s.calls }

  ghost predicate Inv(s: State) {
    && s.server
    && (!s.closed ==> s.closeErr == {})
    && (s.closed && s.leased ==> s.reports != [])
    && (s.closed <==> CloseCall in s.calls || Consumed(s))
    && !(CloseCall in s.calls && Consumed(s))
    && (s.captureDebt != {} ==> s.leased)
    && (s.closed && s.closeErr == {} ==> !s.temporary)
  }

  lemma Appended(calls: seq<BackendCall>, x: BackendCall, y: BackendCall)
    ensures y in calls + [x] <==> y in calls || y == x
  {
  }

  lemma ClosingKeeps(s: State, a: Answers)
    requires Inv(s)
    ensures Inv(Closing(s, a))
  {
    Appended(s.calls, CloseCall, CloseCall);
    Appended(s.calls, CloseCall, CaptureCall(true));
  }

  /** A capture only appends its own call, ... */
  lemma CapturingCalls(s: State, a: Answers, c: CaptureAnswers)
    ensures Capturing(s, a, c).0.calls
         == if CaptureAttempted(s, a, c) then s.calls + [CaptureCall(c.consumed)] else s.calls
  {
  }

  lemma CapturingLeaves(s: State, a: Answers, c: CaptureAnswers)
    ensures var t := Capturing(s, a, c).0; t.failure == s.failure && t.leased == s.leased && t.server == s.server
  {
  }

  /** ... and at most adds debt ... */
  lemma CapturingOwes(s: State, a: Answers, c: CaptureAnswers)
    ensures var t := Capturing(s, a, c).0;
            s.captureDebt <= t.captureDebt && (t.captureDebt != s.captureDebt ==> s.leased)
  {
  }

  /** ... and reports. */
  lemma CapturingTells(s: State, a: Answers, c: CaptureAnswers)
    ensures s.reports <= Capturing(s, a, c).0.reports
  {
  }

  lemma CapturingCloses(s: State, a: Answers, c: CaptureAnswers)
    ensures var t := Capturing(s, a, c).0;
            if CaptureAttempted(s, a, c) && c.consumed
            then t.closed && t.closeErr == Removed(s, a).1 && (t.closeErr == {} ==> !t.temporary)
            else t.closed == s.closed && t.closeErr == s.closeErr && t.temporary == s.temporary
  {
  }

  lemma CapturingReports(s: State, a: Answers, c: CaptureAnswers)
    requires s.leased && CaptureAttempted(s, a, c) && c.consumed
    ensures Capturing(s, a, c).0.reports != []
  {
  }

  lemma CapturingKeeps(s: State, a: Answers, c: CaptureAnswers)
    requires Inv(s)
    ensures Inv(Capturing(s, a, c).0)
  {
    Appended(s.calls, CaptureCall(c.consumed), CloseCall);
    Appended(s.calls, CaptureCall(c.consumed), CaptureCall(true));
    CapturingCalls(s, a, c);
    CapturingLeaves(s, a, c);
    CapturingOwes(s, a, c);
    CapturingTells(s, a, c);
    CapturingCloses(s, a, c);
    if s.leased && CaptureAttempted(s, a, c) && c.consumed { CapturingReports(s, a, c); }
  }

  lemma RetryingKeeps(s: State, a: Answers, retried: Error)
    requires Inv(s)
    ensures Inv(Retrying(s, a, retried).0)
  {
    ClosingKeeps(s, a);
    Appended(s.calls, RetryCloseCall, CloseCall);
    Appended(s.calls, RetryCloseCall, CaptureCall(true));
  }

  lemma StepKeeps(s: State, op: Op)
    requires Inv(s)
    ensures Inv(Apply(s, op))
  {
    match op
    case Close(a) => ClosingKeeps(s, a);
    case Watch(a) => ClosingKeeps(s.(failure := Invalid(s, a)), a);
    case Snapshot(a, c) => CapturingKeeps(s, a, c);
    case Retry(a, retried) => RetryingKeeps(s, a, retried);
  }

  /** What no operation takes back. */
  predicate Latched(s: State, t: State) {
    && (s.closed ==> t.closed && t.closeErr == s.closeErr)
    && (s.failure != {} ==> t.failure == s.failure)
    && s.captureDebt <= t.captureDebt
    && s.reports <= t.reports
    && s.calls <= t.calls
    && (Consumed(s) ==> (CloseCall in t.calls <==> CloseCall in s.calls))
    && t.leased == s.leased && t.server == s.server
  }

  lemma ClosingLatches(s: State, a: Answers)
    requires Inv(s)
    ensures Latched(s, Closing(s, a))
  {
  }

  lemma CapturingLatches(s: State, a: Answers, c: CaptureAnswers)
    requires Inv(s)
    ensures Latched(s, Capturing(s, a, c).0)
  {
    Appended(s.calls, CaptureCall(c.consumed), CloseCall);
    CapturingCalls(s, a, c);
    CapturingLeaves(s, a, c);
    CapturingOwes(s, a, c);
    CapturingTells(s, a, c);
    CapturingCloses(s, a, c);
  }

  lemma RetryingLatches(s: State, a: Answers, retried: Error)
    requires Inv(s)
    ensures Latched(s, Retrying(s, a, retried).0)
  {
    ClosingLatches(s, a);
    Appended(s.calls, RetryCloseCall, CloseCall);
  }

  lemma StepLatches(s: State, op: Op)
    requires Inv(s)
    ensures Latched(s, Apply(s, op))
  {
    match op
    case Close(a) => ClosingLatches(s, a);
    case Watch(a) =>
      ClosingLatches(s.(failure := Invalid(s, a)), a);
      assert s.failure != {} ==> Invalid(s, a) == s.failure;
    case Snapshot(a, c) => CapturingLatches(s, a, c);
    case Retry(a, retried) => RetryingLatches(s, a, retried);
  }

  /** Over any sequence of closes, watch events, captures and Live retries: `closed`, `failure` and the stored
      close result never change once set; a consumed capture is never followed by a backend Close from
      Database.Close; and a closed database has reported to its lease. */
  lemma {:induction false} LifecycleLatches(s: State, ops: seq<Op>)
    requires Inv(s)
    ensures Inv(After(s, ops)) && Latched(s, After(s, ops))
    decreases |ops|
  {
    if ops != [] {
      var t := Apply(s, ops[0]);
      StepKeeps(s, ops[0]);
      StepLatches(s, ops[0]);
      LifecycleLatches(t, ops[1..]);
      LatchedComposes(s, t, After(s, ops));
    }
  }

  lemma LatchedComposes(s: State, t: State, u: State)
    requires Latched(s, t) && Latched(t, u)
    ensures Latched(s, u)
  {
    if Consumed(s) {
      assert CaptureCall(true) in s.calls;
      assert CaptureCall(true) in t.calls;
    }
  }

  lemma LifecycleFromStart(leased: bool, ops: seq<Op>)
    ensures var s := After(Started(leased), ops);
            && (s.closed && leased ==> s.reports != [])
            && (s.closed <==> CloseCall in s.calls || Consumed(s))
            && !(CloseCall in s.calls && Consumed(s))
            && (s.closed && s.closeErr == {} ==> !s.temporary)
  {
    LifecycleLatches(Started(leased), ops);
  }

  /** Remark: a capture that was refused before the backend accepted it changes nothing. */
  lemma RejectionChangesNothing(s: State, a: Answers, c: CaptureAnswers)
    ensures Capturing(s, a, c).1 == NotAttempted ==> Capturing(s, a, c).0 == s
    ensures (!c.consumed && Capturing(s, a, c).1.Failed? && !(c.backing && c.backingClose != {} && s.leased))
              ==> Capturing(s, a, c).0 == s.(calls := s.calls + [CaptureCall(false)])
  {
  }

  // ---------- what the operations answer ----------

  /** A capture is attempted: valid options, an open database with a backend that reports no failure, a live context. */
  predicate MayCapture(s: State, a: Answers, c: CaptureAnswers) {
    c.optionsOk && c.contextOk && s.server && !s.closed && s.failure == {} && a.failure == {}
  }

  /** What the removal of the temporary directory would leave, if it is there. */
  function RemovalError(s: State, a: Answers): Error { if s.temporary then a.removal else {} }

  /** The result of a capture, on the answers. A baseline iff it was attempted, the backend reported no error, a backing
      came back, and, if it was consumed, the directory is gone. Any other attempted capture fails with exactly the
      causes of the backend, of the removal and of the unused backing, or with the missing backing. */
  lemma CaptureResult(s: State, a: Answers, c: CaptureAnswers)
    ensures var r := Capturing(s, a, c).1;
            && (r == NotAttempted <==> !MayCapture(s, a, c))
            && (r == Baseline <==> MayCapture(s, a, c) && c.err == {} && c.backing
                                   && (c.consumed ==> RemovalError(s, a) == {}))
    ensures var r := Capturing(s, a, c).1;
            r.Failed? ==>
              forall x :: x in r.err <==>
                || x in c.err
                || (c.consumed && x in RemovalError(s, a))
                || (c.backing && x in c.backingClose)
                || (x == MISSING_BACKING && !c.backing && c.err == {} && (c.consumed ==> RemovalError(s, a) == {}))
    ensures Capturing(s, a, c).1 == Baseline && c.consumed ==> !Capturing(s, a, c).0.temporary
  {
  }

  /** The first close stores and returns exactly the causes of the backend, of the removal and of the capture debt; it
      is clean iff there are none; and then the directory is gone. */
  lemma FirstCloseResult(s: State, a: Answers)
    requires Inv(s) && !s.closed
    ensures var t := Closing(s, a);
            && t.closed
            && (forall x :: x in t.closeErr <==> x in a.close || x in RemovalError(s, a) || x in s.captureDebt)
            && (t.temporary <==> s.temporary && a.removal != {})
            && t.calls == s.calls + [CloseCall]
  {
  }

  /** A watch event on an open database is a close that also records the backend's failure; a retry on a closed one
      answers with its own causes, or with those of the owners it could not finish. */
  lemma RetryResult(s: State, a: Answers, retried: Error)
    requires Inv(s)
    ensures s.closed && retried != {} ==> Retrying(s, a, retried) == (s, retried)
    ensures s.closed && retried == {} ==>
              forall x :: x in Retrying(s, a, retried).1 <==>
                x in a.close || x in RemovalError(s, a) || x in s.captureDebt
    ensures s.closed && retried == {} ==>
              && Retrying(s, a, retried).0.calls == s.calls + [RetryCloseCall]
              && (Retrying(s, a, retried).0.temporary <==> s.temporary && a.removal != {})
    ensures !s.closed ==> Retrying(s, a, retried) == (Closing(s, a), Closing(s, a).closeErr)
    ensures !s.closed ==> Watching(s, a).closeErr == Closing(s, a).closeErr
    ensures !s.closed ==> Watching(s, a).failure == (if s.failure != {} then s.failure else a.failure)
    ensures s.closed ==> Watching(s, a) == s == Closing(s, a)
  {
  }

  /** Debt is recorded exactly when a failed capture of a leased database cannot close the backing it was given. */
  lemma DebtRecordedIff(s: State, a: Answers, c: CaptureAnswers)
    ensures var failed := MayCapture(s, a, c) && (c.err != {} || (c.consumed && RemovalError(s, a) != {}));
            Capturing(s, a, c).0.captureDebt
              == s.captureDebt + (if failed && c.backing && s.leased then c.backingClose else {})
    ensures MayCapture(s, a, c) ==> Capturing(s, a, c).0.closed == (s.closed || c.consumed)
  {
  }

  // ---------- what Err reports ----------

  lemma NoFailureRecorded(s: State, op: Op)
    requires s.failure == {} && op.a.failure == {}
    ensures Apply(s, op).failure == {}
  {
    match op
    case Close(a) => ClosingRecords(s, a);
    case Watch(a) => ClosingRecords(s, a);
    case Retry(a, _) => ClosingRecords(s, a);
    case Snapshot(a, c) => assert Capturing(s, a, c).0.failure == s.failure;
  }

  /** A close records the failure it finds, and nothing else. */
  lemma ClosingRecords(s: State, a: Answers)
    ensures Closing(s, a).failure == Invalid(s, a)
  {
  }

  /** Err is set by failures of the backend only: as long as it reports none, no close, watch event, capture or retry
      makes the database report one. */
  lemma {:induction false} CleanEndsAreNoFailure(s: State, ops: seq<Op>, a: Answers)
    requires s.failure == {} && a.failure == {}
    requires forall op | op in ops :: op.a.failure == {}
    ensures Invalid(After(s, ops), a) == {}
    decreases |ops|
  {
    if ops != [] {
      assert ops[0] in ops;
      assert forall op | op in ops[1..] :: op in ops;
      NoFailureRecorded(s, ops[0]);
      CleanEndsAreNoFailure(Apply(s, ops[0]), ops[1..], a);
    }
  }

  /** Once the database is closed or has recorded a failure, Err never changes, whatever the backend says later. */
  lemma ErrIsFinal(s: State, ops: seq<Op>, a: Answers, b: Answers)
    requires Inv(s) && (s.closed || s.failure != {})
    ensures Invalid(After(s, ops), a) == Invalid(s, b) == s.failure
  {
    LifecycleLatches(s, ops);
    if s.failure == {} { FailureOfClosed(s, ops); }
  }

  lemma {:induction false} FailureOfClosed(s: State, ops: seq<Op>)
    requires Inv(s) && s.closed
    ensures After(s, ops).failure == s.failure
    decreases |ops|
  {
    if ops != [] {
      StepKeeps(s, ops[0]);
      StepLatches(s, ops[0]);
      FailureOfClosed(Apply(s, ops[0]), ops[1..]);
    }
  }

  // ---------- capture debt ----------

  /** The reports an operation adds. */
  function NewReports(s: State, op: Op): seq<Report> {
    var t := Apply(s, op);
    if |s.reports| <= |t.reports| then t.reports[|s.reports|..] else []
  }

  /** A report that lets the slot go, now or later. */
  predicate LetsGo(r: Report) { r == Settled({}) || r.Tracked? }

  /** A capture that is consumed, returns a verified backing without any error, and removes the directory. */
  predicate CleanConsumption(s: State, op: Op) {
    && op.Snapshot?
    && CaptureAttempted(s, op.a, op.c)
    && op.c.consumed && op.c.backing && op.c.err == {}
    && Removed(s, op.a).1 == {}
  }

  /** With capture debt recorded, exactly one kind of operation still tells the lease that disposal is confirmed:
      a later capture that is consumed cleanly. Close, watch and every Live retry only ever repeat the debt. */
  lemma DebtLetsGoOnlyIf(s: State, op: Op)
    requires Inv(s) && s.captureDebt != {}
    ensures (exists r :: r in NewReports(s, op) && LetsGo(r)) <==> CleanConsumption(s, op)
  {
    var t := Apply(s, op);
    assert s.captureDebt <= t.captureDebt;
    if CleanConsumption(s, op) {
      assert t.reports == s.reports + [Settled({})];
      assert NewReports(s, op) == [Settled({})];
      assert Settled({}) in NewReports(s, op) && LetsGo(Settled({}));
    } else {
      forall r | r in NewReports(s, op)
        ensures !LetsGo(r)
      {
        ReportsNameDebt(s, op, r);
      }
    }
  }

  lemma ReportsNameDebt(s: State, op: Op, r: Report)
    requires Inv(s) && s.captureDebt != {} && !CleanConsumption(s, op) && r in NewReports(s, op)
    ensures r.Settled? && r.err != {}
  {
    var t := Apply(s, op);
    match op
    case Close(a) => assert t.reports == s.reports || t.reports == s.reports + [Settled(t.closeErr)];
    case Watch(a) => assert t.reports == s.reports || t.reports == s.reports + [Settled(t.closeErr)];
    case Retry(a, retried) =>
      assert t.reports == s.reports || t.reports == s.reports + [Settled(t.closeErr)]
          || t.reports == s.reports + [Settled(Retrying(s, a, retried).1)];
    case Snapshot(a, c) => SnapshotReports(s, a, c, r);
  }

  lemma SnapshotReports(s: State, a: Answers, c: CaptureAnswers, r: Report)
    requires Inv(s) && s.captureDebt != {} && !CleanConsumption(s, Snapshot(a, c))
    requires r in NewReports(s, Snapshot(a, c))
    ensures r.Settled? && r.err != {}
  {
    var t := Apply(s, Snapshot(a, c));
    var e := CaptureError(s, a, c);
    var cleanup: Error := if c.backing then c.backingClose else {};
    assert e != {} ==> e + cleanup != {};
    assert t.reports == s.reports
        || t.reports == s.reports + [Settled(cleanup)]
        || t.reports == s.reports + [Settled(cleanup)] + [Settled(e + cleanup)]
        || t.reports == s.reports + [Settled(e + cleanup)];
  }

  // ---------- without capture debt ----------

  /** The error with which a close, or a retry, ends. */
  function EndError(s: State, a: Answers): Error { a.close + Removed(s, a).1 }

  /** Enough to let the slot go: no error, an owner that will finish the cleanup, or a backend that is disposed of. */
  predicate Settles(err: Error, a: Answers) { err == {} || Pending(err, a.done) || a.disposed }

  /** Does the operation end the database, or try to once more? */
  predicate Ends(s: State, op: Op) {
    match op
    case Close(_) => !s.closed
    case Watch(_) => !s.closed
    case Retry(_, retried) => !s.closed || retried == {}
    case Snapshot(a, c) => CaptureAttempted(s, a, c) && c.consumed
  }

  /** A leased database without capture debt tells its lease to let go exactly when an operation ends it and either
      nothing is left to clean up, or what is left has an owner, or the backend confirms its disposal; a capture must
      also have closed the backing that it does not return. */
  lemma LetsGoIff(s: State, op: Op)
    requires Inv(s) && s.leased && s.captureDebt == {}
    ensures (exists r :: r in NewReports(s, op) && LetsGo(r)) <==>
              Ends(s, op) && (match op
                              case Snapshot(a, c) =>
                                && Settles(CaptureError(s, a, c), a)
                                && (CaptureError(s, a, c) != {} && c.backing ==> c.backingClose == {})
                              case _ => Settles(EndError(s, op.a), op.a))
  {
    if op.Snapshot? { CaptureLetsGoIff(s, op.a, op.c); } else { EndLetsGoIff(s, op); }
  }

  /** What one report says. */
  lemma OneReport(s: State, err: Error, a: Answers, confirmed: bool)
    requires s.leased && s.captureDebt == {}
    ensures var t := SettleFork(s, err, confirmed, a.done);
            && |t.reports| == |s.reports| + 1 && s.reports <= t.reports
            && (LetsGo(t.reports[|s.reports|]) <==> err == {} || Pending(err, a.done) || confirmed)
  {
  }

  lemma OnlyReport(s: State, op: Op)
    requires var t := Apply(s, op); |t.reports| == |s.reports| + 1 && s.reports <= t.reports
    ensures NewReports(s, op) == [Apply(s, op).reports[|s.reports|]]
  {
  }

  lemma EndLetsGoIff(s: State, op: Op)
    requires Inv(s) && s.leased && s.captureDebt == {} && !op.Snapshot?
    ensures (exists r :: r in NewReports(s, op) && LetsGo(r)) <==> Ends(s, op) && Settles(EndError(s, op.a), op.a)
  {
    if Ends(s, op) {
      OneReport(s, EndError(s, op.a), op.a, op.a.disposed);
      EndReports(s, op);
      OnlyReport(s, op);
      assert Apply(s, op).reports[|s.reports|] in NewReports(s, op);
    } else {
      assert Apply(s, op).reports == s.reports;
      assert NewReports(s, op) == [];
    }
  }

  lemma EndReports(s: State, op: Op)
    requires Inv(s) && s.leased && s.captureDebt == {} && !op.Snapshot? && Ends(s, op)
    ensures Apply(s, op).reports == SettleFork(s, EndError(s, op.a), op.a.disposed, op.a.done).reports
  {
    match op
    case Close(a) => ClosingReports(s, a);
    case Watch(a) => ClosingReports(s.(failure := Invalid(s, a)), a);
    case Retry(a, retried) =>
      if s.closed {
        assert EndError(s, a) + {} == EndError(s, a);
      } else {
        ClosingReports(s, a);
      }
  }

  lemma ClosingReports(s: State, a: Answers)
    requires s.server && s.leased && s.captureDebt == {} && !s.closed
    ensures Closing(s, a).reports == SettleFork(s, EndError(s, a), a.disposed, a.done).reports
  {
    assert EndError(s, a) + {} == EndError(s, a);
  }

  lemma CaptureReports(s: State, a: Answers, c: CaptureAnswers)
    requires Inv(s) && s.leased && s.captureDebt == {} && CaptureAttempted(s, a, c) && c.consumed
    requires CaptureError(s, a, c) != {} && c.backing ==> c.backingClose == {}
    ensures Apply(s, Snapshot(a, c)).reports == SettleFork(s, CaptureError(s, a, c), a.disposed, a.done).reports
  {
    assert CaptureError(s, a, c) + {} == CaptureError(s, a, c);
  }

  lemma CaptureLetsGoIff(s: State, a: Answers, c: CaptureAnswers)
    requires Inv(s) && s.leased && s.captureDebt == {}
    ensures (exists r :: r in NewReports(s, Snapshot(a, c)) && LetsGo(r)) <==>
              && CaptureAttempted(s, a, c) && c.consumed
              && Settles(CaptureError(s, a, c), a)
              && (CaptureError(s, a, c) != {} && c.backing ==> c.backingClose == {})
  {
    var op := Snapshot(a, c);
    var e := CaptureError(s, a, c);
    if !CaptureAttempted(s, a, c) || (!c.consumed && (e == {} || !c.backing || c.backingClose == {})) {
      assert Apply(s, op).reports == s.reports;
      assert NewReports(s, op) == [];
    } else if e != {} && c.backing && c.backingClose != {} {
      assert Apply(s, op).reports == s.reports + [Settled(c.backingClose)]
          || Apply(s, op).reports == s.reports + [Settled(c.backingClose)] + [Settled(e + c.backingClose)];
      assert e + c.backingClose != {};
    } else {
      OneReport(s, e, a, a.disposed);
      CaptureReports(s, a, c);
      OnlyReport(s, op);
      assert Apply(s, op).reports[|s.reports|] in NewReports(s, op);
    }
  }

  // ---------- capture debt is permanent ----------

  /** The host's captures: a backing is only returned by a capture that was consumed. */
  predicate HostLike(op: Op) { op.Snapshot? ==> (op.c.backing ==> op.c.consumed) }

  /** With such a backend a database that has capture debt is always closed. */
  lemma HostDebtImpliesClosed(s: State, op: Op)
    requires Inv(s) && HostLike(op) && (s.captureDebt != {} ==> s.closed)
    ensures Apply(s, op).captureDebt != {} ==> Apply(s, op).closed
  {
  }

  lemma {:induction false} HostRuns(s: State, ops: seq<Op>)
    requires Inv(s) && (s.captureDebt != {} ==> s.closed)
    requires forall i | 0 <= i < |ops| :: HostLike(ops[i])
    ensures After(s, ops).captureDebt != {} ==> After(s, ops).closed
    decreases |ops|
  {
    if ops != [] {
      StepKeeps(s, ops[0]);
      HostDebtImpliesClosed(s, ops[0]);
      HostRuns(Apply(s, ops[0]), ops[1..]);
    }
  }

  /** Capture debt is permanent, with any backend: once it is recorded, and after any operations at all, no Close,
      watch or Live retry settles the lease cleanly or tracks it, and disposal is never complete. */
  lemma CaptureDebtIsPermanent(s: State, ops: seq<Op>, op: Op, a: Answers)
    requires Inv(s) && s.captureDebt != {}
    ensures !op.Snapshot? ==> forall r | r in NewReports(After(s, ops), op) :: !LetsGo(r)
    ensures !DisposalComplete(After(s, ops), a)
  {
    LifecycleLatches(s, ops);
    DebtLetsGoOnlyIf(After(s, ops), op);
  }

  /** Some continuation makes an operation let the slot go. */
  ghost predicate CanLetGo(s: State) {
    exists ops, op, r :: r in NewReports(After(s, ops), op) && LetsGo(r)
  }

  const CLEAN_CAPTURE: Op :=
    Snapshot(Answers({}, {}, {}, false, {}), CaptureAnswers(true, true, true, true, {}, {}))

  /** What a caller can check beforehand: the debt can still be forgotten iff the database is open and has recorded no
      failure, that is, iff a capture can still be attempted. */
  lemma DebtCanGoIff(s: State)
    requires Inv(s) && s.captureDebt != {}
    ensures CanLetGo(s) <==> !s.closed && s.failure == {}
  {
    if !s.closed && s.failure == {} {
      assert CleanConsumption(s, CLEAN_CAPTURE);
      DebtLetsGoOnlyIf(s, CLEAN_CAPTURE);
      var r :| r in NewReports(s, CLEAN_CAPTURE) && LetsGo(r);
      assert r in NewReports(After(s, []), CLEAN_CAPTURE);
    } else {
      forall ops, op, r | r in NewReports(After(s, ops), op)
        ensures !LetsGo(r)
      {
        LifecycleLatches(s, ops);
        DebtLetsGoOnlyIf(After(s, ops), op);
      }
    }
  }

  /** With the host's backend not even a later capture lets go: the debt is only recorded by a consumed capture, so
      the database is closed. */
  lemma HostNeverForgets(leased: bool, before: seq<Op>)
    requires forall i | 0 <= i < |before| :: HostLike(before[i])
    requires After(Started(leased), before).captureDebt != {}
    ensures After(Started(leased), before).closed && !CanLetGo(After(Started(leased), before))
  {
    LifecycleLatches(Started(leased), before);
    HostRuns(Started(leased), before);
    DebtCanGoIff(After(Started(leased), before));
  }

  const CALM := Answers({}, {}, {}, false, {})

  /** A backend free of that restriction forgets: a first capture fails unconsumed and its backing does
      not close, a second one succeeds, and the lease is told that disposal is confirmed. */
  lemma DebtCanBeForgotten()
    ensures var first := Snapshot(CALM, CaptureAnswers(true, true, false, true, {Plain(1)}, {Plain(2)}));
            var second := Snapshot(CALM, CaptureAnswers(true, true, true, true, {}, {}));
            var s := After(Started(true), [first]);
            var t := After(Started(true), [first, second]);
            && s.captureDebt == {Plain(2)}
            && t.captureDebt == {Plain(2)}
            && t.reports == [Settled({Plain(2)}), Settled({})]
  {
    var first := Snapshot(CALM, CaptureAnswers(true, true, false, true, {Plain(1)}, {Plain(2)}));
    var second := Snapshot(CALM, CaptureAnswers(true, true, true, true, {}, {}));
    var s := Apply(Started(true), first);
    assert s.captureDebt == {Plain(2)} && s.reports == [Settled({Plain(2)})];
    var t := Apply(s, second);
    assert t.reports == s.reports + [Settled({})];
    assert [first, second][1..] == [second];
    assert After(s, [second]) == After(t, []);
    assert After(Started(true), [first]) == After(s, []);
  }
}
