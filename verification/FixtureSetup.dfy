/** newFixture of mariamemtest/fixture.go: prepare a source database once, capture it, and leave nothing open. */
module FixtureSetup {

  /** A joined error is the set of its causes; the empty set is no error. */
  type Error = set<nat>

  datatype Event =
    | Start | OpenPool | Ping | Prepare | ClosePool | Drain | Capture | CloseSource | CloseBaseline

  datatype Stage = Options | Starting | Preparing | Disconnecting | Capturing

  datatype Callback = Absent | Returns(err: Error) | Panics

  /** Start answers a database, or an error that may come with a database to dispose. */
  datatype StartAnswer = Started | NotStarted(source: bool, err: Error)

  /** What every call would answer. `opens` and `captured`: a pool, a baseline came back, with or without an error. */
  datatype Answers = Answers(
    start: StartAnswer,
    opens: bool, open: Error,
    ping: Error, prepare: Callback, poolClose: Error,
    drain: Error,
    captured: bool, capture: Error,
    sourceClose: Error, baselineClose: Error)

  datatype Outcome =
    | Ready(permits: nat)
    | Failed(stage: Stage, cause: Error, cleanup: Error)
    | Panicked

  const MAX_FORKS: int := 2147483647

  predicate ValidOptions(maxForks: int, timeout: int) { 0 <= maxForks <= MAX_FORKS && timeout >= 0 }

  predicate StartAnswerOk(a: StartAnswer) { a.NotStarted? ==> a.err != {} }

  // ---------- the promise ----------

  /** The user's callback is called at all. */
  predicate CallsBack(a: Answers) { a.start.Started? && a.opens && a.open == {} && a.ping == {} }

  predicate PanicsInside(a: Answers) { CallsBack(a) && a.prepare.Panics? }

  /** What the preparation as a whole answers. */
  function PrepareError(a: Answers): Error {
    if a.open != {} then a.open
    else if !a.opens then {}
    else if a.ping != {} then a.ping
    else if a.prepare.Returns? then a.prepare.err
    else {}
  }

  /** The stages in order, each with its error; the first error stops the setup. */
  function Ladder(a: Answers): seq<(Stage, Error)> {
    [(Preparing, PrepareError(a)), (Disconnecting, a.drain), (Capturing, a.capture)]
  }

  function FirstFailure(ladder: seq<(Stage, Error)>): (Stage, Error)
    requires ladder != []
  {
    if ladder[0].1 != {} || |ladder| == 1 then ladder[0] else FirstFailure(ladder[1..])
  }

  /** Everything that has an error to report has none. */
  predicate AllWell(a: Answers) {
    && a.start.Started?
    && (forall rung | rung in Ladder(a) :: rung.1 == {})
    && (a.opens ==> a.poolClose == {})
    && a.sourceClose == {}
  }

  /** The same, call by call. */
  predicate EveryCallSucceeded(a: Answers) {
    && a.start.Started? && a.open == {}
    && (a.opens ==> a.ping == {} && a.poolClose == {} && (a.prepare.Returns? ==> a.prepare.err == {}))
    && a.drain == {} && a.capture == {} && a.sourceClose == {}
  }

  predicate HasSource(a: Answers) { a.start.Started? || a.start.source }

  // ---------- what the environment sees ----------

  /** The calls made so far; `misused` once one of them came at a moment its owner forbids. */
  datatype World = World(
    started: bool, pooled: bool, callbacks: nat, drained: bool, captures: nat,
    poolCloses: nat, sourceCloses: nat, baselineCloses: nat, misused: bool)

  const UNTOUCHED := World(false, false, 0, false, 0, 0, 0, 0, false)

  /** The callback and its ping meet an open pool on an open source; a capture sees a source that is still open, a
      pool that is closed, and connections that have drained; the source is closed once. */
  predicate Misuse(a: Answers, w: World, e: Event) {
    match e
    case Start => w.started
    case Ping | Prepare => !w.pooled || w.poolCloses > 0 || w.sourceCloses > 0
    case Drain | Capture =>
      || PrepareError(a) != {} || w.sourceCloses > 0
      || (a.opens && w.poolCloses == 0)
      || (e == Capture && (!w.drained || a.drain != {}))
    case CloseSource => !w.started || w.sourceCloses > 0
    case CloseBaseline => w.captures == 0 || !a.captured || w.baselineCloses > 0
    case _ => !w.started
  }

  function Seen(a: Answers, w: World, e: Event): World {
    var u := w.(misused := w.misused || Misuse(a, w, e));
    match e
    case Start => u.(started := true)
    case OpenPool => u.(pooled := true)
    case Ping => u
    case Prepare => u.(callbacks := w.callbacks + 1)
    case ClosePool => u.(poolCloses := w.poolCloses + 1)
    case Drain => u.(drained := true)
    case Capture => u.(captures := w.captures + 1)
    case CloseSource => u.(sourceCloses := w.sourceCloses + 1)
    case CloseBaseline => u.(baselineCloses := w.baselineCloses + 1)
  }

  /** Whatever was opened is closed, on every way out, a panic included: the source exactly once; the pool at least
      once; a baseline that came back exactly once unless it is handed to the caller. */
  predicate NothingLeftOpen(a: Answers, w: World, r: Outcome) {
    && w.sourceCloses == (if w.started && HasSource(a) then 1 else 0)
    && (w.poolCloses > 0 <==> w.pooled && a.opens)
    && w.baselineCloses == (if w.captures > 0 && a.captured && !r.Ready? then 1 else 0)
  }

  lemma LadderStops(a: Answers)
    ensures FirstFailure(Ladder(a))
         == if PrepareError(a) != {} then (Preparing, PrepareError(a))
            else if a.drain != {} then (Disconnecting, a.drain)
            else (Capturing, a.capture)
    ensures (forall rung | rung in Ladder(a) :: rung.1 == {})
       <==> PrepareError(a) == {} && a.drain == {} && a.capture == {}
  {
    assert Ladder(a)[0].1 == PrepareError(a) && Ladder(a)[1].1 == a.drain && Ladder(a)[2].1 == a.capture;
    var drain, capture := (Disconnecting, a.drain), (Capturing, a.capture);
    assert Ladder(a)[1..] == [drain, capture];
    assert [drain, capture][1..] == [capture];
    assert FirstFailure([drain, capture]) == if a.drain != {} then drain else capture;
  }

  lemma WellIsSuccess(a: Answers)
    requires !PanicsInside(a)
    ensures AllWell(a) <==> EveryCallSucceeded(a)
  {
    LadderStops(a);
  }

  // ---------- the operation ----------

  function PoolDone(a: Answers): World {
    World(true, true, Callbacks(a), false, 0, if a.opens then 1 else 0, 0, 0, false)
  }

  function Callbacks(a: Answers): nat { if CallsBack(a) && !a.prepare.Absent? then 1 else 0 }

  /** What newFixture does with the pool. `over`: it returns, or panics, here. */
  method UsePool(a: Answers) returns (failure: Error, over: bool, r: Outcome, w: World)
    requires a.start.Started?
    ensures w.callbacks == Callbacks(a)
    ensures over <==> PanicsInside(a) || (a.opens && a.poolClose != {})
    ensures !over ==> failure == PrepareError(a) && w == PoolDone(a)
    ensures over ==> !w.misused && NothingLeftOpen(a, w, r) && w.started
    ensures over ==>
              r == if PanicsInside(a) then Panicked
                   else Failed(Preparing, PrepareError(a), a.poolClose + a.sourceClose)
  {
    w, over, r := Seen(a, Seen(a, UNTOUCHED, Start), OpenPool), false, Panicked;
    failure := a.open;
    if a.opens {
      if failure == {} {
        w := Seen(a, w, Ping);
        failure := a.ping;
      }
      if failure == {} && !a.prepare.Absent? {
        w := Seen(a, w, Prepare);
        if a.prepare.Panics? {
          // The deferred calls, last deferred first.
          w := Seen(a, Seen(a, w, ClosePool), CloseSource);
          return {}, true, Panicked, w;
        }
        failure := a.prepare.err;
      }
      w := Seen(a, w, ClosePool);
      if a.poolClose != {} {
        w := Seen(a, Seen(a, w, CloseSource), ClosePool);
        return failure, true, Failed(Preparing, failure, a.poolClose + a.sourceClose), w;
      }
    }
  }

  method NewFixture(maxForks: int, timeout: int, a: Answers) returns (r: Outcome, w: World)
    requires StartAnswerOk(a.start)
    ensures !ValidOptions(maxForks, timeout) <==> w == UNTOUCHED
    ensures w == UNTOUCHED ==> r == Failed(Options, {0}, {})
    ensures w.started ==> (r.Ready? <==> AllWell(a) && !PanicsInside(a))
    ensures w.started ==> (r.Panicked? <==> PanicsInside(a))
    ensures w.started && !r.Panicked? ==> (r.Ready? <==> EveryCallSucceeded(a))
    ensures r.Failed? && CallsBack(a) && a.prepare.Returns? && a.prepare.err != {} && w.started ==>
              r.stage == Preparing && r.cause == a.prepare.err
    ensures r.Ready? ==> w.captures == 1
    ensures r.Ready? ==> r.permits == (if maxForks == 0 then 2 else maxForks) && 0 < r.permits <= MAX_FORKS
    ensures w.started && a.start.NotStarted? ==>
              r == Failed(Starting, a.start.err, if a.start.source then a.sourceClose else {})
    ensures r.Failed? && w.started && a.start.Started? ==>
              if a.opens && a.poolClose != {}
              then r == Failed(Preparing, PrepareError(a), a.poolClose + a.sourceClose)
              else && (r.stage, r.cause) == FirstFailure(Ladder(a))
                   && r.cleanup == a.sourceClose + (if w.baselineCloses > 0 then a.baselineClose else {})
    ensures NothingLeftOpen(a, w, r)
    ensures !w.misused
    ensures w.started ==> w.callbacks == Callbacks(a)
  {
    if !PanicsInside(a) { WellIsSuccess(a); }
    w := UNTOUCHED;
    if !ValidOptions(maxForks, timeout) { return Failed(Options, {0}, {}), w; }
    var permits: nat := if maxForks == 0 then 2 else maxForks;
    if a.start.NotStarted? {
      w := Seen(a, UNTOUCHED, Start);
      var cleanup: Error := {};
      if a.start.source {
        w := Seen(a, w, CloseSource);
        cleanup := a.sourceClose;
      }
      return Failed(Starting, a.start.err, cleanup), w;
    }
    var failure, over;
    failure, over, r, w := UsePool(a);
    if over { return; }
    r, w := CaptureBaseline(a, permits, failure);
    LadderStops(a);
  }

  /** What newFixture does once the pool is closed without an error. */
  method CaptureBaseline(a: Answers, permits: nat, prepared: Error) returns (r: Outcome, w: World)
    requires a.start.Started? && prepared == PrepareError(a) && !PanicsInside(a) && (a.opens ==> a.poolClose == {})
    ensures r.Ready? <==> AllWell(a)
    ensures r.Ready? ==> r.permits == permits && w.captures == 1
    ensures !r.Ready? ==>
              && r.Failed? && (r.stage, r.cause) == FirstFailure(Ladder(a))
              && r.cleanup == a.sourceClose + (if w.baselineCloses > 0 then a.baselineClose else {})
    ensures NothingLeftOpen(a, w, r) && w.started && !w.misused && w.callbacks == Callbacks(a)
  {
    var failure := prepared;
    w := PoolDone(a);
    LadderStops(a);
    var stage := Preparing;
    if failure == {} {
      w, stage, failure := Seen(a, w, Drain), Disconnecting, a.drain;
    }
    var captured := false;
    if failure == {} {
      w, stage, failure, captured := Seen(a, w, Capture), Capturing, a.capture, a.captured;
    }
    w := Seen(a, w, CloseSource);
    r := Ready(permits);
    if failure != {} || a.sourceClose != {} {
      var cleanup := a.sourceClose;
      if captured {
        w := Seen(a, w, CloseBaseline);
        cleanup := cleanup + a.baselineClose;
      }
      r := Failed(stage, failure, cleanup);
    }
    if a.opens {
      // The pool's deferred second Close.
      w := Seen(a, w, ClosePool);
    }
  }
}
