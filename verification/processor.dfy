/** `Processor`: the fetch-then-dispatch loop of one worker. The loop runs
    over a finite script: for each iteration, whether `done` had been set
    before the loop test, what `retriveWork()` returned, and what the router's
    `dispatch` returned if it was called. */
module Processor {
  import opened Wrappers
  import opened Jobs

  /** What one call of the fetcher returned. */
  datatype Fetched = Got(work: UnitOfWork) | Nothing | FetchFailed(error: Error)

  /** One iteration's worth of environment. */
  datatype Tick = Tick(done: bool, fetched: Fetched, dispatched: Result<(), Error>)

  /** A call of `router.dispatch(processorId:work:)`. */
  datatype Dispatch = Dispatch(processorId: int, work: UnitOfWork)

  /** The outcome of `processOne()`: the dispatch calls it made and the error
      it threw, if any. */
  datatype Step = Step(calls: seq<Dispatch>, error: Option<Error>)

  /** `process(_:)`: dispatch the work under this processor's own id. */
  function Process(processorId: int, work: UnitOfWork, dispatched: Result<(), Error>): (r: Step)
    ensures r.calls == [Dispatch(processorId, work)]
    ensures r.error.Some? <==> dispatched.Failure?
    ensures r.error.Some? ==> r.error.value == dispatched.error
  {
    Step([Dispatch(processorId, work)], if dispatched.Failure? then Some(dispatched.error) else None)
  }

  /** `processOne()`: fetch; dispatch only when work came back. */
  function ProcessOne(processorId: int, t: Tick): (r: Step)
    ensures |r.calls| == (if t.fetched.Got? then 1 else 0)
    ensures t.fetched.Got? ==> r == Process(processorId, t.fetched.work, t.dispatched)
    ensures t.fetched.FetchFailed? ==> r == Step([], Some(t.fetched.error))
    ensures t.fetched.Nothing? ==> r.error.None?
  {
    match t.fetched
    case Got(work) => Process(processorId, work, t.dispatched)
    case Nothing => Step([], None)
    case FetchFailed(e) => Step([], Some(e))
  }

  /** How `run()` left its loop. */
  datatype Exit =
    | Quit               // the loop test saw `done`
    | ShutdownCaught     // the shutdown control error was caught
    | ErrorCaught(error: Error) // any other error was caught
    | StillRunning       // the script ended with the loop still going

  datatype Run = Run(calls: seq<Dispatch>, exit: Exit, iterations: nat)

  /** The error an iteration throws, if any. */
  function ErrorOf(processorId: int, t: Tick): (r: Option<Error>) {
    ProcessOne(processorId, t).error
  }

  /** `run()`: while `done` is false, `processOne()`; either kind of error
      ends the loop and is caught, so `run` itself never throws. */
  function RunLoop(processorId: int, script: seq<Tick>): (r: Run)
    ensures r.iterations <= |script|
    ensures forall k :: 0 <= k < r.iterations ==> !script[k].done
    ensures forall k :: 0 <= k < r.iterations - 1 ==> ErrorOf(processorId, script[k]).None?
    ensures r.exit == Quit <==>
      && r.iterations < |script| && script[r.iterations].done
      && (r.iterations == 0 || ErrorOf(processorId, script[r.iterations - 1]).None?)
    ensures r.exit == StillRunning ==> r.iterations == |script|
    ensures r.exit == ShutdownCaught <==>
      r.iterations > 0 && ErrorOf(processorId, script[r.iterations - 1]) == Some(Shutdown)
    ensures r.exit.ErrorCaught? <==>
      r.iterations > 0 && ErrorOf(processorId, script[r.iterations - 1]).Some?
      && ErrorOf(processorId, script[r.iterations - 1]) != Some(Shutdown)
    ensures r.exit.ErrorCaught? ==> Some(r.exit.error) == ErrorOf(processorId, script[r.iterations - 1])
    decreases |script|
  {
    if |script| == 0 then Run([], StillRunning, 0)
    else if script[0].done then Run([], Quit, 0)
    else
      var step := ProcessOne(processorId, script[0]);
      match step.error
      case Some(e) =>
        if e == Shutdown then Run(step.calls, ShutdownCaught, 1) else Run(step.calls, ErrorCaught(e), 1)
      case None =>
        var rest := RunLoop(processorId, script[1..]);
        Run(step.calls + rest.calls, rest.exit, rest.iterations + 1)
  }

  /** Reference definition: the dispatch calls made for a sequence of
      iterations, taken one iteration at a time. */
  function Fetches(processorId: int, ticks: seq<Tick>): (r: seq<Dispatch>) {
    if |ticks| == 0 then []
    else
      (if ticks[0].fetched.Got? then [Dispatch(processorId, ticks[0].fetched.work)] else [])
      + Fetches(processorId, ticks[1..])
  }

  /** Works are dispatched strictly one at a time, in fetch order, each
      under the processor's own id: exactly the works fetched by the
      iterations the loop ran. */
  lemma {:induction false} RunDispatchesFetchedWork(processorId: int, script: seq<Tick>)
    ensures var r := RunLoop(processorId, script);
      r.calls == Fetches(processorId, script[..r.iterations])
    decreases |script|
  {
    var r := RunLoop(processorId, script);
    if |script| > 0 && !script[0].done {
      if ProcessOne(processorId, script[0]).error.None? {
        RunDispatchesFetchedWork(processorId, script[1..]);
        assert script[..r.iterations][1..] == script[1..][..r.iterations - 1];
      } else {
        assert script[..r.iterations][1..] == [];
      }
    }
  }

  /** If `done` is already set, `run` fetches and dispatches nothing. */
  lemma DoneRunsNothing(processorId: int, script: seq<Tick>)
    requires |script| > 0 && script[0].done
    ensures RunLoop(processorId, script) == Run([], Quit, 0)
  {
  }
}
