/** Shared vocabulary of the three Android tunnel lifecycles. A thread, a
    latch and a join are not modelled as such: the worker's position in its
    code is a `WorkerPhase`, and each start, callback, worker step and stop
    is one atomic method call. */
module Lifecycle {
  import opened PsiphonStates

  /** Where the tunnel worker thread is. `NoWorker`: `tunnelThread` is null.
      `Spawned`: the thread exists and has not run yet. `Tunneling`: inside
      the engine's `startTunneling`. `AwaitingStop`: `startTunneling`
      returned and the worker blocks on the latch. `Terminated`: the worker
      has finished but `tunnelThread` still refers to it. */
  datatype WorkerPhase = NoWorker | Spawned | Tunneling | AwaitingStop | Terminated

  /** What the lifecycle does outside the state relay, in order:
      `psiphonTunnel.stop()`, an emitted "PsiphonError" event, an exception
      that escapes the worker thread, and the two outcomes of a start-result
      callback. */
  datatype Effect = EngineStop | ErrorEvent | UncaughtFailure | StartSucceeded | StartFailed

  /** The relay values the join of a stop adds in `PsiphonNativeModule` and
      the app's `PsiphonHelper`, whose workers publish nothing on a failed
      start: a worker that had not run yet first publishes CONNECTING. */
  function WorkerStates(w: WorkerPhase): (s: seq<PsiphonState>)
    ensures Connecting in s <==> w == Spawned
    ensures Stopped !in s && |s| <= 1
  {
    if w == Spawned then [Connecting] else []
  }
}
