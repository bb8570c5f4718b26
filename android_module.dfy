/** The React Native module that owns the tunnel directly
    (com/psiphonreactnativetestapp/PsiphonNativeModule.java): engine
    callbacks, `startPsiphon`/`stopPsiphon`, the worker `runPsiphonTunnel`, and
    `fetch`. An engine failure is reported as an error event only: the
    thread reference stays set and no STOPPED is published. */
module ReactNativeModule {
  import opened Wrappers
  import opened PsiphonStates
  import opened ConnectionStore
  import opened Lifecycle
  import opened ProxyRouting
  import opened RequestRules

  /** The effects of the rest of the worker once the latch is released:
      a failing `startTunneling` emits an error event; `finally` always stops
      the engine. */
  function JoinEffects(w: WorkerPhase, startFails: bool): (e: seq<Effect>)
    ensures EngineStop in e <==> w == Spawned || w == Tunneling || w == AwaitingStop
    ensures ErrorEvent in e <==> (w == Spawned || w == Tunneling) && startFails
    ensures e != [] ==> e[|e| - 1] == EngineStop
    ensures UncaughtFailure !in e && StartSucceeded !in e && StartFailed !in e
  {
    match w
    case Spawned => if startFails then [ErrorEvent, EngineStop] else [EngineStop]
    case Tunneling => if startFails then [ErrorEvent, EngineStop] else [EngineStop]
    case AwaitingStop => [EngineStop]
    case _ => []
  }

  class PsiphonNativeModule {
    var socksProxyPort: int
    var httpProxyPort: int
    var isPsiphonStopping: bool
    /** `tunnelCountDownLatch != null` */
    var hasLatch: bool
    /** `tunnelThread != null` */
    var hasThread: bool
    var worker: WorkerPhase
    const relay: StateRelay
    ghost var effects: seq<Effect>

    /** The thread reference and the latch are set and cleared together; a
        running worker has cleared the stopping flag, a finished one has set
        it. */
    ghost predicate Valid()
      reads this, relay
    {
      && relay.Valid()
      && hasThread == (worker != NoWorker)
      && hasLatch == hasThread
      && (worker == Tunneling || worker == AwaitingStop ==> !isPsiphonStopping)
      && (worker == Terminated ==> isPsiphonStopping)
    }

    /** Both ports start at -1 and the relay at STOPPED. */
    constructor ()
      ensures Valid() && fresh(relay)
      ensures relay.log == [Stopped] && relay.value == Stopped
      ensures socksProxyPort == -1 && httpProxyPort == -1
      ensures !isPsiphonStopping && !hasThread && worker == NoWorker && effects == []
    {
      socksProxyPort := -1;
      httpProxyPort := -1;
      isPsiphonStopping := false;
      hasLatch := false;
      hasThread := false;
      worker := NoWorker;
      relay := new StateRelay.CreateDefault(Stopped);
      effects := [];
    }

    method OnListeningHttpProxyPort(port: int)
      modifies this`httpProxyPort
      ensures httpProxyPort == port
    {
      httpProxyPort := port;
    }

    method OnListeningSocksProxyPort(port: int)
      modifies this`socksProxyPort
      ensures socksProxyPort == port
    {
      socksProxyPort := port;
    }

    method OnConnected()
      requires Valid()
      modifies relay
      ensures Valid() && relay.log == old(relay.log) + [Connected]
    {
      relay.Accept(Connected);
    }

    /** CONNECTING is not published while a stop is under way. */
    method OnConnecting()
      requires Valid()
      modifies relay
      ensures Valid()
      ensures relay.log == old(relay.log) + (if isPsiphonStopping then [] else [Connecting])
    {
      if !isPsiphonStopping {
        relay.Accept(Connecting);
      }
    }

    method OnStartedWaitingForNetworkConnectivity()
      requires Valid()
      modifies relay
      ensures Valid() && relay.log == old(relay.log) + [WaitingForNetwork]
    {
      relay.Accept(WaitingForNetwork);
    }

    /** A no-op while a thread exists; otherwise one new latch and one new
        thread. Nothing is published. */
    method StartPsiphon()
      requires Valid()
      modifies this`hasThread, this`hasLatch, this`worker
      ensures Valid()
      ensures old(hasThread) ==> worker == old(worker) && hasThread && hasLatch
      ensures !old(hasThread) ==> worker == Spawned && hasThread && hasLatch
    {
      if hasThread {
        return;
      }
      hasLatch := true;
      hasThread := true;
      worker := Spawned;
    }

    /** The worker's first step: clear the stopping flag, publish CONNECTING,
        enter `startTunneling`. */
    method RunPsiphonTunnel()
      requires Valid() && worker == Spawned
      modifies this`isPsiphonStopping, this`worker, relay
      ensures Valid() && worker == Tunneling && !isPsiphonStopping
      ensures relay.log == old(relay.log) + [Connecting]
    {
      isPsiphonStopping := false;
      relay.Accept(Connecting);
      worker := Tunneling;
    }

    /** `startTunneling` returned: the worker blocks on the latch. */
    method TunnelingStarted()
      requires Valid() && worker == Tunneling
      modifies this`worker
      ensures Valid() && worker == AwaitingStop
    {
      worker := AwaitingStop;
    }

    /** `startTunneling` threw: an error event, then `finally` sets the
        stopping flag and stops the engine. The thread reference stays set
        and nothing is published. */
    method TunnelingFailed()
      requires Valid() && worker == Tunneling
      modifies this`worker, this`isPsiphonStopping, this`effects
      ensures Valid() && worker == Terminated && isPsiphonStopping && hasThread
      ensures effects == old(effects) + [ErrorEvent, EngineStop]
    {
      effects := effects + [ErrorEvent];
      isPsiphonStopping := true;
      effects := effects + [EngineStop];
      worker := Terminated;
    }

    /** The latch was released: `await` returns and `finally` runs. */
    method AwaitReturns()
      requires Valid() && worker == AwaitingStop
      modifies this`worker, this`isPsiphonStopping, this`effects
      ensures Valid() && worker == Terminated && isPsiphonStopping
      ensures effects == old(effects) + [EngineStop]
    {
      isPsiphonStopping := true;
      effects := effects + [EngineStop];
      worker := Terminated;
    }

    /** `tunnelThread.join()` once the latch is released: whatever the
        worker still had to do runs to its end. `startFails` is the outcome
        of a `startTunneling` call that has not returned yet. */
    method JoinWorker(startFails: bool)
      requires Valid() && hasThread
      modifies this`worker, this`isPsiphonStopping, this`effects, relay
      ensures Valid() && worker == Terminated && isPsiphonStopping
      ensures relay.log == old(relay.log) + WorkerStates(old(worker))
      ensures effects == old(effects) + JoinEffects(old(worker), startFails)
    {
      if worker == Spawned {
        RunPsiphonTunnel();
      }
      if worker == Tunneling {
        if startFails {
          TunnelingFailed();
        } else {
          TunnelingStarted();
        }
      }
      if worker == AwaitingStop {
        AwaitReturns();
      }
    }

    /** Release the latch, join the worker, then clear the thread and the
        latch and publish STOPPED. The thread must exist: it is joined
        without a null check. */
    method StopPsiphonTunnelThread(startFails: bool)
      requires Valid() && hasThread
      modifies this, relay
      ensures Valid()
      ensures relay.log == old(relay.log) + WorkerStates(old(worker)) + [Stopped]
      ensures !hasThread && !hasLatch && worker == NoWorker && isPsiphonStopping
      ensures effects == old(effects) + JoinEffects(old(worker), startFails)
      ensures httpProxyPort == old(httpProxyPort) && socksProxyPort == old(socksProxyPort)
    {
      JoinWorker(startFails);
      hasThread := false;
      hasLatch := false;
      worker := NoWorker;
      relay.Accept(Stopped);
    }

    /** A no-op without a thread. Otherwise STOPPING is published first and
        STOPPED last, and the thread and latch are gone when it returns. */
    method StopPsiphon(startFails: bool)
      requires Valid()
      modifies this, relay
      ensures Valid()
      ensures !old(hasThread) ==> unchanged(this) && relay.log == old(relay.log)
      ensures old(hasThread) ==>
                relay.log == old(relay.log) + [Stopping] + WorkerStates(old(worker)) + [Stopped]
      ensures old(hasThread) ==>
                relay.value == Stopped && !hasThread && !hasLatch && worker == NoWorker && isPsiphonStopping
      ensures old(hasThread) ==> effects == old(effects) + JoinEffects(old(worker), startFails)
      ensures httpProxyPort == old(httpProxyPort) && socksProxyPort == old(socksProxyPort)
    {
      if hasThread {
        relay.Accept(Stopping);
        StopPsiphonTunnelThread(startFails);
      }
    }

    /** `fetch(method, url, body, usePsiphon)`. Without the tunnel the
        request is sent at once with port 0, hence without a proxy. With it
        the relay replays its current value and then delivers `later`; the
        first CONNECTED sets the builder's port to the value recorded at
        that moment and sends the request; until then the promise waits.
        `disposed` is the subscription's disposal and `server` the network's
        answer to each call. */
    method Fetch(m: Option<string>, url: string, body: Option<string>, usePsiphon: bool,
                 later: seq<Observed>, disposed: bool, server: Call -> Exchange)
      returns (r: Awaited<Fetched>)
      requires Valid()
      ensures r == FetchResult(m, url, body, usePsiphon, [Observed(relay.value, httpProxyPort)] + later, disposed, server)
    {
      var builder := new Builder();
      builder.SetMethod(m);
      builder.SetUri(url);
      builder.SetBody(body);
      if usePsiphon {
        var delivered := [Observed(relay.value, httpProxyPort)] + later;
        var port := FetchProxyPort(delivered);
        if port.StillWaiting? {
          r := StillWaiting;
        } else {
          builder.SetHttpProxyPort(port.value);
          var params := builder.Build();
          r := Resolved(FetchObservable(params, disposed, server));
        }
      } else {
        var params := builder.Build();
        r := Resolved(FetchObservable(params, disposed, server));
      }
    }
  }
}
