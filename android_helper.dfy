/** The app's tunnel helper singleton
    (com/psiphonreactnativetestapp/PsiphonHelper.java): the same lifecycle as
    the React Native module, except that an engine failure is rethrown out
    of the worker (after its `finally`), the join is skipped when there is no
    thread, and listeners see the de-duplicated state stream. */
module AppHelper {
  import opened Wrappers
  import opened PsiphonStates
  import opened ConnectionStore
  import opened Lifecycle
  import opened ProxyRouting
  import opened RequestRules

  /** The effects of the rest of the worker once the latch is released:
      `finally` stops the engine, and then a `startTunneling` failure escapes
      the thread. */
  function JoinEffects(w: WorkerPhase, startFails: bool): (e: seq<Effect>)
    ensures EngineStop in e <==> w == Spawned || w == Tunneling || w == AwaitingStop
    ensures UncaughtFailure in e <==> (w == Spawned || w == Tunneling) && startFails
    ensures e != [] ==> e[0] == EngineStop
    ensures ErrorEvent !in e && StartSucceeded !in e && StartFailed !in e
  {
    match w
    case Spawned => if startFails then [EngineStop, UncaughtFailure] else [EngineStop]
    case Tunneling => if startFails then [EngineStop, UncaughtFailure] else [EngineStop]
    case AwaitingStop => [EngineStop]
    case _ => []
  }

  class PsiphonHelper {
    var httpProxyPort: int
    var isPsiphonStopping: bool
    /** `tunnelCountDownLatch != null` */
    var hasLatch: bool
    /** `tunnelThread != null` */
    var hasThread: bool
    var worker: WorkerPhase
    const relay: StateRelay
    ghost var effects: seq<Effect>

    ghost predicate Valid()
      reads this, relay
    {
      && relay.Valid()
      && hasThread == (worker != NoWorker)
      && hasLatch == hasThread
      && (worker == Tunneling || worker == AwaitingStop ==> !isPsiphonStopping)
      && (worker == Terminated ==> isPsiphonStopping)
    }

    /** The port starts at -1 and the relay at STOPPED. */
    constructor ()
      ensures Valid() && fresh(relay)
      ensures relay.log == [Stopped] && relay.value == Stopped && httpProxyPort == -1
      ensures !isPsiphonStopping && !hasThread && worker == NoWorker && effects == []
    {
      httpProxyPort := -1;
      isPsiphonStopping := false;
      hasLatch := false;
      hasThread := false;
      worker := NoWorker;
      relay := new StateRelay.CreateDefault(Stopped);
      effects := [];
    }

    /** `getConnectionStateObservable()` for a subscriber registered while
        `relay.log[at]` was current: that value first, then every change,
        never two equal values in a row, ending in the current value. */
    ghost function ConnectionStates(at: nat): (r: seq<PsiphonState>)
      reads this, relay
      requires Valid() && at < |relay.log|
      ensures r != [] && r[0] == relay.log[at] && Last(r) == relay.value
      ensures NoAdjacentDuplicates(r)
      ensures forall x :: x in r <==> x in relay.log[at..]
    {
      Distinct(Replay(relay.log, at))
    }

    method OnListeningHttpProxyPort(port: int)
      modifies this`httpProxyPort
      ensures httpProxyPort == port
    {
      httpProxyPort := port;
    }

    method OnConnected()
      requires Valid()
      modifies relay
      ensures Valid() && relay.log == old(relay.log) + [Connected]
    {
      relay.Accept(Connected);
    }

    /** CONNECTING is not published while a stop is under way. */
    method OnConnecting()
      requires Valid()
      modifies relay
      ensures Valid()
      ensures relay.log == old(relay.log) + (if isPsiphonStopping then [] else [Connecting])
    {
      if !isPsiphonStopping {
        relay.Accept(Connecting);
      }
    }

    method OnStartedWaitingForNetworkConnectivity()
      requires Valid()
      modifies relay
      ensures Valid() && relay.log == old(relay.log) + [WaitingForNetwork]
    {
      relay.Accept(WaitingForNetwork);
    }

    /** A no-op while a thread exists; otherwise one new latch and one new
        thread. Nothing is published. */
    method StartPsiphon()
      requires Valid()
      modifies this`hasThread, this`hasLatch, this`worker
      ensures Valid()
      ensures old(hasThread) ==> worker == old(worker) && hasThread && hasLatch
      ensures !old(hasThread) ==> worker == Spawned && hasThread && hasLatch
    {
      if !hasThread {
        hasLatch := true;
        hasThread := true;
        worker := Spawned;
      }
    }

    /** The worker's first step: clear the stopping flag, publish CONNECTING,
        enter `startTunneling`. */
    method StartPsiphonTunnel()
      requires Valid() && worker == Spawned
      modifies this`isPsiphonStopping, this`worker, relay
      ensures Valid() && worker == Tunneling && !isPsiphonStopping
      ensures relay.log == old(relay.log) + [Connecting]
    {
      isPsiphonStopping := false;
      relay.Accept(Connecting);
      worker := Tunneling;
    }

    /** `startTunneling` returned: the worker blocks on the latch. */
    method TunnelingStarted()
      requires Valid() && worker == Tunneling
      modifies this`worker
      ensures Valid() && worker == AwaitingStop
    {
      worker := AwaitingStop;
    }

    /** `startTunneling` threw: `finally` sets the stopping flag and stops
        the engine, then the rethrown exception ends the thread. The thread
        reference stays set and nothing is published. */
    method TunnelingFailed()
      requires Valid() && worker == Tunneling
      modifies this`worker, this`isPsiphonStopping, this`effects
      ensures Valid() && worker == Terminated && isPsiphonStopping && hasThread
      ensures effects == old(effects) + [EngineStop, UncaughtFailure]
    {
      isPsiphonStopping := true;
      effects := effects + [EngineStop];
      effects := effects + [UncaughtFailure];
      worker := Terminated;
    }

    /** The latch was released: `await` returns and `finally` runs. */
    method AwaitReturns()
      requires Valid() && worker == AwaitingStop
      modifies this`worker, this`isPsiphonStopping, this`effects
      ensures Valid() && worker == Terminated && isPsiphonStopping
      ensures effects == old(effects) + [EngineStop]
    {
      isPsiphonStopping := true;
      effects := effects + [EngineStop];
      worker := Terminated;
    }

    /** `tunnelThread.join()` once the latch is released: whatever the
        worker still had to do runs to its end. */
    method JoinWorker(startFails: bool)
      requires Valid() && hasThread
      modifies this`worker, this`isPsiphonStopping, this`effects, relay
      ensures Valid() && worker == Terminated && isPsiphonStopping
      ensures relay.log == old(relay.log) + WorkerStates(old(worker))
      ensures effects == old(effects) + JoinEffects(old(worker), startFails)
    {
      if worker == Spawned {
        StartPsiphonTunnel();
      }
      if worker == Tunneling {
        if startFails {
          TunnelingFailed();
        } else {
          TunnelingStarted();
        }
      }
      if worker == AwaitingStop {
        AwaitReturns();
      }
    }

    /** Release the latch and join the worker if there is one; in every
        case clear the thread and the latch and publish STOPPED. */
    method StopPsiphonTunnel(startFails: bool)
      requires Valid()
      modifies this, relay
      ensures Valid()
      ensures relay.log == old(relay.log) + (if old(hasThread) then WorkerStates(old(worker)) else []) + [Stopped]
      ensures !hasThread && !hasLatch && worker == NoWorker
      ensures old(hasThread) ==> isPsiphonStopping
      ensures !old(hasThread) ==> isPsiphonStopping == old(isPsiphonStopping)
      ensures effects == old(effects) + (if old(hasThread) then JoinEffects(old(worker), startFails) else [])
      ensures httpProxyPort == old(httpProxyPort)
    {
      if hasThread {
        JoinWorker(startFails);
      }
      hasThread := false;
      hasLatch := false;
      worker := NoWorker;
      relay.Accept(Stopped);
    }

    /** A no-op without a thread. Otherwise STOPPING is published first and
        STOPPED last, and the thread and latch are gone when it returns. */
    method StopPsiphon(startFails: bool)
      requires Valid()
      modifies this, relay
      ensures Valid()
      ensures !old(hasThread) ==> unchanged(this) && relay.log == old(relay.log)
      ensures old(hasThread) ==>
                relay.log == old(relay.log) + [Stopping] + WorkerStates(old(worker)) + [Stopped]
      ensures old(hasThread) ==>
                relay.value == Stopped && !hasThread && !hasLatch && worker == NoWorker && isPsiphonStopping
      ensures old(hasThread) ==> effects == old(effects) + JoinEffects(old(worker), startFails)
      ensures httpProxyPort == old(httpProxyPort)
    {
      if hasThread {
        relay.Accept(Stopping);
        StopPsiphonTunnel(startFails);
      }
    }

    /** `fetch(method, url, body, usePsiphon)`: as for the React Native
        module, the tunnelled request waits for the first CONNECTED among the
        current value and the values `later` delivered after it, and uses the
        port recorded at that moment. */
    method Fetch(m: Option<string>, url: string, body: Option<string>, usePsiphon: bool,
                 later: seq<Observed>, disposed: bool, server: Call -> Exchange)
      returns (r: Awaited<Fetched>)
      requires Valid()
      ensures r == FetchResult(m, url, body, usePsiphon, [Observed(relay.value, httpProxyPort)] + later, disposed, server)
    {
      var builder := new Builder();
      builder.SetMethod(m);
      builder.SetUri(url);
      builder.SetBody(body);
      if usePsiphon {
        var delivered := [Observed(relay.value, httpProxyPort)] + later;
        var port := FetchProxyPort(delivered);
        if port.StillWaiting? {
          r := StillWaiting;
        } else {
          builder.SetHttpProxyPort(port.value);
          var params := builder.Build();
          r := Resolved(FetchObservable(params, disposed, server));
        }
      } else {
        var params := builder.Build();
        r := Resolved(FetchObservable(params, disposed, server));
      }
    }
  }

  /** The static `instance` field and the synchronized `getInstance`. */
  class HelperSingleton {
    var instance: PsiphonHelper?

    constructor ()
      ensures instance == null
    {
      instance := null;
    }

    /** The first call creates the helper; every later call returns it. */
    method GetInstance() returns (h: PsiphonHelper)
      modifies this
      ensures instance == h
      ensures old(instance) != null ==> h == old(instance)
      ensures old(instance) == null ==>
                fresh(h) && h.Valid() && h.relay.log == [Stopped] && h.httpProxyPort == -1 && h.worker == NoWorker
    {
      if instance == null {
        instance := new PsiphonHelper();
      }
      h := instance;
    }
  }
}
