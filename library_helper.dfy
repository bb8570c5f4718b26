/** The library's tunnel helper singleton
    (ca/psiphon/nativemodule/PsiphonHelper.java): the lifecycle takes its
    config and a start-result callback from the caller, a failed start is
    reported through the callback and settles at STOPPED, and the
    OkHttp proxy selector routes each request by the state stream. */
module LibraryHelper {
  import opened Wrappers
  import opened PsiphonStates
  import opened ConnectionStore
  import opened Lifecycle
  import opened ProxyRouting

  /** `getPsiphonConfig` before any `startPsiphon`. */
  datatype ConfigError = IllegalState(message: string)

  const ConfigNotSetMessage: string := "Psiphon configuration not set."

  /** The relay values the join of a stop adds: a worker that had not run
      yet first publishes CONNECTING, and a start that fails publishes
      STOPPED from the thread's handler. */
  function JoinStates(w: WorkerPhase, startFails: bool): (s: seq<PsiphonState>)
    ensures Connecting in s <==> w == Spawned
    ensures Stopped in s <==> (w == Spawned || w == Tunneling) && startFails
    ensures s != [] ==> s[0] == (if w == Spawned then Connecting else Stopped)
  {
    (if w == Spawned then [Connecting] else [])
    + (if (w == Spawned || w == Tunneling) && startFails then [Stopped] else [])
  }

  /** The effects of the rest of the worker once the latch is released. The
      worker's `finally` stops the engine first; then either the success
      callback runs, or the error callback and a second engine stop. */
  function JoinEffects(w: WorkerPhase, startFails: bool): (e: seq<Effect>)
    ensures StartSucceeded in e <==> w == AwaitingStop || ((w == Spawned || w == Tunneling) && !startFails)
    ensures StartFailed in e <==> (w == Spawned || w == Tunneling) && startFails
    ensures !(StartSucceeded in e && StartFailed in e)
    ensures e != [] ==> e[0] == EngineStop
  {
    match w
    case Spawned => if startFails then [EngineStop, StartFailed, EngineStop] else [EngineStop, StartSucceeded]
    case Tunneling => if startFails then [EngineStop, StartFailed, EngineStop] else [EngineStop, StartSucceeded]
    case AwaitingStop => [EngineStop, StartSucceeded]
    case _ => []
  }

  class PsiphonHelper {
    var httpProxyPort: int
    var isPsiphonStopping: bool
    var psiphonConfig: Option<string>
    /** `tunnelCountDownLatch != null` */
    var hasLatch: bool
    /** `tunnelThread != null` */
    var hasThread: bool
    var worker: WorkerPhase
    const relay: StateRelay
    ghost var effects: seq<Effect>

    /** Besides the lifecycle invariant of the other helpers: a worker only
        exists once a config has been recorded. */
    ghost predicate Valid()
      reads this, relay
    {
      && relay.Valid()
      && hasThread == (worker != NoWorker)
      && hasLatch == hasThread
      && (hasThread ==> psiphonConfig.Some?)
      && (worker == Tunneling || worker == AwaitingStop ==> !isPsiphonStopping)
      && (worker == Terminated ==> isPsiphonStopping)
    }

    /** The port starts at -1, the relay at STOPPED, no config is set. */
    constructor ()
      ensures Valid() && fresh(relay)
      ensures relay.log == [Stopped] && relay.value == Stopped && httpProxyPort == -1
      ensures psiphonConfig == None
      ensures !isPsiphonStopping && !hasThread && worker == NoWorker && effects == []
    {
      httpProxyPort := -1;
      isPsiphonStopping := false;
      psiphonConfig := None;
      hasLatch := false;
      hasThread := false;
      worker := NoWorker;
      relay := new StateRelay.CreateDefault(Stopped);
      effects := [];
    }

    /** The engine asks for the config; asking before any `startPsiphon` is
        an illegal state. */
    function GetPsiphonConfig(): (r: Result<string, ConfigError>)
      reads this
      ensures r.Failure? <==> psiphonConfig.None?
      ensures r.Success? ==> r.value == psiphonConfig.value
      ensures r.Failure? ==> r.error.message == ConfigNotSetMessage
    {
      if psiphonConfig.None? then Failure(IllegalState(ConfigNotSetMessage)) else Success(psiphonConfig.value)
    }

    /** While a worker exists its engine can always read a config. */
    lemma WorkerHasConfig()
      requires Valid() && hasThread
      ensures GetPsiphonConfig().Success?
    {
    }

    /** `getConnectionStateObservable()` for a subscriber registered while
        `relay.log[at]` was current. */
    ghost function ConnectionStates(at: nat): (r: seq<PsiphonState>)
      reads this, relay
      requires Valid() && at < |relay.log|
      ensures r != [] && r[0] == relay.log[at] && Last(r) == relay.value
      ensures NoAdjacentDuplicates(r)
      ensures forall x :: x in r <==> x in relay.log[at..]
    {
      Distinct(Replay(relay.log, at))
    }

    method OnListeningHttpProxyPort(port: int)
      modifies this`httpProxyPort
      ensures httpProxyPort == port
    {
      httpProxyPort := port;
    }

    method OnConnected()
      requires Valid()
      modifies relay
      ensures Valid() && relay.log == old(relay.log) + [Connected]
    {
      relay.Accept(Connected);
    }

    /** CONNECTING is not published while a stop is under way. */
    method OnConnecting()
      requires Valid()
      modifies relay
      ensures Valid()
      ensures relay.log == old(relay.log) + (if isPsiphonStopping then [] else [Connecting])
    {
      if !isPsiphonStopping {
        relay.Accept(Connecting);
      }
    }

    method OnStartedWaitingForNetworkConnectivity()
      requires Valid()
      modifies relay
      ensures Valid() && relay.log == old(relay.log) + [WaitingForNetwork]
    {
      relay.Accept(WaitingForNetwork);
    }

    /** The config is recorded in every case, even when a worker already
        runs with an older one; a thread and a latch are created only when
        there is no thread. */
    method StartPsiphon(config: string)
      requires Valid()
      modifies this`psiphonConfig, this`hasThread, this`hasLatch, this`worker
      ensures Valid() && psiphonConfig == Some(config)
      ensures old(hasThread) ==> worker == old(worker) && hasThread && hasLatch
      ensures !old(hasThread) ==> worker == Spawned && hasThread && hasLatch
    {
      psiphonConfig := Some(config);
      if !hasThread {
        hasLatch := true;
        hasThread := true;
        worker := Spawned;
      }
    }

    /** The worker's first step: clear the stopping flag, publish CONNECTING,
        enter `startTunneling`. */
    method StartPsiphonTunnel()
      requires Valid() && worker == Spawned
      modifies this`isPsiphonStopping, this`worker, relay
      ensures Valid() && worker == Tunneling && !isPsiphonStopping
      ensures relay.log == old(relay.log) + [Connecting]
    {
      isPsiphonStopping := false;
      relay.Accept(Connecting);
      worker := Tunneling;
    }

    /** `startTunneling` returned: the worker blocks on the latch. */
    method TunnelingStarted()
      requires Valid() && worker == Tunneling
      modifies this`worker
      ensures Valid() && worker == AwaitingStop
    {
      worker := AwaitingStop;
    }

    /** `startTunneling` threw: `finally` sets the stopping flag and stops
        the engine; the thread's handler then reports the error, stops the
        engine again and publishes STOPPED. The thread reference stays set,
        and the success callback is not called. */
    method TunnelingFailed()
      requires Valid() && worker == Tunneling
      modifies this`worker, this`isPsiphonStopping, this`effects, relay
      ensures Valid() && worker == Terminated && isPsiphonStopping && hasThread
      ensures effects == old(effects) + [EngineStop, StartFailed, EngineStop]
      ensures relay.log == old(relay.log) + [Stopped]
    {
      isPsiphonStopping := true;
      effects := effects + [EngineStop];
      effects := effects + [StartFailed];
      effects := effects + [EngineStop];
      relay.Accept(Stopped);
      worker := Terminated;
    }

    /** The latch was released: `await` returns, `finally` stops the engine,
        and only then is the success callback called. */
    method AwaitReturns()
      requires Valid() && worker == AwaitingStop
      modifies this`worker, this`isPsiphonStopping, this`effects
      ensures Valid() && worker == Terminated && isPsiphonStopping
      ensures effects == old(effects) + [EngineStop, StartSucceeded]
    {
      isPsiphonStopping := true;
      effects := effects + [EngineStop];
      effects := effects + [StartSucceeded];
      worker := Terminated;
    }

    /** `tunnelThread.join()` once the latch is released: whatever the
        worker still had to do runs to its end. */
    method JoinWorker(startFails: bool)
      requires Valid() && hasThread
      modifies this`worker, this`isPsiphonStopping, this`effects, relay
      ensures Valid() && worker == Terminated && isPsiphonStopping
      ensures relay.log == old(relay.log) + JoinStates(old(worker), startFails)
      ensures effects == old(effects) + JoinEffects(old(worker), startFails)
    {
      if worker == Spawned {
        StartPsiphonTunnel();
      }
      if worker == Tunneling {
        if startFails {
          TunnelingFailed();
        } else {
          TunnelingStarted();
        }
      }
      if worker == AwaitingStop {
        AwaitReturns();
      }
    }

    /** Release the latch and join the worker if there is one; in every
        case clear the thread and the latch and publish STOPPED. */
    method StopPsiphonTunnel(startFails: bool)
      requires Valid()
      modifies this, relay
      ensures Valid()
      ensures relay.log == old(relay.log) + (if old(hasThread) then JoinStates(old(worker), startFails) else []) + [Stopped]
      ensures !hasThread && !hasLatch && worker == NoWorker
      ensures old(hasThread) ==> isPsiphonStopping
      ensures !old(hasThread) ==> isPsiphonStopping == old(isPsiphonStopping)
      ensures effects == old(effects) + (if old(hasThread) then JoinEffects(old(worker), startFails) else [])
      ensures httpProxyPort == old(httpProxyPort) && psiphonConfig == old(psiphonConfig)
    {
      if hasThread {
        JoinWorker(startFails);
      }
      hasThread := false;
      hasLatch := false;
      worker := NoWorker;
      relay.Accept(Stopped);
    }

    /** A no-op without a thread. Otherwise STOPPING is published first and
        STOPPED last, and the thread and latch are gone when it returns. */
    method StopPsiphon(startFails: bool)
      requires Valid()
      modifies this, relay
      ensures Valid()
      ensures !old(hasThread) ==> unchanged(this) && relay.log == old(relay.log)
      ensures old(hasThread) ==>
                relay.log == old(relay.log) + [Stopping] + JoinStates(old(worker), startFails) + [Stopped]
      ensures old(hasThread) ==>
                relay.value == Stopped && !hasThread && !hasLatch && worker == NoWorker && isPsiphonStopping
      ensures old(hasThread) ==> effects == old(effects) + JoinEffects(old(worker), startFails)
      ensures httpProxyPort == old(httpProxyPort) && psiphonConfig == old(psiphonConfig)
    {
      if hasThread {
        relay.Accept(Stopping);
        StopPsiphonTunnel(startFails);
      }
    }

    /** `select(uri)` of the client builder's proxy selector for a URI whose
        host is `host`, when the relay goes on to deliver `later` after its
        current value: a loopback host is sent directly; otherwise a current
        CONNECTED or STOPPED decides at once, and any other current state
        leaves the decision to the first decisive later value. */
    function Select(host: string, later: seq<Observed>): (r: Awaited<Proxy>)
      reads this, relay
      ensures IsLocalhost(host) ==> r == Resolved(NoProxy)
      ensures !IsLocalhost(host) && relay.value == Connected ==> r == Resolved(HttpProxy("localhost", httpProxyPort))
      ensures !IsLocalhost(host) && relay.value == Stopped ==> r == Resolved(NoProxy)
      ensures !IsLocalhost(host) && !IsDecisive(relay.value) ==> r == FirstDecision(later)
    {
      FirstDecisionWithCurrent(Observed(relay.value, httpProxyPort), later);
      SelectProxy(host, [Observed(relay.value, httpProxyPort)] + later)
    }
  }

  /** The static `instance` field and the synchronized `getInstance`. */
  class HelperSingleton {
    var instance: PsiphonHelper?

    constructor ()
      ensures instance == null
    {
      instance := null;
    }

    /** The first call creates the helper; every later call returns it. */
    method GetInstance() returns (h: PsiphonHelper)
      modifies this
      ensures instance == h
      ensures old(instance) != null ==> h == old(instance)
      ensures old(instance) == null ==>
                fresh(h) && h.Valid() && h.relay.log == [Stopped] && h.psiphonConfig == None && h.worker == NoWorker
    {
      if instance == null {
        instance := new PsiphonHelper();
      }
      h := instance;
    }
  }
}
