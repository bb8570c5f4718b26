/** The React Native module's iOS tunnel delegate
    (ios/PsiphonNativeModule/PsiphonTunnelDelegate.swift): no caches; a
    session configuration is built for a settled state at once, and in any
    other state `waitForConnection` installs a closure in the single
    `onConnectionStateChanged` slot and blocks on a dispatch group until the
    closure sees a settled state. `enters` and the ghost `leaves` count
    `group.enter()` and `group.leave()` over all waits, and `abandoned`
    counts groups whose closure was replaced before it could leave.

    As written, the closure is never removed from the slot, so a later
    settled state calls `leave()` on a group that has already been left: an
    unbalanced `dispatch_group_leave`. `OnConnectionStateChangedAsWritten`
    models that handler and `SecondSettledStateAsWritten` exhibits the
    unbalanced leave; the rest of the model uses `OnConnectionStateChanged`,
    whose closure empties the slot when it resolves. */
module ModuleTunnelDelegate {
  import opened Wrappers
  import opened TunnelConfig

  /** `connectedConfiguration()`: SOCKS on the loopback address. */
  function ConnectedConfiguration(socksProxyPort: int): (c: SessionConfiguration)
    ensures ThroughSocks(c, socksProxyPort)
  {
    SessionConfiguration(map[SocksProxy := Number(1), SocksProxyHost := Str(LoopbackAddress),
                             SocksProxyPort := Number(socksProxyPort)])
  }

  /** `disconnectedConfiguration()`: SOCKS disabled. */
  function DisconnectedConfiguration(): (c: SessionConfiguration)
    ensures Direct(c)
  {
    SessionConfiguration(map[SocksProxy := Number(0)])
  }

  /** The configuration for a settled state, as both `getURLSessionConfiguration`
      and the waiter closure choose it. */
  function SettledConfiguration(state: ConnectionState, socksProxyPort: int): (c: SessionConfiguration)
    requires Settled(state)
    ensures state == Connected ==> ThroughSocks(c, socksProxyPort)
    ensures state == Disconnected ==> Direct(c)
  {
    if state == Connected then ConnectedConfiguration(socksProxyPort) else DisconnectedConfiguration()
  }

  /** Both iOS delegates hand out the same configuration for a settled
      state. */
  lemma SameConfigurationAsAppDelegate(state: ConnectionState, socksProxyPort: int)
    requires Settled(state)
    ensures CreateURLSessionConfiguration(state, socksProxyPort) == Some(SettledConfiguration(state, socksProxyPort))
  {
  }

  class PsiphonTunnelDelegate {
    /** `psiphonTunnel != nil` */
    var hasTunnel: bool
    var storedConfig: Option<string>
    var httpProxyPort: int
    var socksProxyPort: int
    var current: ConnectionState
    /** The `onConnectionStateChanged` slot: the group its closure leaves. */
    var waiter: Option<nat>
    /** The `configuration` variable the closure assigns for its waiter. */
    var waiterResult: Option<SessionConfiguration>
    /** The identity of the registered listener closure. */
    var listener: Option<nat>
    ghost var notified: seq<(nat, ConnectionState)>
    /** Groups created, each entered once; the latest one names the slot's
        closure. */
    var enters: nat
    ghost var leaves: nat
    ghost var abandoned: nat
    ghost var engineStops: nat

    /** Every group is entered once and left at most once: the one whose
        closure is installed is still entered, every other one was left or
        abandoned. A closure is installed only while the state is not
        settled. */
    ghost predicate Valid()
      reads this
    {
      && enters == leaves + abandoned + (if waiter.Some? then 1 else 0)
      && (waiter.Some? ==> !Settled(current))
    }

    /** Ports are 0, the state is disconnected and the slot is empty. */
    constructor ()
      ensures Valid()
      ensures current == Disconnected && httpProxyPort == 0 && socksProxyPort == 0
      ensures waiter == None && listener == None && !hasTunnel && storedConfig == None
      ensures notified == [] && enters == 0 && leaves == 0 && abandoned == 0 && engineStops == 0
    {
      hasTunnel := false;
      storedConfig := None;
      httpProxyPort := 0;
      socksProxyPort := 0;
      current := Disconnected;
      waiter := None;
      waiterResult := None;
      listener := None;
      notified := [];
      enters := 0;
      leaves := 0;
      abandoned := 0;
      engineStops := 0;
    }

    /** `getPsiphonConfig()`: nil until a start has stored one. */
    function GetPsiphonConfig(): Option<string>
      reads this
    {
      storedConfig
    }

    /** A state change: record it, run the installed closure, notify the
        listener. The closure acts only on a settled state: it stores the
        configuration for that state, empties the slot and leaves its
        group. */
    method OnConnectionStateChanged(newState: ConnectionState)
      requires Valid()
      modifies this`current, this`waiter, this`waiterResult, this`leaves, this`notified
      ensures Valid() && current == newState
      ensures old(waiter).Some? && Settled(newState) ==>
                waiter == None && waiterResult == Some(SettledConfiguration(newState, socksProxyPort))
                && leaves == old(leaves) + 1
      ensures !(old(waiter).Some? && Settled(newState)) ==>
                waiter == old(waiter) && waiterResult == old(waiterResult) && leaves == old(leaves)
      ensures notified == old(notified) + Notifications(listener, [newState])
    {
      current := newState;
      if waiter.Some? && Settled(newState) {
        waiterResult := Some(SettledConfiguration(newState, socksProxyPort));
        waiter := None;
        leaves := leaves + 1;
      }
      notified := notified + Notifications(listener, [newState]);
    }

    /** The handler as written: the closure stays in the slot after it has
        left its group, so every settled state leaves it again. */
    method OnConnectionStateChangedAsWritten(newState: ConnectionState)
      modifies this`current, this`waiterResult, this`leaves, this`notified
      ensures current == newState
      ensures waiter.Some? && Settled(newState) ==>
                waiterResult == Some(SettledConfiguration(newState, socksProxyPort)) && leaves == old(leaves) + 1
      ensures !(waiter.Some? && Settled(newState)) ==> waiterResult == old(waiterResult) && leaves == old(leaves)
      ensures notified == old(notified) + Notifications(listener, [newState])
    {
      current := newState;
      if waiter.Some? && Settled(newState) {
        waiterResult := Some(SettledConfiguration(newState, socksProxyPort));
        leaves := leaves + 1;
      }
      notified := notified + Notifications(listener, [newState]);
    }

    method OnListeningHttpProxyPort(port: int)
      modifies this`httpProxyPort
      ensures httpProxyPort == port
    {
      httpProxyPort := port;
    }

    method OnListeningSocksProxyPort(port: int)
      modifies this`socksProxyPort
      ensures socksProxyPort == port
    {
      socksProxyPort := port;
    }

    /** `startPsiphonTunnelAsync(config:completion:)`: stores the config and
        creates a new tunnel; `startSucceeds` is what `start(true)` returns,
        and a failed start drops the tunnel. The result is the completion's
        argument. */
    method StartPsiphonTunnelAsync(config: string, startSucceeds: bool) returns (completion: bool)
      modifies this`storedConfig, this`hasTunnel
      ensures completion == startSucceeds && hasTunnel == startSucceeds && storedConfig == Some(config)
    {
      storedConfig := Some(config);
      hasTunnel := true;
      if startSucceeds {
        completion := true;
      } else {
        hasTunnel := false;
        completion := false;
      }
    }

    /** `stopPsiphonTunnelAsync()`: stops the tunnel if there is one and
        drops it. */
    method StopPsiphonTunnelAsync()
      modifies this`hasTunnel, this`engineStops
      ensures !hasTunnel && engineStops == old(engineStops) + (if old(hasTunnel) then 1 else 0)
    {
      if hasTunnel {
        engineStops := engineStops + 1;
      }
      hasTunnel := false;
    }

    /** Replaces the listener and delivers the current state to the new one
        at once. */
    method StartSendingConnectionStateUpdates(l: Option<nat>)
      modifies this`listener, this`notified
      ensures listener == l
      ensures notified == old(notified) + Notifications(l, [current])
    {
      listener := l;
      notified := notified + Notifications(l, [current]);
    }

    method StopSendingConnectionStateUpdates()
      modifies this`listener
      ensures listener == None
    {
      listener := None;
    }

    /** The first half of `waitForConnection`: enter a new group and install
        its closure, replacing (and so abandoning) any closure already in
        the slot. */
    method InstallWaiter()
      requires Valid() && !Settled(current)
      modifies this`enters, this`abandoned, this`waiter, this`waiterResult
      ensures Valid() && waiter == Some(enters) && waiterResult == None
      ensures enters == old(enters) + 1
      ensures abandoned == old(abandoned) + (if old(waiter).Some? then 1 else 0)
    {
      if waiter.Some? {
        abandoned := abandoned + 1;
      }
      enters := enters + 1;
      waiter := Some(enters);
      waiterResult := None;
    }

    /** `waitForConnection()`: install a waiter, then block until a settled
        state arrives among the `future` changes (`AwaitSettled`, which here
        applies the settling change too). The result is the configuration
        for that state, and the group has been entered and left once; without
        a settled state the caller is still blocked and its closure stays
        installed. */
    method WaitForConnection(future: seq<ConnectionState>) returns (r: Awaited<SessionConfiguration>)
      requires Valid() && !Settled(current)
      modifies this`current, this`waiter, this`waiterResult, this`leaves, this`notified, this`enters, this`abandoned
      ensures Valid()
      ensures enters == old(enters) + 1
      ensures abandoned == old(abandoned) + (if old(waiter).Some? then 1 else 0)
      ensures AwaitSettled(old(current), future).Undecided? ==>
                && r == StillWaiting && waiter == Some(enters) && leaves == old(leaves)
                && current == (if future == [] then old(current) else future[|future| - 1])
                && notified == old(notified) + Notifications(listener, future)
      ensures AwaitSettled(old(current), future).Decided? ==>
                && current == AwaitSettled(old(current), future).settledOn
                && r == Resolved(SettledConfiguration(current, socksProxyPort))
                && waiter == None && leaves == old(leaves) + 1
                && notified == old(notified) + Notifications(listener, AwaitSettled(old(current), future).applied)
    {
      InstallWaiter();
      var i := 0;
      while i < |future| && waiter.Some?
        invariant Valid() && 0 <= i <= |future|
        invariant enters == old(enters) + 1
        invariant abandoned == old(abandoned) + (if old(waiter).Some? then 1 else 0)
        invariant current == (if i == 0 then old(current) else future[i - 1])
        invariant AwaitSettled(old(current), future) == Prepend(future[..i], AwaitSettled(current, future[i..]))
        invariant notified == old(notified) + Notifications(listener, future[..i])
        invariant waiter.Some? ==> waiter == Some(enters) && leaves == old(leaves)
        invariant waiter.None? ==>
                    Settled(current) && waiterResult == Some(SettledConfiguration(current, socksProxyPort))
                    && leaves == old(leaves) + 1
        invariant listener == old(listener) && socksProxyPort == old(socksProxyPort)
        decreases |future| - i
      {
        ghost var rest := future[i..];
        assert rest[0] == future[i] && rest[1..] == future[i + 1..];
        PrependAssociates(future[..i], [future[i]], AwaitSettled(future[i], future[i + 1..]));
        assert future[..i + 1] == future[..i] + [future[i]];
        OnConnectionStateChanged(future[i]);
        NotificationsSplit(listener, future[..i], [future[i]]);
        i := i + 1;
      }
      if waiter.None? {
        r := Resolved(waiterResult.value);
        assert future[..i] + [] == future[..i];
      } else {
        r := StillWaiting;
        assert future[..i] == future;
      }
    }

    /** `getURLSessionConfiguration()`: a settled state gives its
        configuration at once and changes nothing; any other state waits as
        `WaitForConnection` does. */
    method GetURLSessionConfiguration(future: seq<ConnectionState>) returns (r: Awaited<SessionConfiguration>)
      requires Valid()
      modifies this`current, this`waiter, this`waiterResult, this`leaves, this`notified, this`enters, this`abandoned
      ensures Valid()
      ensures Settled(old(current)) ==>
                r == Resolved(SettledConfiguration(old(current), socksProxyPort)) && unchanged(this)
      ensures !Settled(old(current)) ==> abandoned == old(abandoned) + (if old(waiter).Some? then 1 else 0)
      ensures !Settled(old(current)) && AwaitSettled(old(current), future).Undecided? ==>
                && r == StillWaiting && waiter == Some(enters) && leaves == old(leaves) && enters == old(enters) + 1
                && current == (if future == [] then old(current) else future[|future| - 1])
                && notified == old(notified) + Notifications(listener, future)
      ensures !Settled(old(current)) && AwaitSettled(old(current), future).Decided? ==>
                && current == AwaitSettled(old(current), future).settledOn
                && r == Resolved(SettledConfiguration(current, socksProxyPort))
                && waiter == None && leaves == old(leaves) + 1 && enters == old(enters) + 1
                && notified == old(notified) + Notifications(listener, AwaitSettled(old(current), future).applied)
    {
      if current == Connected {
        r := Resolved(ConnectedConfiguration(socksProxyPort));
      } else if current == Disconnected {
        r := Resolved(DisconnectedConfiguration());
      } else {
        r := WaitForConnection(future);
      }
    }
  }

  /** As written: a request waits while connecting and is released by
      CONNECTED; the closure is still installed when the tunnel later
      disconnects, and leaves the group a second time. */
  method SecondSettledStateAsWritten() returns (d: PsiphonTunnelDelegate)
    ensures d.enters == 1 && d.leaves == 2
    ensures d.leaves > d.enters
  {
    d := new PsiphonTunnelDelegate();
    d.OnConnectionStateChangedAsWritten(Connecting);
    d.InstallWaiter();
    d.OnConnectionStateChangedAsWritten(Connected);
    d.OnConnectionStateChangedAsWritten(Disconnected);
  }

  /** Corrected: the same sequence of events leaves the group exactly once,
      and the waiting request gets the tunnelled configuration. */
  method SecondSettledStateCorrected() returns (d: PsiphonTunnelDelegate, r: Awaited<SessionConfiguration>)
    ensures d.enters == 1 && d.leaves == 1 && d.waiter == None
    ensures r == Resolved(ConnectedConfiguration(0))
  {
    d := new PsiphonTunnelDelegate();
    d.OnConnectionStateChanged(Connecting);
    r := d.GetURLSessionConfiguration([Connected]);
    d.OnConnectionStateChanged(Disconnected);
  }
}
