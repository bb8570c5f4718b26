/** The app's iOS tunnel delegate (ios/Psiphon/PsiphonTunnelDelegate.swift):
    it records the connection state, caches the session configuration and
    the WebSocket proxy description for the current state, and answers both
    lookups by waiting for a settled state. Each semaphore wait is modelled
    as the next state change arriving: a lookup takes the states still to
    come as `future` and applies them through `OnConnectionStateChanged`
    until one settles it; when none does, the caller is still waiting. */
module AppTunnelDelegate {
  import opened Wrappers
  import opened TunnelConfig

  class PsiphonTunnelDelegate {
    /** `psiphonTunnel != nil` */
    var hasTunnel: bool
    var storedConfig: Option<string>
    var httpProxyPort: int
    var socksProxyPort: int
    var current: ConnectionState
    var cachedURLSessionConfiguration: Option<SessionConfiguration>
    var cachedProxyConfig: Option<WebSocketProxy>
    /** The identity of the registered listener closure. */
    var listener: Option<nat>
    /** Every delivery to a listener, in order. */
    ghost var notified: seq<(nat, ConnectionState)>
    /** The SOCKS port the cached session configuration was built with. */
    ghost var sessionCachedAtPort: int
    /** Calls of `psiphonTunnel.stop()`. */
    ghost var engineStops: nat

    /** Neither cache is ever stale with respect to the state: a cached
        session configuration is the one built for the current state, and a
        cached WebSocket proxy exists only while connected. */
    ghost predicate Valid()
      reads this
    {
      && (cachedURLSessionConfiguration.Some? ==>
            cachedURLSessionConfiguration == CreateURLSessionConfiguration(current, sessionCachedAtPort))
      && (cachedProxyConfig.Some? ==>
            current == Connected && cachedProxyConfig.value.hostName == LoopbackAddress)
    }

    /** Ports are 0 and the state is disconnected until the library reports
        otherwise. */
    constructor ()
      ensures Valid()
      ensures current == Disconnected && httpProxyPort == 0 && socksProxyPort == 0
      ensures cachedURLSessionConfiguration == None && cachedProxyConfig == None
      ensures listener == None && !hasTunnel && storedConfig == None && notified == [] && engineStops == 0
    {
      hasTunnel := false;
      storedConfig := None;
      httpProxyPort := 0;
      socksProxyPort := 0;
      current := Disconnected;
      cachedURLSessionConfiguration := None;
      cachedProxyConfig := None;
      listener := None;
      notified := [];
      sessionCachedAtPort := 0;
      engineStops := 0;
    }

    /** `getPsiphonConfig()`: nil until a start has stored one. */
    function GetPsiphonConfig(): Option<string>
      reads this
    {
      storedConfig
    }

    /** A state change: record it, notify the listener, clear both caches
        (and signal a waiting lookup, which the lookups model by applying
        the change themselves). */
    method OnConnectionStateChanged(newState: ConnectionState)
      requires Valid()
      modifies this`current, this`cachedURLSessionConfiguration, this`cachedProxyConfig, this`notified
      ensures Valid() && current == newState
      ensures cachedURLSessionConfiguration == None && cachedProxyConfig == None
      ensures notified == old(notified) + Notifications(listener, [newState])
    {
      current := newState;
      notified := notified + Notifications(listener, [newState]);
      cachedURLSessionConfiguration := None;
      cachedProxyConfig := None;
    }

    method OnListeningHttpProxyPort(port: int)
      modifies this`httpProxyPort
      ensures httpProxyPort == port
    {
      httpProxyPort := port;
    }

    /** A new SOCKS port is used by configurations built from now on; one
        already cached keeps the port it was built with. */
    method OnListeningSocksProxyPort(port: int)
      modifies this`socksProxyPort
      ensures socksProxyPort == port
    {
      socksProxyPort := port;
    }

    /** `startPsiphonTunnelAsync(config:completion:)`: clears the session
        cache (not the proxy cache), stores the config and creates a new
        tunnel; `startSucceeds` is what `start(true)` returns. A failed
        start drops the tunnel. The result is the completion's argument. */
    method StartPsiphonTunnelAsync(config: string, startSucceeds: bool) returns (completion: bool)
      requires Valid()
      modifies this`cachedURLSessionConfiguration, this`storedConfig, this`hasTunnel
      ensures Valid() && completion == startSucceeds && hasTunnel == startSucceeds
      ensures storedConfig == Some(config) && cachedURLSessionConfiguration == None
    {
      cachedURLSessionConfiguration := None;
      storedConfig := Some(config);
      hasTunnel := true;
      if startSucceeds {
        completion := true;
      } else {
        hasTunnel := false;
        completion := false;
      }
    }

    /** `stopPsiphonTunnelAsync()`: clears the session cache, stops the
        tunnel if there is one and drops it. */
    method StopPsiphonTunnelAsync()
      requires Valid()
      modifies this`cachedURLSessionConfiguration, this`hasTunnel, this`engineStops
      ensures Valid() && !hasTunnel && cachedURLSessionConfiguration == None
      ensures engineStops == old(engineStops) + (if old(hasTunnel) then 1 else 0)
    {
      cachedURLSessionConfiguration := None;
      if hasTunnel {
        engineStops := engineStops + 1;
      }
      hasTunnel := false;
    }

    /** Replaces the listener and delivers the current state to the new one
        at once. */
    method StartSendingConnectionStateUpdates(l: Option<nat>)
      modifies this`listener, this`notified
      ensures listener == l
      ensures notified == old(notified) + Notifications(l, [current])
    {
      listener := l;
      notified := notified + Notifications(l, [current]);
    }

    method StopSendingConnectionStateUpdates()
      modifies this`listener
      ensures listener == None
    {
      listener := None;
    }

    /** `getURLSessionConfiguration()`. A cached configuration is returned
        as it is. Otherwise the lookup waits from the current state through
        the `future` changes (`AwaitSettled`): the changes before the first
        settled state are applied, and the configuration built for that state
        with the SOCKS port of that moment is cached and returned. Without a
        settled state the caller is still waiting. */
    method GetURLSessionConfiguration(future: seq<ConnectionState>) returns (r: Awaited<SessionConfiguration>)
      requires Valid()
      modifies this`current, this`cachedURLSessionConfiguration, this`cachedProxyConfig, this`notified,
               this`sessionCachedAtPort
      ensures Valid()
      ensures old(cachedURLSessionConfiguration).Some? ==>
                r == Resolved(old(cachedURLSessionConfiguration).value) && unchanged(this)
      ensures old(cachedURLSessionConfiguration).None? && AwaitSettled(old(current), future).Undecided? ==>
                && r == StillWaiting
                && current == (if future == [] then old(current) else future[|future| - 1])
                && cachedURLSessionConfiguration == None
                && notified == old(notified) + Notifications(listener, future)
      ensures old(cachedURLSessionConfiguration).None? && AwaitSettled(old(current), future).Decided? ==>
                && current == AwaitSettled(old(current), future).settledOn
                && r == Resolved(CreateURLSessionConfiguration(current, socksProxyPort).value)
                && cachedURLSessionConfiguration == Some(r.value)
                && notified == old(notified) + Notifications(listener, AwaitSettled(old(current), future).applied)
                && (AwaitSettled(old(current), future).applied == [] ==> cachedProxyConfig == old(cachedProxyConfig))
      ensures cachedProxyConfig == old(cachedProxyConfig) || cachedProxyConfig == None
      decreases |future|
    {
      if cachedURLSessionConfiguration.Some? {
        r := Resolved(cachedURLSessionConfiguration.value);
        return;
      }
      if Settled(current) {
        cachedURLSessionConfiguration := CreateURLSessionConfiguration(current, socksProxyPort);
        sessionCachedAtPort := socksProxyPort;
        r := Resolved(cachedURLSessionConfiguration.value);
        return;
      }
      if future == [] {
        r := StillWaiting;
        return;
      }
      OnConnectionStateChanged(future[0]);
      r := GetURLSessionConfiguration(future[1..]);
      assert [future[0]] + future[1..] == future;
      var w := AwaitSettled(future[0], future[1..]);
      if w.Decided? {
        NotificationsSplit(listener, [future[0]], w.applied);
      } else {
        NotificationsSplit(listener, [future[0]], future[1..]);
        assert future[1..] != [] ==> future[1..][|future[1..]| - 1] == future[|future| - 1];
      }
    }

    /** `getProxyConfig(url, completion)`, with `host` the URL's host (None
        for a missing URL or host). A loopback host gets no proxy at once and
        a cached proxy is handed out as it is. Otherwise the loop waits from
        the current state through the `future` changes (`AwaitSettled`):
        connected gives the SOCKS proxy at the port of that moment and caches
        it, disconnected gives no proxy and clears the cache. The result is
        the completion's argument; without a settled state the completion has
        not been called yet. */
    method GetProxyConfig(host: Option<string>, future: seq<ConnectionState>) returns (r: Awaited<Option<WebSocketProxy>>)
      requires Valid()
      modifies this`current, this`cachedURLSessionConfiguration, this`cachedProxyConfig, this`notified
      ensures Valid()
      ensures host.Some? && IsLoopbackHost(host.value) ==> r == Resolved(None) && unchanged(this)
      ensures !(host.Some? && IsLoopbackHost(host.value)) && old(cachedProxyConfig).Some? ==>
                r == Resolved(old(cachedProxyConfig)) && unchanged(this)
      ensures !(host.Some? && IsLoopbackHost(host.value)) && old(cachedProxyConfig).None?
              && AwaitSettled(old(current), future).Undecided? ==>
                && r == StillWaiting
                && current == (if future == [] then old(current) else future[|future| - 1])
                && cachedProxyConfig == None
                && notified == old(notified) + Notifications(listener, future)
      ensures !(host.Some? && IsLoopbackHost(host.value)) && old(cachedProxyConfig).None?
              && AwaitSettled(old(current), future).Decided? ==>
                && current == AwaitSettled(old(current), future).settledOn
                && (current == Connected ==>
                      r == Resolved(Some(SocksWebSocketProxy(socksProxyPort))) && cachedProxyConfig == r.value)
                && (current == Disconnected ==> r == Resolved(None) && cachedProxyConfig == None)
                && notified == old(notified) + Notifications(listener, AwaitSettled(old(current), future).applied)
                && (AwaitSettled(old(current), future).applied == [] ==>
                      cachedURLSessionConfiguration == old(cachedURLSessionConfiguration))
      ensures cachedURLSessionConfiguration == old(cachedURLSessionConfiguration) || cachedURLSessionConfiguration == None
    {
      if host.Some? && IsLoopbackHost(host.value) {
        r := Resolved(None);
        return;
      }
      if cachedProxyConfig.Some? {
        r := Resolved(cachedProxyConfig);
        return;
      }
      var i := 0;
      while true
        invariant Valid() && 0 <= i <= |future|
        invariant current == (if i == 0 then old(current) else future[i - 1]) && cachedProxyConfig == None
        invariant AwaitSettled(old(current), future) == Prepend(future[..i], AwaitSettled(current, future[i..]))
        invariant notified == old(notified) + Notifications(listener, future[..i])
        invariant i == 0 ==> cachedURLSessionConfiguration == old(cachedURLSessionConfiguration)
        invariant i > 0 ==> cachedURLSessionConfiguration == None
        invariant listener == old(listener) && socksProxyPort == old(socksProxyPort)
        decreases |future| - i
      {
        if current == Connected {
          var config := SocksWebSocketProxy(socksProxyPort);
          cachedProxyConfig := Some(config);
          r := Resolved(Some(config));
          assert future[..i] + [] == future[..i];
          return;
        }
        if current == Disconnected {
          cachedProxyConfig := None;
          r := Resolved(None);
          assert future[..i] + [] == future[..i];
          return;
        }
        if i == |future| {
          r := StillWaiting;
          assert future[..i] == future;
          return;
        }
        ghost var rest := future[i..];
        assert rest[0] == future[i] && rest[1..] == future[i + 1..];
        PrependAssociates(future[..i], [future[i]], AwaitSettled(future[i], future[i + 1..]));
        assert future[..i + 1] == future[..i] + [future[i]];
        OnConnectionStateChanged(future[i]);
        NotificationsSplit(listener, future[..i], [future[i]]);
        i := i + 1;
      }
    }
  }
}
