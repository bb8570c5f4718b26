/** What the two iOS tunnel delegates share: the library's connection
    states, the `URLSessionConfiguration` proxy dictionaries they build, the
    SOCKS proxy description handed to WebSocket connections, the loopback
    test, and the listener notifications. */
module TunnelConfig {
  import opened Wrappers
  import Text
  import ProxyRouting

  /** `PsiphonConnectionState`. */
  datatype ConnectionState = Disconnected | Connecting | Connected | WaitingForNetwork

  /** The states a configuration lookup decides on; every other state makes
      it wait for the next change. */
  predicate Settled(s: ConnectionState) {
    s == Connected || s == Disconnected
  }

  /** Keys of `connectionProxyDictionary`: `kCFStreamPropertySOCKSProxy`,
      `kCFStreamPropertySOCKSProxyHost`, `kCFStreamPropertySOCKSProxyPort`. */
  datatype ProxyKey = SocksProxy | SocksProxyHost | SocksProxyPort

  datatype ProxyValue = Number(n: int) | Str(s: string)

  /** A session configuration, reduced to its proxy dictionary. */
  datatype SessionConfiguration = SessionConfiguration(proxies: map<ProxyKey, ProxyValue>)

  const LoopbackAddress: string := "127.0.0.1"

  /** SOCKS enabled, on the loopback address, at `port`. */
  predicate ThroughSocks(c: SessionConfiguration, port: int) {
    && c.proxies.Keys == {SocksProxy, SocksProxyHost, SocksProxyPort}
    && c.proxies[SocksProxy] == Number(1)
    && c.proxies[SocksProxyHost] == Str(LoopbackAddress)
    && c.proxies[SocksProxyPort] == Number(port)
  }

  /** SOCKS explicitly disabled, nothing else set. */
  predicate Direct(c: SessionConfiguration) {
    c.proxies.Keys == {SocksProxy} && c.proxies[SocksProxy] == Number(0)
  }

  /** No configuration both tunnels and goes direct. */
  lemma ThroughSocksExcludesDirect(c: SessionConfiguration, port: int)
    ensures !(ThroughSocks(c, port) && Direct(c))
  {
    if ThroughSocks(c, port) {
      assert SocksProxyHost in c.proxies.Keys;
    }
  }

  /** `createURLSessionConfiguration(for:)`: a configuration only for a
      settled state, tunnelled when connected and direct when disconnected. */
  function CreateURLSessionConfiguration(state: ConnectionState, socksProxyPort: int): (r: Option<SessionConfiguration>)
    ensures r.Some? <==> Settled(state)
    ensures state == Connected ==> ThroughSocks(r.value, socksProxyPort)
    ensures state == Disconnected ==> Direct(r.value)
  {
    match state
    case Connected =>
      Some(SessionConfiguration(map[SocksProxy := Number(1), SocksProxyHost := Str(LoopbackAddress),
                                    SocksProxyPort := Number(socksProxyPort)]))
    case Disconnected => Some(SessionConfiguration(map[SocksProxy := Number(0)]))
    case _ => None
  }

  /** `kCFProxyTypeSOCKS`, the only proxy type handed out. */
  datatype ProxyType = SocksType

  /** The proxy dictionary `getProxyConfig` hands to a WebSocket
      connection: type, host name, port number. */
  datatype WebSocketProxy = WebSocketProxy(proxyType: ProxyType, hostName: string, portNumber: int)

  function SocksWebSocketProxy(socksProxyPort: int): (p: WebSocketProxy)
    ensures p.proxyType == SocksType && p.hostName == LoopbackAddress && p.portNumber == socksProxyPort
  {
    WebSocketProxy(SocksType, LoopbackAddress, socksProxyPort)
  }

  /** The bypass test of `getProxyConfig`: the lower-cased host is
      "localhost" or "127.0.0.1". */
  predicate IsLoopbackHost(host: string): (r: bool)
    ensures r <==> Text.EqualsIgnoreCase(host, "localhost") || host == LoopbackAddress
  {
    Text.EqualsIgnoreCaseIffLowerCasedEqual(host, "localhost");
    assert Text.LowerCased("localhost") == "localhost";
    Text.LowerCasedFixesNonLetters(host, LoopbackAddress);
    Text.LowerCased(host) == "localhost" || Text.LowerCased(host) == LoopbackAddress
  }

  /** The iOS bypass is the Android selector's `isLocalhost` without its
      IPv6 case: "localhost" may differ in case on both platforms, the dotted
      address has no letters and so must match exactly on both, and "::1" is
      bypassed on Android only. */
  lemma LoopbackHostIsLocalhostButIPv6(host: string)
    ensures IsLoopbackHost(host) <==> ProxyRouting.IsLocalhost(host) && host != "::1"
  {
    Text.EqualsIgnoreCaseIffLowerCasedEqual(host, "localhost");
    assert Text.LowerCased("localhost") == "localhost";
    Text.LowerCasedFixesNonLetters(host, LoopbackAddress);
    Text.LowerCasedFixesNonLetters(host, "::1");
  }

  lemma IPv6LoopbackNotBypassed()
    ensures ProxyRouting.IsLocalhost("::1") && !IsLoopbackHost("::1")
  {
    LoopbackHostIsLocalhostButIPv6("::1");
  }

  /** How a lookup that waits for a settled state ends, given the states
      still to come: it settles on `settledOn` after the changes `applied`
      have happened, or it is still waiting once they all have. */
  datatype WaitOutcome = Decided(applied: seq<ConnectionState>, settledOn: ConnectionState) | Undecided

  /** The changes `p` happened before the wait `w` began. */
  function Prepend(p: seq<ConnectionState>, w: WaitOutcome): WaitOutcome {
    match w
    case Undecided => Undecided
    case Decided(a, s) => Decided(p + a, s)
  }

  /** Waiting from state `cur`: a settled state decides at once, otherwise
      the next change is applied and the wait starts again from it. */
  function AwaitSettled(cur: ConnectionState, future: seq<ConnectionState>): (w: WaitOutcome)
    ensures w.Decided? ==> Settled(w.settledOn)
    decreases |future|
  {
    if Settled(cur) then Decided([], cur)
    else if future == [] then Undecided
    else Prepend([future[0]], AwaitSettled(future[0], future[1..]))
  }

  /** What the wait means: it settles on the first settled state among the
      current and the coming ones, after applying exactly the changes before
      it, and it is still waiting exactly when there is none. */
  lemma {:induction false} AwaitSettledFindsFirstSettled(cur: ConnectionState, future: seq<ConnectionState>)
    ensures AwaitSettled(cur, future).Undecided? <==>
              !Settled(cur) && forall j :: 0 <= j < |future| ==> !Settled(future[j])
    ensures AwaitSettled(cur, future).Decided? ==>
              var n := |AwaitSettled(cur, future).applied|;
              && n <= |future|
              && AwaitSettled(cur, future).applied == future[..n]
              && AwaitSettled(cur, future).settledOn == ([cur] + future)[n]
              && Settled(([cur] + future)[n])
              && forall j :: 0 <= j < n ==> !Settled(([cur] + future)[j])
    decreases |future|
  {
    if !Settled(cur) && future != [] {
      var t := future[1..];
      AwaitSettledFindsFirstSettled(future[0], t);
      assert future == [future[0]] + t;
      var w := AwaitSettled(future[0], t);
      if w.Decided? {
        var n := |w.applied|;
        assert ([cur] + future)[n + 1] == ([future[0]] + t)[n];
        assert future[..n + 1] == [future[0]] + t[..n];
        forall j | 0 <= j < n + 1 ensures !Settled(([cur] + future)[j]) {
          if j > 0 {
            assert ([cur] + future)[j] == ([future[0]] + t)[j - 1];
          }
        }
      } else {
        forall j | 0 <= j < |future| ensures !Settled(future[j]) {
          if j > 0 {
            assert future[j] == t[j - 1];
          }
        }
      }
    }
  }

  /** Changes applied in two runs are the changes of both, in order. */
  lemma PrependAssociates(p: seq<ConnectionState>, q: seq<ConnectionState>, w: WaitOutcome)
    ensures Prepend(p, Prepend(q, w)) == Prepend(p + q, w)
  {
    if w.Decided? {
      assert p + (q + w.applied) == (p + q) + w.applied;
    }
  }

  /** The deliveries a registered listener receives for a run of states:
      each state, in order, tagged with the listener's identity. */
  function Notifications(listener: Option<nat>, states: seq<ConnectionState>): seq<(nat, ConnectionState)>
    decreases |states|
  {
    if listener.None? || states == [] then []
    else [(listener.value, states[0])] + Notifications(listener, states[1..])
  }

  /** Without a listener nothing is delivered; with one, every state is
      delivered to it, in order. */
  lemma {:induction false} NotificationsDeliverEach(listener: Option<nat>, states: seq<ConnectionState>)
    ensures listener.None? ==> Notifications(listener, states) == []
    ensures listener.Some? ==>
              && |Notifications(listener, states)| == |states|
              && forall i :: 0 <= i < |states| ==> Notifications(listener, states)[i] == (listener.value, states[i])
    decreases |states|
  {
    if listener.Some? && states != [] {
      NotificationsDeliverEach(listener, states[1..]);
    }
  }

  /** Notifying for a run of states is notifying for each in turn. */
  lemma {:induction false} NotificationsSplit(listener: Option<nat>, a: seq<ConnectionState>, b: seq<ConnectionState>)
    ensures Notifications(listener, a + b) == Notifications(listener, a) + Notifications(listener, b)
    decreases |a|
  {
    if a == [] {
      assert a + b == b;
    } else if listener.Some? {
      assert (a + b)[1..] == a[1..] + b;
      NotificationsSplit(listener, a[1..], b);
    }
  }
}
