/** Proxy route decisions on Android. A blocking wait on the state stream
    (`firstOrError().blockingGet()` after a `switchMap` that skips undecided
    states) becomes a scan over the finite sequence of values the stream
    delivers: the first decisive element decides, and when there is none the
    caller is still blocked. */
module ProxyRouting {
  import opened Wrappers
  import opened PsiphonStates
  import opened ConnectionStore
  import opened Scan
  import Text

  /** A value delivered by a relay together with the `httpProxyPort` field
      as it stood when the value was delivered. */
  datatype Observed = Observed(state: PsiphonState, httpProxyPort: int)

  function StatesOf(s: seq<Observed>): (r: seq<PsiphonState>)
    ensures |r| == |s| && forall i :: 0 <= i < |s| ==> r[i] == s[i].state
  {
    if s == [] then [] else [s[0].state] + StatesOf(s[1..])
  }

  /** `distinctUntilChanged` on the state stream, keeping each emitted
      value's port: the first of every run of equal states is emitted. */
  function DistinctByStateFrom(prev: PsiphonState, s: seq<Observed>): (r: seq<Observed>)
    ensures StatesOf(r) == DistinctFrom(prev, StatesOf(s))
    decreases |s|
  {
    if s == [] then []
    else
      assert StatesOf(s)[1..] == StatesOf(s[1..]);
      if s[0].state == prev then DistinctByStateFrom(prev, s[1..])
      else [s[0]] + DistinctByStateFrom(s[0].state, s[1..])
  }

  function DistinctByState(s: seq<Observed>): (r: seq<Observed>)
    ensures StatesOf(r) == Distinct(StatesOf(s))
  {
    if s == [] then []
    else
      assert StatesOf(s)[1..] == StatesOf(s[1..]);
      [s[0]] + DistinctByStateFrom(s[0].state, s[1..])
  }

  /** The proxy list a `ProxySelector` returns, reduced to its one element. */
  datatype Proxy = NoProxy | HttpProxy(host: string, port: int)

  predicate DecidesRoute(o: Observed) {
    IsDecisive(o.state)
  }

  /** The `switch` inside the selector's `switchMap`: CONNECTED routes
      through the HTTP proxy on localhost at the port recorded with it,
      STOPPED routes directly. */
  function Decide(o: Observed): (p: Proxy)
    requires DecidesRoute(o)
    ensures p.HttpProxy? <==> o.state == Connected
    ensures p.NoProxy? <==> o.state == Stopped
    ensures p.HttpProxy? ==> p.host == "localhost" && p.port == o.httpProxyPort
  {
    if o.state == Connected then HttpProxy("localhost", o.httpProxyPort) else NoProxy
  }

  /** The decision of the first decisive delivered value; `StillWaiting`
      when none of them is decisive. */
  function FirstDecision(delivered: seq<Observed>): (r: Awaited<Proxy>)
    ensures r.StillWaiting? <==> forall j :: 0 <= j < |delivered| ==> !IsDecisive(delivered[j].state)
  {
    match FirstIndex(delivered, DecidesRoute)
    case None => StillWaiting
    case Some(k) => Resolved(Decide(delivered[k]))
  }

  /** A decision is reached at index `k` exactly when `k` is the first
      decisive value; CONNECTED gives the HTTP proxy on localhost at the port
      recorded at that moment, STOPPED gives no proxy. */
  lemma FirstDecisionAt(delivered: seq<Observed>, k: nat)
    requires k < |delivered| && IsDecisive(delivered[k].state)
    requires forall j :: 0 <= j < k ==> !IsDecisive(delivered[j].state)
    ensures delivered[k].state == Connected ==>
              FirstDecision(delivered) == Resolved(HttpProxy("localhost", delivered[k].httpProxyPort))
    ensures delivered[k].state == Stopped ==> FirstDecision(delivered) == Resolved(NoProxy)
  {
    assert DecidesRoute(delivered[k]);
  }

  /** De-duplicating the stream does not change the selector's decision:
      the first decisive value is always the first of its run, so
      `distinctUntilChanged` lets it through with its own port. */
  lemma {:induction false} DistinctKeepsFirstDecisionFrom(prev: PsiphonState, s: seq<Observed>)
    requires !IsDecisive(prev)
    ensures FirstDecision(DistinctByStateFrom(prev, s)) == FirstDecision(s)
    decreases |s|
  {
    if s != [] {
      var rest := DistinctByStateFrom(prev, s);
      if s[0].state == prev {
        DistinctKeepsFirstDecisionFrom(prev, s[1..]);
        FirstDecisionOfTail(s);
      } else if IsDecisive(s[0].state) {
        assert rest == [s[0]] + DistinctByStateFrom(s[0].state, s[1..]);
        FirstDecisionAt(rest, 0);
        FirstDecisionAt(s, 0);
      } else {
        assert rest == [s[0]] + DistinctByStateFrom(s[0].state, s[1..]);
        DistinctKeepsFirstDecisionFrom(s[0].state, s[1..]);
        FirstDecisionOfTail(s);
        FirstDecisionOfTail(rest);
      }
    }
  }

  /** Skipping an undecided head does not change the decision. */
  lemma FirstDecisionOfTail(s: seq<Observed>)
    requires s != [] && !IsDecisive(s[0].state)
    ensures FirstDecision(s) == FirstDecision(s[1..])
  {
    var t := s[1..];
    var r := FirstIndex(t, DecidesRoute);
    if r.Some? {
      var k := r.value;
      assert s[k + 1] == t[k];
      forall j | 0 <= j < k + 1 ensures !IsDecisive(s[j].state) {
        if j > 0 {
          assert s[j] == t[j - 1];
          assert !DecidesRoute(t[j - 1]);
        }
      }
      assert DecidesRoute(t[k]);
      FirstDecisionAt(s, k + 1);
      FirstDecisionAt(t, k);
    } else {
      forall j | 0 <= j < |s| ensures !IsDecisive(s[j].state) {
        if j > 0 {
          assert s[j] == t[j - 1];
          assert !DecidesRoute(t[j - 1]);
        }
      }
    }
  }

  lemma DistinctKeepsFirstDecision(s: seq<Observed>)
    ensures FirstDecision(DistinctByState(s)) == FirstDecision(s)
  {
    if s != [] {
      var d := DistinctByState(s);
      assert d == [s[0]] + DistinctByStateFrom(s[0].state, s[1..]);
      if IsDecisive(s[0].state) {
        FirstDecisionAt(d, 0);
        FirstDecisionAt(s, 0);
      } else {
        DistinctKeepsFirstDecisionFrom(s[0].state, s[1..]);
        FirstDecisionOfTail(s);
        FirstDecisionOfTail(d);
        assert d[1..] == DistinctByStateFrom(s[0].state, s[1..]);
      }
    }
  }

  /** The relay replays its current value first: a decisive current value
      decides on its own, an undecided one leaves the decision to the values
      delivered after it. */
  lemma FirstDecisionWithCurrent(current: Observed, later: seq<Observed>)
    ensures current.state == Connected ==>
              FirstDecision([current] + later) == Resolved(HttpProxy("localhost", current.httpProxyPort))
    ensures current.state == Stopped ==> FirstDecision([current] + later) == Resolved(NoProxy)
    ensures !IsDecisive(current.state) ==> FirstDecision([current] + later) == FirstDecision(later)
  {
    var d := [current] + later;
    if IsDecisive(current.state) {
      FirstDecisionAt(d, 0);
    } else {
      FirstDecisionOfTail(d);
      assert d[1..] == later;
    }
  }

  /** The selector's `isLocalhost`: "localhost" in any case, or exactly one
      of the loopback literals. */
  predicate IsLocalhost(host: string): (r: bool)
    ensures r <==> Text.LowerCased(host) == "localhost" || host == "127.0.0.1" || host == "::1"
  {
    Text.EqualsIgnoreCaseIffLowerCasedEqual(host, "localhost");
    assert Text.LowerCased("localhost") == "localhost";
    Text.EqualsIgnoreCase(host, "localhost") || host == "127.0.0.1" || host == "::1"
  }

  /** `select(uri)` of the proxy selector built by
      `makePsiphonEnabledOkHttpClientBuilder`, for a URI whose host is `host`,
      when the relay delivers the values `delivered` (its current value
      first). The selector waits on the de-duplicated view of that stream;
      by `DistinctKeepsFirstDecision` this is the first decision of the raw
      stream. */
  function SelectProxy(host: string, delivered: seq<Observed>): (r: Awaited<Proxy>)
    ensures IsLocalhost(host) ==> r == Resolved(NoProxy)
    ensures !IsLocalhost(host) ==> r == FirstDecision(delivered)
  {
    DistinctKeepsFirstDecision(delivered);
    if IsLocalhost(host) then Resolved(NoProxy) else FirstDecision(DistinctByState(delivered))
  }

  /** A loopback host never waits and never goes through the tunnel,
      whatever the state stream holds. */
  lemma LocalhostBypassesState(host: string, a: seq<Observed>, b: seq<Observed>)
    requires Text.LowerCased(host) == "localhost" || host == "127.0.0.1" || host == "::1"
    ensures SelectProxy(host, a) == SelectProxy(host, b) == Resolved(NoProxy)
  {
    Text.EqualsIgnoreCaseIffLowerCasedEqual(host, "localhost");
    assert Text.LowerCased("localhost") == "localhost";
  }

  /** The `fetch` wait of the two React Native classes: only CONNECTED
      decides, and it yields the port recorded when it was delivered; STOPPED
      and every other state yield nothing and the wait goes on. */
  predicate IsConnected(o: Observed) {
    o.state == Connected
  }

  function FetchProxyPort(delivered: seq<Observed>): (r: Awaited<int>)
    ensures r.StillWaiting? <==> forall j :: 0 <= j < |delivered| ==> delivered[j].state != Connected
    ensures r.Resolved? ==>
              exists k :: (0 <= k < |delivered| && delivered[k].state == Connected
                           && r.value == delivered[k].httpProxyPort
                           && forall j :: 0 <= j < k ==> delivered[j].state != Connected)
  {
    match FirstIndex(delivered, IsConnected)
    case None => StillWaiting
    case Some(k) =>
      assert forall j :: 0 <= j < k ==> !IsConnected(delivered[j]);
      Resolved(delivered[k].httpProxyPort)
  }

  /** A delivered STOPPED routes the Android selector directly but leaves
      `fetch` waiting: the two waits differ on exactly this state. */
  lemma StoppedDecidesSelectorNotFetch(port: int)
    ensures FirstDecision([Observed(Stopped, port)]) == Resolved(NoProxy)
    ensures FetchProxyPort([Observed(Stopped, port)]) == StillWaiting
  {
    FirstDecisionAt([Observed(Stopped, port)], 0);
  }
}
