# Psiphon React Native sample app: tunnel lifecycle, state store and proxy routing

A Dafny model of the native side of the Psiphon React Native sample app.
The app embeds the Psiphon tunnel library and routes the JavaScript
layer's HTTP requests through it. The model covers:

- **The three Android lifecycle classes.** These are the React Native module
  `PsiphonNativeModule` and the `PsiphonHelper` singletons of the app
  (`com.psiphonreactnativetestapp`) and of the library
  (`ca.psiphon.nativemodule`). Each is a class with the source's fields: the
  HTTP (and SOCKS) port, the stopping flag, the latch and the thread. Each
  also has a `StateRelay` holding the `BehaviorRelay` of connection states.
  Every callback and lifecycle step changes them in place. The worker thread
  is a program counter (`Lifecycle.WorkerPhase`). A stop's `join` runs the
  rest of the worker as one step, and the engine's outcome is a parameter.
  Ghost effect logs record engine stops, error events, uncaught failures and
  start-result callbacks.
- **The connection-state store.** The relay's history, what a subscriber
  receives, and `distinctUntilChanged`, with its laws (no adjacent repeats,
  nothing lost, idempotence, one-step delivery).
- **The Android proxy route decisions.** A blocking `firstOrError()` wait on
  the state stream is a scan over the values the relay delivers. The library
  helper's proxy selector sends loopback hosts directly, and otherwise uses
  the first CONNECTED (HTTP proxy on localhost at the port of that moment) or
  STOPPED (no proxy). The `fetch` of the two app classes waits for the first
  CONNECTED only.
- **Request parameters and response rules.** The `ReqParams` builder (a
  class), method dispatch ignoring case, the proxy-only-for-a-positive-port
  rule, the classification of a response or an `IOException`, and the error
  message for a bad status.
- **The two iOS `PsiphonTunnelDelegate`s.** The app's delegate caches a
  session configuration and a WebSocket proxy per state, and waits on a
  semaphore for a settled state. The module's delegate installs a closure
  and waits on a dispatch group. A wait takes the state changes still to
  come and applies them until one settles it; `TunnelConfig.AwaitSettled`
  specifies the result.

The files are `wrappers.dfy`, `states.dfy`, `lifecycle.dfy`, `scan.dfy`,
`text.dfy` and `store.dfy` (shared definitions), plus `routing.dfy` and
`request.dfy` (the Android decisions). Each core source file has its own
model file: `android_module.dfy`, `android_helper.dfy`,
`library_helper.dfy`, `ios_config.dfy` (shared by both iOS delegates),
`ios_app_delegate.dfy` and `ios_module_delegate.dfy`.

On an engine failure, the two `com.psiphonreactnativetestapp` classes only
stop the engine: `runPsiphonTunnel` also emits an error event, and
`startPsiphonTunnel` rethrows. Neither clears the thread, and neither
publishes STOPPED, so the relay stays at its last state until `stopPsiphon`
(`TunnelingFailed`). Only the library helper publishes STOPPED after a
failed start.

## Model

| member | source | states |
|---|---|---|
| ConnectionStore.StateRelay.CreateDefault | android/app/src/main/java/com/psiphonreactnativetestapp/PsiphonNativeModule.java:62 | a new relay holds the default value and has held nothing else |
| ConnectionStore.StateRelay.Accept | android/app/src/main/java/com/psiphonreactnativetestapp/PsiphonNativeModule.java:112-115 | `accept` makes the value current and appends it to the history; nothing else changes |
| ConnectionStore.Replay | android/app/src/main/java/com/psiphonreactnativetestapp/PsiphonHelper.java:65-72 | a subscriber of the bare relay receives the value current when it subscribed first, every later value after it, and ends at the current value |
| ConnectionStore.DistinctFrom | android/app/src/main/java/com/psiphonreactnativetestapp/PsiphonHelper.java:65-70 | `distinctUntilChanged` after a value already emitted never emits more than it is given and ends where its input ends |
| ConnectionStore.DistinctFromNoRepeats | android/app/src/main/java/com/psiphonreactnativetestapp/PsiphonHelper.java:65-70 | after the last emitted value, `distinctUntilChanged` never emits two equal values in a row |
| ConnectionStore.DistinctFromKeepsValues | android/app/src/main/java/com/psiphonreactnativetestapp/PsiphonHelper.java:65-70 | every value emitted is from the input, and every input value is emitted unless it repeats the value emitted last |
| ConnectionStore.Distinct | android/app/src/main/java/com/psiphonreactnativetestapp/PsiphonHelper.java:65-70 | the de-duplicated stream starts with the first value and ends with the last one; it has no adjacent repeats and holds exactly the input's values |
| ConnectionStore.DistinctFromSnoc | android/app/src/main/java/com/psiphonreactnativetestapp/PsiphonHelper.java:65-70 | one more input value is emitted exactly when it differs from the last one emitted |
| ConnectionStore.DistinctFromOfDuplicateFree | android/app/src/main/java/com/psiphonreactnativetestapp/PsiphonHelper.java:65-70 | a stream without adjacent repeats that does not start with the previous value passes unchanged |
| ConnectionStore.DistinctOfDuplicateFree | android/app/src/main/java/com/psiphonreactnativetestapp/PsiphonHelper.java:65-70 | a stream without adjacent repeats passes `distinctUntilChanged` unchanged, so no transition is lost or reordered |
| ConnectionStore.DistinctIdempotent | android/app/src/main/java/com/psiphonreactnativetestapp/PsiphonHelper.java:65-70 | de-duplicating twice is the same as de-duplicating once |
| ConnectionStore.DistinctSubscriberStartsWithCurrent | android/app/src/main/java/com/psiphonreactnativetestapp/PsiphonHelper.java:65-72 | a subscriber of the de-duplicated view first receives the value current when it subscribed, and never two equal values in a row |
| ConnectionStore.PublishDelivery | android/app/src/main/java/com/psiphonreactnativetestapp/PsiphonHelper.java:65-72 | one more `accept` extends what a subscriber of the de-duplicated view receives by the new value exactly when it differs from the current one |
| Text.LowerAscii | ios/Psiphon/PsiphonTunnelDelegate.swift:196 | each ASCII upper-case letter maps to its own lower-case letter (code point plus 32); every other character is kept |
| Text.UpperAscii | android/app/src/main/java/com/psiphonreactnativetestapp/PsiphonNativeModule.java:309-317 | each ASCII lower-case letter maps to its own upper-case letter (code point minus 32); every other character is kept |
| Text.LowerCased | ios/Psiphon/PsiphonTunnelDelegate.swift:196 | `lowercased()` keeps the length and lower-cases each character |
| Text.EqualsIgnoreCase | android/app/src/main/java/com/psiphonreactnativetestapp/PsiphonNativeModule.java:309-317 | `equalsIgnoreCase` holds exactly when both strings have the same length and agree at every position once lower-cased |
| Text.EqualsIgnoreCaseIffLowerCasedEqual | android/app/src/main/java/com/psiphonreactnativetestapp/PsiphonNativeModule.java:309-317 | `equalsIgnoreCase` holds exactly when both strings have the same lower-cased form |
| Text.EqualsIgnoreCaseTransitive | android/app/src/main/java/ca/psiphon/nativemodule/PsiphonHelper.java:169-173 | equality ignoring case is symmetric and transitive |
| Text.LowerCasedFixesNonLetters | ios/Psiphon/PsiphonTunnelDelegate.swift:195-197 | a literal without letters is its own lower-cased form, so a host matches it after lower-casing exactly when it equals it |
| Text.DigitChar | android/app/src/main/java/com/psiphonreactnativetestapp/PsiphonNativeModule.java:343-344 | a decimal digit value gives a digit character |
| Text.NatToDigits | android/app/src/main/java/com/psiphonreactnativetestapp/PsiphonNativeModule.java:343-344 | a natural number is written as a non-empty string of digits, with a leading zero only for zero itself |
| Text.DigitsRoundTrip | android/app/src/main/java/com/psiphonreactnativetestapp/PsiphonNativeModule.java:343-344 | reading back the digits of a natural number gives that number |
| Text.IntToString | android/app/src/main/java/com/psiphonreactnativetestapp/PsiphonNativeModule.java:343-344 | `Integer.toString` gives digits after a minus sign exactly for a negative number, and reading the text back gives that number, negative ones included |
| Scan.FirstIndex | android/app/src/main/java/ca/psiphon/nativemodule/PsiphonHelper.java:151-166 | the index found is the first element with the property; None means no element has it |
| Scan.FirstIndexFrom | android/app/src/main/java/ca/psiphon/nativemodule/PsiphonHelper.java:151-166 | when no match lies before the start index, the scan from there finds the first match of the whole sequence, or None when there is none |
| ProxyRouting.StatesOf | android/app/src/main/java/ca/psiphon/nativemodule/PsiphonHelper.java:151-166 | the states of the delivered values, in order |
| ProxyRouting.DistinctByStateFrom | android/app/src/main/java/ca/psiphon/nativemodule/PsiphonHelper.java:151-153 | de-duplicating delivered values by state emits exactly the states `DistinctFrom` emits |
| ProxyRouting.DistinctByState | android/app/src/main/java/ca/psiphon/nativemodule/PsiphonHelper.java:151-153 | de-duplicating delivered values by state emits exactly the states `Distinct` emits |
| ProxyRouting.FirstDecision | android/app/src/main/java/ca/psiphon/nativemodule/PsiphonHelper.java:151-166 | the selector is still blocked exactly when no delivered value is CONNECTED or STOPPED |
| ProxyRouting.Decide | android/app/src/main/java/ca/psiphon/nativemodule/PsiphonHelper.java:154-166 | CONNECTED gives the HTTP proxy on localhost at the port recorded with it, STOPPED gives NO_PROXY |
| ProxyRouting.FirstDecisionAt | android/app/src/main/java/ca/psiphon/nativemodule/PsiphonHelper.java:154-166 | when CONNECTED comes first the decision is the HTTP proxy on localhost at the port recorded with it; when STOPPED comes first it is NO_PROXY |
| ProxyRouting.FirstDecisionOfTail | android/app/src/main/java/ca/psiphon/nativemodule/PsiphonHelper.java:161-162 | an undecided head (CONNECTING, STOPPING, WAITING_FOR_NETWORK) is passed over |
| ProxyRouting.DistinctKeepsFirstDecisionFrom | android/app/src/main/java/ca/psiphon/nativemodule/PsiphonHelper.java:56-61 | after an undecided value, `distinctUntilChanged` does not change the decision |
| ProxyRouting.DistinctKeepsFirstDecision | android/app/src/main/java/ca/psiphon/nativemodule/PsiphonHelper.java:56-61 | `distinctUntilChanged` in front of the selector's wait never changes its decision |
| ProxyRouting.FirstDecisionWithCurrent | android/app/src/main/java/ca/psiphon/nativemodule/PsiphonHelper.java:63 | the replayed current value decides when it is CONNECTED or STOPPED; otherwise the values delivered after it decide |
| ProxyRouting.SelectProxy | android/app/src/main/java/ca/psiphon/nativemodule/PsiphonHelper.java:145-167 | a localhost host gets NO_PROXY at once; any other host gets the first decision of the state stream |
| ProxyRouting.IsLocalhost | android/app/src/main/java/ca/psiphon/nativemodule/PsiphonHelper.java:169-173 | `isLocalhost` holds exactly for "localhost" in any case, "127.0.0.1" and "::1" |
| ProxyRouting.LocalhostBypassesState | android/app/src/main/java/ca/psiphon/nativemodule/PsiphonHelper.java:146-149 | for a host string that is "localhost" in any case, "127.0.0.1" or "::1" the answer is NO_PROXY whatever the state stream holds (the host of an IPv6 URI keeps its brackets, see "Left out") |
| ProxyRouting.FetchProxyPort | android/app/src/main/java/com/psiphonreactnativetestapp/PsiphonNativeModule.java:155-164 | the tunnelled fetch waits exactly while no delivered value is CONNECTED, and otherwise uses the port recorded with the first CONNECTED |
| ProxyRouting.StoppedDecidesSelectorNotFetch | android/app/src/main/java/com/psiphonreactnativetestapp/PsiphonNativeModule.java:158-163 | a STOPPED value gives the selector NO_PROXY but leaves the fetch waiting |
| RequestRules.DefaultMethod | android/app/src/main/java/com/psiphonreactnativetestapp/PsiphonNativeModule.java:270-278 | a null method means "GET"; any other method is kept as given |
| RequestRules.Builder.constructor | android/app/src/main/java/com/psiphonreactnativetestapp/PsiphonNativeModule.java:264-268 | a new builder has no method, no URI, no body and port 0 |
| RequestRules.Builder.SetMethod | android/app/src/main/java/com/psiphonreactnativetestapp/PsiphonNativeModule.java:270-278 | the builder's method becomes the given one, or GET when it is null |
| RequestRules.Builder.SetUri | android/app/src/main/java/com/psiphonreactnativetestapp/PsiphonNativeModule.java:280-283 | the URI is set |
| RequestRules.Builder.SetBody | android/app/src/main/java/com/psiphonreactnativetestapp/PsiphonNativeModule.java:285-288 | the body is set, a null included |
| RequestRules.Builder.SetHttpProxyPort | android/app/src/main/java/com/psiphonreactnativetestapp/PsiphonNativeModule.java:290-293 | the port is set |
| RequestRules.Builder.Build | android/app/src/main/java/com/psiphonreactnativetestapp/PsiphonNativeModule.java:295-297 | the parameters are exactly the builder's fields |
| RequestRules.Dispatch | android/app/src/main/java/com/psiphonreactnativetestapp/PsiphonNativeModule.java:309-317 | GET, POST, PUT and HEAD are recognised ignoring case; POST carries the body, PUT an empty one, and any other name leaves the builder's default |
| RequestRules.DispatchIgnoresCase | android/app/src/main/java/com/psiphonreactnativetestapp/PsiphonNativeModule.java:309-317 | two method names equal ignoring case build the same request |
| RequestRules.ClientProxy | android/app/src/main/java/com/psiphonreactnativetestapp/PsiphonNativeModule.java:320-322 | a proxy is configured exactly for a positive port: HTTP on localhost at that port |
| RequestRules.IsSuccessful | android/app/src/main/java/com/psiphonreactnativetestapp/PsiphonNativeModule.java:330 | `isSuccessful` holds exactly for a status in the 2xx class |
| RequestRules.BadCodeMessage | android/app/src/main/java/com/psiphonreactnativetestapp/PsiphonNativeModule.java:342-345 | the bad-status message is the fixed prefix followed by the decimal code, and the code can be read back from it |
| RequestRules.Classify | android/app/src/main/java/com/psiphonreactnativetestapp/PsiphonNativeModule.java:329-351 | a 2xx response gives its body, or "" with no body; any other status gives an error carrying it; an IOException gives an I/O error |
| RequestRules.BuildRequest | android/app/src/main/java/com/psiphonreactnativetestapp/PsiphonNativeModule.java:307-318 | a missing method or URI fails with a null dereference; otherwise the request has the URI and the dispatched kind |
| RequestRules.FetchObservable | android/app/src/main/java/com/psiphonreactnativetestapp/PsiphonNativeModule.java:301-360 | a request that cannot be built is never sent and fails with a null dereference; otherwise the built request is sent through `ClientProxy` of the parameters' port, and the subscriber receives nothing once disposed and otherwise the classification of the server's answer to that call (OkHttp's URL check is not modelled, see "Left out") |
| RequestRules.FetchResult | android/app/src/main/java/com/psiphonreactnativetestapp/PsiphonNativeModule.java:148-177 | a direct fetch never waits, and once the wait is over the request is always sent with the given URL and the dispatched method |
| RequestRules.FetchResultWaitsForConnected | android/app/src/main/java/com/psiphonreactnativetestapp/PsiphonNativeModule.java:148-177 | a direct fetch is sent at once with no proxy; a tunnelled fetch waits exactly while no CONNECTED has been delivered and is then sent through `ClientProxy` of the port recorded with the first CONNECTED (HTTP on localhost when positive); the promise receives the classification of the server's answer to that call unless disposed (for a URL OkHttp accepts, see "Left out") |
| ReactNativeModule.PsiphonNativeModule.constructor | android/app/src/main/java/com/psiphonreactnativetestapp/PsiphonNativeModule.java:55-62 | both ports are -1, the relay holds STOPPED, there is no thread and the stopping flag is clear |
| ReactNativeModule.PsiphonNativeModule.OnListeningHttpProxyPort | android/app/src/main/java/com/psiphonreactnativetestapp/PsiphonNativeModule.java:102-105 | the HTTP port is recorded |
| ReactNativeModule.PsiphonNativeModule.OnListeningSocksProxyPort | android/app/src/main/java/com/psiphonreactnativetestapp/PsiphonNativeModule.java:107-110 | the SOCKS port is recorded |
| ReactNativeModule.PsiphonNativeModule.OnConnected | android/app/src/main/java/com/psiphonreactnativetestapp/PsiphonNativeModule.java:112-115 | CONNECTED is published |
| ReactNativeModule.PsiphonNativeModule.OnConnecting | android/app/src/main/java/com/psiphonreactnativetestapp/PsiphonNativeModule.java:117-123 | CONNECTING is published unless a stop is under way |
| ReactNativeModule.PsiphonNativeModule.OnStartedWaitingForNetworkConnectivity | android/app/src/main/java/com/psiphonreactnativetestapp/PsiphonNativeModule.java:125-128 | WAITING_FOR_NETWORK is published |
| ReactNativeModule.PsiphonNativeModule.StartPsiphon | android/app/src/main/java/com/psiphonreactnativetestapp/PsiphonNativeModule.java:130-138 | with a thread present it does nothing; otherwise it creates one latch and one new worker thread |
| ReactNativeModule.PsiphonNativeModule.RunPsiphonTunnel | android/app/src/main/java/com/psiphonreactnativetestapp/PsiphonNativeModule.java:205-207 | the worker clears the stopping flag, publishes CONNECTING and enters `startTunneling` |
| ReactNativeModule.PsiphonNativeModule.TunnelingStarted | android/app/src/main/java/com/psiphonreactnativetestapp/PsiphonNativeModule.java:209-214 | after `startTunneling` returns the worker blocks on the latch |
| ReactNativeModule.PsiphonNativeModule.TunnelingFailed | android/app/src/main/java/com/psiphonreactnativetestapp/PsiphonNativeModule.java:215-220 | an engine failure emits an error event, sets the stopping flag and stops the engine; the thread reference stays and nothing is published |
| ReactNativeModule.PsiphonNativeModule.AwaitReturns | android/app/src/main/java/com/psiphonreactnativetestapp/PsiphonNativeModule.java:211-220 | after the latch is released the stopping flag is set and the engine is stopped |
| ReactNativeModule.PsiphonNativeModule.JoinWorker | android/app/src/main/java/com/psiphonreactnativetestapp/PsiphonNativeModule.java:227-228 | the join runs the rest of the worker: the states it publishes and the effects it has are fixed by the worker's phase and the engine's outcome |
| Lifecycle.WorkerStates | android/app/src/main/java/com/psiphonreactnativetestapp/PsiphonNativeModule.java:205-221 | in the module and in the app helper (`PsiphonHelper.java:151-168`), the rest of the worker publishes CONNECTING exactly when it had not run yet, and never STOPPED |
| ReactNativeModule.JoinEffects | android/app/src/main/java/com/psiphonreactnativetestapp/PsiphonNativeModule.java:205-221 | the engine is stopped exactly when the worker had not yet finished, and last; an error event is emitted exactly when the start fails |
| ReactNativeModule.PsiphonNativeModule.StopPsiphonTunnelThread | android/app/src/main/java/com/psiphonreactnativetestapp/PsiphonNativeModule.java:223-236 | release the latch and join the worker; then the thread and latch are cleared and STOPPED is published |
| ReactNativeModule.PsiphonNativeModule.StopPsiphon | android/app/src/main/java/com/psiphonreactnativetestapp/PsiphonNativeModule.java:140-146 | without a thread nothing changes; otherwise STOPPING is published first and STOPPED last, the thread and latch are gone, and the stopping flag is set, so a late `onConnecting` publishes nothing |
| ReactNativeModule.PsiphonNativeModule.Fetch | android/app/src/main/java/com/psiphonreactnativetestapp/PsiphonNativeModule.java:148-177 | the promise receives `FetchResult` for the current relay value followed by the later ones; `RequestRules.FetchResultWaitsForConnected` states what that means |
| AppHelper.PsiphonHelper.constructor | android/app/src/main/java/com/psiphonreactnativetestapp/PsiphonHelper.java:59-63 | the port is -1, the relay holds STOPPED, and there is no thread |
| AppHelper.PsiphonHelper.ConnectionStates | android/app/src/main/java/com/psiphonreactnativetestapp/PsiphonHelper.java:65-70 | a subscriber of `getConnectionStateObservable` first receives the value current when it subscribed and ends at the current value; it never gets two equal values in a row and gets exactly the values the relay held since |
| AppHelper.PsiphonHelper.OnListeningHttpProxyPort | android/app/src/main/java/com/psiphonreactnativetestapp/PsiphonHelper.java:123-126 | the HTTP port is recorded |
| AppHelper.PsiphonHelper.OnConnected | android/app/src/main/java/com/psiphonreactnativetestapp/PsiphonHelper.java:133-136 | CONNECTED is published |
| AppHelper.PsiphonHelper.OnConnecting | android/app/src/main/java/com/psiphonreactnativetestapp/PsiphonHelper.java:138-144 | CONNECTING is published unless a stop is under way |
| AppHelper.PsiphonHelper.OnStartedWaitingForNetworkConnectivity | android/app/src/main/java/com/psiphonreactnativetestapp/PsiphonHelper.java:146-149 | WAITING_FOR_NETWORK is published |
| AppHelper.PsiphonHelper.StartPsiphon | android/app/src/main/java/com/psiphonreactnativetestapp/PsiphonHelper.java:78-88 | with a thread present it does nothing; otherwise it creates one latch and one new worker thread |
| AppHelper.PsiphonHelper.StartPsiphonTunnel | android/app/src/main/java/com/psiphonreactnativetestapp/PsiphonHelper.java:151-155 | the worker clears the stopping flag, publishes CONNECTING and enters `startTunneling` |
| AppHelper.PsiphonHelper.TunnelingStarted | android/app/src/main/java/com/psiphonreactnativetestapp/PsiphonHelper.java:156-160 | after `startTunneling` returns the worker blocks on the latch |
| AppHelper.PsiphonHelper.TunnelingFailed | android/app/src/main/java/com/psiphonreactnativetestapp/PsiphonHelper.java:161-167 | an engine failure sets the stopping flag and stops the engine, then escapes the thread; the thread reference stays and nothing is published |
| AppHelper.PsiphonHelper.AwaitReturns | android/app/src/main/java/com/psiphonreactnativetestapp/PsiphonHelper.java:156-167 | after the latch is released the stopping flag is set and the engine is stopped |
| AppHelper.PsiphonHelper.JoinWorker | android/app/src/main/java/com/psiphonreactnativetestapp/PsiphonHelper.java:175-177 | the join runs the rest of the worker: the states it publishes and the effects it has are fixed by the worker's phase and the engine's outcome |
| AppHelper.JoinEffects | android/app/src/main/java/com/psiphonreactnativetestapp/PsiphonHelper.java:151-168 | the engine is stopped exactly when the worker had not yet finished, and first; the failure escapes the thread exactly when the start fails |
| AppHelper.PsiphonHelper.StopPsiphonTunnel | android/app/src/main/java/com/psiphonreactnativetestapp/PsiphonHelper.java:170-185 | release the latch and join the worker only if there is one; in every case the thread and latch are cleared and STOPPED is published |
| AppHelper.PsiphonHelper.StopPsiphon | android/app/src/main/java/com/psiphonreactnativetestapp/PsiphonHelper.java:90-95 | without a thread nothing changes; otherwise STOPPING is published first and STOPPED last, the thread and latch are gone, and the stopping flag is set, so a late `onConnecting` publishes nothing |
| AppHelper.PsiphonHelper.Fetch | android/app/src/main/java/com/psiphonreactnativetestapp/PsiphonHelper.java:187-215 | the promise receives `FetchResult` for the current relay value followed by the later ones |
| AppHelper.HelperSingleton.constructor | android/app/src/main/java/com/psiphonreactnativetestapp/PsiphonHelper.java:37 | no instance exists at first |
| AppHelper.HelperSingleton.GetInstance | android/app/src/main/java/com/psiphonreactnativetestapp/PsiphonHelper.java:39-44 | the first call creates a fresh helper in its initial state; every later call returns that same helper |
| LibraryHelper.JoinStates | android/app/src/main/java/ca/psiphon/nativemodule/PsiphonHelper.java:121-130 | a join publishes CONNECTING exactly when the worker had not run yet, and STOPPED exactly when the start fails |
| LibraryHelper.JoinEffects | android/app/src/main/java/ca/psiphon/nativemodule/PsiphonHelper.java:121-130 | the engine is stopped first; the success callback runs exactly when the start succeeds and the error callback exactly when it fails, never both |
| LibraryHelper.PsiphonHelper.constructor | android/app/src/main/java/ca/psiphon/nativemodule/PsiphonHelper.java:49-63 | the port is -1, the relay holds STOPPED, and there is no config and no thread |
| LibraryHelper.PsiphonHelper.GetPsiphonConfig | android/app/src/main/java/ca/psiphon/nativemodule/PsiphonHelper.java:79-85 | the stored config, or an illegal-state error with the fixed message when none is set |
| LibraryHelper.PsiphonHelper.WorkerHasConfig | android/app/src/main/java/ca/psiphon/nativemodule/PsiphonHelper.java:117-123 | while a worker exists, reading the config succeeds |
| LibraryHelper.PsiphonHelper.ConnectionStates | android/app/src/main/java/ca/psiphon/nativemodule/PsiphonHelper.java:56-61 | a subscriber first receives the current value and ends at the current value; it never gets two equal values in a row and gets exactly the values the relay held since |
| LibraryHelper.PsiphonHelper.OnListeningHttpProxyPort | android/app/src/main/java/ca/psiphon/nativemodule/PsiphonHelper.java:89-92 | the HTTP port is recorded |
| LibraryHelper.PsiphonHelper.OnConnected | android/app/src/main/java/ca/psiphon/nativemodule/PsiphonHelper.java:99-102 | CONNECTED is published |
| LibraryHelper.PsiphonHelper.OnConnecting | android/app/src/main/java/ca/psiphon/nativemodule/PsiphonHelper.java:104-110 | CONNECTING is published unless a stop is under way |
| LibraryHelper.PsiphonHelper.OnStartedWaitingForNetworkConnectivity | android/app/src/main/java/ca/psiphon/nativemodule/PsiphonHelper.java:112-115 | WAITING_FOR_NETWORK is published |
| LibraryHelper.PsiphonHelper.StartPsiphon | android/app/src/main/java/ca/psiphon/nativemodule/PsiphonHelper.java:117-133 | the config is always recorded; with a thread present nothing else happens, otherwise one latch and one worker thread are created |
| LibraryHelper.PsiphonHelper.StartPsiphonTunnel | android/app/src/main/java/ca/psiphon/nativemodule/PsiphonHelper.java:182-186 | the worker clears the stopping flag, publishes CONNECTING and enters `startTunneling` |
| LibraryHelper.PsiphonHelper.TunnelingStarted | android/app/src/main/java/ca/psiphon/nativemodule/PsiphonHelper.java:187-191 | after `startTunneling` returns the worker blocks on the latch |
| LibraryHelper.PsiphonHelper.TunnelingFailed | android/app/src/main/java/ca/psiphon/nativemodule/PsiphonHelper.java:192-198 | on an engine failure: `finally` sets the stopping flag and stops the engine; then the thread's handler (lines 125-129) calls the error callback, stops the engine again and publishes STOPPED |
| LibraryHelper.PsiphonHelper.AwaitReturns | android/app/src/main/java/ca/psiphon/nativemodule/PsiphonHelper.java:187-198 | after the latch is released, `finally` sets the stopping flag and stops the engine; only then does the thread call the success callback (line 124) |
| LibraryHelper.PsiphonHelper.JoinWorker | android/app/src/main/java/ca/psiphon/nativemodule/PsiphonHelper.java:206-208 | the join runs the rest of the worker: its states and effects are `JoinStates` and `JoinEffects` of the phase and the outcome |
| LibraryHelper.PsiphonHelper.StopPsiphonTunnel | android/app/src/main/java/ca/psiphon/nativemodule/PsiphonHelper.java:201-216 | release the latch and join the worker only if there is one; in every case the thread and latch are cleared and STOPPED is published |
| LibraryHelper.PsiphonHelper.StopPsiphon | android/app/src/main/java/ca/psiphon/nativemodule/PsiphonHelper.java:135-140 | without a thread nothing changes; otherwise STOPPING is published first and STOPPED last, the thread and latch are gone, and the stopping flag is set, so a late `onConnecting` publishes nothing |
| LibraryHelper.PsiphonHelper.Select | android/app/src/main/java/ca/psiphon/nativemodule/PsiphonHelper.java:142-173 | a localhost host goes direct; a current CONNECTED gives the HTTP proxy at the current port; a current STOPPED gives NO_PROXY; any other current state leaves the decision to the first decisive later value |
| LibraryHelper.HelperSingleton.constructor | android/app/src/main/java/ca/psiphon/nativemodule/PsiphonHelper.java:27 | no instance exists at first |
| LibraryHelper.HelperSingleton.GetInstance | android/app/src/main/java/ca/psiphon/nativemodule/PsiphonHelper.java:29-34 | the first call creates a fresh helper without a config; every later call returns that same helper |
| TunnelConfig.ThroughSocksExcludesDirect | ios/Psiphon/PsiphonTunnelDelegate.swift:167-176 | no configuration is both tunnelled and direct |
| TunnelConfig.CreateURLSessionConfiguration | ios/Psiphon/PsiphonTunnelDelegate.swift:160-179 | a configuration exists exactly for CONNECTED and DISCONNECTED: SOCKS on 127.0.0.1 at the given port, or SOCKS disabled |
| TunnelConfig.SocksWebSocketProxy | ios/Psiphon/PsiphonTunnelDelegate.swift:213-217 | the WebSocket proxy is of SOCKS type on 127.0.0.1 at the SOCKS port |
| TunnelConfig.IsLoopbackHost | ios/Psiphon/PsiphonTunnelDelegate.swift:195-200 | the iOS bypass holds exactly for "localhost" in any case and for "127.0.0.1" |
| TunnelConfig.LoopbackHostIsLocalhostButIPv6 | ios/Psiphon/PsiphonTunnelDelegate.swift:195-200 | the iOS bypass holds exactly when the Android `isLocalhost` holds and the host is not "::1" |
| TunnelConfig.IPv6LoopbackNotBypassed | ios/Psiphon/PsiphonTunnelDelegate.swift:195-200 | the host string "::1" satisfies the Android `isLocalhost` but not the iOS bypass test (the host of an IPv6 URI keeps its brackets, see "Left out") |
| TunnelConfig.AwaitSettled | ios/Psiphon/PsiphonTunnelDelegate.swift:151-154 | a wait that decides, decides on CONNECTED or DISCONNECTED |
| TunnelConfig.AwaitSettledFindsFirstSettled | ios/Psiphon/PsiphonTunnelDelegate.swift:207-235 | the wait is undecided exactly when no state is settled; otherwise it settles on the first settled state, after applying exactly the changes before it |
| TunnelConfig.PrependAssociates | ios/Psiphon/PsiphonTunnelDelegate.swift:207-235 | changes applied in two runs are the changes of both, in order |
| TunnelConfig.NotificationsDeliverEach | ios/Psiphon/PsiphonTunnelDelegate.swift:55 | without a listener nothing is delivered; a listener receives every state, in order |
| TunnelConfig.NotificationsSplit | ios/Psiphon/PsiphonTunnelDelegate.swift:55 | notifying for two runs of states is notifying for each in turn |
| AppTunnelDelegate.PsiphonTunnelDelegate.constructor | ios/Psiphon/PsiphonTunnelDelegate.swift:13-26 | both ports are 0, the state is DISCONNECTED, and there are no caches, no listener and no tunnel |
| AppTunnelDelegate.PsiphonTunnelDelegate.OnConnectionStateChanged | ios/Psiphon/PsiphonTunnelDelegate.swift:52-71 | the new state is recorded, the listener is notified and both caches are cleared; a cached value is never stale |
| AppTunnelDelegate.PsiphonTunnelDelegate.OnListeningHttpProxyPort | ios/Psiphon/PsiphonTunnelDelegate.swift:73-77 | the HTTP port is recorded |
| AppTunnelDelegate.PsiphonTunnelDelegate.OnListeningSocksProxyPort | ios/Psiphon/PsiphonTunnelDelegate.swift:79-83 | the SOCKS port is recorded |
| AppTunnelDelegate.PsiphonTunnelDelegate.StartPsiphonTunnelAsync | ios/Psiphon/PsiphonTunnelDelegate.swift:88-105 | the session cache is cleared and the config stored; the completion and the tunnel's presence follow the start's outcome |
| AppTunnelDelegate.PsiphonTunnelDelegate.StopPsiphonTunnelAsync | ios/Psiphon/PsiphonTunnelDelegate.swift:108-114 | the session cache is cleared, an existing tunnel is stopped once, and the tunnel is dropped |
| AppTunnelDelegate.PsiphonTunnelDelegate.StartSendingConnectionStateUpdates | ios/Psiphon/PsiphonTunnelDelegate.swift:117-123 | the listener is replaced and receives the current state at once |
| AppTunnelDelegate.PsiphonTunnelDelegate.StopSendingConnectionStateUpdates | ios/Psiphon/PsiphonTunnelDelegate.swift:126-130 | the listener is removed |
| AppTunnelDelegate.PsiphonTunnelDelegate.GetURLSessionConfiguration | ios/Psiphon/PsiphonTunnelDelegate.swift:138-157 | a cached configuration is returned unchanged; otherwise the lookup waits for the first settled state and returns and caches the configuration for it |
| AppTunnelDelegate.PsiphonTunnelDelegate.GetProxyConfig | ios/Psiphon/PsiphonTunnelDelegate.swift:194-237 | a loopback host gets no proxy and a cached proxy is returned; otherwise the first settled state decides: CONNECTED gives and caches the SOCKS proxy, DISCONNECTED gives none and clears the cache |
| ModuleTunnelDelegate.ConnectedConfiguration | ios/PsiphonNativeModule/PsiphonTunnelDelegate.swift:106-116 | SOCKS enabled on 127.0.0.1 at the SOCKS port |
| ModuleTunnelDelegate.DisconnectedConfiguration | ios/PsiphonNativeModule/PsiphonTunnelDelegate.swift:118-126 | SOCKS disabled, nothing else set |
| ModuleTunnelDelegate.SettledConfiguration | ios/PsiphonNativeModule/PsiphonTunnelDelegate.swift:137-139 | CONNECTED gives the tunnelled configuration and DISCONNECTED the direct one |
| ModuleTunnelDelegate.SameConfigurationAsAppDelegate | ios/PsiphonNativeModule/PsiphonTunnelDelegate.swift:106-126 | for a settled state both iOS delegates hand out the same proxy dictionary |
| ModuleTunnelDelegate.PsiphonTunnelDelegate.constructor | ios/PsiphonNativeModule/PsiphonTunnelDelegate.swift:14-28 | both ports are 0, the state is DISCONNECTED, and the slot and the listener are empty |
| ModuleTunnelDelegate.PsiphonTunnelDelegate.OnConnectionStateChanged | ios/PsiphonNativeModule/PsiphonTunnelDelegate.swift:134-142 | corrected: an installed closure acts on a settled state once: it stores that state's configuration, leaves its group and empties the slot |
| ModuleTunnelDelegate.PsiphonTunnelDelegate.OnConnectionStateChangedAsWritten | ios/PsiphonNativeModule/PsiphonTunnelDelegate.swift:134-142 | as written: the closure stays installed, so every settled state leaves its group again |
| ModuleTunnelDelegate.PsiphonTunnelDelegate.OnListeningHttpProxyPort | ios/PsiphonNativeModule/PsiphonTunnelDelegate.swift:48-52 | the HTTP port is recorded |
| ModuleTunnelDelegate.PsiphonTunnelDelegate.OnListeningSocksProxyPort | ios/PsiphonNativeModule/PsiphonTunnelDelegate.swift:54-58 | the SOCKS port is recorded |
| ModuleTunnelDelegate.PsiphonTunnelDelegate.StartPsiphonTunnelAsync | ios/PsiphonNativeModule/PsiphonTunnelDelegate.swift:63-79 | the config is stored; the completion and the tunnel's presence follow the start's outcome |
| ModuleTunnelDelegate.PsiphonTunnelDelegate.StopPsiphonTunnelAsync | ios/PsiphonNativeModule/PsiphonTunnelDelegate.swift:82-87 | an existing tunnel is stopped once and dropped |
| ModuleTunnelDelegate.PsiphonTunnelDelegate.StartSendingConnectionStateUpdates | ios/PsiphonNativeModule/PsiphonTunnelDelegate.swift:149-153 | the listener is replaced and receives the current state at once |
| ModuleTunnelDelegate.PsiphonTunnelDelegate.StopSendingConnectionStateUpdates | ios/PsiphonNativeModule/PsiphonTunnelDelegate.swift:155-157 | the listener is removed |
| ModuleTunnelDelegate.PsiphonTunnelDelegate.InstallWaiter | ios/PsiphonNativeModule/PsiphonTunnelDelegate.swift:131-142 | a new group is entered and its closure installed, replacing (abandoning) any earlier one |
| ModuleTunnelDelegate.PsiphonTunnelDelegate.WaitForConnection | ios/PsiphonNativeModule/PsiphonTunnelDelegate.swift:128-147 | the caller blocks until the first settled state and gets its configuration; the group is entered and left exactly once |
| ModuleTunnelDelegate.PsiphonTunnelDelegate.GetURLSessionConfiguration | ios/PsiphonNativeModule/PsiphonTunnelDelegate.swift:91-104 | a settled state gives its configuration at once and changes nothing; any other state waits as `WaitForConnection` does: a new group is entered and a replaced closure abandoned, and either the first settled state's configuration is returned after exactly the changes up to it, with one leave, or the caller is still blocked after all the changes, with the last one current and every one notified |
| ModuleTunnelDelegate.SecondSettledStateAsWritten | ios/PsiphonNativeModule/PsiphonTunnelDelegate.swift:128-147 | as written: a request waits while CONNECTING, then CONNECTED and DISCONNECTED arrive; the one group is left twice |
| ModuleTunnelDelegate.SecondSettledStateCorrected | ios/PsiphonNativeModule/PsiphonTunnelDelegate.swift:128-147 | corrected: the same events leave the group exactly once, and the request gets the tunnelled configuration |

## Left out

- Threads, the `CountDownLatch`, `Thread.join`, the Rx schedulers (`subscribeOn`/`observeOn`), the iOS dispatch queues with their barriers, the semaphore and the dispatch group are modelled as atomic steps taken in an order the caller chooses. Interleavings inside one step (a state change racing a cache check, say) are not modelled.
- An interrupted `await` or `join` (`InterruptedException`) is not modelled; each blocking call ends normally.
- The tunnel engine itself (`startTunneling`, `stop`, `start(true)`) is not part of this model. Its only modelled output is success or failure, given as a parameter.
- Network I/O is not part of this model: the OkHttp call, timeouts (the 30-second constant alone is recorded), `Call.cancel` on disposal, and closing the response body. What the server answers to each call is a parameter (a function from `RequestRules.Call` to `RequestRules.Exchange`), and disposal is a boolean.
- The `IOException`'s own message inside the `RuntimeException` is not modelled; only the kind of error is.
- The OkHttp `RequestBody.create` of a null POST body and `Uri.parse`/`InetSocketAddress` validation (port range, unresolved host) are not modelled.
- RequestRules.FetchObservable: every URL is taken to be one OkHttp accepts. In the source, `Request.Builder.url` throws `IllegalArgumentException` for a URL without an http or https scheme (for example "example.com"); inside the observable this becomes an error, so the promise is rejected and nothing is sent, while the model sends the request. A null `url` is not modelled either: `Uri.parse(null)` throws in `fetch` itself, before any observable exists; the model's URL is always a string.
- The selector is given the host as a string. `URI.getHost()` keeps the brackets of an IPv6 literal, so for `http://[::1]/` it gives "[::1]", which `isLocalhost` does not match; the `"::1"` case of `ProxyRouting.IsLocalhost` is reached only by a host string without brackets. A URI without a host (a null `getHost()`) is not modelled.
- Case folding is ASCII only. Java's `equalsIgnoreCase` and Swift's `lowercased()` on other characters are not modelled.
- The config file and JSON reading of the React Native module's `getPsiphonConfig`, React Native event emission (`emitEvent`, its listener count), `addListener`/`removeListeners` and the `CompositeDisposable` are not part of this model. The event the module emits on an engine failure is recorded as an effect only.
- `AppTunnelDelegate.PsiphonTunnelDelegate.GetPsiphonConfig` and `ModuleTunnelDelegate.PsiphonTunnelDelegate.GetPsiphonConfig` return the stored config and carry no contract of their own.
- The two helpers' `onListeningSocksProxyPort` has an empty body and is not modelled.
- The app's iOS delegate resets the React Native HTTP handler's private `_session`/`_delegates` through key-value coding on every state change; this is not modelled. The same goes for its cookie settings in `createURLSessionConfiguration` and for the bridge.
- Neither iOS delegate stops a tunnel replaced by a second `startPsiphonTunnelAsync`. The model only records that a tunnel exists.
- The uncaught-exception handler of the app helper rethrows on the failing thread. It is modelled as an `UncaughtFailure` effect; what the runtime then does is not modelled.
- The semaphore's permit count in the app's iOS delegate is not modelled. There, a wait consumes the next state change; a signal with no waiter, which the semaphore would keep for a later wait, is not carried over.
- Several concurrent waiters on the module's iOS delegate are reduced to its single slot. A replaced closure is counted as `abandoned`: its caller never wakes.
- The glue files (`PsiphonPackage`, `MainApplication`, the Swift `PsiphonNativeModule`, `App.tsx`) are callers and are not modelled.
- ReactNativeModule.PsiphonNativeModule.Fetch: assumes that no relay value arrives while the request is in flight. The `switchMap` runs over the raw relay, so in the source any later value (CONNECTING, STOPPING, STOPPED, WAITING_FOR_NETWORK, or CONNECTED again, since `onConnected` publishes unconditionally) disposes of the in-flight request, and the promise then waits for the next CONNECTED, which sends the request again with the port of that moment. The model sends the request once, for the first CONNECTED.
- AppHelper.PsiphonHelper.Fetch: assumes the same, and so does not model the cancellation by any later relay value or the re-sending on the next CONNECTED.
- LibraryHelper.PsiphonHelper.Select: a `switchMap` restart cannot change the outcome here, because every inner observable answers at once; the model states the first decision only.

## Findings

| source | as written | input that shows it | evidently intended | confidence | as-written member | corrected member |
|---|---|---|---|---|---|---|
| ios/PsiphonNativeModule/PsiphonTunnelDelegate.swift:128-147 | `waitForConnection` installs a closure in `onConnectionStateChanged` that calls `group.leave()` on every CONNECTED or DISCONNECTED. The closure is never removed after it has released its caller. | The state is CONNECTING; `getURLSessionConfiguration` waits; CONNECTED arrives (leave 1, the request proceeds); then DISCONNECTED arrives, and the same closure leaves the group, entered once, a second time. | The closure leaves its group once and the slot is emptied, so each `enter` has exactly one `leave`. | not executed | ModuleTunnelDelegate.SecondSettledStateAsWritten | ModuleTunnelDelegate.SecondSettledStateCorrected |
