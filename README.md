# Sonos event subscriptions (`events.py`) in Dafny

This project models the `Events` class of SoCo's `events.py`. The class lets a
program receive the UPnP GENA event notifications a Sonos speaker pushes. It
has three parts:

- **A listener registry.** `subscribe` and `unsubscribe` keep a dictionary
  from event type string to a set of callbacks. Each call first checks the
  event type, ignoring case, against the closed set {`ALL`,
  `TRACK_CHANGED`}. The key stored is the string exactly as the caller passed
  it. An entry is deleted as soon as its set becomes empty.
- **A notification handler.** `__event_server` answers any request whose
  method is not `NOTIFY` with `405 Method Not Allowed` and `Allow: NOTIFY`
  (RFC 7231, sections 6.5.5 and 7.4.1). A `NOTIFY` request invokes the
  callbacks stored under the placeholder event type `None`, then those under
  the literal key `'ALL'`. It answers `200 OK` with no headers and an empty
  body.
- **The subscribe handshake.** `start` binds the callback server. It then
  builds the SUBSCRIBE request of UPnP Device Architecture 1.0, section 4.1:
  the AVTransport event URL on port 1400, a `Callback: <http://ip:port>` header
  and `NT: upnp:event`. `stop` does nothing when no server was ever created.

Layout:

- `wrappers.dfy`: the `Option`, `Result` and `Outcome` datatypes.
- `case_folding.dfy`: `upper()`/`lower()` on ASCII, and case-insensitive equality.
- `event_types.dfy`: the valid event types and the check.
- `registry.dfy`: subscribe and unsubscribe as functions on the dictionary, with their lemmas.
- `dispatch.dfy`: the response choice and which callbacks a request invokes.
- `http.dfy`: the request and response values.
- `handshake.dfy`: the header and URL strings, with parsers that invert them.
- `events.dfy`: class `Events`, whose methods update `listeners` and
  `server` in place and are proved against the functions above.

Callbacks are values of a type parameter `L`. They are compared by Python
equality, which `==` on `L` models: two accesses of the same bound method are
different objects that compare equal. Each invocation is recorded as a
`Call(callback, payload)`.

Quirks of the code the model keeps:

- **Keys are not normalised.** A callback subscribed under the default
  `'all'` (or `'All'`, `'track_changed'`, ...) is stored under that spelling.
  Dispatch only looks up `'ALL'`, so such a callback is never invoked.
- **Removing an absent callback fails.** In `unsubscribe`, `set.remove`
  raises `KeyError` when the callback is missing from an existing set. This is
  modelled as `Fail(CallbackNotRegistered(t))`. Unsubscribing from an event
  type that has no entry returns quietly.
- **Callback exceptions propagate.** `__event_server` does not catch an
  exception raised by a callback, and nothing ever removes a callback other
  than `unsubscribe`.
- **Start and stop are explicit.** `subscribe` and `unsubscribe` never start
  or stop the server. Those steps remain TODO comments in events.py.
- **Validation as written always errors.** In the class, the bare name
  `__VALID_EVENT_TYPES` is name-mangled to an undefined global, so every call
  raises `NameError` before it compares anything. The error message also uses
  an undefined `subscription`. The model implements the evident intent: reject
  an event type whose upper-case form is not in the set.

## Model

| member | source | states |
|---|---|---|
| `EventTypes.IsValidEventType` | events.py:28-31 | the event-type check holds exactly when the argument equals `ALL` or `TRACK_CHANGED` ignoring case (the set of events.py:13-16) |
| `EventTypes.DefaultEventTypeIsValid` | events.py:23 | the default `'all'`, in every capitalisation, passes the check |
| `CaseFolding.UpperEqualIffEqualsIgnoringCase` | events.py:28 | comparing `upper()` forms is case-insensitive equality, defined position by position without either fold |
| `CaseFolding.LowerEqualIffEqualsIgnoringCase` | events.py:102 | comparing `lower()` forms is case-insensitive equality, defined position by position without either fold |
| `Registry.Subscribe` | events.py:23-38 | succeeds exactly when the event-type check passes, and otherwise fails with `InvalidEventType`; on success the key as given is present and holds its old set plus the callback; every other key and set is unchanged; no key maps to an empty set afterwards if none did before |
| `Registry.Unsubscribe` | events.py:40-62 | invalid type fails; an absent key leaves the registry unchanged; a callback missing from an existing set fails with `CallbackNotRegistered`; otherwise the callback is removed and the key is deleted exactly when its set was just that callback; other keys unchanged; no empty sets kept |
| `Registry.SubscribeIdempotent` | events.py:33-38 | subscribing the same callback to the same type twice gives the registry of subscribing once |
| `Registry.UnsubscribeUndoesSubscribe` | events.py:33-58 | unsubscribing a freshly subscribed callback restores the registry it started from |
| `Registry.UnsubscribeTwice` | events.py:50-58 | a repeated unsubscribe fails, unless the first one deleted the key, in which case it is ignored |
| `Events.Events.constructor` | events.py:18-21 | a new object has an empty registry, no server and the given speaker address |
| `Events.Events.Subscribe` | events.py:23-38 | the new `listeners` is `Registry.Subscribe` of the old one, or unchanged with the same error; the no-empty-set invariant is kept |
| `Events.Events.Unsubscribe` | events.py:40-62 | the new `listeners` is `Registry.Unsubscribe` of the old one, or unchanged with the same error; the invariant is kept |
| `Events.Events.Start` | events.py:64-81 | the server is bound to the given host and port and running; the request returned is the SUBSCRIBE request for this speaker with the local address and that port |
| `Events.Events.Stop` | events.py:83-89 | with no server nothing changes, and `stopped` is false where the source logs its warning; otherwise the same server is marked stopped |
| `Events.Events.EventServer` | events.py:91-127 | the response is `Dispatch.Respond` of the method; a non-NOTIFY request invokes nothing; a NOTIFY request invokes each callback under the placeholder type (none, since `None` is never a key, events.py:114-116), then each under `'ALL'` (events.py:118-120), exactly once each, all with the body line, and only callbacks in `Dispatch.Invoked` |
| `Dispatch.IsNotify` | events.py:102 | the method test holds exactly when the method equals `NOTIFY` ignoring case |
| `Dispatch.Respond` | events.py:92-124 | `200 OK` exactly for NOTIFY in any case, with no headers and an empty body; otherwise `405 Method Not Allowed` with exactly two headers, `Allow: NOTIFY` and `Content-Type: text/plain`, and the fixed message |
| `Dispatch.Invoked` | events.py:102-120 | a request invokes exactly the callbacks under the literal key `'ALL'` when it is NOTIFY, and none otherwise; the `None` lookup of events.py:114-116 adds nothing |
| `Dispatch.InvokeAll` | events.py:115-120 | every callback of the set is invoked exactly once, with the body and nothing else |
| `Dispatch.OnlyWildcardKeyIsDispatched` | events.py:33-38 | a callback subscribed under any key but `'ALL'`, the default `'all'` included, is stored but never invoked |
| `Dispatch.WildcardSubscriberIsDispatched` | events.py:118-120 | a callback subscribed under `'ALL'` is invoked by every NOTIFY request |
| `Dispatch.WildcardScenario` | events.py:112-120 | A under `'ALL'` and B under `'TRACK_CHANGED'`: only A is invoked; after B is also added under `'ALL'`, both are |
| `Handshake.Decimal` | events.py:71 | the port is written as non-empty decimal digits with no leading zero |
| `Handshake.DecimalRoundTrip` | events.py:71 | the decimal digits written for a port read back as that port |
| `Handshake.Endpoint` | events.py:11 | the URL is `http://`, then exactly the speaker address, then `:1400/MediaRenderer/AVTransport/Event` (recovered by `Handshake.EndpointRoundTrip`) |
| `Handshake.CallbackHeader` | events.py:71 | the header value is `<http://`, the local address, `:`, the decimal port and `>`; `Handshake.CallbackRoundTrip` recovers address and port from it |
| `Handshake.SubscribeHeaders` | events.py:70-73 | two headers: `Callback` with `CallbackHeader` of the local address and port, and `NT` with `upnp:event`; `Handshake.SubscribeRequest` carries them |
| `Handshake.EndpointRoundTrip` | events.py:75 | the speaker address can be recovered from the endpoint URL |
| `Handshake.CallbackRoundTrip` | events.py:71 | the local address and port can be recovered from the Callback header, whatever the address contains |
| `Handshake.SubscribeRequest` | events.py:70-78 | verb SUBSCRIBE; the URL names the speaker; `NT` is `upnp:event`; `Callback` names the local address and port |

## Left out

- The non-string event type (`TypeError`, events.py:24-26, 41-43) cannot
  arise: the event type parameter is typed `string`.
- Case folding covers ASCII letters only. Python's Unicode `upper()` and
  `lower()` also fold some other characters, such as the dotless `ı` to `I`.
  None of the folds we know of turns a non-ASCII character into a letter of
  `ALL` or `TRACK_CHANGED` by upper-casing, or of `notify` by lower-casing. So
  for these comparisons the ASCII model should decide as Python does.
- `__get_local_ip` (events.py:129-143) opens a UDP socket. The local address
  is a parameter of `Start`.
- Creating, starting and stopping the gevent WSGI server (events.py:65-66, 89)
  are left out, as are binding its port and serving requests. `Server` records
  only the address and whether the server was stopped.
- The SUBSCRIBE call itself and `raise_for_status` (events.py:78-81) belong to
  the `requests` library and the network. `Start` returns the request it would
  send, and does not model a failure response.
- Reading from `wsgi.input` (events.py:103) is left out. The `body` given to
  `EventServer` stands for the line `readline()` returns: the first line of
  the request body, not all of it. It is an opaque byte sequence. `start_response` and the
  one-element response list become the returned `Response`.
- Registry.Subscribe: assumes every callback is hashable. With an unhashable
  callback, events.py:34 stores an empty set and the `.add` at events.py:38
  then raises `TypeError`. The registry is left with an empty set, which the
  no-empty-set invariant excludes. `Events.Events.Subscribe` makes the same
  assumption.
- Events.Events.EventServer: "each callback exactly once" assumes every callback returns.
  An exception in a callback (events.py:116, 120) ends the loop: later
  callbacks are not invoked, and `start_response` (events.py:126) is never
  reached.
- Dispatch.InvokeAll: assumes every callback returns, as for `Events.Events.EventServer`.
- What the callbacks do is left out. Only which callbacks are invoked, and
  with what payload, is recorded.
- Logging (events.py:51, 85) and the text of the error messages are left out.
- Concurrency between the server and the callers is left out: the methods are
  modelled as atomic steps.
