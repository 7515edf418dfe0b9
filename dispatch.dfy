/**
 * The decision `Events.__event_server` makes for each request it receives:
 * which response to send and which callbacks to invoke with the body.
 */
module Dispatch {
  import opened Wrappers
  import opened CaseFolding
  import opened Http
  import opened Registry

  const StatusOk: string := "200 OK"
  const StatusMethodNotAllowed: string := "405 Method Not Allowed"
  const NotAllowedHeaders: seq<Header> := [("Allow", "NOTIFY"), ("Content-Type", "text/plain")]
  const NotAllowedMessage: string := "Sorry, I only support the HTTP/1.1 NOTIFY verb.\n"

  /** The key looked up for the callbacks every notification goes to. */
  const WildcardEventType: string := "ALL"

  /**
   * The event type derived from a notification. The code never parses the
   * body and always uses `None`, which is never a key of the registry
   * because every key is a string.
   */
  const NotifiedEventType: Option<string> := None

  /** One invocation `callback(body)`. */
  datatype Call<L> = Call(callback: L, payload: Body)

  /** `environ['REQUEST_METHOD'].lower() == 'notify'` */
  predicate IsNotify(requestMethod: string): (b: bool)
    ensures b <==> EqualsIgnoringCase(requestMethod, "NOTIFY")
  {
    assert Lower("NOTIFY") == "notify";
    LowerEqualIffEqualsIgnoringCase(requestMethod, "NOTIFY");
    Lower(requestMethod) == "notify"
  }

  /** The status, headers and body the server answers a request with. */
  function Respond(requestMethod: string): (r: Response)
    ensures r.status == StatusOk <==> EqualsIgnoringCase(requestMethod, "NOTIFY")
    ensures r.status == StatusOk ==> r.headers == [] && r.body == ""
    ensures r.status != StatusOk ==>
              && r.status == StatusMethodNotAllowed
              && |r.headers| == 2
              && HeaderValue(r.headers, "Allow") == Some("NOTIFY")
              && HeaderValue(r.headers, "Content-Type") == Some("text/plain")
              && r.body == NotAllowedMessage
  {
    var notAllowed := Response(StatusMethodNotAllowed, NotAllowedHeaders, NotAllowedMessage);
    if IsNotify(requestMethod) then Response(StatusOk, [], "") else notAllowed
  }

  /** The callbacks `if key in self.__listeners: for callback in self.__listeners[key]` visits. */
  function Group<L>(m: Listeners<L>, key: Option<string>): set<L> {
    if key.Some? && key.value in m then m[key.value] else {}
  }

  /** The set of callbacks a request invokes. */
  function Invoked<L>(requestMethod: string, m: Listeners<L>): (s: set<L>)
    ensures s == if EqualsIgnoringCase(requestMethod, "NOTIFY") then Members(m, WildcardEventType) else {}
  {
    if IsNotify(requestMethod) then Group(m, NotifiedEventType) + Group(m, Some(WildcardEventType)) else {}
  }

  /** The callbacks of a sequence of invocations, in order. */
  function Callees<L>(calls: seq<Call<L>>): seq<L> {
    seq(|calls|, i requires 0 <= i < |calls| => calls[i].callback)
  }

  /**
   * `for callback in callbacks: callback(body)`: every callback of the set is
   * invoked exactly once with the body, in an order the set leaves open.
   */
  method InvokeAll<L>(callbacks: set<L>, body: Body) returns (calls: seq<Call<L>>)
    ensures multiset(Callees(calls)) == multiset(callbacks)
    ensures |calls| == |callbacks|
    ensures forall i :: 0 <= i < |calls| ==> calls[i].callback in callbacks && calls[i].payload == body
  {
    calls := [];
    var pending := callbacks;
    while pending != {}
      invariant pending <= callbacks
      invariant multiset(Callees(calls)) + multiset(pending) == multiset(callbacks)
      invariant |calls| + |pending| == |callbacks|
      invariant forall i :: 0 <= i < |calls| ==> calls[i].callback in callbacks - pending && calls[i].payload == body
      decreases pending
    {
      var callback :| callback in pending;
      assert Callees(calls + [Call(callback, body)]) == Callees(calls) + [callback];
      assert multiset(pending) == multiset(pending - {callback}) + multiset{callback};
      calls := calls + [Call(callback, body)];
      pending := pending - {callback};
    }
  }

  /**
   * A callback registered under any key other than "ALL", such as the
   * default "all", is never invoked by a request unless it is also
   * registered under "ALL".
   */
  lemma OnlyWildcardKeyIsDispatched<L>(m: Listeners<L>, callback: L, eventType: string, requestMethod: string)
    requires eventType != WildcardEventType
    requires callback !in Members(m, WildcardEventType)
    requires Subscribe(m, callback, eventType).Success?
    ensures callback in Members(Subscribe(m, callback, eventType).value, eventType)
    ensures callback !in Invoked(requestMethod, Subscribe(m, callback, eventType).value)
  {
  }

  /** Subscribing to "ALL" makes every later NOTIFY request invoke the callback. */
  lemma WildcardSubscriberIsDispatched<L>(m: Listeners<L>, callback: L, requestMethod: string)
    requires IsNotify(requestMethod)
    ensures Subscribe(m, callback, WildcardEventType).Success?
    ensures callback in Invoked(requestMethod, Subscribe(m, callback, WildcardEventType).value)
  {
  }

  /**
   * A registered under "ALL" and B under "TRACK_CHANGED": a notification
   * reaches only A. Once B is also registered under "ALL", it reaches both.
   */
  lemma WildcardScenario<L>(a: L, b: L, requestMethod: string)
    requires IsNotify(requestMethod)
    ensures Subscribe(map[], a, "ALL").Success?
    ensures Subscribe(Subscribe(map[], a, "ALL").value, b, "TRACK_CHANGED").Success?
    ensures var m1 := Subscribe(Subscribe(map[], a, "ALL").value, b, "TRACK_CHANGED").value;
            && Invoked(requestMethod, m1) == {a}
            && Subscribe(m1, b, "ALL").Success?
            && Invoked(requestMethod, Subscribe(m1, b, "ALL").value) == {a, b}
  {
  }
}
