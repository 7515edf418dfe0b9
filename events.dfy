/**
 * Class `Events` of events.py: the listener registry the application
 * updates in place, the callback server it starts and stops, and the
 * handler that answers the speaker's notifications.
 */
module Events {
  import opened Wrappers
  import opened Http
  import opened EventTypes
  import opened Registry
  import opened Dispatch
  import opened Handshake

  /** `start`'s default bind address and port. */
  const DefaultHost: string := ""
  const DefaultPort: nat := 8080

  /**
   * The callback server `start` creates and `stop` stops. Binding the socket
   * and serving requests is left to the server library; only its address and
   * whether it was stopped are kept.
   */
  datatype Server = Server(host: string, port: nat, running: bool)

  class Events<L(==)> {
    /** `self.__listeners` */
    var listeners: Listeners<L>
    /** `self.server`, `None` until `start` is called */
    var server: Option<Server>
    /** `self.speaker_ip` */
    const speakerIp: string

    ghost predicate Valid()
      reads this
    {
      NoEmptySets(listeners)
    }

    constructor (speakerIp: string)
      ensures Valid()
      ensures listeners == map[] && server == None && this.speakerIp == speakerIp
    {
      this.listeners := map[];
      this.server := None;
      this.speakerIp := speakerIp;
    }

    /** `subscribe(callback, event_type='all')` */
    method Subscribe(callback: L, eventType: string := DefaultEventType) returns (r: Outcome<Error>)
      requires Valid()
      modifies this`listeners
      ensures Valid()
      ensures match Registry.Subscribe(old(listeners), callback, eventType)
              case Success(m) => r == Pass && listeners == m
              case Failure(e) => r == Fail(e) && listeners == old(listeners)
    {
      // As written, this check raises NameError for every string: inside the
      // class the bare name __VALID_EVENT_TYPES is mangled to an undefined
      // global. The membership test it evidently means is modelled instead.
      if !IsValidEventType(eventType) {
        return Fail(InvalidEventType(eventType));
      }
      if eventType !in listeners {
        listeners := listeners[eventType := {}];
      }
      listeners := listeners[eventType := listeners[eventType] + {callback}];
      r := Pass;
    }

    /** `unsubscribe(callback, event_type='all')` */
    method Unsubscribe(callback: L, eventType: string := DefaultEventType) returns (r: Outcome<Error>)
      requires Valid()
      modifies this`listeners
      ensures Valid()
      ensures match Registry.Unsubscribe(old(listeners), callback, eventType)
              case Success(m) => r == Pass && listeners == m
              case Failure(e) => r == Fail(e) && listeners == old(listeners)
    {
      // The same NameError as in Subscribe applies to the code as written.
      if !IsValidEventType(eventType) {
        return Fail(InvalidEventType(eventType));
      }
      if eventType !in listeners {
        return Pass;
      }
      if callback !in listeners[eventType] {
        return Fail(CallbackNotRegistered(eventType));
      }
      listeners := listeners[eventType := listeners[eventType] - {callback}];
      if |listeners[eventType]| == 0 {
        listeners := listeners - {eventType};
      }
      r := Pass;
    }

    /**
     * `start(host='', port=8080)`: starts the callback server on (host, port)
     * and returns the subscription request for the speaker. `localIp` is the
     * address `__get_local_ip` reports.
     */
    method Start(localIp: string, host: string := DefaultHost, port: nat := DefaultPort) returns (request: Request)
      modifies this`server
      ensures server == Some(Server(host, port, true))
      ensures request == SubscribeRequest(speakerIp, localIp, port)
    {
      server := Some(Server(host, port, true));
      var headers := SubscribeHeaders(localIp, port);
      var endpoint := Endpoint(speakerIp);
      request := Request(SubscribeVerb, endpoint, headers);
    }

    /**
     * `stop()`: a warning and nothing else when no server was ever started.
     * The source returns nothing; `stopped` is false exactly where it logs
     * that warning.
     */
    method Stop() returns (stopped: bool)
      modifies this`server
      ensures stopped <==> old(server).Some?
      ensures old(server) == None ==> server == None
      ensures old(server).Some? ==> server == Some(old(server).value.(running := false))
    {
      if server == None {
        return false;
      }
      server := Some(server.value.(running := false));
      stopped := true;
    }

    /**
     * `__event_server(environ, start_response)` for a request with method
     * `requestMethod` and body `body`: the response, and the callbacks invoked
     * with the body, first those under the placeholder event type, then those
     * under "ALL".
     */
    method EventServer(requestMethod: string, body: Body) returns (response: Response, calls: seq<Call<L>>)
      ensures response == Respond(requestMethod)
      ensures !IsNotify(requestMethod) ==> calls == []
      ensures IsNotify(requestMethod) ==>
                var first := Group(listeners, NotifiedEventType);
                var wildcard := Members(listeners, WildcardEventType);
                && |calls| == |first| + |wildcard|
                && multiset(Callees(calls[..|first|])) == multiset(first)
                && multiset(Callees(calls[|first|..])) == multiset(wildcard)
      ensures forall i :: 0 <= i < |calls| ==> calls[i].payload == body
      ensures forall i :: 0 <= i < |calls| ==> calls[i].callback in Invoked(requestMethod, listeners)
    {
      var status := StatusMethodNotAllowed;
      var headers := NotAllowedHeaders;
      var message := NotAllowedMessage;
      calls := [];
      if IsNotify(requestMethod) {
        var eventType := NotifiedEventType;
        var first := InvokeAll(Group(listeners, eventType), body);
        calls := first;
        if WildcardEventType in listeners {
          var wildcard := InvokeAll(listeners[WildcardEventType], body);
          calls := calls + wildcard;
        }
        status := StatusOk;
        headers := [];
        message := "";
      }
      response := Response(status, headers, message);
    }
  }
}
