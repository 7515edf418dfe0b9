/**
 * The listener registry of `Events` as a value: a dictionary from the event
 * type string, exactly as the caller spelled it, to the set of callbacks
 * registered under it. `Subscribe` and `Unsubscribe` here are the
 * specification that the methods of class `Events.Events` are proved against.
 */
module Registry {
  import opened Wrappers
  import opened EventTypes

  /** `self.__listeners` */
  type Listeners<L> = map<string, set<L>>

  /** The exceptions `subscribe` and `unsubscribe` raise. */
  datatype Error =
    | InvalidEventType(eventType: string)       // the event type fails the closed-set check
    | CallbackNotRegistered(eventType: string)  // `set.remove` of a callback missing from the set

  /** The callbacks registered under `eventType`, empty when it is not a key. */
  function Members<L>(m: Listeners<L>, eventType: string): set<L> {
    if eventType in m then m[eventType] else {}
  }

  /** The registry invariant: an entry is deleted as soon as its set is empty. */
  predicate NoEmptySets<L>(m: Listeners<L>) {
    forall t :: t in m ==> m[t] != {}
  }

  /** Every key other than `eventType` is present in both or neither, with the same set. */
  ghost predicate SameElsewhere<L>(m: Listeners<L>, m': Listeners<L>, eventType: string) {
    forall t :: t != eventType ==> (t in m <==> t in m') && (t in m ==> m[t] == m'[t])
  }

  /** `subscribe(callback, event_type)` */
  function Subscribe<L>(m: Listeners<L>, callback: L, eventType: string): (r: Result<Listeners<L>, Error>)
    ensures r.Success? <==> IsValidEventType(eventType)
    ensures r.Failure? ==> r.error == InvalidEventType(eventType)
    ensures r.Success? ==>
              && eventType in r.value
              && callback in r.value[eventType]
              && r.value[eventType] == Members(m, eventType) + {callback}
              && SameElsewhere(m, r.value, eventType)
    ensures r.Success? && NoEmptySets(m) ==> NoEmptySets(r.value)
  {
    if !IsValidEventType(eventType) then
      Failure(InvalidEventType(eventType))
    else
      var m1 := if eventType !in m then m[eventType := {}] else m;
      Success(m1[eventType := m1[eventType] + {callback}])
  }

  /** `unsubscribe(callback, event_type)` */
  function Unsubscribe<L>(m: Listeners<L>, callback: L, eventType: string): (r: Result<Listeners<L>, Error>)
    ensures !IsValidEventType(eventType) ==> r == Failure(InvalidEventType(eventType))
    ensures IsValidEventType(eventType) && eventType !in m ==> r == Success(m)
    ensures IsValidEventType(eventType) && eventType in m && callback !in m[eventType] ==>
              r == Failure(CallbackNotRegistered(eventType))
    ensures IsValidEventType(eventType) && eventType in m && callback in m[eventType] ==>
              && r.Success?
              && callback !in Members(r.value, eventType)
              && (eventType in r.value <==> m[eventType] != {callback})
              && Members(r.value, eventType) == m[eventType] - {callback}
    ensures r.Success? ==> SameElsewhere(m, r.value, eventType)
    ensures r.Success? && NoEmptySets(m) ==> NoEmptySets(r.value)
  {
    if !IsValidEventType(eventType) then
      Failure(InvalidEventType(eventType))
    else if eventType !in m then
      Success(m)
    else if callback !in m[eventType] then
      Failure(CallbackNotRegistered(eventType))
    else
      var rest := m[eventType] - {callback};
      if |rest| == 0 then Success(m - {eventType}) else Success(m[eventType := rest])
  }

  /** Subscribing the same callback to the same event type twice is the same as once. */
  lemma SubscribeIdempotent<L>(m: Listeners<L>, callback: L, eventType: string)
    requires IsValidEventType(eventType)
    ensures Subscribe(Subscribe(m, callback, eventType).value, callback, eventType)
         == Subscribe(m, callback, eventType)
  {
    var m' := Subscribe(m, callback, eventType).value;
    var m'' := Subscribe(m', callback, eventType).value;
    assert m'[eventType] + {callback} == m'[eventType];
    assert m''.Keys == m'.Keys;
    assert forall t :: t in m'' ==> m''[t] == m'[t];
    assert m'' == m';
  }

  /**
   * Unsubscribing a callback just subscribed, that was not registered under
   * that event type before, gives back the registry it started from.
   */
  lemma UnsubscribeUndoesSubscribe<L>(m: Listeners<L>, callback: L, eventType: string)
    requires IsValidEventType(eventType)
    requires NoEmptySets(m)
    requires callback !in Members(m, eventType)
    ensures Unsubscribe(Subscribe(m, callback, eventType).value, callback, eventType) == Success(m)
  {
    var m' := Subscribe(m, callback, eventType).value;
    var r := Unsubscribe(m', callback, eventType).value;
    assert m'[eventType] - {callback} == Members(m, eventType);
    assert r.Keys == m.Keys;
    assert forall t :: t in r ==> r[t] == m[t];
    assert r == m;
  }

  /**
   * A second unsubscribe of the same callback fails, unless the first one
   * emptied the entry and deleted the key, in which case it is ignored.
   */
  lemma UnsubscribeTwice<L>(m: Listeners<L>, callback: L, eventType: string)
    requires Unsubscribe(m, callback, eventType).Success?
    requires eventType in m && callback in m[eventType]
    ensures var r := Unsubscribe(Unsubscribe(m, callback, eventType).value, callback, eventType);
            if m[eventType] == {callback} then r == Success(Unsubscribe(m, callback, eventType).value)
            else r == Failure(CallbackNotRegistered(eventType))
  {
  }
}
