/** Values exchanged by the driver-assignment notification broadcaster, and the
    specification of one broadcast: the ordered trace of observer calls it makes. */
module Broadcasts {

  /** A registered observer. Observers are opaque: only their identity matters
      here, and two registrations of the same handle are the same observer. */
  datatype ObserverId = ObserverId(handle: nat)

  /** The driver handed to the observers; its location is not part of this model. */
  datatype Driver = Driver(name: string)

  /** One call `observer.notifyDriverAssigned(driver, message)`. */
  datatype Delivery = Delivery(observer: ObserverId, driver: Driver, message: string)

  /** The calls a broadcast of `(d, m)` makes over `observers`, one per entry, in list order. */
  function Broadcast(observers: seq<ObserverId>, d: Driver, m: string): (r: seq<Delivery>)
    ensures |r| == |observers|
    ensures forall i :: 0 <= i < |observers| ==> r[i] == Delivery(observers[i], d, m)
  {
    if observers == [] then [] else [Delivery(observers[0], d, m)] + Broadcast(observers[1..], d, m)
  }

  /** The observers called by a trace, in call order. */
  function Recipients(log: seq<Delivery>): (r: seq<ObserverId>)
    ensures |r| == |log|
    ensures forall i :: 0 <= i < |log| ==> r[i] == log[i].observer
  {
    if log == [] then [] else [log[0].observer] + Recipients(log[1..])
  }

  /** How many times `o` occurs in an observer list. */
  function Occurrences(observers: seq<ObserverId>, o: ObserverId): (n: nat)
    ensures n <= |observers|
  {
    if observers == [] then 0
    else (if observers[0] == o then 1 else 0) + Occurrences(observers[1..], o)
  }

  /** How many calls of a trace go to `o`. */
  function DeliveriesTo(log: seq<Delivery>, o: ObserverId): (n: nat)
    ensures n <= |log|
  {
    Occurrences(Recipients(log), o)
  }

  /** Broadcasting over a concatenation is broadcasting over each part in turn. */
  lemma BroadcastAppend(a: seq<ObserverId>, b: seq<ObserverId>, d: Driver, m: string)
    ensures Broadcast(a + b, d, m) == Broadcast(a, d, m) + Broadcast(b, d, m)
  {
  }

  /** A broadcast calls exactly the registered observers, in registration order. */
  lemma BroadcastRecipients(observers: seq<ObserverId>, d: Driver, m: string)
    ensures Recipients(Broadcast(observers, d, m)) == observers
  {
  }

  /** Every call of a broadcast carries the same, unmodified driver and message. */
  lemma BroadcastPayload(observers: seq<ObserverId>, d: Driver, m: string, e: Delivery)
    requires e in Broadcast(observers, d, m)
    ensures e.driver == d && e.message == m
    ensures e.observer in observers
  {
  }

  /** An observer is called once per registration: entries are not deduplicated. */
  lemma BroadcastDeliveriesTo(observers: seq<ObserverId>, d: Driver, m: string, o: ObserverId)
    ensures DeliveriesTo(Broadcast(observers, d, m), o) == Occurrences(observers, o)
  {
    BroadcastRecipients(observers, d, m);
  }

  /** Appending one entry adds one occurrence of that observer and none of any other. */
  lemma {:induction false} OccurrencesAppend(observers: seq<ObserverId>, x: ObserverId, o: ObserverId)
    ensures Occurrences(observers + [x], o) == Occurrences(observers, o) + (if x == o then 1 else 0)
  {
    if observers != [] {
      assert (observers + [x])[1..] == observers[1..] + [x];
      OccurrencesAppend(observers[1..], x, o);
    }
  }

  /** An observer occurs in the list if and only if it is registered. */
  lemma {:induction false} OccurrencesPositive(observers: seq<ObserverId>, o: ObserverId)
    ensures Occurrences(observers, o) > 0 <==> o in observers
  {
    if observers != [] {
      assert observers == [observers[0]] + observers[1..];
      OccurrencesPositive(observers[1..], o);
    }
  }

  /** An observer is called by a broadcast if and only if it is registered. */
  lemma BroadcastCallsRegistered(observers: seq<ObserverId>, d: Driver, m: string, o: ObserverId)
    ensures DeliveriesTo(Broadcast(observers, d, m), o) > 0 <==> o in observers
  {
    BroadcastDeliveriesTo(observers, d, m, o);
    OccurrencesPositive(observers, o);
  }

  /** Registering `o` twice makes every later broadcast call `o` twice more. */
  lemma RegisteredTwiceNotifiedTwice(observers: seq<ObserverId>, o: ObserverId, d: Driver, m: string)
    ensures DeliveriesTo(Broadcast(observers + [o] + [o], d, m), o)
         == DeliveriesTo(Broadcast(observers, d, m), o) + 2
  {
    BroadcastDeliveriesTo(observers + [o] + [o], d, m, o);
    BroadcastDeliveriesTo(observers, d, m, o);
    OccurrencesAppend(observers + [o], o, o);
    OccurrencesAppend(observers, o, o);
  }
}
