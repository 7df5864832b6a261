/** The notification service: an ordered list of observers and a synchronous
    broadcast that calls each of them with the same driver and message. */
module Observer {
  import opened Broadcasts

  class NotificationService {
    /** The registered observers, in registration order. */
    var observers: seq<ObserverId>
    /** Every observer call made so far, oldest first: the stand-in for the
        calls into the observers themselves. */
    var delivered: seq<Delivery>

    /** A new service has no observers and has made no calls. */
    constructor ()
      ensures observers == [] && delivered == []
    {
      observers := [];
      delivered := [];
    }

    /** Appends `observer`, even if it is already registered. */
    method RegisterObserver(observer: ObserverId)
      modifies this
      ensures observers == old(observers) + [observer]
      ensures |observers| == |old(observers)| + 1
      ensures forall o :: Occurrences(observers, o)
                          == Occurrences(old(observers), o) + (if o == observer then 1 else 0)
      ensures delivered == old(delivered)
    {
      forall o ensures Occurrences(observers + [observer], o)
                       == Occurrences(observers, o) + (if o == observer then 1 else 0) {
        OccurrencesAppend(observers, observer, o);
      }
      observers := observers + [observer];
    }

    /** One call `obs.notifyDriverAssigned(driver, message)`. */
    method Deliver(obs: ObserverId, driver: Driver, message: string)
      modifies this
      ensures observers == old(observers)
      ensures delivered == old(delivered) + [Delivery(obs, driver, message)]
    {
      delivered := delivered + [Delivery(obs, driver, message)];
    }

    /** Calls every registered observer once per registration, in registration
        order, with the same `driver` and `message`; the list itself is unchanged. */
    method NotifyAllObservers(driver: Driver, message: string)
      modifies this
      ensures observers == old(observers)
      ensures delivered == old(delivered) + Broadcast(observers, driver, message)
      ensures Recipients(delivered[|old(delivered)|..]) == observers
      ensures old(observers) == [] ==> delivered == old(delivered)
    {
      var i := 0;
      while i < |observers|
        invariant 0 <= i <= |observers|
        invariant observers == old(observers)
        invariant delivered == old(delivered) + Broadcast(observers[..i], driver, message)
      {
        BroadcastAppend(observers[..i], [observers[i]], driver, message);
        assert observers[..i + 1] == observers[..i] + [observers[i]];
        Deliver(observers[i], driver, message);
        i := i + 1;
      }
      assert observers[..i] == observers;
      assert delivered[|old(delivered)|..] == Broadcast(observers, driver, message);
      BroadcastRecipients(observers, driver, message);
    }
  }

  /** A client of the service: one observer registered twice, then one broadcast.
      Returns the calls that broadcast made. */
  method DuplicateRegistration(o: ObserverId, d: Driver, m: string) returns (calls: seq<Delivery>)
    ensures calls == [Delivery(o, d, m), Delivery(o, d, m)]
  {
    var service := new NotificationService();
    service.RegisterObserver(o);
    service.RegisterObserver(o);
    service.NotifyAllObservers(d, m);
    calls := service.delivered;
  }
}
