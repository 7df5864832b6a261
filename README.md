# Driver-assignment notification broadcaster

A model of `NotificationService`, the observer broadcaster of the ride-sharing
system: it keeps an ordered list of driver observers, `registerObserver` appends
one, and `notifyAllObservers(driver, message)` calls every registered observer,
in registration order, synchronously, with the same driver and message.

- `broadcasts.dfy` (module `Broadcasts`): observers, drivers and observer calls as
  values; `Broadcast`, the trace of calls one broadcast makes; and lemmas about it.
- `observer.dfy` (module `Observer`): the class `NotificationService`, with its
  `observers` list as a `seq` field that `RegisterObserver` reassigns, and
  `NotifyAllObservers` as a loop over that list. Each call into an observer is
  recorded by appending a `Delivery` to the field `delivered`, which stands for the
  observers' own effects.
- `NotificationService.Deliver` stands for the call into one observer inside the
  broadcast loop; it is not part of the service's own interface, which is only
  registration and broadcast.

## Model

| member | source | states |
|---|---|---|
| Observer.NotificationService.constructor | src/com/jayanth/rideshare/observer/NotificationService.java:8 | a new service has no observers and has made no calls |
| Observer.NotificationService.RegisterObserver | src/com/jayanth/rideshare/observer/NotificationService.java:10-12 | the list becomes the old list with the observer appended; length grows by one; that observer's occurrence count grows by one and no other's changes; no call is made |
| Observer.NotificationService.Deliver | src/com/jayanth/rideshare/observer/NotificationService.java:16 | one observer call records exactly that observer, driver and message and leaves the list alone |
| Observer.NotificationService.NotifyAllObservers | src/com/jayanth/rideshare/observer/NotificationService.java:14-18 | the new calls are exactly `Broadcast` of the list: one per entry, in list order, each with the given driver and message; the list is unchanged; with no observers nothing is called |
| Observer.DuplicateRegistration | src/com/jayanth/rideshare/observer/NotificationService.java:10-18 | registering one observer twice and broadcasting once calls that observer twice with the same payload |
| Broadcasts.Broadcast | src/com/jayanth/rideshare/observer/NotificationService.java:15-17 | the trace has one call per list entry, and call i goes to entry i with the given driver and message |
| Broadcasts.BroadcastAppend | src/com/jayanth/rideshare/observer/NotificationService.java:15-17 | broadcasting over a concatenated list is broadcasting over each part in turn |
| Broadcasts.BroadcastRecipients | src/com/jayanth/rideshare/observer/NotificationService.java:15-17 | the observers called, in call order, are exactly the registered list |
| Broadcasts.BroadcastPayload | src/com/jayanth/rideshare/observer/NotificationService.java:16 | every call of a broadcast carries the identical driver and message and goes to a registered observer |
| Broadcasts.BroadcastDeliveriesTo | src/com/jayanth/rideshare/observer/NotificationService.java:11-17 | an observer is called as many times as it occurs in the list |
| Broadcasts.OccurrencesAppend | src/com/jayanth/rideshare/observer/NotificationService.java:11 | appending an entry adds one occurrence of it and none of any other observer |
| Broadcasts.OccurrencesPositive | src/com/jayanth/rideshare/observer/NotificationService.java:11 | an observer occurs in the list if and only if it was registered |
| Broadcasts.BroadcastCallsRegistered | src/com/jayanth/rideshare/observer/NotificationService.java:15-17 | a broadcast calls an observer at least once if and only if that observer is in the list |
| Broadcasts.RegisteredTwiceNotifiedTwice | src/com/jayanth/rideshare/observer/NotificationService.java:11-17 | registration does not deduplicate: registering an observer twice gives it two more calls per broadcast |

## Left out

- What a concrete observer does when called (the console observer prints a line): it is a foreign call, modelled only as an entry in `delivered`.
- An observer that throws: in the source the exception leaves the loop and later observers are not called; the model's observer calls always return.
- An observer that registers another observer while being notified: the source's list iterator would then fail; the model's observer calls cannot reach the service.
- A `null` observer: the source accepts it at registration and fails at the next broadcast; the model's observers are never null.
- A `null` driver or message: the source passes them on to every observer unchecked; the model's `Driver` and `string` values cannot be null.
- The driver's location and the rest of the ride-sharing system (ride booking, driver matching, fares, the controller and the entry point): their sources are not part of this model, and the driver is kept as an opaque value.
