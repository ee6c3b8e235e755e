# Notification pipeline (Observer, Builder, Factory)

A verified model of the notification dispatch mechanism of `NotificationTest.java`.
Each factory (Email or SMS) owns one notification manager. A factory builds a
notification with a fresh builder. The builder sets only the content, so the
platform stays null. The factory then fans the notification out synchronously to
its manager's observers, in registration order, and returns it.

Modules, one per component:

- `Notifications` (`notification.dfy`): the immutable `Notification` value with an
  `Email | SMS` kind tag and `Option` fields for Java's `null`, observer identities
  and possibly-null observer references, the `Outcome` of a call that may raise,
  the `Delivery` record standing for one `update` call, `Served` (the observers a
  fan-out reaches) and `Deliveries`, the fan-out specification, with its lemmas
  (concatenation, multiplicity, unregistered observers).
- `Managers` (`manager.dfy`): `DeliveryLog`, the record of every `update` call so far,
  and `NotificationManager`, a class holding the observer list as a `seq`.
  `NotifyObservers` is a loop proved against `Deliveries`.
- `Builders` (`builder.dfy`): `NotificationBuilder`, a class with two mutable
  fields. Its setters each change one field.
- `Factories` (`factory.dfy`): `NotificationFactory`, holding its kind and its own
  manager.
- `Trace` (`trace.dfy`): the program's `main` run, the same run over any observer
  lists and contents, and a run with a null observer. Each printed line is
  replaced by its delivery record.

Observers are represented by identities (`ObserverId`). What an observer does when
updated is represented by appending `Delivery(observer, notification)` to a
`DeliveryLog` passed in by the caller. One log is shared by all factories, just as
the program's observers all print to one console. This makes order, multiplicity,
the carried value and "nothing else changes" statable.

The Email/SMS subclasses of the builder, the notification and the factory differ
only in the kind they fix. Each pair is therefore one class, or one value, with a
kind chosen at construction. `NotificationBuilder.Build` stands for both
`buildEmailNotification` and `buildSMSNotification`.

The setters' postconditions (`content == c`, `platform == p`) do not mention the
previous value. This is the overwrite property: calling a setter again with the
same argument leaves the same state.

`addObserver` has no null check, so a registered observer is an `ObserverRef`:
an identity, or `None` for a null reference. The loop in `notifyObservers` calls
`update` on each entry. On a null entry that call raises a NullPointerException.
The entries before it have been served and none after it is. The exception then
leaves `createNotification`, so no notification is returned. The model carries
this as an `Outcome` (`Returned(value)` or `NullPointerException`). `Served` is
the list of observers a fan-out reaches: the entries before the first null.

## Model

| member | source | states |
|---|---|---|
| Notifications.GetContentReturnsContent | NotificationTest.java:40-57 | `Notification.GetContent`, the only accessor of the `Notification` value (the Email and SMS subclasses are its kind tag), returns the content argument the notification was constructed with, for every kind and platform |
| Notifications.Served | NotificationTest.java:21-25 | the observers a fan-out reaches are exactly the entries before the first null, in order; all of them exactly when the list holds no null |
| Notifications.Deliveries | NotificationTest.java:21-25 | a fan-out yields exactly one record per list entry; record i is addressed to entry i and carries the notification passed in |
| Notifications.DeliveriesAppend | NotificationTest.java:15-25 | fan-out over a list extended at the end gives the old deliveries followed by those for the new entries, so registration order is delivery order |
| Notifications.DeliveredToCountsRegistrations | NotificationTest.java:17-25 | an observer receives exactly as many deliveries as it has registrations; duplicates are served twice |
| Notifications.UnregisteredNeverDelivered | NotificationTest.java:21-25 | an observer absent from the list receives no delivery from the fan-out |
| Notifications.DeliveredToAppend | NotificationTest.java:22-23 | deliveries to one observer add up over successive fan-outs into the same log |
| Managers.DeliveryLog.Update | NotificationTest.java:23 | one `update` call appends one record naming that observer and that notification, and nothing else |
| Managers.NotificationManager.constructor | NotificationTest.java:15 | a new manager has an empty observer list |
| Managers.NotificationManager.AddObserver | NotificationTest.java:17-19 | the observer, null included, is appended at the end; earlier entries are unchanged; no deduplication |
| Managers.NotificationManager.NotifyObservers | NotificationTest.java:21-25 | the log grows by exactly the in-order fan-out of the notification over the entries before the first null; it returns normally exactly when the list holds no null; the list is unchanged |
| Builders.NotificationBuilder.constructor | NotificationTest.java:59-61 | a fresh builder has null content and null platform |
| Builders.NotificationBuilder.BuildContent | NotificationTest.java:63-65 | content becomes the argument whatever it was; platform unchanged |
| Builders.NotificationBuilder.BuildPlatform | NotificationTest.java:67-69 | platform becomes the argument whatever it was; content unchanged |
| Builders.NotificationBuilder.Build | NotificationTest.java:72-82 | the finaliser yields a notification of the builder's kind whose content and platform are the current fields, null included |
| Factories.NotificationFactory.constructor | NotificationTest.java:88-89 | each factory gets a freshly allocated manager of its own with no observers |
| Factories.NotificationFactory.AddObserver | NotificationTest.java:100-102 | same effect as the owned manager's `addObserver`, null included |
| Factories.NotificationFactory.CreateNotification | NotificationTest.java:91-98 | the notification of the factory's kind with the given content and a null platform is fanned out to this factory's observers up to the first null; it is returned exactly when no null is registered, otherwise the NullPointerException propagates; no observer list changes; an observer not registered here receives nothing |
| Trace.Run | NotificationTest.java:122-137 | two Email observers and one SMS observer yield two Email deliveries in registration order, then one SMS delivery, all with null platform; each factory returns the notification its observers received |
| Trace.TwoFactories | NotificationTest.java:88-120 | for any non-null observer lists and contents on an Email and an SMS factory, the Email fan-out then the SMS fan-out are logged; each observer is served by each factory as often as it is registered there; an Email record only reaches an Email-factory observer and an SMS record only an SMS-factory observer |
| Trace.SeparateFanOuts | NotificationTest.java:96-113 | two consecutive fan-outs of an Email and an SMS notification count each observer's deliveries per list and never cross kinds |
| Trace.NullObserverRun | NotificationTest.java:17-25 | with a null registered between two observers, the first is served, the second is not, and no notification is returned |

## Left out

- Console output of `EmailObserver` / `SMSObserver` (NotificationTest.java:28-38): I/O. Observers are identities and `update` is a log record. The text "New Email: ..." is therefore not modelled.
- Trace.Run: states the deliveries of `main`, not the printed lines.
- An exception thrown by an observer's own `update` would abort the remaining deliveries. Observer identities are total in this model; only the exception from a null observer reference is modelled.
- Trace.TwoFactories: registers non-null observers only. A null on the Email factory would stop `main` before the SMS factory is used. NullObserverRun shows that abort on a single factory.
- Java generics, the `Observer<? super T>` wildcard and the type-erasure comments: no runtime behaviour. The factories use `string` payloads as in the code.
- Object identity of the returned notification: notifications are values. "The same instance is dispatched and returned" becomes "an equal value is dispatched and returned".
- A notification built directly with the base `Notification` constructor, without a kind: the code never does this. Every modelled notification carries a kind.
- The `NotificationFactory<T>` interface: it only declares `createNotification`, which both factory classes implement.
