/** The immutable values of the notification pipeline: a notification with its
    kind tag, the delivery record that stands for one `Observer.update` call,
    and the fan-out of one notification over an observer list. */
module Notifications {

  /** Java's `null` for a reference-typed field or argument. */
  datatype Option<T> = None | Some(value: T)

  /** The two concrete notification classes differ only in which builder made
      them, so they are one value with a tag. */
  datatype Kind = Email | SMS

  /** A notification: the content delivered to observers and a platform field
      that no accessor exposes. Both may be null. */
  datatype Notification<T> = Notification(kind: Kind, content: Option<T>, platform: Option<T>)
  {
    /** The only accessor the source offers. */
    function GetContent(): Option<T> { content }
  }

  /** An observer, known only by its identity; registering the same identity
      twice is registering the same observer object twice. */
  type ObserverId = nat

  /** A registered observer reference, which Java lets be null. */
  type ObserverRef = Option<ObserverId>

  /** How a call ended: normally with a value, or with the exception that
      calling `update` on a null reference raises. */
  datatype Outcome<T> = Returned(value: T) | NullPointerException

  /** The observers a fan-out over `observers` actually reaches: the entries
      before the first null, where the loop throws. */
  function Served(observers: seq<ObserverRef>): (served: seq<ObserverId>)
    ensures |served| <= |observers|
    ensures forall i :: 0 <= i < |served| ==> observers[i] == Some(served[i])
    ensures |served| < |observers| ==> observers[|served|] == None
    ensures |served| == |observers| <==> None !in observers
  {
    if observers == [] then []
    else match observers[0]
      case None => []
      case Some(o) => [o] + Served(observers[1..])
  }

  /** The references registered by adding each identity of `ids` in turn. */
  function Registered(ids: seq<ObserverId>): (refs: seq<ObserverRef>)
    ensures |refs| == |ids|
    ensures forall i :: 0 <= i < |ids| ==> refs[i] == Some(ids[i])
  {
    if ids == [] then [] else [Some(ids[0])] + Registered(ids[1..])
  }

  /** A list with no null in it is served in full. */
  lemma ServedRegistered(ids: seq<ObserverId>)
    ensures Served(Registered(ids)) == ids
  {
    var refs := Registered(ids);
    assert None !in refs by {
      forall i | 0 <= i < |refs| ensures refs[i] != None { }
    }
  }

  /** One call of `update` on one observer with one notification. */
  datatype Delivery<T> = Delivery(observer: ObserverId, notification: Notification<T>)

  /** The deliveries a synchronous, in-order fan-out of `n` over `observers`
      produces: one per list entry, in list order, each carrying `n`. */
  function Deliveries<T>(observers: seq<ObserverId>, n: Notification<T>): (log: seq<Delivery<T>>)
    ensures |log| == |observers|
    ensures forall i :: 0 <= i < |log| ==> log[i].observer == observers[i]
    ensures forall i :: 0 <= i < |log| ==> log[i].notification == n
  {
    if observers == [] then [] else [Delivery(observers[0], n)] + Deliveries(observers[1..], n)
  }

  /** Number of entries of `observers` equal to `o`. */
  function Occurrences(observers: seq<ObserverId>, o: ObserverId): nat
  {
    if observers == [] then 0
    else (if observers[0] == o then 1 else 0) + Occurrences(observers[1..], o)
  }

  /** Number of records in `log` addressed to `o`. */
  function DeliveredTo<T>(log: seq<Delivery<T>>, o: ObserverId): nat
  {
    if log == [] then 0
    else (if log[0].observer == o then 1 else 0) + DeliveredTo(log[1..], o)
  }

  /** The getter returns the constructor's content argument, whatever the
      kind and platform. */
  lemma GetContentReturnsContent<T>(k: Kind, c: Option<T>, p: Option<T>)
    ensures Notification(k, c, p).GetContent() == c
  {
  }

  /** Fanning out over a concatenation is fanning out over each part in turn:
      an observer appended after earlier ones is served after them. */
  lemma DeliveriesAppend<T>(a: seq<ObserverId>, b: seq<ObserverId>, n: Notification<T>)
    ensures Deliveries(a + b, n) == Deliveries(a, n) + Deliveries(b, n)
  {
    // Both sides agree index by index by the contract of Deliveries.
  }

  /** Multiplicity: an observer receives the notification exactly as many times
      as it is registered, so a duplicate registration gets a duplicate call
      and an unregistered observer gets none. */
  lemma {:induction false} DeliveredToCountsRegistrations<T>(observers: seq<ObserverId>, n: Notification<T>, o: ObserverId)
    ensures DeliveredTo(Deliveries(observers, n), o) == Occurrences(observers, o)
  {
    if observers != [] {
      var log := Deliveries(observers, n);
      assert log[1..] == Deliveries(observers[1..], n);
      DeliveredToCountsRegistrations(observers[1..], n, o);
    }
  }

  /** Counting records is additive over a concatenated log. */
  lemma {:induction false} DeliveredToAppend<T>(a: seq<Delivery<T>>, b: seq<Delivery<T>>, o: ObserverId)
    ensures DeliveredTo(a + b, o) == DeliveredTo(a, o) + DeliveredTo(b, o)
  {
    if a == [] {
      assert a + b == b;
    } else {
      assert (a + b)[1..] == a[1..] + b;
      DeliveredToAppend(a[1..], b, o);
    }
  }

  /** An observer that is not in the list is never handed a record. */
  lemma {:induction false} UnregisteredNeverDelivered<T>(observers: seq<ObserverId>, n: Notification<T>, o: ObserverId)
    requires o !in observers
    ensures DeliveredTo(Deliveries(observers, n), o) == 0
  {
    DeliveredToCountsRegistrations(observers, n, o);
    NotInMeansNoOccurrences(observers, o);
  }

  lemma {:induction false} NotInMeansNoOccurrences(observers: seq<ObserverId>, o: ObserverId)
    requires o !in observers
    ensures Occurrences(observers, o) == 0
  {
    if observers != [] {
      assert observers[0] != o;
      NotInMeansNoOccurrences(observers[1..], o);
    }
  }
}
