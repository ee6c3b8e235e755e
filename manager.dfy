/** The observer side of the pipeline: the log that stands for what observers
    do when updated, and the manager that keeps the observer list and fans a
    notification out over it. */
module Managers {
  import opened Notifications

  /** Everything observers have been handed so far, oldest first. In the
      program each `update` prints a line; here it appends a record. */
  class DeliveryLog<T> {
    var records: seq<Delivery<T>>

    constructor ()
      ensures records == []
    {
      records := [];
    }

    /** `observer.update(n)`: one record, addressed to `observer`, carrying `n`. */
    method Update(observer: ObserverId, n: Notification<T>)
      modifies this
      ensures records == old(records) + [Delivery(observer, n)]
    {
      records := records + [Delivery(observer, n)];
    }
  }

  /** An ordered, append-only list of observer references; duplicates and
      nulls are kept. */
  class NotificationManager<T> {
    var observers: seq<ObserverRef>

    constructor ()
      ensures observers == []
    {
      observers := [];
    }

    /** Appends `observer` at the end; no deduplication, no null check,
        nothing removed. */
    method AddObserver(observer: ObserverRef)
      modifies this
      ensures observers == old(observers) + [observer]
    {
      observers := observers + [observer];
    }

    /** Calls `update(n)` on every registered observer, in registration order,
        and changes nothing but the log. A null entry raises when the loop
        reaches it: the entries before it have been served, none after it is,
        and `ok` is false. */
    method NotifyObservers(n: Notification<T>, log: DeliveryLog<T>) returns (ok: bool)
      modifies log
      ensures observers == old(observers)
      ensures ok <==> None !in observers
      ensures log.records == old(log.records) + Deliveries(Served(observers), n)
    {
      ghost var served := Served(observers);
      var i := 0;
      while i < |observers|
        invariant 0 <= i <= |served|
        invariant log.records == old(log.records) + Deliveries(served[..i], n)
      {
        match observers[i] {
          case None =>
            assert served[..i] == served;
            return false;
          case Some(o) =>
            assert served[..i + 1] == served[..i] + [o];
            DeliveriesAppend(served[..i], [o], n);
            log.Update(o, n);
        }
        i := i + 1;
      }
      assert served[..i] == served;
      return true;
    }
  }
}
