/** The factories: each owns one manager, builds a notification of its own
    kind from the given content, fans it out to its own observers and returns
    it. The Email and SMS factory classes differ only in that kind. */
module Factories {
  import opened Notifications
  import opened Managers
  import opened Builders

  class NotificationFactory {
    const kind: Kind
    const manager: NotificationManager<string>

    /** A factory with a manager of its own and no observers yet. */
    constructor (kind: Kind)
      ensures this.kind == kind
      ensures fresh(manager)
      ensures manager.observers == []
    {
      this.kind := kind;
      manager := new NotificationManager<string>();
    }

    /** Registration goes straight to the owned manager, null included. */
    method AddObserver(observer: ObserverRef)
      modifies manager
      ensures manager.observers == old(manager.observers) + [observer]
    {
      manager.AddObserver(observer);
    }

    /** Fresh builder, content set, platform never set, finalised, dispatched
        to this factory's observers in registration order, returned. A null
        observer makes the dispatch raise at that entry, and the exception
        leaves this method instead of the notification. Either way only the
        log changes: no observer list, this factory's or another's, is
        touched, and an observer not registered here receives nothing. */
    method CreateNotification(content: Option<string>, log: DeliveryLog<string>)
      returns (r: Outcome<Notification<string>>)
      modifies log
      ensures r.Returned? <==> None !in manager.observers
      ensures r.Returned? ==> r.value.kind == kind
      ensures r.Returned? ==> r.value.GetContent() == content
      ensures r.Returned? ==> r.value.platform == None
      ensures manager.observers == old(manager.observers)
      ensures log.records == old(log.records)
        + Deliveries(Served(manager.observers), Notification(kind, content, None))
      ensures forall o: ObserverId :: Some(o) !in manager.observers ==>
        DeliveredTo(log.records, o) == DeliveredTo(old(log.records), o)
    {
      var builder := new NotificationBuilder<string>(kind);
      builder.BuildContent(content);
      var n := builder.Build();
      var ok := manager.NotifyObservers(n, log);
      forall o: ObserverId | Some(o) !in manager.observers
        ensures DeliveredTo(log.records, o) == DeliveredTo(old(log.records), o)
      {
        var served := Served(manager.observers);
        DeliveredToAppend(old(log.records), Deliveries(served, n), o);
        assert o !in served;
        UnregisteredNeverDelivered(served, n, o);
      }
      r := if ok then Returned(n) else NullPointerException;
    }
  }
}
