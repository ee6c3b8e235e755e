/** Runs of the whole pipeline: the program's fixed run, the same run over any
    observer lists and contents, and a run with a null observer. Every printed
    line is replaced by the delivery record it stands for. */
module Trace {
  import opened Notifications
  import opened Managers
  import opened Factories

  /** Two Email observers on the Email factory, one SMS observer on the SMS
      factory, one notification from each: two Email deliveries, in
      registration order, then one SMS delivery, all with a null platform;
      each factory returns the very notification its observers were given. */
  method Run() returns (email1: Outcome<Notification<string>>, sms1: Outcome<Notification<string>>,
                        records: seq<Delivery<string>>)
    ensures email1 == Returned(Notification(Email, Some("Bye from MarketBridge!"), None))
    ensures sms1 == Returned(Notification(SMS, Some("Hello from MarketBridge!"), None))
    ensures records == [Delivery(0, email1.value), Delivery(1, email1.value), Delivery(2, sms1.value)]
  {
    var log := new DeliveryLog<string>();
    var emailFactory := new NotificationFactory(Email);
    var smsFactory := new NotificationFactory(SMS);
    emailFactory.AddObserver(Some(0));
    emailFactory.AddObserver(Some(1));
    smsFactory.AddObserver(Some(2));
    email1 := emailFactory.CreateNotification(Some("Bye from MarketBridge!"), log);
    sms1 := smsFactory.CreateNotification(Some("Hello from MarketBridge!"), log);
    records := log.records;
  }

  /** The same run for any observer lists `a` (Email) and `b` (SMS) and any
      contents: the Email deliveries come first and follow `a`, the SMS ones
      follow `b`; every observer is served by each factory exactly as often as
      it is registered there, and never by the other factory. */
  method TwoFactories(a: seq<ObserverId>, b: seq<ObserverId>, emailContent: Option<string>, smsContent: Option<string>)
    returns (email: Outcome<Notification<string>>, sms: Outcome<Notification<string>>, records: seq<Delivery<string>>)
    ensures email == Returned(Notification(Email, emailContent, None))
    ensures sms == Returned(Notification(SMS, smsContent, None))
    ensures records == Deliveries(a, email.value) + Deliveries(b, sms.value)
    ensures forall o :: DeliveredTo(records[..|a|], o) == Occurrences(a, o)
    ensures forall o :: DeliveredTo(records[|a|..], o) == Occurrences(b, o)
    ensures forall i :: 0 <= i < |records| && records[i].notification.kind == Email ==> records[i].observer in a
    ensures forall i :: 0 <= i < |records| && records[i].notification.kind == SMS ==> records[i].observer in b
  {
    var log := new DeliveryLog<string>();
    var emailFactory := FactoryWith(Email, a);
    var smsFactory := FactoryWith(SMS, b);
    ServedRegistered(a);
    ServedRegistered(b);
    assert None !in Registered(a) && None !in Registered(b);
    email := emailFactory.CreateNotification(emailContent, log);
    assert log.records == Deliveries(a, email.value);
    sms := smsFactory.CreateNotification(smsContent, log);
    records := log.records;
    SeparateFanOuts(a, b, email.value, sms.value);
  }

  /** A new factory of `kind` with each identity of `ids` registered in turn. */
  method FactoryWith(kind: Kind, ids: seq<ObserverId>) returns (f: NotificationFactory)
    ensures f.kind == kind && fresh(f.manager)
    ensures f.manager.observers == Registered(ids)
  {
    f := new NotificationFactory(kind);
    for i := 0 to |ids|
      invariant fresh(f.manager)
      invariant f.manager.observers == Registered(ids[..i])
    {
      assert Registered(ids[..i + 1]) == Registered(ids[..i]) + [Some(ids[i])];
      f.AddObserver(Some(ids[i]));
    }
    assert ids[..|ids|] == ids;
  }

  /** One Email fan-out over `a` followed by one SMS fan-out over `b`: the
      first part serves each observer as often as `a` registers it, the
      second as often as `b` does, and every record of a kind goes to an
      observer of that kind's list. */
  lemma SeparateFanOuts(a: seq<ObserverId>, b: seq<ObserverId>, e: Notification<string>, s: Notification<string>)
    requires e.kind == Email && s.kind == SMS
    ensures forall o :: DeliveredTo((Deliveries(a, e) + Deliveries(b, s))[..|a|], o) == Occurrences(a, o)
    ensures forall o :: DeliveredTo((Deliveries(a, e) + Deliveries(b, s))[|a|..], o) == Occurrences(b, o)
    ensures forall i :: 0 <= i < |a| + |b| && (Deliveries(a, e) + Deliveries(b, s))[i].notification.kind == Email ==>
      (Deliveries(a, e) + Deliveries(b, s))[i].observer in a
    ensures forall i :: 0 <= i < |a| + |b| && (Deliveries(a, e) + Deliveries(b, s))[i].notification.kind == SMS ==>
      (Deliveries(a, e) + Deliveries(b, s))[i].observer in b
  {
    var records := Deliveries(a, e) + Deliveries(b, s);
    assert records[..|a|] == Deliveries(a, e);
    assert records[|a|..] == Deliveries(b, s);
    forall o: ObserverId
      ensures DeliveredTo(records[..|a|], o) == Occurrences(a, o)
      ensures DeliveredTo(records[|a|..], o) == Occurrences(b, o)
    {
      DeliveredToCountsRegistrations(a, e, o);
      DeliveredToCountsRegistrations(b, s, o);
    }
    forall i | 0 <= i < |a| + |b|
      ensures records[i].notification.kind == Email ==> records[i].observer in a
      ensures records[i].notification.kind == SMS ==> records[i].observer in b
    {
      if i < |a| {
        assert records[i] == Deliveries(a, e)[i];
      } else {
        assert records[i] == Deliveries(b, s)[i - |a|];
      }
    }
  }

  /** A null registered between two observers: the first is served, the
      exception then ends the fan-out, the second is never served, and the
      factory returns no notification. */
  method NullObserverRun() returns (r: Outcome<Notification<string>>, records: seq<Delivery<string>>)
    ensures r == NullPointerException
    ensures records == [Delivery(0, Notification(Email, Some("Bye from MarketBridge!"), None))]
  {
    var log := new DeliveryLog<string>();
    var emailFactory := new NotificationFactory(Email);
    emailFactory.AddObserver(Some(0));
    emailFactory.AddObserver(None);
    emailFactory.AddObserver(Some(1));
    assert emailFactory.manager.observers[1] == None;
    r := emailFactory.CreateNotification(Some("Bye from MarketBridge!"), log);
    records := log.records;
  }
}
