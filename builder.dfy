/** The builder: a two-field mutable accumulator that produces a notification
    of the kind it was created for. The Email and SMS builder subclasses differ
    only in the kind of the notification their finaliser constructs, so they
    are one class with a kind fixed at construction. */
module Builders {
  import opened Notifications

  class NotificationBuilder<T> {
    const kind: Kind
    var content: Option<T>
    var platform: Option<T>

    /** A fresh builder: both fields null. */
    constructor (kind: Kind)
      ensures this.kind == kind
      ensures content == None && platform == None
    {
      this.kind := kind;
      content := None;
      platform := None;
    }

    /** Overwrites the content, whatever it held; the platform is untouched. */
    method BuildContent(c: Option<T>)
      modifies this`content
      ensures content == c
      ensures platform == old(platform)
    {
      content := c;
    }

    /** Overwrites the platform, whatever it held; the content is untouched. */
    method BuildPlatform(p: Option<T>)
      modifies this`platform
      ensures platform == p
      ensures content == old(content)
    {
      platform := p;
    }

    /** `buildEmailNotification` / `buildSMSNotification`: a notification of
        this builder's kind from the fields as they are now, null ones
        included; the builder itself is not changed. */
    method Build() returns (n: Notification<T>)
      ensures n.kind == kind
      ensures n.GetContent() == content
      ensures n.platform == platform
    {
      n := Notification(kind, content, platform);
    }
  }
}
