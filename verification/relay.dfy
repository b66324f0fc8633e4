/** Properties of the notification relay that span the preload script and
    the main process. */
module Relay {
  import opened Wrappers
  import opened Ipc
  import opened Preload
  import opened MainNotifications
  import Permissions

  /** The channel the main process replies on for a request sent by the
      preload script is the channel that script listens on; the `'default'`
      fallback of the main process is never taken for such a request. */
  lemma ReplyReachesListener(title: string, options: OptionsArgument, now: nat, windowExists: bool)
    requires !options.NullOptions?
    ensures var c := Construct(title, options, now).value;
      && c.effects[0].Send?
      && c.effects[1].ListenOnce?
      && var shown := OnShowNotification(c.effects[0].payload, true);
         && |shown| == 1
         && c.effects[0].payload.tag != ""
         && var replies := OnNotificationClick(shown[0].notification, windowExists);
            replies[|replies| - 1] == ReplyToSender(c.effects[1].channel)
  {
    var c := Construct(title, options, now).value;
    var shown := OnShowNotification(c.effects[0].payload, true);
    assert shown[0] in shown;
  }

  /** A click on the native notification ends in the page's own click
      handler: the reply goes to this object's listener, which calls the
      `onclick` the page set, and no other. */
  lemma ClickRunsPageHandler(title: string, options: OptionsArgument, now: nat, windowExists: bool, handler: CallbackId)
    requires !options.NullOptions?
    ensures var c := Construct(title, options, now).value;
      var page := c.notification.(onclick := Some(handler));
      var shown := OnShowNotification(c.effects[0].payload, true);
      var replies := OnNotificationClick(shown[0].notification, windowExists);
      && ReplyToSender(c.effects[1].channel) in replies
      && OnClickedReply(page) == [Invoke(OnClick, handler)]
  {
    ReplyReachesListener(title, options, now, windowExists);
  }

  /** The notification shown for a page's request has the page's title and
      defaulted body and always the bundled icon, whatever icon the page
      asked for. */
  lemma ShownNotificationContent(title: string, options: NotificationOptions, now: nat)
    ensures var c := Construct(title, Given(options), now).value;
      var shown := OnShowNotification(c.effects[0].payload, true);
      shown == [ShowNative(NativeNotification(title, OrEmpty(options.body), BundledIcon, c.effects[0].payload.tag))]
  {
  }

  /** The renderer reports notifications as granted, and the main process's
      session grants the `notifications` permission. */
  lemma PermissionStatusAgrees(callback: Option<CallbackId>)
    ensures RequestPermission(callback).resolved == Permission
    ensures Permissions.OnPermissionRequest("notifications") == [Permission == "granted"]
  {
  }

  /** `close()` changes nothing on the object and leaves the reply listener
      registered, so a click arriving after `close()` still runs `onclick`. */
  lemma ClickAfterCloseRunsOnclick(n: Notification)
    requires n.onclick.Some?
    ensures forall e :: e in Close(n) ==> e.slot == OnClose
    ensures OnClickedReply(n) == [Invoke(OnClick, n.onclick.value)]
  {
  }
}
