/** The main process's `show-notification` listener and the click handler
    it attaches to each native notification. Platform support and the
    presence of the main window are parameters; the framework calls are
    returned as effect values. */
module MainNotifications {
  import opened Ipc

  /** The application's bundled icon, resolved against the application
      directory at run time (the directory itself is not modelled). */
  const BundledIcon: string := "assets/icon.png"

  /** Reply id used when a request arrives without a tag. */
  const DefaultReplyId: string := "default"

  /** A native notification as constructed, together with the request tag
      its click handler captured. */
  datatype NativeNotification = NativeNotification(title: string, body: string, icon: string, replyTag: string)

  datatype MainEffect =
    | ShowNative(notification: NativeNotification)   // new Notification(...).show()
    | ShowWindow                                     // mainWindow.show()
    | FocusWindow                                    // mainWindow.focus()
    | ReplyToSender(channel: string)                 // event.sender.send(channel)

  /** `notification-clicked-${tag || 'default'}`. */
  function ReplyChannel(tag: string): (ch: string)
    ensures tag != "" ==> ch == ClickedChannel(tag)
    ensures tag == "" ==> ch == ClickedChannel(DefaultReplyId)
  {
    ClickedPrefix + (if tag == "" then DefaultReplyId else tag)
  }

  /** The listener: when the platform supports notifications, exactly one
      native notification is shown with the request's title and body and
      the bundled icon; otherwise the request is dropped. */
  function OnShowNotification(request: ShowPayload, supported: bool): (effects: seq<MainEffect>)
    ensures !supported <==> effects == []
    ensures |effects| <= 1
    ensures forall e :: e in effects ==>
              && e.ShowNative?
              && e.notification.title == request.title
              && e.notification.body == request.body
              && e.notification.icon == BundledIcon
              && e.notification.replyTag == request.tag
  {
    if supported then [ShowNative(NativeNotification(request.title, request.body, BundledIcon, request.tag))]
    else []
  }

  /** The icon a request carries has no effect on what is shown. */
  lemma RequestIconIgnored(request: ShowPayload, icon: string, supported: bool)
    ensures OnShowNotification(request.(icon := icon), supported) == OnShowNotification(request, supported)
  {
  }

  /** The click handler: raises the main window when there is one, then
      replies on the channel named after the captured tag, exactly once. */
  function OnNotificationClick(n: NativeNotification, windowExists: bool): (effects: seq<MainEffect>)
    ensures |effects| >= 1 && effects[|effects| - 1] == ReplyToSender(ReplyChannel(n.replyTag))
    ensures forall i :: 0 <= i < |effects| - 1 ==> !effects[i].ReplyToSender?
    ensures ShowWindow in effects <==> windowExists
    ensures FocusWindow in effects <==> windowExists
    ensures |effects| == (if windowExists then 3 else 1)
    ensures windowExists ==> effects[0] == ShowWindow && effects[1] == FocusWindow
  {
    (if windowExists then [ShowWindow, FocusWindow] else []) + [ReplyToSender(ReplyChannel(n.replyTag))]
  }
}
