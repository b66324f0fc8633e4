/** The two message kinds exchanged between the preload script and the
    main process for notifications. */
module Ipc {

  /** Channel the preload script sends notification requests on. */
  const ShowNotificationChannel: string := "show-notification"

  /** Prefix of the per-notification reply channel. */
  const ClickedPrefix: string := "notification-clicked-"

  /** Body of a `show-notification` message. */
  datatype ShowPayload = ShowPayload(title: string, body: string, icon: string, tag: string)

  /** The reply channel named after a correlation id. */
  function ClickedChannel(id: string): (ch: string)
    ensures |ch| == |ClickedPrefix| + |id|
    ensures ch[..|ClickedPrefix|] == ClickedPrefix && ch[|ClickedPrefix|..] == id
  {
    ClickedPrefix + id
  }

  /** Reply channels of different ids are different, so a reply reaches
      only the listener registered for its own id. */
  lemma ClickedChannelInjective(a: string, b: string)
    requires ClickedChannel(a) == ClickedChannel(b)
    ensures a == b
  {
    assert a == ClickedChannel(a)[|ClickedPrefix|..];
  }
}
