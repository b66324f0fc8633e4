/** The notification class the preload script installs in place of the
    page's `Notification`. Page callbacks are identified by opaque ids,
    the clock reading `Date.now()` is a parameter, and the calls the object
    makes (IPC sends, listener registration, callback invocations) are
    returned as effect values. */
module Preload {
  import opened Wrappers
  import opened Decimal
  import opened Ipc

  /** Identity of a page-supplied callback function. */
  type CallbackId = nat

  /** The options object a page passes; an absent property is `None`. */
  datatype NotificationOptions = NotificationOptions(body: Option<string>, icon: Option<string>, tag: Option<string>)

  /** The second constructor argument: omitted or `undefined` (so it defaults to `{}`),
      passed as `null`, or an options object. */
  datatype OptionsArgument = Omitted | NullOptions | Given(options: NotificationOptions)

  /** The state of one notification object. */
  datatype Notification = Notification(
    title: string,
    body: string,
    icon: string,
    tag: string,
    onclick: Option<CallbackId>,
    onclose: Option<CallbackId>,
    onerror: Option<CallbackId>,
    onshow: Option<CallbackId>)

  /** Which handler property a callback was read from. */
  datatype Slot = OnClick | OnClose

  /** Calls the object makes while running. */
  datatype RendererEffect =
    | Send(channel: string, payload: ShowPayload)   // ipcRenderer.send
    | ListenOnce(channel: string)                   // ipcRenderer.once
    | Invoke(slot: Slot, callback: CallbackId)      // this.onclick() / this.onclose()

  /** Reading `body` of a `null` options argument throws a TypeError. */
  datatype ConstructError = NullOptionsTypeError

  datatype Constructed = Constructed(notification: Notification, effects: seq<RendererEffect>)

  /** Prefix of a generated correlation id. */
  const GeneratedIdPrefix: string := "notif-"

  /** `value || ''` for an optional string property. */
  function OrEmpty(v: Option<string>): (s: string)
    ensures v.None? ==> s == ""
    ensures v.Some? ==> s == v.value
  {
    match v
    case None => ""
    case Some(x) => if x == "" then "" else x
  }

  /** The correlation id: the tag when it is non-empty, otherwise "notif-"
      followed by the clock reading in decimal. */
  function EffectiveId(tag: string, now: nat): (id: string)
    ensures id != ""
    ensures tag != "" ==> id == tag
    ensures tag == "" ==>
              && |id| > |GeneratedIdPrefix|
              && id[..|GeneratedIdPrefix|] == GeneratedIdPrefix
              && AllDigits(id[|GeneratedIdPrefix|..])
              && DecimalValue(id[|GeneratedIdPrefix|..]) == now
              && id[|GeneratedIdPrefix|..] == NatToDecimal(now)
              && (id[|GeneratedIdPrefix|] == '0' ==> now == 0 && |id| == |GeneratedIdPrefix| + 1)
  {
    if tag != "" then tag
    else
      var digits := NatToDecimal(now);
      DecimalRoundTrip(now);
      assert (GeneratedIdPrefix + digits)[|GeneratedIdPrefix|..] == digits;
      GeneratedIdPrefix + digits
  }

  /** Two generated ids differ when the clock readings differ. Equal
      readings (two notifications in the same millisecond) give equal ids. */
  lemma GeneratedIdsDistinct(now1: nat, now2: nat)
    requires now1 != now2
    ensures EffectiveId("", now1) != EffectiveId("", now2)
  {
  }

  /** The constructor: defaults the options, computes the correlation id,
      sends the request to the main process and then registers the one-time
      click listener on the id's reply channel. */
  function Construct(title: string, options: OptionsArgument, now: nat): (r: Result<Constructed, ConstructError>)
    ensures r.Err? <==> options.NullOptions?
    ensures options.Omitted? ==>
              r.Ok? && r.value.notification.body == "" && r.value.notification.icon == ""
              && r.value.notification.tag == ""
    ensures options.Given? ==>
              && r.Ok?
              && r.value.notification.body == OrEmpty(options.options.body)
              && r.value.notification.icon == OrEmpty(options.options.icon)
              && r.value.notification.tag == OrEmpty(options.options.tag)
    ensures r.Ok? ==>
              var n := r.value.notification;
              var id := EffectiveId(n.tag, now);
              && n.title == title
              && n.onclick.None? && n.onclose.None? && n.onerror.None? && n.onshow.None?
              && r.value.effects == [Send(ShowNotificationChannel, ShowPayload(title, n.body, n.icon, id)),
                                     ListenOnce(ClickedChannel(id))]
  {
    match options
    case NullOptions => Err(NullOptionsTypeError)
    case _ =>
      var opts := if options.Given? then options.options else NotificationOptions(None, None, None);
      var n := Notification(title, OrEmpty(opts.body), OrEmpty(opts.icon), OrEmpty(opts.tag), None, None, None, None);
      var id := EffectiveId(n.tag, now);
      Ok(Constructed(n, [Send(ShowNotificationChannel, ShowPayload(n.title, n.body, n.icon, id)),
                         ListenOnce(ClickedChannel(id))]))
  }

  /** The sent request never carries an empty tag, and carries the page's
      own tag whenever that tag is non-empty. */
  lemma SentTagNonEmpty(title: string, options: OptionsArgument, now: nat)
    requires !options.NullOptions?
    ensures var c := Construct(title, options, now).value;
      && c.effects[0].Send?
      && c.effects[0].payload.tag != ""
      && (c.notification.tag != "" ==> c.effects[0].payload.tag == c.notification.tag)
      && c.effects[1] == ListenOnce(ClickedChannel(c.effects[0].payload.tag))
  {
  }

  /** The request is sent before the click listener is registered. */
  lemma SendPrecedesListen(title: string, options: OptionsArgument, now: nat)
    requires !options.NullOptions?
    ensures var es := Construct(title, options, now).value.effects;
      forall i, j :: 0 <= i < |es| && 0 <= j < |es| && es[i].ListenOnce? && es[j].Send? ==> j < i
  {
  }

  /** The one-time listener's body: calls `onclick` when one is set. */
  function OnClickedReply(n: Notification): (effects: seq<RendererEffect>)
    ensures n.onclick.None? <==> effects == []
    ensures forall e :: e in effects ==> e == Invoke(OnClick, n.onclick.value)
    ensures |effects| <= 1
  {
    match n.onclick
    case None => []
    case Some(cb) => [Invoke(OnClick, cb)]
  }

  /** `close()`: calls `onclose` when one is set and nothing else; it sends
      no message and never calls `onclick`. */
  function Close(n: Notification): (effects: seq<RendererEffect>)
    ensures n.onclose.None? <==> effects == []
    ensures forall e :: e in effects ==> e == Invoke(OnClose, n.onclose.value)
    ensures |effects| <= 1
  {
    match n.onclose
    case None => []
    case Some(cb) => [Invoke(OnClose, cb)]
  }

  /** Closing does not depend on, or touch, the click handler. */
  lemma CloseIgnoresOnclick(n: Notification, onclick: Option<CallbackId>)
    ensures Close(n.(onclick := onclick)) == Close(n)
    ensures forall e :: e in Close(n) ==> !e.Send? && !e.ListenOnce? && e.slot != OnClick
  {
  }

  /** The static `permission` property. */
  const Permission: string := "granted"

  /** What `requestPermission(callback)` does: the arguments it passes to the
      callback and the value its promise resolves with. */
  datatype PermissionRequest = PermissionRequest(callbackArgs: seq<(CallbackId, string)>, resolved: string)

  /** `requestPermission`: calls the callback, if given, with the permission
      status, and resolves with that same status. */
  function RequestPermission(callback: Option<CallbackId>): (r: PermissionRequest)
    ensures r.resolved == Permission
    ensures |r.callbackArgs| == (if callback.Some? then 1 else 0)
    ensures forall k :: 0 <= k < |r.callbackArgs| ==> r.callbackArgs[k] == (callback.value, r.resolved)
  {
    match callback
    case None => PermissionRequest([], "granted")
    case Some(cb) => PermissionRequest([(cb, "granted")], "granted")
  }
}
