/** The page-side notification hook: a capability/permission gate, the merge of caller options
    over defaults, and the choice between the service-worker channel and a direct
    `new Notification(...)`. The browser's answers (the permission prompt, the worker's
    acknowledgement or the 5 s timeout, a throwing constructor) are parameters. */
module Notifications {
  import opened Common
  import opened JsValue

  datatype Permission = Default | Granted | Denied

  /** A service-worker registration; `active` says whether it has an active worker. */
  datatype Registration = Registration(active: bool)

  /** A `NotificationOptions` object: property name to value. */
  type Options = map<string, Value>

  const DefaultBody: string := "New notification from EduHub!"
  const AppIcon: string := "/pwa-192x192.png"
  const ShowNotificationType: string := "SHOW_NOTIFICATION"

  /** How the page's wait for the worker ended: a reply on the port (whichever came first),
      the 5 s timer, or `postMessage` throwing inside the promise executor. */
  datatype Ack = Replied(data: Value) | TimedOut | PostFailed

  /** What the hook does that the caller or the user can observe. */
  datatype PageEffect =
    | Warned                                  // console.warn on the gate
    | Prompted                                // the native permission prompt
    | Posted(message: Value)                  // postMessage to the active worker
    | DirectShown(title: string, options: Options)
    | DirectThrew                             // `new Notification` threw; caught and logged
    | PostThrew                               // `postMessage` threw; caught and logged

  /** Both the Notification API and the service-worker API must exist. */
  function IsSupported(hasNotificationApi: bool, hasServiceWorkerApi: bool): (r: bool)
    ensures r <==> hasNotificationApi && hasServiceWorkerApi
  {
    hasNotificationApi && hasServiceWorkerApi
  }

  /** The hook's default options; `data.dateOfArrival` is the clock reading. None of them is
      `type` or `title`, so merging them never disturbs the command's own fields. */
  function DefaultOptions(now: int): (d: Options)
    ensures "type" !in d && "title" !in d
    ensures "data" in d && d["data"] == Obj(map["dateOfArrival" := Num(now)])
  {
    map[
      "body" := Str(DefaultBody),
      "icon" := Str(AppIcon),
      "badge" := Str(AppIcon),
      "vibrate" := Arr([Num(200), Num(100), Num(200)]),
      "requireInteraction" := Bool(true),
      "silent" := Bool(false),
      "data" := Obj(map["dateOfArrival" := Num(now)])]
  }

  /** `{ ...defaultOptions, ...options }`: the caller's keys win, every other default stays. */
  function MergeOptions(options: Options, now: int): (r: Options)
    ensures forall k :: k in options ==> k in r && r[k] == options[k]
    ensures forall k :: k !in options ==> (k in r <==> k in DefaultOptions(now))
    ensures forall k :: k !in options && k in DefaultOptions(now) ==> r[k] == DefaultOptions(now)[k]
  {
    Spread(DefaultOptions(now), options)
  }

  /** Unless the caller overrides them, a notification demands interaction, is not silent,
      and carries the application's default body, icon and arrival time. */
  lemma MergedDefaults(options: Options, now: int)
    ensures var r := MergeOptions(options, now);
      && ("requireInteraction" !in options ==> r["requireInteraction"] == Bool(true))
      && ("silent" !in options ==> r["silent"] == Bool(false))
      && ("body" !in options ==> r["body"] == Str(DefaultBody))
      && ("icon" !in options ==> r["icon"] == Str(AppIcon))
      && ("data" !in options ==> r["data"] == Obj(map["dateOfArrival" := Num(now)]))
  {
  }

  /** The message posted to the active worker: `{ type: 'SHOW_NOTIFICATION', title, ...merged }`. */
  function Envelope(title: string, merged: Options): (m: Value)
    ensures m.Obj? && m.fields.Keys == merged.Keys + {"type", "title"}
    // the merged options travel as top-level properties and win over `type` and `title`
    ensures forall k :: k in merged ==> m.fields[k] == merged[k]
    ensures "type" !in merged ==> m.fields["type"] == Str(ShowNotificationType)
    ensures "title" !in merged ==> m.fields["title"] == Str(title)
  {
    Obj(Spread(map["type" := Str(ShowNotificationType), "title" := Str(title)], merged))
  }

  /** `event.data?.success ?? false`, tested for truthiness; a timeout resolves `false`. */
  predicate AckSuccess(ack: Ack) {
    ack.Replied? && Truthy(Coalesce(Field(ack.data, "success"), Bool(false)))
  }

  function Direct(title: string, merged: Options, directThrows: bool): seq<PageEffect> {
    if directThrows then [DirectThrew] else [DirectShown(title, merged)]
  }

  predicate IsDirectAttempt(e: PageEffect) { e.DirectShown? || e.DirectThrew? }

  predicate IsPost(e: PageEffect) { e.Posted? }

  /** `sendNotification` after the merge: the gate, then the worker channel with a direct
      fallback, or the direct channel alone. Every failure is caught, so the call always
      completes. `merged` is `MergeOptions(options, now)`. */
  function Dispatch(
    supported: bool, permission: Permission, registration: Option<Registration>,
    title: string, merged: Options, ack: Ack, directThrows: bool): (r: seq<PageEffect>)
    ensures |r| >= 1
    // the gate: unsupported or not granted shows nothing on any channel
    ensures !supported || permission != Granted ==> r == [Warned]
    // a direct notification always carries the merged options
    ensures forall e :: e in r && e.DirectShown? ==> e == DirectShown(title, merged)
    // without an active worker, exactly one direct attempt and nothing else
    ensures supported && permission == Granted && !(registration.Some? && registration.value.active) ==>
      r == Direct(title, merged, directThrows)
  {
    if !supported || permission != Granted then [Warned]
    else if registration.Some? && registration.value.active then
      if ack.PostFailed? then [PostThrew]
      else PostThen(Envelope(title, merged), if AckSuccess(ack) then [] else Direct(title, merged, directThrows))
    else Direct(title, merged, directThrows)
  }

  /** Post `message`, then run `fallback`. */
  function PostThen(message: Value, fallback: seq<PageEffect>): seq<PageEffect> {
    [Posted(message)] + fallback
  }

  /** Posting then falling back to direct attempts posts exactly once, first, and makes
      exactly as many direct attempts as the fallback holds. */
  lemma PostThenCounts(message: Value, fallback: seq<PageEffect>)
    requires forall e :: e in fallback ==> IsDirectAttempt(e)
    ensures var r := PostThen(message, fallback);
      && r[0] == Posted(message)
      && CountWhere(r, IsPost) == 1
      && CountWhere(r, IsDirectAttempt) == |fallback|
  {
    CountCons(Posted(message), fallback, IsPost);
    CountCons(Posted(message), fallback, IsDirectAttempt);
    CountNone(fallback, IsPost);
    CountEvery(fallback, IsDirectAttempt);
  }

  /** With an active worker, exactly one SHOW_NOTIFICATION message carrying the title and the
      merged options is posted (unless posting itself throws), and a direct attempt follows
      exactly when the worker did not acknowledge success. */
  lemma WorkerChannel(
    registration: Option<Registration>, title: string, merged: Options, ack: Ack, directThrows: bool)
    requires registration.Some? && registration.value.active
    ensures var r := Dispatch(true, Granted, registration, title, merged, ack, directThrows);
      && (ack.PostFailed? ==> r == [PostThrew])
      && (!ack.PostFailed? ==>
            && r[0] == Posted(Envelope(title, merged))
            && CountWhere(r, IsPost) == 1
            && (CountWhere(r, IsDirectAttempt) == 1 <==> !AckSuccess(ack)))
  {
    if !ack.PostFailed? {
      PostThenCounts(Envelope(title, merged), if AckSuccess(ack) then [] else Direct(title, merged, directThrows));
    }
  }

  /** Without an active worker, exactly one direct attempt is made and nothing is posted. */
  lemma DirectChannel(
    registration: Option<Registration>, title: string, merged: Options, ack: Ack, directThrows: bool)
    requires !(registration.Some? && registration.value.active)
    ensures var r := Dispatch(true, Granted, registration, title, merged, ack, directThrows);
      CountWhere(r, IsDirectAttempt) == 1 && CountWhere(r, IsPost) == 0
  {
  }

  /** Whatever the gate, the registration and the worker's answer, one call makes at most one
      direct `new Notification` attempt. */
  lemma AtMostOneDirect(
    supported: bool, permission: Permission, registration: Option<Registration>,
    title: string, merged: Options, ack: Ack, directThrows: bool)
    ensures CountWhere(Dispatch(supported, permission, registration, title, merged, ack, directThrows), IsDirectAttempt) <= 1
  {
    if !supported || permission != Granted {
      CountNone([Warned], IsDirectAttempt);
    } else if registration.Some? && registration.value.active {
      WorkerChannel(registration, title, merged, ack, directThrows);
      if ack.PostFailed? {
        CountNone([PostThrew], IsDirectAttempt);
      }
    } else {
      DirectChannel(registration, title, merged, ack, directThrows);
    }
  }

  datatype PermissionStep = PermissionStep(result: Permission, permission: Permission, prompted: bool)

  /** `requestPermission`: unsupported answers 'denied' without a prompt and keeps the stored
      permission; supported prompts once and stores the user's answer. */
  function RequestPermissionSpec(supported: bool, current: Permission, answer: Permission): (r: PermissionStep)
    ensures !supported ==> r.result == Denied && r.permission == current && !r.prompted
    ensures supported ==> r.prompted && r.result == answer && r.permission == r.result
  {
    if !supported then PermissionStep(Denied, current, false)
    else PermissionStep(answer, answer, true)
  }

  /** The hook's state, set by its effects and updated by its callbacks. */
  class NotificationHook {
    var isSupported: bool
    var permission: Permission
    var registration: Option<Registration>
    var log: seq<PageEffect>

    /** The mount effect: compute support once; read the live permission only when supported. */
    constructor Mount(hasNotificationApi: bool, hasServiceWorkerApi: bool, livePermission: Permission)
      ensures isSupported == IsSupported(hasNotificationApi, hasServiceWorkerApi)
      ensures permission == if isSupported then livePermission else Default
      ensures registration == None && log == []
    {
      isSupported := IsSupported(hasNotificationApi, hasServiceWorkerApi);
      permission := if hasNotificationApi && hasServiceWorkerApi then livePermission else Default;
      registration := None;
      log := [];
    }

    /** `setSwRegistration`: the existing or newly registered worker, once known. */
    method AttachRegistration(reg: Registration)
      requires isSupported
      modifies this`registration
      ensures registration == Some(reg)
    {
      registration := Some(reg);
    }

    method RequestPermission(answer: Permission) returns (result: Permission)
      modifies this`permission, this`log
      ensures var step := RequestPermissionSpec(isSupported, old(permission), answer);
        && result == step.result
        && permission == step.permission
        && log == old(log) + (if step.prompted then [Prompted] else [])
    {
      if !isSupported {
        return Denied;
      }
      log := log + [Prompted];
      result := answer;
      permission := result;
    }

    method SendNotification(title: string, options: Options, now: int, ack: Ack, directThrows: bool)
      modifies this`log
      ensures log == old(log) +
        Dispatch(isSupported, permission, registration, title, MergeOptions(options, now), ack, directThrows)
    {
      if !isSupported || permission != Granted {
        log := log + [Warned];
        return;
      }
      var merged := MergeOptions(options, now);
      if registration.Some? && registration.value.active {
        if ack.PostFailed? {
          log := log + [PostThrew];
          return;
        }
        var fallback := if AckSuccess(ack) then [] else Direct(title, merged, directThrows);
        log := log + ([Posted(Envelope(title, merged))] + fallback);
      } else {
        log := log + Direct(title, merged, directThrows);
      }
    }
  }
}
