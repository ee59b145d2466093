/** The service worker: a two-generation cache over the browser's CacheStorage, a cache-first
    fetch interceptor, and the push / click / message / sync handlers that turn events into
    notification and window effects. The browser's CacheStorage is an explicit value
    (names in creation order plus their contents); the network is an oracle map from URL to
    response; the effects the worker causes are appended to a log. */
module ServiceWorker {
  import opened Common
  import opened JsValue

  const StaticCacheName: string := "eduhub-static-v1"
  const DynamicCacheName: string := "eduhub-dynamic-v1"
  const StaticAssets: seq<string> :=
    ["/", "/index.html", "/manifest.json", "/pwa-192x192.png", "/pwa-512x512.png"]
  const AppIcon: string := "/pwa-192x192.png"
  const DefaultPushTitle: string := "EduHub - Student App"
  const DefaultPushBody: string := "You have a new update!"
  const ShowNotificationType: string := "SHOW_NOTIFICATION"
  const BackgroundSyncTag: string := "background-sync"

  datatype Request = Request(httpMethod: string, url: string)

  datatype Response = Response(status: int, body: string)

  /** `response.ok`: a 2xx status. */
  predicate IsOk(r: Response) { 200 <= r.status <= 299 }

  /** What the Cache `addAll` algorithm of the Service Workers specification demands of each
      response: `response.ok`, and not a 206 partial response. */
  predicate AddAllAccepts(r: Response) { IsOk(r) && r.status != 206 }

  /** What the Cache `put` algorithm of the Service Workers specification accepts: any
      response but a 206 partial one, for a request whose URL is http or https. */
  predicate PutAccepts(url: string, r: Response) { r.status != 206 && HttpUrl(url) }

  predicate SchemeStart(c: char) { 'a' <= c <= 'z' || 'A' <= c <= 'Z' }

  predicate SchemeChar(c: char) { SchemeStart(c) || '0' <= c <= '9' || c == '+' || c == '-' || c == '.' }

  /** A URL scheme: a letter, then letters, digits, `+`, `-` and `.` (section 3.1 of RFC 3986). */
  predicate IsScheme(s: string) {
    |s| > 0 && SchemeStart(s[0]) && forall k :: 1 <= k < |s| ==> SchemeChar(s[k])
  }

  /** The end of the run of scheme characters that starts at `i`. */
  function SchemeRun(url: string, i: nat): (e: nat)
    requires i <= |url|
    ensures i <= e <= |url|
    ensures forall k :: i <= k < e ==> SchemeChar(url[k])
    ensures e < |url| ==> !SchemeChar(url[e])
    decreases |url| - i
  {
    if i < |url| && SchemeChar(url[i]) then SchemeRun(url, i + 1) else i
  }

  /** The scheme of an absolute URL, or `None` for a URL without one, such as the path
      `/index.html`. */
  function SchemeOf(url: string): (s: Option<string>)
    ensures s.Some? ==>
      IsScheme(s.value) && |s.value| < |url| && url[..|s.value|] == s.value && url[|s.value|] == ':'
    ensures s.None? ==> forall n :: 0 < n < |url| && url[n] == ':' ==> !IsScheme(url[..n])
  {
    if url == [] || !SchemeStart(url[0]) then None
    else
      var e := SchemeRun(url, 1);
      if e < |url| && url[e] == ':' then Some(url[..e]) else None
  }

  /** An http or https URL. A URL without a scheme is a path of the app's own origin, which
      is served over http or https. Request URLs are serialized, so the scheme is lower case. */
  predicate HttpUrl(url: string) {
    SchemeOf(url).None? || SchemeOf(url).value == "http" || SchemeOf(url).value == "https"
  }

  /** One named cache: request URL to stored response. */
  type Cache = map<string, Response>

  /** What the network answers for each URL; a URL that is absent is a network error. */
  type Network = map<string, Response>

  /** The browser's CacheStorage: cache names in creation order (the order of `caches.keys()`
      and of the search done by `caches.match`) and the contents of each cache. */
  datatype CacheStorage = CacheStorage(names: seq<string>, caches: map<string, Cache>)

  ghost predicate WellFormed(st: CacheStorage) {
    && (forall i, j :: 0 <= i < j < |st.names| ==> st.names[i] != st.names[j])
    && (forall n :: n in st.names <==> n in st.caches)
  }

  /** Everything the worker does outside CacheStorage. */
  datatype Effect =
    | NetworkFetch(url: string)
    | ShowNotification(title: Value, options: Value)
    | CloseNotification
    | OpenWindow(url: string)
    | BackgroundSyncRan
    | PortReply(data: Value)     // a message posted back on the port the page transferred

  datatype FetchOutcome =
    | NotIntercepted         // the handler returns without `respondWith`: the browser fetches
    | Responded(response: Response)
    | NetworkError           // the promise given to `respondWith` rejects

  /** The push message's data: absent, valid JSON, or text that `json()` cannot parse. */
  datatype PushData = NoPayload | JsonPayload(json: Value) | UnparsablePayload

  // ---------------------------------------------------------------------------------------
  // CacheStorage primitives

  /** `caches.open(name)`: creates an empty cache, last in creation order, if none exists. */
  function OpenCache(st: CacheStorage, name: string): (r: CacheStorage)
    requires WellFormed(st)
    ensures WellFormed(r)
    ensures name in r.caches
    ensures r.caches.Keys == st.caches.Keys + {name}
    ensures forall n :: n in st.caches ==> r.caches[n] == st.caches[n]
    ensures name !in st.caches ==> r.caches[name] == map[]
  {
    if name in st.caches then st
    else CacheStorage(st.names + [name], st.caches[name := map[]])
  }

  /** `caches.match(request)`: the response stored for `url` in the first cache, in creation
      order, that holds one. */
  function MatchIn(names: seq<string>, caches: map<string, Cache>, url: string): (r: Option<Response>)
    ensures r.Some? ==> exists n :: n in names && n in caches && url in caches[n] && caches[n][url] == r.value
    ensures r.None? ==> forall n :: n in names && n in caches ==> url !in caches[n]
  {
    if names == [] then None
    else if names[0] in caches && url in caches[names[0]] then Some(caches[names[0]][url])
    else MatchIn(names[1..], caches, url)
  }

  /** `caches.match` over every open cache. */
  function MatchAll(st: CacheStorage, url: string): (r: Option<Response>)
    ensures r.Some? ==> exists n :: n in st.names && n in st.caches && url in st.caches[n] && st.caches[n][url] == r.value
    ensures r.None? ==> forall n :: n in st.names && n in st.caches ==> url !in st.caches[n]
  {
    MatchIn(st.names, st.caches, url)
  }

  /** `caches.delete(name)` */
  function DeleteCache(st: CacheStorage, name: string): (r: CacheStorage)
    ensures WellFormed(st) ==> WellFormed(r)
    ensures r.caches == st.caches - {name}
    ensures name !in r.caches
  {
    var names := Filter(st.names, n => n != name);
    assert Distinct(st.names) ==> Distinct(names) by {
      if Distinct(st.names) {
        DistinctFilter(st.names, n => n != name);
      }
    }
    CacheStorage(names, st.caches - {name})
  }

  ghost predicate Distinct(s: seq<string>) {
    forall i, j :: 0 <= i < j < |s| ==> s[i] != s[j]
  }

  lemma {:induction false} DistinctFilter(s: seq<string>, p: string -> bool)
    requires Distinct(s)
    ensures Distinct(Filter(s, p))
  {
    if s != [] {
      DistinctFilter(s[1..], p);
      var rest := Filter(s[1..], p);
      forall k | 0 <= k < |s| - 1
        ensures s[1..][k] != s[0]
      {
        assert s[1..][k] == s[k + 1];
      }
      assert s[0] !in rest;
    }
  }

  // ---------------------------------------------------------------------------------------
  // Install: all-or-nothing population of the static generation

  /** `cache.addAll` succeeds only when every asset is fetched with a response it accepts. */
  predicate AllAssetsOk(urls: seq<string>, net: Network) {
    forall u :: u in urls ==> u in net && AddAllAccepts(net[u])
  }

  function Staged(urls: seq<string>, net: Network): (c: Cache)
    ensures c.Keys == set u | u in urls && u in net
  {
    map u | u in urls && u in net :: net[u]
  }

  function FetchLog(urls: seq<string>): (log: seq<Effect>)
    ensures |log| == |urls|
    ensures forall i :: 0 <= i < |urls| ==> log[i] == NetworkFetch(urls[i])
  {
    if urls == [] then [] else FetchLog(urls[..|urls| - 1]) + [NetworkFetch(urls[|urls| - 1])]
  }

  /** One more URL extends the fetch log by one fetch, and the batch stays ok exactly when
      it was ok and the new answer is ok; the staged cache gains that answer. */
  lemma {:induction false} InstallPrefixStep(urls: seq<string>, i: nat, net: Network)
    requires i < |urls|
    ensures FetchLog(urls[..i + 1]) == FetchLog(urls[..i]) + [NetworkFetch(urls[i])]
    ensures AllAssetsOk(urls[..i + 1], net) <==>
      AllAssetsOk(urls[..i], net) && urls[i] in net && AddAllAccepts(net[urls[i]])
    ensures AllAssetsOk(urls[..i + 1], net) ==>
      Staged(urls[..i + 1], net) == Staged(urls[..i], net)[urls[i] := net[urls[i]]]
  {
    assert urls[..i + 1] == urls[..i] + [urls[i]];
    assert urls[..i + 1][..i] == urls[..i];
  }

  /** The install handler's effect on CacheStorage: the static cache is created, then either
      every asset is stored with its network response, or (one fetch failing) none is. */
  function InstallSpec(st: CacheStorage, net: Network): (r: CacheStorage)
    requires WellFormed(st)
    ensures WellFormed(r)
    ensures r.caches.Keys == st.caches.Keys + {StaticCacheName}
    ensures forall n :: n in st.caches && n != StaticCacheName ==> r.caches[n] == st.caches[n]
    ensures AllAssetsOk(StaticAssets, net) ==>
      forall u :: u in StaticAssets ==> u in r.caches[StaticCacheName] && r.caches[StaticCacheName][u] == net[u]
    ensures AllAssetsOk(StaticAssets, net) ==>
      forall u :: u in r.caches[StaticCacheName] ==>
        u in StaticAssets || (StaticCacheName in st.caches && u in st.caches[StaticCacheName])
    ensures !AllAssetsOk(StaticAssets, net) ==>
      r.caches[StaticCacheName] == (if StaticCacheName in st.caches then st.caches[StaticCacheName] else map[])
  {
    var created := OpenCache(st, StaticCacheName);
    if AllAssetsOk(StaticAssets, net) then
      CacheStorage(created.names,
        created.caches[StaticCacheName := created.caches[StaticCacheName] + Staged(StaticAssets, net)])
    else created
  }

  // ---------------------------------------------------------------------------------------
  // Activate: delete every cache but the two current generations

  predicate IsCurrentGeneration(name: string) {
    name == StaticCacheName || name == DynamicCacheName
  }

  function ActivateSpec(st: CacheStorage): (r: CacheStorage)
    requires WellFormed(st)
    ensures WellFormed(r)
    ensures forall n :: n in r.caches ==> IsCurrentGeneration(n)
    ensures forall n :: n in st.caches && IsCurrentGeneration(n) ==> n in r.caches && r.caches[n] == st.caches[n]
    ensures r.names == Filter(st.names, IsCurrentGeneration)
  {
    DistinctFilter(st.names, IsCurrentGeneration);
    CacheStorage(Filter(st.names, IsCurrentGeneration),
                 map n | n in st.caches && IsCurrentGeneration(n) :: st.caches[n])
  }

  /** What the activate handler's walk over `keys` does: delete each stale name in turn. */
  function DeleteStale(st: CacheStorage, keys: seq<string>): CacheStorage
    decreases |keys|
  {
    if keys == [] then st
    else DeleteStale(if IsCurrentGeneration(keys[0]) then st else DeleteCache(st, keys[0]), keys[1..])
  }

  lemma {:induction false} FilterFilter(s: seq<string>, p: string -> bool, q: string -> bool)
    ensures Filter(Filter(s, p), q) == Filter(s, x => p(x) && q(x))
  {
    if s != [] {
      FilterFilter(s[1..], p, q);
    }
  }

  /** Walking `keys` deletes exactly the stale names among them ... */
  lemma {:induction false} DeleteStaleNames(st: CacheStorage, keys: seq<string>)
    ensures DeleteStale(st, keys).names == Filter(st.names, n => IsCurrentGeneration(n) || n !in keys)
    decreases |keys|
  {
    var keep := (n: string) => IsCurrentGeneration(n) || n !in keys;
    if keys == [] {
      FilterAll(st.names, keep);
    } else {
      var k, rest := keys[0], keys[1..];
      var keepRest := (n: string) => IsCurrentGeneration(n) || n !in rest;
      if IsCurrentGeneration(k) {
        DeleteStaleNames(st, rest);
        FilterExt(st.names, keepRest, keep);
      } else {
        var next := DeleteCache(st, k);
        DeleteStaleNames(next, rest);
        var notK := (n: string) => n != k;
        assert next.names == Filter(st.names, notK);
        FilterFilter(st.names, notK, keepRest);
        FilterExt(st.names, x => notK(x) && keepRest(x), keep);
      }
    }
  }

  /** ... and exactly their contents. */
  lemma {:induction false} DeleteStaleCaches(st: CacheStorage, keys: seq<string>)
    ensures DeleteStale(st, keys).caches == st.caches - (set n | n in keys && !IsCurrentGeneration(n))
    decreases |keys|
  {
    if keys == [] {
      assert (set n | n in keys && !IsCurrentGeneration(n)) == {};
    } else {
      var k, rest := keys[0], keys[1..];
      var next := if IsCurrentGeneration(k) then st else DeleteCache(st, k);
      DeleteStaleCaches(next, rest);
      assert (set n | n in keys && !IsCurrentGeneration(n))
          == (set n | n in rest && !IsCurrentGeneration(n)) + (if IsCurrentGeneration(k) then {} else {k});
    }
  }

  /** The walk over all current names is the activate specification. */
  lemma ActivateWalk(st: CacheStorage)
    requires WellFormed(st)
    ensures DeleteStale(st, st.names) == ActivateSpec(st)
  {
    DeleteStaleNames(st, st.names);
    DeleteStaleCaches(st, st.names);
    FilterExt(st.names, n => IsCurrentGeneration(n) || n !in st.names, IsCurrentGeneration);
  }

  // ---------------------------------------------------------------------------------------
  // Fetch: cache first, network fallback stored in the dynamic generation

  datatype FetchStep = FetchStep(storage: CacheStorage, effects: seq<Effect>, outcome: FetchOutcome)

  function FetchSpec(st: CacheStorage, req: Request, net: Network): (r: FetchStep)
    requires WellFormed(st)
    ensures WellFormed(r.storage)
    // a non-GET request is not intercepted and touches no cache
    ensures req.httpMethod != "GET" ==> r == FetchStep(st, [], NotIntercepted)
    // a hit in any cache is served from the cache without a network request
    ensures req.httpMethod == "GET" && MatchAll(st, req.url).Some? ==>
      r == FetchStep(st, [], Responded(MatchAll(st, req.url).value))
    // a miss makes exactly one network request
    ensures req.httpMethod == "GET" && MatchAll(st, req.url).None? ==> r.effects == [NetworkFetch(req.url)]
    // ... whose response is returned; the dynamic generation is opened, and the response is
    // stored there, and only there, when `cache.put` accepts it
    ensures req.httpMethod == "GET" && MatchAll(st, req.url).None? && req.url in net ==>
      && r.outcome == Responded(net[req.url])
      && DynamicCacheName in r.storage.caches
      && r.storage.caches[DynamicCacheName] ==
           (var before := if DynamicCacheName in st.caches then st.caches[DynamicCacheName] else map[];
            if PutAccepts(req.url, net[req.url]) then before[req.url := net[req.url]] else before)
      && r.storage.caches.Keys == st.caches.Keys + {DynamicCacheName}
      && forall n :: n in st.caches && n != DynamicCacheName ==> r.storage.caches[n] == st.caches[n]
    // ... and a network failure leaves every cache as it was
    ensures req.httpMethod == "GET" && MatchAll(st, req.url).None? && req.url !in net ==>
      r.outcome == NetworkError && r.storage == st
  {
    if req.httpMethod != "GET" then FetchStep(st, [], NotIntercepted)
    else match MatchAll(st, req.url)
      case Some(cached) => FetchStep(st, [], Responded(cached))
      case None =>
        if req.url !in net then FetchStep(st, [NetworkFetch(req.url)], NetworkError)
        else
          var fetched := net[req.url];
          var created := OpenCache(st, DynamicCacheName);
          var stored :=
            if PutAccepts(req.url, fetched) then
              CacheStorage(created.names,
                created.caches[DynamicCacheName := created.caches[DynamicCacheName][req.url := fetched]])
            else created;
          FetchStep(stored, [NetworkFetch(req.url)], Responded(fetched))
  }

  /** After a miss answered by the network, the next request for the URL is served from the
      cache exactly when `cache.put` accepted the response; otherwise it misses again. */
  lemma NextFetchHitsIffStored(st: CacheStorage, req: Request, net: Network)
    requires WellFormed(st) && req.httpMethod == "GET"
    requires MatchAll(st, req.url).None? && req.url in net
    ensures PutAccepts(req.url, net[req.url]) ==>
      MatchAll(FetchSpec(st, req, net).storage, req.url) == Some(net[req.url])
    ensures !PutAccepts(req.url, net[req.url]) ==> MatchAll(FetchSpec(st, req, net).storage, req.url).None?
  {
    var next := FetchSpec(st, req, net).storage;
    forall n | n in next.names && n in next.caches && n != DynamicCacheName
      ensures req.url !in next.caches[n]
    {
      assert n in st.caches && n in st.names;
    }
    assert req.url in next.caches[DynamicCacheName] <==> PutAccepts(req.url, net[req.url]);
    if PutAccepts(req.url, net[req.url]) {
      assert DynamicCacheName in next.names;
    }
  }

  /** `cache.put` refuses a request whose URL has a scheme other than http or https, such
      as `chrome-extension:` or `data:`. */
  lemma NonHttpSchemeRefused(scheme: string, rest: string, r: Response)
    requires IsScheme(scheme) && scheme != "http" && scheme != "https"
    ensures !PutAccepts(scheme + ":" + rest, r)
  {
    SchemeOfRecovers(scheme, rest);
  }

  /** The scheme parser recovers the scheme of any URL built from one. */
  lemma {:induction false} SchemeOfRecovers(scheme: string, rest: string)
    requires IsScheme(scheme)
    ensures SchemeOf(scheme + ":" + rest) == Some(scheme)
  {
    var url := scheme + ":" + rest;
    assert url[..|scheme|] == scheme && url[|scheme|] == ':';
    var e := SchemeRun(url, 1);
    forall k | 1 <= k < |scheme|
      ensures SchemeChar(url[k])
    {
      assert url[k] == scheme[k];
    }
    assert e == |scheme|;
  }

  // ---------------------------------------------------------------------------------------
  // Notification handlers

  const ExploreAction: Value :=
    Obj(map["action" := Str("explore"), "title" := Str("View Details"), "icon" := Str(AppIcon)])
  const CloseAction: Value :=
    Obj(map["action" := Str("close"), "title" := Str("Close"), "icon" := Str(AppIcon)])

  /** The options object built by the push handler around a title and body. */
  function PushOptions(body: Value, now: int): Value {
    Obj(map[
      "body" := body,
      "icon" := Str(AppIcon),
      "badge" := Str(AppIcon),
      "vibrate" := Arr([Num(100), Num(50), Num(100)]),
      "data" := Obj(map["dateOfArrival" := Num(now)]),
      "actions" := Arr([ExploreAction, CloseAction])])
  }

  /** The push handler: one notification, payload title and body or the defaults; a payload
      that is not JSON makes the handler throw before anything is shown. */
  function PushEffects(data: PushData, now: int): (r: seq<Effect>)
    ensures data.UnparsablePayload? ==> r == []
    ensures !data.UnparsablePayload? ==> |r| == 1 && r[0].ShowNotification?
    ensures data.JsonPayload? && Truthy(Field(data.json, "title")) ==> r[0].title == Field(data.json, "title")
    ensures !data.UnparsablePayload? && !(data.JsonPayload? && Truthy(Field(data.json, "title"))) ==>
      r[0].title == Str(DefaultPushTitle)
    ensures data.JsonPayload? && Truthy(Field(data.json, "body")) ==> Field(r[0].options, "body") == Field(data.json, "body")
    ensures !data.UnparsablePayload? && !(data.JsonPayload? && Truthy(Field(data.json, "body"))) ==>
      Field(r[0].options, "body") == Str(DefaultPushBody)
    ensures !data.UnparsablePayload? ==> Field(r[0].options, "actions") == Arr([ExploreAction, CloseAction])
  {
    match data
    case UnparsablePayload => []
    case NoPayload => [PushNotification(Obj(map[]), now)]
    case JsonPayload(json) => [PushNotification(Or(json, Obj(map[])), now)]
  }

  /** `data.title || default` and `data.body || default` around the fixed push options. */
  function PushNotification(parsed: Value, now: int): Effect {
    var title := Or(Field(parsed, "title"), Str(DefaultPushTitle));
    var body := Or(Field(parsed, "body"), Str(DefaultPushBody));
    ShowNotification(title, PushOptions(body, now))
  }

  /** The click handler: the notification is always closed; only 'explore' opens '/'. */
  function ClickEffects(action: string): (r: seq<Effect>)
    ensures |r| >= 1 && r[0] == CloseNotification
    ensures OpenWindow("/") in r <==> action == "explore"
    ensures forall e :: e in r ==> e == CloseNotification || e == OpenWindow("/")
  {
    [CloseNotification] + (if action == "explore" then [OpenWindow("/")] else [])
  }

  /** A `SHOW_NOTIFICATION` command: a truthy message whose `type` property is that string. */
  predicate IsShowCommand(data: Value) {
    Truthy(data) && Field(data, "type") == Str(ShowNotificationType)
  }

  /** The message handler AS WRITTEN: it reads the options from an `options` property of the
      message and never answers on the transferred port. */
  function MessageEffectsAsWritten(data: Value): (r: seq<Effect>)
    ensures |r| <= 1
    ensures forall e :: e in r ==> e.ShowNotification?
    ensures r != [] <==> IsShowCommand(data)
    ensures r != [] ==> r[0].title == Field(data, "title") && r[0].options == Field(data, "options")
  {
    if IsShowCommand(data) then [ShowNotification(Field(data, "title"), Field(data, "options"))]
    else []
  }

  /** The properties of a flattened command other than its `type` and `title`: the
      notification options the page spread into it. */
  function CommandOptions(data: Value): (r: map<string, Value>)
    ensures "type" !in r && "title" !in r
    ensures data.Obj? ==> forall k :: k in r <==> k in data.fields && k != "type" && k != "title"
  {
    if data.Obj? then data.fields - {"type", "title"} else map[]
  }

  const SuccessReply: Value := Obj(map["success" := Bool(true)])

  /** The message handler as the page expects it: the options are the command's own remaining
      properties, and once the notification is requested the worker answers `{ success: true }`
      on the port. Anything else is ignored and gets no answer. */
  function MessageEffects(data: Value): (r: seq<Effect>)
    ensures r != [] <==> IsShowCommand(data)
    ensures IsShowCommand(data) ==>
      && |r| == 2
      && r[0].ShowNotification? && r[0].title == Field(data, "title")
      && r[0].options == Obj(CommandOptions(data))
      && r[1] == PortReply(SuccessReply)
  {
    if IsShowCommand(data) then
      [ShowNotification(Field(data, "title"), Obj(CommandOptions(data))), PortReply(SuccessReply)]
    else []
  }

  /** The sync handler: only the 'background-sync' tag runs the (log-only) sync task. */
  function SyncEffects(tag: string): (r: seq<Effect>)
    ensures r == [BackgroundSyncRan] <==> tag == BackgroundSyncTag
    ensures r != [BackgroundSyncRan] ==> r == []
  {
    if tag == BackgroundSyncTag then [BackgroundSyncRan] else []
  }

  // ---------------------------------------------------------------------------------------
  // The worker's global scope: CacheStorage plus the effect log, updated by its handlers.

  class Worker {
    var names: seq<string>
    var caches: map<string, Cache>
    var effects: seq<Effect>

    ghost predicate Valid()
      reads this
    {
      WellFormed(Storage())
    }

    function Storage(): CacheStorage
      reads this
    {
      CacheStorage(names, caches)
    }

    constructor ()
      ensures Valid()
      ensures Storage() == CacheStorage([], map[]) && effects == []
    {
      names, caches, effects := [], map[], [];
    }

    method Open(name: string)
      requires Valid()
      modifies this
      ensures Valid()
      ensures Storage() == OpenCache(old(Storage()), name)
      ensures effects == old(effects)
    {
      if name !in caches {
        names, caches := names + [name], caches[name := map[]];
      }
    }

    /** `install`: open the static cache, fetch every asset, commit them all or none. */
    method Install(net: Network) returns (ok: bool)
      requires Valid()
      modifies this
      ensures Valid()
      ensures ok == AllAssetsOk(StaticAssets, net)
      ensures Storage() == InstallSpec(old(Storage()), net)
      ensures effects == old(effects) + FetchLog(StaticAssets)
    {
      Open(StaticCacheName);
      var staged;
      ok, staged := FetchAll(StaticAssets, net);
      if ok {
        caches := caches[StaticCacheName := caches[StaticCacheName] + staged];
      }
    }

    /** The fetches behind `cache.addAll`: every URL is requested; the batch succeeds only
        when each answer arrives with an ok status. */
    method FetchAll(urls: seq<string>, net: Network) returns (ok: bool, staged: Cache)
      modifies this`effects
      ensures ok == AllAssetsOk(urls, net)
      ensures ok ==> staged == Staged(urls, net)
      ensures effects == old(effects) + FetchLog(urls)
    {
      staged := map[];
      ok := true;
      var i := 0;
      while i < |urls|
        invariant 0 <= i <= |urls|
        invariant ok == AllAssetsOk(urls[..i], net)
        invariant ok ==> staged == Staged(urls[..i], net)
        invariant effects == old(effects) + FetchLog(urls[..i])
      {
        var url := urls[i];
        InstallPrefixStep(urls, i, net);
        effects := effects + [NetworkFetch(url)];
        if url in net && AddAllAccepts(net[url]) {
          staged := staged[url := net[url]];
        } else {
          ok := false;
        }
        i := i + 1;
      }
      assert urls[..i] == urls;
    }

    method Delete(name: string)
      requires Valid()
      modifies this
      ensures Valid()
      ensures Storage() == DeleteCache(old(Storage()), name)
      ensures effects == old(effects)
    {
      var r := DeleteCache(Storage(), name);
      names, caches := r.names, r.caches;
    }

    /** `activate`: walk `caches.keys()` and delete every name that is not current. */
    method Activate()
      requires Valid()
      modifies this
      ensures Valid()
      ensures Storage() == ActivateSpec(old(Storage()))
      ensures effects == old(effects)
    {
      ghost var start := Storage();
      var keys := names;
      var i := 0;
      while i < |keys|
        invariant 0 <= i <= |keys|
        invariant Valid()
        invariant DeleteStale(Storage(), keys[i..]) == DeleteStale(start, keys)
        invariant effects == old(effects)
      {
        var key := keys[i];
        assert keys[i..][0] == key && keys[i..][1..] == keys[i + 1..];
        if !IsCurrentGeneration(key) {
          Delete(key);
        }
        i := i + 1;
      }
      ActivateWalk(start);
    }

    /** `fetch`: cache first; on a miss, fetch and store a copy in the dynamic cache. */
    method Fetch(req: Request, net: Network) returns (outcome: FetchOutcome)
      requires Valid()
      modifies this
      ensures Valid()
      ensures var step := FetchSpec(old(Storage()), req, net);
        Storage() == step.storage && effects == old(effects) + step.effects && outcome == step.outcome
    {
      if req.httpMethod != "GET" {
        return NotIntercepted;
      }
      var cached := MatchAll(Storage(), req.url);
      if cached.Some? {
        return Responded(cached.value);
      }
      effects := effects + [NetworkFetch(req.url)];
      if req.url !in net {
        return NetworkError;
      }
      var fetched := net[req.url];
      Open(DynamicCacheName);
      if PutAccepts(req.url, fetched) {
        caches := caches[DynamicCacheName := caches[DynamicCacheName][req.url := fetched]];
      }
      outcome := Responded(fetched);
    }

    method Push(data: PushData, now: int)
      requires Valid()
      modifies this
      ensures Valid() && Storage() == old(Storage())
      ensures effects == old(effects) + PushEffects(data, now)
    {
      effects := effects + PushEffects(data, now);
    }

    method NotificationClick(action: string)
      requires Valid()
      modifies this
      ensures Valid() && Storage() == old(Storage())
      ensures effects == old(effects) + ClickEffects(action)
    {
      effects := effects + ClickEffects(action);
    }

    /** The message handler as written. */
    method Message(data: Value)
      requires Valid()
      modifies this
      ensures Valid() && Storage() == old(Storage())
      ensures effects == old(effects) + MessageEffectsAsWritten(data)
    {
      effects := effects + MessageEffectsAsWritten(data);
    }

    /** The corrected message handler: the command's own options, and a reply on the port. */
    method MessageCorrected(data: Value)
      requires Valid()
      modifies this
      ensures Valid() && Storage() == old(Storage())
      ensures effects == old(effects) + MessageEffects(data)
    {
      effects := effects + MessageEffects(data);
    }

    method Sync(tag: string)
      requires Valid()
      modifies this
      ensures Valid() && Storage() == old(Storage())
      ensures effects == old(effects) + SyncEffects(tag)
    {
      effects := effects + SyncEffects(tag);
    }
  }
}
