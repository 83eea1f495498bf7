/** The caching service worker (sw.js): install pre-caching, activate
    clean-up, the cache-first fetch handler with its offline fallbacks, the
    cache-warming message and the notification click.

    Cache Storage is an ordered list of named buckets (creation order is the
    order `caches.match` searches); the network is a parameter. */
module ServiceWorker {
  import opened TextUtil

  const CACHE_NAME := "good-way-travels-v1.0.0"
  const STATIC_CACHE := "static-v1.0.0"
  const DYNAMIC_CACHE := "dynamic-v1.0.0"
  const OFFLINE_PAGE := "/offline.html"
  const SERVICES_PAGE := "/services.html"

  const CRITICAL_RESOURCES: seq<string> := [
    "/",
    "/index.html",
    "/css/critical.css",
    "/js/core.js",
    "/js/performance-optimizer.js",
    "/assets/Images/logo.webp",
    "https://cdn.jsdelivr.net/npm/bootstrap@5.3.3/dist/css/bootstrap.min.css",
    "https://cdnjs.cloudflare.com/ajax/libs/font-awesome/6.4.0/css/all.min.css"
  ]

  const STATIC_RESOURCES: seq<string> := [
    "/css/main.css",
    "/css/bootstrap-integration.css",
    "/css/about.css",
    "/css/contact.css",
    "/css/inquiry.css",
    "/css/services.css",
    "/js/main-optimized.js",
    "/js/about.js",
    "/js/contact.js",
    "/js/inquiry.js",
    "/js/services.js",
    "/about.html",
    "/contact.html",
    "/inquiry.html",
    "/services.html"
  ]

  /** The hosts whose resources are handled although they are cross-origin. */
  const CDN_HOSTS: seq<string> := ["cdn.jsdelivr.net", "cdnjs.cloudflare.com", "fonts.googleapis.com"]

  /** `Response.type`; a response built with `new Response` has type
      `default`. */
  datatype ResponseType = Basic | Cors | Default | Opaque | OpaqueRedirect | ErrorType

  datatype Response = Response(status: int, rtype: ResponseType, statusText: string,
                               contentType: string, body: string)

  /** A request: method, full URL (`href`), its origin, and its destination. */
  datatype Request = Request(verb: string, href: string, origin: string, destination: string)

  /** An absolute URL: one that `new URL(u, base)` keeps as it is. */
  predicate IsAbsolute(u: string) {
    StartsWith(u, "https://") || StartsWith(u, "http://")
  }

  /** `new URL(u, self.location).href` for the URLs the worker names: an
      absolute URL is kept, and a root-relative path such as "/index.html"
      is put after the worker's origin. This is the key under which
      `cache.addAll` stores a listed URL and under which `caches.match`
      looks up a relative one. */
  function Resolve(workerOrigin: string, u: string): (r: string)
    ensures IsAbsolute(u) ==> r == u
    ensures !IsAbsolute(u) ==> |r| == |workerOrigin| + |u| && StartsWith(r, workerOrigin) && r[|workerOrigin|..] == u
  {
    if IsAbsolute(u) then u else workerOrigin + u
  }

  /** Each URL of a list resolved. */
  function ResolveAll(workerOrigin: string, urls: seq<string>): (r: seq<string>)
    ensures |r| == |urls|
    ensures forall i :: 0 <= i < |urls| ==> r[i] == Resolve(workerOrigin, urls[i])
  {
    seq(|urls|, i requires 0 <= i < |urls| => Resolve(workerOrigin, urls[i]))
  }

  /** Two paths under the same origin resolve to the same key only when
      they are the same path, so the relative entries of a list never
      collide once resolved. */
  lemma ResolveInjective(workerOrigin: string, u: string, v: string)
    requires IsAbsolute(u) == IsAbsolute(v)
    requires Resolve(workerOrigin, u) == Resolve(workerOrigin, v)
    ensures u == v
  {
    if !IsAbsolute(u) {
      assert u == Resolve(workerOrigin, u)[|workerOrigin|..];
    }
  }

  /** What the network does with one request. */
  datatype NetResult = Delivered(response: Response) | NetworkError

  datatype Bucket = Bucket(name: string, entries: map<string, Response>)

  /** The synthetic reply for a non-document request while offline. */
  const OFFLINE_RESPONSE := Response(503, Default, "Service Unavailable", "text/plain", "Offline")

  // ---------------------------------------------------------------------
  // Cache Storage

  function Names(bs: seq<Bucket>): (ns: seq<string>)
    ensures |ns| == |bs|
    ensures forall i :: 0 <= i < |bs| ==> ns[i] == bs[i].name
  {
    if bs == [] then [] else [bs[0].name] + Names(bs[1..])
  }

  /** At most one bucket per name. */
  predicate DistinctNames(bs: seq<Bucket>) {
    forall i, j :: 0 <= i < j < |bs| ==> bs[i].name != bs[j].name
  }

  predicate HasBucket(bs: seq<Bucket>, name: string) {
    exists i :: 0 <= i < |bs| && bs[i].name == name
  }

  /** `caches.open(name)`: the bucket is created (last) when missing. */
  function Open(bs: seq<Bucket>, name: string): (r: seq<Bucket>)
    ensures DistinctNames(bs) ==> DistinctNames(r)
    ensures HasBucket(r, name)
    ensures HasBucket(bs, name) ==> r == bs
    ensures !HasBucket(bs, name) ==> r == bs + [Bucket(name, map[])]
  {
    if HasBucket(bs, name) then bs
    else
      var r := bs + [Bucket(name, map[])];
      assert r[|bs|].name == name;
      r
  }

  /** `cache.put(key, response)` on the bucket called `name`; other buckets
      and the order are unchanged. */
  function PutIn(bs: seq<Bucket>, name: string, key: string, resp: Response): (r: seq<Bucket>)
    ensures |r| == |bs| && Names(r) == Names(bs)
    ensures forall i :: 0 <= i < |bs| ==>
      r[i] == if bs[i].name == name then Bucket(name, bs[i].entries[key := resp]) else bs[i]
  {
    if bs == [] then []
    else
      var b := if bs[0].name == name then Bucket(name, bs[0].entries[key := resp]) else bs[0];
      [b] + PutIn(bs[1..], name, key, resp)
  }

  /** `caches.open(name).then(c => c.put(key, response))`. */
  function Put(bs: seq<Bucket>, name: string, key: string, resp: Response): seq<Bucket> {
    PutIn(Open(bs, name), name, key, resp)
  }

  /** `caches.delete(name)`. */
  function Delete(bs: seq<Bucket>, name: string): (r: seq<Bucket>)
    ensures |r| <= |bs|
  {
    if bs == [] then []
    else if bs[0].name == name then Delete(bs[1..], name)
    else [bs[0]] + Delete(bs[1..], name)
  }

  /** `caches.match(key)`: the entry of the first bucket, in creation order,
      that holds the key. */
  function Match(bs: seq<Bucket>, key: string): (r: Option<Response>)
    ensures r.None? <==> forall i :: 0 <= i < |bs| ==> key !in bs[i].entries
    ensures r.Some? ==>
      exists i :: 0 <= i < |bs| && key in bs[i].entries && bs[i].entries[key] == r.value &&
                  forall j :: 0 <= j < i ==> key !in bs[j].entries
  {
    if bs == [] then None
    else if key in bs[0].entries then Some(bs[0].entries[key])
    else
      var r := Match(bs[1..], key);
      assert forall i :: 1 <= i < |bs| ==> bs[i] == bs[1..][i - 1];
      if r.Some? then
        var i' :| 0 <= i' < |bs[1..]| && key in bs[1..][i'].entries && bs[1..][i'].entries[key] == r.value &&
          forall j :: 0 <= j < i' ==> key !in bs[1..][j].entries;
        assert key in bs[i' + 1].entries && bs[i' + 1].entries[key] == r.value;
        assert forall j :: 0 <= j < i' + 1 ==> key !in bs[j].entries;
        r
      else r
  }

  /** An ok status as `cache.addAll` requires it (200-299, not 206). */
  predicate AddAllAccepts(n: NetResult) {
    n.Delivered? && 200 <= n.response.status <= 299 && n.response.status != 206
      && n.response.rtype != ErrorType
  }

  predicate AllAccepted(urls: seq<string>, net: string -> NetResult) {
    forall i :: 0 <= i < |urls| ==> AddAllAccepts(net(urls[i]))
  }

  function PutAll(bs: seq<Bucket>, name: string, urls: seq<string>, net: string -> NetResult): (r: seq<Bucket>)
    requires AllAccepted(urls, net)
    ensures Names(r) == Names(bs)
    decreases |urls|
  {
    if urls == [] then bs
    else PutAll(PutIn(bs, name, urls[0], net(urls[0]).response), name, urls[1..], net)
  }

  /** `cache.addAll(urls)` on the bucket `name`: all requests are fetched; if
      any is refused nothing is stored (None: the promise rejects). */
  function AddAll(bs: seq<Bucket>, name: string, urls: seq<string>, net: string -> NetResult): Option<seq<Bucket>> {
    if AllAccepted(urls, net) then Some(PutAll(bs, name, urls, net)) else None
  }

  /** After a successful addAll, the named bucket holds every listed URL
      with the response the network gave for it; other buckets are as before. */
  lemma {:induction false} PutAllStores(bs: seq<Bucket>, name: string, urls: seq<string>,
                                        net: string -> NetResult, i: nat)
    requires AllAccepted(urls, net)
    requires i < |bs|
    ensures var r := PutAll(bs, name, urls, net);
      i < |r| && r[i].name == bs[i].name &&
      (bs[i].name != name ==> r[i] == bs[i]) &&
      (bs[i].name == name ==>
        (forall u :: u in urls ==> u in r[i].entries && r[i].entries[u] == net(u).response) &&
        (forall k :: k in bs[i].entries && k !in urls ==> k in r[i].entries && r[i].entries[k] == bs[i].entries[k]) &&
        r[i].entries.Keys == bs[i].entries.Keys + set u | u in urls)
    decreases |urls|
  {
    if urls != [] {
      var bs1 := PutIn(bs, name, urls[0], net(urls[0]).response);
      assert AllAccepted(urls[1..], net) by {
        forall j | 0 <= j < |urls[1..]| ensures AddAllAccepts(net(urls[1..][j])) {
          assert urls[1..][j] == urls[j + 1];
        }
      }
      PutAllStores(bs1, name, urls[1..], net, i);
      assert forall u :: u in urls <==> u == urls[0] || u in urls[1..];
    }
  }

  // ---------------------------------------------------------------------
  // Activate

  predicate IsCurrent(name: string) {
    name == STATIC_CACHE || name == DYNAMIC_CACHE
  }

  /** The buckets activate keeps: every bucket whose name is the static or the
      dynamic name, in their order. */
  function Prune(bs: seq<Bucket>): (r: seq<Bucket>)
    ensures |r| <= |bs|
  {
    if bs == [] then []
    else if IsCurrent(bs[0].name) then [bs[0]] + Prune(bs[1..])
    else Prune(bs[1..])
  }

  /** The buckets activate keeps are exactly the current ones. */
  lemma {:induction false} PruneMembers(bs: seq<Bucket>)
    ensures forall b :: b in Prune(bs) <==> b in bs && IsCurrent(b.name)
  {
    if bs != [] {
      PruneMembers(bs[1..]);
      assert forall b :: b in bs <==> b == bs[0] || b in bs[1..];
    }
  }

  /** Pruning keeps the order of what it keeps, so names stay distinct. */
  lemma {:induction false} PruneDistinct(bs: seq<Bucket>)
    requires DistinctNames(bs)
    ensures DistinctNames(Prune(bs))
  {
    if bs != [] {
      PruneDistinct(bs[1..]);
      PruneMembers(bs[1..]);
      if IsCurrent(bs[0].name) {
        var r := [bs[0]] + Prune(bs[1..]);
        forall j | 0 < j < |r| ensures r[0].name != r[j].name {
          assert r[j] in Prune(bs[1..]);
          var k :| 0 <= k < |bs[1..]| && bs[1..][k] == r[j];
          assert bs[k + 1] == r[j];
        }
      }
    }
  }

  lemma {:induction false} PruneAppend(a: seq<Bucket>, b: seq<Bucket>)
    ensures Prune(a + b) == Prune(a) + Prune(b)
  {
    if a == [] {
      assert a + b == b;
    } else {
      assert (a + b)[1..] == a[1..] + b;
      PruneAppend(a[1..], b);
    }
  }

  /** `caches.delete(name)` removes exactly the buckets of that name. */
  lemma {:induction false} DeleteMembers(bs: seq<Bucket>, name: string)
    ensures forall b :: b in Delete(bs, name) <==> b in bs && b.name != name
  {
    if bs != [] {
      DeleteMembers(bs[1..], name);
      assert forall b :: b in bs <==> b == bs[0] || b in bs[1..];
    }
  }

  lemma {:induction false} DeleteAbsent(bs: seq<Bucket>, name: string)
    requires forall b :: b in bs ==> b.name != name
    ensures Delete(bs, name) == bs
  {
    if bs != [] {
      DeleteAbsent(bs[1..], name);
    }
  }

  lemma {:induction false} DeleteAppend(a: seq<Bucket>, b: seq<Bucket>, name: string)
    ensures Delete(a + b, name) == Delete(a, name) + Delete(b, name)
  {
    if a == [] {
      assert a + b == b;
    } else {
      assert (a + b)[1..] == a[1..] + b;
      DeleteAppend(a[1..], b, name);
    }
  }

  /** After activate only the two current buckets can remain: the old
      `CACHE_NAME` bucket and every other stale one are gone, and the current
      buckets keep their contents. */
  lemma ActivateKeepsOnlyCurrent(bs: seq<Bucket>)
    ensures forall b :: b in Prune(bs) ==> b.name == STATIC_CACHE || b.name == DYNAMIC_CACHE
    ensures !HasBucket(Prune(bs), CACHE_NAME)
    ensures forall b :: b in bs && b.name == STATIC_CACHE ==> b in Prune(bs)
    ensures forall b :: b in bs && b.name == DYNAMIC_CACHE ==> b in Prune(bs)
  {
    PruneMembers(bs);
    forall i | 0 <= i < |Prune(bs)| ensures Prune(bs)[i].name != CACHE_NAME {
      assert Prune(bs)[i] in Prune(bs);
    }
  }

  // ---------------------------------------------------------------------
  // Fetch

  /** The fetch handler's filter: only GET requests, and only same-origin
      ones or those whose URL names one of the CDN hosts, are handled. */
  predicate Intercepts(req: Request, workerOrigin: string) {
    req.verb == "GET" &&
    (Contains(req.origin, workerOrigin) ||
     Contains(req.href, CDN_HOSTS[0]) || Contains(req.href, CDN_HOSTS[1]) || Contains(req.href, CDN_HOSTS[2]))
  }

  datatype Source = CacheHit | NetworkStored | NetworkUnstored | OfflinePage | Unavailable

  /** The handler either leaves the request to the browser or answers it;
      `response == None` is an offline page missing from the caches. */
  datatype FetchOutcome = NotIntercepted | Respond(response: Option<Response>, source: Source)

  /** The network answer is stored only when it is a basic 200 response. */
  predicate Cacheable(resp: Response) {
    resp.status == 200 && resp.rtype == Basic
  }

  function HandleFetchOutcome(bs: seq<Bucket>, req: Request, workerOrigin: string, net: NetResult): FetchOutcome {
    if !Intercepts(req, workerOrigin) then NotIntercepted
    else match Match(bs, req.href)
      case Some(cached) => Respond(Some(cached), CacheHit)
      case None =>
        match net
        case Delivered(resp) =>
          if Cacheable(resp) then Respond(Some(resp), NetworkStored) else Respond(Some(resp), NetworkUnstored)
        case NetworkError =>
          if req.destination == "document" then Respond(Match(bs, Resolve(workerOrigin, OFFLINE_PAGE)), OfflinePage)
          else Respond(Some(OFFLINE_RESPONSE), Unavailable)
  }

  /** A non-GET request is never answered by the worker. */
  lemma NonGetNotIntercepted(bs: seq<Bucket>, req: Request, workerOrigin: string, net: NetResult)
    requires req.verb != "GET"
    ensures HandleFetchOutcome(bs, req, workerOrigin, net) == NotIntercepted
  {
  }

  /** A GET request is handled exactly when its origin contains the worker's
      origin or its URL names a CDN host. */
  lemma InterceptIff(bs: seq<Bucket>, req: Request, workerOrigin: string, net: NetResult)
    requires req.verb == "GET"
    ensures HandleFetchOutcome(bs, req, workerOrigin, net).Respond? <==>
      (exists i :: OccursAt(req.origin, workerOrigin, i)) ||
      (exists h, i :: h in CDN_HOSTS && OccursAt(req.href, h, i))
  {
    assert forall h :: h in CDN_HOSTS <==> h == CDN_HOSTS[0] || h == CDN_HOSTS[1] || h == CDN_HOSTS[2];
    ContainsIffOccurs(req.origin, workerOrigin);
    ContainsIffOccurs(req.href, CDN_HOSTS[0]);
    ContainsIffOccurs(req.href, CDN_HOSTS[1]);
    ContainsIffOccurs(req.href, CDN_HOSTS[2]);
  }

  /** Cache first: on a hit the stored response is returned and the network
      is not consulted (its answer cannot change the outcome). */
  lemma CacheFirst(bs: seq<Bucket>, req: Request, workerOrigin: string, net1: NetResult, net2: NetResult)
    requires Intercepts(req, workerOrigin)
    requires Match(bs, req.href).Some?
    ensures HandleFetchOutcome(bs, req, workerOrigin, net1) == Respond(Match(bs, req.href), CacheHit)
    ensures HandleFetchOutcome(bs, req, workerOrigin, net1) == HandleFetchOutcome(bs, req, workerOrigin, net2)
  {
  }

  /** On a miss, the network response is returned, and stored only when it is
      a basic 200 response. */
  lemma MissStoresOnlyBasicOk(bs: seq<Bucket>, req: Request, workerOrigin: string, resp: Response)
    requires Intercepts(req, workerOrigin)
    requires Match(bs, req.href).None?
    ensures var o := HandleFetchOutcome(bs, req, workerOrigin, Delivered(resp));
      o.Respond? && o.response == Some(resp) &&
      (o.source == NetworkStored <==> resp.status == 200 && resp.rtype == Basic)
  {
  }

  /** When the network fails on a miss, a document gets the offline page
      cached under the worker's own "/offline.html" URL (None when no bucket
      holds it) and anything else the synthetic 503 "Offline" text
      response. */
  lemma NetworkFailureFallback(bs: seq<Bucket>, req: Request, workerOrigin: string)
    requires Intercepts(req, workerOrigin)
    requires Match(bs, req.href).None?
    ensures var o := HandleFetchOutcome(bs, req, workerOrigin, NetworkError);
      (req.destination == "document" ==> o == Respond(Match(bs, Resolve(workerOrigin, OFFLINE_PAGE)), OfflinePage)) &&
      (req.destination != "document" ==>
        o.Respond? && o.response.Some? && o.response.value.status == 503 &&
        o.response.value.contentType == "text/plain" && o.response.value.body == "Offline")
  {
  }

  /** The cache effect of one handled fetch: only a stored network answer
      changes Cache Storage, and only the dynamic bucket. */
  function AfterFetch(bs: seq<Bucket>, req: Request, o: FetchOutcome): seq<Bucket> {
    if o.Respond? && o.source == NetworkStored && o.response.Some?
    then Put(bs, DYNAMIC_CACHE, req.href, o.response.value)
    else bs
  }

  /** Putting a key that no bucket holds into an existing bucket makes the
      next lookup of that key return the stored response. */
  lemma {:induction false} MatchAfterFreshPut(bs: seq<Bucket>, name: string, key: string, resp: Response)
    requires HasBucket(bs, name)
    requires forall i :: 0 <= i < |bs| ==> key !in bs[i].entries
    ensures Match(PutIn(bs, name, key, resp), key) == Some(resp)
  {
    var r := PutIn(bs, name, key, resp);
    if bs[0].name == name {
      assert r[0] == Bucket(name, bs[0].entries[key := resp]);
    } else {
      var tail := bs[1..];
      var j :| 0 <= j < |bs| && bs[j].name == name;
      assert tail[j - 1].name == name;
      forall i | 0 <= i < |tail| ensures key !in tail[i].entries {
        assert tail[i] == bs[i + 1];
      }
      MatchAfterFreshPut(tail, name, key, resp);
      assert r == [bs[0]] + PutIn(tail, name, key, resp);
      assert r[1..] == PutIn(tail, name, key, resp);
    }
  }

  /** A stored network answer is found by the next lookup of the same URL. */
  lemma StoredResponseIsMatched(bs: seq<Bucket>, req: Request, workerOrigin: string, resp: Response)
    requires Intercepts(req, workerOrigin)
    requires Match(bs, req.href).None?
    requires Cacheable(resp)
    ensures var o := HandleFetchOutcome(bs, req, workerOrigin, Delivered(resp));
      Match(AfterFetch(bs, req, o), req.href) == Some(resp)
  {
    var ready := Open(bs, DYNAMIC_CACHE);
    assert forall i :: 0 <= i < |ready| ==> req.href !in ready[i].entries;
    MatchAfterFreshPut(ready, DYNAMIC_CACHE, req.href, resp);
  }

  /** Once the offline page itself has been fetched with a basic 200
      response, the handler has stored it, and a later document request
      that misses with the network down is answered with it. */
  lemma StoredOfflinePageIsServed(bs: seq<Bucket>, page: Request, req: Request, workerOrigin: string, resp: Response)
    requires Intercepts(page, workerOrigin) && page.href == Resolve(workerOrigin, OFFLINE_PAGE)
    requires Match(bs, page.href).None? && Cacheable(resp)
    requires Intercepts(req, workerOrigin) && req.destination == "document"
    requires Match(AfterFetch(bs, page, HandleFetchOutcome(bs, page, workerOrigin, Delivered(resp))), req.href).None?
    ensures var after := AfterFetch(bs, page, HandleFetchOutcome(bs, page, workerOrigin, Delivered(resp)));
      HandleFetchOutcome(after, req, workerOrigin, NetworkError) == Respond(Some(resp), OfflinePage)
  {
    StoredResponseIsMatched(bs, page, workerOrigin, resp);
  }

  // ---------------------------------------------------------------------
  // Notification click

  datatype ClickEffect = ClickEffect(closed: bool, openWindow: Option<string>)

  function NotificationClick(action: string): (e: ClickEffect)
    ensures e.closed
    ensures e.openWindow.Some? <==> action == "explore"
    ensures e.openWindow.Some? ==> e.openWindow.value == SERVICES_PAGE
  {
    ClickEffect(true, if action == "explore" then Some(SERVICES_PAGE) else None)
  }

  // ---------------------------------------------------------------------
  // The worker's persistent state

  class Worker {
    var caches: seq<Bucket>
    var skipWaitingCalled: bool
    var clientsClaimed: bool

    ghost predicate Valid()
      reads this
    {
      DistinctNames(caches)
    }

    constructor (stored: seq<Bucket>)
      requires DistinctNames(stored)
      ensures Valid() && caches == stored && !skipWaitingCalled && !clientsClaimed
    {
      caches := stored;
      skipWaitingCalled := false;
      clientsClaimed := false;
    }

    /** Install: open the static bucket, addAll the critical list (each
        URL resolved against the worker's location), and call skipWaiting
        only when that succeeded; a failure is caught. */
    method Install(workerOrigin: string, net: string -> NetResult)
      requires Valid()
      modifies this
      ensures Valid() && clientsClaimed == old(clientsClaimed)
      ensures var ready := Open(old(caches), STATIC_CACHE);
        match AddAll(ready, STATIC_CACHE, ResolveAll(workerOrigin, CRITICAL_RESOURCES), net)
        case Some(filled) => caches == filled && skipWaitingCalled
        case None => caches == ready && skipWaitingCalled == old(skipWaitingCalled)
    {
      Precache(STATIC_CACHE, ResolveAll(workerOrigin, CRITICAL_RESOURCES), net);
    }

    /** Open the bucket `name` and add all of `urls` to it; skipWaiting
        follows only a successful addAll. */
    method Precache(name: string, urls: seq<string>, net: string -> NetResult)
      requires Valid()
      modifies this
      ensures Valid() && clientsClaimed == old(clientsClaimed)
      ensures var ready := Open(old(caches), name);
        match AddAll(ready, name, urls, net)
        case Some(filled) => caches == filled && skipWaitingCalled
        case None => caches == ready && skipWaitingCalled == old(skipWaitingCalled)
    {
      caches := Open(caches, name);
      match AddAll(caches, name, urls, net)
      case Some(filled) =>
        DistinctNamesByNames(caches, filled);
        caches := filled;
        skipWaitingCalled := true;
      case None =>
    }

    /** Activate: delete every bucket whose name is neither current name,
        then claim the clients. */
    method Activate()
      requires Valid()
      modifies this
      ensures Valid() && caches == Prune(old(caches)) && clientsClaimed
      ensures skipWaitingCalled == old(skipWaitingCalled)
    {
      var names := Names(caches);
      ghost var original := caches;
      var i := 0;
      while i < |names|
        invariant 0 <= i <= |names|
        invariant caches == Prune(original[..i]) + original[i..]
        invariant skipWaitingCalled == old(skipWaitingCalled)
        decreases |names| - i
      {
        ActivateStep(original, i);
        assert names[i] == original[i].name;
        if !IsCurrent(names[i]) {
          caches := Delete(caches, names[i]);
        }
        i := i + 1;
      }
      assert original[..|names|] == original;
      PruneDistinct(original);
      clientsClaimed := true;
    }

    /** The fetch handler: the response it gives, and its one cache write. */
    method HandleFetch(req: Request, workerOrigin: string, net: NetResult) returns (o: FetchOutcome)
      requires Valid()
      modifies this
      ensures Valid()
      ensures o == HandleFetchOutcome(old(caches), req, workerOrigin, net)
      ensures caches == AfterFetch(old(caches), req, o)
      ensures skipWaitingCalled == old(skipWaitingCalled) && clientsClaimed == old(clientsClaimed)
    {
      o := HandleFetchOutcome(caches, req, workerOrigin, net);
      if o.Respond? && o.source == NetworkStored && o.response.Some? {
        var ready := Open(caches, DYNAMIC_CACHE);
        DistinctNamesByNames(ready, PutIn(ready, DYNAMIC_CACHE, req.href, o.response.value));
        caches := Put(caches, DYNAMIC_CACHE, req.href, o.response.value);
      }
    }

    /** The cache-warming message: `CACHE_STATIC_RESOURCES` adds the static
        list, resolved against the worker's location, to the static bucket;
        other messages are ignored, failures caught. */
    method OnMessage(messageType: Option<string>, workerOrigin: string, net: string -> NetResult)
      requires Valid()
      modifies this
      ensures Valid()
      ensures skipWaitingCalled == old(skipWaitingCalled) && clientsClaimed == old(clientsClaimed)
      ensures messageType != Some("CACHE_STATIC_RESOURCES") ==> caches == old(caches)
      ensures messageType == Some("CACHE_STATIC_RESOURCES") ==>
        var ready := Open(old(caches), STATIC_CACHE);
        caches == match AddAll(ready, STATIC_CACHE, ResolveAll(workerOrigin, STATIC_RESOURCES), net)
                  case Some(filled) => filled
                  case None => ready
    {
      if messageType == Some("CACHE_STATIC_RESOURCES") {
        caches := Open(caches, STATIC_CACHE);
        match AddAll(caches, STATIC_CACHE, ResolveAll(workerOrigin, STATIC_RESOURCES), net)
        case Some(filled) =>
          DistinctNamesByNames(caches, filled);
          caches := filled;
        case None =>
      }
    }
  }

  /** One round of activate's loop: deleting the i-th name when it is stale
      turns "pruned prefix, untouched rest" into the same shape one further. */
  lemma ActivateStep(original: seq<Bucket>, i: nat)
    requires DistinctNames(original) && i < |original|
    ensures var before := Prune(original[..i]) + original[i..];
      (if IsCurrent(original[i].name) then before else Delete(before, original[i].name))
      == Prune(original[..i + 1]) + original[i + 1..]
  {
    var x, kept, rest := original[i], Prune(original[..i]), original[i + 1..];
    assert original[..i + 1] == original[..i] + [x];
    assert original[i..] == [x] + rest;
    PruneAppend(original[..i], [x]);
    assert [x][1..] == [];
    if IsCurrent(x.name) {
      assert Prune([x]) == [x];
      assert kept + ([x] + rest) == (kept + [x]) + rest;
    } else {
      assert Prune([x]) == [];
      NameAbsentBefore(original, i);
      NameAbsentAfter(original, i);
      StaleStep(kept, x, rest);
    }
  }

  /** Deleting a name held by one bucket only removes that bucket. */
  lemma StaleStep(kept: seq<Bucket>, x: Bucket, rest: seq<Bucket>)
    requires forall b :: b in kept ==> b.name != x.name
    requires forall b :: b in rest ==> b.name != x.name
    ensures Delete(kept + ([x] + rest), x.name) == kept + rest
  {
    DeleteAppend(kept, [x] + rest, x.name);
    DeleteAppend([x], rest, x.name);
    DeleteAbsent(kept, x.name);
    DeleteAbsent(rest, x.name);
    assert [x][1..] == [];
    assert Delete([x], x.name) == [];
  }

  /** With distinct names, no bucket kept from before position i has the
      i-th name. */
  lemma NameAbsentBefore(original: seq<Bucket>, i: nat)
    requires DistinctNames(original) && i < |original|
    ensures forall b :: b in Prune(original[..i]) ==> b.name != original[i].name
  {
    PruneMembers(original[..i]);
    forall b | b in Prune(original[..i]) ensures b.name != original[i].name {
      var k :| 0 <= k < i && original[..i][k] == b;
      assert original[k] == b;
    }
  }

  /** With distinct names, no bucket after position i has the i-th name. */
  lemma NameAbsentAfter(original: seq<Bucket>, i: nat)
    requires DistinctNames(original) && i < |original|
    ensures forall b :: b in original[i + 1..] ==> b.name != original[i].name
  {
    forall b | b in original[i + 1..] ensures b.name != original[i].name {
      var k :| 0 <= k < |original[i + 1..]| && original[i + 1..][k] == b;
      assert b == original[i + 1 + k];
    }
  }

  /** Distinctness depends on the names only. */
  lemma DistinctNamesByNames(a: seq<Bucket>, b: seq<Bucket>)
    requires DistinctNames(a) && Names(a) == Names(b)
    ensures DistinctNames(b)
  {
    forall i, j | 0 <= i < j < |b| ensures b[i].name != b[j].name {
      assert Names(a)[i] == a[i].name && Names(a)[j] == a[j].name;
    }
  }

  /** After a successful install, every critical resource is answered from
      the caches under its resolved URL, and the static bucket holds the
      network's response for it. (An older bucket holding the same URL
      answers first.) */
  lemma InstallCachesCritical(bs: seq<Bucket>, workerOrigin: string, net: string -> NetResult, u: string)
    requires DistinctNames(bs)
    requires AllAccepted(ResolveAll(workerOrigin, CRITICAL_RESOURCES), net)
    requires u in CRITICAL_RESOURCES
    ensures var ready := Open(bs, STATIC_CACHE);
      var key := Resolve(workerOrigin, u);
      AddAll(ready, STATIC_CACHE, ResolveAll(workerOrigin, CRITICAL_RESOURCES), net).Some? &&
      Match(AddAll(ready, STATIC_CACHE, ResolveAll(workerOrigin, CRITICAL_RESOURCES), net).value, key).Some? &&
      exists j :: 0 <= j < |ready| && AddAll(ready, STATIC_CACHE, ResolveAll(workerOrigin, CRITICAL_RESOURCES), net).value[j].name == STATIC_CACHE &&
        key in AddAll(ready, STATIC_CACHE, ResolveAll(workerOrigin, CRITICAL_RESOURCES), net).value[j].entries &&
        AddAll(ready, STATIC_CACHE, ResolveAll(workerOrigin, CRITICAL_RESOURCES), net).value[j].entries[key] == net(key).response
  {
    var ready := Open(bs, STATIC_CACHE);
    var urls := ResolveAll(workerOrigin, CRITICAL_RESOURCES);
    var key := Resolve(workerOrigin, u);
    var j :| 0 <= j < |ready| && ready[j].name == STATIC_CACHE;
    PutAllStores(ready, STATIC_CACHE, urls, net, j);
    var r := PutAll(ready, STATIC_CACHE, urls, net);
    var k :| 0 <= k < |CRITICAL_RESOURCES| && CRITICAL_RESOURCES[k] == u;
    assert urls[k] == key;
    assert key in r[j].entries;
  }

  /** After a successful install, a handled request for a critical
      resource is a cache hit whatever the network does, so it is served
      with the network down. */
  lemma InstalledServedOffline(bs: seq<Bucket>, workerOrigin: string, net: string -> NetResult, u: string, req: Request)
    requires DistinctNames(bs)
    requires AllAccepted(ResolveAll(workerOrigin, CRITICAL_RESOURCES), net)
    requires u in CRITICAL_RESOURCES
    requires Intercepts(req, workerOrigin) && req.href == Resolve(workerOrigin, u)
    ensures var filled := AddAll(Open(bs, STATIC_CACHE), STATIC_CACHE, ResolveAll(workerOrigin, CRITICAL_RESOURCES), net);
      filled.Some? && Match(filled.value, req.href).Some? &&
      HandleFetchOutcome(filled.value, req, workerOrigin, NetworkError) == Respond(Match(filled.value, req.href), CacheHit)
  {
    InstallCachesCritical(bs, workerOrigin, net, u);
  }

  /** The case of a page visit: after installing into empty storage, a
      same-origin GET of the index page is answered from the cache while
      offline. */
  lemma IndexServedOfflineAfterInstall(workerOrigin: string, net: string -> NetResult)
    requires AllAccepted(ResolveAll(workerOrigin, CRITICAL_RESOURCES), net)
    ensures var req := Request("GET", workerOrigin + "/index.html", workerOrigin, "document");
      var filled := AddAll(Open([], STATIC_CACHE), STATIC_CACHE, ResolveAll(workerOrigin, CRITICAL_RESOURCES), net);
      filled.Some? &&
      HandleFetchOutcome(filled.value, req, workerOrigin, NetworkError).Respond? &&
      HandleFetchOutcome(filled.value, req, workerOrigin, NetworkError).source == CacheHit &&
      HandleFetchOutcome(filled.value, req, workerOrigin, NetworkError).response.Some?
  {
    var req := Request("GET", workerOrigin + "/index.html", workerOrigin, "document");
    assert StartsWith(workerOrigin, workerOrigin);
    assert !IsAbsolute("/index.html") by {
      assert "/index.html"[..8][0] == '/' && "/index.html"[..7][0] == '/';
    }
    assert CRITICAL_RESOURCES[1] == "/index.html";
    InstalledServedOffline([], workerOrigin, net, "/index.html", req);
  }
}
