/** The client-side priority load queue: `loadResource` enqueues a script,
    stylesheet or image and re-sorts the queue by priority; `processLoadQueue`
    drains it front first under a single-processor flag, settling every entry
    once and recording the outcome in the page's performance metrics. */
module LoadQueue {
  import opened TextUtil

  datatype Priority = High | Normal | Low

  /** The comparator's table: `{ high: 3, normal: 2, low: 1 }`. */
  function Rank(p: Priority): (n: int)
    ensures 1 <= n <= 3
    ensures p == High <==> n == 3
    ensures p == Low <==> n == 1
  {
    match p
    case High => 3
    case Normal => 2
    case Low => 1
  }

  /** One queued request. `id` is the order of the `loadResource` call that
      created it and stands for the entry's own resolve/reject pair. */
  datatype Resource = Resource(id: nat, url: string, kind: string, priority: Priority)

  /** Non-increasing priority from front to back. */
  predicate Sorted(q: seq<Resource>) {
    forall i, j :: 0 <= i < j < |q| ==> Rank(q[i].priority) >= Rank(q[j].priority)
  }

  /** The entries of priority `p`, in queue order. */
  function Filter(q: seq<Resource>, p: Priority): (r: seq<Resource>)
    ensures |r| <= |q|
    ensures forall i :: 0 <= i < |r| ==> r[i].priority == p
  {
    if q == [] then []
    else if q[0].priority == p then [q[0]] + Filter(q[1..], p)
    else Filter(q[1..], p)
  }

  /** `loadQueue.sort(byPriority)`: `Array.prototype.sort` is stable, so the
      result is the high entries, then the normal, then the low, each group
      in its original order. */
  function SortByPriority(q: seq<Resource>): seq<Resource> {
    Filter(q, High) + Filter(q, Normal) + Filter(q, Low)
  }

  lemma {:induction false} FilterAppend(a: seq<Resource>, b: seq<Resource>, p: Priority)
    ensures Filter(a + b, p) == Filter(a, p) + Filter(b, p)
  {
    if a == [] {
      assert a + b == b;
    } else {
      assert (a + b)[1..] == a[1..] + b;
      FilterAppend(a[1..], b, p);
    }
  }

  /** A sequence whose entries all have priority p is its own p-filter and
      has nothing of another priority. */
  lemma {:induction false} FilterUniform(q: seq<Resource>, p: Priority, p': Priority)
    requires forall i :: 0 <= i < |q| ==> q[i].priority == p
    ensures Filter(q, p) == q
    ensures p' != p ==> Filter(q, p') == []
  {
    if q != [] {
      FilterUniform(q[1..], p, p');
    }
  }

  /** Filtering loses no entry: the three groups together are a permutation
      of the queue. */
  lemma {:induction false} FilterPartition(q: seq<Resource>)
    ensures Groups(q) == multiset(q)
  {
    if q != [] {
      var x, u := q[0], q[1..];
      FilterPartition(u);
      assert q == [x] + u;
      GroupsCons(x, u);
    }
  }

  /** The entries of the three priority groups together. */
  ghost function Groups(q: seq<Resource>): multiset<Resource> {
    multiset(Filter(q, High)) + multiset(Filter(q, Normal)) + multiset(Filter(q, Low))
  }

  lemma GroupsCons(x: Resource, u: seq<Resource>)
    ensures Groups([x] + u) == multiset{x} + Groups(u)
  {
    var h', n', l' := multiset(Filter(u, High)), multiset(Filter(u, Normal)), multiset(Filter(u, Low));
    FilterConsKept(x, u);
    assert multiset([x] + Filter(u, x.priority)) == multiset{x} + multiset(Filter(u, x.priority));
    match x.priority
    case High =>
      FilterConsDropped(x, u, Normal);
      FilterConsDropped(x, u, Low);
      AddToGroup(multiset{x}, h', n', l');
    case Normal =>
      FilterConsDropped(x, u, High);
      FilterConsDropped(x, u, Low);
      AddToGroup(multiset{x}, h', n', l');
    case Low =>
      FilterConsDropped(x, u, High);
      FilterConsDropped(x, u, Normal);
      AddToGroup(multiset{x}, h', n', l');
  }

  lemma AddToGroup<T>(m: multiset<T>, a: multiset<T>, b: multiset<T>, c: multiset<T>)
    ensures (m + a) + b + c == m + (a + b + c)
    ensures a + (m + b) + c == m + (a + b + c)
    ensures a + b + (m + c) == m + (a + b + c)
  {
  }

  /** The sort neither adds nor drops an entry. */
  lemma SortIsPermutation(q: seq<Resource>)
    ensures multiset(SortByPriority(q)) == multiset(q)
  {
    FilterPartition(q);
  }

  /** The sort orders the queue by non-increasing priority. */
  lemma SortIsSorted(q: seq<Resource>)
    ensures Sorted(SortByPriority(q))
  {
    var h, n, l := Filter(q, High), Filter(q, Normal), Filter(q, Low);
    var r := h + n + l;
    forall i, j | 0 <= i < j < |r| ensures Rank(r[i].priority) >= Rank(r[j].priority) {
      if i < |h| {
        assert r[i] == h[i];
      } else if i < |h| + |n| {
        assert r[i] == n[i - |h|];
        assert j >= |h|;
        if j < |h| + |n| { assert r[j] == n[j - |h|]; } else { assert r[j] == l[j - |h| - |n|]; }
      } else {
        assert r[i] == l[i - |h| - |n|] && r[j] == l[j - |h| - |n|];
      }
    }
  }

  /** Stability: within each priority the sorted queue keeps the order of
      the unsorted one. */
  lemma SortIsStable(q: seq<Resource>, p: Priority)
    ensures Filter(SortByPriority(q), p) == Filter(q, p)
  {
    var h, n, l := Filter(q, High), Filter(q, Normal), Filter(q, Low);
    FilterAppend(h + n, l, p);
    FilterAppend(h, n, p);
    FilterUniform(h, High, p);
    FilterUniform(n, Normal, p);
    FilterUniform(l, Low, p);
  }

  /** A sorted queue is already grouped by priority. */
  lemma {:induction false} SortedIsGrouped(q: seq<Resource>)
    requires Sorted(q)
    ensures q == SortByPriority(q)
  {
    if q != [] {
      var x, u := q[0], q[1..];
      SortedTail(q);
      SortedIsGrouped(u);
      assert q == [x] + u;
      match x.priority
      case High => GroupedHead(x, u);
      case Normal =>
        FilterNone(u, High);
        GroupedHead(x, u);
      case Low =>
        FilterNone(u, High);
        FilterNone(u, Normal);
        GroupedHead(x, u);
    }
  }

  /** The tail of a sorted queue is sorted and ranks no higher than its
      head. */
  lemma SortedTail(q: seq<Resource>)
    requires Sorted(q) && q != []
    ensures Sorted(q[1..])
    ensures forall i :: 0 <= i < |q[1..]| ==> Rank(q[0].priority) >= Rank(q[1..][i].priority)
  {
    var u := q[1..];
    forall i, j | 0 <= i < j < |u| ensures Rank(u[i].priority) >= Rank(u[j].priority) {
      assert u[i] == q[i + 1] && u[j] == q[j + 1];
    }
    forall i | 0 <= i < |u| ensures Rank(q[0].priority) >= Rank(u[i].priority) {
      assert u[i] == q[i + 1];
    }
  }

  /** Putting a head whose group is the first non-empty one in front of a
      queue puts it in front of the sorted queue. */
  lemma GroupedHead(x: Resource, u: seq<Resource>)
    requires x.priority != High ==> Filter(u, High) == []
    requires x.priority == Low ==> Filter(u, Normal) == []
    ensures SortByPriority([x] + u) == [x] + SortByPriority(u)
  {
    match x.priority
    case High => HighHead(x, u);
    case Normal => NormalHead(x, u);
    case Low => LowHead(x, u);
  }

  lemma HighHead(x: Resource, u: seq<Resource>)
    requires x.priority == High
    ensures SortByPriority([x] + u) == [x] + SortByPriority(u)
  {
    var h', n', l' := Filter(u, High), Filter(u, Normal), Filter(u, Low);
    FilterConsKept(x, u);
    FilterConsDropped(x, u, Normal);
    FilterConsDropped(x, u, Low);
    Regroup([x], h', n', l');
  }

  lemma NormalHead(x: Resource, u: seq<Resource>)
    requires x.priority == Normal && Filter(u, High) == []
    ensures SortByPriority([x] + u) == [x] + SortByPriority(u)
  {
    var n', l' := Filter(u, Normal), Filter(u, Low);
    FilterConsDropped(x, u, High);
    FilterConsKept(x, u);
    FilterConsDropped(x, u, Low);
    Regroup([x], [], n', l');
  }

  lemma LowHead(x: Resource, u: seq<Resource>)
    requires x.priority == Low && Filter(u, High) == [] && Filter(u, Normal) == []
    ensures SortByPriority([x] + u) == [x] + SortByPriority(u)
  {
    FilterConsDropped(x, u, High);
    FilterConsDropped(x, u, Normal);
    FilterConsKept(x, u);
    Regroup([x], [], [], Filter(u, Low));
  }

  lemma Regroup<T>(x: seq<T>, a: seq<T>, b: seq<T>, c: seq<T>)
    ensures a == [] ==> a + (x + b) + c == x + (a + b + c)
    ensures (x + a) + b + c == x + (a + b + c)
    ensures a == [] && b == [] ==> a + b + (x + c) == x + (a + b + c)
  {
  }

  lemma FilterConsKept(x: Resource, u: seq<Resource>)
    ensures Filter([x] + u, x.priority) == [x] + Filter(u, x.priority)
  {
    assert ([x] + u)[1..] == u;
  }

  lemma FilterConsDropped(x: Resource, u: seq<Resource>, p: Priority)
    requires x.priority != p
    ensures Filter([x] + u, p) == Filter(u, p)
  {
    assert ([x] + u)[1..] == u;
  }

  lemma {:induction false} FilterNone(q: seq<Resource>, p: Priority)
    requires forall i :: 0 <= i < |q| ==> q[i].priority != p
    ensures Filter(q, p) == []
  {
    if q != [] {
      FilterNone(q[1..], p);
    }
  }

  /** The sort is the only stable one: any queue ordered by priority whose
      groups are those of `q` is `SortByPriority(q)`. */
  lemma StableSortUnique(q: seq<Resource>, t: seq<Resource>)
    requires Sorted(t)
    requires forall p :: Filter(t, p) == Filter(q, p)
    ensures t == SortByPriority(q)
  {
    SortedIsGrouped(t);
  }

  /** Enqueueing a resource behind an existing queue: the queue it leaves is
      sorted, holds one more entry, and in the new entry's priority group
      the new entry comes last; the other groups are as they were. */
  lemma EnqueueEffect(q: seq<Resource>, r: Resource)
    ensures var t := SortByPriority(q + [r]);
      Sorted(t) && multiset(t) == multiset(q) + multiset{r} &&
      Filter(t, r.priority) == Filter(q, r.priority) + [r] &&
      forall p :: p != r.priority ==> Filter(t, p) == Filter(q, p)
  {
    SortIsSorted(q + [r]);
    SortIsPermutation(q + [r]);
    EnqueueOwnGroup(q, r);
    forall p | p != r.priority ensures Filter(SortByPriority(q + [r]), p) == Filter(q, p) {
      EnqueueOtherGroup(q, r, p);
    }
  }

  lemma EnqueueOwnGroup(q: seq<Resource>, r: Resource)
    ensures Filter(SortByPriority(q + [r]), r.priority) == Filter(q, r.priority) + [r]
  {
    SortIsStable(q + [r], r.priority);
    FilterAppend(q, [r], r.priority);
    FilterConsKept(r, []);
    assert [r] + [] == [r];
  }

  lemma EnqueueOtherGroup(q: seq<Resource>, r: Resource, p: Priority)
    requires p != r.priority
    ensures Filter(SortByPriority(q + [r]), p) == Filter(q, p)
  {
    SortIsStable(q + [r], p);
    FilterAppend(q, [r], p);
    FilterConsDropped(r, [], p);
    assert [r] + [] == [r];
  }

  // ---------------------------------------------------------------------
  // Draining

  /** Only these types run a loader; any other type is settled at once. */
  predicate HasLoader(kind: string) {
    kind == "script" || kind == "css" || kind == "image"
  }

  /** An entry is resolved unless its loader ran and failed. `fails` says,
      per entry, whether its script, stylesheet or image fired `onerror`. */
  predicate Resolves(r: Resource, fails: nat -> bool) {
    !(HasLoader(r.kind) && fails(r.id))
  }

  datatype Settlement = Resolved(id: nat) | Rejected(id: nat)

  function SettleOf(r: Resource, fails: nat -> bool): Settlement {
    if Resolves(r, fails) then Resolved(r.id) else Rejected(r.id)
  }

  /** The settlements of a drained queue, front first. */
  function Settle(q: seq<Resource>, fails: nat -> bool): (s: seq<Settlement>)
    ensures |s| == |q|
    ensures forall i :: 0 <= i < |q| ==> s[i] == SettleOf(q[i], fails)
  {
    if q == [] then [] else [SettleOf(q[0], fails)] + Settle(q[1..], fails)
  }

  /** URLs added to `performanceMetrics.resources`. */
  function LoadedUrls(q: seq<Resource>, fails: nat -> bool): set<string> {
    if q == [] then {}
    else (if Resolves(q[0], fails) then {q[0].url} else {}) + LoadedUrls(q[1..], fails)
  }

  /** URLs of the records pushed on `performanceMetrics.errors`, in order. */
  function ErrorUrls(q: seq<Resource>, fails: nat -> bool): (e: seq<string>)
    ensures |e| <= |q|
  {
    if q == [] then []
    else (if Resolves(q[0], fails) then [] else [q[0].url]) + ErrorUrls(q[1..], fails)
  }

  /** A URL is recorded as loaded exactly when some entry for it resolved. */
  lemma {:induction false} LoadedUrlsIff(q: seq<Resource>, fails: nat -> bool, u: string)
    ensures u in LoadedUrls(q, fails) <==> exists i :: 0 <= i < |q| && q[i].url == u && Resolves(q[i], fails)
  {
    if q != [] {
      LoadedUrlsIff(q[1..], fails, u);
      if exists i :: 0 <= i < |q| && q[i].url == u && Resolves(q[i], fails) {
        var i :| 0 <= i < |q| && q[i].url == u && Resolves(q[i], fails);
        if i > 0 {
          assert q[1..][i - 1] == q[i];
        }
      }
      if exists i :: 0 <= i < |q[1..]| && q[1..][i].url == u && Resolves(q[1..][i], fails) {
        var i :| 0 <= i < |q[1..]| && q[1..][i].url == u && Resolves(q[1..][i], fails);
        assert q[i + 1] == q[1..][i];
      }
    }
  }

  /** An entry of a type with no loader is always resolved and its URL
      recorded as loaded. */
  lemma NoLoaderResolves(q: seq<Resource>, fails: nat -> bool, i: nat)
    requires i < |q| && !HasLoader(q[i].kind)
    ensures Settle(q, fails)[i] == Resolved(q[i].id)
    ensures q[i].url in LoadedUrls(q, fails)
  {
    LoadedUrlsIff(q, fails, q[i].url);
  }

  function CountRejected(s: seq<Settlement>): nat {
    if s == [] then 0 else (if s[0].Rejected? then 1 else 0) + CountRejected(s[1..])
  }

  /** One error record per rejection, each naming the URL of a rejected
      entry. */
  lemma {:induction false} ErrorsAreRejections(q: seq<Resource>, fails: nat -> bool)
    ensures |ErrorUrls(q, fails)| == CountRejected(Settle(q, fails))
    ensures forall u :: u in ErrorUrls(q, fails) ==>
      exists i :: 0 <= i < |q| && q[i].url == u && Settle(q, fails)[i].Rejected?
  {
    if q != [] {
      ErrorsAreRejections(q[1..], fails);
      assert Settle(q, fails)[1..] == Settle(q[1..], fails);
      forall u | u in ErrorUrls(q, fails)
        ensures exists i :: 0 <= i < |q| && q[i].url == u && Settle(q, fails)[i].Rejected?
      {
        if u in ErrorUrls(q[1..], fails) {
          var i :| 0 <= i < |q[1..]| && q[1..][i].url == u && Settle(q[1..], fails)[i].Rejected?;
          assert q[i + 1] == q[1..][i];
        } else {
          assert q[0].url == u && Settle(q, fails)[0].Rejected?;
        }
      }
    }
  }

  /** The errors keep the order of the rejections: the k-th error URL is
      that of a rejected entry with exactly k rejected entries before it
      (their errors, by `ErrorsAreRejections`, one each). */
  lemma {:induction false} ErrorsInRejectionOrder(q: seq<Resource>, fails: nat -> bool, k: nat)
    requires k < |ErrorUrls(q, fails)|
    ensures
      exists i :: 0 <= i < |q| && !Resolves(q[i], fails) &&
                  q[i].url == ErrorUrls(q, fails)[k] && |ErrorUrls(q[..i], fails)| == k
  {
    var u := q[1..];
    var head := if Resolves(q[0], fails) then [] else [q[0].url];
    assert ErrorUrls(q, fails) == head + ErrorUrls(u, fails);
    if head != [] && k == 0 {
      assert q[..0] == [];
      assert !Resolves(q[0], fails) && q[0].url == ErrorUrls(q, fails)[0] && |ErrorUrls(q[..0], fails)| == 0;
    } else {
      var k' := k - |head|;
      ErrorsInRejectionOrder(u, fails, k');
      var i :| 0 <= i < |u| && !Resolves(u[i], fails) &&
        u[i].url == ErrorUrls(u, fails)[k'] && |ErrorUrls(u[..i], fails)| == k';
      var p := q[..i + 1];
      assert p[0] == q[0] && p[1..] == u[..i];
      assert ErrorUrls(p, fails) == head + ErrorUrls(u[..i], fails);
      assert ErrorUrls(q, fails)[k] == ErrorUrls(u, fails)[k'];
      assert q[i + 1] == u[i];
      assert !Resolves(q[i + 1], fails) && q[i + 1].url == ErrorUrls(q, fails)[k] &&
        |ErrorUrls(q[..i + 1], fails)| == k;
    }
  }

  // ---------------------------------------------------------------------
  // The module's mutable state

  /** What the drain records: every resolve/reject call in order,
      `performanceMetrics.resources`, and the URLs of
      `performanceMetrics.errors` in push order. */
  datatype Metrics = Metrics(settled: seq<Settlement>, resources: set<string>, errors: seq<string>)

  /** The record after settling the entries of `q` in order. */
  function Drained(m: Metrics, q: seq<Resource>, fails: nat -> bool): (m': Metrics)
    ensures |m'.settled| == |m.settled| + |q| && m'.settled[..|m.settled|] == m.settled
    ensures m.resources <= m'.resources && |m.errors| <= |m'.errors| && m'.errors[..|m.errors|] == m.errors
  {
    Metrics(m.settled + Settle(q, fails), m.resources + LoadedUrls(q, fails), m.errors + ErrorUrls(q, fails))
  }

  /** The record after `resource.resolve()` and `resources.add(url)`. */
  function Loaded(m: Metrics, r: Resource): Metrics {
    Metrics(m.settled + [Resolved(r.id)], m.resources + {r.url}, m.errors)
  }

  /** The record after `resource.reject(error)` and the error push. */
  function Failed(m: Metrics, r: Resource): Metrics {
    Metrics(m.settled + [Rejected(r.id)], m.resources, m.errors + [r.url])
  }

  /** The record after settling one entry: resolved with its URL loaded, or
      rejected with its URL pushed as an error. */
  function Settled(m: Metrics, r: Resource, fails: nat -> bool): Metrics {
    if Resolves(r, fails) then Loaded(m, r) else Failed(m, r)
  }

  /** Where the drain stands between two turns of the event loop: not
      running, awaiting the loader of the entry it has just dequeued, or in
      the 50 ms pause before the next entry. */
  datatype Phase = Idle | Loading(current: Resource) | Pausing

  class Loader {
    var queue: seq<Resource>
    var isProcessingQueue: bool
    /** The point at which `processLoadQueue` is suspended. */
    var phase: Phase
    var metrics: Metrics
    /** The id the next `loadResource` call will use. */
    var nextId: nat

    /** The queue is kept sorted by priority, each priority group is in call
        order, and every id was handed out already. */
    ghost predicate Ordered()
      reads this
    {
      Sorted(queue) &&
      (forall i, j :: 0 <= i < j < |queue| && queue[i].priority == queue[j].priority ==> queue[i].id < queue[j].id) &&
      (forall i :: 0 <= i < |queue| ==> queue[i].id < nextId)
    }

    /** The flag is set exactly while a drain is suspended; the drain pauses
        only with entries left, and awaits only a script, stylesheet or
        image. */
    ghost predicate Phased()
      reads this
    {
      (isProcessingQueue <==> !phase.Idle?) &&
      (phase.Pausing? ==> queue != []) &&
      (phase.Loading? ==> HasLoader(phase.current.kind) && phase.current.id < nextId)
    }

    /** Between events the queue is empty unless a drain is under way. */
    ghost predicate Valid()
      reads this
    {
      Ordered() && Phased() && (phase.Idle? ==> queue == [])
    }

    /** The entries not settled yet, in the order the drain settles them
        when no further entry arrives. */
    function Pending(): seq<Resource>
      reads this
    {
      (if phase.Loading? then [phase.current] else []) + queue
    }

    /** The state one step of the drain loop leaves after dequeuing the
        front of `q`, when the record before was `m`: awaiting its loader,
        or, for a type without one, resolved and then pausing or finished. */
    ghost predicate ResumedFrom(q: seq<Resource>, m: Metrics)
      reads this
    {
      q != [] && queue == q[1..] &&
      (HasLoader(q[0].kind) ==> phase == Loading(q[0]) && metrics == m) &&
      (!HasLoader(q[0].kind) ==>
        metrics == Loaded(m, q[0]) && phase == (if queue == [] then Idle else Pausing))
    }

    constructor ()
      ensures Valid() && queue == [] && !isProcessingQueue && phase == Idle
      ensures metrics == Metrics([], {}, []) && nextId == 0
    {
      queue := [];
      isProcessingQueue := false;
      phase := Idle;
      metrics := Metrics([], {}, []);
      nextId := 0;
    }

    /** `loadQueue.push(resource); loadQueue.sort(byPriority)`. */
    method Enqueue(url: string, kind: string, priority: Priority) returns (r: Resource)
      requires Ordered() && Phased()
      modifies this
      ensures Ordered() && Phased()
      ensures r == Resource(old(nextId), url, kind, priority) && nextId == old(nextId) + 1
      ensures queue == SortByPriority(old(queue) + [r])
      ensures isProcessingQueue == old(isProcessingQueue) && phase == old(phase) && metrics == old(metrics)
    {
      r := Resource(nextId, url, kind, priority);
      EnqueueKeepsOrder(queue, r);
      queue := SortByPriority(queue + [r]);
      nextId := nextId + 1;
    }

    /** `processLoadQueue()`: nothing happens when a drain is already
        running or the queue is empty; otherwise the flag is set and the
        loop runs up to its first suspension. */
    method ProcessLoadQueue()
      requires Ordered() && Phased()
      modifies this
      ensures Valid() && nextId == old(nextId)
      ensures old(isProcessingQueue) || old(queue) == [] ==>
        queue == old(queue) && isProcessingQueue == old(isProcessingQueue) &&
        phase == old(phase) && metrics == old(metrics)
      ensures !old(isProcessingQueue) && old(queue) != [] ==> ResumedFrom(old(queue), old(metrics))
    {
      if isProcessingQueue || |queue| == 0 {
        return;
      }
      isProcessingQueue := true;
      Resume();
    }

    /** One pass of the loop up to its next `await`: shift the front entry;
        a script, stylesheet or image starts loading, any other type is
        resolved at once and the loop pauses or ends. */
    method Resume()
      requires Ordered() && isProcessingQueue && queue != []
      modifies this
      ensures Valid() && nextId == old(nextId)
      ensures ResumedFrom(old(queue), old(metrics))
    {
      var resource := queue[0];
      SortedTail(queue);
      ghost var q := queue;
      queue := queue[1..];
      assert forall i :: 0 <= i < |queue| ==> queue[i] == q[i + 1];
      if HasLoader(resource.kind) {
        phase := Loading(resource);
      } else {
        SettleEntry(resource, false);
        AfterSettle();
      }
    }

    /** `resource.resolve()` and `resources.add(url)`, or on failure
        `resource.reject(error)` and the error push. */
    method SettleEntry(resource: Resource, failed: bool)
      modifies this
      ensures metrics == (if failed then Failed(old(metrics), resource) else Loaded(old(metrics), resource))
      ensures queue == old(queue) && isProcessingQueue == old(isProcessingQueue)
      ensures phase == old(phase) && nextId == old(nextId)
    {
      if failed {
        metrics := Failed(metrics, resource);
      } else {
        metrics := Loaded(metrics, resource);
      }
    }

    /** The end of a loop pass: pause 50 ms while entries are left,
        otherwise leave the loop and clear the flag. */
    method AfterSettle()
      requires isProcessingQueue
      modifies this
      ensures queue == old(queue) && metrics == old(metrics) && nextId == old(nextId)
      ensures phase == (if queue == [] then Idle else Pausing) && isProcessingQueue == (queue != [])
    {
      if |queue| > 0 {
        phase := Pausing;
      } else {
        phase := Idle;
        isProcessingQueue := false;
      }
    }

    /** The awaited loader settles (`onload`, or `onerror` when `failed`):
        the entry is resolved or rejected, then the drain pauses or ends. */
    method LoadSettles(failed: bool)
      requires Valid() && phase.Loading?
      modifies this
      ensures Valid() && queue == old(queue) && nextId == old(nextId)
      ensures metrics ==
        (if failed then Failed(old(metrics), old(phase.current)) else Loaded(old(metrics), old(phase.current)))
      ensures phase == (if queue == [] then Idle else Pausing)
    {
      SettleEntry(phase.current, failed);
      AfterSettle();
    }

    /** The 50 ms pause ends: the loop takes the next entry. */
    method TimerFires()
      requires Valid() && phase.Pausing?
      modifies this
      ensures Valid() && nextId == old(nextId)
      ensures ResumedFrom(old(queue), old(metrics))
    {
      Resume();
    }

    /** How far the drain is from its end: two per pending entry, plus one
        during a pause. */
    function Remaining(): nat
      reads this
    {
      2 * |Pending()| + (if phase.Pausing? then 1 else 0)
    }

    /** The next event of a running drain: the awaited loader settles
        (failing when `fails` says so for that entry), or the pause ends.
        `settledNow` is the entry this settled, if any. */
    method Step(fails: nat -> bool) returns (ghost settledNow: seq<Resource>)
      requires Valid() && !phase.Idle?
      modifies this
      ensures Valid() && nextId == old(nextId) && Remaining() < old(Remaining())
      ensures old(Pending()) == settledNow + Pending()
      ensures settledNow == [] ==> metrics == old(metrics)
      ensures settledNow != [] ==> |settledNow| == 1 && metrics == Settled(old(metrics), settledNow[0], fails)
    {
      if phase.Loading? {
        var r := phase.current;
        LoadSettles(fails(r.id));
        settledNow := [r];
      } else {
        var r := queue[0];
        ghost var rest := queue[1..];
        assert old(queue) == [r] + rest;
        TimerFires();
        settledNow := if HasLoader(r.kind) then [] else [r];
      }
    }

    /** The event loop runs the drain to its end with no further
        `loadResource` call: each awaited loader settles (failing exactly
        where `fails` says) and each pause ends. Every pending entry is
        settled in order and the flag is cleared. */
    method Drain(fails: nat -> bool)
      requires Valid()
      modifies this
      ensures Valid() && phase == Idle && queue == [] && !isProcessingQueue && nextId == old(nextId)
      ensures metrics == Drained(old(metrics), old(Pending()), fails)
    {
      ghost var done: seq<Resource> := [];
      DrainedNothing(metrics, fails);
      while !phase.Idle?
        invariant Valid() && nextId == old(nextId)
        invariant old(Pending()) == done + Pending()
        invariant metrics == Drained(old(metrics), done, fails)
        decreases Remaining()
      {
        ghost var before := Pending();
        var settledNow := Step(fails);
        ghost var after := Pending();
        if settledNow == [] {
          assert done + settledNow == done;
        } else {
          assert settledNow == [settledNow[0]];
          DrainedSnoc(old(metrics), done, settledNow[0], fails);
        }
        assert before == settledNow + after;
        SeqAssoc(done, settledNow, after);
        done := done + settledNow;
      }
      assert Pending() == [];
      assert done + [] == done;
    }

    /** `loadResource(url, type, priority)`: enqueue, then start a drain
        unless one is running. A drain already under way only gets a longer
        queue; a new drain starts loading the entry at once, or resolves it
        when its type has no loader. Returns the entry standing for the
        promise. */
    method LoadResource(url: string, kind: string, priority: Priority) returns (r: Resource)
      requires Valid()
      modifies this
      ensures Valid()
      ensures r == Resource(old(nextId), url, kind, priority) && nextId == old(nextId) + 1
      ensures old(isProcessingQueue) ==>
        queue == SortByPriority(old(queue) + [r]) && phase == old(phase) && metrics == old(metrics)
      ensures !old(isProcessingQueue) ==>
        queue == [] &&
        (HasLoader(kind) ==> phase == Loading(r) && metrics == old(metrics)) &&
        (!HasLoader(kind) ==> phase == Idle && metrics == Loaded(old(metrics), r))
    {
      r := Enqueue(url, kind, priority);
      if !isProcessingQueue {
        assert old(queue) == [];
        SortSingle(r);
        assert queue == [r] && queue[1..] == [];
        ProcessLoadQueue();
        assert ResumedFrom([r], old(metrics));
      }
    }

    /** `loadComponent(type)`: the three known components load their script
        with high priority; any other type enqueues nothing. */
    method LoadComponent(componentType: string)
      requires Valid()
      modifies this
      ensures Valid()
      ensures ComponentScript(componentType).None? ==>
        queue == old(queue) && nextId == old(nextId) && metrics == old(metrics) &&
        isProcessingQueue == old(isProcessingQueue) && phase == old(phase)
      ensures ComponentScript(componentType).Some? ==>
        var r := Resource(old(nextId), ComponentScript(componentType).value, "script", High);
        nextId == old(nextId) + 1 && metrics == old(metrics) &&
        (old(isProcessingQueue) ==> queue == SortByPriority(old(queue) + [r]) && phase == old(phase)) &&
        (!old(isProcessingQueue) ==> queue == [] && phase == Loading(r))
    {
      match ComponentScript(componentType)
      case Some(src) =>
        var _ := LoadResource(src, "script", High);
      case None =>
    }
  }

  /** Three calls in one turn of the event loop, `a` at normal priority,
      then `b` at low, then `c` at high, settle in the order a, c, b: `a`
      starts loading at once, and while it loads the sort puts `c` before
      `b`. */
  method BurstOrder(a: string, b: string, c: string, fails: nat -> bool) returns (settled: seq<Settlement>)
    ensures |settled| == 3 && settled[0].id == 0 && settled[1].id == 2 && settled[2].id == 1
  {
    var loader := Burst(a, b, c);
    loader.Drain(fails);
    settled := loader.metrics.settled;
  }

  /** The three calls of `BurstOrder` on a fresh loader, before any event
      runs. */
  method Burst(a: string, b: string, c: string) returns (loader: Loader)
    ensures fresh(loader) && loader.Valid() && loader.metrics == Metrics([], {}, [])
    ensures loader.Pending() ==
      [Resource(0, a, "script", Normal), Resource(2, c, "script", High), Resource(1, b, "script", Low)]
  {
    loader := BurstStart(a, b);
    var rc := loader.LoadResource(c, "script", High);
    SortPair(Resource(1, b, "script", Low), rc);
    assert loader.queue == [rc, Resource(1, b, "script", Low)];
  }

  /** The first two calls of `BurstOrder`: `a` is loading, `b` waits. */
  method BurstStart(a: string, b: string) returns (loader: Loader)
    ensures fresh(loader) && loader.Valid() && loader.metrics == Metrics([], {}, [])
    ensures loader.isProcessingQueue && loader.nextId == 2
    ensures loader.phase == Loading(Resource(0, a, "script", Normal))
    ensures loader.queue == [Resource(1, b, "script", Low)]
  {
    loader := new Loader();
    var ra := loader.LoadResource(a, "script", Normal);
    assert loader.phase == Loading(ra) && loader.queue == [];
    var rb := loader.LoadResource(b, "script", Low);
    SortSingle(rb);
  }

  /** A single entry is its own sort. */
  lemma SortSingle(r: Resource)
    ensures SortByPriority([] + [r]) == [r]
  {
    assert [] + [r] == [r];
    SortedIsGrouped([r]);
  }

  /** A low entry then a high one sort high first. */
  lemma SortPair(lo: Resource, hi: Resource)
    requires lo.priority == Low && hi.priority == High
    ensures SortByPriority([lo] + [hi]) == [hi, lo]
  {
    var q := [lo] + [hi];
    assert q[1..] == [hi] && [hi][1..] == [];
    assert Filter(q, High) == [hi];
    assert Filter(q, Normal) == [];
    assert Filter(q, Low) == [lo];
  }

  /** The scripts `loadComponent` knows. */
  function ComponentScript(componentType: string): (src: Option<string>)
    ensures src.Some? <==> componentType in COMPONENTS
    ensures src.Some? ==> src.value == "js/" + componentType + ".js"
  {
    if componentType in COMPONENTS then Some("js/" + componentType + ".js") else None
  }

  const COMPONENTS: set<string> := {"contact-form", "services-filter", "inquiry-form"}

  lemma SeqAssoc<T>(a: seq<T>, b: seq<T>, c: seq<T>)
    ensures a + (b + c) == (a + b) + c
  {
  }

  /** Draining nothing records nothing. */
  lemma DrainedNothing(m: Metrics, fails: nat -> bool)
    ensures Drained(m, [], fails) == m
  {
    assert m.settled + [] == m.settled && m.errors + [] == m.errors;
  }

  /** Settling one more entry after a drained prefix is draining the
      longer prefix. */
  lemma DrainedSnoc(m: Metrics, a: seq<Resource>, x: Resource, fails: nat -> bool)
    ensures Drained(m, a + [x], fails) == Settled(Drained(m, a, fails), x, fails)
  {
    SettleAppend(a, x, fails);
    ErrorUrlsAppend(a, x, fails);
    LoadedUrlsAppend(a, x, fails);
  }

  lemma SettleAppend(a: seq<Resource>, x: Resource, fails: nat -> bool)
    ensures Settle(a + [x], fails) == Settle(a, fails) + [SettleOf(x, fails)]
  {
    var l, r := Settle(a + [x], fails), Settle(a, fails) + [SettleOf(x, fails)];
    forall k | 0 <= k < |l| ensures l[k] == r[k] {
      if k < |a| { assert (a + [x])[k] == a[k]; }
    }
  }

  lemma {:induction false} LoadedUrlsAppend(a: seq<Resource>, x: Resource, fails: nat -> bool)
    ensures LoadedUrls(a + [x], fails) == LoadedUrls(a, fails) + (if Resolves(x, fails) then {x.url} else {})
  {
    if a != [] {
      assert (a + [x])[1..] == a[1..] + [x];
      LoadedUrlsAppend(a[1..], x, fails);
    } else {
      assert [x][1..] == [];
    }
  }

  lemma {:induction false} ErrorUrlsAppend(a: seq<Resource>, x: Resource, fails: nat -> bool)
    ensures ErrorUrls(a + [x], fails) == ErrorUrls(a, fails) + (if Resolves(x, fails) then [] else [x.url])
  {
    if a != [] {
      assert (a + [x])[1..] == a[1..] + [x];
      ErrorUrlsAppend(a[1..], x, fails);
    } else {
      assert [x][1..] == [];
    }
  }

  /** The queue invariant survives an enqueue with the next id. */
  lemma EnqueueKeepsOrder(q: seq<Resource>, r: Resource)
    requires Sorted(q)
    requires forall i, j :: 0 <= i < j < |q| && q[i].priority == q[j].priority ==> q[i].id < q[j].id
    requires forall i :: 0 <= i < |q| ==> q[i].id < r.id
    ensures var t := SortByPriority(q + [r]);
      Sorted(t) && |t| == |q| + 1 &&
      (forall i, j :: 0 <= i < j < |t| && t[i].priority == t[j].priority ==> t[i].id < t[j].id) &&
      (forall i :: 0 <= i < |t| ==> t[i].id < r.id + 1)
  {
    var t := SortByPriority(q + [r]);
    SortIsSorted(q + [r]);
    GroupsInCallOrder(q, r, t);
    SortIsPermutation(q + [r]);
    assert |multiset(t)| == |multiset(q + [r])|;
    forall i | 0 <= i < |t| ensures t[i].id < r.id + 1 {
      assert t[i] in multiset(q + [r]);
      assert t[i] in q + [r];
    }
  }

  /** The invariant of the queue: the sort keeps each priority group in call
      order when the new entry has the largest id. */
  lemma GroupsInCallOrder(q: seq<Resource>, r: Resource, t: seq<Resource>)
    requires forall i, j :: 0 <= i < j < |q| && q[i].priority == q[j].priority ==> q[i].id < q[j].id
    requires forall i :: 0 <= i < |q| ==> q[i].id < r.id
    requires t == SortByPriority(q + [r])
    ensures forall i, j :: 0 <= i < j < |t| && t[i].priority == t[j].priority ==> t[i].id < t[j].id
  {
    var s := q + [r];
    forall i, j | 0 <= i < j < |s| && s[i].priority == s[j].priority ensures s[i].id < s[j].id {
      if j == |q| { assert s[i] == q[i]; } else { assert s[i] == q[i] && s[j] == q[j]; }
    }
    forall i, j | 0 <= i < j < |t| && t[i].priority == t[j].priority ensures t[i].id < t[j].id {
      GroupOrderSurvives(s, t, i, j);
    }
  }

  /** Two entries of the same priority appear in the sorted queue in the
      order they had before sorting. */
  lemma GroupOrderSurvives(s: seq<Resource>, t: seq<Resource>, i: nat, j: nat)
    requires forall a, b :: 0 <= a < b < |s| && s[a].priority == s[b].priority ==> s[a].id < s[b].id
    requires t == SortByPriority(s)
    requires i < j < |t| && t[i].priority == t[j].priority
    ensures t[i].id < t[j].id
  {
    var p := t[i].priority;
    var h, n, l := Filter(s, High), Filter(s, Normal), Filter(s, Low);
    var g := Filter(s, p);
    var off := if p == High then 0 else if p == Normal then |h| else |h| + |n|;
    GroupIndex(h, n, l, i);
    GroupIndex(h, n, l, j);
    assert g == (if p == High then h else if p == Normal then n else l);
    assert t[i] == g[i - off] && t[j] == g[j - off];
    FilterKeepsOrder(s, p, i - off, j - off);
  }

  /** Where an index of the concatenated groups falls. */
  lemma GroupIndex(h: seq<Resource>, n: seq<Resource>, l: seq<Resource>, i: nat)
    requires forall k :: 0 <= k < |h| ==> h[k].priority == High
    requires forall k :: 0 <= k < |n| ==> n[k].priority == Normal
    requires forall k :: 0 <= k < |l| ==> l[k].priority == Low
    requires i < |h + n + l|
    ensures var t := h + n + l;
      (t[i].priority == High ==> i < |h| && t[i] == h[i]) &&
      (t[i].priority == Normal ==> |h| <= i < |h| + |n| && t[i] == n[i - |h|]) &&
      (t[i].priority == Low ==> |h| + |n| <= i && t[i] == l[i - |h| - |n|])
  {
  }

  /** A filtered group lists its members in their order in the source, so
      ids increasing within a priority stay increasing in the group. */
  lemma {:induction false} FilterKeepsOrder(s: seq<Resource>, p: Priority, a: nat, b: nat)
    requires forall x, y :: 0 <= x < y < |s| && s[x].priority == s[y].priority ==> s[x].id < s[y].id
    requires a < b < |Filter(s, p)|
    ensures Filter(s, p)[a].id < Filter(s, p)[b].id
  {
    var g := Filter(s, p);
    var u := s[1..];
    assert forall x, y :: 0 <= x < y < |u| && u[x].priority == u[y].priority ==> u[x].id < u[y].id by {
      forall x, y | 0 <= x < y < |u| && u[x].priority == u[y].priority ensures u[x].id < u[y].id {
        assert u[x] == s[x + 1] && u[y] == s[y + 1];
      }
    }
    if s[0].priority == p {
      if a == 0 {
        FilterMember(u, p, b - 1);
        var k :| 0 <= k < |u| && u[k] == g[b];
        assert s[k + 1] == g[b];
      } else {
        FilterKeepsOrder(u, p, a - 1, b - 1);
      }
    } else {
      FilterKeepsOrder(u, p, a, b);
    }
  }

  lemma {:induction false} FilterMember(s: seq<Resource>, p: Priority, k: nat)
    requires k < |Filter(s, p)|
    ensures exists m :: 0 <= m < |s| && s[m] == Filter(s, p)[k]
  {
    if s[0].priority == p && k == 0 {
      assert s[0] == Filter(s, p)[0];
    } else {
      var k' := if s[0].priority == p then k - 1 else k;
      FilterMember(s[1..], p, k');
      var m :| 0 <= m < |s[1..]| && s[1..][m] == Filter(s[1..], p)[k'];
      assert s[m + 1] == Filter(s, p)[k];
    }
  }
}
