/** The performance monitor: the metrics it records, the stored log of
    reported metrics kept to the latest 100, the time-to-interactive rule,
    the one-off first-interaction report, and the slow-resource warnings.
    Times are whole milliseconds. */
module PerformanceMonitor {
  import opened TextUtil

  const MAX_STORED := 100

  /** A reported value: most are times, the network type is text. */
  datatype Value = Number(n: int) | Text(s: string)

  /** One stored record: metric name, value, page address and time. */
  datatype Entry = Entry(name: string, value: Value, url: string, timestamp: int)

  /** The `performanceMetrics` storage slot: missing (read as `[]`), a
      parsed array, or text that does not parse to an array. */
  datatype Slot = Absent | Log(entries: seq<Entry>) | Unreadable

  // ---------------------------------------------------------------------
  // The stored log

  /** The last `n` elements of `s` (all of it when shorter). */
  function LastN<T>(s: seq<T>, n: nat): (r: seq<T>)
    ensures |r| == if |s| <= n then |s| else n
  {
    if |s| <= n then s else s[|s| - n..]
  }

  /** `push` then `splice(0, length - 100)` when over 100. */
  function Appended(log: seq<Entry>, e: Entry): (r: seq<Entry>)
    ensures |r| <= MAX_STORED || |r| == |log| + 1
    ensures r == LastN(log + [e], MAX_STORED)
  {
    var pushed := log + [e];
    if |pushed| > MAX_STORED then pushed[|pushed| - MAX_STORED..] else pushed
  }

  /** The new metric is last, the log never exceeds 100 once it is within
      it, and what is kept is a suffix of the old log followed by the new
      metric: only the oldest entries go, the rest keep their order. */
  lemma AppendedShape(log: seq<Entry>, e: Entry)
    ensures var r := Appended(log, e);
      r != [] && r[|r| - 1] == e &&
      (|log| <= MAX_STORED ==> |r| <= MAX_STORED) &&
      (|log| < MAX_STORED ==> r == log + [e]) &&
      r[..|r| - 1] == log[|log| + 1 - |r|..]
  {
    var r := Appended(log, e);
    var pushed := log + [e];
    assert r == pushed[|pushed| - |r|..];
    assert r[..|r| - 1] == pushed[|pushed| - |r|..|pushed| - 1];
    assert pushed[..|pushed| - 1] == log;
  }

  /** Reporting a run of metrics one by one, from a log within the bound. */
  function ReportAll(log: seq<Entry>, es: seq<Entry>): seq<Entry>
    decreases |es|
  {
    if es == [] then log else ReportAll(Appended(log, es[0]), es[1..])
  }

  /** Whatever is reported, the stored log is the latest 100 of everything
      reported since it was within the bound. */
  lemma {:induction false} ReportAllKeepsLatest(log: seq<Entry>, es: seq<Entry>)
    requires |log| <= MAX_STORED
    ensures ReportAll(log, es) == LastN(log + es, MAX_STORED)
    decreases |es|
  {
    if es != [] {
      var pushed := log + [es[0]];
      var log' := Appended(log, es[0]);
      calc {
        ReportAll(log, es);
        ReportAll(log', es[1..]);
        { ReportAllKeepsLatest(log', es[1..]); }
        LastN(log' + es[1..], MAX_STORED);
        { LastNAppend(pushed, es[1..]); }
        LastN(pushed + es[1..], MAX_STORED);
        { assert pushed + es[1..] == log + es; }
        LastN(log + es, MAX_STORED);
      }
    }
  }

  /** Taking the last 100 before appending more changes nothing. */
  lemma LastNAppend<T>(s: seq<T>, t: seq<T>)
    ensures LastN(LastN(s, MAX_STORED) + t, MAX_STORED) == LastN(s + t, MAX_STORED)
  {
    var u := LastN(s, MAX_STORED);
    if |s| > MAX_STORED {
      var st := s + t;
      var ut := u + t;
      assert ut == st[|s| - MAX_STORED..];
      assert |ut| >= MAX_STORED;
      assert ut[|ut| - MAX_STORED..] == st[|st| - MAX_STORED..];
    }
  }

  /** The entries a readable slot holds; a missing slot reads as `'[]'`. */
  function SlotEntries(s: Slot): seq<Entry>
    requires !s.Unreadable?
  {
    if s.Log? then s.entries else []
  }

  /** The slot after `reportMetric` tries to store `e`: text that does not
      parse, or a failing `setItem`, leaves it as it was; otherwise it holds
      the old entries with `e` appended, cut to the latest 100. */
  function Stored(s: Slot, e: Entry, writeFails: bool): (r: Slot)
    ensures s.Unreadable? || writeFails ==> r == s
    ensures !s.Unreadable? && !writeFails ==> r.Log? && r.entries == Appended(SlotEntries(s), e)
  {
    match s
    case Unreadable => Unreadable
    case Absent => if writeFails then Absent else Log(Appended([], e))
    case Log(es) => if writeFails then s else Log(Appended(es, e))
  }

  /** A run of reports whose writes all succeed. */
  function StoredAll(s: Slot, es: seq<Entry>): Slot
    decreases |es|
  {
    if es == [] then s else StoredAll(Stored(s, es[0], false), es[1..])
  }

  /** From a readable slot within the bound, any run of successful reports
      leaves exactly the latest 100 of the old entries and the new ones. */
  lemma {:induction false} StoredRunKeepsLatest(s: Slot, es: seq<Entry>)
    requires !s.Unreadable? && |SlotEntries(s)| <= MAX_STORED
    ensures es != [] ==> StoredAll(s, es) == Log(LastN(SlotEntries(s) + es, MAX_STORED))
    ensures es == [] ==> StoredAll(s, es) == s
  {
    if es != [] {
      StoredAllIsReportAll(Stored(s, es[0], false), es[1..]);
      ReportAllKeepsLatest(SlotEntries(s), es);
    }
  }

  /** The load handler's two successful stores (load time, then TTI) keep
      the latest 100 of the old entries and both new ones, in that order. */
  lemma LoadStoresBoth(s: Slot, load: Entry, tti: Entry)
    requires !s.Unreadable? && |SlotEntries(s)| <= MAX_STORED
    ensures Stored(Stored(s, load, false), tti, false) == Log(LastN(SlotEntries(s) + [load, tti], MAX_STORED))
  {
    StoredRunKeepsLatest(s, [load, tti]);
    assert [load, tti][1..] == [tti];
    assert [tti][1..] == [];
  }

  lemma {:induction false} StoredAllIsReportAll(s: Slot, es: seq<Entry>)
    requires s.Log?
    ensures StoredAll(s, es) == Log(ReportAll(s.entries, es))
    decreases |es|
  {
    if es != [] {
      StoredAllIsReportAll(Stored(s, es[0], false), es[1..]);
    }
  }

  // ---------------------------------------------------------------------
  // Derived metrics and warnings

  /** Time to interactive: set only once a first-input delay was measured. */
  function Tti(fid: int, lcp: int): (t: Option<int>)
    ensures t.Some? <==> fid > 0
    ensures t.Some? ==> t.value - lcp == fid
  {
    if fid > 0 then Some(fid + lcp) else None
  }

  datatype Warning = SlowResource | SlowImage | SlowScript | SlowStylesheet

  /** The warnings for a resource of initiator type `kind` that took `t`
      milliseconds: the general one, then at most one by type. */
  function ResourceWarnings(kind: string, t: int): (w: seq<Warning>)
    ensures SlowResource in w <==> t > 1000
    ensures SlowImage in w <==> kind == "img" && t > 2000
    ensures SlowScript in w <==> kind == "script" && t > 1000
    ensures SlowStylesheet in w <==> kind == "css" && t > 500
    ensures |w| <= 2 && (w != [] && t > 1000 ==> w[0] == SlowResource)
  {
    var general := if t > 1000 then [SlowResource] else [];
    var specific :=
      if kind == "img" && t > 2000 then [SlowImage]
      else if kind == "script" && t > 1000 then [SlowScript]
      else if kind == "css" && t > 500 then [SlowStylesheet]
      else [];
    general + specific
  }

  /** A slow image or script is always also reported as a slow resource;
      a stylesheet between 500 and 1000 ms is reported only by type. */
  lemma TypedWarningsAndGeneral(kind: string, t: int)
    ensures SlowImage in ResourceWarnings(kind, t) ==> SlowResource in ResourceWarnings(kind, t)
    ensures SlowScript in ResourceWarnings(kind, t) ==> SlowResource in ResourceWarnings(kind, t)
    ensures kind == "css" && 500 < t <= 1000 ==> ResourceWarnings(kind, t) == [SlowStylesheet]
  {
  }

  const INTERACTION_EVENTS: set<string> := {"click", "keydown", "scroll", "touchstart"}

  /** The recorded metrics, the storage slot, the interaction listeners
      still attached, and every metric sent on to analytics. */
  class Monitor {
    var slot: Slot
    var lcp: int
    var fid: int
    var loadTime: int
    var tti: int
    var firstInteraction: bool
    /** Listeners registered with `once: true` that have not fired yet. */
    var listening: set<string>
    /** Every `reportMetric` call, in order. */
    var reported: seq<(string, Value)>

    /** `firstInteraction` is cleared exactly when the one interaction
        report has been made. */
    predicate Valid()
      reads this
    {
      (firstInteraction <==> forall i :: 0 <= i < |reported| ==> reported[i].0 != "FirstInteraction") &&
      CountNamed(reported, "FirstInteraction") <= 1
    }

    constructor (slot0: Slot)
      ensures Valid() && slot == slot0 && reported == []
      ensures lcp == 0 && fid == 0 && loadTime == 0 && tti == 0
      ensures firstInteraction && listening == {}
    {
      slot := slot0;
      lcp, fid, loadTime, tti := 0, 0, 0, 0;
      firstInteraction, listening, reported := true, {}, [];
    }

    /** `reportMetric`: the metric goes to analytics, and is appended to the
        stored log, stamped with the wall clock `clock` (`Date.now()`),
        unless the stored text is unreadable or the write fails; neither
        failure escapes. */
    method ReportMetric(name: string, value: Value, url: string, clock: int, writeFails: bool)
      modifies this
      ensures reported == old(reported) + [(name, value)]
      ensures slot == Stored(old(slot), Entry(name, value, url, clock), writeFails)
      ensures lcp == old(lcp) && fid == old(fid) && loadTime == old(loadTime) && tti == old(tti)
      ensures firstInteraction == old(firstInteraction) && listening == old(listening)
    {
      reported := reported + [(name, value)];
      var stored: seq<Entry>;
      match slot {
        case Unreadable => return;
        case Absent => stored := [];
        case Log(es) => stored := es;
      }
      stored := stored + [Entry(name, value, url, clock)];
      if |stored| > MAX_STORED {
        stored := stored[|stored| - MAX_STORED..];
      }
      if !writeFails {
        slot := Log(stored);
      }
    }

    /** A largest-contentful-paint entry starting at `start`, reported at
        wall-clock time `clock`. */
    method OnLcp(start: int, url: string, clock: int, writeFails: bool)
      requires Valid()
      modifies this
      ensures Valid() && lcp == start && reported == old(reported) + [("LCP", Number(start))]
      ensures slot == Stored(old(slot), Entry("LCP", Number(start), url, clock), writeFails)
      ensures fid == old(fid) && loadTime == old(loadTime) && tti == old(tti)
      ensures firstInteraction == old(firstInteraction) && listening == old(listening)
    {
      lcp := start;
      ReportMetric("LCP", Number(start), url, clock, writeFails);
      CountNamedAppend(old(reported), ("LCP", Number(start)), "FirstInteraction");
    }

    /** A first-input entry: the delay is processing start less start. */
    method OnFirstInput(start: int, processingStart: int, url: string, clock: int, writeFails: bool)
      requires Valid()
      modifies this
      ensures Valid() && fid == processingStart - start
      ensures reported == old(reported) + [("FID", Number(fid))]
      ensures slot == Stored(old(slot), Entry("FID", Number(fid), url, clock), writeFails)
      ensures lcp == old(lcp) && loadTime == old(loadTime) && tti == old(tti)
      ensures firstInteraction == old(firstInteraction) && listening == old(listening)
    {
      fid := processingStart - start;
      ReportMetric("FID", Number(fid), url, clock, writeFails);
      CountNamedAppend(old(reported), ("FID", Number(fid)), "FirstInteraction");
    }

    /** The page `load` handler: `now` is `performance.now()`, the load
        time; each of its reports is stamped by its own `Date.now()` and
        stored by its own write. */
    method OnLoad(now: int, url: string, loadClock: int, loadWriteFails: bool, ttiClock: int, ttiWriteFails: bool)
      requires Valid()
      modifies this
      ensures Valid()
      ensures loadTime == now
      ensures Tti(old(fid), old(lcp)).Some? ==> tti == Tti(old(fid), old(lcp)).value
      ensures Tti(old(fid), old(lcp)).Some? ==>
        reported == old(reported) + [("LoadTime", Number(now)), ("TTI", Number(tti))]
      ensures Tti(old(fid), old(lcp)).Some? ==>
        slot == Stored(Stored(old(slot), Entry("LoadTime", Number(now), url, loadClock), loadWriteFails),
                       Entry("TTI", Number(tti), url, ttiClock), ttiWriteFails)
      ensures Tti(old(fid), old(lcp)).None? ==>
        tti == old(tti) && reported == old(reported) + [("LoadTime", Number(now))]
      ensures Tti(old(fid), old(lcp)).None? ==>
        slot == Stored(old(slot), Entry("LoadTime", Number(now), url, loadClock), loadWriteFails)
      ensures lcp == old(lcp) && fid == old(fid)
      ensures firstInteraction == old(firstInteraction) && listening == old(listening)
    {
      ghost var slot0, reported0 := slot, reported;
      loadTime := now;
      ReportMetric("LoadTime", Number(now), url, loadClock, loadWriteFails);
      CountNamedAppend(reported0, ("LoadTime", Number(now)), "FirstInteraction");
      ghost var slot1, reported1 := slot, reported;
      assert slot1 == Stored(slot0, Entry("LoadTime", Number(now), url, loadClock), loadWriteFails);
      if fid > 0 {
        tti := fid + lcp;
        ReportMetric("TTI", Number(tti), url, ttiClock, ttiWriteFails);
        CountNamedAppend(reported1, ("TTI", Number(tti)), "FirstInteraction");
        assert slot == Stored(slot1, Entry("TTI", Number(tti), url, ttiClock), ttiWriteFails);
        assert reported == reported0 + [("LoadTime", Number(now)), ("TTI", Number(tti))];
      }
    }

    /** `trackUserInteractions`: one `once` listener per event type. */
    method TrackInteractions()
      modifies this
      ensures listening == INTERACTION_EVENTS
      ensures slot == old(slot) && reported == old(reported) && firstInteraction == old(firstInteraction)
      ensures lcp == old(lcp) && fid == old(fid) && loadTime == old(loadTime) && tti == old(tti)
    {
      listening := INTERACTION_EVENTS;
    }

    /** An interaction event of type `kind`: its listener, if still
        attached, fires once and is removed; only the first firing of any
        of them reports, its value the `performance.now()` reading `now`
        and its stored entry stamped with `Date.now()` as `clock`. */
    method OnInteraction(kind: string, url: string, now: int, clock: int, writeFails: bool)
      requires Valid()
      modifies this
      ensures Valid()
      ensures listening == old(listening) - {kind}
      ensures kind in old(listening) && old(firstInteraction) ==>
        !firstInteraction && reported == old(reported) + [("FirstInteraction", Number(now))] &&
        slot == Stored(old(slot), Entry("FirstInteraction", Number(now), url, clock), writeFails)
      ensures kind !in old(listening) || !old(firstInteraction) ==>
        firstInteraction == old(firstInteraction) && reported == old(reported) && slot == old(slot)
      ensures lcp == old(lcp) && fid == old(fid) && loadTime == old(loadTime) && tti == old(tti)
    {
      if kind !in listening {
        return;
      }
      listening := listening - {kind};
      if firstInteraction {
        NoneNamedCount(reported, "FirstInteraction");
        ReportMetric("FirstInteraction", Number(now), url, clock, writeFails);
        CountNamedAppend(old(reported), ("FirstInteraction", Number(now)), "FirstInteraction");
        firstInteraction := false;
      } else {
        assert reported == old(reported);
      }
    }
  }

  /** How many reports carry `name`. */
  function CountNamed(rs: seq<(string, Value)>, name: string): nat {
    if rs == [] then 0
    else CountNamed(rs[..|rs| - 1], name) + (if rs[|rs| - 1].0 == name then 1 else 0)
  }

  lemma CountNamedAppend(rs: seq<(string, Value)>, r: (string, Value), name: string)
    ensures CountNamed(rs + [r], name) == CountNamed(rs, name) + (if r.0 == name then 1 else 0)
  {
    assert (rs + [r])[..|rs|] == rs;
  }

  lemma {:induction false} NoneNamedCount(rs: seq<(string, Value)>, name: string)
    requires forall i :: 0 <= i < |rs| ==> rs[i].0 != name
    ensures CountNamed(rs, name) == 0
  {
    if rs != [] {
      NoneNamedCount(rs[..|rs| - 1], name);
    }
  }
}
