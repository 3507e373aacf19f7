// The fixed-window limiter in front of the coach endpoint.
module RateLimit {

  const MAX_PER_WINDOW: nat := 12
  const MAX_KEYS: nat := 10_000
  const WINDOW_MS: nat := 60_000

  datatype Entry = Entry(count: nat, startedAt: int)

  type Limits = map<string, Entry>

  predicate Stale(e: Entry, now: int) {
    now - e.startedAt >= WINDOW_MS
  }

  function Live(t: Limits, now: int): Limits {
    map k | k in t && !Stale(t[k], now) :: t[k]
  }

  datatype Consumption = Consumption(after: Limits, admitted: bool)

  function Consumed(t: Limits, key: string, now: int): Consumption {
    var room := if key !in t && |t| >= MAX_KEYS then Live(t, now) else t;
    if key !in t && |room| >= MAX_KEYS then Consumption(room, false)
    else if key !in t || Stale(t[key], now) then Consumption(room[key := Entry(1, now)], true)
    else if t[key].count >= MAX_PER_WINDOW then Consumption(room, false)
    else Consumption(room[key := Entry(t[key].count + 1, t[key].startedAt)], true)
  }

  class RateLimiter {
    var limits: Limits

    constructor ()
      ensures limits == map[]
    {
      limits := map[];
    }

    method Consume(key: string, now: int) returns (admitted: bool)
      modifies this
      ensures Consumption(limits, admitted) == Consumed(old(limits), key, now)
    {
      var known := key in limits;
      if !known && |limits| >= MAX_KEYS {
        Evict(now);
        if |limits| >= MAX_KEYS {
          return false;
        }
      }
      if !known || now - limits[key].startedAt >= WINDOW_MS {
        limits := limits[key := Entry(1, now)];
        return true;
      }
      if limits[key].count >= MAX_PER_WINDOW {
        return false;
      }
      limits := limits[key := limits[key].(count := limits[key].count + 1)];
      return true;
    }

    method Evict(now: int)
      modifies this
      ensures limits == Live(old(limits), now)
    {
      var candidates := limits.Keys;
      while candidates != {}
        invariant candidates <= limits.Keys <= old(limits).Keys
        invariant forall k :: k in limits ==> limits[k] == old(limits)[k]
        invariant forall k :: k in old(limits) && k !in candidates ==> (k in limits <==> !Stale(old(limits)[k], now))
        decreases |candidates|
      {
        var candidate :| candidate in candidates;
        candidates := candidates - {candidate};
        if now - limits[candidate].startedAt >= WINDOW_MS {
          limits := limits - {candidate};
        }
      }
    }
  }

  // ----- One request --------------------------------------------------------------------

  // A request is refused exactly when its key has used up a window that is still open, or
  // is new while that many other keys have a window open.
  lemma RefusedExactly(t: Limits, key: string, now: int)
    ensures Consumed(t, key, now).admitted <==>
              if key in Live(t, now) then t[key].count < MAX_PER_WINDOW
              else key in t || |Live(t, now)| < MAX_KEYS
  {
    if key !in t && |t| < MAX_KEYS {
      SubmapSmaller(Live(t, now), t);
    }
  }

  lemma SubmapSmaller(a: Limits, b: Limits)
    requires a.Keys <= b.Keys
    ensures |a| <= |b|
  {
    assert b.Keys == a.Keys + (b.Keys - a.Keys);
    assert |a.Keys| == |a| && |b.Keys| == |b|;
  }

  // A request never touches another key's window while it is open.
  lemma OthersKeepTheirWindow(t: Limits, key: string, now: int, other: string)
    requires other != key
    ensures var after := Consumed(t, key, now).after;
            && (other in Live(t, now) ==> other in after)
            && (other in after ==> other in t && after[other] == t[other])
  {
  }

  predicate Bounded(t: Limits) {
    |t| <= MAX_KEYS && forall k :: k in t ==> 1 <= t[k].count <= MAX_PER_WINDOW
  }

  lemma StaysBounded(t: Limits, key: string, now: int)
    requires Bounded(t)
    ensures Bounded(Consumed(t, key, now).after)
  {
    SubmapSmaller(Live(t, now), t);
    var room := if key !in t && |t| >= MAX_KEYS then Live(t, now) else t;
    var after := Consumed(t, key, now).after;
    assert |room| <= MAX_KEYS;
    if after.Keys == room.Keys {
      SubmapSmaller(after, room);
    }
  }

  // ----- Runs ---------------------------------------------------------------------------

  datatype Request = Request(key: string, now: int)

  // The state after every request of a history, from an empty map.
  function After(h: seq<Request>): Limits {
    if h == [] then map[] else Consumed(After(h[..|h| - 1]), h[|h| - 1].key, h[|h| - 1].now).after
  }

  // What the last request of a history is answered.
  predicate LastAdmitted(h: seq<Request>)
    requires h != []
  {
    Consumed(After(h[..|h| - 1]), h[|h| - 1].key, h[|h| - 1].now).admitted
  }

  predicate InWindow(now: int, from: int) {
    from <= now < from + WINDOW_MS
  }

  // How many requests of this key were admitted in the window's length from a moment on.
  function Admissions(h: seq<Request>, key: string, from: int): nat {
    if h == [] then 0
    else
      var last := h[|h| - 1];
      Admissions(h[..|h| - 1], key, from)
        + if last.key == key && InWindow(last.now, from) && LastAdmitted(h) then 1 else 0
  }

  predicate Clocked(h: seq<Request>) {
    forall i, j :: 0 <= i <= j < |h| ==> h[i].now <= h[j].now
  }

  // Whatever the clock does, the map stays small and no window overflows.
  lemma {:induction false} RunStaysBounded(h: seq<Request>)
    ensures Bounded(After(h))
  {
    hide Consumed, Bounded;
    if h == [] {
      EmptyBounded();
    } else {
      RunStaysBounded(h[..|h| - 1]);
      StaysBounded(After(h[..|h| - 1]), h[|h| - 1].key, h[|h| - 1].now);
    }
  }

  lemma EmptyBounded()
    ensures Bounded(map[])
  {
  }

  // What is known of a key's admissions in a stretch, once the clock has reached `now`.
  predicate Tallied(t: Limits, key: string, from: int, now: int, admissions: nat) {
    && admissions <= 2 * MAX_PER_WINDOW - 1
    && (now < from ==> admissions == 0)
    && (if key in t then
          && t[key].startedAt <= now && 1 <= t[key].count <= MAX_PER_WINDOW
          && (t[key].startedAt < from ==> admissions <= t[key].count - 1)
          && (InWindow(t[key].startedAt, from) ==> admissions <= MAX_PER_WINDOW - 1 + t[key].count)
        else now < from + WINDOW_MS ==> admissions <= MAX_PER_WINDOW - 1)
  }

  lemma TallyAdvances(t: Limits, key: string, from: int, before: int, admissions: nat, r: Request)
    requires Tallied(t, key, from, before, admissions) && before <= r.now
    ensures var c := Consumed(t, r.key, r.now);
            Tallied(c.after, key, from, r.now, admissions + if r.key == key && InWindow(r.now, from)
                    && c.admitted then 1 else 0)
  {
    if r.key != key {
      OthersKeepTheirWindow(t, r.key, r.now, key);
    }
  }

  lemma {:induction false} RunTallied(h: seq<Request>, key: string, from: int)
    requires Clocked(h) && h != []
    ensures Tallied(After(h), key, from, h[|h| - 1].now, Admissions(h, key, from))
  {
    hide Consumed, Tallied, InWindow;
    var before := h[..|h| - 1];
    var last := h[|h| - 1];
    if before == [] {
      TallyStarts(key, from, last.now);
      TallyAdvances(map[], key, from, last.now, 0, last);
    } else {
      RunTallied(before, key, from);
      assert before[|before| - 1] == h[|h| - 2];
      TallyAdvances(After(before), key, from, before[|before| - 1].now, Admissions(before, key, from), last);
    }
  }

  lemma TallyStarts(key: string, from: int, now: int)
    ensures Tallied(map[], key, from, now, 0)
  {
  }

  // In no stretch of one window's length is a key admitted twenty-four times, evictions or
  // not: the request that opened the earlier of two windows is always outside.
  lemma AtMostTwentyThree(h: seq<Request>, key: string, from: int)
    requires Clocked(h)
    ensures Admissions(h, key, from) <= 2 * MAX_PER_WINDOW - 1
  {
    if h != [] {
      RunTallied(h, key, from);
    }
  }

  // ----- Within one window --------------------------------------------------------------

  // The last request of this history opens a window for its key.
  predicate Opens(h: seq<Request>) {
    h != [] && LastAdmitted(h)
    && var t := After(h[..|h| - 1]);
       var last := h[|h| - 1];
       last.key !in t || Stale(t[last.key], last.now)
  }

  // Anything admitted since a moment leaves a window that is not older than it.
  predicate Remembered(t: Limits, key: string, from: int, now: int, admissions: nat) {
    && (now < from ==> admissions == 0)
    && (now < from + WINDOW_MS && key in t && Stale(t[key], from) ==> admissions == 0)
    && (now == from && admissions > 0 ==> key in t && !Stale(t[key], from))
  }

  lemma MemoryAdvances(t: Limits, key: string, from: int, before: int, admissions: nat, r: Request)
    requires Remembered(t, key, from, before, admissions) && before <= r.now <= from
    ensures var c := Consumed(t, r.key, r.now);
            Remembered(c.after, key, from, r.now, admissions + if r.key == key && InWindow(r.now, from)
                       && c.admitted then 1 else 0)
  {
    if r.key != key {
      OthersKeepTheirWindow(t, r.key, r.now, key);
    }
  }

  lemma {:induction false} RunRemembered(h: seq<Request>, key: string, from: int)
    requires Clocked(h) && h != [] && h[|h| - 1].now <= from
    ensures Remembered(After(h), key, from, h[|h| - 1].now, Admissions(h, key, from))
  {
    hide Consumed, Remembered, InWindow;
    var before := h[..|h| - 1];
    var last := h[|h| - 1];
    if before == [] {
      MemoryStarts(key, from, last.now);
      MemoryAdvances(map[], key, from, last.now, 0, last);
    } else {
      assert before[|before| - 1] == h[|h| - 2];
      RunRemembered(before, key, from);
      MemoryAdvances(After(before), key, from, before[|before| - 1].now, Admissions(before, key, from), last);
    }
  }

  lemma MemoryStarts(key: string, from: int, now: int)
    ensures Remembered(map[], key, from, now, 0)
  {
  }

  // Once a window is open its count is the number admitted in it, until it has passed.
  predicate Counted(t: Limits, key: string, from: int, now: int, admissions: nat) {
    && from <= now && admissions <= MAX_PER_WINDOW
    && (now < from + WINDOW_MS ==> key in t && t[key] == Entry(admissions, from))
    && (key in t ==> t[key] == Entry(admissions, from) || t[key].startedAt >= from + WINDOW_MS)
  }

  lemma CountAdvances(t: Limits, key: string, from: int, before: int, admissions: nat, r: Request)
    requires Counted(t, key, from, before, admissions) && before <= r.now
    ensures var c := Consumed(t, r.key, r.now);
            Counted(c.after, key, from, r.now, admissions + if r.key == key && InWindow(r.now, from)
                    && c.admitted then 1 else 0)
  {
    if r.key != key {
      OthersKeepTheirWindow(t, r.key, r.now, key);
    }
  }

  lemma OpeningCounts(h: seq<Request>)
    requires Clocked(h) && Opens(h)
    ensures var last := h[|h| - 1];
            Counted(After(h), last.key, last.now, last.now, Admissions(h, last.key, last.now))
  {
    var before := h[..|h| - 1];
    var last := h[|h| - 1];
    if before != [] {
      assert before[|before| - 1] == h[|h| - 2];
      RunRemembered(before, last.key, last.now);
    }
  }

  lemma {:induction false} RunCounted(h: seq<Request>, opening: nat)
    requires Clocked(h) && 0 < opening <= |h| && Opens(h[..opening])
    ensures var first := h[opening - 1];
            Counted(After(h), first.key, first.now, h[|h| - 1].now, Admissions(h, first.key, first.now))
    decreases |h|
  {
    hide Consumed, Counted, InWindow, Opens;
    var first := h[opening - 1];
    if opening == |h| {
      assert h[..opening] == h;
      OpeningCounts(h);
    } else {
      var before := h[..|h| - 1];
      assert before[..opening] == h[..opening] && before[|before| - 1] == h[|h| - 2];
      RunCounted(before, opening);
      CountAdvances(After(before), first.key, first.now, before[|before| - 1].now,
                    Admissions(before, first.key, first.now), h[|h| - 1]);
    }
  }

  // From the request that opens a window on, a key is admitted at most twelve times in it.
  lemma AtMostTwelvePerWindow(h: seq<Request>, opening: nat)
    requires Clocked(h) && 0 < opening <= |h| && Opens(h[..opening])
    ensures Admissions(h, h[opening - 1].key, h[opening - 1].now) <= MAX_PER_WINDOW
  {
    RunCounted(h, opening);
  }

  // ----- The bound is reached -----------------------------------------------------------

  function Burst(key: string, now: int, n: nat): (b: seq<Request>)
    ensures |b| == n && forall i :: 0 <= i < n ==> b[i] == Request(key, now)
  {
    seq(n, _ => Request(key, now))
  }

  lemma NextAdmitted(h: seq<Request>, key: string, now: int, from: int)
    requires key in After(h) && !Stale(After(h)[key], now) && After(h)[key].count < MAX_PER_WINDOW
    ensures var e, all := After(h)[key], h + [Request(key, now)];
            && key in After(all) && After(all)[key] == Entry(e.count + 1, e.startedAt)
            && Admissions(all, key, from) == Admissions(h, key, from) + if InWindow(now, from) then 1 else 0
  {
    var all := h + [Request(key, now)];
    assert all[..|all| - 1] == h;
  }

  // Requests that fit in an open window are all admitted.
  lemma {:induction false} BurstAdmitted(h: seq<Request>, key: string, now: int, n: nat, from: int)
    requires key in After(h) && !Stale(After(h)[key], now) && After(h)[key].count + n <= MAX_PER_WINDOW
    ensures var e, all := After(h)[key], h + Burst(key, now, n);
            && key in After(all) && After(all)[key] == Entry(e.count + n, e.startedAt)
            && Admissions(all, key, from) == Admissions(h, key, from) + if InWindow(now, from) then n else 0
  {
    hide Consumed, After, Admissions, InWindow;
    var all := h + Burst(key, now, n);
    if n == 0 {
      assert all == h;
    } else {
      BurstAdmitted(h, key, now, n - 1, from);
      var before := h + Burst(key, now, n - 1);
      NextAdmitted(before, key, now, from);
      assert all == before + [Request(key, now)];
    }
  }

  lemma OpeningAdmitted(h: seq<Request>, key: string, now: int, from: int)
    requires if key in After(h) then Stale(After(h)[key], now) else |After(h)| < MAX_KEYS
    ensures key in After(h + [Request(key, now)]) && After(h + [Request(key, now)])[key] == Entry(1, now)
    ensures Admissions(h + [Request(key, now)], key, from) == Admissions(h, key, from) + if InWindow(now, from) then
              1 else 0
  {
    var all := h + [Request(key, now)];
    assert all[..|all| - 1] == h;
  }

  // One request, then eleven just before the window ends, then twelve as the next begins.
  function Worst(key: string, start: int): seq<Request> {
    [Request(key, start)] + Burst(key, start + WINDOW_MS - 1, 11) + [Request(key, start + WINDOW_MS)]
    + Burst(key, start + WINDOW_MS, 11)
  }

  lemma TwentyThreeHappens(key: string, start: int)
    ensures Clocked(Worst(key, start))
    ensures Admissions(Worst(key, start), key, start + 1) == 2 * MAX_PER_WINDOW - 1
  {
    hide Consumed, After, Admissions;
    var from := start + 1;
    var a := [] + [Request(key, start)];
    var b := a + Burst(key, start + WINDOW_MS - 1, 11);
    var c := b + [Request(key, start + WINDOW_MS)];
    NothingYet(key, from);
    OpeningAdmitted([], key, start, from);
    BurstAdmitted(a, key, start + WINDOW_MS - 1, 11, from);
    OpeningAdmitted(b, key, start + WINDOW_MS, from);
    BurstAdmitted(c, key, start + WINDOW_MS, 11, from);
    assert Worst(key, start) == c + Burst(key, start + WINDOW_MS, 11);
  }

  lemma NothingYet(key: string, from: int)
    ensures After([]) == map[] && Admissions([], key, from) == 0
  {
  }
}
