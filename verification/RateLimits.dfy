// The rate limiter: one Redis counter per identifier and aligned window. The repository's README.md
// calls it a sliding window; the code counts in fixed windows.
module RateLimits {
  import opened Options
  import opened Decimals

  datatype Counter = Counter(count: nat, expires: nat)

  type Store = map<string, Counter>

  datatype Verdict = Verdict(allowed: bool, remaining: nat, resetAt: nat)

  datatype Status = Status(count: nat, remaining: nat, resetAt: nat)

  datatype Category = Auth | Gps | General

  // RATE_LIMIT_MAX_*_REQUESTS and RATE_LIMIT_TTL.
  datatype Limits = Limits(auth: nat, gps: nat, general: nat, seconds: nat) {
    predicate Valid() {
      seconds > 0
    }

    function Max(c: Category): nat {
      match c case Auth => auth case Gps => gps case General => general
    }

    // The window in milliseconds.
    function Width(): nat {
      seconds * 1000
    }
  }

  function Prefix(c: Category): string {
    match c case Auth => "auth:" case Gps => "gps:" case General => "general:"
  }

  // Windows are numbered from the epoch; window w covers [Start(w), Start(w + 1)).
  function Window(at: nat, width: nat): nat
    requires width > 0
  {
    at / width
  }

  function Start(w: nat, width: nat): nat {
    w * width
  }

  function Key(identifier: string, window: nat): string {
    "ratelimit:" + identifier + ":" + Decimal(window)
  }

  // Redis drops a key once its time to live has passed.
  function Unexpired(store: Store, now: nat): Store {
    map k | k in store && now < store[k].expires :: store[k]
  }

  function Increment(store: Store, key: string, now: nat, seconds: nat): Store {
    var live := Unexpired(store, now);
    var count := if key in live then live[key].count + 1 else 1;
    live[key := Counter(count, if count == 1 then now + seconds * 1000 else live[key].expires)]
  }

  function Remaining(max: nat, count: nat): nat {
    if count < max then max - count else 0
  }

  // ceil(now / width) * width
  function ResetAt(now: nat, width: nat): nat
    requires width > 0
  {
    (now + width - 1) / width * width
  }

  function Judge(count: nat, max: nat, now: nat, width: nat): Verdict
    requires width > 0
  {
    Verdict(count <= max, Remaining(max, count), ResetAt(now, width))
  }

  // getRateLimitStatus
  function StatusOf(store: Store, identifier: string, seconds: nat, max: nat, now: nat): Status
    requires seconds > 0
  {
    var width := seconds * 1000;
    var live, key := Unexpired(store, now), Key(identifier, Window(now, width));
    var count := if key in live then live[key].count else 0;
    Status(count, Remaining(max, count), ResetAt(now, width))
  }

  // ceil(ms / 1000), also below zero
  function CeilSeconds(ms: int): int {
    -((-ms) / 1000)
  }

  datatype Reply = Reply(verdict: Verdict, retryAfter: Option<int>)

  // What the service answers; later is its second reading of the clock.
  function ReplyOf(v: Verdict, later: nat): Reply {
    Reply(v, if v.allowed then None else Some(CeilSeconds(v.resetAt - later)))
  }

  class RateLimiter {
    var store: Store

    constructor ()
      ensures store == map[]
    {
      store := map[];
    }

    // The clock is read at now; INCR is executed at done, and sets the time to live when it is the first.
    method CheckRateLimit(identifier: string, max: nat, seconds: nat, now: nat, done: nat) returns (v: Verdict)
      requires seconds > 0
      modifies this
      ensures var key := Key(identifier, Window(now, seconds * 1000));
              store == Increment(old(store), key, done, seconds) &&
              v == Judge(store[key].count, max, now, seconds * 1000)
    {
      var key := Key(identifier, Window(now, seconds * 1000));
      store := Unexpired(store, done);
      var count := if key in store then store[key].count + 1 else 1;
      store := store[key := Counter(count, if count == 1 then 0 else store[key].expires)];
      if count == 1 {
        store := store[key := Counter(1, done + seconds * 1000)];
      }
      v := Verdict(count <= max, if count < max then max - count else 0, ResetAt(now, seconds * 1000));
    }

    method GetRateLimitStatus(identifier: string, seconds: nat, max: nat, now: nat) returns (r: Status)
      requires seconds > 0
      ensures r == StatusOf(store, identifier, seconds, max, now)
    {
      var key := Key(identifier, Window(now, seconds * 1000));
      if key !in store || store[key].expires <= now {
        r := Status(0, max, ResetAt(now, seconds * 1000));
      } else {
        var count := store[key].count;
        r := Status(count, if count < max then max - count else 0, ResetAt(now, seconds * 1000));
      }
    }
  }

  // checkAuthRateLimit, checkGpsRateLimit and checkGeneralRateLimit.
  method CheckCategory(limiter: RateLimiter, limits: Limits, c: Category, identifier: string,
                       now: nat, done: nat, later: nat)
    returns (r: Reply)
    requires limits.Valid()
    modifies limiter
    ensures var (store, v) := Serve(old(limiter.store), limits, Hit(c, identifier, now, done));
            limiter.store == store && r == ReplyOf(v, later)
    ensures r.retryAfter.Some? <==> !r.verdict.allowed
  {
    var v := limiter.CheckRateLimit(Prefix(c) + identifier, limits.Max(c), limits.seconds, now, done);
    r := Reply(v, if v.allowed then None else Some(CeilSeconds(v.resetAt - later)));
  }

  // ---- Any sequence of checks ----

  // A check that read the clock at one time and had its INCR executed at another.
  datatype Hit = Hit(category: Category, identifier: string, at: nat, done: nat)

  function KeyOf(limits: Limits, h: Hit): string
    requires limits.Valid()
  {
    Key(Prefix(h.category) + h.identifier, Window(h.at, limits.Width()))
  }

  function Serve(store: Store, limits: Limits, h: Hit): (Store, Verdict)
    requires limits.Valid()
  {
    var store' := Increment(store, KeyOf(limits, h), h.done, limits.seconds);
    (store', Judge(store'[KeyOf(limits, h)].count, limits.Max(h.category), h.at, limits.Width()))
  }

  // The store after the checks, from an empty one.
  function StoreAfter(hits: seq<Hit>, limits: Limits): Store
    requires limits.Valid()
  {
    if hits == [] then map[] else Serve(StoreAfter(hits[..|hits| - 1], limits), limits, hits[|hits| - 1]).0
  }

  function AnswerTo(hits: seq<Hit>, limits: Limits, i: nat): Verdict
    requires limits.Valid() && i < |hits|
  {
    Serve(StoreAfter(hits[..i], limits), limits, hits[i]).1
  }

  // The order in which Redis executes them; the clocks may have been read in another.
  predicate InOrder(hits: seq<Hit>) {
    (forall h <- hits :: h.at <= h.done) &&
    forall i, j | 0 <= i < j < |hits| :: hits[i].done <= hits[j].done
  }

  predicate SameWindow(limits: Limits, g: Hit, h: Hit)
    requires limits.Valid()
  {
    g.category == h.category && g.identifier == h.identifier && Window(g.at, limits.Width()) == Window(h.at, limits.Width())
  }

  // No check is executed a window's length or more after another of its window.
  predicate InTime(hits: seq<Hit>, limits: Limits)
    requires limits.Valid()
  {
    forall i, j | 0 <= i < j < |hits| && SameWindow(limits, hits[i], hits[j]) ::
      hits[j].done < hits[i].done + limits.Width()
  }

  // When the counter of h's window expires: a window's length after the first check of the window.
  function Expiry(hits: seq<Hit>, limits: Limits, h: Hit): Option<nat>
    requires limits.Valid()
  {
    if hits == [] then None
    else
      var n := |hits| - 1;
      var e := Expiry(hits[..n], limits, h);
      if e.None? && SameWindow(limits, hits[n], h) then Some(hits[n].done + limits.Width()) else e
  }

  // The hits of h's category and identifier in h's window.
  function Load(hits: seq<Hit>, limits: Limits, h: Hit): nat
    requires limits.Valid()
  {
    if hits == [] then 0
    else
      var n := |hits| - 1;
      Load(hits[..n], limits, h) + (if SameWindow(limits, hits[n], h) then 1 else 0)
  }

  lemma NoColonAfter(a: string, x: string)
    requires Numeral(x)
    ensures forall k | |a| < k < |a| + 1 + |x| :: (a + ":" + x)[k] != ':'
  {
    forall k | |a| < k < |a| + 1 + |x| ensures (a + ":" + x)[k] != ':' {
      assert (a + ":" + x)[k] == x[k - |a| - 1];
    }
  }

  lemma TailAfterColon(a: string, b: string, x: string, y: string)
    requires a + ":" + x == b + ":" + y && Numeral(x) && Numeral(y)
    ensures a == b && x == y
  {
    var s, t := a + ":" + x, b + ":" + y;
    NoColonAfter(a, x);
    NoColonAfter(b, y);
    assert s[|a|] == ':' && t[|b|] == ':';
    assert |a| == |b|;
    assert a == s[..|a|] && b == t[..|b|];
    assert x == s[|a| + 1..] && y == t[|b| + 1..];
  }

  lemma PrefixesDiffer(c: Category, d: Category, a: string, b: string)
    requires Prefix(c) + a == Prefix(d) + b
    ensures c == d && a == b
  {
    var s, t := Prefix(c) + a, Prefix(d) + b;
    assert s[1] == Prefix(c)[1] && t[1] == Prefix(d)[1];
    assert a == s[|Prefix(c)|..];
  }

  // Two checks share a counter exactly when category, identifier and window agree, colons or not.
  lemma CountersAreSeparate(limits: Limits, g: Hit, h: Hit)
    requires limits.Valid()
    ensures KeyOf(limits, g) == KeyOf(limits, h) <==> SameWindow(limits, g, h)
  {
    if KeyOf(limits, g) == KeyOf(limits, h) {
      var a, b := Prefix(g.category) + g.identifier, Prefix(h.category) + h.identifier;
      var x, y := Decimal(Window(g.at, limits.Width())), Decimal(Window(h.at, limits.Width()));
      var p := "ratelimit:";
      assert KeyOf(limits, g) == p + (a + ":" + x) && KeyOf(limits, h) == p + (b + ":" + y);
      assert (a + ":" + x) == KeyOf(limits, g)[|p|..];
      assert (b + ":" + y) == KeyOf(limits, h)[|p|..];
      TailAfterColon(a, b, x, y);
      PrefixesDiffer(g.category, h.category, g.identifier, h.identifier);
      DecimalIsInjective(Window(g.at, limits.Width()), Window(h.at, limits.Width()));
    }
  }

  predicate Holds(store: Store, key: string, load: nat, expiry: Option<nat>) {
    match expiry
    case None => load == 0 && key !in store
    case Some(e) => load > 0 && key in store && store[key] == Counter(load, e)
  }

  // The counter of h's key holds the load of h's window and the window's expiry.
  predicate Counts(hits: seq<Hit>, limits: Limits, store: Store, h: Hit)
    requires limits.Valid()
  {
    Holds(store, KeyOf(limits, h), Load(hits, limits, h), Expiry(hits, limits, h))
  }

  // The counter of h's window has not expired yet.
  predicate Lasts(hits: seq<Hit>, limits: Limits, h: Hit)
    requires limits.Valid()
  {
    var e := Expiry(hits, limits, h);
    e.Some? ==> forall g <- hits :: g.done < e.value
  }

  lemma WindowEnds(at: nat, width: nat)
    requires width > 0
    ensures Start(Window(at, width), width) <= at < Start(Window(at, width) + 1, width) <= at + width
    ensures Start(Window(at, width) + 1, width) == Start(Window(at, width), width) + width
  {
    assert at == at / width * width + at % width;
  }

  lemma IncrementHolds(store: Store, hit: string, key: string, done: nat, seconds: nat, load: nat, expiry: Option<nat>)
    requires Holds(store, key, load, expiry) && (expiry.Some? ==> done < expiry.value)
    ensures Holds(Increment(store, hit, done, seconds), key, load + (if hit == key then 1 else 0),
                  if expiry.None? && hit == key then Some(done + seconds * 1000) else expiry)
  {
  }

  lemma LastHit(hits: seq<Hit>, limits: Limits, h: Hit)
    requires limits.Valid() && hits != []
    ensures var g, before := hits[|hits| - 1], hits[..|hits| - 1];
            var e := Expiry(before, limits, h);
            Load(hits, limits, h) == Load(before, limits, h) + (if SameWindow(limits, g, h) then 1 else 0) &&
            Expiry(hits, limits, h)
            == (if e.None? && SameWindow(limits, g, h) then Some(g.done + limits.seconds * 1000) else e) &&
            StoreAfter(hits, limits) == Increment(StoreAfter(before, limits), KeyOf(limits, g), g.done, limits.seconds)
  {
  }

  lemma HitKeepsCounts(hits: seq<Hit>, limits: Limits, h: Hit)
    requires limits.Valid() && hits != [] && Counts(hits[..|hits| - 1], limits, StoreAfter(hits[..|hits| - 1], limits), h)
    requires var e := Expiry(hits[..|hits| - 1], limits, h); e.Some? ==> hits[|hits| - 1].done < e.value
    ensures Counts(hits, limits, StoreAfter(hits, limits), h)
  {
    hide Window, KeyOf, Increment, Holds, Load, StoreAfter, Expiry;
    LastHit(hits, limits, h);
    var g, before := hits[|hits| - 1], hits[..|hits| - 1];
    CountersAreSeparate(limits, g, h);
    IncrementHolds(StoreAfter(before, limits), KeyOf(limits, g), KeyOf(limits, h), g.done, limits.seconds,
                   Load(before, limits, h), Expiry(before, limits, h));
  }

  // As long as the counter of h's window has not expired, it is exact, and its time to live is that of the
  // window's first check.
  lemma {:induction false} CountersAreExact(hits: seq<Hit>, limits: Limits, h: Hit)
    requires limits.Valid() && Lasts(hits, limits, h)
    ensures Counts(hits, limits, StoreAfter(hits, limits), h)
  {
    if hits != [] {
      hide Counts, Window;
      assert forall g <- hits[..|hits| - 1] :: g in hits;
      CountersAreExact(hits[..|hits| - 1], limits, h);
      HitKeepsCounts(hits, limits, h);
    } else {
      assert StoreAfter(hits, limits) == map[];
    }
  }

  // The expiry is that of one of the hits, the first of the window.
  lemma {:induction false} ExpiryIsOfTheFirst(hits: seq<Hit>, limits: Limits, h: Hit) returns (k: nat)
    requires limits.Valid()
    ensures var e := Expiry(hits, limits, h);
            if e.None? then Load(hits, limits, h) == 0 && forall g <- hits :: !SameWindow(limits, g, h)
            else k < |hits| && SameWindow(limits, hits[k], h) && e.value == hits[k].done + limits.Width() &&
                 Load(hits, limits, h) > 0 && forall i | 0 <= i < |hits| && SameWindow(limits, hits[i], h) :: k <= i
  {
    hide SameWindow;
    k := 0;
    if hits != [] {
      var n := |hits| - 1;
      k := ExpiryIsOfTheFirst(hits[..n], limits, h);
      assert forall i | 0 <= i < n :: hits[..n][i] == hits[i];
      if Expiry(hits[..n], limits, h).None? && SameWindow(limits, hits[n], h) {
        k := n;
      }
      assert hits == hits[..n] + [hits[n]];
    }
  }

  // What comes before the i-th check in time leaves its counter unexpired.
  lemma EarlierHitsLast(hits: seq<Hit>, limits: Limits, i: nat)
    requires limits.Valid() && InOrder(hits) && InTime(hits, limits) && i < |hits|
    ensures Lasts(hits[..i], limits, hits[i])
    ensures var e := Expiry(hits[..i], limits, hits[i]); e.Some? ==> hits[i].done < e.value
  {
    hide SameWindow, Expiry, Load;
    var k := ExpiryIsOfTheFirst(hits[..i], limits, hits[i]);
    forall g <- hits[..i] ensures g.done <= hits[i].done {
      var j :| 0 <= j < i && hits[..i][j] == g;
    }
  }

  // The number the i-th check gets from INCR.
  function CountAt(hits: seq<Hit>, limits: Limits, i: nat): nat
    requires limits.Valid() && i < |hits|
  {
    Serve(StoreAfter(hits[..i], limits), limits, hits[i]).0[KeyOf(limits, hits[i])].count
  }

  lemma IncrementCounts(store: Store, key: string, done: nat, seconds: nat, load: nat, expiry: Option<nat>)
    requires Holds(store, key, load, expiry)
    ensures Increment(store, key, done, seconds)[key].count
            == if expiry.Some? && done >= expiry.value then 1 else load + 1
  {
  }

  lemma CountInTime(hits: seq<Hit>, limits: Limits, i: nat)
    requires limits.Valid() && InOrder(hits) && InTime(hits, limits) && i < |hits|
    ensures CountAt(hits, limits, i) == Load(hits[..i], limits, hits[i]) + 1
  {
    hide KeyOf, InOrder, InTime, StoreAfter, Load, Holds, Increment, Expiry;
    var h, before := hits[i], hits[..i];
    EarlierHitsLast(hits, limits, i);
    CountersAreExact(before, limits, h);
    IncrementCounts(StoreAfter(before, limits), KeyOf(limits, h), h.done, limits.seconds, Load(before, limits, h),
                    Expiry(before, limits, h));
  }

  // The i-th check passes exactly when fewer than the limit came before it in its window: other
  // identifiers, categories and windows never change an answer, and neither does the order of execution.
  lemma AnswersCountTheWindow(hits: seq<Hit>, limits: Limits, i: nat)
    requires limits.Valid() && InOrder(hits) && InTime(hits, limits) && i < |hits|
    ensures var h, v := hits[i], AnswerTo(hits, limits, i);
            var load := Load(hits[..i], limits, h);
            var max := limits.Max(h.category);
            (v.allowed <==> load < max) && v.remaining == (if load + 1 < max then max - load - 1 else 0) &&
            v.resetAt == if h.at % limits.Width() == 0 then h.at else Start(Window(h.at, limits.Width()) + 1, limits.Width())
  {
    hide KeyOf, InOrder, InTime, StoreAfter, Load, Increment, ResetAt, Window, Start;
    ResetIsTheWindowsEnd(hits[i].at, limits.Width());
    BoundaryIff(hits[i].at, limits.Width());
    CountInTime(hits, limits, i);
  }

  // ---- a counter restarted by a late check ----

  // While all checks are in time, a counter that is there still carries the expiry of its first.
  lemma {:induction false} KeptExpiry(hits: seq<Hit>, limits: Limits, h: Hit)
    requires limits.Valid() && InOrder(hits) && InTime(hits, limits)
    ensures var store, key := StoreAfter(hits, limits), KeyOf(limits, h);
            key in store ==> Expiry(hits, limits, h) == Some(store[key].expires)
  {
    if hits != [] {
      hide KeyOf, InOrder, InTime, Load, Increment, Expiry, Window;
      var n := |hits| - 1;
      var g, before := hits[n], hits[..n];
      OrderPrefix(hits, limits, n);
      LastHit(hits, limits, h);
      CountersAreSeparate(limits, g, h);
      if SameWindow(limits, g, h) {
        EarlierHitsLast(hits, limits, n);
        SameExpiry(before, limits, g, h);
        CountersAreExact(before, limits, g);
        HitKeepsCounts(hits, limits, g);
        SameExpiry(hits, limits, g, h);
      } else {
        KeptExpiry(before, limits, h);
        OtherKeysStay(StoreAfter(before, limits), KeyOf(limits, g), KeyOf(limits, h), g.done, limits.seconds);
      }
    }
  }

  lemma OtherKeysStay(store: Store, hit: string, key: string, done: nat, seconds: nat)
    requires hit != key
    ensures var store' := Increment(store, hit, done, seconds);
            key in store' ==> key in store && store'[key] == store[key]
  {
  }

  lemma {:induction false} SameExpiry(hits: seq<Hit>, limits: Limits, g: Hit, h: Hit)
    requires limits.Valid() && SameWindow(limits, g, h)
    ensures Expiry(hits, limits, g) == Expiry(hits, limits, h)
  {
    if hits != [] {
      hide Window;
      SameExpiry(hits[..|hits| - 1], limits, g, h);
    }
  }

  // A check executed after its counter has expired starts it again from 1.
  lemma LateCheckRestarts(hits: seq<Hit>, limits: Limits, i: nat, n: nat)
    requires limits.Valid() && InOrder(hits) && i < n < |hits| && InTime(hits[..n], limits)
    requires SameWindow(limits, hits[i], hits[n]) && hits[n].done >= hits[i].done + limits.Width()
    ensures CountAt(hits, limits, n) == 1 && Load(hits[..n], limits, hits[n]) >= 1
  {
    hide KeyOf, Load, Expiry, Window, StoreAfter, InTime, InOrder;
    OrderPrefix(hits, limits, n);
    var before, h := hits[..n], hits[n];
    KeptExpiry(before, limits, h);
    var k := ExpiryIsOfTheFirst(before, limits, h);
    assert before[i] == hits[i] && before[i] in before;
    OrderedBy(before, k, i);
  }

  lemma OrderedBy(hits: seq<Hit>, k: nat, i: nat)
    requires InOrder(hits) && k <= i < |hits|
    ensures hits[k].done <= hits[i].done
  {
  }

  predicate AllCounted(hits: seq<Hit>, limits: Limits)
    requires limits.Valid()
  {
    forall i | 0 <= i < |hits| :: CountAt(hits, limits, i) == Load(hits[..i], limits, hits[i]) + 1
  }

  lemma LastInTime(hits: seq<Hit>, limits: Limits, n: nat)
    requires limits.Valid() && n + 1 == |hits| && InTime(hits[..n], limits)
    requires forall i | 0 <= i < n && SameWindow(limits, hits[i], hits[n]) :: hits[n].done < hits[i].done + limits.Width()
    ensures InTime(hits, limits)
  {
    hide SameWindow;
    assert forall i | 0 <= i < n :: hits[..n][i] == hits[i];
  }

  lemma {:induction false} CountedIsInTime(hits: seq<Hit>, limits: Limits)
    requires limits.Valid() && InOrder(hits) && AllCounted(hits, limits)
    ensures InTime(hits, limits)
  {
    hide CountAt, Load, InOrder, InTime, SameWindow, AllCounted;
    if hits != [] {
      var n := |hits| - 1;
      OrderPrefix(hits, limits, n);
      CountedPrefix(hits, limits, n);
      CountedIsInTime(hits[..n], limits);
      forall i | 0 <= i < n && SameWindow(limits, hits[i], hits[n]) ensures hits[n].done < hits[i].done + limits.Width() {
        if hits[n].done >= hits[i].done + limits.Width() {
          LateCheckRestarts(hits, limits, i, n);
          CountedAt(hits, limits, n);
        }
      }
      LastInTime(hits, limits, n);
    } else {
      NoneInTime(limits);
    }
  }

  lemma NoneInTime(limits: Limits)
    requires limits.Valid()
    ensures InTime([], limits)
  {
  }

  lemma CountedAt(hits: seq<Hit>, limits: Limits, i: nat)
    requires limits.Valid() && AllCounted(hits, limits) && i < |hits|
    ensures CountAt(hits, limits, i) == Load(hits[..i], limits, hits[i]) + 1
  {
  }

  lemma CountedPrefix(hits: seq<Hit>, limits: Limits, n: nat)
    requires limits.Valid() && n <= |hits| && AllCounted(hits, limits)
    ensures AllCounted(hits[..n], limits)
  {
    hide CountAt, Load;
    forall i | 0 <= i < n ensures CountAt(hits[..n], limits, i) == Load(hits[..n][..i], limits, hits[..n][i]) + 1 {
      CountOfPrefix(hits, limits, n, i);
      assert hits[..n][..i] == hits[..i];
    }
  }

  lemma CountOfPrefix(hits: seq<Hit>, limits: Limits, n: nat, i: nat)
    requires limits.Valid() && i < n <= |hits|
    ensures CountAt(hits[..n], limits, i) == CountAt(hits, limits, i)
  {
    assert hits[..n][..i] == hits[..i];
  }

  // For any checks in any order of execution: every check is counted after all earlier ones of its window
  // exactly when none is executed a window's length or more after another of its window.
  lemma ChecksAreCountedIff(hits: seq<Hit>, limits: Limits)
    requires limits.Valid() && InOrder(hits)
    ensures AllCounted(hits, limits) <==> InTime(hits, limits)
  {
    hide CountAt, Load, InOrder;
    if AllCounted(hits, limits) {
      CountedIsInTime(hits, limits);
    }
    if InTime(hits, limits) {
      forall i | 0 <= i < |hits| ensures CountAt(hits, limits, i) == Load(hits[..i], limits, hits[i]) + 1 {
        CountInTime(hits, limits, i);
      }
    }
  }

  // Checks executed before their window is over are in time, whatever the order.
  lemma PromptChecksAreInTime(hits: seq<Hit>, limits: Limits)
    requires limits.Valid() && InOrder(hits)
    requires forall h <- hits :: h.done < Start(Window(h.at, limits.Width()) + 1, limits.Width())
    ensures InTime(hits, limits)
  {
    hide Start, Window;
    forall i, j | 0 <= i < j < |hits| && SameWindow(limits, hits[i], hits[j])
      ensures hits[j].done < hits[i].done + limits.Width()
    {
      WindowEnds(hits[i].at, limits.Width());
    }
  }

  // Asked later in the same window, the status reports what the checks so far have counted.
  lemma StatusReportsTheLoad(hits: seq<Hit>, limits: Limits, h: Hit)
    requires limits.Valid() && InOrder(hits) && forall g <- hits :: g.done <= h.at
    ensures var r := StatusOf(StoreAfter(hits, limits), Prefix(h.category) + h.identifier, limits.seconds,
                              limits.Max(h.category), h.at);
            var max := limits.Max(h.category);
            r.count == Load(hits, limits, h) && r.remaining == (if r.count < max then max - r.count else 0) &&
            r.resetAt == if h.at % limits.Width() == 0 then h.at else Start(Window(h.at, limits.Width()) + 1, limits.Width())
  {
    ResetIsTheWindowsEnd(h.at, limits.Width());
    BoundaryIff(h.at, limits.Width());
    hide StoreAfter, Load, Expiry, ResetAt, Window, Start;
    var k := ExpiryIsOfTheFirst(hits, limits, h);
    WindowEnds(h.at, limits.Width());
    if Expiry(hits, limits, h).Some? {
      WindowEnds(hits[k].at, limits.Width());
      assert hits[k] in hits;
    }
    CountersAreExact(hits, limits, h);
  }

  // ---- How many pass in an interval ----

  predicate Falls(g: Hit, c: Category, identifier: string, lo: nat, hi: nat) {
    g.category == c && g.identifier == identifier && lo <= g.at < hi
  }

  function Arrived(hits: seq<Hit>, c: Category, identifier: string, lo: nat, hi: nat): nat {
    if hits == [] then 0
    else
      var n := |hits| - 1;
      Arrived(hits[..n], c, identifier, lo, hi) + (if Falls(hits[n], c, identifier, lo, hi) then 1 else 0)
  }

  function Passed(hits: seq<Hit>, limits: Limits, c: Category, identifier: string, lo: nat, hi: nat): nat
    requires limits.Valid()
  {
    if hits == [] then 0
    else
      var n := |hits| - 1;
      Passed(hits[..n], limits, c, identifier, lo, hi)
      + (if Falls(hits[n], c, identifier, lo, hi) && AnswerTo(hits, limits, n).allowed then 1 else 0)
  }

  function Min(a: nat, b: nat): nat {
    if a < b then a else b
  }

  lemma OrderPrefix(hits: seq<Hit>, limits: Limits, n: nat)
    requires limits.Valid() && InOrder(hits) && n <= |hits|
    ensures InOrder(hits[..n])
    ensures InTime(hits, limits) ==> InTime(hits[..n], limits)
  {
    hide SameWindow;
    assert forall i | 0 <= i < n :: hits[..n][i] == hits[i] && hits[i] in hits;
  }

  lemma StartsGrow(v: nat, w: nat, width: nat)
    requires v <= w
    ensures Start(v, width) <= Start(w, width)
    ensures Start(w, width) == Start(v, width) + Start(w - v, width)
  {
  }

  lemma InWindow(at: nat, w: nat, width: nat)
    requires width > 0
    ensures Start(w, width) <= at < Start(w + 1, width) <==> Window(at, width) == w
  {
    hide Start, Window;
    WindowEnds(at, width);
    var v := Window(at, width);
    if v < w {
      StartsGrow(v + 1, w, width);
    } else if v > w {
      StartsGrow(w + 1, v, width);
    }
  }

  lemma {:induction false} LoadIsArrived(hits: seq<Hit>, limits: Limits, h: Hit)
    requires limits.Valid()
    ensures var w := Window(h.at, limits.Width());
            Load(hits, limits, h) == Arrived(hits, h.category, h.identifier, Start(w, limits.Width()), Start(w + 1, limits.Width()))
  {
    if hits != [] {
      LoadIsArrived(hits[..|hits| - 1], limits, h);
      InWindow(hits[|hits| - 1].at, Window(h.at, limits.Width()), limits.Width());
    }
  }

  // An aligned window lets through exactly the first hits up to the limit.
  lemma {:induction false} WindowPassesTheFirst(hits: seq<Hit>, limits: Limits, c: Category, identifier: string, w: nat)
    requires limits.Valid() && InOrder(hits) && InTime(hits, limits)
    ensures var lo, hi := Start(w, limits.Width()), Start(w + 1, limits.Width());
            Passed(hits, limits, c, identifier, lo, hi) == Min(Arrived(hits, c, identifier, lo, hi), limits.Max(c))
  {
    hide Start, Window, AnswerTo, InOrder, InTime, Load;
    if hits != [] {
      var n := |hits| - 1;
      OrderPrefix(hits, limits, n);
      WindowPassesTheFirst(hits[..n], limits, c, identifier, w);
      AnswersCountTheWindow(hits, limits, n);
      LoadIsArrived(hits[..n], limits, hits[n]);
      InWindow(hits[n].at, w, limits.Width());
    }
  }

  // Each category has its own limit: logins that of auth, position pings that of gps, the rest the general one.
  lemma CategoriesHaveTheirLimits(hits: seq<Hit>, limits: Limits, identifier: string, w: nat)
    requires limits.Valid() && InOrder(hits) && InTime(hits, limits)
    ensures var lo, hi := Start(w, limits.Width()), Start(w + 1, limits.Width());
            Passed(hits, limits, Auth, identifier, lo, hi) == Min(Arrived(hits, Auth, identifier, lo, hi), limits.auth) &&
            Passed(hits, limits, Gps, identifier, lo, hi) == Min(Arrived(hits, Gps, identifier, lo, hi), limits.gps) &&
            Passed(hits, limits, General, identifier, lo, hi) == Min(Arrived(hits, General, identifier, lo, hi), limits.general)
  {
    hide Start, Passed, Arrived, InOrder, InTime;
    WindowPassesTheFirst(hits, limits, Auth, identifier, w);
    WindowPassesTheFirst(hits, limits, Gps, identifier, w);
    WindowPassesTheFirst(hits, limits, General, identifier, w);
  }

  lemma {:induction false} PassedSplits(hits: seq<Hit>, limits: Limits, c: Category, identifier: string,
                                        lo: nat, mid: nat, hi: nat)
    requires limits.Valid() && lo <= mid <= hi
    ensures Passed(hits, limits, c, identifier, lo, hi)
            == Passed(hits, limits, c, identifier, lo, mid) + Passed(hits, limits, c, identifier, mid, hi)
  {
    if hits != [] {
      PassedSplits(hits[..|hits| - 1], limits, c, identifier, lo, mid, hi);
    }
  }

  lemma {:induction false} WindowsPass(hits: seq<Hit>, limits: Limits, c: Category, identifier: string, w: nat, n: nat)
    requires limits.Valid() && InOrder(hits) && InTime(hits, limits)
    ensures Passed(hits, limits, c, identifier, Start(w, limits.Width()), Start(w + n, limits.Width())) <= n * limits.Max(c)
  {
    hide Start, Passed;
    var width := limits.Width();
    if n == 0 {
      PassedSplits(hits, limits, c, identifier, Start(w, width), Start(w, width), Start(w, width));
    } else {
      WindowsPass(hits, limits, c, identifier, w, n - 1);
      WindowPassesTheFirst(hits, limits, c, identifier, w + n - 1);
      StartsGrow(w, w + n - 1, width);
      StartsGrow(w + n - 1, w + n, width);
      PassedSplits(hits, limits, c, identifier, Start(w, width), Start(w + n - 1, width), Start(w + n, width));
      OneMore(n - 1, limits.Max(c));
    }
  }

  lemma OneMore(n: nat, m: nat)
    ensures (n + 1) * m == n * m + m
  {
  }

  // Any half-open interval as long as n windows, aligned or not, lets through at most (n + 1) limits' worth.
  lemma IntervalIsBounded(hits: seq<Hit>, limits: Limits, c: Category, identifier: string, a: nat, n: nat)
    requires limits.Valid() && InOrder(hits) && InTime(hits, limits)
    ensures Passed(hits, limits, c, identifier, a, a + Start(n, limits.Width())) <= (n + 1) * limits.Max(c)
  {
    hide Start, Passed, Window;
    var width := limits.Width();
    var w := Window(a, width);
    WindowEnds(a, width);
    var lo, hi, end := Start(w, width), a + Start(n, width), Start(w + n + 1, width);
    StartsGrow(w + 1, w + n + 1, width);
    WindowsPass(hits, limits, c, identifier, w, n + 1);
    PassedSplits(hits, limits, c, identifier, lo, a, end);
    PassedSplits(hits, limits, c, identifier, a, hi, end);
  }

  // ---- The bound is reached across a window boundary ----

  // m hits of one identifier at one instant.
  function Burst(c: Category, identifier: string, at: nat, m: nat): seq<Hit> {
    seq(m, _ => Hit(c, identifier, at, at))
  }

  lemma BurstIsEmpty(c: Category, identifier: string, at: nat)
    ensures Burst(c, identifier, at, 0) == []
  {
  }

  lemma BurstGrows(c: Category, identifier: string, at: nat, m: nat)
    ensures Burst(c, identifier, at, m + 1) == Burst(c, identifier, at, m) + [Hit(c, identifier, at, at)]
  {
  }

  lemma OneMoreArrives(hits: seq<Hit>, h: Hit, c: Category, identifier: string, lo: nat, hi: nat)
    ensures Arrived(hits + [h], c, identifier, lo, hi)
            == Arrived(hits, c, identifier, lo, hi) + (if Falls(h, c, identifier, lo, hi) then 1 else 0)
  {
    assert (hits + [h])[..|hits|] == hits;
  }

  lemma {:induction false} BurstArrives(before: seq<Hit>, c: Category, identifier: string, at: nat, m: nat, lo: nat, hi: nat)
    ensures Arrived(before + Burst(c, identifier, at, m), c, identifier, lo, hi)
            == Arrived(before, c, identifier, lo, hi) + (if lo <= at < hi then m else 0)
  {
    hide Burst, Arrived;
    if m == 0 {
      BurstIsEmpty(c, identifier, at);
      assert before + [] == before;
    } else {
      var init := before + Burst(c, identifier, at, m - 1);
      BurstArrives(before, c, identifier, at, m - 1, lo, hi);
      BurstGrows(c, identifier, at, m - 1);
      assert before + Burst(c, identifier, at, m) == init + [Hit(c, identifier, at, at)];
      OneMoreArrives(init, Hit(c, identifier, at, at), c, identifier, lo, hi);
    }
  }

  // A sliding window would let one limit's worth through in any interval of one window. Here twice the
  // limit passes within the last and the first millisecond of two neighbouring windows.
  lemma TwiceTheLimitPassesAtTheBoundary(limits: Limits, c: Category, identifier: string, w: nat)
    requires limits.Valid()
    ensures var width, m := limits.Width(), limits.Max(c);
            var end := Start(w + 1, width);
            end >= 1 &&
            var hits := Burst(c, identifier, end - 1, m) + Burst(c, identifier, end, m);
            InOrder(hits) && Passed(hits, limits, c, identifier, end - 1, end + 1) == 2 * m
  {
    hide Start, Passed, Arrived, Burst, InOrder, InTime, Window;
    var width, m := limits.Width(), limits.Max(c);
    var lo, end, hi := Start(w, width), Start(w + 1, width), Start(w + 2, width);
    StartsGrow(w, w + 1, width);
    StartsGrow(w + 1, w + 2, width);
    OneWindow(width);
    BurstsFit(limits, c, identifier, end, m);
    var first, second := Burst(c, identifier, end - 1, m), Burst(c, identifier, end, m);
    var hits := first + second;
    WindowPassesTheFirst(hits, limits, c, identifier, w);
    WindowPassesTheFirst(hits, limits, c, identifier, w + 1);
    BurstCounts(c, identifier, end, m, lo, end);
    BurstCounts(c, identifier, end, m, end, hi);
    OnlyTheBurst(hits, limits, c, identifier, end - 1, end + 1, lo, hi);
    PassedSplits(hits, limits, c, identifier, lo, end, hi);
  }

  lemma BurstsFit(limits: Limits, c: Category, identifier: string, end: nat, m: nat)
    requires limits.Valid() && end >= 1
    ensures var hits := Burst(c, identifier, end - 1, m) + Burst(c, identifier, end, m);
            InOrder(hits) && InTime(hits, limits) && forall g <- hits :: end - 1 <= g.at < end + 1
  {
    hide Window;
  }

  lemma OneWindow(width: nat)
    ensures Start(0, width) == 0 && Start(1, width) == width
  {
  }

  lemma BurstCounts(c: Category, identifier: string, end: nat, m: nat, lo: nat, hi: nat)
    requires end >= 1
    ensures Arrived(Burst(c, identifier, end - 1, m) + Burst(c, identifier, end, m), c, identifier, lo, hi)
            == (if lo <= end - 1 < hi then m else 0) + (if lo <= end < hi then m else 0)
  {
    var first := Burst(c, identifier, end - 1, m);
    BurstArrives(first, c, identifier, end, m, lo, hi);
    BurstArrives([], c, identifier, end - 1, m, lo, hi);
    assert [] + first == first;
  }

  // Widening the interval adds nothing where there are no hits.
  lemma {:induction false} OnlyTheBurst(hits: seq<Hit>, limits: Limits, c: Category, identifier: string,
                                        lo: nat, hi: nat, lo': nat, hi': nat)
    requires limits.Valid() && lo' <= lo && hi <= hi' && forall g <- hits :: lo <= g.at < hi
    ensures Passed(hits, limits, c, identifier, lo, hi) == Passed(hits, limits, c, identifier, lo', hi')
  {
    if hits != [] {
      OnlyTheBurst(hits[..|hits| - 1], limits, c, identifier, lo, hi, lo', hi');
    }
  }

  // ---- resetAt and retryAfter ----

  // resetAt is the end of the window, or the present moment when that is the start of a window.
  lemma ResetIsTheWindowsEnd(now: nat, width: nat)
    requires width > 0
    ensures ResetAt(now, width) == if now == Start(Window(now, width), width) then now else Start(Window(now, width) + 1, width)
  {
    WindowEnds(now, width);
    var w, r := now / width, now % width;
    assert now == width * w + r;
    if r == 0 {
      InWindow(now + width - 1, w, width);
    } else {
      InWindow(now + width - 1, w + 1, width);
    }
  }

  // When a refused caller comes back: after retryAfter seconds from the second clock reading, or at once
  // when that is not positive.
  function Back(reply: Reply, later: nat): nat
    requires reply.retryAfter.Some?
  {
    if reply.retryAfter.value > 0 then later + reply.retryAfter.value * 1000 else later
  }

  // Whatever the second reading of the clock, a refused caller who waits retryAfter reaches a fresh window,
  // unless it was refused at the very start of a window that still lasts: then it is told to come back at
  // once. The wait is positive exactly while resetAt is still ahead.
  lemma WaitingReachesAFreshWindowIff(hits: seq<Hit>, limits: Limits, i: nat, later: nat)
    requires limits.Valid() && i < |hits| && !AnswerTo(hits, limits, i).allowed && hits[i].at <= later
    ensures var now, width, v := hits[i].at, limits.Width(), AnswerTo(hits, limits, i);
            var reply := ReplyOf(v, later);
            reply.retryAfter.Some? && (reply.retryAfter.value > 0 <==> later < v.resetAt) &&
            v.resetAt <= later + reply.retryAfter.value * 1000 < v.resetAt + 1000 &&
            (Window(Back(reply, later), width) > Window(now, width)
             <==> now % width != 0 || Window(later, width) > Window(now, width))
  {
    hide StoreAfter, Window, Start;
    var now, width := hits[i].at, limits.Width();
    var reset := ResetAt(now, width);
    ResetIsTheWindowsEnd(now, width);
    BoundaryIff(now, width);
    WindowEnds(now, width);
    CeilCovers(reset - later);
    var back := Back(ReplyOf(AnswerTo(hits, limits, i), later), later);
    WindowsAreOrdered(later, back, width);
    if now % width != 0 {
      LaterWindow(now, back, width);
    }
  }

  lemma WindowsAreOrdered(a: nat, b: nat, width: nat)
    requires width > 0 && a <= b
    ensures Window(a, width) <= Window(b, width)
  {
    hide Start, Window;
    WindowEnds(a, width);
    WindowEnds(b, width);
    if Window(b, width) < Window(a, width) {
      StartsGrow(Window(b, width) + 1, Window(a, width), width);
    }
  }

  lemma CeilCovers(ms: int)
    ensures ms <= CeilSeconds(ms) * 1000 < ms + 1000
  {
  }

  lemma BoundaryIff(now: nat, width: nat)
    requires width > 0
    ensures now == Start(Window(now, width), width) <==> now % width == 0
  {
    assert now == width * (now / width) + now % width;
  }

  lemma LaterWindow(now: nat, later: nat, width: nat)
    requires width > 0 && later >= Start(Window(now, width) + 1, width)
    ensures Window(later, width) > Window(now, width)
  {
    hide Start, Window;
    WindowEnds(later, width);
    if Window(later, width) <= Window(now, width) {
      StartsGrow(Window(later, width) + 1, Window(now, width) + 1, width);
    }
  }
}
