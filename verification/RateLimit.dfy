/** The per-user rate limiter: a cache of token buckets whose idle entries are dropped. */
module RateLimit {
  import Sequences

  type User = string

  datatype Config = Config(rps: real, burst: int) {
    /** Tokens gained per second; a non-positive limit gains none. */
    function Rate(): real {
      if rps <= 0.0 then 0.0 else rps
    }
  }

  function Min(a: real, b: real): real {
    if a < b then a else b
  }

  /** The token bucket of golang.org/x/time/rate; times are seconds since the zero time. */
  datatype Bucket = Bucket(tokens: real, last: real) {
    function Available(c: Config, now: real): real {
      var since := if now < last then now else last;
      Min(c.burst as real, tokens + (now - since) * c.Rate())
    }

    predicate Allows(c: Config, now: real) {
      1 <= c.burst && Available(c, now) >= 1.0
    }

    function Take(c: Config, now: real): Bucket {
      if Allows(c, now) then Bucket(Available(c, now) - 1.0, now) else this
    }
  }

  function NewBucket(c: Config): Bucket {
    Bucket(c.burst as real, 0.0)
  }

  datatype Entry = Entry(bucket: Bucket, lastSeen: real)
  type Entries = map<User, Entry>

  const IDLE := 600.0   // 10 minutes
  const PERIOD := 300.0 // 5 minutes between cleanups

  function BucketOf(c: Config, entries: Entries, u: User): Bucket {
    if u in entries then entries[u].bucket else NewBucket(c)
  }

  function Seen(c: Config, entries: Entries, u: User, now: real): Entries {
    entries[u := Entry(BucketOf(c, entries, u).Take(c, now), now)]
  }

  function Evicted(entries: Entries, now: real): Entries {
    map u | u in entries && !(now - entries[u].lastSeen > IDLE) :: entries[u]
  }

  datatype Reply = Next | Unauthorized | TooMany(retryAfter: nat)

  class RateLimiter {
    var entries: Entries
    const config: Config

    constructor (rps: real, burst: int)
      ensures entries == map[] && config == Config(rps, burst)
    {
      entries := map[];
      config := Config(rps, burst);
    }

    /** Finds or creates the user's bucket and stamps it. */
    method Get(u: User, now: real)
      modifies this`entries
      ensures entries == old(entries)[u := Entry(BucketOf(config, old(entries), u), now)]
    {
      if u !in entries {
        entries := entries[u := Entry(NewBucket(config), 0.0)];
      }
      entries := entries[u := entries[u].(lastSeen := now)];
    }

    /** Get and Allow at one instant. */
    method Middleware(u: User, now: real) returns (reply: Reply)
      modifies this`entries
      ensures u == "" ==> reply == Unauthorized && entries == old(entries)
      ensures u != "" ==>
                && entries == Seen(config, old(entries), u, now)
                && reply == if BucketOf(config, old(entries), u).Allows(config, now) then Next else TooMany(60)
    {
      if u == "" {
        return Unauthorized;
      }
      Get(u, now);
      var e := entries[u];
      if e.bucket.Allows(config, now) {
        reply := Next;
      } else {
        reply := TooMany(60);
      }
      entries := entries[u := Entry(e.bucket.Take(config, now), e.lastSeen)];
    }

    /** One round of the cleanup loop. */
    method Cleanup(now: real)
      modifies this`entries
      ensures entries == Evicted(old(entries), now)
      ensures forall u :: u in entries <==> u in old(entries) && now - old(entries)[u].lastSeen <= 600.0
      ensures forall u | u in entries :: entries[u] == old(entries)[u]
    {
      var left := entries.Keys;
      while left != {}
        invariant left <= old(entries).Keys
        invariant entries == map u | u in old(entries) && (u in left || !(now - old(entries)[u].lastSeen > IDLE)) ::
                               old(entries)[u]
        decreases left
      {
        var id :| id in left;
        if now - entries[id].lastSeen > IDLE {
          entries := entries - {id};
        }
        left := left - {id};
      }
    }
  }

  // ----- Runs -------------------------------------------------------------------------------------

  datatype Event = Request(user: User, at: real) | Tick(at: real)

  /** Times never go back, and none precedes the zero time. */
  predicate InTime(events: seq<Event>) {
    && (events != [] ==> events[0].at >= 0.0)
    && forall i | 0 < i < |events| :: events[i - 1].at <= events[i].at
  }

  function Step(c: Config, evicting: bool, entries: Entries, e: Event): Entries {
    match e
    case Request(u, now) => Seen(c, entries, u, now)
    case Tick(now) => if evicting then Evicted(entries, now) else entries
  }

  function After(c: Config, evicting: bool, events: seq<Event>): Entries
    decreases |events|
  {
    if events == [] then map[]
    else Step(c, evicting, After(c, evicting, events[..|events| - 1]), events[|events| - 1])
  }

  /** Whether event `i` is a request that gets through. */
  predicate Admitted(c: Config, evicting: bool, events: seq<Event>, i: nat)
    requires i < |events|
  {
    events[i].Request? &&
    BucketOf(c, After(c, evicting, events[..i]), events[i].user).Allows(c, events[i].at)
  }

  function Clock(events: seq<Event>): real {
    if events == [] then 0.0 else events[|events| - 1].at
  }

  // ----- What the cache remembers is enough ----------------------------------------------------------

  predicate Sound(c: Config, e: Entry, now: real) {
    && 0.0 <= e.bucket.last <= e.lastSeen <= now
    && (e.bucket.tokens >= 0.0 || e.bucket.tokens == c.burst as real)
    && e.bucket.tokens <= c.burst as real
  }

  predicate AllSound(c: Config, entries: Entries, now: real) {
    forall u | u in entries :: Sound(c, entries[u], now)
  }

  lemma NonNegativeProduct(a: real, b: real)
    requires a >= 0.0 && b >= 0.0
    ensures a * b >= 0.0
  {
  }

  lemma TakeIsSound(c: Config, e: Entry, was: real, now: real)
    requires Sound(c, e, was) && was <= now
    ensures Sound(c, Entry(e.bucket.Take(c, now), now), now)
  {
  }

  lemma {:induction false} AfterIsSound(c: Config, evicting: bool, events: seq<Event>)
    requires InTime(events)
    ensures AllSound(c, After(c, evicting, events), Clock(events)) && Clock(events) >= 0.0
    decreases |events|
  {
    if events != [] {
      var front, e := events[..|events| - 1], events[|events| - 1];
      AfterIsSound(c, evicting, front);
      if e.Request? {
        var was := Entry(BucketOf(c, After(c, evicting, front), e.user), Clock(front));
        TakeIsSound(c, was, Clock(front), e.at);
      }
    }
  }

  /** Both buckets offer the same from `now` on. */
  ghost predicate SameOffer(c: Config, a: Bucket, b: Bucket, now: real) {
    forall t | t >= now :: a.Available(c, t) == b.Available(c, t)
  }

  ghost predicate SameOffers(c: Config, a: Entries, b: Entries, now: real) {
    forall u: User :: SameOffer(c, BucketOf(c, a, u), BucketOf(c, b, u), now)
  }

  /** The configured rate, none when it is negative. */
  function PerSecond(c: Config): real {
    if c.rps < 0.0 then 0.0 else c.rps
  }

  /** Exactly when eviction cannot be told: no request ever passes, or ten minutes refill a bucket. */
  predicate Refills(c: Config) {
    c.burst < 1 || c.burst as real <= 600.0 * c.rps
  }

  lemma FullAfterIdle(c: Config, e: Entry, now: real, t: real)
    requires c.burst as real <= IDLE * c.rps && Sound(c, e, now) && now - e.lastSeen > IDLE && t >= now
    ensures e.bucket.Available(c, t) == c.burst as real
  {
    var d := t - e.bucket.last;
    NonNegativeProduct(d, c.Rate());
    if c.rps > 0.0 {
      NonNegativeProduct(d - IDLE, c.rps);
      assert d * c.rps == (d - IDLE) * c.rps + IDLE * c.rps;
    }
  }

  lemma NewIsFull(c: Config, t: real)
    requires t >= 0.0
    ensures NewBucket(c).Available(c, t) == c.burst as real
  {
    NonNegativeProduct(t, c.Rate());
  }

  lemma EvictionKeepsOffers(c: Config, entries: Entries, now: real)
    requires c.burst as real <= IDLE * c.rps && AllSound(c, entries, now) && now >= 0.0
    ensures SameOffers(c, Evicted(entries, now), entries, now)
  {
    forall u: User, t | t >= now
      ensures BucketOf(c, Evicted(entries, now), u).Available(c, t) == BucketOf(c, entries, u).Available(c, t)
    {
      if u in entries && now - entries[u].lastSeen > IDLE {
        NewIsFull(c, t);
        FullAfterIdle(c, entries[u], now, t);
      }
    }
  }

  lemma TakeKeepsOffer(c: Config, a: Bucket, b: Bucket, now: real)
    requires SameOffer(c, a, b, now)
    ensures a.Allows(c, now) == b.Allows(c, now)
    ensures SameOffer(c, a.Take(c, now), b.Take(c, now), now)
  {
    assert a.Available(c, now) == b.Available(c, now);
  }

  lemma {:induction false} OffersAgree(c: Config, events: seq<Event>)
    requires c.burst as real <= IDLE * c.rps && InTime(events)
    ensures SameOffers(c, After(c, true, events), After(c, false, events), Clock(events))
    decreases |events|
  {
    if events != [] {
      var front, e := events[..|events| - 1], events[|events| - 1];
      OffersAgree(c, front);
      AfterIsSound(c, true, events[..|events| - 1]);
      var a, b := After(c, true, front), After(c, false, front);
      match e {
        case Request(u, now) =>
          TakeKeepsOffer(c, BucketOf(c, a, u), BucketOf(c, b, u), now);
          forall v: User
            ensures SameOffer(c, BucketOf(c, After(c, true, events), v), BucketOf(c, After(c, false, events), v), now)
          {
            if v != u {
              assert SameOffer(c, BucketOf(c, a, v), BucketOf(c, b, v), Clock(front));
            }
          }
        case Tick(now) =>
          assert AllSound(c, a, now);
          EvictionKeepsOffers(c, a, now);
          forall v: User ensures SameOffer(c, BucketOf(c, Evicted(a, now), v), BucketOf(c, b, v), now) {
            assert SameOffer(c, BucketOf(c, Evicted(a, now), v), BucketOf(c, a, v), now);
            assert SameOffer(c, BucketOf(c, a, v), BucketOf(c, b, v), Clock(front));
          }
      }
    }
  }

  lemma PrefixInTime(events: seq<Event>, i: nat)
    requires InTime(events) && i <= |events|
    ensures InTime(events[..i])
    ensures i < |events| ==> Clock(events[..i]) <= events[i].at
  {
  }

  /** Eviction is unobservable: the cache that drops idle entries decides every request of every run as the
      one that keeps them all. */
  lemma EvictionUnobservable(c: Config, events: seq<Event>, i: nat)
    requires Refills(c) && InTime(events) && i < |events|
    ensures Admitted(c, true, events, i) == Admitted(c, false, events, i)
  {
    if c.burst >= 1 && events[i].Request? {
      PrefixInTime(events, i);
      OffersAgree(c, events[..i]);
      var u := events[i].user;
      assert SameOffer(c, BucketOf(c, After(c, true, events[..i]), u), BucketOf(c, After(c, false, events[..i]), u),
                       Clock(events[..i]));
    }
  }

  // ----- The window bound ----------------------------------------------------------------------------------

  /** The user's admissions among events lo, ..., hi - 1. */
  function Admissions(c: Config, evicting: bool, events: seq<Event>, u: User, lo: nat, hi: nat): nat
    requires lo <= hi <= |events|
  {
    if lo == hi then 0
    else
      Admissions(c, evicting, events, u, lo, hi - 1) +
      if events[hi - 1].Request? && events[hi - 1].user == u && Admitted(c, evicting, events, hi - 1) then 1 else 0
  }

  function Offer(c: Config, events: seq<Event>, u: User, i: nat, at: real): real
    requires i <= |events|
  {
    BucketOf(c, After(c, false, events[..i]), u).Available(c, at)
  }

  /** Tokens gained from time s to time t. */
  function Gained(c: Config, s: real, t: real): real {
    (t - s) * PerSecond(c)
  }

  lemma GainedAdds(c: Config, s: real, m: real, t: real)
    ensures Gained(c, s, t) == Gained(c, s, m) + Gained(c, m, t)
  {
  }

  lemma GainedGrows(c: Config, s: real, t: real, d: real)
    requires t - s <= d
    ensures Gained(c, s, t) <= d * PerSecond(c)
  {
    NonNegativeProduct(d - (t - s), c.Rate());
  }

  lemma OfferGrowth(c: Config, b: Bucket, s: real, t: real)
    requires b.last <= s <= t
    ensures b.Available(c, t) <= b.Available(c, s) + Gained(c, s, t)
  {
    NonNegativeProduct(t - s, c.Rate());
    GainedAdds(c, b.last, s, t);
  }

  lemma NothingGainedYet(c: Config, b: Bucket)
    ensures b.Available(c, b.last) == Min(c.burst as real, b.tokens)
  {
    var r := c.Rate();
    assert (b.last - b.last) * r == 0.0;
    assert b.Available(c, b.last) == Min(c.burst as real, b.tokens + (b.last - b.last) * r);
  }

  lemma TakePaysOne(c: Config, b: Bucket, now: real)
    requires b.last <= now
    ensures b.Take(c, now).Available(c, now) == b.Available(c, now) - if b.Allows(c, now) then 1.0 else 0.0
  {
    if b.Allows(c, now) {
      NothingGainedYet(c, b.Take(c, now));
      assert b.Available(c, now) <= c.burst as real;
    }
  }

  lemma OfferIsBounded(c: Config, e: Entry, was: real, now: real)
    requires Sound(c, e, was) && was <= now && c.burst >= 0
    ensures 0.0 <= e.bucket.Available(c, now) <= c.burst as real
  {
    NonNegativeProduct(now - e.bucket.last, c.Rate());
  }

  lemma SoundBucket(c: Config, events: seq<Event>, u: User, i: nat) returns (e: Entry)
    requires InTime(events) && i <= |events|
    ensures e.bucket == BucketOf(c, After(c, false, events[..i]), u) && Sound(c, e, Clock(events[..i]))
  {
    PrefixInTime(events, i);
    AfterIsSound(c, false, events[..i]);
    var entries := After(c, false, events[..i]);
    e := if u in entries then entries[u] else Entry(NewBucket(c), Clock(events[..i]));
  }

  lemma BucketAfterEvent(c: Config, events: seq<Event>, u: User, i: nat)
    requires i < |events|
    ensures var b := BucketOf(c, After(c, false, events[..i]), u);
            BucketOf(c, After(c, false, events[..i + 1]), u) ==
            if events[i].Request? && events[i].user == u then b.Take(c, events[i].at) else b
  {
    assert events[..i + 1][..i] == events[..i];
  }

  function OneIf(b: bool): real {
    if b then 1.0 else 0.0
  }

  predicate Serves(c: Config, events: seq<Event>, u: User, i: nat)
    requires i < |events|
  {
    events[i].Request? && events[i].user == u && Admitted(c, false, events, i)
  }

  lemma StepOffer(c: Config, events: seq<Event>, u: User, i: nat, at: real)
    requires InTime(events) && i < |events| && Clock(events[..i]) <= at <= events[i].at
    ensures Offer(c, events, u, i + 1, events[i].at) <=
            Offer(c, events, u, i, at) + Gained(c, at, events[i].at) - OneIf(Serves(c, events, u, i))
  {
    var e := SoundBucket(c, events, u, i);
    OfferGrowth(c, e.bucket, at, events[i].at);
    TakePaysOne(c, e.bucket, events[i].at);
    BucketAfterEvent(c, events, u, i);
  }

  function EndOf(events: seq<Event>, lo: nat, hi: nat, start: real): real
    requires lo <= hi <= |events|
  {
    if lo == hi then start else events[hi - 1].at
  }

  lemma EndIsClock(events: seq<Event>, lo: nat, i: nat, start: real)
    requires InTime(events) && lo <= i < |events| && Clock(events[..lo]) <= start <= events[lo].at
    ensures Clock(events[..i]) <= EndOf(events, lo, i, start) <= events[i].at
  {
    PrefixInTime(events, i);
  }

  lemma AdmissionsStep(c: Config, events: seq<Event>, u: User, lo: nat, hi: nat)
    requires lo < hi <= |events|
    ensures Admissions(c, false, events, u, lo, hi) as real ==
            Admissions(c, false, events, u, lo, hi - 1) as real + OneIf(Serves(c, events, u, hi - 1))
  {
  }

  /** What the user's bucket would hold at event `i` had nothing been gained since `start`. */
  function Level(c: Config, events: seq<Event>, u: User, lo: nat, i: nat, start: real): real
    requires lo <= i <= |events|
  {
    Offer(c, events, u, i, EndOf(events, lo, i, start)) - Gained(c, start, EndOf(events, lo, i, start))
  }

  /** An admission lowers it by one, and nothing raises it. */
  lemma LevelFalls(c: Config, events: seq<Event>, u: User, lo: nat, i: nat, start: real)
    requires InTime(events) && lo <= i < |events|
    requires Clock(events[..lo]) <= start <= events[lo].at
    ensures Level(c, events, u, lo, i + 1, start) <= Level(c, events, u, lo, i, start) - OneIf(Serves(c, events, u, i))
  {
    var end, last := EndOf(events, lo, i, start), events[i].at;
    EndIsClock(events, lo, i, start);
    StepOffer(c, events, u, i, end);
    GainedAdds(c, start, end, last);
  }

  lemma {:induction false} WindowPotential(c: Config, events: seq<Event>, u: User, lo: nat, hi: nat, start: real)
    requires InTime(events) && lo <= hi <= |events| && c.burst >= 0
    requires Clock(events[..lo]) <= start && (lo < |events| ==> start <= events[lo].at)
    ensures Admissions(c, false, events, u, lo, hi) as real <=
            Level(c, events, u, lo, lo, start) - Level(c, events, u, lo, hi, start)
    decreases hi
  {
    if lo < hi {
      WindowPotential(c, events, u, lo, hi - 1, start);
      LevelFalls(c, events, u, lo, hi - 1, start);
      AdmissionsStep(c, events, u, lo, hi);
    }
  }

  lemma {:induction false} NoneAdmitted(c: Config, events: seq<Event>, u: User, lo: nat, hi: nat)
    requires lo <= hi <= |events| && c.burst < 1
    ensures Admissions(c, false, events, u, lo, hi) == 0
    decreases hi
  {
    if lo < hi {
      NoneAdmitted(c, events, u, lo, hi - 1);
    }
  }

  lemma {:induction false} SameAdmissions(c: Config, events: seq<Event>, u: User, lo: nat, hi: nat)
    requires Refills(c) && InTime(events) && lo <= hi <= |events|
    ensures Admissions(c, true, events, u, lo, hi) == Admissions(c, false, events, u, lo, hi)
    decreases hi
  {
    if lo < hi {
      SameAdmissions(c, events, u, lo, hi - 1);
      EvictionUnobservable(c, events, hi - 1);
    }
  }

  lemma WindowOfKeeper(c: Config, events: seq<Event>, u: User, lo: nat, hi: nat)
    requires InTime(events) && lo < hi <= |events| && c.burst >= 0
    ensures Admissions(c, false, events, u, lo, hi) as real <=
            c.burst as real + Gained(c, events[lo].at, events[hi - 1].at)
  {
    var start, end := events[lo].at, events[hi - 1].at;
    PrefixInTime(events, lo);
    WindowPotential(c, events, u, lo, hi, start);
    GainedIs(c, start, start, 0.0);
    var before := SoundBucket(c, events, u, lo);
    OfferIsBounded(c, before, Clock(events[..lo]), start);
    var after := SoundBucket(c, events, u, hi);
    OfferIsBounded(c, after, Clock(events[..hi]), end);
  }

  /** The window bound: in any stretch of a run lasting at most d seconds, the evicting limiter lets a user
      through at most burst + rate * d times. */
  lemma WindowBound(c: Config, events: seq<Event>, u: User, lo: nat, hi: nat, d: real)
    requires Refills(c) && InTime(events) && lo < hi <= |events| && events[hi - 1].at - events[lo].at <= d
    ensures Admissions(c, true, events, u, lo, hi) as real <=
            (if c.burst < 0 then 0.0 else c.burst as real) + d * PerSecond(c)
  {
    SameAdmissions(c, events, u, lo, hi);
    if c.burst < 0 {
      NoneAdmitted(c, events, u, lo, hi);
      LaterAt(events, lo, hi - 1);
      NonNegativeProduct(d, c.Rate());
    } else {
      WindowOfKeeper(c, events, u, lo, hi);
      GainedGrows(c, events[lo].at, events[hi - 1].at, d);
    }
  }

  lemma {:induction false} LaterAt(events: seq<Event>, i: nat, j: nat)
    requires InTime(events) && i <= j < |events|
    ensures events[i].at <= events[j].at
    decreases j
  {
    if i < j {
      LaterAt(events, i, j - 1);
    }
  }

  // ----- When eviction shows ----------------------------------------------------------------------------------

  function Same(e: Event, n: nat): seq<Event> {
    if n == 0 then [] else Same(e, n - 1) + [e]
  }

  lemma AfterSnoc(c: Config, evicting: bool, front: seq<Event>, e: Event)
    ensures After(c, evicting, front + [e]) == Step(c, evicting, After(c, evicting, front), e)
  {
    assert (front + [e])[..|front|] == front;
  }

  lemma AfterSame(c: Config, evicting: bool, front: seq<Event>, e: Event, k: nat)
    requires k > 0
    ensures After(c, evicting, front + Same(e, k)) == Step(c, evicting, After(c, evicting, front + Same(e, k - 1)), e)
  {
    AfterSnoc(c, evicting, front + Same(e, k - 1), e);
    assert front + Same(e, k) == front + Same(e, k - 1) + [e];
  }

  /** A run of requests at one instant spends one token each while there are tokens. */
  lemma {:induction false} Spend(c: Config, evicting: bool, front: seq<Event>, u: User, t: real, k: nat)
    requires var b := BucketOf(c, After(c, evicting, front), u);
             b.last <= t && b.Available(c, t) >= k as real && c.burst >= 1
    ensures var b := BucketOf(c, After(c, evicting, front), u);
            var a := BucketOf(c, After(c, evicting, front + Same(Request(u, t), k)), u);
            a.last <= t && a.Available(c, t) == b.Available(c, t) - k as real
    ensures var b := BucketOf(c, After(c, evicting, front), u);
            var entries := After(c, evicting, front + Same(Request(u, t), k));
            k > 0 ==> u in entries && entries[u] == Entry(Bucket(b.Available(c, t) - k as real, t), t)
    decreases k
  {
    if k == 0 {
      assert front + [] == front;
    } else {
      Spend(c, evicting, front, u, t, k - 1);
      AfterSame(c, evicting, front, Request(u, t), k);
      TakePaysOne(c, BucketOf(c, After(c, evicting, front + Same(Request(u, t), k - 1)), u), t);
    }
  }

  /** A run of requests at one instant leaves what it found less one each, or less than one token. */
  lemma {:induction false} Exhaust(c: Config, front: seq<Event>, u: User, t: real, k: nat)
    requires BucketOf(c, After(c, false, front), u).last <= t
    ensures var b := BucketOf(c, After(c, false, front), u);
            var a := BucketOf(c, After(c, false, front + Same(Request(u, t), k)), u);
            && a.last <= t
            && (a.Available(c, t) < 1.0 || a.Available(c, t) <= b.Available(c, t) - k as real || c.burst < 1)
    decreases k
  {
    if k == 0 {
      assert front + [] == front;
    } else {
      Exhaust(c, front, u, t, k - 1);
      AfterSame(c, false, front, Request(u, t), k);
      TakePaysOne(c, BucketOf(c, After(c, false, front + Same(Request(u, t), k - 1)), u), t);
    }
  }

  /** A pause just over ten minutes that does not refill the bucket. */
  lemma ShortPause(c: Config) returns (pause: real)
    requires !Refills(c)
    ensures IDLE < pause <= IDLE + 1.0 && pause * c.Rate() < c.burst as real
  {
    var r := c.Rate();
    var slack := c.burst as real - IDLE * r;
    var e := if r <= slack / 2.0 then 1.0 else slack / (2.0 * r);
    if r > slack / 2.0 {
      assert e * r == slack / 2.0;
      DividesBelowOne(slack, r);
    }
    pause := IDLE + e;
    assert pause * r == IDLE * r + e * r;
  }

  lemma DividesBelowOne(slack: real, r: real)
    requires 0.0 < slack && r > slack / 2.0
    ensures 0.0 < slack / (2.0 * r) <= 1.0 && slack / (2.0 * r) * r == slack / 2.0
  {
    var q := slack / (2.0 * r);
    assert q * (2.0 * r) == slack;
  }

  lemma {:induction false} SameAt(e: Event, n: nat)
    ensures |Same(e, n)| == n && forall i | 0 <= i < n :: Same(e, n)[i] == e
  {
    if n > 0 {
      SameAt(e, n - 1);
    }
  }

  const THIRD := 3.0 * PERIOD

  /** A burst, then the first three rounds of the cleanup loop. */
  function ThreeRounds(u: User, n: nat, t: real): seq<Event> {
    Same(Request(u, t), n) + [Tick(PERIOD)] + [Tick(2.0 * PERIOD)] + [Tick(THIRD)]
  }

  /** Just over ten minutes before the third round. */
  predicate JustTooEarly(t: real) {
    0.0 <= t <= PERIOD && IDLE < THIRD - t && 2.0 * PERIOD - t <= IDLE
  }

  /** The first two rounds leave the user's entry alone, the third drops it: the next request finds a full
      bucket... */
  lemma EvictedIsFull(c: Config, u: User, t: real)
    requires c.burst >= 1 && JustTooEarly(t)
    ensures u !in After(c, true, ThreeRounds(u, c.burst, t))
  {
    var burst := Same(Request(u, t), c.burst);
    NewIsFull(c, t);
    Spend(c, true, [], u, t, c.burst);
    assert [] + burst == burst;
    AfterSnoc(c, true, burst, Tick(PERIOD));
    AfterSnoc(c, true, burst + [Tick(PERIOD)], Tick(2.0 * PERIOD));
    AfterSnoc(c, true, burst + [Tick(PERIOD)] + [Tick(2.0 * PERIOD)], Tick(THIRD));
  }

  lemma GainedIs(c: Config, s: real, t: real, d: real)
    requires t - s == d
    ensures Gained(c, s, t) == d * c.Rate()
  {
  }

  lemma OfferLater(c: Config, b: Bucket, now: real, since: real)
    requires b.last <= now && since == now - b.last
    ensures b.Available(c, now) == Min(c.burst as real, b.tokens + since * c.Rate())
  {
  }

  lemma DrainedOffer(c: Config, t: real, now: real, pause: real)
    requires pause == now - t > 0.0 && pause * c.Rate() < c.burst as real
    ensures Bucket(0.0, t).Available(c, now) < c.burst as real
  {
    OfferLater(c, Bucket(0.0, t), now, pause);
  }

  lemma DrainedByBurst(c: Config, u: User, t: real)
    requires c.burst >= 1 && t >= 0.0
    ensures BucketOf(c, After(c, false, ThreeRounds(u, c.burst, t)), u) == Bucket(0.0, t)
  {
    var burst := Same(Request(u, t), c.burst);
    NewIsFull(c, t);
    Spend(c, false, [], u, t, c.burst);
    assert [] + burst == burst;
    AfterSnoc(c, false, burst, Tick(PERIOD));
    AfterSnoc(c, false, burst + [Tick(PERIOD)], Tick(2.0 * PERIOD));
    AfterSnoc(c, false, burst + [Tick(PERIOD)] + [Tick(2.0 * PERIOD)], Tick(THIRD));
  }

  /** ... and with the limiter that keeps its entries it does not. */
  lemma KeptIsNotFull(c: Config, u: User, t: real, pause: real)
    requires c.burst >= 1 && JustTooEarly(t) && pause == THIRD - t && pause * c.Rate() < c.burst as real
    ensures var b := BucketOf(c, After(c, false, ThreeRounds(u, c.burst, t)), u);
            b.last <= THIRD && b.Available(c, THIRD) < c.burst as real
  {
    DrainedByBurst(c, u, t);
    DrainedOffer(c, t, THIRD, pause);
  }

  function TwoBursts(u: User, n: nat, t: real): seq<Event> {
    ThreeRounds(u, n, t) + Same(Request(u, THIRD), n)
  }

  /** The times of the cleanups in a run. */
  function Rounds(events: seq<Event>): seq<real>
    decreases |events|
  {
    if events == [] then []
    else Rounds(events[..|events| - 1]) + if events[|events| - 1].Tick? then [events[|events| - 1].at] else []
  }

  lemma RoundsSnoc(events: seq<Event>, e: Event)
    ensures Rounds(events + [e]) == Rounds(events) + if e.Tick? then [e.at] else []
  {
    assert (events + [e])[..|events|] == events;
  }

  lemma {:induction false} RoundsSame(events: seq<Event>, u: User, t: real, n: nat)
    ensures Rounds(events + Same(Request(u, t), n)) == Rounds(events)
  {
    if n == 0 {
      assert events + [] == events;
    } else {
      var r, shorter := Request(u, t), events + Same(Request(u, t), n - 1);
      Sequences.Regrouped(events, Same(r, n - 1), [r]);
      RoundsSame(events, u, t, n - 1);
      RoundsSnoc(shorter, r);
    }
  }

  lemma ThreeTicks(burst: seq<Event>, a: real, b: real, c: real)
    requires Rounds(burst) == []
    ensures Rounds(burst + [Tick(a)] + [Tick(b)] + [Tick(c)]) == [a, b, c]
  {
    RoundsSnoc(burst, Tick(a));
    RoundsSnoc(burst + [Tick(a)], Tick(b));
    RoundsSnoc(burst + [Tick(a)] + [Tick(b)], Tick(c));
  }

  /** The cleanups of the run are the loop's rounds up to its end, on time and none left out. */
  lemma TwoBurstsRounds(u: User, n: nat, t: real)
    ensures Rounds(TwoBursts(u, n, t)) == [PERIOD, 2.0 * PERIOD, THIRD]
  {
    var burst := Same(Request(u, t), n);
    RoundsSame([], u, t, n);
    assert [] + burst == burst;
    ThreeTicks(burst, PERIOD, 2.0 * PERIOD, THIRD);
    RoundsSame(ThreeRounds(u, n, t), u, THIRD, n);
  }

  lemma TwoBurstsEnds(u: User, n: nat, t: real)
    requires 0.0 <= t <= PERIOD && n >= 1
    ensures var events := TwoBursts(u, n, t);
            && events != [] && InTime(events) && events[0].at == t && Clock(events) == THIRD
            && Rounds(events) == [PERIOD, 2.0 * PERIOD, THIRD]
  {
    TwoBurstsShape(u, n, t);
    TwoBurstsRounds(u, n, t);
    SameAt(Request(u, THIRD), n);
  }

  lemma TwoBurstsShape(u: User, n: nat, t: real)
    requires 0.0 <= t <= PERIOD && n >= 1
    ensures var events := TwoBursts(u, n, t);
            && InTime(events) && |events| == 2 * n + 3 && events[0].at == t
            && events[2 * n + 2] == Request(u, THIRD)
            && events[..2 * n + 2] == ThreeRounds(u, n, t) + Same(Request(u, THIRD), n - 1)
  {
    SameAt(Request(u, t), n);
    SameAt(Request(u, THIRD), n);
    SameAt(Request(u, THIRD), n - 1);
  }

  lemma LastPassesEvicting(c: Config, u: User, t: real)
    requires c.burst >= 1 && JustTooEarly(t)
    ensures BucketOf(c, After(c, true, ThreeRounds(u, c.burst, t) + Same(Request(u, THIRD), c.burst - 1)), u)
            .Allows(c, THIRD)
  {
    EvictedIsFull(c, u, t);
    NewIsFull(c, THIRD);
    Spend(c, true, ThreeRounds(u, c.burst, t), u, THIRD, c.burst - 1);
  }

  lemma LastStoppedKeeping(c: Config, u: User, t: real, pause: real)
    requires c.burst >= 1 && JustTooEarly(t) && pause == THIRD - t && pause * c.Rate() < c.burst as real
    ensures !BucketOf(c, After(c, false, ThreeRounds(u, c.burst, t) + Same(Request(u, THIRD), c.burst - 1)), u)
             .Allows(c, THIRD)
  {
    KeptIsNotFull(c, u, t, pause);
    Exhaust(c, ThreeRounds(u, c.burst, t), u, THIRD, c.burst - 1);
  }

  lemma BurstTime(c: Config) returns (t: real, pause: real)
    requires !Refills(c)
    ensures JustTooEarly(t) && pause == THIRD - t && pause * c.Rate() < c.burst as real
  {
    pause := ShortPause(c);
    t := THIRD - pause;
  }

  /** Otherwise eviction shows, already with one user and by the third round of the cleanup loop: a burst, a
      pause of just over ten minutes, and of a second burst the last request passes only the evicting limiter. */
  lemma EvictionObservable(c: Config, u: User) returns (events: seq<Event>, i: nat)
    requires !Refills(c)
    ensures InTime(events) && i < |events|
    ensures Rounds(events) == [300.0, 600.0, 900.0] && Clock(events) == 900.0
    ensures Admitted(c, true, events, i) && !Admitted(c, false, events, i)
  {
    var t, pause := BurstTime(c);
    events, i := TwoBursts(u, c.burst, t), 2 * c.burst + 2;
    TwoBurstsShape(u, c.burst, t);
    TwoBurstsEnds(u, c.burst, t);
    LastPassesEvicting(c, u, t);
    LastStoppedKeeping(c, u, t, pause);
  }

  lemma {:induction false} AdmissionsPrefix(c: Config, a: seq<Event>, b: seq<Event>, u: User, lo: nat, hi: nat)
    requires lo <= hi <= |a| && hi <= |b| && a[..hi] == b[..hi]
    ensures Admissions(c, true, a, u, lo, hi) == Admissions(c, true, b, u, lo, hi)
    decreases hi
  {
    if lo < hi {
      assert a[..hi - 1] == a[..hi][..hi - 1] == b[..hi][..hi - 1] == b[..hi - 1];
      assert a[hi - 1] == a[..hi][hi - 1] == b[..hi][hi - 1] == b[hi - 1];
      AdmissionsPrefix(c, a, b, u, lo, hi - 1);
    }
  }

  function Total(c: Config, events: seq<Event>, u: User): nat {
    Admissions(c, true, events, u, 0, |events|)
  }

  lemma OneMoreEvent(c: Config, front: seq<Event>, e: Event, u: User)
    ensures Total(c, front + [e], u) == Total(c, front, u) +
            if e.Request? && e.user == u && BucketOf(c, After(c, true, front), u).Allows(c, e.at) then 1 else 0
  {
    var events := front + [e];
    assert events[..|front|] == front;
    AdmissionsPrefix(c, events, front, u, 0, |front|);
  }

  /** Requests at one instant are all admitted while there is a token for each. */
  lemma {:induction false} BurstAdmitted(c: Config, front: seq<Event>, u: User, t: real, k: nat)
    requires var b := BucketOf(c, After(c, true, front), u);
             b.last <= t && b.Available(c, t) >= k as real && c.burst >= 1
    ensures Total(c, front + Same(Request(u, t), k), u) == Total(c, front, u) + k
    decreases k
  {
    if k == 0 {
      assert front + [] == front;
    } else {
      var shorter := front + Same(Request(u, t), k - 1);
      assert front + Same(Request(u, t), k) == shorter + [Request(u, t)];
      BurstAdmitted(c, front, u, t, k - 1);
      Spend(c, true, front, u, t, k - 1);
      OneMoreEvent(c, shorter, Request(u, t), u);
    }
  }

  lemma BothBursts(c: Config, u: User, t: real)
    requires c.burst >= 1 && JustTooEarly(t)
    ensures Total(c, TwoBursts(u, c.burst, t), u) == 2 * c.burst
  {
    var burst := Same(Request(u, t), c.burst);
    NewIsFull(c, t);
    BurstAdmitted(c, [], u, t, c.burst);
    assert [] + burst == burst;
    OneMoreEvent(c, burst, Tick(PERIOD), u);
    OneMoreEvent(c, burst + [Tick(PERIOD)], Tick(2.0 * PERIOD), u);
    OneMoreEvent(c, burst + [Tick(PERIOD)] + [Tick(2.0 * PERIOD)], Tick(THIRD), u);
    EvictedIsFull(c, u, t);
    NewIsFull(c, THIRD);
    BurstAdmitted(c, ThreeRounds(u, c.burst, t), u, THIRD, c.burst);
  }

  /** And otherwise the window bound fails too: the same run lets one user through more than burst + rate
      times its length. */
  lemma WindowExceeded(c: Config, u: User) returns (events: seq<Event>)
    requires !Refills(c)
    ensures events != [] && InTime(events)
    ensures Rounds(events) == [300.0, 600.0, 900.0] && Clock(events) == 900.0
    ensures Admissions(c, true, events, u, 0, |events|) as real >
            c.burst as real + Gained(c, events[0].at, events[|events| - 1].at)
  {
    var t, pause := BurstTime(c);
    events := TwoBursts(u, c.burst, t);
    TwoBurstsEnds(u, c.burst, t);
    BothBursts(c, u, t);
    GainedIs(c, events[0].at, events[|events| - 1].at, pause);
  }
}
