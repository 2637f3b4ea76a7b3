/** Who is never refused: exactly the users who keep to the advertised rate. */
module RateConformance {
  import opened RateLimit

  predicate Asks(e: Event, u: User) {
    e.Request? && e.user == u
  }

  /** The user's requests among events lo, ..., hi - 1. */
  function Requests(events: seq<Event>, u: User, lo: nat, hi: nat): nat
    requires lo <= hi <= |events|
  {
    if lo == hi then 0 else Requests(events, u, lo, hi - 1) + if Asks(events[hi - 1], u) then 1 else 0
  }

  predicate Fits(c: Config, events: seq<Event>, u: User, lo: nat, hi: nat)
    requires lo < hi <= |events|
  {
    Requests(events, u, lo, hi) as real <= c.burst as real + Gained(c, events[lo].at, events[hi - 1].at)
  }

  /** From any request of the user to any later one there are at most burst + rate times the time between. */
  ghost predicate Conforms(c: Config, events: seq<Event>, u: User) {
    forall lo, hi | 0 <= lo < hi <= |events| && Asks(events[lo], u) && Asks(events[hi - 1], u) ::
      Fits(c, events, u, lo, hi)
  }

  // ----- Conforming requests are never refused ---------------------------------------------------------

  /** The bucket holds at least what n requests since time s leave of a full one. */
  predicate Stocked(c: Config, b: Bucket, s: real, n: nat) {
    s <= b.last && b.tokens >= c.burst as real + Gained(c, s, b.last) - n as real
  }

  /** Full, or stocked since some request of the user. */
  ghost predicate WellStocked(c: Config, b: Bucket, events: seq<Event>, u: User, i: nat)
    requires i <= |events|
  {
    || b.tokens >= c.burst as real
    || exists lo :: 0 <= lo < i && Asks(events[lo], u) && Stocked(c, b, events[lo].at, Requests(events, u, lo, i))
  }

  lemma AvailableIs(c: Config, b: Bucket, now: real)
    requires b.last <= now
    ensures b.Available(c, now) == Min(c.burst as real, b.tokens + Gained(c, b.last, now))
  {
  }

  lemma NeverLoses(c: Config, s: real, t: real)
    requires s <= t
    ensures Gained(c, s, t) >= 0.0
  {
    NonNegativeProduct(t - s, c.Rate());
  }

  lemma FullAllows(c: Config, b: Bucket, now: real)
    requires c.burst >= 1 && b.last <= now && b.tokens >= c.burst as real
    ensures b.Allows(c, now) && b.Available(c, now) == c.burst as real
  {
    NeverLoses(c, b.last, now);
    AvailableIs(c, b, now);
  }

  lemma StockedAllows(c: Config, b: Bucket, s: real, n: nat, now: real)
    requires c.burst >= 1 && b.last <= now && Stocked(c, b, s, n)
    requires (n + 1) as real <= c.burst as real + Gained(c, s, now)
    ensures b.Allows(c, now)
    ensures b.Available(c, now) == c.burst as real ||
            b.Available(c, now) >= c.burst as real + Gained(c, s, now) - n as real
  {
    AvailableIs(c, b, now);
    GainedAdds(c, s, b.last, now);
  }

  lemma RequestsStep(events: seq<Event>, u: User, lo: nat, i: nat)
    requires lo <= i < |events|
    ensures Requests(events, u, lo, i + 1) == Requests(events, u, lo, i) + if Asks(events[i], u) then 1 else 0
  {
  }

  lemma NothingGained(c: Config, t: real)
    ensures Gained(c, t, t) == 0.0
  {
    var d := t - t;
    assert d * c.Rate() == 0.0;
  }

  lemma TakenFromFull(c: Config, b: Bucket, events: seq<Event>, u: User, i: nat)
    requires i < |events| && Asks(events[i], u) && b == Bucket(c.burst as real - 1.0, events[i].at)
    ensures WellStocked(c, b, events, u, i + 1)
  {
    RequestsStep(events, u, i, i);
    NothingGained(c, events[i].at);
    assert Stocked(c, b, events[i].at, Requests(events, u, i, i + 1));
  }

  lemma TakenFromStocked(c: Config, b: Bucket, events: seq<Event>, u: User, lo: nat, i: nat)
    requires lo < i < |events| && Asks(events[lo], u) && Asks(events[i], u)
    requires Stocked(c, b, events[lo].at, Requests(events, u, lo, i) + 1)
    ensures WellStocked(c, b, events, u, i + 1)
  {
    RequestsStep(events, u, lo, i);
    assert Stocked(c, b, events[lo].at, Requests(events, u, lo, i + 1));
  }

  lemma BurstIsPositive(c: Config, events: seq<Event>, u: User, i: nat)
    requires Conforms(c, events, u) && i < |events| && Asks(events[i], u)
    ensures c.burst >= 1
  {
    assert Fits(c, events, u, i, i + 1);
    RequestsStep(events, u, i, i);
    NothingGained(c, events[i].at);
  }

  /** A conforming request is admitted, and leaves the bucket well stocked. */
  lemma RequestServed(c: Config, b: Bucket, events: seq<Event>, u: User, i: nat)
    requires InTime(events) && Conforms(c, events, u) && i < |events| && Asks(events[i], u)
    requires b.last <= events[i].at && WellStocked(c, b, events, u, i)
    ensures b.Allows(c, events[i].at) && WellStocked(c, b.Take(c, events[i].at), events, u, i + 1)
  {
    var now := events[i].at;
    BurstIsPositive(c, events, u, i);
    if b.tokens >= c.burst as real {
      FullAllows(c, b, now);
      TakenFromFull(c, b.Take(c, now), events, u, i);
    } else {
      var lo: nat :| lo < i && Asks(events[lo], u) && Stocked(c, b, events[lo].at, Requests(events, u, lo, i));
      assert Fits(c, events, u, lo, i + 1);
      RequestsStep(events, u, lo, i);
      StockedAllows(c, b, events[lo].at, Requests(events, u, lo, i), now);
      if b.Available(c, now) == c.burst as real {
        TakenFromFull(c, b.Take(c, now), events, u, i);
      } else {
        LaterAt(events, lo, i);
        TakenFromStocked(c, b.Take(c, now), events, u, lo, i);
      }
    }
  }

  /** Events of others change nothing. */
  lemma OthersDoNotCount(c: Config, b: Bucket, events: seq<Event>, u: User, i: nat)
    requires i < |events| && !Asks(events[i], u) && WellStocked(c, b, events, u, i)
    ensures WellStocked(c, b, events, u, i + 1)
  {
    if b.tokens < c.burst as real {
      var lo: nat :| lo < i && Asks(events[lo], u) && Stocked(c, b, events[lo].at, Requests(events, u, lo, i));
      RequestsStep(events, u, lo, i);
      assert Stocked(c, b, events[lo].at, Requests(events, u, lo, i + 1));
    }
  }

  lemma LastIsPast(c: Config, evicting: bool, events: seq<Event>, u: User, i: nat)
    requires InTime(events) && i < |events|
    ensures BucketOf(c, After(c, evicting, events[..i]), u).last <= events[i].at
  {
    PrefixInTime(events, i);
    AfterIsSound(c, evicting, events[..i]);
  }

  lemma BucketStep(c: Config, evicting: bool, events: seq<Event>, u: User, i: nat)
    requires i < |events|
    ensures var b := BucketOf(c, After(c, evicting, events[..i]), u);
            var a := BucketOf(c, After(c, evicting, events[..i + 1]), u);
            if Asks(events[i], u) then a == b.Take(c, events[i].at) else a == b || a == NewBucket(c)
  {
    assert events[..i + 1][..i] == events[..i];
  }

  lemma {:induction false} AlwaysStocked(c: Config, evicting: bool, events: seq<Event>, u: User, i: nat)
    requires InTime(events) && Conforms(c, events, u) && i <= |events|
    ensures WellStocked(c, BucketOf(c, After(c, evicting, events[..i]), u), events, u, i)
    decreases i
  {
    if i > 0 {
      var b := BucketOf(c, After(c, evicting, events[..i - 1]), u);
      AlwaysStocked(c, evicting, events, u, i - 1);
      BucketStep(c, evicting, events, u, i - 1);
      LastIsPast(c, evicting, events, u, i - 1);
      if Asks(events[i - 1], u) {
        RequestServed(c, b, events, u, i - 1);
      } else {
        OthersDoNotCount(c, b, events, u, i - 1);
      }
    }
  }

  /** A user who keeps to the rate is never refused, whether idle entries are dropped or not. */
  lemma ConformingNeverRefused(c: Config, evicting: bool, events: seq<Event>, u: User, i: nat)
    requires InTime(events) && Conforms(c, events, u) && i < |events| && Asks(events[i], u)
    ensures Admitted(c, evicting, events, i)
  {
    AlwaysStocked(c, evicting, events, u, i);
    LastIsPast(c, evicting, events, u, i);
    RequestServed(c, BucketOf(c, After(c, evicting, events[..i]), u), events, u, i);
  }

  // ----- And nobody else -----------------------------------------------------------------------------------

  ghost predicate NeverRefused(c: Config, events: seq<Event>, u: User) {
    forall i | 0 <= i < |events| && Asks(events[i], u) :: Admitted(c, true, events, i)
  }

  lemma {:induction false} AllCounted(c: Config, events: seq<Event>, u: User, lo: nat, hi: nat)
    requires NeverRefused(c, events, u) && lo <= hi <= |events|
    ensures Admissions(c, true, events, u, lo, hi) == Requests(events, u, lo, hi)
    decreases hi
  {
    if lo < hi {
      AllCounted(c, events, u, lo, hi - 1);
    }
  }

  lemma ServedBurst(c: Config, events: seq<Event>, u: User, i: nat)
    requires NeverRefused(c, events, u) && i < |events| && Asks(events[i], u)
    ensures c.burst >= 1
  {
    assert Admitted(c, true, events, i);
  }

  lemma GainedIn(c: Config, s: real, t: real, d: real)
    requires d == t - s
    ensures Gained(c, s, t) == d * PerSecond(c)
  {
  }

  lemma ServedFits(c: Config, events: seq<Event>, u: User, lo: nat, hi: nat)
    requires Refills(c) && InTime(events) && NeverRefused(c, events, u)
    requires lo < hi <= |events| && Asks(events[lo], u)
    ensures Fits(c, events, u, lo, hi)
  {
    var d := events[hi - 1].at - events[lo].at;
    ServedBurst(c, events, u, lo);
    AllCounted(c, events, u, lo, hi);
    WindowBound(c, events, u, lo, hi, d);
    GainedIn(c, events[lo].at, events[hi - 1].at, d);
  }

  /** The limiter, exactly: when ten minutes refill a bucket, a user is never refused on a run if and only if
      the requests keep to the burst and the rate in every window. */
  lemma NeverRefusedExactly(c: Config, events: seq<Event>, u: User)
    requires Refills(c) && InTime(events)
    ensures NeverRefused(c, events, u) <==> Conforms(c, events, u)
  {
    if Conforms(c, events, u) {
      forall i | 0 <= i < |events| && Asks(events[i], u) ensures Admitted(c, true, events, i) {
        ConformingNeverRefused(c, true, events, u, i);
      }
    }
    if NeverRefused(c, events, u) {
      forall lo, hi | 0 <= lo < hi <= |events| && Asks(events[lo], u) && Asks(events[hi - 1], u)
        ensures Fits(c, events, u, lo, hi)
      {
        ServedFits(c, events, u, lo, hi);
      }
    }
  }
}
