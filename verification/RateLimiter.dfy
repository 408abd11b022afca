/**
 The request rate limiter: one token bucket for all requests, and a cache of buckets by
 key whose idle entries a sweep deletes (middleware/ratelimit.go). Times are seconds.
 */
module RateLimiter {
  import opened Wrappers

  datatype Config = Config(globalPerSec: real, perKeyPerSec: real, perKeyBurst: int, keyLimiterTTL: real)

  // ------------------------------------------------------------- token buckets

  /** golang.org/x/time/rate: the tokens there were at time `last`. */
  datatype Bucket = Bucket(rate: real, burst: int, tokens: real, last: real)

  function Min(a: real, b: real): real {
    if a <= b then a else b
  }

  function NewBucket(rate: real, burst: int, now: real): Bucket {
    Bucket(rate, burst, burst as real, now)
  }

  function Available(b: Bucket, now: real): real {
    Min(b.burst as real, b.tokens + b.rate * (now - b.last))
  }

  /** A token is taken if a whole one is there; otherwise nothing changes. */
  function Take(b: Bucket, now: real): (Bucket, bool) {
    var tokens := Available(b, now);
    if tokens >= 1.0 then (b.(tokens := tokens - 1.0, last := now), true) else (b, false)
  }

  // -------------------------------------------------------------- the limiter

  datatype Entry = Entry(bucket: Bucket, lastSeen: real)

  datatype Limiter = Limiter(global: Option<Bucket>, keys: map<string, Entry>)

  /** What happens at one moment; a sweep is a tick of the cleanup goroutine. */
  datatype Event = Allow(key: string, at: real) | Sweep(at: real)

  function New(c: Config, now: real): Limiter {
    Limiter(if c.globalPerSec > 0.0 then Some(NewBucket(c.globalPerSec, c.globalPerSec.Floor, now)) else None, map[])
  }

  function Entries(c: Config, keys: map<string, Entry>, key: string, now: real): Entry {
    if key in keys then keys[key]
    else Entry(NewBucket(c.perKeyPerSec, c.perKeyBurst, now), now)
  }

  function AllowEffect(c: Config, l: Limiter, key: string, now: real): (Limiter, bool) {
    var (global, passed) := match l.global
      case Some(b) => var (b', ok) := Take(b, now); (Some(b'), ok)
      case None => (None, true);
    if !passed || c.perKeyPerSec <= 0.0 then (Limiter(global, l.keys), passed)
    else
      var (b, ok) := Take(Entries(c, l.keys, key, now).bucket, now);
      (Limiter(global, l.keys[key := Entry(b, now)]), ok)
  }

  function SweepEffect(c: Config, l: Limiter, now: real): Limiter {
    l.(keys := map key | key in l.keys && !(l.keys[key].lastSeen < now - c.keyLimiterTTL) :: l.keys[key])
  }

  datatype Outcome = Outcome(limiter: Limiter, answers: seq<Option<bool>>)

  /** One event, and the answer if it was a request. Without the cleanup goroutine, nothing is swept. */
  function Next(c: Config, cleanup: bool, l: Limiter, e: Event): (Limiter, Option<bool>) {
    match e
    case Allow(key, at) => var (l', ok) := AllowEffect(c, l, key, at); (l', Some(ok))
    case Sweep(at) => (if cleanup && c.keyLimiterTTL > 0.0 then SweepEffect(c, l, at) else l, None)
  }

  function Run(c: Config, cleanup: bool, l: Limiter, es: seq<Event>): (o: Outcome)
    ensures |o.answers| == |es|
    decreases |es|
  {
    if es == [] then Outcome(l, [])
    else
      var (l', a) := Next(c, cleanup, l, es[0]);
      var o := Run(c, cleanup, l', es[1..]);
      Outcome(o.limiter, [a] + o.answers)
  }

  predicate InOrder(es: seq<Event>, start: real) {
    && (forall i :: 0 <= i < |es| ==> start <= es[i].at)
    && (forall i, j :: 0 <= i < j < |es| ==> es[i].at <= es[j].at)
  }

  lemma {:induction false} RunAppend(c: Config, cleanup: bool, l: Limiter, a: seq<Event>, b: seq<Event>)
    ensures var o1 := Run(c, cleanup, l, a);
            var o2 := Run(c, cleanup, o1.limiter, b);
            Run(c, cleanup, l, a + b) == Outcome(o2.limiter, o1.answers + o2.answers)
    decreases |a|
  {
    hide Next;
    if a == [] {
      assert a + b == b;
      assert [] + Run(c, cleanup, l, b).answers == Run(c, cleanup, l, b).answers;
    } else {
      var (l', first) := Next(c, cleanup, l, a[0]);
      RunAppend(c, cleanup, l', a[1..], b);
      assert (a + b)[0] == a[0] && (a + b)[1..] == a[1..] + b;
      var o1 := Run(c, cleanup, l', a[1..]);
      var o2 := Run(c, cleanup, o1.limiter, b);
      assert [first] + (o1.answers + o2.answers) == [first] + o1.answers + o2.answers;
    }
  }

  // ------------------------------------------------------------ sound buckets

  /** Last touched by `now`, never overdrawn, never overfull. */
  predicate Sound(b: Bucket, now: real) {
    && b.rate >= 0.0 && b.last <= now
    && (b.tokens >= 0.0 || b.tokens == b.burst as real) && b.tokens <= b.burst as real
  }

  predicate Full(b: Bucket, now: real) {
    Available(b, now) == b.burst as real
  }

  lemma {:induction false} Products(rate: real, x: real, y: real)
    requires rate >= 0.0 && x <= y
    ensures rate * x <= rate * y && rate * (y - x) == rate * y - rate * x
  {
  }

  lemma {:induction false} Accrued(rate: real, x: real, y: real, d: real)
    requires rate >= 0.0 && d >= 0.0 && y == x + d
    ensures rate * y == rate * x + rate * d && rate * d >= 0.0
  {
    Products(rate, 0.0, d);
  }

  lemma {:induction false} TakeKeepsSound(b: Bucket, now: real)
    requires Sound(b, now)
    ensures Sound(Take(b, now).0, now)
    ensures Available(b, now) <= b.burst as real
  {
    Products(b.rate, 0.0, now - b.last);
  }

  /** Waiting earns at most what the rate says, and nothing is lost by it. */
  lemma {:induction false} Waiting(b: Bucket, now: real, later: real)
    requires Sound(b, now) && now <= later
    ensures Available(b, now) <= Available(b, later) <= Available(b, now) + b.rate * (later - now)
    ensures Full(b, now) ==> Full(b, later)
  {
    Accrued(b.rate, now - b.last, later - b.last, later - now);
  }

  predicate EntryOk(c: Config, e: Entry, now: real) {
    && Sound(e.bucket, e.lastSeen) && e.lastSeen <= now
    && e.bucket.rate == c.perKeyPerSec && e.bucket.burst == c.perKeyBurst
  }

  predicate EntriesOk(c: Config, keys: map<string, Entry>, now: real) {
    forall key :: key in keys ==> EntryOk(c, keys[key], now)
  }

  // ------------------------------------------------- eviction cannot be observed

  /** An entry idle for longer than the TTL has filled up. */
  predicate Refills(c: Config) {
    c.perKeyPerSec * c.keyLimiterTTL >= c.perKeyBurst as real
  }

  /** What a sweep may delete has always filled up; without a TTL nothing is swept at all. */
  predicate EvictsOnlyFull(c: Config) {
    c.keyLimiterTTL <= 0.0 || Refills(c)
  }

  predicate Alike(a: Entry, b: Entry, now: real) {
    a.lastSeen == b.lastSeen && (a.bucket == b.bucket || (Full(a.bucket, now) && Full(b.bucket, now)))
  }

  /** `l` with its evictions, next to `f`, which keeps every key. */
  predicate Indistinguishable(c: Config, l: Limiter, f: Limiter, now: real) {
    && l.global == f.global
    && EntriesOk(c, l.keys, now) && EntriesOk(c, f.keys, now)
    && (forall key :: key in l.keys ==> key in f.keys && Alike(l.keys[key], f.keys[key], now))
    && (forall key :: key in f.keys && key !in l.keys ==> Full(f.keys[key].bucket, now))
  }

  lemma {:induction false} LaterStillIndistinguishable(c: Config, l: Limiter, f: Limiter, now: real, later: real)
    requires Indistinguishable(c, l, f, now) && now <= later
    ensures Indistinguishable(c, l, f, later)
  {
    forall key | key in f.keys
      ensures Full(f.keys[key].bucket, now) ==> Full(f.keys[key].bucket, later)
    {
      Waiting(f.keys[key].bucket, now, later);
    }
    forall key | key in l.keys
      ensures Full(l.keys[key].bucket, now) ==> Full(l.keys[key].bucket, later)
    {
      Waiting(l.keys[key].bucket, now, later);
    }
  }

  lemma {:induction false} TakeFromAlike(c: Config, a: Bucket, b: Bucket, now: real)
    requires Sound(a, now) && Sound(b, now) && a.rate == b.rate && a.burst == b.burst
    requires a == b || (Full(a, now) && Full(b, now))
    ensures Take(a, now).1 == Take(b, now).1
    ensures var a', b' := Take(a, now).0, Take(b, now).0;
            a' == b' || (Full(a', now) && Full(b', now))
  {
  }

  lemma {:induction false} NewIsFull(c: Config, now: real)
    requires c.perKeyPerSec > 0.0
    ensures EntryOk(c, Entry(NewBucket(c.perKeyPerSec, c.perKeyBurst, now), now), now)
    ensures Full(NewBucket(c.perKeyPerSec, c.perKeyBurst, now), now)
  {
    assert c.perKeyPerSec * (now - now) == 0.0;
  }

  lemma {:induction false} UpdateAlike(c: Config, l: Limiter, f: Limiter, key: string, a: Entry, b: Entry, now: real)
    requires Indistinguishable(c, l, f, now)
    requires EntryOk(c, a, now) && EntryOk(c, b, now) && Alike(a, b, now)
    ensures Indistinguishable(c, l.(keys := l.keys[key := a]), f.(keys := f.keys[key := b]), now)
  {
    hide EntryOk, Alike, Full;
  }

  lemma {:induction false} AllowAlike(c: Config, l: Limiter, f: Limiter, key: string, now: real)
    requires Indistinguishable(c, l, f, now)
    ensures AllowEffect(c, l, key, now).1 == AllowEffect(c, f, key, now).1
    ensures Indistinguishable(c, AllowEffect(c, l, key, now).0, AllowEffect(c, f, key, now).0, now)
  {
    hide Available, Take, Full;
    if c.perKeyPerSec > 0.0 {
      NewIsFull(c, now);
      var a, b := Entries(c, l.keys, key, now), Entries(c, f.keys, key, now);
      TakeFromAlike(c, a.bucket, b.bucket, now);
      TakeKeepsSound(a.bucket, now);
      TakeKeepsSound(b.bucket, now);
      TakeKeepsShape(a.bucket, now);
      TakeKeepsShape(b.bucket, now);
      var a', b' := Entry(Take(a.bucket, now).0, now), Entry(Take(b.bucket, now).0, now);
      UpdateAlike(c, l, f, key, a', b', now);
      hide Indistinguishable;
      var l', f' := l.(keys := l.keys[key := a']), f.(keys := f.keys[key := b']);
      GlobalAlike(c, l', f', AllowEffect(c, l, key, now).0.global, now);
    }
    GlobalAlike(c, l, f, AllowEffect(c, l, key, now).0.global, now);
  }

  lemma {:induction false} GlobalAlike(c: Config, l: Limiter, f: Limiter, global: Option<Bucket>, now: real)
    requires Indistinguishable(c, l, f, now)
    ensures Indistinguishable(c, l.(global := global), f.(global := global), now)
  {
  }

  lemma {:induction false} TakeKeepsShape(b: Bucket, now: real)
    ensures Take(b, now).0.rate == b.rate && Take(b, now).0.burst == b.burst
  {
  }

  /** What a sweep deletes is full, so deleting it loses nothing. */
  lemma {:induction false} EvictedIsFull(c: Config, e: Entry, now: real)
    requires Refills(c) && EntryOk(c, e, now) && e.lastSeen < now - c.keyLimiterTTL
    ensures Full(e.bucket, now)
  {
    Products(c.perKeyPerSec, c.keyLimiterTTL, now - e.bucket.last);
    Products(c.perKeyPerSec, 0.0, now - e.bucket.last);
  }

  lemma {:induction false} SweepAlike(c: Config, l: Limiter, f: Limiter, now: real)
    requires Refills(c) && Indistinguishable(c, l, f, now)
    ensures Indistinguishable(c, SweepEffect(c, l, now), f, now)
  {
    hide Available;
    forall key | key in l.keys && l.keys[key].lastSeen < now - c.keyLimiterTTL
      ensures Full(f.keys[key].bucket, now)
    {
      EvictedIsFull(c, f.keys[key], now);
    }
  }

  lemma {:induction false} RunsAlike(c: Config, l: Limiter, f: Limiter, es: seq<Event>, now: real)
    requires EvictsOnlyFull(c) && InOrder(es, now) && Indistinguishable(c, l, f, now)
    ensures Run(c, true, l, es).answers == Run(c, false, f, es).answers
    decreases |es|
  {
    hide Indistinguishable, SweepEffect, Refills, Take, AllowEffect;
    if es != [] {
      var at := es[0].at;
      LaterStillIndistinguishable(c, l, f, now, at);
      if es[0].Allow? {
        AllowAlike(c, l, f, es[0].key, at);
      } else if c.keyLimiterTTL > 0.0 {
        SweepAlike(c, l, f, at);
      }
      var (l', a) := Next(c, true, l, es[0]);
      var (f', b) := Next(c, false, f, es[0]);
      assert a == b;
      RunsAlike(c, l', f', es[1..], at);
    }
  }

  /** Every answer of the evicting limiter is that of one that never deletes a key. */
  lemma {:induction false} EvictionUnobservable(c: Config, es: seq<Event>, start: real)
    requires EvictsOnlyFull(c) && InOrder(es, start)
    ensures Run(c, true, New(c, start), es).answers == Run(c, false, New(c, start), es).answers
  {
    RunsAlike(c, New(c, start), New(c, start), es, start);
  }

  // ---------------------------------------------------- and only then is it so

  function Allows(key: string, at: real, n: nat): seq<Event> {
    seq(n, _ => Allow(key, at))
  }

  predicate AllTrue(answers: seq<Option<bool>>) {
    forall k :: 0 <= k < |answers| ==> answers[k] == Some(true)
  }

  predicate KeyedOnly(c: Config, l: Limiter) {
    c.perKeyPerSec > 0.0 && l.global.None?
  }

  lemma {:induction false} TouchedNow(b: Bucket, now: real)
    requires b.last == now
    ensures Available(b, now) == Min(b.burst as real, b.tokens)
  {
    TimesZero(b.rate, now - b.last);
  }

  lemma {:induction false} TimesZero(rate: real, x: real)
    requires x == 0.0
    ensures rate * x == 0.0
  {
  }

  lemma {:induction false} TakeNow(b: Bucket, at: real)
    requires Available(b, at) >= 1.0
    ensures Take(b, at) == (b.(tokens := Available(b, at) - 1.0, last := at), true)
    ensures Available(Take(b, at).0, at) == Available(b, at) - 1.0
  {
    TouchedNow(Take(b, at).0, at);
  }

  /** `n` requests at one moment all pass exactly when there are `n` whole tokens. */
  lemma {:induction false} Burst(c: Config, cleanup: bool, l: Limiter, key: string, at: real, n: nat)
    requires KeyedOnly(c, l)
    requires var b := Entries(c, l.keys, key, at).bucket; b.rate == c.perKeyPerSec && b.burst == c.perKeyBurst
    ensures var a := Available(Entries(c, l.keys, key, at).bucket, at);
            var o := Run(c, cleanup, l, Allows(key, at, n));
            && (n > 0 ==> (AllTrue(o.answers) <==> a >= n as real))
            && (n > 0 && a >= n as real ==>
                  o.limiter ==
                  Limiter(None, l.keys[key := Entry(Bucket(c.perKeyPerSec, c.perKeyBurst, a - n as real, at), at)]))
    decreases n
  {
    hide Available, Next, Run, Take, AllTrue;
    if n > 0 {
      FirstAllow(c, cleanup, l, key, at, n);
      NextAllow(c, cleanup, l, key, at);
      var a := Available(Entries(c, l.keys, key, at).bucket, at);
      var (l', answer) := Next(c, cleanup, l, Allow(key, at));
      var later := Run(c, cleanup, l', Allows(key, at, n - 1)).answers;
      AllTrueCons(answer, later);
      if a >= 1.0 {
        TouchedNow(Bucket(c.perKeyPerSec, c.perKeyBurst, a - 1.0, at), at);
        AvailableBound(Entries(c, l.keys, key, at).bucket, at);
        Burst(c, cleanup, l', key, at, n - 1);
        if n == 1 {
          NoneAllowed(c, cleanup, l', key, at);
        }
      }
    }
  }

  lemma {:induction false} AvailableBound(b: Bucket, now: real)
    ensures Available(b, now) <= b.burst as real
  {
  }

  lemma {:induction false} AllTrueCons(first: Option<bool>, later: seq<Option<bool>>)
    ensures AllTrue([first] + later) <==> first == Some(true) && AllTrue(later)
  {
    var all := [first] + later;
    assert all[0] == first && forall k :: 0 <= k < |later| ==> all[k + 1] == later[k];
  }

  lemma {:induction false} FirstAllow(c: Config, cleanup: bool, l: Limiter, key: string, at: real, n: nat)
    requires n > 0
    ensures var (l', answer) := Next(c, cleanup, l, Allow(key, at));
            var o := Run(c, cleanup, l', Allows(key, at, n - 1));
            Run(c, cleanup, l, Allows(key, at, n)) == Outcome(o.limiter, [answer] + o.answers)
  {
    hide Next;
    assert Allows(key, at, n)[1..] == Allows(key, at, n - 1);
  }

  lemma {:induction false} NoneAllowed(c: Config, cleanup: bool, l: Limiter, key: string, at: real)
    ensures Run(c, cleanup, l, Allows(key, at, 0)) == Outcome(l, [])
    ensures AllTrue([])
  {
  }

  /** One request to a limiter by key alone. */
  lemma {:induction false} NextAllow(c: Config, cleanup: bool, l: Limiter, key: string, at: real)
    requires KeyedOnly(c, l)
    requires var b := Entries(c, l.keys, key, at).bucket; b.rate == c.perKeyPerSec && b.burst == c.perKeyBurst
    ensures var a := Available(Entries(c, l.keys, key, at).bucket, at);
            var (l', answer) := Next(c, cleanup, l, Allow(key, at));
            if a >= 1.0
            then answer == Some(true) &&
                 l' == Limiter(None, l.keys[key := Entry(Bucket(c.perKeyPerSec, c.perKeyBurst, a - 1.0, at), at)])
            else answer == Some(false)
  {
    hide Available;
  }

  function Sweeps(es: seq<Event>): nat {
    if es == [] then 0 else Sweeps(es[..|es| - 1]) + if es[|es| - 1].Sweep? then 1 else 0
  }

  /** The moment of the first tick after the first `i` events. */
  function NextTick(c: Config, es: seq<Event>, start: real, i: nat): real
    requires i <= |es|
  {
    start + (Sweeps(es[..i]) + 1) as real * c.keyLimiterTTL
  }

  /** Sweeps at every multiple of the TTL, and at no other moment. */
  predicate OnTicks(c: Config, es: seq<Event>, start: real) {
    forall i :: 0 <= i < |es| ==>
      es[i].at <= NextTick(c, es, start, i) && (es[i].Sweep? ==> es[i].at == NextTick(c, es, start, i))
  }

  /** How long before the first tick the bucket is drained: it is then not full at the second. */
  function Lead(c: Config): real
    requires c.perKeyPerSec > 0.0
  {
    Min(c.keyLimiterTTL, c.perKeyBurst as real / c.perKeyPerSec - c.keyLimiterTTL) / 2.0
  }

  /** Drain the bucket just before the first tick, let the second one sweep the entry, and ask again. */
  function Witness(c: Config): seq<Event>
    requires c.perKeyPerSec > 0.0 && c.perKeyBurst >= 0
  {
    var ttl := c.keyLimiterTTL;
    Allows("", ttl - Lead(c), c.perKeyBurst) +
    ([Sweep(ttl)] + ([Sweep(2.0 * ttl)] + Allows("", 2.0 * ttl, c.perKeyBurst)))
  }

  lemma {:induction false} LeadFits(c: Config)
    requires c.perKeyPerSec > 0.0 && c.keyLimiterTTL > 0.0 && !Refills(c)
    ensures 0.0 < Lead(c) < c.keyLimiterTTL
    ensures c.perKeyPerSec * (c.keyLimiterTTL + Lead(c)) < c.perKeyBurst as real
  {
    var rate, ttl := c.perKeyPerSec, c.keyLimiterTTL;
    var full := c.perKeyBurst as real / rate;
    assert rate * full == c.perKeyBurst as real;
    if ttl >= full {
      Products(rate, full, ttl);
      assert false;
    }
    Strictly(rate, ttl + Lead(c), full);
  }

  lemma {:induction false} Strictly(rate: real, x: real, y: real)
    requires rate > 0.0 && x < y
    ensures rate * x < rate * y
  {
  }

  lemma {:induction false} WitnessAt(c: Config, i: nat)
    requires c.perKeyPerSec > 0.0 && c.perKeyBurst >= 0 && i < |Witness(c)|
    ensures |Witness(c)| == 2 * c.perKeyBurst + 2
    ensures var n, ttl := c.perKeyBurst, c.keyLimiterTTL;
            Witness(c)[i] ==
            if i < n then Allow("", ttl - Lead(c)) else if i == n then Sweep(ttl)
            else if i == n + 1 then Sweep(2.0 * ttl) else Allow("", 2.0 * ttl)
  {
  }

  lemma {:induction false} WitnessSweeps(c: Config, i: nat)
    requires c.perKeyPerSec > 0.0 && c.perKeyBurst >= 0 && i <= |Witness(c)|
    ensures var n := c.perKeyBurst;
            Sweeps(Witness(c)[..i]) == if i <= n then 0 else if i == n + 1 then 1 else 2
  {
    hide Witness;
    if i > 0 {
      WitnessSweeps(c, i - 1);
      WitnessAt(c, i - 1);
      assert Witness(c)[..i][..i - 1] == Witness(c)[..i - 1];
    }
  }

  lemma {:induction false} WitnessOnTicks(c: Config)
    requires c.perKeyPerSec > 0.0 && c.perKeyBurst >= 0 && c.keyLimiterTTL > 0.0 && !Refills(c)
    ensures InOrder(Witness(c), 0.0) && OnTicks(c, Witness(c), 0.0)
  {
    hide Witness, Lead, Refills;
    LeadFits(c);
    forall i | 0 <= i < |Witness(c)|
      ensures Witness(c)[i].at <= NextTick(c, Witness(c), 0.0, i)
      ensures Witness(c)[i].Sweep? ==> Witness(c)[i].at == NextTick(c, Witness(c), 0.0, i)
    {
      WitnessAt(c, i);
      WitnessSweeps(c, i);
    }
    forall i, j | 0 <= i < j < |Witness(c)|
      ensures 0.0 <= Witness(c)[i].at <= Witness(c)[j].at
    {
      WitnessAt(c, i);
      WitnessAt(c, j);
    }
    forall i | 0 <= i < |Witness(c)|
      ensures 0.0 <= Witness(c)[i].at
    {
      WitnessAt(c, i);
    }
  }

  lemma {:induction false} EvictionShows(c: Config)
    requires c.globalPerSec <= 0.0 && c.perKeyPerSec > 0.0 && c.keyLimiterTTL > 0.0 && !Refills(c)
    requires c.perKeyBurst > 0
    ensures InOrder(Witness(c), 0.0) && OnTicks(c, Witness(c), 0.0)
    ensures Run(c, true, New(c, 0.0), Witness(c)).answers != Run(c, false, New(c, 0.0), Witness(c)).answers
  {
    hide Run, SweepEffect, Lead, OnTicks, InOrder, Refills, Witness, Next, AllTrue;
    WitnessOnTicks(c);
    LeadFits(c);
    var n, l, ttl := c.perKeyBurst, New(c, 0.0), c.keyLimiterTTL;
    var second := Allows("", 2.0 * ttl, n);
    WitnessRun(c, true);
    WitnessRun(c, false);
    SweepDeletes(c, Drained(c), 2.0 * ttl);
    NextSweep(c, Drained(c), 2.0 * ttl);
    NewIsFull(c, 2.0 * ttl);
    Burst(c, true, Limiter(None, map[]), "", 2.0 * ttl, n);
    Burst(c, false, Drained(c), "", 2.0 * ttl, n);
    var evicted := Run(c, true, Limiter(None, map[]), second).answers;
    var kept := Run(c, false, Drained(c), second).answers;
    var first := Allows("", ttl - Lead(c), n);
    LastPartDiffers([None], [None], evicted, kept);
    LastPartDiffers([None], [None], [None] + evicted, [None] + kept);
    LastPartDiffers(Run(c, true, l, first).answers, Run(c, false, l, first).answers,
                    [None] + ([None] + evicted), [None] + ([None] + kept));
  }

  /** The limiter after the first burst of the witness. */
  function Drained(c: Config): Limiter
    requires c.perKeyPerSec > 0.0
  {
    var d := c.keyLimiterTTL - Lead(c);
    Limiter(None, map["" := Entry(Bucket(c.perKeyPerSec, c.perKeyBurst, 0.0, d), d)])
  }

  lemma {:induction false} NextSweep(c: Config, l: Limiter, at: real)
    requires c.keyLimiterTTL > 0.0
    ensures Next(c, true, l, Sweep(at)).0 == SweepEffect(c, l, at) && Next(c, false, l, Sweep(at)).0 == l
  {
  }

  /** The first tick deletes nothing, so the runs can only differ after the second. */
  lemma {:induction false} WitnessRun(c: Config, cleanup: bool)
    requires c.globalPerSec <= 0.0 && c.perKeyPerSec > 0.0 && c.keyLimiterTTL > 0.0 && !Refills(c)
    requires c.perKeyBurst > 0
    ensures var n, ttl := c.perKeyBurst, c.keyLimiterTTL;
            var swept := Next(c, cleanup, Drained(c), Sweep(2.0 * ttl)).0;
            Run(c, cleanup, New(c, 0.0), Witness(c)).answers ==
            Run(c, cleanup, New(c, 0.0), Allows("", ttl - Lead(c), n)).answers +
            ([None] + ([None] + Run(c, cleanup, swept, Allows("", 2.0 * ttl, n)).answers))
  {
    hide Run, SweepEffect, Lead, Refills, Next;
    LeadFits(c);
    var n, l, ttl := c.perKeyBurst, New(c, 0.0), c.keyLimiterTTL;
    var d := ttl - Lead(c);
    var first, second := Allows("", d, n), Allows("", 2.0 * ttl, n);
    NewIsFull(c, d);
    Burst(c, cleanup, l, "", d, n);
    SweepKeepsRecent(c, Drained(c), ttl);
    NextSweep(c, Drained(c), ttl);
    RunAppend(c, cleanup, l, first, [Sweep(ttl)] + ([Sweep(2.0 * ttl)] + second));
    SweepFirst(c, cleanup, Drained(c), ttl, [Sweep(2.0 * ttl)] + second);
    SweepFirst(c, cleanup, Drained(c), 2.0 * ttl, second);
  }

  lemma {:induction false} SweepKeepsRecent(c: Config, l: Limiter, at: real)
    requires l.keys.Keys == {""} && l.keys[""].lastSeen >= at - c.keyLimiterTTL
    ensures SweepEffect(c, l, at) == l
  {
    assert SweepEffect(c, l, at).keys == l.keys;
  }

  lemma {:induction false} SweepFirst(c: Config, cleanup: bool, l: Limiter, d: real, rest: seq<Event>)
    ensures Run(c, cleanup, l, [Sweep(d)] + rest).answers ==
            [None] + Run(c, cleanup, Next(c, cleanup, l, Sweep(d)).0, rest).answers
  {
    assert ([Sweep(d)] + rest)[1..] == rest;
  }

  lemma {:induction false} SweepDeletes(c: Config, l: Limiter, d: real)
    requires l.keys.Keys == {""} && l.keys[""].lastSeen < d - c.keyLimiterTTL
    ensures SweepEffect(c, l, d) == l.(keys := map[])
  {
  }

  lemma {:induction false} LastPartDiffers<T>(a: seq<T>, b: seq<T>, x: seq<T>, y: seq<T>)
    requires |a| == |b| && x != y
    ensures a + x != b + y
  {
    assert (a + x)[|a|..] == x && (b + y)[|b|..] == y;
  }

  /**
   The exact condition, for a limiter by key alone, over the runs whose sweeps are the
   ticks of its cleanup.
   */
  lemma {:induction false} UnobservableExactly(c: Config)
    requires c.globalPerSec <= 0.0 && c.perKeyPerSec > 0.0
    ensures (forall es, start :: InOrder(es, start) && OnTicks(c, es, start) ==>
              Run(c, true, New(c, start), es).answers == Run(c, false, New(c, start), es).answers)
            <==> EvictsOnlyFull(c)
  {
    if EvictsOnlyFull(c) {
      forall es, start | InOrder(es, start)
        ensures Run(c, true, New(c, start), es).answers == Run(c, false, New(c, start), es).answers
      {
        EvictionUnobservable(c, es, start);
      }
    } else {
      Products(c.perKeyPerSec, 0.0, c.keyLimiterTTL);
      EvictionShows(c);
    }
  }

  // ------------------------------------------------------------ how many pass

  function Passed(e: Event, answer: Option<bool>, key: Option<string>): nat {
    if e.Allow? && (key.None? || e.key == key.value) && answer == Some(true) then 1 else 0
  }

  /** How many requests passed, of one key or of all. */
  function Admitted(es: seq<Event>, answers: seq<Option<bool>>, key: Option<string>): nat
    requires |es| == |answers|
  {
    if es == [] then 0 else Passed(es[0], answers[0], key) + Admitted(es[1..], answers[1..], key)
  }

  lemma {:induction false} FirstAdmitted(c: Config, cleanup: bool, l: Limiter, es: seq<Event>, key: Option<string>)
    requires es != []
    ensures var (l', a) := Next(c, cleanup, l, es[0]);
            Admitted(es, Run(c, cleanup, l, es).answers, key) ==
            Passed(es[0], a, key) + Admitted(es[1..], Run(c, cleanup, l', es[1..]).answers, key)
    ensures es[1..] == [] ==> Admitted(es[1..], Run(c, cleanup, Next(c, cleanup, l, es[0]).0, es[1..]).answers, key) == 0
  {
    hide Next, Passed;
  }

  function Span(es: seq<Event>): real {
    if es == [] then 0.0 else es[|es| - 1].at - es[0].at
  }

  predicate LimiterOk(c: Config, l: Limiter, now: real) {
    && (l.global.Some? ==> Sound(l.global.value, now))
    && EntriesOk(c, l.keys, now)
  }

  lemma {:induction false} NextKeepsOk(c: Config, cleanup: bool, l: Limiter, e: Event, now: real)
    requires LimiterOk(c, l, now) && now <= e.at
    ensures LimiterOk(c, Next(c, cleanup, l, e).0, e.at)
  {
    hide Available, Take;
    if l.global.Some? {
      TakeKeepsSound(l.global.value, e.at);
    }
    if e.Allow? && c.perKeyPerSec > 0.0 {
      NewIsFull(c, e.at);
      var b := Entries(c, l.keys, e.key, e.at).bucket;
      TakeKeepsSound(b, e.at);
      TakeKeepsShape(b, e.at);
    }
  }

  /** The tokens a key has; all of them if it has not been seen. */
  function KeyTokens(c: Config, l: Limiter, key: string, now: real): real {
    Available(Entries(c, l.keys, key, now).bucket, now)
  }

  lemma {:induction false} TokensBound(b: Bucket, now: real)
    requires Sound(b, now) && b.burst >= 0
    ensures 0.0 <= Available(b, now) <= b.burst as real
  {
    Accrued(b.rate, 0.0, now - b.last, now - b.last);
  }

  lemma {:induction false} KeyBucketSound(c: Config, l: Limiter, key: string, now: real)
    requires LimiterOk(c, l, now) && c.perKeyPerSec > 0.0
    ensures var b := Entries(c, l.keys, key, now).bucket;
            Sound(b, now) && b.rate == c.perKeyPerSec && b.burst == c.perKeyBurst
  {
  }

  lemma {:induction false} KeyTokensBound(c: Config, l: Limiter, key: string, now: real)
    requires LimiterOk(c, l, now) && c.perKeyPerSec > 0.0 && c.perKeyBurst >= 0
    ensures 0.0 <= KeyTokens(c, l, key, now) <= c.perKeyBurst as real
  {
    KeyBucketSound(c, l, key, now);
    TokensBound(Entries(c, l.keys, key, now).bucket, now);
  }

  /** A key's tokens at a later moment, whether or not it has been seen. */
  lemma {:induction false} KeyTokensLater(c: Config, l: Limiter, key: string, now: real, later: real)
    requires LimiterOk(c, l, now) && c.perKeyPerSec > 0.0 && now <= later
    ensures KeyTokens(c, l, key, later) <= KeyTokens(c, l, key, now) + c.perKeyPerSec * (later - now)
  {
    if key in l.keys {
      Waiting(l.keys[key].bucket, now, later);
    } else {
      NewIsFull(c, now);
      NewIsFull(c, later);
      Products(c.perKeyPerSec, 0.0, later - now);
    }
  }

  /** What one event costs a key that is never forgotten. */
  lemma {:induction false} KeyTokensStep(c: Config, l: Limiter, e: Event, key: string)
    requires LimiterOk(c, l, e.at) && c.perKeyPerSec > 0.0
    ensures var (l', a) := Next(c, false, l, e);
            KeyTokens(c, l', key, e.at) + Passed(e, a, Some(key)) as real <= KeyTokens(c, l, key, e.at)
  {
    hide Available, Sound;
    var b := Entries(c, l.keys, key, e.at).bucket;
    if Available(b, e.at) >= 1.0 {
      TakeNow(b, e.at);
    }
  }

  lemma {:induction false} KeyBound(c: Config, l: Limiter, es: seq<Event>, key: string, now: real)
    requires es != [] && InOrder(es, now) && LimiterOk(c, l, now)
    requires c.perKeyPerSec > 0.0 && c.perKeyBurst >= 0
    ensures Admitted(es, Run(c, false, l, es).answers, Some(key)) as real <=
            KeyTokens(c, l, key, es[0].at) + c.perKeyPerSec * Span(es)
    decreases |es|
  {
    hide KeyTokens, LimiterOk, Passed, Admitted, Run, Next;
    var at, rest := es[0].at, es[1..];
    OkLater(c, l, now, at);
    var (l', _) := Next(c, false, l, es[0]);
    NextKeepsOk(c, false, l, es[0], at);
    KeyTokensStep(c, l, es[0], key);
    FirstAdmitted(c, false, l, es, Some(key));
    if rest == [] {
      TimesZero(c.perKeyPerSec, Span(es));
      KeyTokensBound(c, l', key, at);
    } else {
      KeyTokensLater(c, l', key, at, rest[0].at);
      KeyBound(c, l', rest, key, at);
      Accrued(c.perKeyPerSec, rest[0].at - at, Span(es), Span(rest));
    }
  }

  lemma {:induction false} OkLater(c: Config, l: Limiter, now: real, later: real)
    requires LimiterOk(c, l, now) && now <= later
    ensures LimiterOk(c, l, later)
  {
  }

  lemma {:induction false} RunKeepsOk(c: Config, cleanup: bool, l: Limiter, es: seq<Event>, now: real)
    requires InOrder(es, now) && LimiterOk(c, l, now)
    ensures LimiterOk(c, Run(c, cleanup, l, es).limiter, if es == [] then now else es[|es| - 1].at)
    decreases |es|
  {
    hide LimiterOk, Next;
    if es != [] {
      NextKeepsOk(c, cleanup, l, es[0], now);
      RunKeepsOk(c, cleanup, Next(c, cleanup, l, es[0]).0, es[1..], es[0].at);
    }
  }

  /** Within any window of a run, one key passes at most its burst and what the window earns. */
  lemma {:induction false} KeyAdmissionBound(c: Config, es: seq<Event>, start: real, i: nat, j: nat, key: string)
    requires i < j <= |es| && InOrder(es, start) && EvictsOnlyFull(c)
    requires c.perKeyPerSec > 0.0 && c.perKeyBurst >= 0
    ensures var answers := Run(c, true, New(c, start), es).answers;
            Admitted(es[i..j], answers[i..j], Some(key)) as real <=
            c.perKeyBurst as real + c.perKeyPerSec * Span(es[i..j])
  {
    hide Run, LimiterOk, KeyTokens, Admitted, EvictsOnlyFull, InOrder;
    EvictionUnobservable(c, es, start);
    NewIsOk(c, start);
    WindowInOrder(es, start, i, j);
    var l := Run(c, false, New(c, start), es[..i]).limiter;
    RunKeepsOk(c, false, New(c, start), es[..i], start);
    var now := if i == 0 then start else es[i - 1].at;
    WindowAnswers(c, false, New(c, start), es, i, j);
    KeyBound(c, l, es[i..j], key, now);
    OkLater(c, l, now, es[i].at);
    KeyTokensBound(c, l, key, es[i].at);
  }

  lemma {:induction false} WindowInOrder(es: seq<Event>, start: real, i: nat, j: nat)
    requires i < j <= |es| && InOrder(es, start)
    ensures InOrder(es[..i], start)
    ensures var now := if i == 0 then start else es[i - 1].at;
            InOrder(es[i..j], now) && now <= es[i].at
  {
  }

  lemma {:induction false} NewIsOk(c: Config, start: real)
    ensures LimiterOk(c, New(c, start), start)
  {
  }

  lemma {:induction false} WindowAnswers(c: Config, cleanup: bool, l: Limiter, es: seq<Event>, i: nat, j: nat)
    requires i < j <= |es|
    ensures Run(c, cleanup, Run(c, cleanup, l, es[..i]).limiter, es[i..j]).answers ==
            Run(c, cleanup, l, es).answers[i..j]
  {
    hide Run;
    RunAppend(c, cleanup, l, es[..i], es[i..j]);
    assert es[..i] + es[i..j] == es[..j] && es[..j] + es[j..] == es;
    RunAppend(c, cleanup, l, es[..j], es[j..]);
  }

  /** What one event costs the bucket all requests share. */
  lemma {:induction false} GlobalStep(c: Config, l: Limiter, e: Event)
    requires LimiterOk(c, l, e.at) && l.global.Some?
    ensures var (l', a) := Next(c, true, l, e);
            l'.global.Some? && Available(l'.global.value, e.at) + Passed(e, a, None) as real <=
                               Available(l.global.value, e.at)
  {
    hide Available, Sound;
    if Available(l.global.value, e.at) >= 1.0 {
      TakeNow(l.global.value, e.at);
    }
  }

  lemma {:induction false} GlobalBound(c: Config, l: Limiter, es: seq<Event>, now: real)
    requires es != [] && InOrder(es, now) && LimiterOk(c, l, now)
    requires l.global.Some? && l.global.value.burst >= 0
    ensures Admitted(es, Run(c, true, l, es).answers, None) as real <=
            Available(l.global.value, es[0].at) + l.global.value.rate * Span(es)
    decreases |es|
  {
    hide Available, Passed, Admitted, Run, Next, LimiterOk;
    var at, rest, rate := es[0].at, es[1..], l.global.value.rate;
    OkLater(c, l, now, at);
    var (l', _) := Next(c, true, l, es[0]);
    NextKeepsOk(c, true, l, es[0], at);
    GlobalKeepsBurst(c, l, es[0]);
    GlobalStep(c, l, es[0]);
    FirstAdmitted(c, true, l, es, None);
    if rest == [] {
      TimesZero(rate, Span(es));
      GlobalWaiting(c, l', at, at);
    } else {
      GlobalWaiting(c, l', at, rest[0].at);
      GlobalBound(c, l', rest, at);
      Accrued(rate, rest[0].at - at, Span(es), Span(rest));
    }
  }

  lemma {:induction false} GlobalWaiting(c: Config, l: Limiter, now: real, later: real)
    requires LimiterOk(c, l, now) && l.global.Some? && l.global.value.burst >= 0 && now <= later
    ensures var b := l.global.value;
            b.rate >= 0.0 && 0.0 <= Available(b, now) && Available(b, later) <= Available(b, now) + b.rate * (later - now)
  {
    hide Available;
    TokensBound(l.global.value, now);
    Waiting(l.global.value, now, later);
  }

  lemma {:induction false} GlobalKeepsBurst(c: Config, l: Limiter, e: Event)
    requires l.global.Some?
    ensures var g := Next(c, true, l, e).0.global;
            g.Some? && g.value.burst == l.global.value.burst && g.value.rate == l.global.value.rate
  {
  }

  lemma {:induction false} RunKeepsGlobal(c: Config, l: Limiter, es: seq<Event>)
    requires l.global.Some?
    ensures var g := Run(c, true, l, es).limiter.global;
            g.Some? && g.value.burst == l.global.value.burst && g.value.rate == l.global.value.rate
    decreases |es|
  {
    hide Next;
    if es != [] {
      GlobalKeepsBurst(c, l, es[0]);
      RunKeepsGlobal(c, Next(c, true, l, es[0]).0, es[1..]);
    }
  }

  /** Within any window of a run, all keys together pass at most the whole part of the rate and what the window earns. */
  lemma {:induction false} GlobalAdmissionBound(c: Config, es: seq<Event>, start: real, i: nat, j: nat)
    requires i < j <= |es| && InOrder(es, start) && c.globalPerSec > 0.0
    ensures var answers := Run(c, true, New(c, start), es).answers;
            Admitted(es[i..j], answers[i..j], None) as real <=
            c.globalPerSec.Floor as real + c.globalPerSec * Span(es[i..j])
  {
    hide Run, EntriesOk, Admitted, Available, InOrder, Span;
    NewIsOk(c, start);
    WindowInOrder(es, start, i, j);
    var l := Run(c, true, New(c, start), es[..i]).limiter;
    RunKeepsOk(c, true, New(c, start), es[..i], start);
    RunKeepsGlobal(c, New(c, start), es[..i]);
    var now := if i == 0 then start else es[i - 1].at;
    WindowAnswers(c, true, New(c, start), es, i, j);
    GlobalBound(c, l, es[i..j], now);
    TokensBound(l.global.value, es[i].at);
  }

  predicate NothingPasses(c: Config, es: seq<Event>, start: real) {
    forall k :: 0 <= k < |es| && es[k].Allow? ==> Run(c, true, New(c, start), es).answers[k] == Some(false)
  }

  /**
   The global bucket holds the whole part of the rate: with a positive rate below one a second
   it never holds a token and nothing passes, ever; from one a second on, the first request does.
   */
  lemma {:induction false} FractionalRate(c: Config, start: real)
    requires c.globalPerSec > 0.0 && (c.perKeyPerSec <= 0.0 || c.perKeyBurst > 0)
    ensures (forall es :: InOrder(es, start) ==> NothingPasses(c, es, start)) <==> c.globalPerSec < 1.0
  {
    if c.globalPerSec < 1.0 {
      forall es | InOrder(es, start)
        ensures NothingPasses(c, es, start)
      {
        EmptyBucketRejectsAll(c, New(c, start), es);
      }
    } else {
      FirstPasses(c, start);
      assert !NothingPasses(c, [Allow("", start)], start);
    }
  }

  lemma {:induction false} FirstPasses(c: Config, start: real)
    requires c.globalPerSec >= 1.0 && (c.perKeyPerSec <= 0.0 || c.perKeyBurst > 0)
    ensures Run(c, true, New(c, start), [Allow("", start)]).answers[0] == Some(true)
  {
    hide Available;
    TouchedNow(NewBucket(c.globalPerSec, c.globalPerSec.Floor, start), start);
    TouchedNow(NewBucket(c.perKeyPerSec, c.perKeyBurst, start), start);
  }

  lemma {:induction false} EmptyBucketRejectsAll(c: Config, l: Limiter, es: seq<Event>)
    requires l.global.Some? && l.global.value.burst == 0
    ensures forall k :: 0 <= k < |es| && es[k].Allow? ==> Run(c, true, l, es).answers[k] == Some(false)
    decreases |es|
  {
    if es != [] {
      GlobalKeepsBurst(c, l, es[0]);
      EmptyBucketRejectsAll(c, Next(c, true, l, es[0]).0, es[1..]);
    }
  }

  // ------------------------------------------------------- exactly which pass

  /** A bucket at rest fills at its rate until it is full. */
  lemma {:induction false} FillsExactly(b: Bucket, now: real, later: real)
    requires Sound(b, now) && now <= later
    ensures var filled := Available(b, now) + b.rate * (later - now);
            Available(b, later) == if filled < b.burst as real then filled else b.burst as real
  {
    Accrued(b.rate, now - b.last, later - b.last, later - now);
    Accrued(b.rate, 0.0, now - b.last, now - b.last);
  }

  /** What a limiter starts with: a full global bucket, and a full bucket for every key. */
  lemma {:induction false} StartsFull(c: Config, key: string, start: real)
    ensures var l := New(c, start);
            && (l.global.Some? <==> c.globalPerSec > 0.0) && l.keys == map[]
            && (l.global.Some? ==>
                 l.global.value.rate == c.globalPerSec && Available(l.global.value, start) == c.globalPerSec.Floor as real)
            && KeyTokens(c, l, key, start) == c.perKeyBurst as real
  {
    TimesZero(c.globalPerSec, start - start);
    TimesZero(c.perKeyPerSec, start - start);
  }

  /**
   The admission law: a request passes if and only if the global bucket, if there is one, and
   the key's bucket, if keys are limited, each hold a whole token. Then it costs each of them
   one. A request the global bucket rejects changes nothing at all; one that only the key's
   bucket rejects costs that bucket nothing. Other keys are never touched.
   */
  lemma {:induction false} AdmissionLaw(c: Config, l: Limiter, key: string, now: real)
    requires LimiterOk(c, l, now)
    ensures var (l', ok) := AllowEffect(c, l, key, now);
            var globally := l.global.Some? ==> Available(l.global.value, now) >= 1.0;
            var limited := c.perKeyPerSec > 0.0;
            && (ok <==> globally && (limited ==> KeyTokens(c, l, key, now) >= 1.0))
            && (!globally ==> l' == l)
            && (l'.global.Some? <==> l.global.Some?)
            && (globally && l.global.Some? ==>
                 && Available(l'.global.value, now) == Available(l.global.value, now) - 1.0
                 && l'.global.value.rate == l.global.value.rate && l'.global.value.burst == l.global.value.burst)
            && (!limited ==> l'.keys == l.keys)
            && (globally && limited ==>
                 && key in l'.keys && l'.keys[key].lastSeen == now
                 && l'.keys[key].bucket.rate == c.perKeyPerSec && l'.keys[key].bucket.burst == c.perKeyBurst
                 && KeyTokens(c, l', key, now) ==
                    if ok then KeyTokens(c, l, key, now) - 1.0 else KeyTokens(c, l, key, now))
            && (forall other :: other != key ==> (other in l'.keys <==> other in l.keys))
            && (forall other :: other != key && other in l.keys ==> l'.keys[other] == l.keys[other])
  {
    hide Available, Sound;
    if l.global.Some? && Available(l.global.value, now) >= 1.0 {
      TakeNow(l.global.value, now);
    }
    var b := Entries(c, l.keys, key, now).bucket;
    if Available(b, now) >= 1.0 {
      TakeNow(b, now);
    }
    assert l.(global := l.global) == l;
  }

  /** An unseen key is as good as a full bucket. */
  lemma {:induction false} UnseenIsFull(c: Config, l: Limiter, key: string, now: real)
    requires key !in l.keys
    ensures KeyTokens(c, l, key, now) == c.perKeyBurst as real
  {
    TimesZero(c.perKeyPerSec, now - now);
  }

  /** A sweep deletes exactly the entries idle for longer than the TTL. */
  lemma {:induction false} SweepLaw(c: Config, l: Limiter, now: real)
    ensures var l' := SweepEffect(c, l, now);
            && l'.global == l.global
            && (forall key :: key in l'.keys <==> key in l.keys && now - l.keys[key].lastSeen <= c.keyLimiterTTL)
            && (forall key :: key in l'.keys ==> l'.keys[key] == l.keys[key])
    ensures Next(c, true, l, Sweep(now)) == (if c.keyLimiterTTL > 0.0 then SweepEffect(c, l, now) else l, None)
    ensures Next(c, false, l, Sweep(now)) == (l, None)
  {
  }

  /** In every run the answer to a request is what the law says of the buckets it meets. */
  lemma {:induction false} AnswerExactly(c: Config, es: seq<Event>, start: real, i: nat)
    requires i < |es| && InOrder(es, start) && es[i].Allow?
    ensures var l := Run(c, true, New(c, start), es[..i]).limiter;
            var at := es[i].at;
            Run(c, true, New(c, start), es).answers[i] ==
            Some((l.global.Some? ==> Available(l.global.value, at) >= 1.0) &&
                 (c.perKeyPerSec > 0.0 ==> KeyTokens(c, l, es[i].key, at) >= 1.0))
  {
    hide Run, LimiterOk, KeyTokens, InOrder, AllowEffect;
    var l := Run(c, true, New(c, start), es[..i]).limiter;
    NewIsOk(c, start);
    WindowInOrder(es, start, i, i + 1);
    RunKeepsOk(c, true, New(c, start), es[..i], start);
    OkLater(c, l, if i == 0 then start else es[i - 1].at, es[i].at);
    AdmissionLaw(c, l, es[i].key, es[i].at);
    OneAnswer(c, l, es[i]);
    WindowAnswers(c, true, New(c, start), es, i, i + 1);
    assert es[i..i + 1] == [es[i]];
  }

  lemma {:induction false} OneAnswer(c: Config, l: Limiter, e: Event)
    ensures Run(c, true, l, [e]).answers == [Next(c, true, l, e).1]
    ensures Run(c, true, l, [e]).limiter == Next(c, true, l, e).0
  {
    hide Next;
    assert [e][1..] == [];
  }

  /**
   A request that the global limit rejects costs nobody anything: without it, every other answer
   of the run is the same.
   */
  lemma {:induction false} GlobalRejectionIsFree(c: Config, es: seq<Event>, start: real, i: nat)
    requires i < |es| && InOrder(es, start) && es[i].Allow?
    requires var global := Run(c, true, New(c, start), es[..i]).limiter.global;
             global.Some? && Available(global.value, es[i].at) < 1.0
    ensures var answers := Run(c, true, New(c, start), es).answers;
            && answers[i] == Some(false)
            && Run(c, true, New(c, start), es[..i] + es[i + 1..]).answers == answers[..i] + answers[i + 1..]
  {
    hide Run, LimiterOk, KeyTokens, InOrder, AllowEffect, Available;
    var start', before, after := New(c, start), es[..i], es[i + 1..];
    var l := Run(c, true, start', before).limiter;
    NewIsOk(c, start);
    WindowInOrder(es, start, i, i + 1);
    RunKeepsOk(c, true, start', before, start);
    OkLater(c, l, if i == 0 then start else es[i - 1].at, es[i].at);
    AdmissionLaw(c, l, es[i].key, es[i].at);
    OneAnswer(c, l, es[i]);
    RunAppend(c, true, start', before, after);
    RunAppend(c, true, start', before, [es[i]] + after);
    RunAppend(c, true, l, [es[i]], after);
    assert es == before + ([es[i]] + after);
    var answers := Run(c, true, start', es).answers;
    assert answers == Run(c, true, start', before).answers + ([Some(false)] + Run(c, true, l, after).answers);
  }

  // -------------------------------------------------------------- the class

  class RateLimiter {
    const config: Config
    var globalLimiter: Option<Bucket>
    var keyLimiters: map<string, Entry>

    constructor (config: Config, now: real)
      ensures this.config == config && Snapshot() == New(config, now)
    {
      this.config := config;
      globalLimiter :=
        if config.globalPerSec > 0.0 then Some(NewBucket(config.globalPerSec, config.globalPerSec.Floor, now)) else None;
      keyLimiters := map[];
    }

    function Snapshot(): Limiter
      reads this
    {
      Limiter(globalLimiter, keyLimiters)
    }

    /** Finds or creates the key's entry and notes when it was asked for. */
    method GetKeyLimiter(key: string, now: real) returns (bucket: Bucket)
      modifies `keyLimiters
      ensures var e := Entries(config, old(keyLimiters), key, now);
              bucket == e.bucket && keyLimiters == old(keyLimiters)[key := e.(lastSeen := now)]
    {
      var entry: Entry;
      if key in keyLimiters {
        entry := keyLimiters[key];
      } else {
        entry := Entry(NewBucket(config.perKeyPerSec, config.perKeyBurst, now), now);
        keyLimiters := keyLimiters[key := entry];
      }
      entry := entry.(lastSeen := now);
      keyLimiters := keyLimiters[key := entry];
      bucket := entry.bucket;
    }

    method Allow(key: string, now: real) returns (ok: bool)
      modifies this
      ensures (Snapshot(), ok) == AllowEffect(config, old(Snapshot()), key, now)
    {
      if globalLimiter.Some? {
        var (bucket, passed) := Take(globalLimiter.value, now);
        globalLimiter := Some(bucket);
        if !passed {
          return false;
        }
      }
      if config.perKeyPerSec > 0.0 {
        var bucket := GetKeyLimiter(key, now);
        var (bucket', passed) := Take(bucket, now);
        keyLimiters := keyLimiters[key := keyLimiters[key].(bucket := bucket')];
        assert keyLimiters == old(keyLimiters)[key := Entry(bucket', now)];
        if !passed {
          return false;
        }
      }
      return true;
    }

    /** One tick of the cleanup goroutine; it only runs when the TTL is positive. */
    method Cleanup(now: real)
      modifies `keyLimiters
      ensures Snapshot() == SweepEffect(config, old(Snapshot()), now)
      ensures forall key :: key in keyLimiters <==>
                key in old(keyLimiters) && now - old(keyLimiters)[key].lastSeen <= config.keyLimiterTTL
    {
      var cutoff := now - config.keyLimiterTTL;
      var pending := keyLimiters.Keys;
      ghost var start := keyLimiters;
      while pending != {}
        invariant pending <= keyLimiters.Keys <= start.Keys
        invariant forall key :: key in keyLimiters ==> keyLimiters[key] == start[key]
        invariant forall key :: key in start && key !in pending ==>
                    (key in keyLimiters <==> !(start[key].lastSeen < cutoff))
        decreases |pending|
      {
        var key :| key in pending;
        if keyLimiters[key].lastSeen < cutoff {
          keyLimiters := keyLimiters - {key};
        }
        pending := pending - {key};
      }
    }
  }

  /** No limiter at all when both limits are off; a nil limiter lets everything pass. */
  method NewRateLimiter(config: Config, now: real) returns (limiter: RateLimiter?)
    ensures limiter == null <==> config.globalPerSec <= 0.0 && config.perKeyPerSec <= 0.0
    ensures limiter != null ==> fresh(limiter) && limiter.config == config && limiter.Snapshot() == New(config, now)
    ensures limiter == null ==> forall key, at :: AllowEffect(config, New(config, now), key, at) == (New(config, now), true)
  {
    if config.globalPerSec <= 0.0 && config.perKeyPerSec <= 0.0 {
      return null;
    }
    limiter := new RateLimiter(config, now);
  }
}
