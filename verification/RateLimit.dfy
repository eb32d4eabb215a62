/** The in-process token-bucket limiter of internal/ratelimit/memory.go.

    Instants and durations are reals in seconds, counted from Go's zero time.
    The first half gives the state as a value and the effect of each call as a
    function; class `Memory` is the mutable map the service keeps, proved
    against those functions. */
module RateLimit {
  import opened Common


  const MAX_BUCKETS_BEFORE_SWEEP: nat := 10_000
  const HARD_BUCKET_CAP: nat := 50_000

  /** limit requests per window. */
  datatype Config = Config(limit: nat, window: real) {
    ghost predicate Valid() { window > 0.0 }

    function Rate(): real
      requires Valid()
    {
      limit as real / window
    }
  }

  /** rate.Limiter: the balance as of `last`. The balance may be negative. */
  datatype Limiter = Limiter(tokens: real, last: real)

  datatype Bucket = Bucket(lim: Limiter, lastSeen: real)

  datatype State = State(buckets: map<string, Bucket>, lastSweep: real)

  /** retryAfter is meaningful only when allowed is false. */
  datatype Decision = Decision(allowed: bool, retryAfter: real)

  function FreshLimiter(c: Config): Limiter {
    Limiter(c.limit as real, 0.0)
  }

  function TokensAt(c: Config, l: Limiter, t: real): real
    requires c.Valid()
  {
    var refilled := l.tokens + c.Rate() * (if t < l.last then 0.0 else t - l.last);
    if refilled < c.limit as real then refilled else c.limit as real
  }

  /** ReserveN(t, 1): refused when one token exceeds the burst, otherwise an
      unconditional debit. */
  function Reserve(c: Config, l: Limiter, t: real): Limiter
    requires c.Valid()
  {
    if c.limit < 1 then l else Limiter(TokensAt(c, l, t) - 1.0, t)
  }

  function Peek(c: Config, l: Limiter, now: real): Decision
    requires c.Valid()
  {
    var tokens := TokensAt(c, l, now);
    if tokens >= 1.0 then Decision(true, 0.0)
    else if c.Rate() <= 0.0 then Decision(false, c.window)
    else
      var wait := (1.0 - tokens) / c.Rate();
      if wait > c.window then Decision(false, c.window)
      else if wait < 0.0 then Decision(false, 0.0)
      else Decision(false, wait)
  }

  /** Untouched for more than two windows. */
  predicate Idle(c: Config, b: Bucket, now: real) {
    b.lastSeen < now - 2.0 * c.window
  }

  function Swept(c: Config, s: State, now: real): State {
    State(map k | k in s.buckets && !Idle(c, s.buckets[k], now) :: s.buckets[k], now)
  }

  predicate Evicts(c: Config, s: State, now: real) {
    |s.buckets| >= HARD_BUCKET_CAP && |Swept(c, s, now).buckets| >= HARD_BUCKET_CAP
  }

  /** n keys, none of them seen later than any key left behind. */
  ghost predicate OldestOf(buckets: map<string, Bucket>, victims: set<string>, n: nat) {
    && victims <= buckets.Keys
    && |victims| == n
    && forall v, k :: v in victims && k in buckets && k !in victims ==> buckets[v].lastSeen <= buckets[k].lastSeen
  }

  /** Go sorts a randomly ordered list, so among equally old buckets the choice
      is open: the victims are a parameter constrained by this predicate. */
  ghost predicate ValidVictims(c: Config, s: State, now: real, victims: set<string>) {
    if Evicts(c, s, now) then
      OldestOf(Swept(c, s, now).buckets, victims, |Swept(c, s, now).buckets| / 4)
    else
      victims == {}
  }

  function Reclaimed(c: Config, s: State, now: real, victims: set<string>): State {
    if |s.buckets| >= HARD_BUCKET_CAP then
      var swept := Swept(c, s, now);
      if |swept.buckets| >= HARD_BUCKET_CAP then State(swept.buckets - victims, now) else swept
    else if |s.buckets| >= MAX_BUCKETS_BEFORE_SWEEP && now - s.lastSweep >= c.window then
      Swept(c, s, now)
    else
      s
  }

  /** bucketLocked: make room, then find or create key's bucket and mark it seen. */
  function Touch(c: Config, s: State, key: string, now: real, victims: set<string>): State {
    var r := Reclaimed(c, s, now, victims);
    var lim := if key in r.buckets then r.buckets[key].lim else FreshLimiter(c);
    State(r.buckets[key := Bucket(lim, now)], r.lastSweep)
  }

  function Recorded(c: Config, s: State, key: string, now: real, victims: set<string>): State
    requires c.Valid()
  {
    var t := Touch(c, s, key, now, victims);
    State(t.buckets[key := Bucket(Reserve(c, t.buckets[key].lim, now), now)], t.lastSweep)
  }

  /** The capacity check in plain figures. */
  ghost predicate RoomMade(c: Config, before: map<string, Bucket>, sweptAt: real, after: map<string, Bucket>,
                           lastSweep: real,
                           now: real, victims: set<string>) {
    && |after| < 50_000
    && (|before| < 10_000 || (|before| < 50_000 && now - sweptAt < c.window) ==>
        after == before
        && lastSweep == sweptAt)
    && (|before| >= 50_000 || (|before| >= 10_000 && now - sweptAt >= c.window) ==>
          && lastSweep == now
          && (forall k :: k in after <==> k in before && before[k].lastSeen >= now - 2.0 * c.window && k !in victims)
          && (forall k :: k in after ==> after[k] == before[k]))
    && (victims != {} ==>
          && |after| + |victims| >= 50_000 && |victims| == (|after| + |victims|) / 4
          && forall v, k :: v in victims && k in after ==> v in before && before[v].lastSeen <= after[k].lastSeen)
  }

  lemma RoomFacts(c: Config, s: State, now: real, victims: set<string>)
    requires c.Valid() && |s.buckets| <= HARD_BUCKET_CAP && ValidVictims(c, s, now, victims)
    ensures var r := Reclaimed(c, s, now, victims);
            RoomMade(c, s.buckets, s.lastSweep, r.buckets, r.lastSweep, now, victims)
  {
    var swept, r := Swept(c, s, now), Reclaimed(c, s, now, victims);
    SweptIsNoLarger(c, s, now);
    if Evicts(c, s, now) {
      SizeAfterRemoval(swept.buckets, victims);
    }
  }

  /** The bucket a call works on is the key's own or a new full one; below the
      size at which the map is swept, it is the key's own if there is one. */
  lemma TouchFacts(c: Config, s: State, key: string, now: real, victims: set<string>)
    requires c.Valid()
    ensures var t := Touch(c, s, key, now, victims);
            && key in t.buckets && t.buckets[key].lastSeen == now
            && (t.buckets[key].lim == Limiter(c.limit as real, 0.0)
                || (key in s.buckets && t.buckets[key].lim == s.buckets[key].lim))
            && (|s.buckets| < 10_000 ==>
                  t.buckets[key].lim == if key in s.buckets then s.buckets[key].lim else Limiter(c.limit as real, 0.0))
  {
  }

  lemma SizeAfterInsert<K, V>(m: map<K, V>, k: K, v: V)
    ensures |m[k := v]| <= |m| + 1
  {
    assert m[k := v].Keys == m.Keys + {k};
  }

  lemma SizeAfterRemoval<K, V>(m: map<K, V>, gone: set<K>)
    requires gone <= m.Keys
    ensures |m - gone| == |m| - |gone|
  {
    assert (m - gone).Keys == m.Keys - gone;
  }

  lemma SweptIsNoLarger(c: Config, s: State, now: real)
    ensures |Swept(c, s, now).buckets| <= |s.buckets|
  {
    SubsetSize(Swept(c, s, now).buckets.Keys, s.buckets.Keys);
  }

  lemma {:induction false} SubsetSize<T>(a: set<T>, b: set<T>)
    requires a <= b
    ensures |a| <= |b|
  {
    if a == {} {
    } else {
      var x :| x in a;
      SubsetSize(a - {x}, b - {x});
    }
  }

  /** The map never outgrows the hard cap: whatever the clock, the keys and the
      eviction choice, a call that starts within the cap ends within it. */
  lemma CapIsKept(c: Config, s: State, key: string, now: real, victims: set<string>)
    requires c.Valid() && |s.buckets| <= HARD_BUCKET_CAP && ValidVictims(c, s, now, victims)
    ensures |Reclaimed(c, s, now, victims).buckets| < HARD_BUCKET_CAP
    ensures |Touch(c, s, key, now, victims).buckets| <= HARD_BUCKET_CAP
    ensures |Recorded(c, s, key, now, victims).buckets| <= HARD_BUCKET_CAP
  {
    SweptIsNoLarger(c, s, now);
    var r := Reclaimed(c, s, now, victims);
    if Evicts(c, s, now) {
      SizeAfterRemoval(Swept(c, s, now).buckets, victims);
    }
    var t := Touch(c, s, key, now, victims);
    SizeAfterInsert(r.buckets, key, t.buckets[key]);
    assert Recorded(c, s, key, now, victims).buckets.Keys == t.buckets.Keys;
  }

  /** The Retry-After header: whole seconds, rounded up, never below one. */
  function RetryAfterSeconds(d: real): int {
    if d <= 0.0 then 1
    else
      var ceiling := -((-d).Floor);
      if ceiling < 1 then 1 else ceiling
  }

  /** What accrues in d seconds. */
  function Refill(c: Config, d: real): real
    requires c.Valid()
  {
    c.Rate() * d
  }

  /** Waiting out the limiter's own estimate, with no debit in between, is enough
      exactly when the deficit fits in one window. The client is told whole
      seconds, and that is enough exactly when the deficit fits in the window
      rounded up to whole seconds. */
  lemma AdvertisedWaitAdmits(c: Config, l: Limiter, now: real)
    requires c.Valid() && c.limit >= 1 && l.last <= now && !Peek(c, l, now).allowed
    ensures Peek(c, l, now + Peek(c, l, now).retryAfter).allowed <==> TokensAt(c, l, now) >= 1.0 - c.limit as real
    ensures Peek(c, l, now + RetryAfterSeconds(Peek(c, l, now).retryAfter) as real).allowed
       <==> TokensAt(c, l, now) >= 1.0 - Refill(c, RetryAfterSeconds(c.window) as real)
    ensures TokensAt(c, l, now) >= 1.0 - c.limit as real ==>
              Peek(c, l, now + RetryAfterSeconds(Peek(c, l, now).retryAfter) as real).allowed
  {
    hide TokensAt, Config.Rate, RetryAfterSeconds, Refill, Peek;
    var r := Peek(c, l, now).retryAfter;
    var told, longest := RetryAfterSeconds(r) as real, RetryAfterSeconds(c.window) as real;
    EstimatedWait(c, l, now);
    RoundedUp(r);
    RoundedUp(c.window);
    AllowedAfter(c, l, now, r);
    AllowedAfter(c, l, now, told);
    MoreTimeMoreRefill(c, r, told);
    MoreTimeMoreRefill(c, c.window, longest);
  }

  /** The estimate is the time the deficit takes, capped at the window. */
  lemma EstimatedWait(c: Config, l: Limiter, now: real)
    requires c.Valid() && c.limit >= 1 && l.last <= now && !Peek(c, l, now).allowed
    ensures var tokens, r := TokensAt(c, l, now), Peek(c, l, now).retryAfter;
            && 0.0 <= r && Refill(c, c.window) == c.limit as real
            && if tokens >= 1.0 - c.limit as real then Refill(c, r) == 1.0 - tokens else r == c.window
  {
    hide TokensAt, Config.Rate;
    RateTimesWindow(c);
    DeficitWait(c, TokensAt(c, l, now));
  }

  lemma MoreTimeMoreRefill(c: Config, d: real, e: real)
    requires c.Valid() && d <= e
    ensures Refill(c, d) <= Refill(c, e)
  {
    RateTimesWindow(c);
    MulMonotone(c.Rate(), d, e);
  }

  /** The least whole number of seconds that is at least one and at least d. */
  lemma RoundedUp(d: real)
    ensures d <= RetryAfterSeconds(d) as real && RetryAfterSeconds(d) >= 1
    ensures RetryAfterSeconds(d) == 1 || (RetryAfterSeconds(d) - 1) as real < d
  {
  }

  /** Waiting d is enough exactly when the refill covers the deficit. */
  lemma AllowedAfter(c: Config, l: Limiter, now: real, d: real)
    requires c.Valid() && c.limit >= 1 && l.last <= now && d >= 0.0
    ensures Peek(c, l, now + d).allowed <==> TokensAt(c, l, now) + Refill(c, d) >= 1.0
  {
    hide TokensAt, Config.Rate;
    TokensAfter(c, l, now, now + d);
  }

  /** For a window of whole seconds the two conditions are one. */
  lemma WholeSecondWindow(c: Config)
    requires c.Valid() && c.window == c.window.Floor as real
    ensures Refill(c, RetryAfterSeconds(c.window) as real) == c.limit as real
  {
    hide Config.Rate;
    RateTimesWindow(c);
    var n := c.window.Floor;
    assert -c.window == (-n) as real;
    assert RetryAfterSeconds(c.window) == n;
  }

  /** They differ in general: with a window of half a second, a deficit of two
      windows' refill is made good by the one second the header names. */
  lemma HalfSecondWindow()
    ensures var c, l := Config(1, 0.5), Limiter(-1.0, 0.0);
            && !Peek(c, l, 0.0).allowed
            && !Peek(c, l, Peek(c, l, 0.0).retryAfter).allowed
            && Peek(c, l, RetryAfterSeconds(Peek(c, l, 0.0).retryAfter) as real).allowed
  {
    var c, l := Config(1, 0.5), Limiter(-1.0, 0.0);
    assert c.Rate() == 2.0;
    assert Peek(c, l, 0.0) == Decision(false, 0.5);
    assert RetryAfterSeconds(0.5) == 1 by { assert (-0.5).Floor == -1; }
  }

  lemma DeficitWait(c: Config, tokens: real)
    requires c.Valid() && c.limit >= 1 && tokens < 1.0
    ensures c.Rate() > 0.0
    ensures var wait := (1.0 - tokens) / c.Rate();
            wait > 0.0 && c.Rate() * wait == 1.0 - tokens && (wait <= c.window <==> tokens >= 1.0 - c.limit as real)
  {
    RateTimesWindow(c);
    var wait := (1.0 - tokens) / c.Rate();
    if wait > c.window {
      MulStrict(c.Rate(), c.window, wait);
    } else {
      MulMonotone(c.Rate(), wait, c.window);
    }
  }

  lemma RateTimesWindow(c: Config)
    requires c.Valid()
    ensures c.Rate() * c.window == c.limit as real
    ensures c.limit >= 1 ==> c.Rate() > 0.0
    ensures c.Rate() >= 0.0
  {
  }

  lemma MulMonotone(r: real, a: real, b: real)
    requires r >= 0.0 && a <= b
    ensures r * a <= r * b
  {
    assert r * (b - a) >= 0.0;
  }

  lemma MulStrict(r: real, a: real, b: real)
    requires r > 0.0 && a < b
    ensures r * a < r * b
  {
    assert r * (b - a) > 0.0;
  }

  /** Refilling is the same whether it is computed in one step or in two. */
  lemma TokensAfter(c: Config, l: Limiter, t: real, u: real)
    requires c.Valid() && l.last <= t <= u
    ensures TokensAt(c, l, u) ==
            var sum := TokensAt(c, l, t) + c.Rate() * (u - t);
            if sum < c.limit as real then sum else c.limit as real
    ensures TokensAt(c, l, t) <= TokensAt(c, l, u) <= c.limit as real
  {
    RateTimesWindow(c);
    assert c.Rate() * (u - l.last) == c.Rate() * (t - l.last) + c.Rate() * (u - t);
    MulMonotone(c.Rate(), 0.0, u - t);
  }

  /** Memory. Every method takes the clock reading Go obtains from m.now(). The
      ghost out-parameter names the evicted keys, so that the new state is a
      function of the old one. */
  class Memory {
    var buckets: map<string, Bucket>
    var lastSweep: real
    const config: Config

    constructor (limit: nat, window: real)
      requires window > 0.0
      ensures Valid() && config == Config(limit, window) && Model() == State(map[], 0.0)
    {
      config := Config(limit, window);
      buckets, lastSweep := map[], 0.0;
    }

    ghost predicate Valid()
      reads this
    {
      config.Valid() && |buckets| <= HARD_BUCKET_CAP
    }

    ghost function Model(): State
      reads this
    {
      State(buckets, lastSweep)
    }

    /** The capacity check at the head of bucketLocked. */
    method MakeRoom(now: real) returns (ghost victims: set<string>)
      requires Valid()
      modifies this
      ensures Valid()
      ensures ValidVictims(config, old(Model()), now, victims)
      ensures Model() == Reclaimed(config, old(Model()), now, victims)
      ensures RoomMade(config, old(buckets), old(lastSweep), buckets, lastSweep, now, victims)
    {
      hide Swept, OldestOf, RoomMade;
      ghost var before := Model();
      victims := {};
      if |buckets| >= HARD_BUCKET_CAP {
        var _ := SweepLocked(now);
        if |buckets| >= HARD_BUCKET_CAP {
          victims := EvictOldestLocked(|buckets| / 4);
        }
      } else if |buckets| >= MAX_BUCKETS_BEFORE_SWEEP && now - lastSweep >= config.window {
        var _ := SweepLocked(now);
      }
      RoomFacts(config, before, now, victims);
    }

    method BucketLocked(key: string, now: real) returns (ghost victims: set<string>)
      requires Valid()
      modifies this
      ensures Valid()
      ensures ValidVictims(config, old(Model()), now, victims)
      ensures Model() == Touch(config, old(Model()), key, now, victims)
    {
      hide Swept, OldestOf, ValidVictims, Reclaimed, RoomMade;
      victims := MakeRoom(now);
      CapIsKept(config, old(Model()), key, now, victims);
      if key !in buckets {
        buckets := buckets[key := Bucket(FreshLimiter(config), now)];
      }
      buckets := buckets[key := buckets[key].(lastSeen := now)];
    }

    method Allow(key: string, now: real) returns (d: Decision, ghost victims: set<string>)
      requires Valid()
      modifies this
      ensures Valid()
      ensures ValidVictims(config, old(Model()), now, victims)
      ensures Model() == Touch(config, old(Model()), key, now, victims)
      ensures d == Peek(config, buckets[key].lim, now)
      ensures d.allowed <==> TokensAt(config, buckets[key].lim, now) >= 1.0
      ensures buckets[key].lim == Limiter(config.limit as real, 0.0)
              || (key in old(buckets) && buckets[key].lim == old(buckets)[key].lim)
    {
      victims := BucketLocked(key, now);
      var tokens := TokensAt(config, buckets[key].lim, now);
      if tokens >= 1.0 {
        return Decision(true, 0.0), victims;
      }
      var perSecond := config.Rate();
      if perSecond <= 0.0 {
        return Decision(false, config.window), victims;
      }
      var retryAfter := (1.0 - tokens) / perSecond;
      if retryAfter > config.window {
        retryAfter := config.window;
      }
      if retryAfter < 0.0 {
        retryAfter := 0.0;
      }
      d := Decision(false, retryAfter);
    }

    method Record(key: string, now: real) returns (ghost victims: set<string>)
      requires Valid()
      modifies this
      ensures Valid()
      ensures ValidVictims(config, old(Model()), now, victims)
      ensures Model() == Recorded(config, old(Model()), key, now, victims)
    {
      ghost var before := Model();
      victims := BucketLocked(key, now);
      CapIsKept(config, before, key, now, victims);
      buckets := buckets[key := buckets[key].(lim := Reserve(config, buckets[key].lim, now))];
    }

    method SweepLocked(now: real) returns (n: nat)
      requires Valid()
      modifies this
      ensures Valid()
      ensures Model() == Swept(config, old(Model()), now) && lastSweep == now
      ensures forall k :: k in buckets <==> k in old(buckets) && old(buckets)[k].lastSeen >= now - 2.0 * config.window
      ensures forall k :: k in buckets ==> buckets[k] == old(buckets)[k]
      ensures n == |old(buckets)| - |buckets|
    {
      lastSweep := now;
      var unseen := buckets.Keys;
      n := 0;
      while unseen != {}
        invariant unseen <= buckets.Keys <= old(buckets).Keys
        invariant forall k :: k in buckets ==> buckets[k] == old(buckets)[k]
        invariant forall k ::
                  k in old(buckets) && k !in unseen
                  ==> (k in buckets <==> !Idle(config, old(buckets)[k], now))
        invariant n == |old(buckets)| - |buckets| && lastSweep == now
        decreases unseen
      {
        var k :| k in unseen;
        unseen := unseen - {k};
        if Idle(config, buckets[k], now) {
          SizeAfterRemoval(buckets, {k});
          buckets := buckets - {k};
          n := n + 1;
        }
      }
      assert buckets == Swept(config, old(Model()), now).buckets;
    }

    method Sweep(now: real) returns (n: nat)
      requires Valid()
      modifies this
      ensures Valid()
      ensures Model() == Swept(config, old(Model()), now)
      ensures n == |old(buckets)| - |buckets|
    {
      n := SweepLocked(now);
    }

    method EvictOldestLocked(n: nat) returns (ghost victims: set<string>)
      requires Valid() && n <= |buckets|
      modifies this`buckets
      ensures Valid()
      ensures OldestOf(old(buckets), victims, n)
      ensures buckets == old(buckets) - victims
    {
      victims := {};
      if n == 0 {
        return;
      }
      var entries := SortedByLastSeen(buckets);
      var i := 0;
      while i < n
        invariant 0 <= i <= n
        invariant victims == Firsts(entries, i)
        invariant buckets == old(buckets) - victims
      {
        FirstsGrows(entries, i);
        RemovingOneMore(old(buckets), victims, entries[i]);
        buckets := buckets - {entries[i]};
        victims := victims + {entries[i]};
        i := i + 1;
      }
      FirstsAreOldest(old(buckets), entries, n);
      SubsetSize((old(buckets) - victims).Keys, old(buckets).Keys);
    }
  }

  lemma RemovingOneMore<K, V>(m: map<K, V>, gone: set<K>, k: K)
    ensures m - gone - {k} == m - (gone + {k})
  {
  }

  ghost function Firsts(entries: seq<string>, n: nat): set<string>
    requires n <= |entries|
  {
    set e | e in entries[..n]
  }

  lemma FirstsGrows(entries: seq<string>, i: nat)
    requires i < |entries|
    ensures Firsts(entries, i + 1) == Firsts(entries, i) + {entries[i]}
  {
    assert entries[..i + 1] == entries[..i] + [entries[i]];
  }

  /** entries lists the keys of m, each once, oldest first. */
  ghost predicate ByAge(m: map<string, Bucket>, entries: seq<string>) {
    && (forall k :: k in entries ==> k in m)
    && (forall i, j :: 0 <= i < j < |entries| ==> entries[i] != entries[j])
    && (forall i, j :: 0 <= i < j < |entries| ==> m[entries[i]].lastSeen <= m[entries[j]].lastSeen)
  }

  lemma NoFirsts(entries: seq<string>)
    ensures Firsts(entries, 0) == {}
  {
  }

  lemma NextIsNew(m: map<string, Bucket>, entries: seq<string>, n: nat)
    requires ByAge(m, entries) && n < |entries|
    ensures entries[n] !in Firsts(entries, n)
  {
  }

  lemma {:induction false} FirstsSize(m: map<string, Bucket>, entries: seq<string>, n: nat)
    requires ByAge(m, entries) && n <= |entries|
    ensures |Firsts(entries, n)| == n
  {
    hide Firsts, ByAge;
    if n == 0 {
      NoFirsts(entries);
    } else {
      FirstsSize(m, entries, n - 1);
      FirstsGrows(entries, n - 1);
      NextIsNew(m, entries, n - 1);
    }
  }

  lemma FirstsAreOldest(m: map<string, Bucket>, entries: seq<string>, n: nat)
    requires ByAge(m, entries) && n <= |entries|
    requires forall k :: k in m ==> k in entries
    ensures OldestOf(m, Firsts(entries, n), n)
  {
    var victims := Firsts(entries, n);
    FirstsSize(m, entries, n);
    forall v, k | v in victims && k in m && k !in victims
      ensures m[v].lastSeen <= m[k].lastSeen
    {
      var a :| 0 <= a < n && entries[a] == v;
      var b :| 0 <= b < |entries| && entries[b] == k;
      assert b >= n;
    }
  }

  lemma InsertedMembers<T>(s: seq<T>, p: nat, x: T, r: seq<T>)
    requires p <= |s| && r == s[..p] + [x] + s[p..]
    ensures forall y :: y in r <==> y in s || y == x
  {
    assert s == s[..p] + s[p..];
  }

  lemma InsertionKeepsAge(m: map<string, Bucket>, entries: seq<string>, p: nat, k: string, r: seq<string>)
    requires ByAge(m, entries) && k in m && k !in entries && p <= |entries|
    requires forall i :: 0 <= i < p ==> m[entries[i]].lastSeen <= m[k].lastSeen
    requires p < |entries| ==> m[k].lastSeen <= m[entries[p]].lastSeen
    requires r == entries[..p] + [k] + entries[p..]
    ensures ByAge(m, r)
  {
    Inserted(entries, p, k, r);
    InsertedMembers(entries, p, k, r);
    forall i, j | 0 <= i < j < |r|
      ensures r[i] != r[j] && m[r[i]].lastSeen <= m[r[j]].lastSeen
    {
      var a, b := if i < p then i else i - 1, if j < p then j else j - 1;
      if i == p {
        assert r[j] == entries[b];
        assert b > p ==> m[entries[p]].lastSeen <= m[entries[b]].lastSeen;
      } else if j == p {
        assert r[i] == entries[i];
      } else {
        assert r[i] == entries[a] && r[j] == entries[b];
      }
    }
  }

  method InsertByAge(m: map<string, Bucket>, entries: seq<string>, k: string) returns (r: seq<string>)
    requires ByAge(m, entries) && k in m && k !in entries
    ensures ByAge(m, r) && |r| == |entries| + 1
    ensures forall x :: x in r <==> x in entries || x == k
  {
    var p := 0;
    while p < |entries| && m[entries[p]].lastSeen <= m[k].lastSeen
      invariant 0 <= p <= |entries|
      invariant forall i :: 0 <= i < p ==> m[entries[i]].lastSeen <= m[k].lastSeen
    {
      p := p + 1;
    }
    r := entries[..p] + [k] + entries[p..];
    InsertionKeepsAge(m, entries, p, k, r);
    InsertedMembers(entries, p, k, r);
  }

  /** The keys of the map, each once, oldest first: the list evictOldestLocked
      builds and sorts. */
  method SortedByLastSeen(m: map<string, Bucket>) returns (entries: seq<string>)
    ensures |entries| == |m|
    ensures forall k :: k in m ==> k in entries
    ensures ByAge(m, entries)
  {
    entries := [];
    var unseen := m.Keys;
    while unseen != {}
      invariant unseen <= m.Keys
      invariant forall k :: k in m ==> (k in entries <==> k !in unseen)
      invariant |entries| + |unseen| == |m|
      invariant ByAge(m, entries)
      decreases unseen
    {
      var k :| k in unseen;
      unseen := unseen - {k};
      entries := InsertByAge(m, entries, k);
    }
  }

  /** What other requests do to the limiter while one request is served. */
  datatype Act =
    | Checks(key: string, now: real)
    | Records(key: string, now: real)
    | Sweeps(now: real)

  function ActOn(c: Config, s: State, act: Act, victims: set<string>): State
    requires c.Valid()
  {
    match act
    case Checks(key, now) => Touch(c, s, key, now, victims)
    case Records(key, now) => Recorded(c, s, key, now, victims)
    case Sweeps(now) => Swept(c, s, now)
  }

  function AfterActs(c: Config, s: State, acts: seq<Act>, victims: seq<set<string>>): State
    requires c.Valid() && |acts| == |victims|
    decreases |acts|
  {
    if acts == [] then s
    else
      var n := |acts| - 1;
      ActOn(c, AfterActs(c, s, acts[..n], victims[..n]), acts[n], victims[n])
  }

  /** Each capacity check along the way evicts oldest buckets, if any. */
  ghost predicate ValidActs(c: Config, s: State, acts: seq<Act>, victims: seq<set<string>>)
    requires c.Valid()
    decreases |acts|
  {
    && |acts| == |victims|
    && (acts != [] ==>
          var n := |acts| - 1;
          && ValidActs(c, s, acts[..n], victims[..n])
          && (acts[n].Sweeps? || ValidVictims(c, AfterActs(c, s, acts[..n], victims[..n]), acts[n].now, victims[n])))
  }

  lemma ActsSnoc(c: Config, s: State, acts: seq<Act>, victims: seq<set<string>>, act: Act, evicted: set<string>)
    requires c.Valid() && ValidActs(c, s, acts, victims)
    requires act.Sweeps? || ValidVictims(c, AfterActs(c, s, acts, victims), act.now, evicted)
    ensures ValidActs(c, s, acts + [act], victims + [evicted])
    ensures AfterActs(c, s, acts + [act], victims + [evicted]) == ActOn(c, AfterActs(c, s, acts, victims), act, evicted)
  {
    hide ValidVictims, ActOn;
    assert (acts + [act])[..|acts|] == acts && (victims + [evicted])[..|acts|] == victims;
  }

  method Meanwhile(l: Memory, acts: seq<Act>) returns (ghost victims: seq<set<string>>)
    requires l.Valid()
    modifies l
    ensures l.Valid() && ValidActs(l.config, old(l.Model()), acts, victims)
    ensures l.Model() == AfterActs(l.config, old(l.Model()), acts, victims)
  {
    hide ValidVictims, Touch, Recorded, Swept;
    victims := [];
    for i := 0 to |acts|
      invariant l.Valid() && ValidActs(l.config, old(l.Model()), acts[..i], victims)
      invariant l.Model() == AfterActs(l.config, old(l.Model()), acts[..i], victims)
    {
      ghost var evicted := {};
      ghost var before := l.Model();
      match acts[i] {
        case Checks(key, now) =>
          var d;
          d, evicted := l.Allow(key, now);
        case Records(key, now) =>
          evicted := l.Record(key, now);
        case Sweeps(now) =>
          var n := l.Sweep(now);
      }
      ActsSnoc(l.config, old(l.Model()), acts[..i], victims, acts[i], evicted);
      assert acts[..i + 1] == acts[..i] + [acts[i]];
      victims := victims + [evicted];
    }
    assert acts[..|acts|] == acts;
  }

  /** Whether a response counts: a handler that wrote nothing sends an implicit 200. */
  predicate CountsAsUse(status: int) {
    var sent := if status == 0 then 200 else status;
    200 <= sent <= 299
  }

  /** The states one request goes through: gate, whatever others do meanwhile,
      and the debit if it counts. */
  ghost predicate Served(c: Config, before: State, key: string, checkAt: real, meanwhile: seq<Act>, recordAt: real,
                         counts: bool,
                         admitted: bool, after: State)
    requires c.Valid()
  {
    exists gated, victims, debited :: ServedVia(c, before, key, checkAt, meanwhile, recordAt, counts, admitted, after,
                                                gated, victims, debited)
  }

  /** gated, victims and debited are what the capacity checks evict. */
  ghost predicate ServedVia(c: Config, before: State, key: string, checkAt: real, meanwhile: seq<Act>, recordAt: real,
                            counts: bool,
                            admitted: bool, after: State, gated: set<string>, victims: seq<set<string>>,
                            debited: set<string>)
    requires c.Valid()
  {
    && ValidVictims(c, before, checkAt, gated)
    && var gate := Touch(c, before, key, checkAt, gated);
       && admitted == Peek(c, gate.buckets[key].lim, checkAt).allowed
       && if !admitted then after == gate
          else
            && ValidActs(c, gate, meanwhile, victims)
            && var served := AfterActs(c, gate, meanwhile, victims);
               if counts then ValidVictims(c, served, recordAt, debited)
                   && after == Recorded(c, served, key, recordAt, debited)
               else after == served
  }

  /** The limiter the gate consulted is the key's own or a new full one. */
  ghost predicate Consulted(c: Config, before: map<string, Bucket>, key: string, gate: Limiter) {
    && (gate == Limiter(c.limit as real, 0.0) || (key in before && gate == before[key].lim))
    && (|before| < 10_000 ==> gate == if key in before then before[key].lim else Limiter(c.limit as real, 0.0))
  }

  /** A debit right after the gate costs one token, even if the bucket is swept
      in between. */
  lemma DebitCostsOne(c: Config, s: State, key: string, checkAt: real, recordAt: real, gated: set<string>,
                      debited: set<string>)
    requires c.Valid() && c.limit >= 1 && checkAt <= recordAt && |s.buckets| < HARD_BUCKET_CAP - 1
    requires var gate := Touch(c, s, key, checkAt, gated);
             && gate.buckets[key].lim.last <= checkAt && TokensAt(c, gate.buckets[key].lim, checkAt) >= 1.0
             && ValidVictims(c, gate, recordAt, debited)
    ensures var gate := Touch(c, s, key, checkAt, gated);
            var after := Recorded(c, gate, key, recordAt, debited);
            && key in after.buckets
            && TokensAt(c, after.buckets[key].lim, recordAt) == TokensAt(c, gate.buckets[key].lim, recordAt) - 1.0
  {
    hide TokensAt, Config.Rate;
    TouchFacts(c, s, key, checkAt, gated);
    var gate := Touch(c, s, key, checkAt, gated);
    var lim := gate.buckets[key].lim;
    SmallTouch(c, s, key, checkAt, gated);
    SmallReclaim(c, gate, recordAt, debited);
    var touched := Touch(c, gate, key, recordAt, debited).buckets[key].lim;
    if touched != lim {
      IdleRefill(c, lim, checkAt, recordAt);
      FullAtAnyTime(c, recordAt);
    }
    DebitedBalance(c, touched, recordAt);
  }

  lemma SmallTouch(c: Config, s: State, key: string, now: real, victims: set<string>)
    requires |s.buckets| < HARD_BUCKET_CAP - 1
    ensures |Touch(c, s, key, now, victims).buckets| < HARD_BUCKET_CAP
  {
    SweptIsNoLarger(c, s, now);
    var r := Reclaimed(c, s, now, victims);
    var lim := if key in r.buckets then r.buckets[key].lim else FreshLimiter(c);
    SizeAfterInsert(r.buckets, key, Bucket(lim, now));
  }

  /** Below the cap a bucket goes only when it is idle. */
  lemma SmallReclaim(c: Config, s: State, now: real, victims: set<string>)
    requires |s.buckets| < HARD_BUCKET_CAP
    ensures forall k :: k in s.buckets && !Idle(c, s.buckets[k], now) ==>
              k in Reclaimed(c, s, now, victims).buckets && Reclaimed(c, s, now, victims).buckets[k] == s.buckets[k]
    ensures forall k :: k in Reclaimed(c, s, now, victims).buckets ==>
              k in s.buckets && Reclaimed(c, s, now, victims).buckets[k] == s.buckets[k]
  {
  }

  lemma IdleRefill(c: Config, l: Limiter, t: real, u: real)
    requires c.Valid() && l.last <= t && TokensAt(c, l, t) >= 1.0 && t < u - 2.0 * c.window
    ensures TokensAt(c, l, u) == c.limit as real
  {
    hide TokensAt, Config.Rate;
    TokensAfter(c, l, t, u);
    RateTimesWindow(c);
    MulMonotone(c.Rate(), c.window, u - t);
    assert TokensAt(c, l, t) + c.Rate() * (u - t) >= c.limit as real;
  }

  lemma FullAtAnyTime(c: Config, t: real)
    requires c.Valid()
    ensures TokensAt(c, Limiter(c.limit as real, 0.0), t) == c.limit as real
  {
    RateTimesWindow(c);
    MulMonotone(c.Rate(), 0.0, if t < 0.0 then 0.0 else t);
  }

  lemma DebitedBalance(c: Config, l: Limiter, t: real)
    requires c.Valid() && c.limit >= 1
    ensures TokensAt(c, Reserve(c, l, t), t) == TokensAt(c, l, t) - 1.0
  {
    RateTimesWindow(c);
  }

  /** limitEvery: gate, then spend a token for every request that gets through.
      gate is the limiter the check consulted. */
  method LimitEvery(l: Memory, key: string, checkAt: real, meanwhile: seq<Act>, recordAt: real)
    returns (admitted: bool, ghost gate: Limiter)
    requires l.Valid()
    modifies l
    ensures l.Valid() && Served(l.config, old(l.Model()), key, checkAt, meanwhile, recordAt, true, admitted, l.Model())
    ensures Consulted(l.config, old(l.buckets), key, gate)
    ensures admitted <==> TokensAt(l.config, gate, checkAt) >= 1.0
    ensures !admitted ==> key in l.buckets && l.buckets[key].lim == gate
    ensures admitted && meanwhile == [] && l.config.limit >= 1 && gate.last <= checkAt <= recordAt
            && |old(l.buckets)| < HARD_BUCKET_CAP - 1 ==>
              && key in l.buckets
              && TokensAt(l.config, l.buckets[key].lim, recordAt) == TokensAt(l.config, gate, recordAt) - 1.0
  {
    hide ValidVictims, Touch, Recorded, Peek, ValidActs, TokensAt;
    ghost var before := l.Model();
    ghost var gated, victims, debited := {}, [], {};
    var d;
    d, gated := l.Allow(key, checkAt);
    TouchFacts(l.config, before, key, checkAt, gated);
    gate := l.buckets[key].lim;
    admitted := d.allowed;
    if admitted {
      victims := Meanwhile(l, meanwhile);
      debited := l.Record(key, recordAt);
      if meanwhile == [] && l.config.limit >= 1 && gate.last <= checkAt <= recordAt
          && |before.buckets| < HARD_BUCKET_CAP - 1 {
        DebitCostsOne(l.config, before, key, checkAt, recordAt, gated, debited);
      }
    }
    assert ServedVia(l.config, before, key, checkAt, meanwhile, recordAt, true, admitted, l.Model(), gated, victims,
                     debited);
  }

  /** RateLimitOnSuccess: the handler runs between the gate and the debit, and
      only a 2xx answer is debited. */
  method RateLimitOnSuccess(l: Memory, key: string, checkAt: real, meanwhile: seq<Act>, status: int, recordAt: real)
    returns (admitted: bool, ghost gate: Limiter)
    requires l.Valid()
    modifies l
    ensures l.Valid()
    ensures Served(l.config, old(l.Model()), key, checkAt, meanwhile, recordAt, CountsAsUse(status), admitted,
                   l.Model())
    ensures Consulted(l.config, old(l.buckets), key, gate)
    ensures admitted <==> TokensAt(l.config, gate, checkAt) >= 1.0
    ensures !admitted ==> key in l.buckets && l.buckets[key].lim == gate
    ensures admitted && meanwhile == [] && status != 0 && (status < 200 || status > 299) ==>
              key in l.buckets && l.buckets[key].lim == gate
    ensures admitted && meanwhile == [] && (status == 0 || 200 <= status <= 299) && l.config.limit >= 1
            && gate.last <= checkAt <= recordAt && |old(l.buckets)| < HARD_BUCKET_CAP - 1 ==>
              && key in l.buckets
              && TokensAt(l.config, l.buckets[key].lim, recordAt) == TokensAt(l.config, gate, recordAt) - 1.0
  {
    hide ValidVictims, Touch, Recorded, Peek, ValidActs, TokensAt;
    ghost var before := l.Model();
    ghost var gated, victims, debited := {}, [], {};
    var d;
    d, gated := l.Allow(key, checkAt);
    TouchFacts(l.config, before, key, checkAt, gated);
    gate := l.buckets[key].lim;
    admitted := d.allowed;
    if admitted {
      victims := Meanwhile(l, meanwhile);
      if CountsAsUse(status) {
        debited := l.Record(key, recordAt);
        if meanwhile == [] && l.config.limit >= 1 && gate.last <= checkAt <= recordAt
            && |before.buckets| < HARD_BUCKET_CAP - 1 {
          DebitCostsOne(l.config, before, key, checkAt, recordAt, gated, debited);
        }
      }
    }
    assert ServedVia(l.config, before, key, checkAt, meanwhile, recordAt, CountsAsUse(status), admitted, l.Model(),
                     gated, victims, debited);
  }
}
