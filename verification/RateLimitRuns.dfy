/** Whole runs of the Allow / Record protocol, for one key at a time.

    Requests interleave freely: any number of them may sit between their Allow
    and their Record, other keys come and go, sweeps happen whenever the code or
    a caller runs one. Two questions are answered: does dropping idle buckets
    ever change a decision, and how many requests get through in a span. */
module RateLimitRuns {
  import opened RateLimit

  /** Abandon is a request of RateLimitOnSuccess whose handler did not return
      2xx: it passed the gate and will never be recorded. */
  datatype Op =
    | Allow(key: string, req: nat, now: real, victims: set<string>)
    | Record(key: string, req: nat, now: real, victims: set<string>)
    | Abandon(key: string, req: nat)
    | SweepAll(now: real)

  /** The requests of the observed key: past the gate and undecided, ever past
      the gate, given up. */
  datatype Ledger = Ledger(pending: set<nat>, admitted: set<nat>, abandoned: set<nat>)

  datatype Sys = Sys(state: State, ledger: Ledger, clock: real)

  const START := Sys(State(map[], 0.0), Ledger({}, {}, {}), 0.0)

  function NextState(c: Config, s: State, op: Op): State
    requires c.Valid()
  {
    match op
    case Allow(key, _, now, victims) => Touch(c, s, key, now, victims)
    case Record(key, _, now, victims) => Recorded(c, s, key, now, victims)
    case Abandon(_, _) => s
    case SweepAll(now) => Swept(c, s, now)
  }

  function Answer(c: Config, s: State, op: Op): Decision
    requires c.Valid() && op.Allow?
  {
    Peek(c, NextState(c, s, op).buckets[op.key].lim, op.now)
  }

  predicate Concerns(op: Op, k: string) {
    !op.SweepAll? && op.key == k
  }

  function NextLedger(c: Config, k: string, sys: Sys, op: Op): Ledger
    requires c.Valid()
  {
    var g := sys.ledger;
    if !Concerns(op, k) then g
    else match op
      case Allow(_, req, _, _) =>
        if Answer(c, sys.state, op).allowed then g.(pending := g.pending + {req}, admitted := g.admitted + {req}) else g
      case Record(_, req, _, _) => g.(pending := g.pending - {req})
      case Abandon(_, req) => g.(pending := g.pending - {req}, abandoned := g.abandoned + {req})
      case SweepAll(_) => g
  }

  function Step(c: Config, k: string, sys: Sys, op: Op): Sys
    requires c.Valid()
  {
    Sys(NextState(c, sys.state, op), NextLedger(c, k, sys, op), if op.Abandon? then sys.clock else op.now)
  }

  /** The operation's capacity check evicts k. */
  predicate Drops(op: Op, k: string) {
    (op.Allow? || op.Record?) && k in op.victims
  }

  /** The clock does not run backwards, only requests past the gate are recorded
      or given up, and at most `inFlight` requests of the observed key are
      undecided at once. */
  ghost predicate AnyStep(c: Config, k: string, sys: Sys, op: Op, inFlight: nat)
    requires c.Valid()
  {
    && (!op.Abandon? ==> sys.clock <= op.now)
    && (op.Allow? || op.Record? ==> ValidVictims(c, sys.state, op.now, op.victims))
    && (Concerns(op, k) ==> if op.Allow? then op.req !in sys.ledger.admitted else op.req in sys.ledger.pending)
    && |NextLedger(c, k, sys, op).pending| <= inFlight
  }

  ghost predicate AnyRun(c: Config, k: string, sys: Sys, ops: seq<Op>, inFlight: nat)
    requires c.Valid()
    decreases |ops|
  {
    ops == [] || (AnyStep(c, k, sys, ops[0], inFlight) && AnyRun(c, k, Step(c, k, sys, ops[0]), ops[1..], inFlight))
  }

  /** Evictions spare the observed key. */
  ghost predicate LegalStep(c: Config, k: string, sys: Sys, op: Op, inFlight: nat)
    requires c.Valid()
  {
    AnyStep(c, k, sys, op, inFlight) && !Drops(op, k)
  }

  ghost predicate LegalRun(c: Config, k: string, sys: Sys, ops: seq<Op>, inFlight: nat)
    requires c.Valid()
    decreases |ops|
  {
    ops == [] || (LegalStep(c, k, sys, ops[0], inFlight) && LegalRun(c, k, Step(c, k, sys, ops[0]), ops[1..], inFlight))
  }

  function Run(c: Config, k: string, sys: Sys, ops: seq<Op>): Sys
    requires c.Valid()
    decreases |ops|
  {
    if ops == [] then sys else Run(c, k, Step(c, k, sys, ops[0]), ops[1..])
  }

  /** What the service answers to the observed key's Allow calls. */
  function Decisions(c: Config, k: string, sys: Sys, ops: seq<Op>): seq<Decision>
    requires c.Valid()
    decreases |ops|
  {
    if ops == [] then []
    else
      (if ops[0].Allow? && ops[0].key == k then [Answer(c, sys.state, ops[0])] else [])
      + Decisions(c, k, Step(c, k, sys, ops[0]), ops[1..])
  }

  /** The specification: one limiter per key that is never dropped. */
  function IdealNext(c: Config, k: string, lim: Limiter, op: Op): Limiter
    requires c.Valid()
  {
    if op.Record? && op.key == k then Reserve(c, lim, op.now) else lim
  }

  function IdealRun(c: Config, k: string, lim: Limiter, ops: seq<Op>): Limiter
    requires c.Valid()
    decreases |ops|
  {
    if ops == [] then lim else IdealRun(c, k, IdealNext(c, k, lim, ops[0]), ops[1..])
  }

  function IdealDecisions(c: Config, k: string, lim: Limiter, ops: seq<Op>): seq<Decision>
    requires c.Valid()
    decreases |ops|
  {
    if ops == [] then []
    else
      (if ops[0].Allow? && ops[0].key == k then [Peek(c, lim, ops[0].now)] else [])
      + IdealDecisions(c, k, IdealNext(c, k, lim, ops[0]), ops[1..])
  }

  /** The specification when evictions may hit the key: each starts it afresh. */
  function Restarted(c: Config, k: string, lim: Limiter, op: Op): Limiter {
    if Drops(op, k) then FreshLimiter(c) else lim
  }

  function RestartingRun(c: Config, k: string, lim: Limiter, ops: seq<Op>): Limiter
    requires c.Valid()
    decreases |ops|
  {
    if ops == [] then lim else RestartingRun(c, k, IdealNext(c, k, Restarted(c, k, lim, ops[0]), ops[0]), ops[1..])
  }

  function RestartingDecisions(c: Config, k: string, lim: Limiter, ops: seq<Op>): seq<Decision>
    requires c.Valid()
    decreases |ops|
  {
    if ops == [] then []
    else
      var l := Restarted(c, k, lim, ops[0]);
      (if ops[0].Allow? && ops[0].key == k then [Peek(c, l, ops[0].now)] else [])
      + RestartingDecisions(c, k, IdealNext(c, k, l, ops[0]), ops[1..])
  }

  /** How often the key is evicted. */
  function Evictions(k: string, ops: seq<Op>): nat
    decreases |ops|
  {
    if ops == [] then 0 else (if Drops(ops[0], k) then 1 else 0) + Evictions(k, ops[1..])
  }

  lemma {:induction false} SparedRunsNeverRestart(c: Config, k: string, sys: Sys, lim: Limiter, ops: seq<Op>,
                                                  inFlight: nat)
    requires c.Valid() && LegalRun(c, k, sys, ops, inFlight)
    ensures AnyRun(c, k, sys, ops, inFlight) && Evictions(k, ops) == 0
    ensures RestartingRun(c, k, lim, ops) == IdealRun(c, k, lim, ops)
    ensures RestartingDecisions(c, k, lim, ops) == IdealDecisions(c, k, lim, ops)
    decreases |ops|
  {
    hide AnyStep, Step, IdealNext, Peek;
    if ops == [] {
    } else {
      SparedRunsNeverRestart(c, k, Step(c, k, sys, ops[0]), IdealNext(c, k, lim, ops[0]), ops[1..], inFlight);
    }
  }

  // ---------------------------------------------------------------------
  // The simulation between the swept map and the ideal limiter
  // ---------------------------------------------------------------------

  ghost predicate Full(c: Config, l: Limiter, t: real)
    requires c.Valid()
  {
    l.last <= t && TokensAt(c, l, t) == c.limit as real
  }

  ghost predicate Alike(c: Config, a: Limiter, b: Limiter, t: real)
    requires c.Valid()
  {
    (a == b && a.last <= t) || (Full(c, a, t) && Full(c, b, t))
  }

  lemma AlikeLater(c: Config, a: Limiter, b: Limiter, t: real, u: real)
    requires c.Valid() && Alike(c, a, b, t) && t <= u
    ensures Alike(c, a, b, u) && TokensAt(c, a, u) == TokensAt(c, b, u) && Peek(c, a, u) == Peek(c, b, u)
  {
    TokensAfter(c, a, t, u);
    TokensAfter(c, b, t, u);
    RateTimesWindow(c);
    MulMonotone(c.Rate(), 0.0, u - t);
  }

  /** The map agrees with the ideal limiter: a bucket it holds is alike and owes
      at most `limit`; a bucket it lacks is one the ideal limiter has full. */
  ghost predicate Tracks(c: Config, k: string, s: State, lim: Limiter, clock: real)
    requires c.Valid()
  {
    if k in s.buckets then
      var b := s.buckets[k];
      b.lastSeen <= clock && Alike(c, b.lim, lim, b.lastSeen) && TokensAt(c, b.lim, b.lastSeen) >= -(c.limit as real)
    else
      Full(c, lim, clock)
  }

  /** Balance minus requests in flight: admitting leaves it at or above its
      floor because a whole token was there, recording does not move it. */
  ghost predicate Solvent(c: Config, sys: Sys, lim: Limiter, inFlight: nat)
    requires c.Valid()
  {
    && 0.0 <= lim.last <= sys.clock
    && sys.ledger.pending <= sys.ledger.admitted
    && TokensAt(c, lim, sys.clock) - |sys.ledger.pending| as real >= 1.0 - inFlight as real
  }

  ghost predicate Inv(c: Config, k: string, sys: Sys, lim: Limiter, inFlight: nat)
    requires c.Valid()
  {
    Tracks(c, k, sys.state, lim, sys.clock) && Solvent(c, sys, lim, inFlight)
  }

  /** Two idle windows refill any balance down to -limit. */
  lemma IdleIsFull(c: Config, b: Bucket, now: real)
    requires c.Valid() && b.lim.last <= b.lastSeen && Idle(c, b, now)
    requires TokensAt(c, b.lim, b.lastSeen) >= -(c.limit as real)
    ensures Full(c, b.lim, now)
  {
    TokensAfter(c, b.lim, b.lastSeen, now);
    RateTimesWindow(c);
    MulMonotone(c.Rate(), 2.0 * c.window, now - b.lastSeen);
    assert c.Rate() * (2.0 * c.window) == 2.0 * (c.Rate() * c.window);
  }

  lemma SweepTracks(c: Config, k: string, s: State, lim: Limiter, clock: real, now: real)
    requires c.Valid() && Tracks(c, k, s, lim, clock) && clock <= now
    ensures Tracks(c, k, Swept(c, s, now), lim, now)
    ensures k in Swept(c, s, now).buckets ==> k in s.buckets && Swept(c, s, now).buckets[k] == s.buckets[k]
  {
    if k in s.buckets {
      if Idle(c, s.buckets[k], now) {
        IdleIsFull(c, s.buckets[k], now);
        AlikeLater(c, s.buckets[k].lim, lim, s.buckets[k].lastSeen, now);
      }
    } else {
      AlikeLater(c, lim, lim, clock, now);
    }
  }

  lemma FreshIsFull(c: Config, t: real)
    requires c.Valid() && t >= 0.0
    ensures Full(c, FreshLimiter(c), t)
  {
    RateTimesWindow(c);
    MulMonotone(c.Rate(), 0.0, t);
  }

  lemma ReclaimTracks(c: Config, k: string, s: State, lim: Limiter, clock: real, now: real, victims: set<string>)
    requires c.Valid() && Tracks(c, k, s, lim, clock) && 0.0 <= clock <= now && ValidVictims(c, s, now, victims)
    ensures Tracks(c, k, Reclaimed(c, s, now, victims), if k in victims then FreshLimiter(c) else lim, now)
    ensures k in Reclaimed(c, s, now, victims).buckets ==>
            k in s.buckets
            && Reclaimed(c, s, now, victims).buckets[k] == s.buckets[k]
  {
    SweepTracks(c, k, s, lim, clock, now);
    FreshIsFull(c, now);
    if k !in s.buckets {
      AlikeLater(c, lim, lim, clock, now);
    }
  }

  lemma TouchTracks(c: Config, k: string, s: State, lim: Limiter, clock: real, key: string, now: real,
                    victims: set<string>)
    requires c.Valid() && Tracks(c, k, s, lim, clock) && 0.0 <= clock <= now && ValidVictims(c, s, now, victims)
    ensures var l := if k in victims then FreshLimiter(c) else lim;
            && Tracks(c, k, Touch(c, s, key, now, victims), l, now)
            && (key == k ==> Alike(c, Touch(c, s, key, now, victims).buckets[k].lim, l, now))
  {
    hide Reclaimed, ValidVictims;
    ReclaimTracks(c, k, s, lim, clock, now, victims);
    var r, l := Reclaimed(c, s, now, victims), if k in victims then FreshLimiter(c) else lim;
    if key == k {
      FreshIsFull(c, now);
      RateTimesWindow(c);
      if k in r.buckets {
        AlikeLater(c, r.buckets[k].lim, l, r.buckets[k].lastSeen, now);
        TokensAfter(c, r.buckets[k].lim, r.buckets[k].lastSeen, now);
      }
    }
  }

  lemma ReserveCostsOne(c: Config, l: Limiter, now: real)
    requires c.Valid() && l.last <= now
    ensures TokensAt(c, Reserve(c, l, now), now) == TokensAt(c, l, now) - if c.limit < 1 then 0.0 else 1.0
  {
  }

  lemma ReserveAlike(c: Config, a: Limiter, b: Limiter, now: real)
    requires c.Valid() && Alike(c, a, b, now)
    ensures Alike(c, Reserve(c, a, now), Reserve(c, b, now), now)
  {
  }

  lemma RecordTracks(c: Config, k: string, s: State, lim: Limiter, clock: real, key: string, now: real,
                     victims: set<string>)
    requires c.Valid() && Tracks(c, k, s, lim, clock) && 0.0 <= clock <= now && ValidVictims(c, s, now, victims)
    requires lim.last <= clock
    requires key == k && k !in victims ==> TokensAt(c, lim, now) >= 1.0 - c.limit as real
    requires key == k ==> c.limit >= 1
    ensures var l := if k in victims then FreshLimiter(c) else lim;
            Tracks(c, k, Recorded(c, s, key, now, victims), if key == k then Reserve(c, l, now) else l, now)
  {
    hide Touch, ValidVictims;
    TouchTracks(c, k, s, lim, clock, key, now, victims);
    TouchHas(c, s, key, now, victims);
    if key == k {
      var l := if k in victims then FreshLimiter(c) else lim;
      FreshIsFull(c, now);
      var touched := Touch(c, s, key, now, victims).buckets[k].lim;
      AlikeLater(c, touched, l, now, now);
      ReserveAlike(c, touched, l, now);
      ReserveCostsOne(c, touched, now);
    }
  }

  lemma TouchHas(c: Config, s: State, key: string, now: real, victims: set<string>)
    ensures key in Touch(c, s, key, now, victims).buckets && Touch(c, s, key, now, victims).buckets[key].lastSeen == now
  {
  }

  /** An eviction only raises the balance. */
  lemma RestartStaysSolvent(c: Config, k: string, sys: Sys, lim: Limiter, op: Op, inFlight: nat)
    requires c.Valid() && Solvent(c, sys, lim, inFlight)
    ensures Solvent(c, sys, Restarted(c, k, lim, op), inFlight)
  {
    FreshIsFull(c, sys.clock);
    TokensAfter(c, lim, sys.clock, sys.clock);
  }

  lemma StepStaysSolvent(c: Config, k: string, sys: Sys, lim: Limiter, op: Op, inFlight: nat)
    requires c.Valid() && inFlight >= 1
    requires Solvent(c, sys, lim, inFlight) && AnyStep(c, k, sys, op, inFlight)
    requires op.Allow? && op.key == k ==> Answer(c, sys.state, op) == Peek(c, lim, op.now)
    ensures Solvent(c, Step(c, k, sys, op), IdealNext(c, k, lim, op), inFlight)
  {
    hide ValidVictims, NextState, Drops;
    var now := Step(c, k, sys, op).clock;
    TokensAfter(c, lim, sys.clock, now);
    ReserveCostsOne(c, lim, now);
  }

  lemma StepKeepsInv(c: Config, k: string, sys: Sys, lim: Limiter, op: Op, inFlight: nat)
    requires c.Valid() && 1 <= inFlight <= c.limit + 1
    requires Inv(c, k, sys, lim, inFlight) && AnyStep(c, k, sys, op, inFlight)
    ensures Inv(c, k, Step(c, k, sys, op), IdealNext(c, k, Restarted(c, k, lim, op), op), inFlight)
    ensures op.Allow? && op.key == k ==> Answer(c, sys.state, op) == Peek(c, Restarted(c, k, lim, op), op.now)
  {
    hide ValidVictims, TokensAt, Touch, Reclaimed, Swept, Peek, Reserve, Config.Rate, Full;
    var now, l := Step(c, k, sys, op).clock, Restarted(c, k, lim, op);
    match op {
      case Abandon(_, _) =>
      case SweepAll(_) =>
        SweepTracks(c, k, sys.state, lim, sys.clock, now);
      case Allow(key, _, _, victims) =>
        TouchTracks(c, k, sys.state, lim, sys.clock, key, now, victims);
        TouchHas(c, sys.state, key, now, victims);
        if key == k {
          AlikeLater(c, NextState(c, sys.state, op).buckets[k].lim, l, now, now);
        }
      case Record(key, req, _, victims) =>
        if key == k {
          TokensAfter(c, lim, sys.clock, now);
          SubsetSize({req}, sys.ledger.pending);
          InFlightNeedsALimit(c, sys, lim, inFlight, req);
        }
        RecordTracks(c, k, sys.state, lim, sys.clock, key, now, victims);
    }
    RestartStaysSolvent(c, k, sys, lim, op, inFlight);
    StepStaysSolvent(c, k, sys, l, op, inFlight);
  }

  /** With a zero limit nothing is ever in flight. */
  lemma InFlightNeedsALimit(c: Config, sys: Sys, lim: Limiter, inFlight: nat, req: nat)
    requires c.Valid() && inFlight <= c.limit + 1 && Solvent(c, sys, lim, inFlight) && req in sys.ledger.pending
    ensures c.limit >= 1
  {
    SubsetSize({req}, sys.ledger.pending);
  }

  lemma {:induction false} RunKeepsInv(c: Config, k: string, sys: Sys, lim: Limiter, ops: seq<Op>, inFlight: nat)
    requires c.Valid() && 1 <= inFlight <= c.limit + 1
    requires Inv(c, k, sys, lim, inFlight) && AnyRun(c, k, sys, ops, inFlight)
    ensures Inv(c, k, Run(c, k, sys, ops), RestartingRun(c, k, lim, ops), inFlight)
    ensures Decisions(c, k, sys, ops) == RestartingDecisions(c, k, lim, ops)
    decreases |ops|
  {
    hide Inv, AnyStep, Step, IdealNext, Answer, Restarted;
    if ops == [] {
    } else {
      var next := IdealNext(c, k, Restarted(c, k, lim, ops[0]), ops[0]);
      StepKeepsInv(c, k, sys, lim, ops[0], inFlight);
      RunKeepsInv(c, k, Step(c, k, sys, ops[0]), next, ops[1..], inFlight);
    }
  }

  lemma StartInv(c: Config, k: string, inFlight: nat)
    requires c.Valid() && inFlight >= 1
    ensures Inv(c, k, START, FreshLimiter(c), inFlight)
  {
  }

  /** Over every run from an empty map with at most limit + 1 requests of the key
      in flight, the answers and their Retry-After values are those of a limiter
      that starts afresh at each eviction of the key and forgets nothing else. */
  lemma EvictionIsARestart(c: Config, k: string, ops: seq<Op>, inFlight: nat)
    requires c.Valid() && 1 <= inFlight <= c.limit + 1 && AnyRun(c, k, START, ops, inFlight)
    ensures Decisions(c, k, START, ops) == RestartingDecisions(c, k, FreshLimiter(c), ops)
  {
    hide Inv;
    StartInv(c, k, inFlight);
    RunKeepsInv(c, k, START, FreshLimiter(c), ops, inFlight);
  }

  /** Dropping idle buckets is invisible: without evictions of the key, it is a
      limiter that forgets nothing. */
  lemma SweepingIsInvisible(c: Config, k: string, ops: seq<Op>, inFlight: nat)
    requires c.Valid() && 1 <= inFlight <= c.limit + 1 && LegalRun(c, k, START, ops, inFlight)
    ensures Decisions(c, k, START, ops) == IdealDecisions(c, k, FreshLimiter(c), ops)
  {
    SparedRunsNeverRestart(c, k, START, FreshLimiter(c), ops, inFlight);
    EvictionIsARestart(c, k, ops, inFlight);
  }

  // ---------------------------------------------------------------------
  // How many requests a span lets through
  // ---------------------------------------------------------------------

  /** Admitted since `from` and not abandoned by `to`. */
  function Live(from: Ledger, to: Ledger): set<nat> {
    to.admitted - from.admitted - to.abandoned
  }

  /** Undecided at `to`, admitted since `from`. */
  function Undecided(from: Ledger, to: Ledger): set<nat> {
    to.pending - from.admitted
  }

  /** How many live requests have been recorded, each at the cost of a token. */
  function Spent(from: Ledger, to: Ledger): int {
    |Live(from, to)| - |Undecided(from, to)|
  }

  ghost predicate Orderly(from: Ledger, to: Ledger) {
    && to.abandoned <= to.admitted
    && to.pending <= to.admitted - to.abandoned
    && from.admitted <= to.admitted
  }

  /** The tokens spent since `from` are covered by the refill and by what
      evictions have forgiven. */
  ghost predicate Paid(c: Config, from: Sys, to: Sys, lim: Limiter, forgiven: int)
    requires c.Valid()
  {
    && Orderly(from.ledger, to.ledger)
    && TokensAt(c, lim, to.clock) + Spent(from.ledger, to.ledger) as real
       <= c.limit as real + c.Rate() * (to.clock - from.clock) + forgiven as real
  }

  /** At most this much per eviction: a full bucket for the deepest debt. */
  function Forgiveness(c: Config, inFlight: nat, evictions: nat): int {
    evictions * (c.limit + inFlight - 1)
  }

  lemma AdmittingSpendsNothing(from: Ledger, g: Ledger, req: nat)
    requires Orderly(from, g) && req !in g.admitted
    ensures var h := Ledger(g.pending + {req}, g.admitted + {req}, g.abandoned);
            Orderly(from, h) && Spent(from, h) == Spent(from, g)
  {
    var h := Ledger(g.pending + {req}, g.admitted + {req}, g.abandoned);
    assert Live(from, h) == Live(from, g) + {req} && req !in Live(from, g);
    assert Undecided(from, h) == Undecided(from, g) + {req} && req !in Undecided(from, g);
  }

  lemma RecordingSpendsOne(from: Ledger, g: Ledger, req: nat)
    requires Orderly(from, g) && req in g.pending
    ensures var h := g.(pending := g.pending - {req});
            Orderly(from, h) && Spent(from, h) <= Spent(from, g) + 1
  {
    var h := g.(pending := g.pending - {req});
    assert Live(from, h) == Live(from, g);
    assert Undecided(from, h) == Undecided(from, g) - {req};
  }

  lemma AbandoningSpendsNothing(from: Ledger, g: Ledger, req: nat)
    requires Orderly(from, g) && req in g.pending
    ensures var h := Ledger(g.pending - {req}, g.admitted, g.abandoned + {req});
            Orderly(from, h) && Spent(from, h) == Spent(from, g)
  {
    var h := Ledger(g.pending - {req}, g.admitted, g.abandoned + {req});
    assert Live(from, h) == Live(from, g) - {req};
    assert Undecided(from, h) == Undecided(from, g) - {req};
    assert req in Live(from, g) <==> req in Undecided(from, g);
  }

  lemma SpentMove(c: Config, k: string, from: Ledger, sys: Sys, op: Op, inFlight: nat)
    requires c.Valid() && AnyStep(c, k, sys, op, inFlight) && Orderly(from, sys.ledger)
    ensures var g := NextLedger(c, k, sys, op);
            Orderly(from, g) && Spent(from, g) <= Spent(from, sys.ledger) + if op.Record? && op.key == k then 1 else 0
  {
    if Concerns(op, k) {
      match op
      case Allow(_, req, _, _) => AdmittingSpendsNothing(from, sys.ledger, req);
      case Record(_, req, _, _) => RecordingSpendsOne(from, sys.ledger, req);
      case Abandon(_, req) => AbandoningSpendsNothing(from, sys.ledger, req);
    }
  }

  lemma TokensMove(c: Config, lim: Limiter, t: real, now: real)
    requires c.Valid() && lim.last <= t <= now
    ensures TokensAt(c, lim, now) <= TokensAt(c, lim, t) + c.Rate() * (now - t)
    ensures c.limit >= 1 ==> TokensAt(c, Reserve(c, lim, now), now) <= TokensAt(c, lim, t) + c.Rate() * (now - t) - 1.0
  {
    TokensAfter(c, lim, t, now);
    ReserveCostsOne(c, lim, now);
  }

  lemma SpanSplits(rate: real, t0: real, t1: real, t2: real)
    ensures rate * (t2 - t0) == rate * (t1 - t0) + rate * (t2 - t1)
  {
  }

  lemma RestartStaysPaid(c: Config, k: string, from: Sys, sys: Sys, lim: Limiter, op: Op, inFlight: nat, forgiven: int)
    requires c.Valid() && inFlight >= 1 && Solvent(c, sys, lim, inFlight) && Paid(c, from, sys, lim, forgiven)
    ensures Paid(c, from, sys, Restarted(c, k, lim, op),
                 forgiven + Forgiveness(c, inFlight, if Drops(op, k) then 1 else 0))
  {
    hide TokensAt, Config.Rate;
    FreshIsFull(c, sys.clock);
  }

  lemma StepStaysPaid(c: Config, k: string, from: Sys, sys: Sys, lim: Limiter, op: Op, inFlight: nat, forgiven: int)
    requires c.Valid() && 1 <= inFlight <= c.limit + 1
    requires Solvent(c, sys, lim, inFlight) && AnyStep(c, k, sys, op, inFlight) && Paid(c, from, sys, lim, forgiven)
    ensures Paid(c, from, Step(c, k, sys, op), IdealNext(c, k, Restarted(c, k, lim, op), op),
                 forgiven + Forgiveness(c, inFlight, if Drops(op, k) then 1 else 0))
  {
    hide TokensAt, Config.Rate, Reserve, ValidVictims, Forgiveness, NextState, Orderly, Spent;
    var to, l := Step(c, k, sys, op), Restarted(c, k, lim, op);
    if op.Record? && op.key == k {
      InFlightNeedsALimit(c, sys, lim, inFlight, op.req);
    }
    SpentMove(c, k, from.ledger, sys, op, inFlight);
    RestartStaysPaid(c, k, from, sys, lim, op, inFlight, forgiven);
    PaidMove(c, from, sys, to, l, op.Record? && op.key == k,
             forgiven + Forgiveness(c, inFlight, if Drops(op, k) then 1 else 0));
  }

  lemma PaidMove(c: Config, from: Sys, sys: Sys, to: Sys, lim: Limiter, debit: bool, forgiven: int)
    requires c.Valid() && Paid(c, from, sys, lim, forgiven) && Orderly(from.ledger, to.ledger)
    requires Spent(from.ledger, to.ledger) <= Spent(from.ledger, sys.ledger) + if debit then 1 else 0
    requires lim.last <= sys.clock <= to.clock && (debit ==> c.limit >= 1)
    ensures Paid(c, from, to, if debit then Reserve(c, lim, to.clock) else lim, forgiven)
  {
    hide TokensAt, Config.Rate, Reserve, Orderly, Spent;
    TokensMove(c, lim, sys.clock, to.clock);
    SpanSplits(c.Rate(), from.clock, sys.clock, to.clock);
  }

  lemma ForgivenessAdds(c: Config, inFlight: nat, m: nat, n: nat)
    ensures Forgiveness(c, inFlight, m) + Forgiveness(c, inFlight, n) == Forgiveness(c, inFlight, m + n)
  {
  }

  lemma {:induction false} RunStaysPaid(c: Config, k: string, from: Sys, sys: Sys, lim: Limiter, ops: seq<Op>,
                                        inFlight: nat, forgiven: int)
    requires c.Valid() && 1 <= inFlight <= c.limit + 1
    requires Inv(c, k, sys, lim, inFlight) && AnyRun(c, k, sys, ops, inFlight) && Paid(c, from, sys, lim, forgiven)
    ensures Paid(c, from, Run(c, k, sys, ops), RestartingRun(c, k, lim, ops),
                 forgiven + Forgiveness(c, inFlight, Evictions(k, ops)))
    decreases |ops|
  {
    hide AnyStep, Step, IdealNext, Paid, Restarted, Tracks, Solvent, Drops, Forgiveness;
    if ops == [] {
      NothingForgiven(c, inFlight);
    } else {
      var next, n := IdealNext(c, k, Restarted(c, k, lim, ops[0]), ops[0]), if Drops(ops[0], k) then 1 else 0;
      StepStaysPaid(c, k, from, sys, lim, ops[0], inFlight, forgiven);
      StepKeepsInv(c, k, sys, lim, ops[0], inFlight);
      RunStaysPaid(c, k, from, Step(c, k, sys, ops[0]), next, ops[1..], inFlight,
                   forgiven + Forgiveness(c, inFlight, n));
      ForgivenessAdds(c, inFlight, n, Evictions(k, ops[1..]));
    }
  }

  lemma NothingForgiven(c: Config, inFlight: nat)
    ensures Forgiveness(c, inFlight, 0) == 0
  {
  }

  ghost predicate WithinBudget(c: Config, from: Sys, to: Sys, inFlight: nat)
    requires c.Valid()
  {
    ForgivenBudget(c, from, to, inFlight, 0)
  }

  ghost predicate ForgivenBudget(c: Config, from: Sys, to: Sys, inFlight: nat, forgiven: int)
    requires c.Valid()
  {
    |Live(from.ledger, to.ledger)| as real
      <= c.limit as real + c.Rate() * (to.clock - from.clock) + inFlight as real - 1.0 + forgiven as real
  }

  lemma NothingYetPaid(c: Config, from: Sys, lim: Limiter)
    requires c.Valid() && Orderly(from.ledger, from.ledger)
    ensures Paid(c, from, from, lim, 0)
  {
    assert Live(from.ledger, from.ledger) == {} && Undecided(from.ledger, from.ledger) == {};
  }

  lemma SolventIsWithinBudget(c: Config, from: Sys, to: Sys, lim: Limiter, inFlight: nat, forgiven: int)
    requires c.Valid() && Paid(c, from, to, lim, forgiven) && Solvent(c, to, lim, inFlight)
    ensures ForgivenBudget(c, from, to, inFlight, forgiven)
  {
    SubsetSize(Undecided(from.ledger, to.ledger), to.ledger.pending);
  }

  /** In any span of any run, the requests admitted and not given up number at
      most limit + rate * T + inFlight - 1, and limit + inFlight - 1 more for
      each time the key was evicted in the span. */
  lemma AdmissionsWithEvictions(c: Config, k: string, before: seq<Op>, span: seq<Op>, inFlight: nat)
    requires c.Valid() && 1 <= inFlight <= c.limit + 1
    requires AnyRun(c, k, START, before, inFlight) && AnyRun(c, k, Run(c, k, START, before), span, inFlight)
    ensures ForgivenBudget(c, Run(c, k, START, before), Run(c, k, Run(c, k, START, before), span), inFlight,
                           Forgiveness(c, inFlight, Evictions(k, span)))
  {
    hide AnyRun, Run, RestartingRun, Solvent, Tracks, Forgiveness, ForgivenBudget, Evictions;
    var lim0 := FreshLimiter(c);
    StartInv(c, k, inFlight);
    RunKeepsInv(c, k, START, lim0, before, inFlight);
    var from, lim := Run(c, k, START, before), RestartingRun(c, k, lim0, before);
    OrderlyRun(c, k, before, inFlight);
    NothingYetPaid(c, from, lim);
    RunStaysPaid(c, k, from, from, lim, span, inFlight, 0);
    RunKeepsInv(c, k, from, lim, span, inFlight);
    SolventIsWithinBudget(c, from, Run(c, k, from, span), RestartingRun(c, k, lim, span), inFlight,
                          Forgiveness(c, inFlight, Evictions(k, span)));
  }

  lemma OrderlyRun(c: Config, k: string, ops: seq<Op>, inFlight: nat)
    requires c.Valid() && 1 <= inFlight <= c.limit + 1 && AnyRun(c, k, START, ops, inFlight)
    ensures Orderly(Run(c, k, START, ops).ledger, Run(c, k, START, ops).ledger)
  {
    hide AnyRun, Run, RestartingRun;
    StartInv(c, k, inFlight);
    NothingYetPaid(c, START, FreshLimiter(c));
    RunStaysPaid(c, k, START, START, FreshLimiter(c), ops, inFlight, 0);
  }

  /** Without evictions of the key, at most limit + rate * T + inFlight - 1. */
  lemma AdmissionsAreBounded(c: Config, k: string, before: seq<Op>, span: seq<Op>, inFlight: nat)
    requires c.Valid() && 1 <= inFlight <= c.limit + 1
    requires LegalRun(c, k, START, before, inFlight) && LegalRun(c, k, Run(c, k, START, before), span, inFlight)
    ensures WithinBudget(c, Run(c, k, START, before), Run(c, k, Run(c, k, START, before), span), inFlight)
  {
    hide LegalRun, AnyRun, Run, ForgivenBudget;
    var lim0 := FreshLimiter(c);
    SparedRunsNeverRestart(c, k, START, lim0, before, inFlight);
    SparedRunsNeverRestart(c, k, Run(c, k, START, before), lim0, span, inFlight);
    AdmissionsWithEvictions(c, k, before, span, inFlight);
  }

  /** A limit of zero admits nothing, so no allowance is ever used. */
  lemma {:induction false} ZeroLimitIsIdle(c: Config, k: string, sys: Sys, lim: Limiter, ops: seq<Op>, inFlight: nat)
    requires c.Valid() && c.limit == 0 && Inv(c, k, sys, lim, 1) && LegalRun(c, k, sys, ops, inFlight)
    ensures LegalRun(c, k, sys, ops, 1)
    decreases |ops|
  {
    hide ValidVictims, Tracks, NextState, TokensAt;
    if ops == [] {
    } else {
      NothingPends(c, k, sys, lim, ops[0], inFlight);
      StepKeepsInv(c, k, sys, lim, ops[0], 1);
      ZeroLimitIsIdle(c, k, Step(c, k, sys, ops[0]), IdealNext(c, k, lim, ops[0]), ops[1..], inFlight);
    }
  }

  lemma NothingPends(c: Config, k: string, sys: Sys, lim: Limiter, op: Op, inFlight: nat)
    requires c.Valid() && c.limit == 0 && Inv(c, k, sys, lim, 1) && LegalStep(c, k, sys, op, inFlight)
    ensures LegalStep(c, k, sys, op, 1)
  {
    hide ValidVictims, Tracks, NextState;
    if sys.ledger.pending != {} {
      var req :| req in sys.ledger.pending;
      InFlightNeedsALimit(c, sys, lim, 1, req);
    }
    var g := NextLedger(c, k, sys, op);
    assert g.pending <= if Concerns(op, k) && op.Allow? then {op.req} else {};
    SubsetSize(g.pending, if Concerns(op, k) && op.Allow? then {op.req} else {});
  }

  // ---------------------------------------------------------------------
  // Real requests: what the handler's answer decides
  // ---------------------------------------------------------------------

  /** What becomes of a request past the gate of RateLimitOnSuccess. */
  function Answered(key: string, req: nat, status: int, now: real, victims: set<string>): Op {
    if CountsAsUse(status) then Record(key, req, now, victims) else Abandon(key, req)
  }

  /** A 2xx answer, written or implicit, is recorded; any other is given up. */
  lemma AnswerDecides(key: string, req: nat, status: int, now: real, victims: set<string>)
    ensures status == 0 || 200 <= status <= 299 ==> Answered(key, req, status, now, victims) == Record(key, req, now,
          victims)
    ensures status != 0 && (status < 200 || status > 299) ==> Answered(key, req, status, now, victims) == Abandon(key,
          req)
  {
  }

  function StateAfter(c: Config, s: State, ops: seq<Op>): State
    requires c.Valid()
    decreases |ops|
  {
    if ops == [] then s else NextState(c, StateAfter(c, s, ops[..|ops| - 1]), ops[|ops| - 1])
  }

  function OpOf(act: Act, victims: set<string>): Op {
    match act
    case Checks(key, now) => Allow(key, 0, now, victims)
    case Records(key, now) => Record(key, 0, now, victims)
    case Sweeps(now) => SweepAll(now)
  }

  function OpsOf(acts: seq<Act>, victims: seq<set<string>>): seq<Op>
    requires |acts| == |victims|
  {
    seq(|acts|, i requires 0 <= i < |acts| => OpOf(acts[i], victims[i]))
  }

  lemma {:induction false} ActsAreOps(c: Config, s: State, acts: seq<Act>, victims: seq<set<string>>, first: Op)
    requires c.Valid() && |acts| == |victims|
    ensures AfterActs(c, NextState(c, s, first), acts, victims) == StateAfter(c, s, [first] + OpsOf(acts, victims))
    decreases |acts|
  {
    hide Touch, Recorded, Swept;
    var ops := [first] + OpsOf(acts, victims);
    if acts == [] {
      assert ops == [first] && ops[..0] == [];
    } else {
      var n := |acts| - 1;
      ActsAreOps(c, s, acts[..n], victims[..n], first);
      assert ops[..n + 1] == [first] + OpsOf(acts[..n], victims[..n]);
      assert ops[n + 1] == OpOf(acts[n], victims[n]);
    }
  }

  /** The middleware's effect is that of the run: the check, what others do, and
      the record or the abandonment its status calls for. */
  lemma ServedIsARun(c: Config, before: State, key: string, req: nat, checkAt: real, meanwhile: seq<Act>, status: int,
                     recordAt: real,
                     after: State, gated: set<string>, victims: seq<set<string>>, debited: set<string>)
    requires c.Valid()
    requires ServedVia(c, before, key, checkAt, meanwhile, recordAt, CountsAsUse(status), true, after, gated, victims,
                       debited)
    ensures after == StateAfter(c, before, [Allow(key, req, checkAt, gated)] + OpsOf(meanwhile, victims)
                                           + [Answered(key, req, status, recordAt, debited)])
  {
    hide Touch, Recorded, CountsAsUse, ValidVictims, Peek;
    ActsAreOps(c, before, meanwhile, victims, Allow(key, req, checkAt, gated));
    var ops, last := [Allow(key, req, checkAt, gated)] + OpsOf(meanwhile, victims),
        Answered(key, req, status, recordAt, debited);
    assert (ops + [last])[..|ops|] == ops;
  }

  /** Checks and answers as they interleave. */
  datatype Exchange =
    | Check(key: string, req: nat, now: real, victims: set<string>)
    | Respond(key: string, req: nat, status: int, now: real, victims: set<string>)
    | Cleanup(now: real)

  function AsOp(x: Exchange): Op {
    match x
    case Check(key, req, now, victims) => Allow(key, req, now, victims)
    case Respond(key, req, status, now, victims) => Answered(key, req, status, now, victims)
    case Cleanup(now) => SweepAll(now)
  }

  function AsOps(traffic: seq<Exchange>): seq<Op>
    decreases |traffic|
  {
    if traffic == [] then [] else [AsOp(traffic[0])] + AsOps(traffic[1..])
  }

  /** The requests of k answered with a 2xx, written or implicit. */
  function Successes(k: string, traffic: seq<Exchange>): set<nat>
    decreases |traffic|
  {
    if traffic == [] then {}
    else
      var x := traffic[0];
      (if x.Respond? && x.key == k && (x.status == 0 || 200 <= x.status <= 299) then {x.req} else {})
      + Successes(k, traffic[1..])
  }

  /** Past the gate, decided, and not given up. */
  predicate Settled(g: Ledger, reqs: set<nat>) {
    reqs <= g.admitted && reqs !! g.pending && reqs !! g.abandoned
  }

  lemma StepSettles(c: Config, k: string, sys: Sys, op: Op, inFlight: nat, done: set<nat>)
    requires c.Valid() && AnyStep(c, k, sys, op, inFlight) && Orderly(sys.ledger, sys.ledger)
             && Settled(sys.ledger, done)
    ensures Orderly(Step(c, k, sys, op).ledger, Step(c, k, sys, op).ledger)
    ensures Settled(Step(c, k, sys, op).ledger, done + if op.Record? && op.key == k then {op.req} else {})
  {
    hide ValidVictims, NextState, Answer;
  }

  lemma {:induction false} SuccessesSettle(c: Config, k: string, sys: Sys, traffic: seq<Exchange>, inFlight: nat,
                                           done: set<nat>)
    requires c.Valid() && AnyRun(c, k, sys, AsOps(traffic), inFlight) && Orderly(sys.ledger, sys.ledger)
             && Settled(sys.ledger, done)
    ensures Settled(Run(c, k, sys, AsOps(traffic)).ledger, done + Successes(k, traffic))
    decreases |traffic|
  {
    hide AnyStep, Step, Orderly, Settled;
    if traffic == [] {
      assert done + {} == done;
    } else {
      var op := AsOp(traffic[0]);
      var next := if op.Record? && op.key == k then {op.req} else {};
      assert AsOps(traffic)[0] == op && AsOps(traffic)[1..] == AsOps(traffic[1..]);
      StepSettles(c, k, sys, op, inFlight, done);
      SuccessesSettle(c, k, Step(c, k, sys, op), traffic[1..], inFlight, done + next);
      assert done + Successes(k, traffic) == done + next + Successes(k, traffic[1..]);
    }
  }

  /** In any span, the requests let in and answered with success number at most
      limit + rate * T + inFlight - 1, and limit + inFlight - 1 more for each
      eviction of the key. */
  lemma SuccessesAreBounded(c: Config, k: string, before: seq<Op>, traffic: seq<Exchange>, inFlight: nat)
    requires c.Valid() && 1 <= inFlight <= c.limit + 1
    requires AnyRun(c, k, START, before, inFlight) && AnyRun(c, k, Run(c, k, START, before), AsOps(traffic), inFlight)
    ensures var from := Run(c, k, START, before);
            var to := Run(c, k, from, AsOps(traffic));
            |Successes(k, traffic) - from.ledger.admitted| as real
            <= c.limit as real + c.Rate() * (to.clock - from.clock) + inFlight as real - 1.0
               + (Evictions(k, AsOps(traffic)) * (c.limit + inFlight - 1)) as real
  {
    hide AnyRun, Run, Successes, AsOps, Evictions, Config.Rate, Orderly;
    var from := Run(c, k, START, before);
    var to := Run(c, k, from, AsOps(traffic));
    OrderlyRun(c, k, before, inFlight);
    NothingSettled(from.ledger);
    SuccessesSettle(c, k, from, traffic, inFlight, {});
    AdmissionsWithEvictions(c, k, before, AsOps(traffic), inFlight);
    assert {} + Successes(k, traffic) == Successes(k, traffic);
    SubsetSize(Successes(k, traffic) - from.ledger.admitted, Live(from.ledger, to.ledger));
  }

  lemma NothingSettled(g: Ledger)
    ensures Settled(g, {})
  {
  }

  /** Requests served one at a time get at most twice the limit in any one window. */
  lemma SerialRequestsGetTwiceTheLimit(c: Config, k: string, before: seq<Op>, span: seq<Op>)
    requires c.Valid()
    requires LegalRun(c, k, START, before, 1) && LegalRun(c, k, Run(c, k, START, before), span, 1)
    requires Run(c, k, Run(c, k, START, before), span).clock - Run(c, k, START, before).clock <= c.window
    ensures |Live(Run(c, k, START, before).ledger, Run(c, k, Run(c, k, START, before), span).ledger)| <= 2 * c.limit
  {
    AdmissionsAreBounded(c, k, before, span, 1);
    OneWindow(c, Run(c, k, START, before), Run(c, k, Run(c, k, START, before), span));
  }

  lemma OneWindow(c: Config, from: Sys, to: Sys)
    requires c.Valid() && to.clock - from.clock <= c.window && WithinBudget(c, from, to, 1)
    ensures |Live(from.ledger, to.ledger)| <= 2 * c.limit
  {
    hide Live;
    RateTimesWindow(c);
    MulMonotone(c.Rate(), to.clock - from.clock, c.window);
    assert |Live(from.ledger, to.ledger)| as real <= c.limit as real + c.Rate() * (to.clock - from.clock);
    TwiceInWholeNumbers(|Live(from.ledger, to.ledger)|, c.limit, c.Rate() * (to.clock - from.clock));
  }

  lemma TwiceInWholeNumbers(n: nat, limit: nat, refill: real)
    requires n as real <= limit as real + refill && refill <= limit as real
    ensures n <= 2 * limit
  {
    assert (limit + limit) as real == limit as real + limit as real;
    assert n as real <= (limit + limit) as real;
  }
}
