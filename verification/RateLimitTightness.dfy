/** The allowance of limit + 1 requests in flight is exact.

    Memory's comment says a bucket idle for two windows is necessarily full. It
    is when at most limit + 1 requests of the key were in flight; with one more
    a bucket can owe limit + 1 tokens, and the run built here makes the sweep
    forgive that debt: a decision changes, and one request too many gets in. */
module RateLimitTightness {
  import opened RateLimit
  import opened RateLimitRuns

  lemma {:induction false} LegalConcat(c: Config, k: string, sys: Sys, a: seq<Op>, b: seq<Op>, inFlight: nat)
    requires c.Valid() && LegalRun(c, k, sys, a, inFlight) && LegalRun(c, k, Run(c, k, sys, a), b, inFlight)
    ensures LegalRun(c, k, sys, a + b, inFlight)
    ensures Run(c, k, sys, a + b) == Run(c, k, Run(c, k, sys, a), b)
    decreases |a|
  {
    hide TokensAt, Config.Rate, Answer, Peek, NextState, NextLedger, LegalStep;
    if a == [] {
      assert a + b == b;
    } else {
      assert (a + b)[1..] == a[1..] + b;
      LegalConcat(c, k, Step(c, k, sys, a[0]), a[1..], b, inFlight);
    }
  }

  lemma {:induction false} DecisionsConcat(c: Config, k: string, sys: Sys, a: seq<Op>, b: seq<Op>)
    requires c.Valid()
    ensures Decisions(c, k, sys, a + b) == Decisions(c, k, sys, a) + Decisions(c, k, Run(c, k, sys, a), b)
    decreases |a|
  {
    hide TokensAt, Config.Rate, Answer, Peek, NextState, NextLedger, LegalStep;
    if a == [] {
      assert a + b == b;
    } else {
      assert (a + b)[1..] == a[1..] + b;
      DecisionsConcat(c, k, Step(c, k, sys, a[0]), a[1..], b);
    }
  }

  lemma {:induction false} IdealConcat(c: Config, k: string, lim: Limiter, a: seq<Op>, b: seq<Op>)
    requires c.Valid()
    ensures IdealDecisions(c, k, lim, a + b)
            == IdealDecisions(c, k, lim, a) + IdealDecisions(c, k, IdealRun(c, k, lim, a), b)
    ensures IdealRun(c, k, lim, a + b) == IdealRun(c, k, IdealRun(c, k, lim, a), b)
    decreases |a|
  {
    hide TokensAt, Config.Rate, Answer, Peek, NextState, NextLedger, LegalStep;
    if a == [] {
      assert a + b == b;
    } else {
      assert (a + b)[1..] == a[1..] + b;
      IdealConcat(c, k, IdealNext(c, k, lim, a[0]), a[1..], b);
    }
  }

  lemma {:induction false} OneAnswerEach(c: Config, k: string, sys: Sys, lim: Limiter, ops: seq<Op>)
    requires c.Valid()
    ensures |Decisions(c, k, sys, ops)| == |IdealDecisions(c, k, lim, ops)|
    decreases |ops|
  {
    hide TokensAt, Config.Rate, Answer, Peek, NextState, NextLedger, LegalStep;
    if ops == [] {
    } else {
      OneAnswerEach(c, k, Step(c, k, sys, ops[0]), IdealNext(c, k, lim, ops[0]), ops[1..]);
    }
  }

  lemma RunCons(c: Config, k: string, sys: Sys, lim: Limiter, op: Op, rest: seq<Op>, inFlight: nat)
    requires c.Valid()
    ensures Run(c, k, sys, [op] + rest) == Run(c, k, Step(c, k, sys, op), rest)
    ensures IdealRun(c, k, lim, [op] + rest) == IdealRun(c, k, IdealNext(c, k, lim, op), rest)
    ensures LegalRun(c, k, sys, [op] + rest, inFlight) <==>
            LegalStep(c, k, sys, op, inFlight) && LegalRun(c, k, Step(c, k, sys, op), rest, inFlight)
  {
    assert ([op] + rest)[1..] == rest;
  }

  predicate InRange(lo: nat, hi: nat, i: nat) { lo <= i < hi }

  ghost function Ids(lo: nat, hi: nat): set<nat> {
    set i: nat | i < hi && InRange(lo, hi, i)
  }

  lemma {:induction false} IdsSize(lo: nat, hi: nat)
    requires lo <= hi
    ensures |Ids(lo, hi)| == hi - lo
    decreases hi
  {
    if lo < hi {
      IdsSize(lo, hi - 1);
      assert Ids(lo, hi) == Ids(lo, hi - 1) + {hi - 1};
    } else {
      assert Ids(lo, hi) == {};
    }
  }

  /** Only key k has ever been seen: at instant t its bucket holds x tokens and
      the ideal limiter y; requests 0..m passed the gate, 0..r were recorded. */
  ghost predicate Shape(c: Config, k: string, sys: Sys, lim: Limiter, t: real, x: real, y: real, r: nat, m: nat)
    requires c.Valid()
  {
    && 0.0 <= sys.clock <= t && r <= m
    && sys.state.buckets.Keys <= {k}
    && (if k in sys.state.buckets then
          var b := sys.state.buckets[k];
          b.lim.last <= t && b.lastSeen <= t && TokensAt(c, b.lim, t) == x
        else
          x == c.limit as real)
    && lim.last <= t && TokensAt(c, lim, t) == y
    && sys.ledger == Ledger(Ids(r, m), Ids(0, m), {})
  }

  lemma FewBuckets(c: Config, k: string, s: State, now: real)
    requires s.buckets.Keys <= {k}
    ensures ValidVictims(c, s, now, {}) && Reclaimed(c, s, now, {}) == s
  {
    SubsetSize(s.buckets.Keys, {k});
  }

  lemma AllowOne(c: Config, k: string, sys: Sys, lim: Limiter, t: real, x: real, y: real, r: nat, m: nat, inFlight: nat)
    requires c.Valid() && Shape(c, k, sys, lim, t, x, y, r, m) && x >= 1.0 && m - r < inFlight
    ensures var op := Allow(k, m, t, {});
            && LegalStep(c, k, sys, op, inFlight)
            && Shape(c, k, Step(c, k, sys, op), IdealNext(c, k, lim, op), t, x, y, r, m + 1)
            && Answer(c, sys.state, op) == Decision(true, 0.0)
  {
    hide TokensAt, Config.Rate, ValidVictims, Reclaimed, Ids;
    FewBuckets(c, k, sys.state, t);
    FreshIsFull(c, t);
    IdsSize(r, m + 1);
    IdsMove(r, m);
    IdsMove(0, m);
    var op := Allow(k, m, t, {});
    var touched := NextState(c, sys.state, op);
    assert touched.buckets.Keys <= {k} && TokensAt(c, touched.buckets[k].lim, t) == x;
    assert Answer(c, sys.state, op) == Decision(true, 0.0);
  }

  lemma IdsMove(r: nat, m: nat)
    requires r <= m
    ensures m !in Ids(r, m) && Ids(r, m) + {m} == Ids(r, m + 1)
    ensures r < m ==> r in Ids(r, m) && Ids(r, m) - {r} == Ids(r + 1, m)
  {
  }

  lemma RecordOne(c: Config, k: string, sys: Sys, lim: Limiter, t: real, x: real, y: real, r: nat, m: nat,
                  inFlight: nat)
    requires c.Valid() && c.limit >= 1 && Shape(c, k, sys, lim, t, x, y, r, m) && r < m && m - r <= inFlight
    ensures var op := Record(k, r, t, {});
            && LegalStep(c, k, sys, op, inFlight)
            && Shape(c, k, Step(c, k, sys, op), IdealNext(c, k, lim, op), t, x - 1.0, y - 1.0, r + 1, m)
  {
    hide TokensAt, Config.Rate, ValidVictims, Reclaimed, Ids;
    FewBuckets(c, k, sys.state, t);
    FreshIsFull(c, t);
    IdsSize(r + 1, m);
    IdsMove(r, m);
    ReserveCostsOne(c, Touch(c, sys.state, k, t, {}).buckets[k].lim, t);
    ReserveCostsOne(c, lim, t);
  }

  function Allows(k: string, m: nat, n: nat, t: real): seq<Op>
    decreases n
  {
    if n == 0 then [] else [Allow(k, m, t, {})] + Allows(k, m + 1, n - 1, t)
  }

  function Records(k: string, r: nat, n: nat, t: real): seq<Op>
    decreases n
  {
    if n == 0 then [] else [Record(k, r, t, {})] + Records(k, r + 1, n - 1, t)
  }

  /** n requests, each recorded before the next begins. */
  function Serial(k: string, m: nat, n: nat, t: real): seq<Op>
    decreases n
  {
    if n == 0 then [] else [Allow(k, m, t, {})] + ([Record(k, m, t, {})] + Serial(k, m + 1, n - 1, t))
  }

  lemma {:induction false} AllowsShape(c: Config, k: string, sys: Sys, lim: Limiter, t: real, x: real, y: real,
                                       r: nat, m: nat, n: nat, inFlight: nat)
    requires c.Valid() && Shape(c, k, sys, lim, t, x, y, r, m) && x >= 1.0 && m - r + n <= inFlight
    ensures LegalRun(c, k, sys, Allows(k, m, n, t), inFlight)
    ensures Shape(c, k, Run(c, k, sys, Allows(k, m, n, t)), IdealRun(c, k, lim, Allows(k, m, n, t)), t, x, y, r, m + n)
    decreases n
  {
    hide Shape, TokensAt, LegalStep, Step;
    if n == 0 {
    } else {
      var op := Allow(k, m, t, {});
      AllowOne(c, k, sys, lim, t, x, y, r, m, inFlight);
      AllowsShape(c, k, Step(c, k, sys, op), IdealNext(c, k, lim, op), t, x, y, r, m + 1, n - 1, inFlight);
      RunCons(c, k, sys, lim, op, Allows(k, m + 1, n - 1, t), inFlight);
    }
  }

  lemma {:induction false} RecordsShape(c: Config, k: string, sys: Sys, lim: Limiter, t: real, x: real, y: real,
                                        r: nat, m: nat, n: nat, inFlight: nat)
    requires c.Valid() && c.limit >= 1 && Shape(c, k, sys, lim, t, x, y, r, m) && r + n <= m && m - r <= inFlight
    ensures LegalRun(c, k, sys, Records(k, r, n, t), inFlight)
    ensures Shape(c, k, Run(c, k, sys, Records(k, r, n, t)), IdealRun(c, k, lim, Records(k, r, n, t)), t,
                  x - n as real, y - n as real, r + n, m)
    decreases n
  {
    hide Shape, TokensAt, LegalStep, Step;
    if n == 0 {
    } else {
      var op := Record(k, r, t, {});
      RecordOne(c, k, sys, lim, t, x, y, r, m, inFlight);
      RecordsShape(c, k, Step(c, k, sys, op), IdealNext(c, k, lim, op), t, x - 1.0, y - 1.0, r + 1, m, n - 1, inFlight);
      RunCons(c, k, sys, lim, op, Records(k, r + 1, n - 1, t), inFlight);
    }
  }

  lemma {:induction false} SerialShape(c: Config, k: string, sys: Sys, lim: Limiter, t: real, x: real, y: real,
                                       m: nat, n: nat, inFlight: nat)
    requires c.Valid() && c.limit >= 1 && inFlight >= 1 && Shape(c, k, sys, lim, t, x, y, m, m) && x >= n as real
    ensures LegalRun(c, k, sys, Serial(k, m, n, t), inFlight)
    ensures Shape(c, k, Run(c, k, sys, Serial(k, m, n, t)), IdealRun(c, k, lim, Serial(k, m, n, t)), t, x - n as real,
                  y - n as real, m + n, m + n)
    decreases n
  {
    hide Shape, TokensAt, LegalStep, Step;
    if n == 0 {
    } else {
      var op1, op2 := Allow(k, m, t, {}), Record(k, m, t, {});
      AllowOne(c, k, sys, lim, t, x, y, m, m, inFlight);
      var s1, l1 := Step(c, k, sys, op1), IdealNext(c, k, lim, op1);
      RecordOne(c, k, s1, l1, t, x, y, m, m + 1, inFlight);
      var s2, l2 := Step(c, k, s1, op2), IdealNext(c, k, l1, op2);
      SerialShape(c, k, s2, l2, t, x - 1.0, y - 1.0, m + 1, n - 1, inFlight);
      var rest := [op2] + Serial(k, m + 1, n - 1, t);
      RunCons(c, k, sys, lim, op1, rest, inFlight);
      RunCons(c, k, s1, l1, op2, Serial(k, m + 1, n - 1, t), inFlight);
    }
  }

  /** A little more than two windows: long enough to be idle, short enough to
      refill only half a token beyond 2 * limit. */
  function LongAfter(c: Config): real
    requires c.Valid() && c.limit >= 1
  {
    2.0 * c.window + c.window / (2.0 * c.limit as real)
  }

  lemma LongAfterRefills(c: Config)
    requires c.Valid() && c.limit >= 1
    ensures c.Rate() * LongAfter(c) == 2.0 * c.limit as real + 0.5
    ensures LongAfter(c) > 2.0 * c.window
  {
    var l := c.limit as real;
    assert c.window / (2.0 * l) > 0.0;
    assert c.Rate() * (2.0 * c.window) == 2.0 * l;
    assert c.Rate() * (c.window / (2.0 * l)) == 0.5;
  }

  /** Spend down to one token, let inFlight requests through on it, record them
      all; go quiet until the sweep; then do the same again. */
  function Debt(c: Config, k: string, inFlight: nat): seq<Op>
    requires c.Valid() && c.limit >= 1
  {
    Serial(k, 0, c.limit - 1, 0.0) + (Allows(k, c.limit - 1, inFlight, 0.0) + Records(k, c.limit - 1, inFlight, 0.0))
  }

  function Quiet(c: Config, k: string, inFlight: nat): seq<Op>
    requires c.Valid() && c.limit >= 1
  {
    [SweepAll(LongAfter(c))] + Serial(k, c.limit - 1 + inFlight, c.limit - 1, LongAfter(c))
  }

  function Again(c: Config, k: string, inFlight: nat): seq<Op>
    requires c.Valid() && c.limit >= 1
  {
    Allows(k, 2 * (c.limit - 1) + inFlight, inFlight, LongAfter(c))
  }

  function ForgivenDebt(c: Config, k: string, inFlight: nat): seq<Op>
    requires c.Valid() && c.limit >= 1
  {
    Debt(c, k, inFlight) + (Quiet(c, k, inFlight) + Again(c, k, inFlight))
  }

  lemma DebtShape(c: Config, k: string, inFlight: nat)
    requires c.Valid() && c.limit >= 1 && inFlight >= 1
    ensures LegalRun(c, k, START, Debt(c, k, inFlight), inFlight)
    ensures var sys, lim := Run(c, k, START, Debt(c, k, inFlight)),
            IdealRun(c, k, FreshLimiter(c), Debt(c, k, inFlight));
            var n := c.limit - 1 + inFlight;
            Shape(c, k, sys, lim, 0.0, 1.0 - inFlight as real, 1.0 - inFlight as real, n, n)
  {
    hide TokensAt, LegalStep, Step, LegalRun, Run, IdealRun, Config.Rate;
    var n, lim := c.limit - 1, FreshLimiter(c);
    var ops1, ops2, ops3 := Serial(k, 0, n, 0.0), Allows(k, n, inFlight, 0.0), Records(k, n, inFlight, 0.0);
    var full := c.limit as real;
    FreshIsFull(c, 0.0);
    assert Shape(c, k, START, lim, 0.0, full, full, 0, 0);
    SerialShape(c, k, START, lim, 0.0, full, full, 0, n, inFlight);
    var s1, l1 := Run(c, k, START, ops1), IdealRun(c, k, lim, ops1);
    AllowsShape(c, k, s1, l1, 0.0, 1.0, 1.0, n, n, inFlight, inFlight);
    var s2, l2 := Run(c, k, s1, ops2), IdealRun(c, k, l1, ops2);
    RecordsShape(c, k, s2, l2, 0.0, 1.0, 1.0, n, n + inFlight, inFlight, inFlight);
    LegalConcat(c, k, s1, ops2, ops3, inFlight);
    LegalConcat(c, k, START, ops1, ops2 + ops3, inFlight);
    IdealConcat(c, k, l1, ops2, ops3);
    IdealConcat(c, k, lim, ops1, ops2 + ops3);
  }

  /** The sweep replaces a balance of 1 - inFlight, which two windows bring back
      to at most limit - 1 and a half, by a full bucket. */
  lemma QuietShape(c: Config, k: string, sys: Sys, lim: Limiter, inFlight: nat) returns (y: real)
    requires c.Valid() && c.limit >= 1 && inFlight >= c.limit + 2
    requires Shape(c, k, sys, lim, 0.0, 1.0 - inFlight as real, 1.0 - inFlight as real, c.limit - 1 + inFlight,
                   c.limit - 1 + inFlight)
    ensures LegalRun(c, k, sys, Quiet(c, k, inFlight), inFlight)
    ensures y < 1.0
    ensures Shape(c, k, Run(c, k, sys, Quiet(c, k, inFlight)), IdealRun(c, k, lim, Quiet(c, k, inFlight)),
                  LongAfter(c), 1.0, y, 2 * (c.limit - 1) + inFlight, 2 * (c.limit - 1) + inFlight)
  {
    hide Shape, TokensAt, Config.Rate, LongAfter, LegalStep, Step, LegalRun, Run, IdealRun;
    var n, m, late := c.limit - 1, c.limit - 1 + inFlight, LongAfter(c);
    var owed := SweepForgives(c, k, sys, lim, m, inFlight);
    var swept := Step(c, k, sys, SweepAll(late));
    SerialShape(c, k, swept, lim, late, c.limit as real, owed, m, n, inFlight);
    RunCons(c, k, sys, lim, SweepAll(late), Serial(k, m, n, late), inFlight);
    y := owed - n as real;
  }

  lemma SweepForgives(c: Config, k: string, sys: Sys, lim: Limiter, m: nat, inFlight: nat) returns (owed: real)
    requires c.Valid() && c.limit >= 1 && inFlight >= c.limit + 2
    requires Shape(c, k, sys, lim, 0.0, 1.0 - inFlight as real, 1.0 - inFlight as real, m, m)
    ensures owed <= c.limit as real - 0.5
    ensures var op := SweepAll(LongAfter(c));
            && LegalStep(c, k, sys, op, inFlight)
            && Shape(c, k, Step(c, k, sys, op), IdealNext(c, k, lim, op), LongAfter(c), c.limit as real, owed, m, m)
  {
    hide TokensAt, Config.Rate, LongAfter;
    owed := TokensAt(c, lim, LongAfter(c));
    LongAfterRefills(c);
    TokensAfter(c, lim, 0.0, LongAfter(c));
    IdsSize(m, m);
    assert Step(c, k, sys, SweepAll(LongAfter(c))).state.buckets == map[];
  }

  lemma AnswerDiffers(c: Config, k: string, sys: Sys, lim: Limiter, t: real, y: real, m: nat, inFlight: nat)
    requires c.Valid() && Shape(c, k, sys, lim, t, 1.0, y, m, m) && y < 1.0 && inFlight >= 1
    ensures var d1, d2 := Decisions(c, k, sys, Allows(k, m, inFlight, t)),
            IdealDecisions(c, k, lim, Allows(k, m, inFlight, t));
            |d1| >= 1 && |d2| >= 1 && d1[0].allowed && !d2[0].allowed
  {
    hide TokensAt, Config.Rate, NextLedger;
    AllowOne(c, k, sys, lim, t, 1.0, y, m, m, inFlight);
    var op, rest := Allow(k, m, t, {}), Allows(k, m + 1, inFlight - 1, t);
    FirstAnswer(c, k, sys, lim, op, rest);
    assert Allows(k, m, inFlight, t) == [op] + rest;
  }

  lemma FirstAnswer(c: Config, k: string, sys: Sys, lim: Limiter, op: Op, rest: seq<Op>)
    requires c.Valid() && op.Allow? && op.key == k
    ensures var d1, d2 := Decisions(c, k, sys, [op] + rest), IdealDecisions(c, k, lim, [op] + rest);
            |d1| >= 1 && |d2| >= 1 && d1[0] == Answer(c, sys.state, op) && d2[0] == Peek(c, lim, op.now)
  {
    hide TokensAt, Config.Rate, Answer, Peek, Step;
  }

  /** The counterexample, for every limit and window and every larger allowance. */
  lemma OneMoreInFlightIsTooMany(c: Config, k: string, inFlight: nat)
    requires c.Valid() && c.limit >= 1 && inFlight >= c.limit + 2
    ensures var ops := ForgivenDebt(c, k, inFlight);
            && LegalRun(c, k, START, ops, inFlight)
            && Decisions(c, k, START, ops) != IdealDecisions(c, k, FreshLimiter(c), ops)
            && !WithinBudget(c, START, Run(c, k, START, ops), inFlight)
  {
    hide Shape, TokensAt, LegalStep, LegalRun, Run, IdealRun, Config.Rate;
    var a, b, d, lim := Debt(c, k, inFlight), Quiet(c, k, inFlight), Again(c, k, inFlight), FreshLimiter(c);
    var late, m := LongAfter(c), 2 * (c.limit - 1) + inFlight;
    DebtShape(c, k, inFlight);
    var s1, l1 := Run(c, k, START, a), IdealRun(c, k, lim, a);
    var y := QuietShape(c, k, s1, l1, inFlight);
    var s2, l2 := Run(c, k, s1, b), IdealRun(c, k, l1, b);
    AllowsShape(c, k, s2, l2, late, 1.0, y, m, m, inFlight, inFlight);
    LegalConcat(c, k, s1, b, d, inFlight);
    LegalConcat(c, k, START, a, b + d, inFlight);
    DecisionsConcat(c, k, s1, b, d);
    DecisionsConcat(c, k, START, a, b + d);
    IdealConcat(c, k, l1, b, d);
    IdealConcat(c, k, lim, a, b + d);
    OneAnswerEach(c, k, START, lim, a);
    OneAnswerEach(c, k, s1, l1, b);
    var earlier := |Decisions(c, k, START, a)| + |Decisions(c, k, s1, b)|;
    var d1, d2 := Decisions(c, k, s2, d), IdealDecisions(c, k, l2, d);
    assert d1[0].allowed && !d2[0].allowed by { AnswerDiffers(c, k, s2, l2, late, y, m, inFlight); }
    assert Decisions(c, k, START, a + (b + d))[earlier] == d1[0];
    assert IdealDecisions(c, k, lim, a + (b + d))[earlier] == d2[0];
    TooManyAdmitted(c, k, Run(c, k, s2, d), IdealRun(c, k, l2, d), y, m, inFlight);
  }

  lemma TooManyAdmitted(c: Config, k: string, sys: Sys, lim: Limiter, y: real, m: nat, inFlight: nat)
    requires c.Valid() && c.limit >= 1 && inFlight >= c.limit + 2 && m == 2 * (c.limit - 1) + inFlight
    requires Shape(c, k, sys, lim, LongAfter(c), 1.0, y, m, m + inFlight)
    ensures !WithinBudget(c, START, sys, inFlight)
  {
    hide TokensAt, Config.Rate, LongAfter, Ids;
    assert Live(START.ledger, sys.ledger) == Ids(0, m + inFlight);
    IdsSize(0, m + inFlight);
    LongAfterRefills(c);
    RateTimesWindow(c);
    MulMonotone(c.Rate(), sys.clock, LongAfter(c));
    OverBudget(c.limit, inFlight, c.Rate() * (sys.clock - START.clock));
  }

  lemma OverBudget(limit: nat, inFlight: nat, refill: real)
    requires limit >= 1 && inFlight >= limit + 2 && refill <= 2.0 * limit as real + 0.5
    ensures (2 * (limit - 1) + inFlight + inFlight) as real > limit as real + refill + inFlight as real - 1.0
  {
    assert (2 * (limit - 1) + inFlight + inFlight) as real == 2.0 * limit as real - 2.0 + 2.0 * inFlight as real;
    assert inFlight as real >= limit as real + 2.0;
  }

  /** The service is indistinguishable from one that never forgets a bucket, and
      keeps to its budget, over exactly the runs with at most limit + 1 requests
      of the key in flight; a limit of zero admits nothing, so there any
      allowance will do. */
  lemma InFlightAllowanceIsExact(c: Config, k: string, inFlight: nat)
    requires c.Valid() && inFlight >= 1
    ensures (forall ops :: LegalRun(c, k, START, ops, inFlight) ==>
               Decisions(c, k, START, ops) == IdealDecisions(c, k, FreshLimiter(c), ops))
            <==> c.limit == 0 || inFlight <= c.limit + 1
    ensures (forall ops ::
             LegalRun(c, k, START, ops, inFlight)
             ==> WithinBudget(c, START, Run(c, k, START, ops), inFlight))
            <==> c.limit == 0 || inFlight <= c.limit + 1
  {
    hide WithinBudget, LegalRun, Decisions, IdealDecisions, Run, Inv;
    if c.limit == 0 || inFlight <= c.limit + 1 {
      forall ops | LegalRun(c, k, START, ops, inFlight)
        ensures Decisions(c, k, START, ops) == IdealDecisions(c, k, FreshLimiter(c), ops)
        ensures WithinBudget(c, START, Run(c, k, START, ops), inFlight)
      {
        SmallAllowanceHolds(c, k, ops, inFlight);
      }
    } else {
      OneMoreInFlightIsTooMany(c, k, inFlight);
    }
  }

  lemma SmallAllowanceHolds(c: Config, k: string, ops: seq<Op>, inFlight: nat)
    requires c.Valid() && inFlight >= 1 && (c.limit == 0 || inFlight <= c.limit + 1)
             && LegalRun(c, k, START, ops, inFlight)
    ensures Decisions(c, k, START, ops) == IdealDecisions(c, k, FreshLimiter(c), ops)
    ensures WithinBudget(c, START, Run(c, k, START, ops), inFlight)
  {
    hide Inv, TokensAt, Config.Rate;
    var used := if c.limit == 0 then 1 else inFlight;
    if c.limit == 0 {
      StartInv(c, k, 1);
      ZeroLimitIsIdle(c, k, START, FreshLimiter(c), ops, inFlight);
    }
    SweepingIsInvisible(c, k, ops, used);
    AdmissionsAreBounded(c, k, [], ops, used);
    BudgetGrows(c, START, Run(c, k, START, ops), used, inFlight);
  }

  lemma BudgetGrows(c: Config, from: Sys, to: Sys, used: nat, inFlight: nat)
    requires c.Valid() && used <= inFlight && WithinBudget(c, from, to, used)
    ensures WithinBudget(c, from, to, inFlight)
  {
    hide Live, Config.Rate;
  }
}
