/** The claim protocol as a state machine: requests claim jobs, detached
    goroutines land one status write or die, time passes. The status write is
    not fenced; safety rests on the timeouts alone. */
module PosterProtocol {
  import opened Common
  import opened PosterJobs

  /** A goroutine that won the claim written at `claimedAt`. */
  datatype Gen = Gen(job: string, claimedAt: int)

  datatype Sys = Sys(jobs: Jobs, live: map<nat, Gen>, clock: int, next: nat)

  /** stale: how long a pending row is left alone; deadline: by when a goroutine
      has landed its write or died, counted from its claim; skew: how far the
      API host's clock may run ahead of the database's. */
  datatype Timing = Timing(stale: int, deadline: nat, skew: nat)

  /** Die covers a process restart, a status write that failed, and a claim that
      took effect but whose answer was lost. */
  datatype Step =
    | Request(p: ClaimParams, now: int)
    | Land(gen: nat, g: Generated, now: int)
    | Die(gen: nat, now: int)
    | Tick(now: int)

  const START := Sys(map[], map[], 0, 0)

  /** A request's staleBefore is its own clock reading minus `stale`. No live
      goroutine outlasts its deadline. */
  ghost predicate Legal(t: Timing, s: Sys, step: Step) {
    && s.clock <= step.now
    && (forall i :: i in s.live ==> step.now <= s.live[i].claimedAt + t.deadline)
    && (step.Request? ==> step.p.staleBefore <= step.now + t.skew - t.stale)
    && (step.Land? || step.Die? ==> step.gen in s.live)
  }

  function Next(s: Sys, step: Step): Sys {
    match step
    case Tick(now) => s.(clock := now)
    case Die(i, now) => s.(live := s.live - {i}, clock := now)
    case Land(i, g, now) =>
      if i !in s.live then s
      else Sys(Marked(s.jobs, s.live[i].job, Verdict(g), now), s.live - {i}, now, s.next)
    case Request(p, now) =>
      if Claimable(s.jobs, p) then
        Sys(Claimed(s.jobs, p, now), s.live[s.next := Gen(p.id, now)], now, s.next + 1)
      else
        s.(clock := now)
  }

  ghost predicate LegalRun(t: Timing, s: Sys, steps: seq<Step>)
    decreases |steps|
  {
    steps == [] || (Legal(t, s, steps[0]) && LegalRun(t, Next(s, steps[0]), steps[1..]))
  }

  function Run(s: Sys, steps: seq<Step>): Sys
    decreases |steps|
  {
    if steps == [] then s else Run(Next(s, steps[0]), steps[1..])
  }

  ghost predicate AtMostOneLive(s: Sys) {
    forall i, j :: i in s.live && j in s.live && s.live[i].job == s.live[j].job ==> i == j
  }

  /** A live goroutine's row is exactly as its own claim left it. */
  ghost predicate OwnsItsRow(s: Sys, i: nat)
    requires i in s.live
  {
    var g := s.live[i];
    g.job in s.jobs && s.jobs[g.job].status == Pending && s.jobs[g.job].updatedAt == g.claimedAt
  }

  ghost predicate Inv(s: Sys) {
    && AtMostOneLive(s)
    && (forall i :: i in s.live ==> i < s.next && s.live[i].claimedAt <= s.clock && OwnsItsRow(s, i))
    && (forall id :: id in s.jobs && s.jobs[id].status == Ready ==>
        s.jobs[id].pngKey.Some?
        && ValidKey(s.jobs[id].pngKey.value))
  }

  ghost predicate TimelyDeadline(t: Timing) {
    t.deadline + t.skew <= t.stale
  }

  /** Whoever wins a claim finds no goroutine still working on the job. */
  lemma WinnerIsAlone(t: Timing, s: Sys, step: Step)
    requires TimelyDeadline(t) && Inv(s) && Legal(t, s, step) && step.Request? && Claimable(s.jobs, step.p)
    ensures forall i :: i in s.live ==> s.live[i].job != step.p.id
  {
    forall i | i in s.live
      ensures s.live[i].job != step.p.id
    {
      assert OwnsItsRow(s, i);
    }
  }

  lemma ReadyVerdictIsPresignable(g: Generated)
    ensures Verdict(g).MarkReady? ==> ValidKey(Verdict(g).pngKey)
  {
    hide ValidKey;
  }

  lemma StepKeepsInv(t: Timing, s: Sys, step: Step)
    requires TimelyDeadline(t) && Inv(s) && Legal(t, s, step)
    ensures Inv(Next(s, step))
  {
    hide ValidKey, Verdict;
    if step.Land? {
      ReadyVerdictIsPresignable(step.g);
    }
    if step.Request? && Claimable(s.jobs, step.p) {
      WinnerIsAlone(t, s, step);
    }
    forall i | i in Next(s, step).live
      ensures OwnsItsRow(Next(s, step), i)
    {
      if i in s.live {
        assert OwnsItsRow(s, i);
      }
    }
  }

  lemma {:induction false} RunKeepsInv(t: Timing, s: Sys, steps: seq<Step>)
    requires TimelyDeadline(t) && Inv(s) && LegalRun(t, s, steps)
    ensures Inv(Run(s, steps))
    decreases |steps|
  {
    if steps == [] {
    } else {
      StepKeepsInv(t, s, steps[0]);
      RunKeepsInv(t, Next(s, steps[0]), steps[1..]);
    }
  }

  ghost predicate Reachable(t: Timing, s: Sys) {
    exists steps :: LegalRun(t, START, steps) && Run(START, steps) == s
  }

  lemma ReachableInv(t: Timing, s: Sys)
    requires TimelyDeadline(t) && Reachable(t, s)
    ensures Inv(s)
  {
    var steps :| LegalRun(t, START, steps) && Run(START, steps) == s;
    RunKeepsInv(t, START, steps);
  }

  /** The step replaces a finished poster without being a forced claim by its owner. */
  ghost predicate ClobbersPoster(s: Sys, step: Step) {
    exists id :: id in s.jobs && s.jobs[id].status == Ready && (id !in Next(s, step).jobs
                                                                || Next(s, step).jobs[id] != s.jobs[id])
      && !(step.Request? && step.p.id == id && step.p.force && step.p.user == s.jobs[id].user)
  }

  /** In every reachable state each job has at most one live generation, and it
      lands on the row its own claim wrote; a finished poster changes only by a
      forced claim of its owner; and it can always be presigned. */
  lemma PosterSafety(t: Timing, s: Sys, step: Step)
    requires TimelyDeadline(t) && Reachable(t, s) && Legal(t, s, step)
    ensures AtMostOneLive(s)
    ensures step.Land? ==> OwnsItsRow(s, step.gen)
    ensures !ClobbersPoster(s, step)
    ensures forall id :: id in s.jobs && s.jobs[id].status == Ready ==>
            s.jobs[id].pngKey.Some?
            && ValidKey(s.jobs[id].pngKey.value)
  {
    hide ValidKey, Verdict, Reachable;
    ReachableInv(t, s);
    if step.Land? {
      assert OwnsItsRow(s, step.gen);
    }
  }

  /** No row is stranded: once it has been pending for longer than `stale`, its
      owner's next request wins, and the goroutine that held it is gone. */
  lemma StrandedJobIsReclaimed(t: Timing, s: Sys, step: Step)
    requires TimelyDeadline(t) && Reachable(t, s) && Legal(t, s, step) && step.Request? && step.p.id in s.jobs
    requires var job := s.jobs[step.p.id];
             job.status == Pending && job.user == step.p.user && job.updatedAt < step.p.staleBefore
    ensures step.p.id in Next(s, step).jobs && Next(s, step).jobs[step.p.id].updatedAt == step.now
    ensures forall i :: i in Next(s, step).live && Next(s, step).live[i].job == step.p.id ==> i == s.next
  {
    ReachableInv(t, s);
    WinnerIsAlone(t, s, step);
  }

  /** The request won: a pending row of its own, its result columns cleared, and
      a new goroutine at work on it; nothing else has changed. */
  predicate TakesEffect(s: Sys, p: ClaimParams, now: int, after: Sys) {
    && p.id in after.jobs
    && (var row := after.jobs[p.id];
        && row.status == Pending && row.updatedAt == now && row.user == p.user
        && row.pngKey == None && row.artist == None && row.credit == None && row.failureStage == None
        && row.failureReason == None
        && after.jobs == s.jobs[p.id := row])
    && s.next !in s.live && after.live == s.live[s.next := Gen(p.id, now)]
  }

  /** Who wins, in any reachable state: the first request for a job; after that
      only its owner, and exactly when the row is failed, or pending and stale,
      or ready and forced. A request that does not win changes nothing. */
  lemma RequestWinsIff(t: Timing, s: Sys, p: ClaimParams, now: int)
    requires TimelyDeadline(t) && Reachable(t, s) && Legal(t, s, Request(p, now))
    ensures var after := Next(s, Request(p, now));
            && (p.id !in s.jobs ==>
                  TakesEffect(s, p, now, after) && after.jobs[p.id].performer == p.performer
                      && after.jobs[p.id].venue == p.venue
                  && after.jobs[p.id].date == p.date)
            && (p.id in s.jobs && s.jobs[p.id].user == p.user ==>
                  (TakesEffect(s, p, now, after) <==>
                   s.jobs[p.id].status == Failed || (s.jobs[p.id].status == Pending
                                                     && s.jobs[p.id].updatedAt < p.staleBefore)
                   || (s.jobs[p.id].status == Ready && p.force)))
            && (p.id in s.jobs && s.jobs[p.id].user != p.user ==> after.jobs == s.jobs && after.live == s.live)
            && (!TakesEffect(s, p, now, after) ==> after.jobs == s.jobs && after.live == s.live)
  {
    hide Reachable, ValidKey;
    ReachableInv(t, s);
    assert s.next !in s.live;
  }

  /** What a goroutine leaves on its row when it lands, column by column. */
  lemma LandingFills(t: Timing, s: Sys, i: nat, g: Generated, now: int)
    requires TimelyDeadline(t) && Reachable(t, s) && Legal(t, s, Land(i, g, now))
    ensures var id, after := s.live[i].job, Next(s, Land(i, g, now));
            && id in s.jobs && after.jobs.Keys == s.jobs.Keys && Landed(s.jobs[id], g, now, after.jobs[id])
            && (forall k :: k in s.jobs && k != id ==> after.jobs[k] == s.jobs[k])
            && after.live == s.live - {i}
  {
    hide Reachable, ValidKey;
    ReachableInv(t, s);
    assert OwnsItsRow(s, i);
  }

  lemma {:induction false} RunSnoc(t: Timing, s: Sys, steps: seq<Step>, last: Step)
    requires LegalRun(t, s, steps) && Legal(t, Run(s, steps), last)
    ensures LegalRun(t, s, steps + [last]) && Run(s, steps + [last]) == Next(Run(s, steps), last)
    decreases |steps|
  {
    hide Legal, Next;
    if steps == [] {
      assert [] + [last] == [last] && [last][1..] == [];
    } else {
      assert (steps + [last])[1..] == steps[1..] + [last];
      RunSnoc(t, Next(s, steps[0]), steps[1..], last);
    }
  }

  lemma ReachableNext(t: Timing, s: Sys, step: Step)
    requires Reachable(t, s) && Legal(t, s, step)
    ensures Reachable(t, Next(s, step))
  {
    var steps :| LegalRun(t, START, steps) && Run(START, steps) == s;
    RunSnoc(t, START, steps, step);
  }

  /** A generation that failed can be retried at once by its owner. */
  lemma FailureCanBeRetried(t: Timing, s: Sys, i: nat, g: Generated, landedAt: int, p: ClaimParams, now: int)
    requires TimelyDeadline(t) && Reachable(t, s) && Legal(t, s, Land(i, g, landedAt))
    requires g.CallError? || g.failureStage != "" || !ValidKey(g.pngKey)
    requires p.id == s.live[i].job && p.id in s.jobs && p.user == s.jobs[p.id].user
    requires Legal(t, Next(s, Land(i, g, landedAt)), Request(p, now))
    ensures TakesEffect(Next(s, Land(i, g, landedAt)), p, now, Next(Next(s, Land(i, g, landedAt)), Request(p, now)))
  {
    hide Reachable, ValidKey, Legal, Next, TakesEffect;
    var failed := Next(s, Land(i, g, landedAt));
    LandingFills(t, s, i, g, landedAt);
    ReachableNext(t, s, Land(i, g, landedAt));
    RequestWinsIff(t, failed, p, now);
  }

  // ---------------------------------------------------------------------
  // The timing condition is exact
  // ---------------------------------------------------------------------

  ghost predicate OneLiveEach(t: Timing) {
    forall s :: Reachable(t, s) ==> AtMostOneLive(s)
  }

  ghost predicate NeverClobbers(t: Timing) {
    forall s, step :: Reachable(t, s) && Legal(t, s, step) ==> !ClobbersPoster(s, step)
  }

  const JOB := "job"

  function ClaimAt(t: Timing, now: int): Step {
    Request(ClaimParams(JOB, "p", "v", "d", "u", now + t.skew - t.stale, false), now)
  }

  lemma StartIsReachable(t: Timing)
    ensures Reachable(t, START)
  {
    assert LegalRun(t, START, []) && Run(START, []) == START;
  }

  const FINISHED := Result("posters/v2/a.png", None, None, "", "")

  lemma FinishedIsReady()
    ensures Verdict(FINISHED) == MarkReady("posters/v2/a.png", None, None)
  {
    var key := "posters/v2/a.png";
    assert HasPrefix(key, "posters/v");
    assert HasSuffix(key, ".png") by { assert key[12..] == ".png"; }
    forall i | 0 <= i <= |key|
      ensures !HasPrefix(key[i..], "..")
    {
      if i + 1 < |key| {
        assert key[i] != '.' || key[i + 1] != '.';
        assert key[i..][0] == key[i] && key[i..][1] == key[i + 1];
      }
    }
  }

  /** Claim; when the deadline is as near as it gets, claim again: a second
      goroutine starts under the first. The first finishes a poster, the second
      overwrites it with its failure. */
  lemma LateDeadlineClobbers(t: Timing) returns (two: Sys, done: Sys, last: Step)
    requires !TimelyDeadline(t)
    ensures Reachable(t, two) && !AtMostOneLive(two)
    ensures Reachable(t, done) && Legal(t, done, last) && ClobbersPoster(done, last)
  {
    hide Verdict, Reachable;
    var d := t.deadline;
    StartIsReachable(t);
    ReachableNext(t, START, ClaimAt(t, 0));
    var one := Next(START, ClaimAt(t, 0));
    assert one.live == map[0 := Gen(JOB, 0)] && one.jobs[JOB].updatedAt == 0;
    ReachableNext(t, one, ClaimAt(t, d));
    two := Next(one, ClaimAt(t, d));
    assert two.live == map[0 := Gen(JOB, 0), 1 := Gen(JOB, d)];
    assert 0 in two.live && 1 in two.live && !AtMostOneLive(two);
    FinishedIsReady();
    ReachableNext(t, two, Land(0, FINISHED, d));
    done, last := Next(two, Land(0, FINISHED, d)), Land(1, CallError, d);
    assert done.live == map[1 := Gen(JOB, d)] && done.jobs[JOB].status == Ready;
    assert Verdict(CallError).MarkFailed? by { CallErrorFails(); }
    assert Next(done, last).jobs[JOB].status == Failed;
  }

  lemma CallErrorFails()
    ensures Verdict(CallError).MarkFailed?
  {
  }

  /** One live generation per job, and no poster lost to another generation:
      each holds in every run exactly when the deadline plus the clock skew is
      within the staleness bound. */
  lemma SafeIffTimely(t: Timing)
    ensures OneLiveEach(t) <==> TimelyDeadline(t)
    ensures NeverClobbers(t) <==> TimelyDeadline(t)
  {
    if TimelyDeadline(t) {
      forall s | Reachable(t, s)
        ensures AtMostOneLive(s)
      {
        ReachableInv(t, s);
      }
      forall s, step | Reachable(t, s) && Legal(t, s, step)
        ensures !ClobbersPoster(s, step)
      {
        PosterSafety(t, s, step);
      }
    } else {
      var two, done, last := LateDeadlineClobbers(t);
    }
  }

  /** How long each stage of one goroutine took, from the instant the claim was
      written: the claim's reply, fetching AWS credentials, the HTTP call, the
      status write. Only the generation context bounds the credentials. */
  datatype Timeline = Timeline(claim: nat, credentials: nat, http: nat, write: nat)

  predicate Possible(l: Timeline) {
    && l.claim <= CLAIM_TIMEOUT
    && l.http <= HTTP_TIMEOUT
    && l.credentials + l.http <= DEFAULT_GENERATE_TIMEOUT
    && l.write <= POSTER_DB_TIMEOUT
  }

  function Took(l: Timeline): nat { l.claim + l.credentials + l.http + l.write }

  /** The deployed constants are safe exactly when fetching the credentials plus
      the clock skew stays within 40 seconds. The six-minute context on its own,
      without the HTTP client's 310 seconds, would not be enough. */
  lemma DeployedTimeouts(credentials: nat, skew: nat)
    ensures (forall l, t ::
               Possible(l) && l.credentials <= credentials && t == Timing(STALE_PENDING_AFTER, Took(l), skew) ==>
                 OneLiveEach(t) && NeverClobbers(t))
            <==> credentials + skew <= 40_000
    ensures var t := Timing(STALE_PENDING_AFTER, CLAIM_TIMEOUT + DEFAULT_GENERATE_TIMEOUT + POSTER_DB_TIMEOUT, 0);
            !OneLiveEach(t) && !NeverClobbers(t)
  {
    hide OneLiveEach, NeverClobbers;
    if credentials + skew <= 40_000 {
      forall l, t | Possible(l) && l.credentials <= credentials && t == Timing(STALE_PENDING_AFTER, Took(l), skew)
        ensures (OneLiveEach(t) && NeverClobbers(t))
      {
        SafeIffTimely(t);
      }
    } else {
      var fetch := if credentials <= 50_000 then credentials else 50_000;
      var worst := Timeline(CLAIM_TIMEOUT, fetch, HTTP_TIMEOUT, POSTER_DB_TIMEOUT);
      var t := Timing(STALE_PENDING_AFTER, Took(worst), skew);
      assert Possible(worst);
      SafeIffTimely(t);
    }
    SafeIffTimely(Timing(STALE_PENDING_AFTER, CLAIM_TIMEOUT + DEFAULT_GENERATE_TIMEOUT + POSTER_DB_TIMEOUT, 0));
  }
}
