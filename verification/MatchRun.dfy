/** The stamp-and-prune match run over user_event_match. */
module MatchRun {
  import opened Common
  import opened Scorer

  type Pair = (nat, nat)  // user id, event id

  /** breakdown stands for the score_breakdown JSON, which is a function of the score. */
  datatype MatchRow = MatchRow(score: MatchScore, computedAt: int)

  type Matches = map<Pair, MatchRow>

  datatype EventRow = EventRow(archived: bool, overAt: int)

  predicate Upcoming(events: map<nat, EventRow>, now: int, e: nat) {
    e in events && !events[e].archived && events[e].overAt > now
  }

  /** The subquery of DeleteObsoleteMatches. */
  predicate Obsolete(events: map<nat, EventRow>, now: int, e: nat) {
    e in events && (events[e].archived || events[e].overAt <= now)
  }

  function Threshold(u: UserProfile, c: Config): real {
    if u.threshold.Some? then u.threshold.value else c.scoreThreshold
  }

  predicate Matched(u: UserProfile, e: EventProfile, c: Config, sqrt: real -> real)
    requires c.stringMax != 0.0
  {
    Score(u, e, c, sqrt).totalScore > Threshold(u, c)
  }

  ghost predicate DistinctUsers(users: seq<UserProfile>) {
    forall i, j :: 0 <= i < j < |users| ==> users[i].user != users[j].user
  }

  ghost predicate DistinctEvents(events: seq<EventProfile>) {
    forall i, j :: 0 <= i < j < |events| ==> events[i].event != events[j].event
  }

  /** What loadEvents returns: every upcoming event once. */
  ghost predicate LoadedUpcoming(loaded: seq<EventProfile>, events: map<nat, EventRow>, now: int) {
    DistinctEvents(loaded) && forall e :: Upcoming(events, now, e) <==> exists p :: p in loaded && p.event == e
  }

  /** The fixed inputs of a run. */
  datatype Job = Job(loaded: seq<EventProfile>, config: Config, sqrt: real -> real) {
    ghost predicate Valid() { config.stringMax != 0.0 && IsSqrt(sqrt) && DistinctEvents(loaded) }
  }

  ghost predicate IsHit(users: seq<UserProfile>, job: Job, k: Pair, u: UserProfile, e: EventProfile)
    requires job.config.stringMax != 0.0
  {
    u in users && e in job.loaded && k == (u.user, e.event) && Matched(u, e, job.config, job.sqrt)
  }

  /** The pair is one the run stamps. */
  ghost predicate Hit(users: seq<UserProfile>, job: Job, k: Pair)
    requires job.config.stringMax != 0.0
  {
    exists u, e :: IsHit(users, job, k, u, e)
  }

  /** score is the one computed for the pair. */
  ghost predicate Fresh(users: seq<UserProfile>, job: Job, k: Pair, score: MatchScore)
    requires job.config.stringMax != 0.0
  {
    exists u, e :: IsHit(users, job, k, u, e) && score == Score(u, e, job.config, job.sqrt)
  }

  /** after holds the stamped pairs with their scores, and nothing else has changed. */
  ghost predicate Stamped(before: Matches, after: Matches, users: seq<UserProfile>, job: Job, runAt: int)
    requires job.config.stringMax != 0.0
  {
    && (forall k :: Hit(users, job, k) ==>
        k in after && after[k].computedAt == runAt
        && Fresh(users, job, k, after[k].score))
    && (forall k :: !Hit(users, job, k) ==> (k in after <==> k in before))
    && (forall k :: k in after && !Hit(users, job, k) ==> after[k] == before[k])
  }

  class MatchTable {
    var rows: Matches

    constructor (rows: Matches)
      ensures this.rows == rows
    {
      this.rows := rows;
    }

    method UpsertUserEventMatch(user: nat, event: nat, score: MatchScore, computedAt: int)
      modifies this
      ensures rows == old(rows)[(user, event) := MatchRow(score, computedAt)]
    {
      rows := rows[(user, event) := MatchRow(score, computedAt)];
    }

    method DeleteStaleMatchesForUsers(userIds: set<nat>, cutoff: int)
      modifies this
      ensures rows == Pruned(old(rows), userIds, cutoff)
      ensures forall k :: k in rows <==> k in old(rows) && (k.0 !in userIds || old(rows)[k].computedAt >= cutoff)
      ensures forall k :: k in rows ==> rows[k] == old(rows)[k]
    {
      rows := map k | k in rows && !(k.0 in userIds && rows[k].computedAt < cutoff) :: rows[k];
    }

    method DeleteObsoleteMatches(events: map<nat, EventRow>, now: int)
      modifies this
      ensures rows == Current(old(rows), events, now)
      ensures forall k :: k in rows <==>
                k in old(rows) && (k.1 !in events || (!events[k.1].archived && events[k.1].overAt > now))
      ensures forall k :: k in rows ==> rows[k] == old(rows)[k]
    {
      rows := map k | k in rows && !Obsolete(events, now, k.1) :: rows[k];
    }
  }

  function Pruned(rows: Matches, userIds: set<nat>, cutoff: int): Matches {
    map k | k in rows && !(k.0 in userIds && rows[k].computedAt < cutoff) :: rows[k]
  }

  function Current(rows: Matches, events: map<nat, EventRow>, now: int): Matches {
    map k | k in rows && !Obsolete(events, now, k.1) :: rows[k]
  }

  function UserIds(users: seq<UserProfile>): set<nat> {
    set u | u in users :: u.user
  }

  /** The table after the loops, the prune and the cleanup; a run over no users
      prunes nothing. */
  ghost predicate RunEffect(before: Matches, after: Matches, users: seq<UserProfile>, job: Job, runAt: int,
                            events: map<nat, EventRow>, now: int)
    requires job.config.stringMax != 0.0
  {
    exists stamped :: Stamped(before, stamped, users, job, runAt)
      && after == Current(if |users| > 0 then Pruned(stamped, UserIds(users), runAt) else stamped, events, now)
  }

  /** Which (user, event) pairs the two loops have reached. */
  ghost predicate StampedUpTo(before: Matches, now: Matches, users: seq<UserProfile>, job: Job, runAt: int, i: nat,
                              j: nat)
    requires job.config.stringMax != 0.0 && i <= |users| && j <= |job.loaded|
  {
    && (forall a, b ::
        0 <= a < |users| && 0 <= b < |job.loaded| && (a < i || (a == i && b < j))
        && Matched(users[a], job.loaded[b], job.config, job.sqrt)
        ==>
          (users[a].user, job.loaded[b].event) in now
          && now[(users[a].user, job.loaded[b].event)]
             == MatchRow(Score(users[a], job.loaded[b], job.config, job.sqrt), runAt))
    && (forall k :: k in before && !Hit(users, job, k) ==> k in now && now[k] == before[k])
    && (forall k :: k in now && !Hit(users, job, k) ==> k in before)
  }

  lemma IndexedHit(users: seq<UserProfile>, job: Job, i: nat, j: nat)
    requires job.config.stringMax != 0.0 && i < |users| && j < |job.loaded|
             && Matched(users[i], job.loaded[j], job.config, job.sqrt)
    ensures Hit(users, job, (users[i].user, job.loaded[j].event))
  {
    assert IsHit(users, job, (users[i].user, job.loaded[j].event), users[i], job.loaded[j]);
  }

  lemma StampOne(before: Matches, now: Matches, users: seq<UserProfile>, job: Job, runAt: int, i: nat, j: nat)
    requires job.Valid() && DistinctUsers(users) && i < |users| && j < |job.loaded|
             && StampedUpTo(before, now, users, job, runAt, i, j)
    ensures var u, e := users[i], job.loaded[j];
            Matched(u, e, job.config, job.sqrt) ==>
              StampedUpTo(before, now[(u.user, e.event) := MatchRow(Score(u, e, job.config, job.sqrt), runAt)], users,
                          job, runAt, i, j + 1)
    ensures !Matched(users[i], job.loaded[j], job.config, job.sqrt)
            ==> StampedUpTo(before, now, users, job, runAt, i, j + 1)
  {
    hide Score, Matched, Hit, IsSqrt;
    if Matched(users[i], job.loaded[j], job.config, job.sqrt) {
      IndexedHit(users, job, i, j);
    }
  }

  lemma HitWitness(users: seq<UserProfile>, job: Job, k: Pair) returns (u: UserProfile, e: EventProfile)
    requires job.config.stringMax != 0.0 && Hit(users, job, k)
    ensures IsHit(users, job, k, u, e)
  {
    u, e :| IsHit(users, job, k, u, e);
  }

  lemma AllStamped(before: Matches, now: Matches, users: seq<UserProfile>, job: Job, runAt: int)
    requires job.config.stringMax != 0.0 && StampedUpTo(before, now, users, job, runAt, |users|, 0)
    ensures Stamped(before, now, users, job, runAt)
  {
    hide Score, Matched, Hit;
    forall k | Hit(users, job, k)
      ensures k in now && now[k].computedAt == runAt && Fresh(users, job, k, now[k].score)
    {
      var u, e := HitWitness(users, job, k);
      var a :| 0 <= a < |users| && users[a] == u;
      var b :| 0 <= b < |job.loaded| && job.loaded[b] == e;
    }
  }

  /** MatchStep.Run after loading. `events` is the events table when obsolete
      matches are deleted, at instant `now`. */
  method Run(t: MatchTable, users: seq<UserProfile>, job: Job, runAt: int, events: map<nat, EventRow>, now: int)
    requires job.Valid() && DistinctUsers(users)
    modifies t
    ensures RunEffect(old(t.rows), t.rows, users, job, runAt, events, now)
  {
    hide Score, Hit, IsSqrt, StampedUpTo, Pruned, Current;
    ghost var before := t.rows;
    NothingStamped(before, users, job, runAt);
    for i := 0 to |users|
      invariant StampedUpTo(before, t.rows, users, job, runAt, i, 0)
    {
      for j := 0 to |job.loaded|
        invariant StampedUpTo(before, t.rows, users, job, runAt, i, j)
      {
        StampOne(before, t.rows, users, job, runAt, i, j);
        var score := ComputeScore(users[i], job.loaded[j], job.config, job.sqrt);
        var threshold := job.config.scoreThreshold;
        if users[i].threshold.Some? {
          threshold := users[i].threshold.value;
        }
        if score.totalScore <= threshold {
          continue;
        }
        t.UpsertUserEventMatch(users[i].user, job.loaded[j].event, score, runAt);
      }
      NextUser(before, t.rows, users, job, runAt, i);
    }
    AllStamped(before, t.rows, users, job, runAt);
    ghost var stamped := t.rows;
    if |users| > 0 {
      t.DeleteStaleMatchesForUsers(UserIds(users), runAt);
    }
    t.DeleteObsoleteMatches(events, now);
  }

  lemma NothingStamped(before: Matches, users: seq<UserProfile>, job: Job, runAt: int)
    requires job.config.stringMax != 0.0
    ensures StampedUpTo(before, before, users, job, runAt, 0, 0)
  {
  }

  lemma NextUser(before: Matches, now: Matches, users: seq<UserProfile>, job: Job, runAt: int, i: nat)
    requires job.config.stringMax != 0.0 && i < |users| && StampedUpTo(before, now, users, job, runAt, i, |job.loaded|)
    ensures StampedUpTo(before, now, users, job, runAt, i + 1, 0)
  {
  }

  // ---------------------------------------------------------------------
  // What a run leaves, as a plain description
  // ---------------------------------------------------------------------

  ghost predicate OlderThan(rows: Matches, runAt: int) {
    forall k :: k in rows ==> rows[k].computedAt < runAt
  }

  /** The run, specified: a processed user's row is there exactly for the pairs
      above that user's threshold whose event is still upcoming, with the fresh
      score and stamp; any other user's row is there exactly if it was there and
      its event is not obsolete, unchanged. */
  ghost predicate Outcome(before: Matches, after: Matches, users: seq<UserProfile>, job: Job, runAt: int,
                          events: map<nat, EventRow>, now: int)
    requires job.config.stringMax != 0.0
  {
    && (forall k :: k in after <==> Belongs(before, users, job, events, now, k))
    && (forall k :: k in after && k.0 in UserIds(users) ==>
        after[k].computedAt == runAt
        && Fresh(users, job, k, after[k].score))
    && (forall k :: k in after && k.0 !in UserIds(users) ==> after[k] == before[k])
  }

  ghost predicate Belongs(before: Matches, users: seq<UserProfile>, job: Job, events: map<nat, EventRow>, now: int,
                          k: Pair)
    requires job.config.stringMax != 0.0
  {
    && !Obsolete(events, now, k.1)
    && if k.0 in UserIds(users) then Hit(users, job, k) else k in before
  }

  lemma HitIsProcessed(users: seq<UserProfile>, job: Job, k: Pair)
    requires job.config.stringMax != 0.0 && Hit(users, job, k)
    ensures k.0 in UserIds(users)
  {
    var u, e :| IsHit(users, job, k, u, e);
  }

  lemma SameUser(users: seq<UserProfile>, u: UserProfile, v: UserProfile)
    requires DistinctUsers(users) && u in users && v in users && u.user == v.user
    ensures u == v
  {
  }

  lemma SameEvent(events: seq<EventProfile>, e: EventProfile, f: EventProfile)
    requires DistinctEvents(events) && e in events && f in events && e.event == f.event
    ensures e == f
  {
  }

  /** There is one fresh score per pair. */
  lemma FreshIsUnique(us: seq<UserProfile>, vs: seq<UserProfile>, job: Job, k: Pair, a: MatchScore, b: MatchScore)
    requires job.Valid() && DistinctUsers(us) && (forall v :: v in vs ==> v in us) && Fresh(us, job, k, a)
             && Fresh(vs, job, k, b)
    ensures a == b
  {
    hide Score, Matched, IsSqrt;
    var u, e :| IsHit(us, job, k, u, e) && a == Score(u, e, job.config, job.sqrt);
    var v, f :| IsHit(vs, job, k, v, f) && b == Score(v, f, job.config, job.sqrt);
    SameUser(us, u, v);
    SameEvent(job.loaded, e, f);
  }

  /** Exactly the matching pairs survive, provided every older row carries an
      older stamp. */
  lemma RunLeavesExactlyTheMatches(before: Matches, after: Matches, users: seq<UserProfile>, job: Job, runAt: int,
                                   events: map<nat, EventRow>, now: int)
    requires job.Valid() && OlderThan(before, runAt)
    requires RunEffect(before, after, users, job, runAt, events, now)
    ensures Outcome(before, after, users, job, runAt, events, now)
  {
    hide Hit, Fresh, IsSqrt, Stamped, Pruned, UserIds, Obsolete, OlderThan;
    var stamped :| Stamped(before, stamped, users, job, runAt)
      && after == Current(if |users| > 0 then Pruned(stamped, UserIds(users), runAt) else stamped, events, now);
    forall k
      ensures k in after <==> Belongs(before, users, job, events, now, k)
      ensures k in after && k.0 in UserIds(users) ==>
              after[k].computedAt == runAt
              && Fresh(users, job, k, after[k].score)
      ensures k in after && k.0 !in UserIds(users) ==> after[k] == before[k]
    {
      WhoStays(before, stamped, users, job, runAt, k);
    }
  }

  lemma WhoStays(before: Matches, stamped: Matches, users: seq<UserProfile>, job: Job, runAt: int, k: Pair)
    requires job.Valid() && OlderThan(before, runAt) && Stamped(before, stamped, users, job, runAt)
    ensures var kept := if |users| > 0 then Pruned(stamped, UserIds(users), runAt) else stamped;
            && (k in kept <==> if k.0 in UserIds(users) then Hit(users, job, k) else k in before)
            && (k in kept ==> kept[k] == stamped[k])
            && (k in kept && k.0 in UserIds(users) ==>
                kept[k].computedAt == runAt
                && Fresh(users, job, k, kept[k].score))
            && (k in kept && k.0 !in UserIds(users) ==> kept[k] == before[k])
  {
    hide Fresh, IsSqrt, Hit;
    if Hit(users, job, k) {
      HitIsProcessed(users, job, k);
    }
  }

  /** Events that were upcoming when the run loaded them and are not obsolete
      when it ends are exactly the events still upcoming. */
  lemma StampedEventsAreUpcoming(job: Job, events: map<nat, EventRow>, loadedAt: int, now: int, e: nat)
    requires LoadedUpcoming(job.loaded, events, loadedAt) && loadedAt <= now
    ensures Upcoming(events, now, e) <==> (exists p :: p in job.loaded && p.event == e) && !Obsolete(events, now, e)
  {
    assert Upcoming(events, loadedAt, e) <==> exists p :: p in job.loaded && p.event == e;
  }

  /** After a run, a processed user is matched with an event exactly when it is
      upcoming and its score for that user is over the user's threshold. */
  lemma MatchedIffUpcomingAndOver(before: Matches, after: Matches, users: seq<UserProfile>, job: Job, runAt: int,
                                  events: map<nat, EventRow>, loadedAt: int, now: int, u: UserProfile, e: nat)
    requires job.Valid() && DistinctUsers(users) && u in users && OlderThan(before, runAt)
    requires LoadedUpcoming(job.loaded, events, loadedAt) && loadedAt <= now
    requires RunEffect(before, after, users, job, runAt, events, now)
    ensures var threshold := if u.threshold.Some? then u.threshold.value else job.config.scoreThreshold;
            (u.user, e) in after <==>
              && e in events && !events[e].archived && events[e].overAt > now
              && exists p :: p in job.loaded && p.event == e && Score(u, p, job.config, job.sqrt).totalScore > threshold
  {
    hide Score, Obsolete, RunEffect, OlderThan, LoadedUpcoming, IsSqrt;
    RunLeavesExactlyTheMatches(before, after, users, job, runAt, events, now);
    StampedEventsAreUpcoming(job, events, loadedAt, now, e);
    assert u.user in UserIds(users);
    HitOfUser(users, job, u, e);
    assert forall p :: p in job.loaded ==>
             (Matched(u, p, job.config, job.sqrt) <==>
              Score(u, p, job.config, job.sqrt).totalScore > if u.threshold.Some? then u.threshold.value
                  else job.config.scoreThreshold);
  }

  lemma HitOfUser(users: seq<UserProfile>, job: Job, u: UserProfile, e: nat)
    requires job.config.stringMax != 0.0 && DistinctUsers(users) && u in users
    ensures Hit(users, job, (u.user, e)) <==> exists p ::
            p in job.loaded && p.event == e
            && Matched(u, p, job.config, job.sqrt)
  {
    hide Matched;
    var k := (u.user, e);
    if Hit(users, job, k) {
      var v, p := HitWitness(users, job, k);
      SameUser(users, u, v);
    }
    if p :| p in job.loaded && p.event == e && Matched(u, p, job.config, job.sqrt) {
      assert IsHit(users, job, k, u, p);
    }
  }

  // ---------------------------------------------------------------------
  // All users at once, or one at a time
  // ---------------------------------------------------------------------

  /** The rows without their stamps. */
  function Scores(rows: Matches): map<Pair, MatchScore> {
    map k | k in rows :: rows[k].score
  }

  /** rows[0] is the table at the start, rows[i + 1] after a run for user i
      alone; later runs carry later stamps. */
  ghost predicate OneByOne(rows: seq<Matches>, stamps: seq<int>, users: seq<UserProfile>, job: Job,
                           events: map<nat, EventRow>, now: int)
    requires job.config.stringMax != 0.0
  {
    && |rows| == |users| + 1 && |stamps| == |users|
    && (forall i :: 0 <= i < |users| ==>
        OlderThan(rows[i], stamps[i])
        && RunEffect(rows[i], rows[i + 1], [users[i]], job, stamps[i], events, now))
  }

  ghost predicate ScoresAre(before: Matches, after: Matches, users: seq<UserProfile>, job: Job,
                            events: map<nat, EventRow>, now: int)
    requires job.config.stringMax != 0.0
  {
    && (forall k :: k in after <==> Belongs(before, users, job, events, now, k))
    && (forall k :: k in after && k.0 in UserIds(users) ==> Fresh(users, job, k, after[k].score))
    && (forall k :: k in after && k.0 !in UserIds(users) ==> after[k].score == before[k].score)
  }

  lemma UserIdsSnoc(users: seq<UserProfile>, u: UserProfile)
    ensures UserIds(users + [u]) == UserIds(users) + {u.user} && UserIds([u]) == {u.user}
    ensures DistinctUsers(users + [u]) ==> u.user !in UserIds(users)
  {
    var all := users + [u];
    assert forall v :: v in all <==> v in users || v == u;
    assert all[|users|] == u && forall i :: 0 <= i < |users| ==> all[i] == users[i];
  }

  lemma OneMoreUser(before: Matches, mid: Matches, after: Matches, users: seq<UserProfile>, u: UserProfile, job: Job,
                    stamp: int,
                    events: map<nat, EventRow>, now: int)
    requires job.Valid() && DistinctUsers(users + [u]) && ScoresAre(before, mid, users, job, events, now)
    requires Outcome(mid, after, [u], job, stamp, events, now)
    ensures ScoresAre(before, after, users + [u], job, events, now)
  {
    hide Hit, Fresh, IsSqrt, DistinctUsers;
    UserIdsSnoc(users, u);
    var all := users + [u];
    forall k
      ensures k in after <==> Belongs(before, all, job, events, now, k)
      ensures k in after && k.0 in UserIds(all) ==> Fresh(all, job, k, after[k].score)
      ensures k in after && k.0 !in UserIds(all) ==> after[k].score == before[k].score
    {
      HitsJoin(users, u, job, k);
      if Hit(users, job, k) { HitIsProcessed(users, job, k); }
      if Hit([u], job, k) { HitIsProcessed([u], job, k); }
      if k in after {
        FreshJoins(users, u, job, k, after[k].score);
      }
    }
  }

  lemma FreshJoins(users: seq<UserProfile>, u: UserProfile, job: Job, k: Pair, score: MatchScore)
    requires job.config.stringMax != 0.0
    ensures Fresh(users, job, k, score) || Fresh([u], job, k, score) ==> Fresh(users + [u], job, k, score)
  {
    hide Score, Matched;
    var all := users + [u];
    assert forall v :: v in all <==> v in users || v == u;
    if Fresh(users, job, k, score) {
      var v, e :| IsHit(users, job, k, v, e) && score == Score(v, e, job.config, job.sqrt);
      assert IsHit(all, job, k, v, e);
    } else if Fresh([u], job, k, score) {
      var v, e :| IsHit([u], job, k, v, e) && score == Score(v, e, job.config, job.sqrt);
      assert IsHit(all, job, k, v, e);
    }
  }

  lemma HitsJoin(users: seq<UserProfile>, u: UserProfile, job: Job, k: Pair)
    requires job.config.stringMax != 0.0
    ensures Hit(users + [u], job, k) <==> Hit(users, job, k) || Hit([u], job, k)
  {
    hide Score, Matched;
    var all := users + [u];
    assert forall v :: v in all <==> v in users || v == u;
    if Hit(all, job, k) {
      var v, e :| IsHit(all, job, k, v, e);
      assert IsHit(users, job, k, v, e) || IsHit([u], job, k, v, e);
    }
    if Hit(users, job, k) {
      var v, e :| IsHit(users, job, k, v, e);
      assert IsHit(all, job, k, v, e);
    }
    if Hit([u], job, k) {
      var v, e :| IsHit([u], job, k, v, e);
      assert IsHit(all, job, k, v, e);
    }
  }

  lemma {:induction false} OneByOneScores(rows: seq<Matches>, stamps: seq<int>, users: seq<UserProfile>, job: Job,
                                          events: map<nat, EventRow>, now: int)
    requires job.Valid() && DistinctUsers(users) && |users| > 0 && OneByOne(rows, stamps, users, job, events, now)
    ensures ScoresAre(rows[0], rows[|users|], users, job, events, now)
    decreases |users|
  {
    hide Score, Matched, IsSqrt, RunEffect, Belongs, Fresh;
    var n := |users| - 1;
    RunLeavesExactlyTheMatches(rows[n], rows[n + 1], [users[n]], job, stamps[n], events, now);
    if n == 0 {
      assert users == [users[0]];
    } else {
      OneByOneScores(rows[..n + 1], stamps[..n], users[..n], job, events, now);
      assert users == users[..n] + [users[n]];
      OneMoreUser(rows[0], rows[n], rows[n + 1], users[..n], users[n], job, stamps[n], events, now);
    }
  }

  lemma ScoresDetermined(before: Matches, a: Matches, b: Matches, us: seq<UserProfile>, vs: seq<UserProfile>,
                         job: Job, events: map<nat, EventRow>, now: int)
    requires job.Valid() && DistinctUsers(us) && (forall u :: u in us <==> u in vs)
    requires ScoresAre(before, a, us, job, events, now) && ScoresAre(before, b, vs, job, events, now)
    ensures Scores(a) == Scores(b)
  {
    hide Hit, Fresh, IsSqrt, DistinctUsers;
    assert UserIds(us) == UserIds(vs);
    forall k
      ensures k in a <==> k in b
      ensures k in a ==> a[k].score == b[k].score
    {
      if Hit(us, job, k) { SameHits(us, vs, job, k); }
      if Hit(vs, job, k) { SameHits(vs, us, job, k); }
      assert k in a <==> k in b;
      if k in a && k.0 in UserIds(us) {
        FreshIsUnique(us, vs, job, k, a[k].score, b[k].score);
      }
    }
  }

  lemma SameHits(us: seq<UserProfile>, vs: seq<UserProfile>, job: Job, k: Pair)
    requires job.config.stringMax != 0.0 && (forall u :: u in us ==> u in vs) && Hit(us, job, k)
    ensures Hit(vs, job, k)
  {
    hide Score, Matched;
    var u, e :| IsHit(us, job, k, u, e);
    assert IsHit(vs, job, k, u, e);
  }

  /** One run over all users leaves the same matches and scores as a run for
      each user alone, in any order; only the stamps differ. */
  lemma BatchEqualsOneByOne(before: Matches, batch: Matches, runAt: int, users: seq<UserProfile>,
                            rows: seq<Matches>, stamps: seq<int>, order: seq<UserProfile>,
                            job: Job, events: map<nat, EventRow>, now: int)
    requires job.Valid() && DistinctUsers(users) && DistinctUsers(order) && |users| > 0 && |order| > 0
    requires forall u :: u in users <==> u in order
    requires OlderThan(before, runAt) && RunEffect(before, batch, users, job, runAt, events, now)
    requires OneByOne(rows, stamps, order, job, events, now) && rows[0] == before
    ensures Scores(batch) == Scores(rows[|order|])
  {
    hide Score, Matched, IsSqrt, RunEffect, Belongs;
    RunLeavesExactlyTheMatches(before, batch, users, job, runAt, events, now);
    OneByOneScores(rows, stamps, order, job, events, now);
    ScoresDetermined(before, batch, rows[|order|], users, order, job, events, now);
  }
}
