/** Poster jobs: the three statements on poster_jobs, the request handler that
    claims a job, and the goroutine that generates the poster and writes the
    outcome. Instants and durations are whole milliseconds. */
module PosterJobs {
  import opened Common

  const STALE_PENDING_AFTER := 360_000
  const DEFAULT_GENERATE_TIMEOUT := 360_000
  const POSTER_DB_TIMEOUT := 5_000
  const CLAIM_TIMEOUT := 5_000
  const HTTP_TIMEOUT := 310_000

  const MAX_PERFORMER := 200
  const MAX_VENUE := 200
  const MAX_DATE := 100

  datatype Status = Pending | Ready | Failed

  datatype Job = Job(user: string, performer: string, venue: string, date: string, status: Status,
                     pngKey: Option<string>, artist: Option<string>, credit: Option<string>,
                     failureStage: Option<string>, failureReason: Option<string>, updatedAt: int)

  datatype ClaimParams = ClaimParams(id: string, performer: string, venue: string, date: string, user: string,
                                     staleBefore: int, force: bool)

  type Jobs = map<string, Job>

  /** The WHERE clause of the conflict branch, or no row at all. */
  predicate Claimable(jobs: Jobs, p: ClaimParams) {
    p.id in jobs ==>
      var job := jobs[p.id];
      && job.user == p.user
      && match job.status
         case Failed => true
         case Pending => job.updatedAt < p.staleBefore
         case Ready => p.force
  }

  function Claimed(jobs: Jobs, p: ClaimParams, now: int): Jobs {
    if !Claimable(jobs, p) then jobs
    else if p.id in jobs then
      jobs[p.id := jobs[p.id].(status := Pending, pngKey := None, artist := None, credit := None,
                               failureStage := None, failureReason := None, updatedAt := now)]
    else
      jobs[p.id := Job(p.user, p.performer, p.venue, p.date, Pending, None, None, None, None, None, now)]
  }

  /** The status writes match on the id alone: no fencing token. */
  datatype Outcome =
    | MarkReady(pngKey: string, artist: Option<string>, credit: Option<string>)
    | MarkFailed(stage: string, reason: string)

  function Marked(jobs: Jobs, id: string, o: Outcome, now: int): Jobs {
    if id !in jobs then jobs
    else match o
      case MarkReady(key, artist, credit) =>
        jobs[id := jobs[id].(status := Ready, pngKey := Some(key), artist := artist, credit := credit,
                             failureStage := None, failureReason := None, updatedAt := now)]
      case MarkFailed(stage, reason) =>
        jobs[id := jobs[id].(status := Failed, failureStage := Some(stage), failureReason := Some(reason),
                             updatedAt := now)]
  }

  predicate HasPrefix(s: string, p: string) { p <= s }

  predicate HasSuffix(s: string, p: string) { |p| <= |s| && s[|s| - |p|..] == p }

  predicate Contains(s: string, p: string) {
    exists i :: 0 <= i <= |s| && HasPrefix(s[i..], p)
  }

  /** ValidateKey: what PresignGet will insist on when the poster is fetched. */
  predicate ValidKey(key: string) {
    HasPrefix(key, "posters/v") && !Contains(key, "..") && HasSuffix(key, ".png")
  }

  /** What Generate returned: an error, or a result whose failureStage is empty
      unless the Lambda reported a controlled failure. */
  datatype Generated =
    | CallError
    | Result(pngKey: string, artist: Option<string>, credit: Option<string>, failureStage: string,
             failureReason: string)

  class PosterTable {
    var jobs: Jobs

    constructor ()
      ensures jobs == map[]
    {
      jobs := map[];
    }

    /** Returns a row only to the caller that won. */
    method ClaimPosterJob(p: ClaimParams, now: int) returns (won: bool)
      modifies this
      ensures won == Claimable(old(jobs), p)
      ensures jobs == Claimed(old(jobs), p, now)
      ensures p.id !in old(jobs) ==>
                && won
                && jobs == old(jobs)[p.id := Job(p.user, p.performer, p.venue, p.date, Pending, None, None, None,
                                                 None, None, now)]
      ensures p.id in old(jobs) ==>
                var job := old(jobs)[p.id];
                && (won <==> job.user == p.user
                             && (job.status == Failed || (job.status == Pending && job.updatedAt < p.staleBefore)
                                 || (job.status == Ready && p.force)))
                && (won ==> jobs == old(jobs)[p.id := Job(job.user, job.performer, job.venue, job.date, Pending,
                                                          None, None, None, None, None, now)])
                && (!won ==> jobs == old(jobs))
    {
      if p.id !in jobs {
        jobs := jobs[p.id := Job(p.user, p.performer, p.venue, p.date, Pending, None, None, None, None, None, now)];
        return true;
      }
      var job := jobs[p.id];
      if job.user != p.user {
        return false;
      }
      if job.status == Failed || (job.status == Pending && job.updatedAt < p.staleBefore)
         || (job.status == Ready && p.force) {
        job := job.(status := Pending, updatedAt := now);
        job := job.(pngKey := None, artist := None, credit := None, failureStage := None, failureReason := None);
        jobs := jobs[p.id := job];
        return true;
      }
      return false;
    }

    method MarkPosterJobReady(id: string, pngKey: string, artist: Option<string>, credit: Option<string>, now: int)
      modifies this
      ensures jobs == Marked(old(jobs), id, MarkReady(pngKey, artist, credit), now)
      ensures jobs.Keys == old(jobs).Keys && forall k :: k in jobs && k != id ==> jobs[k] == old(jobs)[k]
      ensures id in jobs ==>
                var job := old(jobs)[id];
                jobs[id] == Job(job.user, job.performer, job.venue, job.date, Ready, Some(pngKey), artist, credit,
                                None, None, now)
    {
      if id in jobs {
        var job := jobs[id].(status := Ready, pngKey := Some(pngKey), artist := artist, credit := credit);
        jobs := jobs[id := job.(failureStage := None, failureReason := None, updatedAt := now)];
      }
    }

    method MarkPosterJobFailed(id: string, stage: string, reason: string, now: int)
      modifies this
      ensures jobs == Marked(old(jobs), id, MarkFailed(stage, reason), now)
      ensures jobs.Keys == old(jobs).Keys && forall k :: k in jobs && k != id ==> jobs[k] == old(jobs)[k]
      ensures id in jobs ==>
                var job := old(jobs)[id];
                jobs[id] == Job(job.user, job.performer, job.venue, job.date, Failed, job.pngKey, job.artist,
                                job.credit,
                                Some(stage), Some(reason), now)
    {
      if id in jobs {
        jobs := jobs[id := jobs[id].(status := Failed, failureStage := Some(stage), failureReason := Some(reason),
                                     updatedAt := now)];
      }
    }
  }

  datatype Fields = Fields(performer: string, venue: string, date: string)

  /** Trim, then require every field and bound it in characters. */
  function ValidateFields(trim: string -> string, f: Fields): (r: Result<Fields, string>)
    ensures r.Ok? <==>
            && trim(f.performer) != "" && trim(f.venue) != "" && trim(f.date) != ""
            && |trim(f.performer)| <= MAX_PERFORMER && |trim(f.venue)| <= MAX_VENUE && |trim(f.date)| <= MAX_DATE
    ensures r.Ok? ==> r.value == Fields(trim(f.performer), trim(f.venue), trim(f.date))
  {
    var g := Fields(trim(f.performer), trim(f.venue), trim(f.date));
    if g.performer == "" || g.venue == "" || g.date == "" then Err("performer, venue and date are required")
    else if |g.performer| > MAX_PERFORMER then Err("performer must be at most 200 characters")
    else if |g.venue| > MAX_VENUE then Err("venue must be at most 200 characters")
    else if |g.date| > MAX_DATE then Err("date must be at most 100 characters")
    else Ok(g)
  }

  /** The decoded body; None when it is not valid JSON or too large. */
  datatype PosterRequest = PosterRequest(fields: Fields, force: bool)

  /** How the claim statement fares: answered, refused before it took effect, or
      in effect with its answer lost. */
  datatype Claim = Answered | Refused | AnswerLost

  /** CreatePoster: `generate` says that this request now owns a generation. */
  method CreatePoster(t: PosterTable, trim: string -> string, jobId: (string, Fields) -> string,
                      user: Option<string>, body: Option<PosterRequest>, requestAt: int, now: int, claim: Claim)
    returns (status: int, generate: Option<string>)
    modifies t
    ensures status == if user.None? then 401
                      else if body.None? || ValidateFields(trim, body.value.fields).Err? then 400
                      else if claim != Answered then 500
                      else 202
    ensures status == 401 || status == 400 || claim == Refused ==> t.jobs == old(t.jobs)
    ensures status != 202 ==> generate == None
    ensures status == 202 || (status == 500 && claim == AnswerLost) ==>
              var f := ValidateFields(trim, body.value.fields).value;
              var id := jobId(user.value, f);
              var p := ClaimParams(id, f.performer, f.venue, f.date, user.value, requestAt - STALE_PENDING_AFTER,
                                   body.value.force);
              && t.jobs == Claimed(old(t.jobs), p, now)
              && (status == 202 ==> generate == if Claimable(old(t.jobs), p) then Some(id) else None)
  {
    if user.None? {
      return 401, None;
    }
    if body.None? {
      return 400, None;
    }
    var v := ValidateFields(trim, body.value.fields);
    if v.Err? {
      return 400, None;
    }
    if claim == Refused {
      return 500, None;
    }
    var f := v.value;
    var id := jobId(user.value, f);
    var p := ClaimParams(id, f.performer, f.venue, f.date, user.value, requestAt - STALE_PENDING_AFTER,
                         body.value.force);
    var won := t.ClaimPosterJob(p, now);
    if claim == AnswerLost {
      return 500, None;
    }
    return 202, if won then Some(id) else None;
  }

  /** The outcome startGeneration writes for what Generate returned. */
  function Verdict(g: Generated): Outcome {
    match g
    case CallError => MarkFailed("svg", "poster service unavailable")
    case Result(key, artist, credit, stage, reason) =>
      if stage != "" then MarkFailed(stage, reason)
      else if !ValidKey(key) then MarkFailed("svg", "poster service returned an unexpected artifact")
      else MarkReady(key, artist, credit)
  }

  /** Which keys count as an artifact, in characters. */
  lemma ValidKeyMeans(key: string)
    ensures ValidKey(key) <==>
            && "posters/v" <= key
            && (forall i :: 0 <= i < |key| - 1 ==> !(key[i] == '.' && key[i + 1] == '.'))
            && |key| >= 4 && key[|key| - 4..] == ".png"
  {
    forall i | 0 <= i <= |key|
      ensures HasPrefix(key[i..], "..") <==> i + 1 < |key| && key[i] == '.' && key[i + 1] == '.'
    {
      if i + 1 < |key| {
        assert key[i..][0] == key[i] && key[i..][1] == key[i + 1];
        assert key[i] == '.' && key[i + 1] == '.' ==> key[i..][..2] == "..";
      }
    }
    assert Contains(key, "..") <==> exists i :: 0 <= i <= |key| && HasPrefix(key[i..], "..");
    assert (exists i :: 0 <= i <= |key| && HasPrefix(key[i..], "..")) ==>
             exists i :: 0 <= i < |key| - 1 && key[i] == '.' && key[i + 1] == '.' by {
      if i :| 0 <= i <= |key| && HasPrefix(key[i..], "..") {
        assert 0 <= i < |key| - 1 && key[i] == '.' && key[i + 1] == '.';
      }
    }
    assert (exists i :: 0 <= i < |key| - 1 && key[i] == '.' && key[i + 1] == '.') ==>
             exists i :: 0 <= i <= |key| && HasPrefix(key[i..], "..") by {
      if i :| 0 <= i < |key| - 1 && key[i] == '.' && key[i + 1] == '.' {
        assert HasPrefix(key[i..], "..");
      }
    }
  }

  /** The row after the one status write, column by column. */
  predicate Landed(was: Job, g: Generated, at: int, row: Job) {
    && row.user == was.user && row.performer == was.performer && row.venue == was.venue && row.date == was.date
    && row.updatedAt == at
    && match g
       case CallError =>
         && row.status == Failed && row.failureStage == Some("svg")
         && row.failureReason == Some("poster service unavailable")
         && row.pngKey == was.pngKey && row.artist == was.artist && row.credit == was.credit
       case Result(key, artist, credit, stage, reason) =>
         if stage != "" then
           && row.status == Failed && row.failureStage == Some(stage) && row.failureReason == Some(reason)
           && row.pngKey == was.pngKey && row.artist == was.artist && row.credit == was.credit
         else if !ValidKey(key) then
           && row.status == Failed && row.failureStage == Some("svg")
           && row.failureReason == Some("poster service returned an unexpected artifact")
           && row.pngKey == was.pngKey && row.artist == was.artist && row.credit == was.credit
         else
           && row.status == Ready && row.pngKey == Some(key) && row.artist == artist && row.credit == credit
           && row.failureStage == None && row.failureReason == None
  }

  /** The tail of startGeneration. */
  method FinishGeneration(t: PosterTable, id: string, g: Generated, now: int)
    modifies t
    ensures t.jobs == Marked(old(t.jobs), id, Verdict(g), now)
    ensures t.jobs.Keys == old(t.jobs).Keys && forall k :: k in t.jobs && k != id ==> t.jobs[k] == old(t.jobs)[k]
    ensures id in t.jobs ==> Landed(old(t.jobs)[id], g, now, t.jobs[id])
  {
    match g {
      case CallError =>
        t.MarkPosterJobFailed(id, "svg", "poster service unavailable", now);
      case Result(key, artist, credit, stage, reason) =>
        if stage != "" {
          t.MarkPosterJobFailed(id, stage, reason, now);
          return;
        }
        if !ValidKey(key) {
          t.MarkPosterJobFailed(id, "svg", "poster service returned an unexpected artifact", now);
          return;
        }
        t.MarkPosterJobReady(id, key, artist, credit, now);
    }
  }
}
