/** The two message handlers of internal/ingest. Each handler is a method that
    issues statements in the source's order and stops at the first that fails.
    It is proved twice over: against the plan of the message, of which it runs a
    prefix, and against what the tables hold once it succeeds. */
module IngestHandlers {
  import opened Common
  import opened IngestStore
  import opened IngestPlans
  import opened IngestRows

  method ApplyEnrichment(db: Database, env: Env, e: Option<Enrichment>) returns (ok: bool, artist: Option<string>)
    modifies db
    ensures Ran(old(db.rows), old(db.budget), EnrichmentPlan(env, e), db.rows, db.budget, ok)
    ensures ok ==> artist == HeadlineKey(env, e)
  {
    hide Ran, ApplyAll;
    ghost var r0, b0 := db.rows, db.budget;
    if e.None? || e.value.artist.None? {
      RanNothing(r0, b0);
      return true, None;
    }
    var a := e.value.artist.value;
    if a.status != "ok" && a.status != "not_found" {
      RanNothing(r0, b0);
      return true, None;
    }
    var key := env.normalize(a.performer);
    ghost var p1 := [UpsertArtist(key, ArtistRecord(a))];
    ghost var rest3 := TourWrites(env, key, e.value.tour);
    ghost var rest2 := BioWrites(key, e.value.bio) + rest3;
    ghost var rest1 := ImageWrites(key, e.value.image) + rest2;
    ok := db.ExecArtist(key, ArtistRecord(a));
    if !ok { RanShort(r0, b0, p1, db.rows, db.budget, p1 + rest1); return false, None; }
    ghost var r1, b1 := db.rows, db.budget;

    ok := WriteImage(db, key, e.value.image);
    RanThen(r0, b0, p1, r1, b1, ImageWrites(key, e.value.image), db.rows, db.budget, ok);
    ghost var p2 := p1 + ImageWrites(key, e.value.image);
    assert p2 + rest2 == EnrichmentPlan(env, e);
    if !ok { RanShort(r0, b0, p2, db.rows, db.budget, p2 + rest2); return false, None; }
    ghost var r2, b2 := db.rows, db.budget;

    ok := WriteBio(db, key, e.value.bio);
    RanThen(r0, b0, p2, r2, b2, BioWrites(key, e.value.bio), db.rows, db.budget, ok);
    ghost var p3 := p2 + BioWrites(key, e.value.bio);
    assert p3 + rest3 == EnrichmentPlan(env, e);
    if !ok { RanShort(r0, b0, p3, db.rows, db.budget, p3 + rest3); return false, None; }
    ghost var r3, b3 := db.rows, db.budget;

    ok := WriteTour(db, env, key, e.value.tour);
    RanThen(r0, b0, p3, r3, b3, rest3, db.rows, db.budget, ok);
    return ok, Some(key);
  }

  lemma RanWhole(r0: Tables, b0: nat, plan: seq<Write>, r1: Tables, b1: int)
    requires Ran(r0, b0, plan, r1, b1, true)
    ensures r1 == ApplyAll(r0, plan)
  {
    assert plan[..|plan|] == plan;
  }

  lemma RanNothing(r: Tables, b: nat)
    ensures Ran(r, b, [], r, b, true)
  {
  }

  method WriteImage(db: Database, key: string, image: Option<ImageInfo>) returns (ok: bool)
    modifies db
    ensures Ran(old(db.rows), old(db.budget), ImageWrites(key, image), db.rows, db.budget, ok)
  {
    if image.Some? && ValidStatus(image.value.status) {
      var i := image.value;
      var payload := ImagePayload(OptString(i.url), OptInt32(i.width), OptInt32(i.height), OptString(i.file),
                                  OptString(i.source), i.credit);
      ok := db.ExecSection(Image, key, i.status, payload, OptString(i.reason));
      return;
    }
    return true;
  }

  method WriteBio(db: Database, key: string, bio: Option<BioInfo>) returns (ok: bool)
    modifies db
    ensures Ran(old(db.rows), old(db.budget), BioWrites(key, bio), db.rows, db.budget, ok)
  {
    if bio.Some? && ValidStatus(bio.value.status) {
      var b := bio.value;
      var sources := "[]";
      if b.sources.Some? { sources := b.sources.value; }
      ok := db.ExecSection(Bio, key, b.status, BioPayload(OptString(b.bioMd), sources, OptString(b.model)),
                           OptString(b.reason));
      return;
    }
    return true;
  }

  /** A date that does not parse skips the section, not the message. */
  method WriteTour(db: Database, env: Env, key: string, tour: Option<TourInfo>) returns (ok: bool)
    modifies db
    ensures Ran(old(db.rows), old(db.budget), TourWrites(env, key, tour), db.rows, db.budget, ok)
  {
    if tour.Some? && ValidStatus(tour.value.status) {
      var t := tour.value;
      var observed := ObservedDate(env, t.observedDate);
      if observed.Some? {
        var songs := "[]";
        if t.songs.Some? { songs := t.songs.value; }
        var payload := TourPayload(OptString(t.tourName), songs, observed.value, OptString(t.observedVenue),
                                   OptString(t.observedCity),
                                   OptString(t.setlistUrl), OptString(t.blurb), OptString(t.blurbModel));
        ok := db.ExecSection(Tour, key, t.status, payload, OptString(t.reason));
        return;
      }
    }
    return true;
  }

  lemma {:induction false} PerformerPlanPrefix(env: Env, src: string, id: string, ps: seq<string>, i: nat)
    requires i <= |ps|
    ensures PerformerPlan(env, src, id, ps[..i]) <= PerformerPlan(env, src, id, ps)
    decreases |ps|
  {
    if i < |ps| {
      PerformerPlanPrefix(env, src, id, ps[..|ps| - 1], i);
      assert ps[..|ps| - 1][..i] == ps[..i];
    } else {
      assert ps[..i] == ps;
    }
  }

  lemma {:induction false} GenrePlanPrefix(env: Env, src: string, id: string, gs: seq<string>, i: nat)
    requires i <= |gs|
    ensures GenrePlan(env, src, id, gs[..i]) <= GenrePlan(env, src, id, gs)
    decreases |gs|
  {
    if i < |gs| {
      GenrePlanPrefix(env, src, id, gs[..|gs| - 1], i);
      assert gs[..|gs| - 1][..i] == gs[..i];
    } else {
      assert gs[..i] == gs;
    }
  }

  lemma {:induction false} InsertsPlanPrefix(env: Env, user: string, kind: string, items: seq<Ranked>, i: nat)
    requires i <= |items|
    ensures InsertsPlan(env, user, kind, items[..i]) <= InsertsPlan(env, user, kind, items)
    decreases |items|
  {
    if i < |items| {
      InsertsPlanPrefix(env, user, kind, items[..|items| - 1], i);
      assert items[..|items| - 1][..i] == items[..i];
    } else {
      assert items[..i] == items;
    }
  }

  method ReplacePerformers(db: Database, env: Env, src: string, id: string, ps: seq<string>) returns (ok: bool)
    modifies db
    ensures Ran(old(db.rows), old(db.budget), [DeletePerformers(src, id)] + PerformerPlan(env, src, id, ps), db.rows,
                db.budget, ok)
  {
    hide Ran, ApplyAll;
    ghost var r0, b0, del := db.rows, db.budget, [DeletePerformers(src, id)];
    ghost var plan := del + PerformerPlan(env, src, id, ps);
    ok := db.ExecDeletePerformers(src, id);
    if !ok { RanShort(r0, b0, del, db.rows, db.budget, plan); return; }
    assert del + PerformerPlan(env, src, id, ps[..0]) == del;
    var i := 0;
    while i < |ps|
      invariant 0 <= i <= |ps|
      invariant Ran(r0, b0, del + PerformerPlan(env, src, id, ps[..i]), db.rows, db.budget, true)
    {
      ghost var done := PerformerPlan(env, src, id, ps[..i]);
      ghost var next := PerformerWrites(env, src, id, ps[i]);
      assert ps[..i + 1][..i] == ps[..i];
      assert PerformerPlan(env, src, id, ps[..i + 1]) == done + next;
      assert del + (done + next) == del + done + next;
      if ps[i] == "" {
        assert del + done + next == del + done;
        i := i + 1;
        continue;
      }
      ghost var r1, b1 := db.rows, db.budget;
      ok := db.ExecPerformer(src, id, ps[i], env.normalize(ps[i]));
      RanThen(r0, b0, del + done, r1, b1, next, db.rows, db.budget, ok);
      if !ok {
        PerformerPlanPrefix(env, src, id, ps, i + 1);
        RanShort(r0, b0, del + done + next, db.rows, db.budget, plan);
        return;
      }
      i := i + 1;
    }
    assert ps[..i] == ps;
    return true;
  }

  method ReplaceGenres(db: Database, env: Env, src: string, id: string, gs: seq<string>) returns (ok: bool)
    modifies db
    ensures Ran(old(db.rows), old(db.budget), [DeleteGenres(src, id)] + GenrePlan(env, src, id, gs), db.rows,
                db.budget, ok)
  {
    hide Ran, ApplyAll;
    ghost var r0, b0, del := db.rows, db.budget, [DeleteGenres(src, id)];
    ghost var plan := del + GenrePlan(env, src, id, gs);
    ok := db.ExecDeleteGenres(src, id);
    if !ok { RanShort(r0, b0, del, db.rows, db.budget, plan); return; }
    assert del + GenrePlan(env, src, id, gs[..0]) == del;
    var i := 0;
    while i < |gs|
      invariant 0 <= i <= |gs|
      invariant Ran(r0, b0, del + GenrePlan(env, src, id, gs[..i]), db.rows, db.budget, true)
    {
      ghost var done := GenrePlan(env, src, id, gs[..i]);
      ghost var next := GenreWrites(env, src, id, gs[i]);
      assert gs[..i + 1][..i] == gs[..i];
      assert GenrePlan(env, src, id, gs[..i + 1]) == done + next;
      assert del + (done + next) == del + done + next;
      var slug := env.normalizeGenre(gs[i]);
      if slug == "" {
        slug := gs[i];
      }
      if slug !in env.genres {
        assert del + done + next == del + done;
        i := i + 1;
        continue;
      }
      ghost var r1, b1 := db.rows, db.budget;
      ok := db.ExecGenre(src, id, slug);
      RanThen(r0, b0, del + done, r1, b1, next, db.rows, db.budget, ok);
      if !ok {
        GenrePlanPrefix(env, src, id, gs, i + 1);
        RanShort(r0, b0, del + done + next, db.rows, db.budget, plan);
        return;
      }
      i := i + 1;
    }
    assert gs[..i] == gs;
    return true;
  }

  /** handleMessage: artist and sections, venue, event, performers, genres. */
  method HandleMessage(db: Database, env: Env, m: Message) returns (ok: bool)
    modifies db
    ensures m.sourceId in env.sources ==> Ran(old(db.rows), old(db.budget), MessagePlan(env, m), db.rows, db.budget, ok)
    ensures m.sourceId !in env.sources ==> !ok && db.rows == old(db.rows) && db.budget == old(db.budget)
    ensures ok ==> MessageStored(env, m, old(db.rows), db.rows)
  {
    hide Ran, ApplyAll, EnrichmentPlan, PerformerPlan, GenrePlan, ArtistRecord, MessageStored;
    if m.sourceId !in env.sources {
      return false;
    }
    ghost var r0, b0, plan := db.rows, db.budget, MessagePlan(env, m);
    ghost var p1 := EnrichmentPlan(env, m.enrichment);
    var artist;
    ok, artist := ApplyEnrichment(db, env, m.enrichment);
    if !ok { RanShort(r0, b0, p1, db.rows, db.budget, plan); return; }
    ghost var r1, b1 := db.rows, db.budget;

    var normalizedVenue := env.normalize(m.venue.name);
    ok := db.ExecVenue(env.city, normalizedVenue, Venue(m.venue.name, OptString(m.venue.address), m.venue.lat,
                                                        m.venue.lng, OptString(m.venue.websiteUrl)));
    RanThen(r0, b0, p1, r1, b1, [VenueWrite(env, m.venue)], db.rows, db.budget, ok);
    ghost var p2 := p1 + [VenueWrite(env, m.venue)];
    assert plan == p2 + ([EventWrite(env, m)] + AssociationPlan(env, m));
    if !ok { RanShort(r0, b0, p2, db.rows, db.budget, plan); return; }
    ghost var r2, b2 := db.rows, db.budget;

    ok := db.ExecEvent(m.sourceId, m.sourceEventId,
                       EventFields(m.title, m.description, m.startsAt, m.endsAt, m.timeTbd,
                                   VenueKey(env.city, normalizedVenue),
                                   OptString(m.imageUrl), OptString(m.url)),
                       artist, OptString(m.segment));
    RanThen(r0, b0, p2, r2, b2, [EventWrite(env, m)], db.rows, db.budget, ok);
    ghost var p3 := p2 + [EventWrite(env, m)];
    assert plan == p3 + AssociationPlan(env, m);
    if !ok { RanShort(r0, b0, p3, db.rows, db.budget, plan); return; }
    ghost var r3, b3 := db.rows, db.budget;

    ghost var q4 := [DeletePerformers(m.sourceId, m.sourceEventId)] + PerformerPlan(env, m.sourceId, m.sourceEventId,
          m.performers);
    ghost var q5 := [DeleteGenres(m.sourceId, m.sourceEventId)] + GenrePlan(env, m.sourceId, m.sourceEventId, m.genres);
    ok := ReplacePerformers(db, env, m.sourceId, m.sourceEventId, m.performers);
    RanThen(r0, b0, p3, r3, b3, q4, db.rows, db.budget, ok);
    ghost var p4 := p3 + q4;
    assert plan == p4 + q5;
    if !ok { RanShort(r0, b0, p4, db.rows, db.budget, plan); return; }
    ghost var r4, b4 := db.rows, db.budget;

    ok := ReplaceGenres(db, env, m.sourceId, m.sourceEventId, m.genres);
    RanThen(r0, b0, p4, r4, b4, q5, db.rows, db.budget, ok);
    if ok {
      RanWhole(r0, b0, plan, db.rows, db.budget);
      PlanStoresMessage(env, m, r0, db.rows);
    }
  }

  method ReplaceKind(db: Database, env: Env, user: string, kind: string, items: seq<Ranked>) returns (ok: bool)
    modifies db
    ensures Ran(old(db.rows), old(db.budget), KindPlan(env, user, kind, items), db.rows, db.budget, ok)
  {
    hide Ran, ApplyAll;
    ghost var r0, b0, del, plan := db.rows, db.budget, [DeleteInterests(user, kind)], KindPlan(env, user, kind, items);
    ok := db.ExecDeleteInterests(user, kind);
    if !ok { RanShort(r0, b0, del, db.rows, db.budget, plan); return; }
    assert del + InsertsPlan(env, user, kind, items[..0]) == del;
    var i := 0;
    while i < |items|
      invariant 0 <= i <= |items|
      invariant Ran(r0, b0, del + InsertsPlan(env, user, kind, items[..i]), db.rows, db.budget, true)
    {
      ghost var done := InsertsPlan(env, user, kind, items[..i]);
      ghost var next := [InterestWrite(env, user, kind, items[i])];
      assert items[..i + 1][..i] == items[..i];
      assert InsertsPlan(env, user, kind, items[..i + 1]) == done + next;
      assert del + (done + next) == del + done + next;
      ghost var r1, b1 := db.rows, db.budget;
      ok := db.ExecInterest(user, kind, items[i].name, env.normalize(items[i].name), KindWeight(kind, items[i].rank));
      RanThen(r0, b0, del + done, r1, b1, next, db.rows, db.budget, ok);
      if !ok {
        InsertsPlanPrefix(env, user, kind, items, i + 1);
        RanShort(r0, b0, del + done + next, db.rows, db.budget, plan);
        return;
      }
      i := i + 1;
    }
    assert items[..i] == items;
    return true;
  }

  method ReplaceInterests(db: Database, env: Env, user: string, im: InterestMessage) returns (ok: bool)
    requires !im.onlyEmbed
    modifies db
    ensures Ran(old(db.rows), old(db.budget), InterestPlan(env, user, im), db.rows, db.budget, ok)
    ensures ok ==> AllInterestsStored(env, user, im, old(db.rows), db.rows)
  {
    hide Ran, ApplyAll, KindPlan, InsertsPlan, AllInterestsStored;
    ghost var r0, b0, plan := db.rows, db.budget, InterestPlan(env, user, im);
    ghost var q1, q2 := KindPlan(env, user, "spotify_top_artist", im.topArtists),
        KindPlan(env, user, "spotify_top_track_artist", im.trackArtists);
    ghost var q3, q4 := KindPlan(env, user, "spotify_saved_song_artist", im.savedArtists),
        KindPlan(env, user, "spotify_top_genre", im.topGenres);
    assert plan == q1 + (q2 + (q3 + q4));
    ok := ReplaceKind(db, env, user, "spotify_top_artist", im.topArtists);
    if !ok { RanShort(r0, b0, q1, db.rows, db.budget, plan); return; }
    ghost var r1, b1 := db.rows, db.budget;
    ok := ReplaceKind(db, env, user, "spotify_top_track_artist", im.trackArtists);
    RanThen(r0, b0, q1, r1, b1, q2, db.rows, db.budget, ok);
    assert plan == q1 + q2 + (q3 + q4);
    if !ok { RanShort(r0, b0, q1 + q2, db.rows, db.budget, plan); return; }
    ghost var r2, b2 := db.rows, db.budget;
    ok := ReplaceKind(db, env, user, "spotify_saved_song_artist", im.savedArtists);
    RanThen(r0, b0, q1 + q2, r2, b2, q3, db.rows, db.budget, ok);
    assert plan == q1 + q2 + q3 + q4;
    if !ok { RanShort(r0, b0, q1 + q2 + q3, db.rows, db.budget, plan); return; }
    ghost var r3, b3 := db.rows, db.budget;
    ok := ReplaceKind(db, env, user, "spotify_top_genre", im.topGenres);
    RanThen(r0, b0, q1 + q2 + q3, r3, b3, q4, db.rows, db.budget, ok);
    assert q1 + q2 + q3 + q4 == plan;
    if ok {
      RanWhole(r0, b0, plan, db.rows, db.budget);
      PlanStoresInterests(env, user, im, r0, db.rows);
    }
  }

  /** Handle, for either queue. A malformed body reports success so that the
      consumer deletes it. Re-embedding after an interest replacement writes
      none of these tables. */
  method Handle(db: Database, env: Env, body: Body) returns (ok: bool)
    modifies db
    ensures Handleable(env, body) ==> Ran(old(db.rows), old(db.budget), BodyPlan(env, body), db.rows, db.budget, ok)
    ensures !Handleable(env, body) ==> !ok && db.rows == old(db.rows)
    ensures ok ==> BodyStored(env, body, old(db.rows), db.rows)
  {
    hide Ran, ApplyAll, MessagePlan, MessageStored, AllInterestsStored;
    match body {
      case Malformed =>
        RanNothing(db.rows, db.budget);
        ok := true;
      case Interests(user, im) =>
        if im.onlyEmbed {
          RanNothing(db.rows, db.budget);
          ok := true;
        } else {
          ok := ReplaceInterests(db, env, user, im);
        }
      case _ =>
        ok := HandleMessage(db, env, Degraded(body));
    }
  }
}
