/** What the tables hold once a message has been handled to the end, row by row
    and column by column, in terms of the message alone. */
module IngestRows {
  import opened Common
  import opened IngestStore
  import opened IngestPlans

  // ---------------------------------------------------------------------
  // Columns
  // ---------------------------------------------------------------------

  /** An empty text is stored as NULL. */
  predicate Sent(column: Option<string>, text: string) {
    if text == "" then column.None? else column == Some(text)
  }

  /** Zero is stored as NULL, anything else in 32 bits. */
  predicate SentInt(column: Option<int>, v: int) {
    if v == 0 then column.None?
    else column.Some? && -0x8000_0000 <= column.value < 0x8000_0000 && (column.value - v) % 0x1_0000_0000 == 0
  }

  /** A missing list is stored as the empty JSON array. */
  predicate SentJson(column: string, json: Option<string>) {
    column == match json { case None => "[]" case Some(text) => text }
  }

  lemma Texts(s: string)
    ensures Sent(OptString(s), s)
  {
  }

  lemma Ints(v: int)
    ensures SentInt(OptInt32(v), v)
  {
  }

  // ---------------------------------------------------------------------
  // Rows
  // ---------------------------------------------------------------------

  /** The artist was identified, or looked for and not found; only then does the
      enrichment block write anything. */
  predicate Identified(e: Option<Enrichment>) {
    e.Some? && e.value.artist.Some? && e.value.artist.value.status in {"ok", "not_found"}
  }

  predicate ArtistHolds(row: Artist, a: ArtistInfo) {
    && row.displayName == (if a.displayName != "" then a.displayName else a.performer)
    && Sent(row.mbid, a.mbid) && Sent(row.disambiguation, a.disambiguation) && Sent(row.artistType, a.kind)
    && Sent(row.country, a.country) && Sent(row.beginYear, a.beginYear) && row.status == a.status
  }

  ghost predicate ArtistStored(env: Env, e: Option<Enrichment>, rows: Tables) {
    Identified(e) ==>
      var a := e.value.artist.value;
      exists row :: Get(rows, ArtistKey(env.normalize(a.performer))) == Some(ArtistRow(row)) && ArtistHolds(row, a)
  }

  predicate ImageHolds(p: Payload, i: ImageInfo) {
    && p.ImagePayload? && Sent(p.url, i.url) && SentInt(p.width, i.width) && SentInt(p.height, i.height)
    && Sent(p.file, i.file) && Sent(p.source, i.source) && p.credit == i.credit
  }

  predicate BioHolds(p: Payload, b: BioInfo) {
    p.BioPayload? && Sent(p.bioMd, b.bioMd) && SentJson(p.sources, b.sources) && Sent(p.model, b.model)
  }

  predicate TourHolds(env: Env, p: Payload, t: TourInfo) {
    && p.TourPayload? && Sent(p.tourName, t.tourName) && SentJson(p.songs, t.songs)
    && p.observedDate == (if t.observedDate == "" then None else env.parseDate(t.observedDate))
    && Sent(p.observedVenue, t.observedVenue) && Sent(p.observedCity, t.observedCity)
    && Sent(p.setlistUrl, t.setlistUrl)
    && Sent(p.blurb, t.blurb) && Sent(p.blurbModel, t.blurbModel)
  }

  /** Status and reason are the message's. So is the payload if the status is ok
      or the section is new; otherwise the stored payload stands. */
  ghost predicate SectionMoved(was: Option<Row>, now: Option<Row>, status: string, reason: string,
                               holds: Payload -> bool) {
    && now.Some? && now.value.SectionRow?
    && now.value.status == status && Sent(now.value.reason, reason)
    && if status == "ok" || was.None? || !was.value.SectionRow? then holds(now.value.payload)
       else now.value.payload == was.value.payload
  }

  predicate Known(status: string) {
    status in {"ok", "none", "error"}
  }

  ghost predicate SectionsStored(env: Env, e: Option<Enrichment>, before: Tables, after: Tables) {
    Identified(e) ==>
      var key := env.normalize(e.value.artist.value.performer);
      && ImageStored(key, e.value.image, before, after)
      && BioStored(key, e.value.bio, before, after)
      && TourStored(env, key, e.value.tour, before, after)
  }

  ghost predicate ImageStored(key: string, image: Option<ImageInfo>, before: Tables, after: Tables) {
    var was, now := Get(before, SectionKey(Image, key)), Get(after, SectionKey(Image, key));
    if image.None? || !Known(image.value.status) then now == was
    else SectionMoved(was, now, image.value.status, image.value.reason, p => ImageHolds(p, image.value))
  }

  ghost predicate BioStored(key: string, bio: Option<BioInfo>, before: Tables, after: Tables) {
    var was, now := Get(before, SectionKey(Bio, key)), Get(after, SectionKey(Bio, key));
    if bio.None? || !Known(bio.value.status) then now == was
    else SectionMoved(was, now, bio.value.status, bio.value.reason, p => BioHolds(p, bio.value))
  }

  /** A date that does not parse drops the section. */
  ghost predicate TourStored(env: Env, key: string, tour: Option<TourInfo>, before: Tables, after: Tables) {
    var was, now := Get(before, SectionKey(Tour, key)), Get(after, SectionKey(Tour, key));
    if tour.None? || !Known(tour.value.status) || (tour.value.observedDate != ""
                                                   && env.parseDate(tour.value.observedDate).None?)
    then now == was
    else SectionMoved(was, now, tour.value.status, tour.value.reason, p => TourHolds(env, p, tour.value))
  }

  predicate VenueHolds(row: Venue, v: VenueInfo) {
    && row.name == v.name && Sent(row.address, v.address) && row.lat == v.lat && row.lng == v.lng
    && Sent(row.websiteUrl, v.websiteUrl)
  }

  ghost predicate VenueStored(env: Env, v: VenueInfo, rows: Tables) {
    exists row :: Get(rows, VenueKey(env.city, env.normalize(v.name))) == Some(VenueRow(row)) && VenueHolds(row, v)
  }

  /** The event is current; its headline artist and segment are the message's if
      it has any, else those stored before. */
  ghost predicate EventStored(env: Env, m: Message, before: Tables, after: Tables) {
    var was, now := Get(before, EventKey(m.sourceId, m.sourceEventId)),
        Get(after, EventKey(m.sourceId, m.sourceEventId));
    && now.Some? && now.value.EventRow? && !now.value.archived
    && var f := now.value.fields;
       && f.title == m.title && f.description == m.description && f.startsAt == m.startsAt && f.endsAt == m.endsAt
       && f.timeTbd == m.timeTbd && f.venue == VenueKey(env.city, env.normalize(m.venue.name))
       && Sent(f.imageUrl, m.imageUrl) && Sent(f.url, m.url)
       && now.value.headline == (if Identified(m.enrichment)
                                 then Some(env.normalize(m.enrichment.value.artist.value.performer))
                                 else if was.Some? && was.value.EventRow? then was.value.headline else None)
       && now.value.segment == (if m.segment != "" then Some(m.segment)
                                else if was.Some? && was.value.EventRow? then was.value.segment else None)
  }

  /** The event's performers are the non-empty names, each normal form under the
      first name that has it. */
  ghost predicate PerformersStored(env: Env, m: Message, rows: Tables) {
    exists names :: Get(rows, PerformersKey(m.sourceId, m.sourceEventId)) == Some(PerformerRows(names))
                    && FirstNames(env, m.performers, names)
  }

  ghost predicate FirstNames(env: Env, ps: seq<string>, names: map<string, string>) {
    && (forall q :: q in names <==> exists i :: 0 <= i < |ps| && ps[i] != "" && env.normalize(ps[i]) == q)
    && forall i :: 0 <= i < |ps| && ps[i] != "" && IsFirst(env, ps, i) ==>
         env.normalize(ps[i]) in names && names[env.normalize(ps[i])] == ps[i]
  }

  ghost predicate IsFirst(env: Env, ps: seq<string>, i: nat)
    requires i < |ps|
  {
    forall j :: 0 <= j < i && ps[j] != "" ==> env.normalize(ps[j]) != env.normalize(ps[i])
  }

  /** The event's genres are the known slugs its tags stand for: a tag's alias,
      or the tag itself when it has none. */
  ghost predicate GenresStored(env: Env, m: Message, rows: Tables) {
    exists slugs :: Get(rows, GenresKey(m.sourceId, m.sourceEventId)) == Some(GenreRows(slugs))
        && KnownSlugs(env, m.genres, slugs)
  }

  ghost predicate KnownSlugs(env: Env, gs: seq<string>, slugs: set<string>) {
    forall slug :: slug in slugs <==>
      slug in env.genres
      && exists i :: 0 <= i < |gs| && (env.normalizeGenre(gs[i]) == slug != ""
                                       || (env.normalizeGenre(gs[i]) == "" && gs[i] == slug))
  }

  /** The rows a message can touch. */
  predicate Touches(env: Env, m: Message, c: RowKey) {
    || c == VenueKey(env.city, env.normalize(m.venue.name))
    || c in {EventKey(m.sourceId, m.sourceEventId), PerformersKey(m.sourceId, m.sourceEventId),
             GenresKey(m.sourceId, m.sourceEventId)}
    || (Identified(m.enrichment)
        && var key := env.normalize(m.enrichment.value.artist.value.performer);
           c in {ArtistKey(key), SectionKey(Image, key), SectionKey(Bio, key), SectionKey(Tour, key)})
  }

  ghost predicate MessageStored(env: Env, m: Message, before: Tables, after: Tables) {
    && ArtistStored(env, m.enrichment, after)
    && SectionsStored(env, m.enrichment, before, after)
    && VenueStored(env, m.venue, after)
    && EventStored(env, m, before, after)
    && PerformersStored(env, m, after)
    && GenresStored(env, m, after)
    && forall c :: !Touches(env, m, c) ==> Get(after, c) == Get(before, c)
  }

  /** rank 1 -> 1.0, falling evenly to 0.6 at rank 50, flat outside. */
  predicate ArtistWeight(rank: int, w: real) {
    && (rank <= 1 ==> w == 1.0)
    && (1 <= rank <= 50 ==> 49.0 * (1.0 - w) == 0.4 * (rank - 1) as real)
    && (rank >= 50 ==> w == 0.6)
  }

  /** rank 1 -> 1.0, 0.02 less per rank, 0.1 from rank 46 on. */
  predicate GenreWeight(rank: int, w: real) {
    && (rank <= 46 ==> 50.0 * (1.0 - w) == (rank - 1) as real)
    && (rank >= 46 ==> w == 0.1)
  }

  /** The user's interests of one kind are the message's items, each normal form
      as its last item has it. */
  ghost predicate InterestsStored(env: Env, user: string, kind: string, items: seq<Ranked>, rows: Tables) {
    exists held :: Get(rows, InterestsKey(user, kind)) == Some(InterestRows(held)) && LastItems(env, kind, items, held)
  }

  ghost predicate LastItems(env: Env, kind: string, items: seq<Ranked>, held: map<string, Interest>) {
    && (forall q :: q in held <==> exists i :: 0 <= i < |items| && env.normalize(items[i].name) == q)
    && forall i :: 0 <= i < |items| && IsLast(env, items, i) ==>
         env.normalize(items[i].name) in held && HoldsItem(kind, items[i], held[env.normalize(items[i].name)])
  }

  ghost predicate IsLast(env: Env, items: seq<Ranked>, i: nat)
    requires i < |items|
  {
    forall j :: i < j < |items| ==> env.normalize(items[j].name) != env.normalize(items[i].name)
  }

  predicate HoldsItem(kind: string, item: Ranked, held: Interest) {
    held.value == item.name && if kind == "spotify_top_genre" then GenreWeight(item.rank, held.weight)
        else ArtistWeight(item.rank, held.weight)
  }

  ghost predicate AllInterestsStored(env: Env, user: string, im: InterestMessage, before: Tables, after: Tables) {
    && InterestsStored(env, user, "spotify_top_artist", im.topArtists, after)
    && InterestsStored(env, user, "spotify_top_track_artist", im.trackArtists, after)
    && InterestsStored(env, user, "spotify_saved_song_artist", im.savedArtists, after)
    && InterestsStored(env, user, "spotify_top_genre", im.topGenres, after)
    && forall c :: c !in {InterestsKey(user, "spotify_top_artist"), InterestsKey(user, "spotify_top_track_artist"),
                          InterestsKey(user, "spotify_saved_song_artist"), InterestsKey(user, "spotify_top_genre")} ==>
         Get(after, c) == Get(before, c)
  }

  // ---------------------------------------------------------------------
  // The plans get there
  // ---------------------------------------------------------------------

  lemma {:induction false} PerformerTargets(env: Env, src: string, id: string, ps: seq<string>)
    ensures forall w :: w in PerformerPlan(env, src, id, ps) ==>
            w.InsertPerformer?
            && Target(w) == PerformersKey(src, id)
    decreases |ps|
  {
    if ps == [] {
    } else {
      PerformerTargets(env, src, id, ps[..|ps| - 1]);
    }
  }

  lemma {:induction false} GenreTargets(env: Env, src: string, id: string, gs: seq<string>)
    ensures forall w :: w in GenrePlan(env, src, id, gs) ==> w.InsertGenre? && Target(w) == GenresKey(src, id)
    decreases |gs|
  {
    if gs == [] {
    } else {
      GenreTargets(env, src, id, gs[..|gs| - 1]);
    }
  }

  lemma {:induction false} InsertTargets(env: Env, user: string, kind: string, items: seq<Ranked>)
    ensures forall w :: w in InsertsPlan(env, user, kind, items) ==>
            w.InsertInterest?
            && Target(w) == InterestsKey(user, kind)
    decreases |items|
  {
    if items == [] {
    } else {
      InsertTargets(env, user, kind, items[..|items| - 1]);
    }
  }

  /** At most one statement per section table. */
  lemma SectionWrites(env: Env, key: string, e: Enrichment)
    ensures var ws := ImageWrites(key, e.image); |ws| <= 1 && forall w :: w in ws ==>
            w.UpsertSection?
            && Target(w) == SectionKey(Image, key)
    ensures var ws := BioWrites(key, e.bio); |ws| <= 1 && forall w :: w in ws ==>
            w.UpsertSection?
            && Target(w) == SectionKey(Bio, key)
    ensures var ws := TourWrites(env, key, e.tour); |ws| <= 1 && forall w :: w in ws ==>
            w.UpsertSection?
            && Target(w) == SectionKey(Tour, key)
  {
  }

  lemma {:induction false} PerformersHeld(env: Env, src: string, id: string, ps: seq<string>)
    returns (names: map<string, string>)
    ensures Eff(PerformerPlan(env, src, id, ps), PerformersKey(src, id),
                Some(PerformerRows(map[]))) == Some(PerformerRows(names))
    ensures FirstNames(env, ps, names)
    decreases |ps|
  {
    hide Eff, FirstNames;
    if ps == [] {
      NoStatements(PerformersKey(src, id), Some(PerformerRows(map[])));
      NothingHeld(env, "");
      names := map[];
    } else {
      var init, p := ps[..|ps| - 1], ps[|ps| - 1];
      assert ps == init + [p];
      var held := PerformersHeld(env, src, id, init);
      var plan, c, none := PerformerPlan(env, src, id, init), PerformersKey(src, id), Some(PerformerRows(map[]));
      names := held;
      if p == "" {
        assert plan + [] == plan;
      } else {
        EffSnoc(plan, InsertPerformer(src, id, p, env.normalize(p)), c, none);
        if env.normalize(p) !in held {
          names := held[env.normalize(p) := p];
        }
      }
      OneMoreName(env, init, p, held, names);
    }
  }

  lemma NothingHeld(env: Env, kind: string)
    ensures FirstNames(env, [], map[]) && KnownSlugs(env, [], {}) && LastItems(env, kind, [], map[])
  {
  }

  lemma NoStatements(c: RowKey, v: Option<Row>)
    ensures Eff([], c, v) == v
  {
  }

  lemma OneMoreName(env: Env, init: seq<string>, p: string, held: map<string, string>, names: map<string, string>)
    requires FirstNames(env, init, held)
    requires names == if p == "" || env.normalize(p) in held then held else held[env.normalize(p) := p]
    ensures FirstNames(env, init + [p], names)
  {
    hide IsFirst;
    var ps := init + [p];
    forall q
      ensures q in names <==> exists i :: 0 <= i < |ps| && ps[i] != "" && env.normalize(ps[i]) == q
    {
      MoreNames(env, init, p, held, q);
    }
    forall i | 0 <= i < |ps| && ps[i] != "" && IsFirst(env, ps, i)
      ensures env.normalize(ps[i]) in names && names[env.normalize(ps[i])] == ps[i]
    {
      if i < |init| {
        StillFirst(env, init, p, i);
        assert ps[i] == init[i];
      } else {
        FirstIsNew(env, init, p, held);
      }
    }
  }

  lemma MoreNames(env: Env, init: seq<string>, p: string, held: map<string, string>, q: string)
    requires q in held <==> exists i :: 0 <= i < |init| && init[i] != "" && env.normalize(init[i]) == q
    ensures q in held || (p != "" && q == env.normalize(p))
       <==> exists i :: 0 <= i < |init + [p]| && (init + [p])[i] != "" && env.normalize((init + [p])[i]) == q
  {
    var ps := init + [p];
    assert ps[|init|] == p;
    if q in held {
      var i :| 0 <= i < |init| && init[i] != "" && env.normalize(init[i]) == q;
      assert ps[i] == init[i];
    }
    if i :| 0 <= i < |ps| && ps[i] != "" && env.normalize(ps[i]) == q {
      assert i < |init| ==> ps[i] == init[i];
    }
  }

  lemma StillFirst(env: Env, init: seq<string>, p: string, i: nat)
    requires i < |init| && IsFirst(env, init + [p], i)
    ensures IsFirst(env, init, i)
  {
    var ps := init + [p];
    assert forall j :: 0 <= j <= i ==> ps[j] == init[j];
  }

  lemma FirstIsNew(env: Env, init: seq<string>, p: string, held: map<string, string>)
    requires FirstNames(env, init, held) && IsFirst(env, init + [p], |init|)
    ensures env.normalize(p) !in held
  {
    var ps := init + [p];
    assert ps[|init|] == p;
    forall j | 0 <= j < |init| && init[j] != ""
      ensures env.normalize(init[j]) != env.normalize(p)
    {
      assert ps[j] == init[j];
    }
  }

  lemma {:induction false} GenresHeld(env: Env, src: string, id: string, gs: seq<string>) returns (slugs: set<string>)
    ensures Eff(GenrePlan(env, src, id, gs), GenresKey(src, id), Some(GenreRows({}))) == Some(GenreRows(slugs))
    ensures KnownSlugs(env, gs, slugs)
    decreases |gs|
  {
    hide Eff, KnownSlugs;
    if gs == [] {
      NoStatements(GenresKey(src, id), Some(GenreRows({})));
      NothingHeld(env, "");
      slugs := {};
    } else {
      var init, g := gs[..|gs| - 1], gs[|gs| - 1];
      assert gs == init + [g];
      var held := GenresHeld(env, src, id, init);
      var plan, c, none := GenrePlan(env, src, id, init), GenresKey(src, id), Some(GenreRows({}));
      var slug := GenreSlug(env, g);
      slugs := held;
      if slug !in env.genres {
        assert plan + [] == plan;
      } else {
        EffSnoc(plan, InsertGenre(src, id, slug), c, none);
        slugs := held + {slug};
      }
      OneMoreSlug(env, init, g, held, slugs);
    }
  }

  lemma OneMoreSlug(env: Env, init: seq<string>, g: string, held: set<string>, slugs: set<string>)
    requires KnownSlugs(env, init, held)
    requires slugs == if GenreSlug(env, g) in env.genres then held + {GenreSlug(env, g)} else held
    ensures KnownSlugs(env, init + [g], slugs)
  {
    var gs := init + [g];
    forall slug
      ensures slug in slugs <==>
              slug in env.genres
              && exists i :: 0 <= i < |gs|
                             && (env.normalizeGenre(gs[i]) == slug != ""
                                 || (env.normalizeGenre(gs[i]) == "" && gs[i] == slug))
    {
      if slug in held {
        var i :| 0 <= i < |init|
                 && (env.normalizeGenre(init[i]) == slug != ""
                     || (env.normalizeGenre(init[i]) == "" && init[i] == slug));
        assert gs[i] == init[i];
      } else if slug in slugs {
        assert gs[|init|] == g && slug == GenreSlug(env, g);
      }
      if slug in env.genres && slug !in held {
        assert forall i :: 0 <= i < |init| ==>
                 gs[i] == init[i] && !(env.normalizeGenre(init[i]) == slug != ""
                                       || (env.normalizeGenre(init[i]) == "" && init[i] == slug));
      }
    }
  }

  lemma {:induction false} ItemsHeld(env: Env, user: string, kind: string, items: seq<Ranked>)
      returns (held: map<string, Interest>)
    ensures Eff(InsertsPlan(env, user, kind, items), InterestsKey(user, kind),
                Some(InterestRows(map[]))) == Some(InterestRows(held))
    ensures LastItems(env, kind, items, held)
    decreases |items|
  {
    hide Eff, LastItems, HoldsItem, KindWeight;
    if items == [] {
      NoStatements(InterestsKey(user, kind), Some(InterestRows(map[])));
      NothingHeld(env, kind);
      held := map[];
    } else {
      var init, item := items[..|items| - 1], items[|items| - 1];
      assert items == init + [item];
      var was := ItemsHeld(env, user, kind, init);
      EffSnoc(InsertsPlan(env, user, kind, init), InterestWrite(env, user, kind, item), InterestsKey(user, kind),
              Some(InterestRows(map[])));
      held := was[env.normalize(item.name) := Interest(item.name, KindWeight(kind, item.rank))];
      WeightsInFigures(kind, item);
      OneMoreItem(env, kind, init, item, was, held);
    }
  }

  lemma WeightsInFigures(kind: string, item: Ranked)
    ensures HoldsItem(kind, item, Interest(item.name, KindWeight(kind, item.rank)))
  {
    var d := (item.rank - 1) as real;
    assert RankWeight(item.rank) == if item.rank <= 1 then 1.0 else if 1.0 - d * 0.4 / 49.0 < 0.6 then 0.6
        else 1.0 - d * 0.4 / 49.0;
    assert d * 0.4 / 49.0 * 49.0 == d * 0.4;
    if item.rank >= 50 {
      assert d >= 49.0;
    } else {
      assert d <= 48.0;
    }
    if item.rank >= 46 {
      assert d >= 45.0;
    } else {
      assert d <= 44.0;
    }
  }

  lemma OneMoreItem(env: Env, kind: string, init: seq<Ranked>, item: Ranked, was: map<string, Interest>,
                    held: map<string, Interest>)
    requires LastItems(env, kind, init, was) && env.normalize(item.name) in held
    requires held == was[env.normalize(item.name) := held[env.normalize(item.name)]]
    requires HoldsItem(kind, item, held[env.normalize(item.name)])
    ensures LastItems(env, kind, init + [item], held)
  {
    hide HoldsItem, IsLast;
    var items := init + [item];
    forall q
      ensures q in held <==> exists i :: 0 <= i < |items| && env.normalize(items[i].name) == q
    {
      MoreForms(env, init, item, was, q);
    }
    forall i | 0 <= i < |items| && IsLast(env, items, i)
      ensures env.normalize(items[i].name) in held && HoldsItem(kind, items[i], held[env.normalize(items[i].name)])
    {
      if i < |init| {
        StillLast(env, init, item, i);
        assert items[i] == init[i];
      }
    }
  }

  lemma StillLast(env: Env, init: seq<Ranked>, item: Ranked, i: nat)
    requires i < |init| && IsLast(env, init + [item], i)
    ensures IsLast(env, init, i) && env.normalize(item.name) != env.normalize(init[i].name)
  {
    var items := init + [item];
    assert items[|init|] == item && items[i] == init[i];
    assert forall j :: i < j < |init| ==> items[j] == init[j];
  }

  lemma MoreForms(env: Env, init: seq<Ranked>, item: Ranked, was: map<string, Interest>, q: string)
    requires q in was <==> exists i :: 0 <= i < |init| && env.normalize(init[i].name) == q
    ensures q in was || q == env.normalize(item.name)
       <==> exists i :: 0 <= i < |init + [item]| && env.normalize((init + [item])[i].name) == q
  {
    var items := init + [item];
    assert items[|init|] == item;
    if q in was {
      var i :| 0 <= i < |init| && env.normalize(init[i].name) == q;
      assert items[i] == init[i];
    }
    if i :| 0 <= i < |items| && env.normalize(items[i].name) == q {
      assert i < |init| ==> items[i] == init[i];
    }
  }

  // ---------------------------------------------------------------------
  // Whole messages
  // ---------------------------------------------------------------------

  lemma EffApart(ws: seq<Write>, c: RowKey, v: Option<Row>)
    ensures (forall w :: w in ws ==> Target(w) != c) ==> Eff(ws, c, v) == v
  {
    if forall w :: w in ws ==> Target(w) != c {
      EffUntouched(ws, c, v);
    }
  }

  lemma EffOne(w: Write, c: RowKey, v: Option<Row>)
    ensures Eff([w], c, v) == if Target(w) == c then On(w, v) else v
  {
    assert [w][1..] == [];
  }

  function PerformersPart(env: Env, m: Message): seq<Write> {
    [DeletePerformers(m.sourceId, m.sourceEventId)] + PerformerPlan(env, m.sourceId, m.sourceEventId, m.performers)
  }

  function GenresPart(env: Env, m: Message): seq<Write> {
    [DeleteGenres(m.sourceId, m.sourceEventId)] + GenrePlan(env, m.sourceId, m.sourceEventId, m.genres)
  }

  /** The five parts of a message act one after the other. */
  lemma MessageAt(env: Env, m: Message, c: RowKey, v: Option<Row>)
    ensures Eff(MessagePlan(env, m), c, v)
            == Eff(GenresPart(env, m), c, Eff(PerformersPart(env, m), c,
                 Eff([EventWrite(env, m)], c, Eff([VenueWrite(env, m.venue)], c,
                                                  Eff(EnrichmentPlan(env, m.enrichment), c, v)))))
  {
    hide Eff, EnrichmentPlan, PerformersPart, GenresPart, VenueWrite, EventWrite;
    var e, g := EnrichmentPlan(env, m.enrichment), GenresPart(env, m);
    var p := PerformersPart(env, m);
    PartsOfMessage(env, m);
    EffConcat(e, [VenueWrite(env, m.venue)] + ([EventWrite(env, m)] + (p + g)), c, v);
    var v1 := Eff(e, c, v);
    EffConcat([VenueWrite(env, m.venue)], [EventWrite(env, m)] + (p + g), c, v1);
    var v2 := Eff([VenueWrite(env, m.venue)], c, v1);
    EffConcat([EventWrite(env, m)], p + g, c, v2);
    EffConcat(p, g, c, Eff([EventWrite(env, m)], c, v2));
  }

  lemma PartsOfMessage(env: Env, m: Message)
    ensures MessagePlan(env, m)
            == EnrichmentPlan(env, m.enrichment)
               + ([VenueWrite(env, m.venue)] + ([EventWrite(env, m)] + (PerformersPart(env, m) + GenresPart(env, m))))
  {
    hide EnrichmentPlan, PerformerPlan, GenrePlan, VenueWrite, EventWrite;
  }

  lemma PartTargets(env: Env, m: Message)
    ensures forall w :: w in PerformersPart(env, m) ==> Target(w) == PerformersKey(m.sourceId, m.sourceEventId)
    ensures forall w :: w in GenresPart(env, m) ==> Target(w) == GenresKey(m.sourceId, m.sourceEventId)
  {
    PerformerTargets(env, m.sourceId, m.sourceEventId, m.performers);
    GenreTargets(env, m.sourceId, m.sourceEventId, m.genres);
  }

  function EnrichmentKeys(env: Env, e: Option<Enrichment>): set<RowKey> {
    if !Identified(e) then {}
    else
      var key := env.normalize(e.value.artist.value.performer);
      {ArtistKey(key), SectionKey(Image, key), SectionKey(Bio, key), SectionKey(Tour, key)}
  }

  lemma EnrichmentTargets(env: Env, e: Option<Enrichment>)
    ensures forall w :: w in EnrichmentPlan(env, e) ==> Target(w) in EnrichmentKeys(env, e)
  {
    if Identified(e) {
      SectionWrites(env, env.normalize(e.value.artist.value.performer), e.value);
    }
  }

  /** Which part of the message each row answers to. */
  lemma MessageRow(env: Env, m: Message, c: RowKey, v: Option<Row>)
    ensures Eff(MessagePlan(env, m), c, v)
            == match c
               case ArtistKey(_) => Eff(EnrichmentPlan(env, m.enrichment), c, v)
               case SectionKey(_, _) => Eff(EnrichmentPlan(env, m.enrichment), c, v)
               case VenueKey(_, _) => if c == Target(VenueWrite(env, m.venue)) then On(VenueWrite(env, m.venue), v)
                   else v
               case EventKey(_, _) => if c == Target(EventWrite(env, m)) then On(EventWrite(env, m), v) else v
               case PerformersKey(_, _) => Eff(PerformersPart(env, m), c, v)
               case GenresKey(_, _) => Eff(GenresPart(env, m), c, v)
               case InterestsKey(_, _) => v
  {
    hide Eff, EnrichmentPlan, PerformersPart, GenresPart, On;
    MessageAt(env, m, c, v);
    PartTargets(env, m);
    EnrichmentTargets(env, m.enrichment);
    var v1 := Eff(EnrichmentPlan(env, m.enrichment), c, v);
    EffApart(EnrichmentPlan(env, m.enrichment), c, v);
    EffOne(VenueWrite(env, m.venue), c, v1);
    var v2 := Eff([VenueWrite(env, m.venue)], c, v1);
    EffOne(EventWrite(env, m), c, v2);
    var v3 := Eff([EventWrite(env, m)], c, v2);
    EffApart(PerformersPart(env, m), c, v3);
    EffApart(GenresPart(env, m), c, Eff(PerformersPart(env, m), c, v3));
  }

  lemma PerformersEnd(env: Env, m: Message, v: Option<Row>) returns (names: map<string, string>)
    ensures Eff(PerformersPart(env, m), PerformersKey(m.sourceId, m.sourceEventId), v) == Some(PerformerRows(names))
    ensures FirstNames(env, m.performers, names)
  {
    hide Eff, FirstNames;
    var c, del := PerformersKey(m.sourceId, m.sourceEventId), DeletePerformers(m.sourceId, m.sourceEventId);
    EffConcat([del], PerformerPlan(env, m.sourceId, m.sourceEventId, m.performers), c, v);
    EffOne(del, c, v);
    names := PerformersHeld(env, m.sourceId, m.sourceEventId, m.performers);
  }

  lemma GenresEnd(env: Env, m: Message, v: Option<Row>) returns (slugs: set<string>)
    ensures Eff(GenresPart(env, m), GenresKey(m.sourceId, m.sourceEventId), v) == Some(GenreRows(slugs))
    ensures KnownSlugs(env, m.genres, slugs)
  {
    hide Eff, KnownSlugs;
    var c, del := GenresKey(m.sourceId, m.sourceEventId), DeleteGenres(m.sourceId, m.sourceEventId);
    EffConcat([del], GenrePlan(env, m.sourceId, m.sourceEventId, m.genres), c, v);
    EffOne(del, c, v);
    slugs := GenresHeld(env, m.sourceId, m.sourceEventId, m.genres);
  }

  /** The rows of one artist after the enrichment statements. */
  lemma EnrichmentRow(env: Env, e: Enrichment, key: string, c: RowKey, v: Option<Row>)
    requires Identified(Some(e)) && key == env.normalize(e.artist.value.performer)
    ensures Eff(EnrichmentPlan(env, Some(e)), c, v)
            == if c == ArtistKey(key) then Some(ArtistRow(ArtistRecord(e.artist.value)))
               else if c == SectionKey(Image, key) then Eff(ImageWrites(key, e.image), c, v)
               else if c == SectionKey(Bio, key) then Eff(BioWrites(key, e.bio), c, v)
               else if c == SectionKey(Tour, key) then Eff(TourWrites(env, key, e.tour), c, v)
               else v
  {
    hide Eff, ImageWrites, BioWrites, TourWrites, ArtistRecord;
    SectionWrites(env, key, e);
    var artist := UpsertArtist(key, ArtistRecord(e.artist.value));
    var i, b, t := ImageWrites(key, e.image), BioWrites(key, e.bio), TourWrites(env, key, e.tour);
    EffConcat([artist], i + (b + t), c, v);
    EffOne(artist, c, v);
    var v1 := Eff([artist], c, v);
    EffConcat(i, b + t, c, v1);
    EffApart(i, c, v1);
    var v2 := Eff(i, c, v1);
    EffConcat(b, t, c, v2);
    EffApart(b, c, v2);
    EffApart(t, c, Eff(b, c, v2));
  }

  lemma ArtistEnds(a: ArtistInfo)
    ensures ArtistHolds(ArtistRecord(a), a)
  {
  }

  lemma ImageEnds(key: string, image: Option<ImageInfo>, before: Tables, after: Tables)
    requires Get(after, SectionKey(Image, key)) == Eff(ImageWrites(key, image), SectionKey(Image, key),
                                                       Get(before, SectionKey(Image, key)))
    ensures ImageStored(key, image, before, after)
  {
    hide OptInt32, SentInt;
    if image.Some? && Known(image.value.status) {
      var i := image.value;
      Ints(i.width);
      Ints(i.height);
      var w := ImageWrites(key, image)[0];
      assert ImageWrites(key, image) == [w];
      EffOne(w, SectionKey(Image, key), Get(before, SectionKey(Image, key)));
      assert ImageHolds(w.payload, i);
    }
  }

  lemma BioEnds(key: string, bio: Option<BioInfo>, before: Tables, after: Tables)
    requires Get(after, SectionKey(Bio, key)) == Eff(BioWrites(key, bio), SectionKey(Bio, key),
                                                     Get(before, SectionKey(Bio, key)))
    ensures BioStored(key, bio, before, after)
  {
    if bio.Some? && Known(bio.value.status) {
      var w := BioWrites(key, bio)[0];
      assert BioWrites(key, bio) == [w];
      EffOne(w, SectionKey(Bio, key), Get(before, SectionKey(Bio, key)));
      assert BioHolds(w.payload, bio.value);
    }
  }

  lemma TourEnds(env: Env, key: string, tour: Option<TourInfo>, before: Tables, after: Tables)
    requires Get(after, SectionKey(Tour, key)) == Eff(TourWrites(env, key, tour), SectionKey(Tour, key),
                                                      Get(before, SectionKey(Tour, key)))
    ensures TourStored(env, key, tour, before, after)
  {
    if tour.Some? && Known(tour.value.status) && ObservedDate(env, tour.value.observedDate).Some? {
      var w := TourWrites(env, key, tour)[0];
      assert TourWrites(env, key, tour) == [w];
      EffOne(w, SectionKey(Tour, key), Get(before, SectionKey(Tour, key)));
      assert TourHolds(env, w.payload, tour.value);
    }
  }

  /** A plan that ran to the end stored its message and touched nothing else. */
  lemma PlanStoresMessage(env: Env, m: Message, before: Tables, after: Tables)
    requires after == ApplyAll(before, MessagePlan(env, m))
    ensures MessageStored(env, m, before, after)
  {
    hide ApplyAll, MessagePlan, Eff, FirstNames, KnownSlugs, EnrichmentPlan, PerformersPart, GenresPart,
        SectionsStored, EventStored, On;
    forall c
      ensures Get(after, c) == Eff(MessagePlan(env, m), c, Get(before, c))
    {
      ApplyAllAt(before, MessagePlan(env, m), c);
    }
    var pk, gk := PerformersKey(m.sourceId, m.sourceEventId), GenresKey(m.sourceId, m.sourceEventId);
    MessageRow(env, m, pk, Get(before, pk));
    var names := PerformersEnd(env, m, Get(before, pk));
    MessageRow(env, m, gk, Get(before, gk));
    var slugs := GenresEnd(env, m, Get(before, gk));
    PlanStoresVenueAndEvent(env, m, before, after);
    PlanStoresEnrichment(env, m, before, after);
    forall c | !Touches(env, m, c)
      ensures Get(after, c) == Get(before, c)
    {
      PlanTouchesNothingElse(env, m, c, Get(before, c));
    }
  }

  lemma PlanTouchesNothingElse(env: Env, m: Message, c: RowKey, v: Option<Row>)
    requires !Touches(env, m, c)
    ensures Eff(MessagePlan(env, m), c, v) == v
  {
    hide Eff, EnrichmentPlan, PerformersPart, GenresPart;
    MessageRow(env, m, c, v);
    PartTargets(env, m);
    EnrichmentTargets(env, m.enrichment);
    EffApart(EnrichmentPlan(env, m.enrichment), c, v);
    EffApart(PerformersPart(env, m), c, v);
    EffApart(GenresPart(env, m), c, v);
  }

  lemma PlanStoresVenueAndEvent(env: Env, m: Message, before: Tables, after: Tables)
    requires forall c :: Get(after, c) == Eff(MessagePlan(env, m), c, Get(before, c))
    ensures VenueStored(env, m.venue, after) && EventStored(env, m, before, after)
  {
    hide Eff, MessagePlan, EnrichmentPlan, PerformersPart, GenresPart;
    var vk, ek := Target(VenueWrite(env, m.venue)), Target(EventWrite(env, m));
    MessageRow(env, m, vk, Get(before, vk));
    MessageRow(env, m, ek, Get(before, ek));
    assert VenueHolds(VenueWrite(env, m.venue).venue, m.venue);
  }

  lemma PlanStoresEnrichment(env: Env, m: Message, before: Tables, after: Tables)
    requires forall c :: Get(after, c) == Eff(MessagePlan(env, m), c, Get(before, c))
    ensures ArtistStored(env, m.enrichment, after) && SectionsStored(env, m.enrichment, before, after)
  {
    hide Eff, MessagePlan, EnrichmentPlan, PerformersPart, GenresPart, ImageWrites, BioWrites, TourWrites,
        ArtistRecord, ArtistHolds,
      ImageStored, BioStored, TourStored;
    if Identified(m.enrichment) {
      var e := m.enrichment.value;
      var key := env.normalize(e.artist.value.performer);
      var ak, ik, bk, tk := ArtistKey(key), SectionKey(Image, key), SectionKey(Bio, key), SectionKey(Tour, key);
      assert m.enrichment == Some(e);
      MessageRow(env, m, ak, Get(before, ak));
      EnrichmentRow(env, e, key, ak, Get(before, ak));
      ArtistEnds(e.artist.value);
      MessageRow(env, m, ik, Get(before, ik));
      EnrichmentRow(env, e, key, ik, Get(before, ik));
      ImageEnds(key, e.image, before, after);
      MessageRow(env, m, bk, Get(before, bk));
      EnrichmentRow(env, e, key, bk, Get(before, bk));
      BioEnds(key, e.bio, before, after);
      MessageRow(env, m, tk, Get(before, tk));
      EnrichmentRow(env, e, key, tk, Get(before, tk));
      TourEnds(env, key, e.tour, before, after);
    }
  }

  lemma KindEnds(env: Env, user: string, kind: string, items: seq<Ranked>, c: RowKey, v: Option<Row>)
    returns (held: map<string, Interest>)
    ensures c != InterestsKey(user, kind) ==> Eff(KindPlan(env, user, kind, items), c, v) == v
    ensures c == InterestsKey(user, kind) ==> Eff(KindPlan(env, user, kind, items), c, v) == Some(InterestRows(held))
    ensures LastItems(env, kind, items, held)
  {
    hide Eff, LastItems;
    var del := DeleteInterests(user, kind);
    EffConcat([del], InsertsPlan(env, user, kind, items), c, v);
    EffOne(del, c, v);
    InsertTargets(env, user, kind, items);
    EffApart(InsertsPlan(env, user, kind, items), c, Eff([del], c, v));
    held := ItemsHeld(env, user, kind, items);
  }

  lemma DistinctKinds()
    ensures "spotify_top_artist" != "spotify_top_track_artist" && "spotify_top_artist" != "spotify_saved_song_artist"
    ensures "spotify_top_artist" != "spotify_top_genre" && "spotify_top_track_artist" != "spotify_saved_song_artist"
    ensures "spotify_top_track_artist" != "spotify_top_genre" && "spotify_saved_song_artist" != "spotify_top_genre"
  {
    assert |"spotify_top_artist"| == 18 && |"spotify_top_track_artist"| == 24 && |"spotify_saved_song_artist"| == 25
           && |"spotify_top_genre"| == 17;
  }

  /** Each of the four replacements leaves the other three kinds alone. */
  lemma PlanStoresInterests(env: Env, user: string, im: InterestMessage, before: Tables, after: Tables)
    requires !im.onlyEmbed && after == ApplyAll(before, InterestPlan(env, user, im))
    ensures AllInterestsStored(env, user, im, before, after)
  {
    hide ApplyAll, Eff, KindPlan, LastItems;
    DistinctKinds();
    var k1, k2, k3, k4 := "spotify_top_artist", "spotify_top_track_artist", "spotify_saved_song_artist",
        "spotify_top_genre";
    InterestRow(env, user, im, k1, k2, k3, k4, before, InterestsKey(user, k1));
    InterestRow(env, user, im, k1, k2, k3, k4, before, InterestsKey(user, k2));
    InterestRow(env, user, im, k1, k2, k3, k4, before, InterestsKey(user, k3));
    InterestRow(env, user, im, k1, k2, k3, k4, before, InterestsKey(user, k4));
    forall c | c !in {InterestsKey(user, k1), InterestsKey(user, k2), InterestsKey(user, k3), InterestsKey(user, k4)}
      ensures Get(after, c) == Get(before, c)
    {
      InterestRow(env, user, im, k1, k2, k3, k4, before, c);
    }
  }

  lemma InterestRow(env: Env, user: string, im: InterestMessage, k1: string, k2: string, k3: string, k4: string,
                    before: Tables, c: RowKey)
    requires k1 == "spotify_top_artist" && k2 == "spotify_top_track_artist" && k3 == "spotify_saved_song_artist"
             && k4 == "spotify_top_genre"
    requires k1 != k2 && k1 != k3 && k1 != k4 && k2 != k3 && k2 != k4 && k3 != k4 && !im.onlyEmbed
    ensures var now := Get(ApplyAll(before, InterestPlan(env, user, im)), c);
            && (c == InterestsKey(user, k1) ==> exists held ::
                now == Some(InterestRows(held))
                && LastItems(env, k1, im.topArtists, held))
            && (c == InterestsKey(user, k2) ==> exists held ::
                now == Some(InterestRows(held))
                && LastItems(env, k2, im.trackArtists, held))
            && (c == InterestsKey(user, k3) ==> exists held ::
                now == Some(InterestRows(held))
                && LastItems(env, k3, im.savedArtists, held))
            && (c == InterestsKey(user, k4) ==> exists held ::
                now == Some(InterestRows(held))
                && LastItems(env, k4, im.topGenres, held))
            && (c !in {InterestsKey(user, k1), InterestsKey(user, k2), InterestsKey(user, k3), InterestsKey(user, k4)}
                ==> now == Get(before, c))
  {
    hide ApplyAll, Eff, KindPlan, LastItems;
    var p1, p2 := KindPlan(env, user, k1, im.topArtists), KindPlan(env, user, k2, im.trackArtists);
    var p3, p4 := KindPlan(env, user, k3, im.savedArtists), KindPlan(env, user, k4, im.topGenres);
    assert InterestPlan(env, user, im) == p1 + (p2 + (p3 + p4));
    ApplyAllAt(before, InterestPlan(env, user, im), c);
    var v := Get(before, c);
    EffConcat(p1, p2 + (p3 + p4), c, v);
    var h1 := KindEnds(env, user, k1, im.topArtists, c, v);
    var v1 := Eff(p1, c, v);
    EffConcat(p2, p3 + p4, c, v1);
    var h2 := KindEnds(env, user, k2, im.trackArtists, c, v1);
    var v2 := Eff(p2, c, v1);
    EffConcat(p3, p4, c, v2);
    var h3 := KindEnds(env, user, k3, im.savedArtists, c, v2);
    var h4 := KindEnds(env, user, k4, im.topGenres, c, Eff(p3, c, v2));
  }

  /** What a handled body leaves, whichever queue it came from. A broken
      enrichment block is dropped and the event kept. */
  ghost predicate BodyStored(env: Env, body: Body, before: Tables, after: Tables) {
    match body
    case Malformed => after == before
    case Enriched(m) => MessageStored(env, m, before, after)
    case PlainOnly(m) => MessageStored(env, m.(enrichment := None), before, after)
    case Interests(user, im) => if im.onlyEmbed then after == before
        else AllInterestsStored(env, user, im, before, after)
  }
}
