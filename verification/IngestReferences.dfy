/** Foreign keys without a transaction: the order of the statements alone keeps
    every reference in the tables good, at every point a crash can leave them. */
module IngestReferences {
  import opened Common
  import opened IngestStore
  import opened IngestPlans
  import opened IngestRows
  import opened IngestDelivery

  /** The rows a row refers to: a section its artist, an event its venue and
      headline artist, associated performers and genres their event. */
  function References(c: RowKey, row: Row): set<RowKey> {
    match (c, row)
    case (SectionKey(_, artist), _) => {ArtistKey(artist)}
    case (_, EventRow(fields, headline, _, _)) => {fields.venue} + if headline.Some? then {ArtistKey(headline.value)}
        else {}
    case (PerformersKey(s, i), PerformerRows(names)) => if names == map[] then {} else {EventKey(s, i)}
    case (GenresKey(s, i), GenreRows(slugs)) => if slugs == {} then {} else {EventKey(s, i)}
    case _ => {}
  }

  ghost predicate Intact(db: Tables) {
    forall c :: c in db ==> References(c, db[c]) <= db.Keys
  }

  /** What a statement refers to beyond the row it finds. */
  function Needs(w: Write): set<RowKey> {
    match w
    case UpsertSection(_, artist, _, _, _) => {ArtistKey(artist)}
    case UpsertEvent(_, _, fields, headline, _) => {fields.venue} + if headline.Some? then {ArtistKey(headline.value)}
        else {}
    case InsertPerformer(s, i, _, _) => {EventKey(s, i)}
    case InsertGenre(s, i, _) => {EventKey(s, i)}
    case _ => {}
  }

  /** The rows there are once a statement has run. */
  function Provided(have: set<RowKey>, w: Write): set<RowKey> {
    if w.ArchiveEvent? then have else have + {Target(w)}
  }

  function ProvidedAll(have: set<RowKey>, ws: seq<Write>): set<RowKey>
    decreases |ws|
  {
    if ws == [] then have else ProvidedAll(Provided(have, ws[0]), ws[1..])
  }

  /** Each statement comes after those that write what it refers to. */
  predicate Ordered(have: set<RowKey>, ws: seq<Write>)
    decreases |ws|
  {
    ws == [] || (Needs(ws[0]) <= have && Ordered(Provided(have, ws[0]), ws[1..]))
  }

  /** Rows are only ever added, so a reference that is good stays good. */
  lemma StatementKeepsIntact(db: Tables, w: Write)
    requires Intact(db) && Needs(w) <= db.Keys
    ensures Intact(Apply(db, w)) && Provided(db.Keys, w) <= Apply(db, w).Keys
  {
    var after := Apply(db, w);
    forall c | c in after
      ensures References(c, after[c]) <= after.Keys
    {
      if c in db {
        assert References(c, db[c]) <= db.Keys;
      }
    }
  }

  lemma {:induction false} PrefixKeepsIntact(db: Tables, have: set<RowKey>, ws: seq<Write>, k: nat)
    requires Intact(db) && have <= db.Keys && Ordered(have, ws) && k <= |ws|
    ensures Intact(ApplyAll(db, ws[..k])) && db.Keys <= ApplyAll(db, ws[..k]).Keys
    decreases |ws|
  {
    hide Intact, Needs, Apply, Target;
    if k == 0 {
    } else {
      StatementKeepsIntact(db, ws[0]);
      AddsOnly(db, ws[0]);
      assert ws[..k][0] == ws[0] && ws[..k][1..] == ws[1..][..k - 1];
      PrefixKeepsIntact(Apply(db, ws[0]), Provided(have, ws[0]), ws[1..], k - 1);
    }
  }

  lemma AddsOnly(db: Tables, w: Write)
    ensures db.Keys <= Apply(db, w).Keys
  {
  }

  lemma {:induction false} OrderedConcat(have: set<RowKey>, a: seq<Write>, b: seq<Write>)
    requires Ordered(have, a) && Ordered(ProvidedAll(have, a), b)
    ensures Ordered(have, a + b)
    decreases |a|
  {
    hide Needs, Provided;
    if a == [] {
      assert a + b == b;
    } else {
      assert (a + b)[1..] == a[1..] + b;
      OrderedConcat(Provided(have, a[0]), a[1..], b);
    }
  }

  lemma {:induction false} AllBacked(have: set<RowKey>, ws: seq<Write>)
    requires forall w :: w in ws ==> Needs(w) <= have
    ensures Ordered(have, ws) && have <= ProvidedAll(have, ws)
    decreases |ws|
  {
    hide Needs, Target;
    if ws == [] {
    } else {
      assert ws[0] in ws;
      AllBacked(Provided(have, ws[0]), ws[1..]);
    }
  }

  lemma {:induction false} ProvidedGrows(have: set<RowKey>, ws: seq<Write>)
    ensures have <= ProvidedAll(have, ws)
    decreases |ws|
  {
    hide Target;
    if ws == [] {
    } else {
      ProvidedGrows(Provided(have, ws[0]), ws[1..]);
    }
  }

  lemma OneProvides(have: set<RowKey>, w: Write)
    requires Needs(w) <= have
    ensures Ordered(have, [w]) && ProvidedAll(have, [w]) == Provided(have, w)
  {
    assert [w][1..] == [];
  }

  lemma EnrichmentIsOrdered(env: Env, e: Option<Enrichment>, have: set<RowKey>)
    ensures Ordered(have, EnrichmentPlan(env, e)) && have <= ProvidedAll(have, EnrichmentPlan(env, e))
    ensures HeadlineKey(env, e).Some? ==> ArtistKey(HeadlineKey(env, e).value) in ProvidedAll(have,
          EnrichmentPlan(env, e))
  {
    if Applies(e) {
      var a := e.value.artist.value;
      var key := env.normalize(a.performer);
      var artist := UpsertArtist(key, ArtistRecord(a));
      var sections := ImageWrites(key, e.value.image) + (BioWrites(key, e.value.bio) + TourWrites(env, key,
            e.value.tour));
      OneProvides(have, artist);
      SectionWrites(env, key, e.value);
      assert forall w :: w in sections ==> w.UpsertSection? && w.artistKey == key by {
        SectionsNameTheArtist(env, key, e.value);
      }
      AllBacked(have + {ArtistKey(key)}, sections);
      OrderedConcat(have, [artist], sections);
      assert ([artist] + sections)[1..] == sections;
    }
  }

  lemma SectionsNameTheArtist(env: Env, key: string, e: Enrichment)
    ensures forall w :: w in ImageWrites(key, e.image) + (BioWrites(key, e.bio) + TourWrites(env, key, e.tour)) ==>
              w.UpsertSection? && w.artistKey == key
  {
  }

  lemma {:induction false} ProvidedAllConcat(have: set<RowKey>, a: seq<Write>, b: seq<Write>)
    ensures ProvidedAll(have, a + b) == ProvidedAll(ProvidedAll(have, a), b)
    decreases |a|
  {
    hide Provided;
    if a == [] {
      assert a + b == b;
    } else {
      assert (a + b)[1..] == a[1..] + b;
      ProvidedAllConcat(Provided(have, a[0]), a[1..], b);
    }
  }

  /** Artist before its sections and before the event, venue before the event,
      event before its performers and genres. */
  lemma MessageIsOrdered(env: Env, m: Message, have: set<RowKey>)
    ensures Ordered(have, MessagePlan(env, m))
  {
    hide Ordered, ProvidedAll, EnrichmentPlan, PerformersPart, GenresPart, Needs;
    var e, venue, event := EnrichmentPlan(env, m.enrichment), VenueWrite(env, m.venue), EventWrite(env, m);
    var p, g := PerformersPart(env, m), GenresPart(env, m);
    EnrichmentIsOrdered(env, m.enrichment, have);
    var h1 := ProvidedAll(have, e);
    VenueNeeds(env, m);
    OneProvides(h1, venue);
    var h2 := ProvidedAll(h1, [venue]);
    OneProvides(h2, event);
    var h3 := ProvidedAll(h2, [event]);
    AssociationsNeed(env, m);
    AllBacked(h3, p + g);
    OrderedConcat(h2, [event], p + g);
    OrderedConcat(h1, [venue], [event] + (p + g));
    OrderedConcat(have, e, [venue] + ([event] + (p + g)));
    PartsOfMessage(env, m);
  }

  lemma VenueNeeds(env: Env, m: Message)
    ensures Needs(VenueWrite(env, m.venue)) == {}
    ensures var h := HeadlineKey(env, m.enrichment);
            Needs(EventWrite(env, m)) == {Target(VenueWrite(env, m.venue))} + if h.Some? then {ArtistKey(h.value)}
                else {}
  {
  }

  lemma AssociationsNeed(env: Env, m: Message)
    ensures forall w :: w in PerformersPart(env, m) + GenresPart(env, m) ==> Needs(w) <= {Target(EventWrite(env, m))}
  {
    PerformerTargets(env, m.sourceId, m.sourceEventId, m.performers);
    GenreTargets(env, m.sourceId, m.sourceEventId, m.genres);
  }

  lemma InterestsNeedNothing(env: Env, user: string, im: InterestMessage, have: set<RowKey>)
    ensures Ordered(have, InterestPlan(env, user, im))
  {
    hide Ordered;
    InsertTargets(env, user, "spotify_top_artist", im.topArtists);
    InsertTargets(env, user, "spotify_top_track_artist", im.trackArtists);
    InsertTargets(env, user, "spotify_saved_song_artist", im.savedArtists);
    InsertTargets(env, user, "spotify_top_genre", im.topGenres);
    AllBacked(have, InterestPlan(env, user, im));
  }

  /** A crash after any number of statements leaves no dangling reference. */
  lemma CrashLeavesNoDanglingReference(env: Env, body: Body, db: Tables, k: nat)
    requires Intact(db) && k <= |BodyPlan(env, body)|
    ensures Intact(ApplyAll(db, BodyPlan(env, body)[..k]))
  {
    hide Ordered, MessagePlan, InterestPlan, Intact, ApplyAll;
    if Handleable(env, body) {
      match body {
        case Malformed =>
        case Interests(user, im) => InterestsNeedNothing(env, user, im, db.Keys);
        case _ => MessageIsOrdered(env, Degraded(body), db.Keys);
      }
    }
    NothingIsOrdered(db.Keys);
    PrefixKeepsIntact(db, db.Keys, BodyPlan(env, body), k);
  }

  lemma NothingIsOrdered(have: set<RowKey>)
    ensures Ordered(have, [])
  {
  }

  /** Nor does any history of deliveries, complete or crashed, in any order, with
      statements in between that refer to nothing. */
  lemma {:induction false} HistoryLeavesNoDanglingReference(env: Env, db: Tables, history: seq<Delivery>)
    requires Intact(db) && forall d :: d in history && d.Other? ==> Needs(d.w) == {}
    ensures Intact(Deliver(env, db, history))
    decreases |history|
  {
    hide Intact, BodyPlan, Needs, ApplyAll, AllEffects;
    if history == [] {
      NothingDelivered(env, db);
    } else {
      var d := history[0];
      assert d in history && history == [d] + history[1..];
      DeliverOne(env, db, d);
      match d {
        case Other(w) =>
          StatementKeepsIntact(db, w);
          AppliedOnce(db, w);
        case Attempt(body, ran) =>
          var plan := BodyPlan(env, body);
          assert plan[..|plan|] == plan;
          CrashLeavesNoDanglingReference(env, body, db, if ran < |plan| then ran else |plan|);
      }
      HistoryLeavesNoDanglingReference(env, Deliver(env, db, [d]), history[1..]);
      DeliverConcat(env, db, [d], history[1..]);
    }
  }

  lemma NothingDelivered(env: Env, db: Tables)
    ensures Deliver(env, db, []) == db
  {
  }

  lemma AppliedOnce(db: Tables, w: Write)
    ensures ApplyAll(db, [w]) == Apply(db, w)
  {
    assert [w][1..] == [];
  }
}
