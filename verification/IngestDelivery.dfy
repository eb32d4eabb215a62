/** At-least-once delivery over handlers that use no transaction.

    A crash leaves any prefix of a message's statements in the tables; other
    messages are handled before the redelivery. The claim in the code's comments,
    that a partial failure heals on redelivery, is `CrashErasure`; its exact
    condition is `HealsIffBlank`; and `DeliveryIsOncePerMessage` lifts it to whole
    delivery histories. */
module IngestDelivery {
  import opened Common
  import opened IngestStore
  import opened IngestPlans
  import opened IngestHandlers
  import opened IngestRows

  lemma SameEverywhere(a: Tables, b: Tables)
    requires forall c :: Get(a, c) == Get(b, c)
    ensures a == b
  {
    assert forall c :: c in a <==> Get(a, c).Some?;
    assert forall c :: c in b <==> Get(b, c).Some?;
    forall c | c in a
      ensures c in b && a[c] == b[c]
    {
      assert Get(a, c) == Get(b, c);
    }
  }

  /** Statements whose result does not depend on the row they find. */
  predicate Overwrites(w: Write) {
    match w
    case UpsertArtist(_, _) => true
    case UpsertVenue(_, _, _) => true
    case UpsertSection(_, _, status, _, _) => status == "ok"
    case DeletePerformers(_, _) => true
    case DeleteGenres(_, _) => true
    case DeleteInterests(_, _) => true
    case _ => false
  }

  lemma {:induction false} EffOverwritten(ws: seq<Write>, c: RowKey, u: Option<Row>, v: Option<Row>, w: Write)
    requires w in ws && Target(w) == c && Overwrites(w)
    ensures Eff(ws, c, u) == Eff(ws, c, v)
    decreases |ws|
  {
    if Target(ws[0]) == c && Overwrites(ws[0]) {
      assert On(ws[0], u) == On(ws[0], v);
    } else {
      assert w in ws[1..];
      var u', v' := if Target(ws[0]) == c then On(ws[0], u) else u, if Target(ws[0]) == c then On(ws[0], v) else v;
      EffOverwritten(ws[1..], c, u', v', w);
    }
  }

  /** A section that is not 'ok' carries no payload. */
  predicate SoundWrite(w: Write) {
    w.UpsertSection? && w.status != "ok" ==> w.payload == Blank(w.section)
  }

  predicate Sound(ws: seq<Write>) {
    forall w :: w in ws ==> SoundWrite(w)
  }

  /** Statements that keep part of the row they find, but the same part each time. */
  predicate Keeps(w: Write) {
    w.UpsertSection? || w.UpsertEvent?
  }

  lemma {:induction false} EffRepeated(ws: seq<Write>, c: RowKey, v: Option<Row>, w: Write)
    requires Target(w) == c && Keeps(w) && forall x :: x in ws && Target(x) == c ==> x == w
    ensures Eff(ws, c, v) == v || Eff(ws, c, v) == On(w, v)
    ensures w in ws ==> Eff(ws, c, v) == On(w, v)
    ensures Eff(ws, c, On(w, v)) == On(w, v)
    decreases |ws|
  {
    if ws == [] {
    } else {
      EffRepeated(ws[1..], c, v, w);
      assert On(w, On(w, v)) == On(w, v);
    }
  }

  /** If w cannot tell two rows apart, it still cannot after any sound statement. */
  lemma KeptThroughOne(w: Write, x: Write, u: Option<Row>, v: Option<Row>)
    requires Keeps(w) && Target(x) == Target(w) && SoundWrite(w) && SoundWrite(x) && On(w, u) == On(w, v)
    ensures On(w, On(x, u)) == On(w, On(x, v))
  {
    if w.UpsertSection? {
      assert x.UpsertSection? && x.section == w.section;
    } else {
      assert x.UpsertEvent? || x.ArchiveEvent?;
      assert Coalesce(w.headline, HeadlineOf(u)) == Coalesce(w.headline, HeadlineOf(v));
      assert Coalesce(w.segment, SegmentOf(u)) == Coalesce(w.segment, SegmentOf(v));
    }
  }

  lemma {:induction false} KeptThrough(w: Write, others: seq<Write>, u: Option<Row>, v: Option<Row>)
    requires Keeps(w) && SoundWrite(w) && Sound(others) && On(w, u) == On(w, v)
    ensures On(w, Eff(others, Target(w), u)) == On(w, Eff(others, Target(w), v))
    decreases |others|
  {
    if others == [] {
    } else {
      var x := others[0];
      if Target(x) == Target(w) {
        KeptThroughOne(w, x, u, v);
        KeptThrough(w, others[1..], On(x, u), On(x, v));
      } else {
        KeptThrough(w, others[1..], u, v);
      }
    }
  }

  /** How a plan treats one row: not at all, or it overwrites it somewhere, or
      every statement on it is the same keeping upsert. */
  ghost predicate HealsRow(plan: seq<Write>, c: RowKey) {
    || (forall w :: w in plan ==> Target(w) != c)
    || (exists w :: w in plan && Target(w) == c && Overwrites(w))
    || (exists w :: w in plan && Target(w) == c && Keeps(w) && forall x :: x in plan && Target(x) == c ==> x == w)
  }

  ghost predicate SelfHealing(plan: seq<Write>) {
    forall c :: HealsRow(plan, c)
  }

  lemma RowErasure(plan: seq<Write>, k: nat, others: seq<Write>, c: RowKey, v: Option<Row>)
    requires HealsRow(plan, c) && Sound(plan) && Sound(others) && k <= |plan|
    ensures Eff(plan, c, Eff(others, c, Eff(plan[..k], c, v))) == Eff(plan, c, Eff(others, c, v))
  {
    var crashed := Eff(plan[..k], c, v);
    if forall w :: w in plan ==> Target(w) != c {
      EffUntouched(plan[..k], c, v);
    } else if w :| w in plan && Target(w) == c && Overwrites(w) {
      EffOverwritten(plan, c, Eff(others, c, crashed), Eff(others, c, v), w);
    } else {
      var w :| w in plan && Target(w) == c && Keeps(w) && forall x :: x in plan && Target(x) == c ==> x == w;
      EffRepeated(plan[..k], c, v, w);
      EffRepeated([w], c, v, w);
      assert On(w, crashed) == On(w, v) by { EffRepeated([w], c, On(w, v), w); }
      KeptThrough(w, others, crashed, v);
      EffRepeated(plan, c, Eff(others, c, crashed), w);
      EffRepeated(plan, c, Eff(others, c, v), w);
    }
  }

  /** Whatever prefix of a plan ran before the crash, and whatever sound
      statements ran since, running the whole plan leaves the tables as if the
      crashed attempt had never happened. */
  lemma CrashErasure(db: Tables, plan: seq<Write>, k: nat, others: seq<Write>)
    requires SelfHealing(plan) && Sound(plan) && Sound(others) && k <= |plan|
    ensures ApplyAll(ApplyAll(ApplyAll(db, plan[..k]), others), plan) == ApplyAll(ApplyAll(db, others), plan)
  {
    var a, b := ApplyAll(ApplyAll(ApplyAll(db, plan[..k]), others), plan), ApplyAll(ApplyAll(db, others), plan);
    forall c
      ensures Get(a, c) == Get(b, c)
    {
      ApplyAllAt(db, plan[..k], c);
      ApplyAllAt(ApplyAll(db, plan[..k]), others, c);
      ApplyAllAt(ApplyAll(ApplyAll(db, plan[..k]), others), plan, c);
      ApplyAllAt(db, others, c);
      ApplyAllAt(ApplyAll(db, others), plan, c);
      RowErasure(plan, k, others, c, Get(db, c));
    }
    SameEverywhere(a, b);
  }

  lemma RowRedelivery(plan: seq<Write>, k: nat, c: RowKey, v: Option<Row>)
    requires HealsRow(plan, c) && k <= |plan|
    ensures Eff(plan, c, Eff(plan[..k], c, v)) == Eff(plan, c, v)
  {
    if forall w :: w in plan ==> Target(w) != c {
      EffUntouched(plan[..k], c, v);
    } else if w :| w in plan && Target(w) == c && Overwrites(w) {
      EffOverwritten(plan, c, Eff(plan[..k], c, v), v, w);
    } else {
      var w :| w in plan && Target(w) == c && Keeps(w) && forall x :: x in plan && Target(x) == c ==> x == w;
      EffRepeated(plan[..k], c, v, w);
      EffRepeated(plan, c, v, w);
      EffRepeated(plan, c, Eff(plan[..k], c, v), w);
    }
  }

  /** With nothing in between, redelivery heals any crash; no section need be blank. */
  lemma RedeliveryHeals(db: Tables, plan: seq<Write>, k: nat)
    requires SelfHealing(plan) && k <= |plan|
    ensures ApplyAll(ApplyAll(db, plan[..k]), plan) == ApplyAll(db, plan)
  {
    var a, b := ApplyAll(ApplyAll(db, plan[..k]), plan), ApplyAll(db, plan);
    forall c
      ensures Get(a, c) == Get(b, c)
    {
      ApplyAllAt(db, plan[..k], c);
      ApplyAllAt(ApplyAll(db, plan[..k]), plan, c);
      ApplyAllAt(db, plan, c);
      RowRedelivery(plan, k, c, Get(db, c));
    }
    SameEverywhere(a, b);
  }

  // ---------------------------------------------------------------------
  // The handlers' plans are self-healing
  // ---------------------------------------------------------------------

  /** Plans that touch different rows heal independently. */
  lemma HealsRowApart(a: seq<Write>, b: seq<Write>, c: RowKey)
    requires HealsRow(a, c) && HealsRow(b, c)
    requires (forall w :: w in a ==> Target(w) != c) || (forall w :: w in b ==> Target(w) != c)
    ensures HealsRow(a + b, c)
  {
    assert forall w :: w in a + b <==> w in a || w in b;
    if w :| w in a && Target(w) == c && Overwrites(w) {
      assert w in a + b;
    } else if w :| w in b && Target(w) == c && Overwrites(w) {
      assert w in a + b;
    } else if w :| w in a && Target(w) == c && Keeps(w) && forall x :: x in a && Target(x) == c ==> x == w {
      assert w in a + b;
    } else if w :| w in b && Target(w) == c && Keeps(w) && forall x :: x in b && Target(x) == c ==> x == w {
      assert w in a + b;
    }
  }

  lemma OneStatementHeals(w: Write, c: RowKey)
    requires Overwrites(w) || Keeps(w)
    ensures HealsRow([w], c)
  {
    assert w in [w];
  }

  lemma AtMostOneHeals(ws: seq<Write>, c: RowKey)
    requires |ws| <= 1 && forall w :: w in ws ==> Keeps(w)
    ensures HealsRow(ws, c)
    ensures forall w, x :: w in ws && x in ws ==> w == x
  {
    if ws != [] {
      assert ws == [ws[0]];
      OneStatementHeals(ws[0], c);
    }
  }

  lemma EnrichmentHeals(env: Env, e: Option<Enrichment>, c: RowKey)
    ensures HealsRow(EnrichmentPlan(env, e), c)
    ensures forall w :: w in EnrichmentPlan(env, e) ==> Target(w).ArtistKey? || Target(w).SectionKey?
    ensures forall w, x ::
            w in EnrichmentPlan(env, e) && x in EnrichmentPlan(env, e) && Target(w) == Target(x)
            ==> w == x
  {
    hide ImageWrites, BioWrites, TourWrites, HealsRow, ArtistRecord;
    if Applies(e) {
      var key := env.normalize(e.value.artist.value.performer);
      var first := UpsertArtist(key, ArtistRecord(e.value.artist.value));
      var image, bio, tour := ImageWrites(key, e.value.image), BioWrites(key, e.value.bio),
          TourWrites(env, key, e.value.tour);
      SectionWrites(env, key, e.value);
      OneStatementHeals(first, c);
      AtMostOneHeals(image, c);
      AtMostOneHeals(bio, c);
      AtMostOneHeals(tour, c);
      HealsRowApart(bio, tour, c);
      HealsRowApart(image, bio + tour, c);
      HealsRowApart([first], image + (bio + tour), c);
    } else {
      NothingHeals(c);
    }
  }

  lemma DeleteThenInsertsHeal(del: Write, inserts: seq<Write>, c: RowKey)
    requires Overwrites(del) && forall w :: w in inserts ==> Target(w) == Target(del)
    ensures HealsRow([del] + inserts, c)
    ensures forall w :: w in [del] + inserts ==> Target(w) == Target(del)
  {
    assert del in [del] + inserts;
  }

  lemma MessageHeals(env: Env, m: Message, c: RowKey)
    ensures HealsRow(MessagePlan(env, m), c)
  {
    hide EnrichmentPlan, PerformerPlan, GenrePlan, ArtistRecord, HealsRow;
    var src, id := m.sourceId, m.sourceEventId;
    var ps := [DeletePerformers(src, id)] + PerformerPlan(env, src, id, m.performers);
    var gs := [DeleteGenres(src, id)] + GenrePlan(env, src, id, m.genres);
    PerformerTargets(env, src, id, m.performers);
    GenreTargets(env, src, id, m.genres);
    DeleteThenInsertsHeal(DeletePerformers(src, id), PerformerPlan(env, src, id, m.performers), c);
    DeleteThenInsertsHeal(DeleteGenres(src, id), GenrePlan(env, src, id, m.genres), c);
    HealsRowApart(ps, gs, c);
    OneStatementHeals(EventWrite(env, m), c);
    HealsRowApart([EventWrite(env, m)], ps + gs, c);
    OneStatementHeals(VenueWrite(env, m.venue), c);
    HealsRowApart([VenueWrite(env, m.venue)], [EventWrite(env, m)] + (ps + gs), c);
    EnrichmentHeals(env, m.enrichment, c);
    HealsRowApart(EnrichmentPlan(env, m.enrichment), [VenueWrite(env, m.venue)] + ([EventWrite(env, m)] + (ps + gs)),
                  c);
  }

  lemma MessageSections(env: Env, m: Message, w: Write)
    requires w in MessagePlan(env, m) && Target(w).SectionKey?
    ensures w in EnrichmentPlan(env, m.enrichment)
  {
    hide EnrichmentPlan, PerformerPlan, GenrePlan, ArtistRecord;
    PerformerTargets(env, m.sourceId, m.sourceEventId, m.performers);
    GenreTargets(env, m.sourceId, m.sourceEventId, m.genres);
  }

  lemma InterestsHaveNoSections(env: Env, user: string, im: InterestMessage, w: Write)
    requires w in InterestPlan(env, user, im)
    ensures !Target(w).SectionKey?
  {
    hide KindPlan, HealsRow;
    var c := Target(w);
    KindHeals(env, user, "spotify_top_artist", im.topArtists, c);
    KindHeals(env, user, "spotify_top_track_artist", im.trackArtists, c);
    KindHeals(env, user, "spotify_saved_song_artist", im.savedArtists, c);
    KindHeals(env, user, "spotify_top_genre", im.topGenres, c);
  }

  /** Only the enrichment part of a plan writes sections, each one once. */
  lemma SectionOnce(env: Env, body: Body, w: Write, x: Write)
    requires w in BodyPlan(env, body) && x in BodyPlan(env, body) && w.UpsertSection? && Target(x) == Target(w)
    ensures x == w
  {
    hide EnrichmentPlan, MessagePlan, InterestPlan, HealsRow;
    if body.Interests? {
      InterestsHaveNoSections(env, body.user, body.im, w);
    } else {
      var m := Degraded(body);
      MessageSections(env, m, w);
      MessageSections(env, m, x);
      EnrichmentHeals(env, m.enrichment, Target(w));
    }
  }

  lemma KindHeals(env: Env, user: string, kind: string, items: seq<Ranked>, c: RowKey)
    ensures HealsRow(KindPlan(env, user, kind, items), c)
    ensures forall w :: w in KindPlan(env, user, kind, items) ==>
            Target(w) == InterestsKey(user, kind)
            && !w.UpsertSection?
  {
    InsertTargets(env, user, kind, items);
    DeleteThenInsertsHeal(DeleteInterests(user, kind), InsertsPlan(env, user, kind, items), c);
  }

  lemma InterestsHeal(env: Env, user: string, im: InterestMessage, c: RowKey)
    requires !im.onlyEmbed
    ensures HealsRow(InterestPlan(env, user, im), c)
    ensures Sound(InterestPlan(env, user, im))
  {
    hide KindPlan, HealsRow;
    var q1, q2 := KindPlan(env, user, "spotify_top_artist", im.topArtists),
        KindPlan(env, user, "spotify_top_track_artist", im.trackArtists);
    var q3, q4 := KindPlan(env, user, "spotify_saved_song_artist", im.savedArtists),
        KindPlan(env, user, "spotify_top_genre", im.topGenres);
    KindHeals(env, user, "spotify_top_artist", im.topArtists, c);
    KindHeals(env, user, "spotify_top_track_artist", im.trackArtists, c);
    KindHeals(env, user, "spotify_saved_song_artist", im.savedArtists, c);
    KindHeals(env, user, "spotify_top_genre", im.topGenres, c);
    DistinctKinds();
    HealsRowApart(q3, q4, c);
    HealsRowApart(q2, q3 + q4, c);
    HealsRowApart(q1, q2 + (q3 + q4), c);
  }

  lemma BodyHeals(env: Env, body: Body)
    ensures SelfHealing(BodyPlan(env, body))
  {
    hide MessagePlan, InterestPlan, HealsRow;
    forall c
      ensures HealsRow(BodyPlan(env, body), c)
    {
      if !Handleable(env, body) || body.Malformed? || (body.Interests? && body.im.onlyEmbed) {
        NothingHeals(c);
        OnlyEmbedWritesNothing(env, body);
      } else if body.Interests? {
        InterestsHeal(env, body.user, body.im, c);
      } else {
        MessageHeals(env, Degraded(body), c);
      }
    }
  }

  lemma NothingHeals(c: RowKey)
    ensures HealsRow([], c)
  {
  }

  lemma OnlyEmbedWritesNothing(env: Env, body: Body)
    requires !Handleable(env, body) || body.Malformed? || (body.Interests? && body.im.onlyEmbed)
    ensures BodyPlan(env, body) == []
  {
  }

  // ---------------------------------------------------------------------
  // The exact condition
  // ---------------------------------------------------------------------

  ghost predicate Erases(db: Tables, plan: seq<Write>, k: nat, others: seq<Write>)
    requires k <= |plan|
  {
    ApplyAll(ApplyAll(ApplyAll(db, plan[..k]), others), plan) == ApplyAll(ApplyAll(db, others), plan)
  }

  ghost predicate HealsAgainstAnything(plan: seq<Write>) {
    forall db, k: nat, others :: k <= |plan| && Sound(others) ==> Erases(db, plan, k, others)
  }

  /** Redelivery heals every crash of a message, against any sound statements of
      other messages, exactly when the message's own non-ok sections are blank. */
  lemma HealsIffBlank(env: Env, body: Body)
    ensures HealsAgainstAnything(BodyPlan(env, body)) <==> Sound(BodyPlan(env, body))
  {
    hide BodyPlan, HealsRow;
    var plan := BodyPlan(env, body);
    BodyHeals(env, body);
    if Sound(plan) {
      forall db, k: nat, others | k <= |plan| && Sound(others)
        ensures Erases(db, plan, k, others)
      {
        CrashErasure(db, plan, k, others);
      }
    } else {
      var i :| 0 <= i < |plan| && !SoundWrite(plan[i]);
      forall x | x in plan && Target(x) == Target(plan[i])
        ensures x == plan[i]
      {
        SectionOnce(env, body, plan[i], x);
      }
      StalePayloadSurvives(plan, i);
    }
  }

  /** The counterexample: the crashed attempt plants a payload under a failed
      status, and no later failure removes it. */
  lemma StalePayloadSurvives(plan: seq<Write>, i: nat)
    requires i < |plan| && !SoundWrite(plan[i])
    requires forall x :: x in plan && Target(x) == Target(plan[i]) ==> x == plan[i]
    ensures !HealsAgainstAnything(plan)
  {
    var w, c, k := plan[i], Target(plan[i]), i + 1;
    var x := UpsertSection(w.section, w.artistKey, w.status, Blank(w.section), w.reason);
    var db, others := map[], [x];
    var crashed := ApplyAll(db, plan[..k]);
    assert w in plan[..k] by { assert plan[..k][i] == w; }
    EffRepeated(plan[..k], c, None, w);
    EffRepeated(plan, c, On(x, On(w, None)), w);
    EffRepeated(plan, c, On(x, None), w);
    assert others[1..] == [] && Eff(others, c, On(w, None)) == On(x, On(w, None))
        && Eff(others, c, None) == On(x, None);
    ApplyAllAt(db, plan[..k], c);
    ApplyAllAt(crashed, others, c);
    ApplyAllAt(ApplyAll(crashed, others), plan, c);
    ApplyAllAt(db, others, c);
    ApplyAllAt(ApplyAll(db, others), plan, c);
    assert Get(ApplyAll(ApplyAll(crashed, others), plan), c).value.payload == w.payload;
    assert Get(ApplyAll(ApplyAll(db, others), plan), c).value.payload == Blank(w.section);
    assert !Erases(db, plan, k, others);
  }

  // ---------------------------------------------------------------------
  // Delivery histories
  // ---------------------------------------------------------------------

  /** One delivery of a body, of which `ran` statements reached the database; or
      a statement of some other job. Deliveries follow one another. */
  datatype Delivery =
    | Attempt(body: Body, ran: nat)
    | Other(w: Write)

  /** The handler returned nil, so the consumer deleted the message. */
  predicate Complete(env: Env, d: Delivery) {
    d.Attempt? && Handleable(env, d.body) && d.ran >= |BodyPlan(env, d.body)|
  }

  function Effects(env: Env, d: Delivery): seq<Write> {
    match d
    case Other(w) => [w]
    case Attempt(body, ran) =>
      var plan := BodyPlan(env, body);
      if ran < |plan| then plan[..ran] else plan
  }

  function AllEffects(env: Env, history: seq<Delivery>): seq<Write>
    decreases |history|
  {
    if history == [] then [] else Effects(env, history[0]) + AllEffects(env, history[1..])
  }

  function Deliver(env: Env, db: Tables, history: seq<Delivery>): Tables {
    ApplyAll(db, AllEffects(env, history))
  }

  ghost predicate SoundHistory(env: Env, history: seq<Delivery>) {
    forall d :: d in history ==> (d.Other? ==> SoundWrite(d.w)) && (d.Attempt? ==> Sound(BodyPlan(env, d.body)))
  }

  predicate CompletedIn(env: Env, body: Body, history: seq<Delivery>) {
    exists d :: d in history && Complete(env, d) && d.body == body
  }

  /** Each body's last complete attempt, in order of completion; an attempt is
      also kept if its body is never completed later. */
  function Settled(env: Env, history: seq<Delivery>): seq<Delivery>
    decreases |history|
  {
    if history == [] then []
    else if history[0].Attempt? && CompletedIn(env, history[0].body, history[1..]) then Settled(env, history[1..])
    else [history[0]] + Settled(env, history[1..])
  }

  lemma {:induction false} EffectsSound(env: Env, history: seq<Delivery>)
    requires SoundHistory(env, history)
    ensures Sound(AllEffects(env, history))
    decreases |history|
  {
    hide BodyPlan;
    if history == [] {
    } else {
      EffectsSound(env, history[1..]);
    }
  }

  lemma {:induction false} EffectsConcat(env: Env, a: seq<Delivery>, b: seq<Delivery>)
    ensures AllEffects(env, a + b) == AllEffects(env, a) + AllEffects(env, b)
    decreases |a|
  {
    hide Effects;
    if a == [] {
      assert a + b == b;
    } else {
      assert (a + b)[1..] == a[1..] + b;
      EffectsConcat(env, a[1..], b);
    }
  }

  lemma DeliverConcat(env: Env, db: Tables, a: seq<Delivery>, b: seq<Delivery>)
    ensures Deliver(env, db, a + b) == Deliver(env, Deliver(env, db, a), b)
  {
    EffectsConcat(env, a, b);
    ApplyAllConcat(db, AllEffects(env, a), AllEffects(env, b));
  }

  lemma DeliverOne(env: Env, db: Tables, d: Delivery)
    ensures Deliver(env, db, [d]) == ApplyAll(db, Effects(env, d))
  {
    assert [d][1..] == [] && AllEffects(env, [d]) == Effects(env, d) + [];
    assert Effects(env, d) + [] == Effects(env, d);
  }

  /** An attempt whose body completes later leaves no trace. */
  lemma SupersededAttempt(env: Env, db: Tables, d: Delivery, rest: seq<Delivery>)
    requires d.Attempt? && CompletedIn(env, d.body, rest) && SoundHistory(env, [d] + rest)
    ensures Deliver(env, db, [d] + rest) == Deliver(env, db, rest)
  {
    hide BodyPlan, SelfHealing;
    var done :| done in rest && Complete(env, done) && done.body == d.body;
    var i :| 0 <= i < |rest| && rest[i] == done;
    var before, after, plan := rest[..i], rest[i + 1..], BodyPlan(env, d.body);
    assert rest == before + ([done] + after);
    forall x | x in before
      ensures x in [d] + rest
    {
    }
    assert d in [d] + rest;
    EffectsSound(env, before);
    BodyHeals(env, d.body);
    var k := if d.ran < |plan| then d.ran else |plan|;
    assert Effects(env, d) == plan[..k];
    CrashErasure(db, plan, k, AllEffects(env, before));
    var mid := ApplyAll(db, plan[..k]);
    DeliverOne(env, db, d);
    DeliverConcat(env, db, [d], rest);
    DeliverConcat(env, mid, before, [done] + after);
    DeliverConcat(env, Deliver(env, mid, before), [done], after);
    DeliverOne(env, Deliver(env, mid, before), done);
    DeliverConcat(env, db, before, [done] + after);
    DeliverConcat(env, Deliver(env, db, before), [done], after);
    DeliverOne(env, Deliver(env, db, before), done);
  }

  /** At-least-once delivery is handling each message once: a history with any
      crashes, redeliveries, repeats and other jobs' statements leaves the same
      tables as the settled history. */
  lemma {:induction false} DeliveryIsOncePerMessage(env: Env, db: Tables, history: seq<Delivery>)
    requires SoundHistory(env, history)
    ensures Deliver(env, db, history) == Deliver(env, db, Settled(env, history))
    decreases |history|
  {
    hide Deliver, BodyPlan, Complete;
    if history != [] {
      var d, rest := history[0], history[1..];
      assert history == [d] + rest;
      if d.Attempt? && CompletedIn(env, d.body, rest) {
        SupersededAttempt(env, db, d, rest);
        DeliveryIsOncePerMessage(env, db, rest);
      } else {
        DeliverConcat(env, db, [d], rest);
        DeliveryIsOncePerMessage(env, Deliver(env, db, [d]), rest);
        DeliverConcat(env, db, [d], Settled(env, rest));
      }
    } else {
      assert Settled(env, history) == history;
    }
  }

  lemma {:induction false} SettledIsPart(env: Env, history: seq<Delivery>)
    ensures forall d :: d in Settled(env, history) ==> d in history
    decreases |history|
  {
    if history == [] {
    } else {
      SettledIsPart(env, history[1..]);
    }
  }

  /** The queue has drained: every attempt completed or its body did later. */
  ghost predicate Drained(env: Env, history: seq<Delivery>)
    decreases |history|
  {
    history != [] ==>
      && (history[0].Attempt? ==> Complete(env, history[0]) || CompletedIn(env, history[0].body, history[1..]))
      && Drained(env, history[1..])
  }

  ghost predicate AttemptsEachOnce(env: Env, settled: seq<Delivery>) {
    && (forall d :: d in settled && d.Attempt? ==> Complete(env, d))
    && (forall i, j ::
        0 <= i < j < |settled| && settled[i].Attempt? && settled[j].Attempt?
        ==> settled[i].body != settled[j].body)
  }

  lemma {:induction false} SettledCompletes(env: Env, history: seq<Delivery>)
    requires Drained(env, history)
    ensures forall d :: d in Settled(env, history) && d.Attempt? ==> Complete(env, d)
    decreases |history|
  {
    hide BodyPlan;
    if history == [] {
    } else {
      SettledCompletes(env, history[1..]);
    }
  }

  /** Then the settled history attempts each body exactly once, to completion. */
  lemma {:induction false} DrainedSettlesToOnceEach(env: Env, history: seq<Delivery>)
    requires Drained(env, history)
    ensures AttemptsEachOnce(env, Settled(env, history))
    decreases |history|
  {
    hide BodyPlan;
    SettledCompletes(env, history);
    if history == [] {
    } else {
      var d, rest := history[0], history[1..];
      DrainedSettlesToOnceEach(env, rest);
      SettledIsPart(env, rest);
      if d.Attempt? && !CompletedIn(env, d.body, rest) {
        var settled := Settled(env, rest);
        forall j | 0 <= j < |settled| && settled[j].Attempt?
          ensures settled[j].body != d.body
        {
          assert settled[j] in settled && settled[j] in rest;
        }
      }
    }
  }

  /** Nothing is lost: every body that was ever attempted is attempted there. */
  lemma {:induction false} SettledCoversAll(env: Env, history: seq<Delivery>, d: Delivery) returns (x: Delivery)
    requires d in history && d.Attempt?
    ensures x in Settled(env, history) && x.Attempt? && x.body == d.body
    decreases |history|
  {
    hide BodyPlan;
    var first, rest := history[0], history[1..];
    if first.Attempt? && first.body == d.body {
      if CompletedIn(env, d.body, rest) {
        var done :| done in rest && Complete(env, done) && done.body == d.body;
        x := SettledCoversAll(env, rest, done);
      } else {
        x := first;
      }
    } else {
      assert d in rest;
      x := SettledCoversAll(env, rest, d);
    }
  }

  /** The consumer's guarantee, end to end: once the queue has drained, the
      tables are those of handling every message exactly once, uninterrupted. */
  lemma DrainedQueueHandledOnce(env: Env, db: Tables, history: seq<Delivery>)
    requires SoundHistory(env, history) && Drained(env, history)
    ensures AttemptsEachOnce(env, Settled(env, history))
    ensures forall d :: d in history && d.Attempt? ==> exists x ::
            x in Settled(env, history) && x.Attempt?
            && x.body == d.body
    ensures Deliver(env, db, history) == Deliver(env, db, Settled(env, history))
  {
    DeliveryIsOncePerMessage(env, db, history);
    DrainedSettlesToOnceEach(env, history);
    forall d | d in history && d.Attempt?
      ensures exists x :: x in Settled(env, history) && x.Attempt? && x.body == d.body
    {
      var _ := SettledCoversAll(env, history, d);
    }
  }

  /** handleOne: the message is deleted only after the handler succeeded. This
      ties the handlers' loops to the histories above. */
  method HandleOne(db: Database, env: Env, body: Body, deleteSucceeds: bool) returns (deleted: bool)
    modifies db
    ensures db.rows == Deliver(env, old(db.rows), [Attempt(body, old(db.budget))])
    ensures deleted <==> deleteSucceeds && Complete(env, Attempt(body, old(db.budget)))
    ensures deleted ==> BodyStored(env, body, old(db.rows), db.rows)
  {
    hide BodyPlan, BodyStored;
    DeliverOne(env, db.rows, Attempt(body, db.budget));
    UnhandleableWritesNothing(env, body);
    ghost var plan := BodyPlan(env, body);
    assert plan[..|plan|] == plan;
    var ok := Handle(db, env, body);
    if !ok {
      return false;
    }
    return deleteSucceeds;
  }

  lemma UnhandleableWritesNothing(env: Env, body: Body)
    ensures !Handleable(env, body) ==> BodyPlan(env, body) == []
  {
  }

  // ---------------------------------------------------------------------
  // What the guarded columns hold after any history of upserts
  // ---------------------------------------------------------------------

  /** Index of the last 'ok' among the first n section upserts, or -1. */
  function LastOk(ws: seq<Write>, n: nat): (r: int)
    requires n <= |ws| && forall w :: w in ws ==> w.UpsertSection?
    ensures -1 <= r < n
    ensures r >= 0 ==> ws[r].status == "ok"
    ensures forall j :: r < j < n ==> ws[j].status != "ok"
  {
    if n == 0 then -1 else if ws[n - 1].status == "ok" then n - 1 else LastOk(ws, n - 1)
  }

  /** The stored payload is that of the most recent 'ok' upsert, or of the first
      upsert if none was ok; status and reason are always the latest. */
  lemma {:induction false} SectionHistory(ws: seq<Write>, c: RowKey, n: nat)
    requires 0 < n <= |ws| && forall w :: w in ws ==> w.UpsertSection? && Target(w) == c
    ensures var good := LastOk(ws, n);
            Eff(ws[..n], c, None) ==
            Some(SectionRow(ws[n - 1].status, ws[if good >= 0 then good else 0].payload, ws[n - 1].reason))
  {
    EffSnoc(ws[..n - 1], ws[n - 1], c, None);
    assert ws[..n] == ws[..n - 1] + [ws[n - 1]];
    if n == 1 {
    } else {
      SectionHistory(ws, c, n - 1);
    }
  }

  /** The last value that was not NULL among the first n. */
  function LastSome(vs: seq<Option<string>>, n: nat): (r: Option<string>)
    requires n <= |vs|
    ensures r.None? ==> forall j :: 0 <= j < n ==> vs[j].None?
    ensures r.Some? ==> exists j :: 0 <= j < n && vs[j] == r && forall i :: j < i < n ==> vs[i].None?
  {
    if n == 0 then None else if vs[n - 1].Some? then vs[n - 1] else LastSome(vs, n - 1)
  }

  /** Over any history of event upserts the headline artist and the segment are
      the most recent non-NULL ones sent, every other column the latest sent. */
  lemma {:induction false} EventHistory(ws: seq<Write>, c: RowKey, n: nat)
    requires 0 < n <= |ws| && forall w :: w in ws ==> w.UpsertEvent? && Target(w) == c
    ensures var headlines := seq(|ws|, i requires 0 <= i < |ws| => ws[i].headline);
            var segments := seq(|ws|, i requires 0 <= i < |ws| => ws[i].segment);
            Eff(ws[..n], c, None) == Some(EventRow(ws[n - 1].fields, LastSome(headlines, n), LastSome(segments, n),
                                                   false))
  {
    EffSnoc(ws[..n - 1], ws[n - 1], c, None);
    assert ws[..n] == ws[..n - 1] + [ws[n - 1]];
    if n == 1 {
    } else {
      EventHistory(ws, c, n - 1);
    }
  }
}
