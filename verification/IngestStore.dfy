/** The tables the two ingest consumers write, and what each SQL statement does
    to them.

    A row is addressed by its table and natural key (the UNIQUE column or columns
    the ON CONFLICT clause names). The performers and genres of one event, and
    the interests of one user and kind, are addressed as a group, because the
    code only ever deletes them as a group. Timestamps are left out. */
module IngestStore {
  import opened Common

  datatype Section = Image | Bio | Tour

  /** What a section row stores beside status and reason. JSON columns are text. */
  datatype Payload =
    | ImagePayload(url: Option<string>, width: Option<int>, height: Option<int>, file: Option<string>,
                   source: Option<string>, credit: Option<string>)
    | BioPayload(bioMd: Option<string>, sources: string, model: Option<string>)
    | TourPayload(tourName: Option<string>, songs: string, observedDate: Option<int>, observedVenue: Option<string>,
                  observedCity: Option<string>, setlistUrl: Option<string>, blurb: Option<string>,
                  blurbModel: Option<string>)

  function Blank(s: Section): Payload {
    match s
    case Image => ImagePayload(None, None, None, None, None, None)
    case Bio => BioPayload(None, "[]", None)
    case Tour => TourPayload(None, "[]", None, None, None, None, None, None)
  }

  datatype Artist = Artist(displayName: string, mbid: Option<string>, disambiguation: Option<string>,
                           artistType: Option<string>,
                           country: Option<string>, beginYear: Option<string>, status: string)

  datatype Venue = Venue(name: string, address: Option<string>, lat: Option<real>, lng: Option<real>,
                         websiteUrl: Option<string>)

  /** The columns every upsert of an event overwrites. */
  datatype EventFields = EventFields(title: string, description: string, startsAt: int, endsAt: Option<int>,
                                     timeTbd: bool,
                                     venue: RowKey, imageUrl: Option<string>, url: Option<string>)

  datatype Interest = Interest(value: string, weight: real)

  datatype RowKey =
    | ArtistKey(nameKey: string)
    | SectionKey(section: Section, artist: string)
    | VenueKey(city: string, normalizedName: string)
    | EventKey(source: string, sourceEventId: string)
    | PerformersKey(source: string, sourceEventId: string)
    | GenresKey(source: string, sourceEventId: string)
    | InterestsKey(user: string, kind: string)

  datatype Row =
    | ArtistRow(artist: Artist)
    | SectionRow(status: string, payload: Payload, reason: Option<string>)
    | VenueRow(venue: Venue)
    | EventRow(fields: EventFields, headline: Option<string>, segment: Option<string>, archived: bool)
    | PerformerRows(nameByNormalized: map<string, string>)
    | GenreRows(slugs: set<string>)
    | InterestRows(byNormalized: map<string, Interest>)

  type Tables = map<RowKey, Row>

  /** One SQL statement with its parameters. ArchiveEvent stands for the other
      jobs that set events.archived_at. */
  datatype Write =
    | UpsertArtist(nameKey: string, artist: Artist)
    | UpsertSection(section: Section, artistKey: string, status: string, payload: Payload, reason: Option<string>)
    | UpsertVenue(city: string, normalizedName: string, venue: Venue)
    | UpsertEvent(source: string, sourceEventId: string, fields: EventFields, headline: Option<string>,
                  segment: Option<string>)
    | DeletePerformers(source: string, sourceEventId: string)
    | InsertPerformer(source: string, sourceEventId: string, name: string, normalized: string)
    | DeleteGenres(source: string, sourceEventId: string)
    | InsertGenre(source: string, sourceEventId: string, slug: string)
    | ArchiveEvent(source: string, sourceEventId: string)
    | DeleteInterests(user: string, kind: string)
    | InsertInterest(user: string, kind: string, value: string, normalized: string, weight: real)

  function Target(w: Write): RowKey {
    match w
    case UpsertArtist(k, _) => ArtistKey(k)
    case UpsertSection(s, a, _, _, _) => SectionKey(s, a)
    case UpsertVenue(c, n, _) => VenueKey(c, n)
    case UpsertEvent(s, i, _, _, _) => EventKey(s, i)
    case ArchiveEvent(s, i) => EventKey(s, i)
    case DeletePerformers(s, i) => PerformersKey(s, i)
    case InsertPerformer(s, i, _, _) => PerformersKey(s, i)
    case DeleteGenres(s, i) => GenresKey(s, i)
    case InsertGenre(s, i, _) => GenresKey(s, i)
    case DeleteInterests(u, k) => InterestsKey(u, k)
    case InsertInterest(u, k, _, _, _) => InterestsKey(u, k)
  }

  function Coalesce<T>(a: Option<T>, b: Option<T>): Option<T> {
    if a.Some? then a else b
  }

  function HeadlineOf(was: Option<Row>): Option<string> {
    if was.Some? && was.value.EventRow? then was.value.headline else None
  }

  function SegmentOf(was: Option<Row>): Option<string> {
    if was.Some? && was.value.EventRow? then was.value.segment else None
  }

  function PayloadOf(was: Option<Row>, otherwise: Payload): Payload {
    if was.Some? && was.value.SectionRow? then was.value.payload else otherwise
  }

  function PerformersOf(was: Option<Row>): map<string, string> {
    if was.Some? && was.value.PerformerRows? then was.value.nameByNormalized else map[]
  }

  function GenresOf(was: Option<Row>): set<string> {
    if was.Some? && was.value.GenreRows? then was.value.slugs else {}
  }

  function InterestsOf(was: Option<Row>): map<string, Interest> {
    if was.Some? && was.value.InterestRows? then was.value.byNormalized else map[]
  }

  /** The row after the statement, given the row before it. */
  function On(w: Write, was: Option<Row>): Option<Row> {
    match w
    case UpsertArtist(_, artist) => Some(ArtistRow(artist))
    case UpsertSection(_, _, status, payload, reason) =>
      Some(SectionRow(status, if status == "ok" then payload else PayloadOf(was, payload), reason))
    case UpsertVenue(_, _, venue) => Some(VenueRow(venue))
    case UpsertEvent(_, _, fields, headline, segment) =>
      Some(EventRow(fields, Coalesce(headline, HeadlineOf(was)), Coalesce(segment, SegmentOf(was)), false))
    case ArchiveEvent(_, _) =>
      if was.Some? && was.value.EventRow? then Some(was.value.(archived := true)) else was
    case DeletePerformers(_, _) => Some(PerformerRows(map[]))
    case InsertPerformer(_, _, name, normalized) =>
      var rows := PerformersOf(was);
      Some(PerformerRows(if normalized in rows then rows else rows[normalized := name]))
    case DeleteGenres(_, _) => Some(GenreRows({}))
    case InsertGenre(_, _, slug) => Some(GenreRows(GenresOf(was) + {slug}))
    case DeleteInterests(_, _) => Some(InterestRows(map[]))
    case InsertInterest(_, _, value, normalized, weight) =>
      Some(InterestRows(InterestsOf(was)[normalized := Interest(value, weight)]))
  }

  function Get(db: Tables, k: RowKey): Option<Row> {
    if k in db then Some(db[k]) else None
  }

  function Apply(db: Tables, w: Write): Tables {
    match On(w, Get(db, Target(w)))
    case None => db
    case Some(row) => db[Target(w) := row]
  }

  function ApplyAll(db: Tables, ws: seq<Write>): Tables
    decreases |ws|
  {
    if ws == [] then db else ApplyAll(Apply(db, ws[0]), ws[1..])
  }

  lemma {:induction false} ApplyAllConcat(db: Tables, a: seq<Write>, b: seq<Write>)
    ensures ApplyAll(db, a + b) == ApplyAll(ApplyAll(db, a), b)
    decreases |a|
  {
    if a == [] {
      assert a + b == b;
    } else {
      assert (a + b)[1..] == a[1..] + b;
      ApplyAllConcat(Apply(db, a[0]), a[1..], b);
    }
  }

  // ---------------------------------------------------------------------
  // One row at a time
  // ---------------------------------------------------------------------

  /** The effect of a list of statements on the row c alone. */
  function Eff(ws: seq<Write>, c: RowKey, v: Option<Row>): Option<Row>
    decreases |ws|
  {
    if ws == [] then v else Eff(ws[1..], c, if Target(ws[0]) == c then On(ws[0], v) else v)
  }

  lemma {:induction false} ApplyAllAt(db: Tables, ws: seq<Write>, c: RowKey)
    ensures Get(ApplyAll(db, ws), c) == Eff(ws, c, Get(db, c))
    decreases |ws|
  {
    if ws == [] {
    } else {
      ApplyAllAt(Apply(db, ws[0]), ws[1..], c);
    }
  }

  lemma {:induction false} EffUntouched(ws: seq<Write>, c: RowKey, v: Option<Row>)
    requires forall w :: w in ws ==> Target(w) != c
    ensures Eff(ws, c, v) == v
    decreases |ws|
  {
    if ws == [] {
    } else {
      EffUntouched(ws[1..], c, v);
    }
  }

  lemma {:induction false} EffConcat(a: seq<Write>, b: seq<Write>, c: RowKey, v: Option<Row>)
    ensures Eff(a + b, c, v) == Eff(b, c, Eff(a, c, v))
    decreases |a|
  {
    hide On;
    if a == [] {
      assert a + b == b;
    } else {
      assert (a + b)[1..] == a[1..] + b;
      EffConcat(a[1..], b, c, if Target(a[0]) == c then On(a[0], v) else v);
    }
  }

  lemma {:induction false} EffSnoc(ws: seq<Write>, w: Write, c: RowKey, v: Option<Row>)
    ensures Eff(ws + [w], c, v) == if Target(w) == c then On(w, Eff(ws, c, v)) else Eff(ws, c, v)
    decreases |ws|
  {
    hide On;
    if ws != [] {
      assert (ws + [w])[1..] == ws[1..] + [w];
      EffSnoc(ws[1..], w, c, if Target(ws[0]) == c then On(ws[0], v) else v);
    } else {
      assert ws + [w] == [w] && [w][1..] == [];
    }
  }

  /** The plan was started on tables r0 with b0 statements left to live: it ran
      as far as it could, and ok says whether that was all of it. */
  ghost predicate Ran(r0: Tables, b0: nat, plan: seq<Write>, r1: Tables, b1: int, ok: bool) {
    var n := if b0 < |plan| then b0 else |plan|;
    ok == (b0 >= |plan|) && r1 == ApplyAll(r0, plan[..n]) && b1 == b0 - n
  }

  lemma RanThen(r0: Tables, b0: nat, p: seq<Write>, r1: Tables, b1: nat, q: seq<Write>, r2: Tables, b2: int, ok: bool)
    requires Ran(r0, b0, p, r1, b1, true) && Ran(r1, b1, q, r2, b2, ok)
    ensures Ran(r0, b0, p + q, r2, b2, ok)
  {
    hide Apply;
    var n := if b1 < |q| then b1 else |q|;
    assert p[..|p|] == p && (p + q)[..|p| + n] == p + q[..n];
    ApplyAllConcat(r0, p, q[..n]);
  }

  lemma RanShort(r0: Tables, b0: nat, p: seq<Write>, r1: Tables, b1: int, plan: seq<Write>)
    requires Ran(r0, b0, p, r1, b1, false) && p <= plan
    ensures Ran(r0, b0, plan, r1, b1, false)
  {
    assert plan[..b0] == p[..b0];
  }

  lemma RanOne(r0: Tables, b0: nat, w: Write)
    ensures b0 > 0 ==> Ran(r0, b0, [w], Apply(r0, w), b0 - 1, true)
    ensures b0 == 0 ==> Ran(r0, b0, [w], r0, b0, false)
  {
    assert [w][..1] == [w] && [w][1..] == [];
  }

  /** The statements of one connection. `budget` is how many more of them reach
      the database before the process dies or the deadline passes; once it is
      spent every statement fails and changes nothing. */
  class Database {
    var rows: Tables
    var budget: nat

    constructor (rows: Tables, budget: nat)
      ensures this.rows == rows && this.budget == budget
    {
      this.rows, this.budget := rows, budget;
    }

    method ExecArtist(nameKey: string, artist: Artist) returns (ok: bool)
      modifies this
      ensures Ran(old(rows), old(budget), [UpsertArtist(nameKey, artist)], rows, budget, ok)
    {
      RanOne(rows, budget, UpsertArtist(nameKey, artist));
      if budget == 0 { return false; }
      rows := rows[ArtistKey(nameKey) := ArtistRow(artist)];
      budget := budget - 1;
      return true;
    }

    /** ON CONFLICT: status and reason always move, the payload only on 'ok'. */
    method ExecSection(section: Section, artistKey: string, status: string, payload: Payload, reason: Option<string>)
        returns (ok: bool)
      modifies this
      ensures Ran(old(rows), old(budget), [UpsertSection(section, artistKey, status, payload, reason)], rows, budget,
                  ok)
    {
      RanOne(rows, budget, UpsertSection(section, artistKey, status, payload, reason));
      if budget == 0 { return false; }
      var key := SectionKey(section, artistKey);
      if key in rows && rows[key].SectionRow? {
        var row := rows[key].(status := status, reason := reason);
        if status == "ok" {
          row := row.(payload := payload);
        }
        rows := rows[key := row];
      } else {
        rows := rows[key := SectionRow(status, payload, reason)];
      }
      budget := budget - 1;
      return true;
    }

    method ExecVenue(city: string, normalizedName: string, venue: Venue) returns (ok: bool)
      modifies this
      ensures Ran(old(rows), old(budget), [UpsertVenue(city, normalizedName, venue)], rows, budget, ok)
    {
      RanOne(rows, budget, UpsertVenue(city, normalizedName, venue));
      if budget == 0 { return false; }
      rows := rows[VenueKey(city, normalizedName) := VenueRow(venue)];
      budget := budget - 1;
      return true;
    }

    /** ON CONFLICT: headline artist and segment keep the stored value when the
        new one is NULL; the event comes back from the archive. */
    method ExecEvent(source: string, sourceEventId: string, fields: EventFields, headline: Option<string>,
                     segment: Option<string>) returns (ok: bool)
      modifies this
      ensures Ran(old(rows), old(budget), [UpsertEvent(source, sourceEventId, fields, headline, segment)], rows,
                  budget, ok)
    {
      RanOne(rows, budget, UpsertEvent(source, sourceEventId, fields, headline, segment));
      if budget == 0 { return false; }
      var key := EventKey(source, sourceEventId);
      var h, s := headline, segment;
      if key in rows && rows[key].EventRow? {
        if h.None? { h := rows[key].headline; }
        if s.None? { s := rows[key].segment; }
      }
      rows := rows[key := EventRow(fields, h, s, false)];
      budget := budget - 1;
      return true;
    }

    method ExecDeletePerformers(source: string, sourceEventId: string) returns (ok: bool)
      modifies this
      ensures Ran(old(rows), old(budget), [DeletePerformers(source, sourceEventId)], rows, budget, ok)
    {
      RanOne(rows, budget, DeletePerformers(source, sourceEventId));
      if budget == 0 { return false; }
      rows := rows[PerformersKey(source, sourceEventId) := PerformerRows(map[])];
      budget := budget - 1;
      return true;
    }

    /** ON CONFLICT DO NOTHING. */
    method ExecPerformer(source: string, sourceEventId: string, name: string, normalized: string) returns (ok: bool)
      modifies this
      ensures Ran(old(rows), old(budget), [InsertPerformer(source, sourceEventId, name, normalized)], rows, budget, ok)
    {
      RanOne(rows, budget, InsertPerformer(source, sourceEventId, name, normalized));
      if budget == 0 { return false; }
      var key := PerformersKey(source, sourceEventId);
      var names := PerformersOf(Get(rows, key));
      if normalized !in names {
        names := names[normalized := name];
      }
      rows := rows[key := PerformerRows(names)];
      budget := budget - 1;
      return true;
    }

    method ExecDeleteGenres(source: string, sourceEventId: string) returns (ok: bool)
      modifies this
      ensures Ran(old(rows), old(budget), [DeleteGenres(source, sourceEventId)], rows, budget, ok)
    {
      RanOne(rows, budget, DeleteGenres(source, sourceEventId));
      if budget == 0 { return false; }
      rows := rows[GenresKey(source, sourceEventId) := GenreRows({})];
      budget := budget - 1;
      return true;
    }

    method ExecGenre(source: string, sourceEventId: string, slug: string) returns (ok: bool)
      modifies this
      ensures Ran(old(rows), old(budget), [InsertGenre(source, sourceEventId, slug)], rows, budget, ok)
    {
      RanOne(rows, budget, InsertGenre(source, sourceEventId, slug));
      if budget == 0 { return false; }
      var key := GenresKey(source, sourceEventId);
      rows := rows[key := GenreRows(GenresOf(Get(rows, key)) + {slug})];
      budget := budget - 1;
      return true;
    }

    method ExecDeleteInterests(user: string, kind: string) returns (ok: bool)
      modifies this
      ensures Ran(old(rows), old(budget), [DeleteInterests(user, kind)], rows, budget, ok)
    {
      RanOne(rows, budget, DeleteInterests(user, kind));
      if budget == 0 { return false; }
      rows := rows[InterestsKey(user, kind) := InterestRows(map[])];
      budget := budget - 1;
      return true;
    }

    /** ON CONFLICT DO UPDATE: the later duplicate wins. */
    method ExecInterest(user: string, kind: string, value: string, normalized: string, weight: real) returns (ok: bool)
      modifies this
      ensures Ran(old(rows), old(budget), [InsertInterest(user, kind, value, normalized, weight)], rows, budget, ok)
    {
      RanOne(rows, budget, InsertInterest(user, kind, value, normalized, weight));
      if budget == 0 { return false; }
      var key := InterestsKey(user, kind);
      rows := rows[key := InterestRows(InterestsOf(Get(rows, key))[normalized := Interest(value, weight)])];
      budget := budget - 1;
      return true;
    }
  }
}
