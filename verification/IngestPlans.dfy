/** The statements a message stands for, in order, as the two handlers of
    internal/ingest issue them. */
module IngestPlans {
  import opened Common
  import opened IngestStore

  /** What a handler reads but never writes: its city, the event sources and
      genre slugs on file, and the text functions it calls. */
  datatype Env = Env(city: string, sources: set<string>, genres: set<string>,
                     normalize: string -> string, normalizeGenre: string -> string, parseDate: string -> Option<int>)

  datatype ArtistInfo = ArtistInfo(performer: string, displayName: string, mbid: string, disambiguation: string,
                                   kind: string, country: string, beginYear: string, status: string)
  /** credit, sources and songs are the marshalled JSON; None is a nil pointer or slice. */
  datatype ImageInfo = ImageInfo(status: string, url: string, width: int, height: int, file: string, source: string,
                                 credit: Option<string>, reason: string)
  datatype BioInfo = BioInfo(status: string, bioMd: string, sources: Option<string>, model: string, reason: string)
  datatype TourInfo = TourInfo(status: string, tourName: string, songs: Option<string>, observedDate: string,
                               observedVenue: string,
                               observedCity: string, setlistUrl: string, blurb: string, blurbModel: string,
                               reason: string)
  datatype Enrichment = Enrichment(artist: Option<ArtistInfo>, image: Option<ImageInfo>, bio: Option<BioInfo>,
                                   tour: Option<TourInfo>)

  datatype VenueInfo = VenueInfo(name: string, address: string, lat: Option<real>, lng: Option<real>,
                                 websiteUrl: string)
  datatype Message = Message(sourceId: string, sourceEventId: string, title: string, description: string, startsAt: int,
                             endsAt: Option<int>, timeTbd: bool, venue: VenueInfo, segment: string,
                             performers: seq<string>,
                             genres: seq<string>, imageUrl: string, url: string, enrichment: Option<Enrichment>)

  datatype Ranked = Ranked(name: string, rank: int)
  datatype InterestMessage = InterestMessage(onlyEmbed: bool, topArtists: seq<Ranked>, trackArtists: seq<Ranked>,
                                             savedArtists: seq<Ranked>, topGenres: seq<Ranked>)

  /** An SQS body as json.Unmarshal leaves it. */
  datatype Body =
    | Enriched(m: Message)
    | PlainOnly(m: Message)
    | Interests(user: string, im: InterestMessage)
    | Malformed

  function OptString(s: string): Option<string> {
    if s == "" then None else Some(s)
  }

  /** int32(v), with Go's wrap-around; zero is absent. */
  function OptInt32(v: int): Option<int> {
    if v == 0 then None else Some((v + 0x8000_0000) % 0x1_0000_0000 - 0x8000_0000)
  }

  predicate ValidStatus(s: string) {
    s == "ok" || s == "none" || s == "error"
  }

  // ---------------------------------------------------------------------
  // The statements a message stands for
  // ---------------------------------------------------------------------

  function ImageWrites(key: string, image: Option<ImageInfo>): seq<Write> {
    match image
    case None => []
    case Some(i) =>
      if !ValidStatus(i.status) then []
      else
        [UpsertSection(Image, key, i.status,
                       ImagePayload(OptString(i.url), OptInt32(i.width), OptInt32(i.height), OptString(i.file),
                                    OptString(i.source), i.credit),
                       OptString(i.reason))]
  }

  function BioWrites(key: string, bio: Option<BioInfo>): seq<Write> {
    match bio
    case None => []
    case Some(b) =>
      if !ValidStatus(b.status) then []
      else
        [UpsertSection(Bio, key, b.status,
                       BioPayload(OptString(b.bioMd), if b.sources.None? then "[]" else b.sources.value,
                                  OptString(b.model)),
                       OptString(b.reason))]
  }

  /** parseObservedDate: empty is absent; None when the date does not parse. */
  function ObservedDate(env: Env, s: string): Option<Option<int>> {
    if s == "" then Some(None)
    else match env.parseDate(s)
      case None => None
      case Some(d) => Some(Some(d))
  }

  function TourWrites(env: Env, key: string, tour: Option<TourInfo>): seq<Write> {
    match tour
    case None => []
    case Some(t) =>
      var observed := ObservedDate(env, t.observedDate);
      if !ValidStatus(t.status) || observed.None? then []
      else
        [UpsertSection(Tour, key, t.status,
                       TourPayload(OptString(t.tourName), if t.songs.None? then "[]" else t.songs.value, observed.value,
                                   OptString(t.observedVenue), OptString(t.observedCity), OptString(t.setlistUrl),
                                   OptString(t.blurb), OptString(t.blurbModel)),
                       OptString(t.reason))]
  }

  predicate Applies(e: Option<Enrichment>) {
    e.Some? && e.value.artist.Some? && (e.value.artist.value.status == "ok"
                                        || e.value.artist.value.status == "not_found")
  }

  function ArtistRecord(a: ArtistInfo): Artist {
    Artist(if a.displayName == "" then a.performer else a.displayName, OptString(a.mbid), OptString(a.disambiguation),
           OptString(a.kind), OptString(a.country), OptString(a.beginYear), a.status)
  }

  /** The artist comes first: events.headline_artist_id refers to it. */
  function EnrichmentPlan(env: Env, e: Option<Enrichment>): seq<Write> {
    if !Applies(e) then []
    else
      var a := e.value.artist.value;
      var key := env.normalize(a.performer);
      [UpsertArtist(key, ArtistRecord(a))]
      + (ImageWrites(key, e.value.image) + (BioWrites(key, e.value.bio) + TourWrites(env, key, e.value.tour)))
  }

  function HeadlineKey(env: Env, e: Option<Enrichment>): Option<string> {
    if !Applies(e) then None else Some(env.normalize(e.value.artist.value.performer))
  }

  function PerformerWrites(env: Env, src: string, id: string, p: string): seq<Write> {
    if p == "" then [] else [InsertPerformer(src, id, p, env.normalize(p))]
  }

  function PerformerPlan(env: Env, src: string, id: string, ps: seq<string>): seq<Write>
    decreases |ps|
  {
    if ps == [] then []
    else PerformerPlan(env, src, id, ps[..|ps| - 1]) + PerformerWrites(env, src, id, ps[|ps| - 1])
  }

  /** The alias, or the tag itself in case it already is a slug. */
  function GenreSlug(env: Env, g: string): string {
    if env.normalizeGenre(g) == "" then g else env.normalizeGenre(g)
  }

  function GenreWrites(env: Env, src: string, id: string, g: string): seq<Write> {
    if GenreSlug(env, g) in env.genres then [InsertGenre(src, id, GenreSlug(env, g))] else []
  }

  function GenrePlan(env: Env, src: string, id: string, gs: seq<string>): seq<Write>
    decreases |gs|
  {
    if gs == [] then []
    else GenrePlan(env, src, id, gs[..|gs| - 1]) + GenreWrites(env, src, id, gs[|gs| - 1])
  }

  function VenueWrite(env: Env, v: VenueInfo): Write {
    UpsertVenue(env.city, env.normalize(v.name), Venue(v.name, OptString(v.address), v.lat, v.lng,
                                                       OptString(v.websiteUrl)))
  }

  function EventWrite(env: Env, m: Message): Write {
    UpsertEvent(m.sourceId, m.sourceEventId,
                EventFields(m.title, m.description, m.startsAt, m.endsAt, m.timeTbd, Target(VenueWrite(env, m.venue)),
                            OptString(m.imageUrl), OptString(m.url)),
                HeadlineKey(env, m.enrichment), OptString(m.segment))
  }

  function AssociationPlan(env: Env, m: Message): seq<Write> {
    ([DeletePerformers(m.sourceId, m.sourceEventId)] + PerformerPlan(env, m.sourceId, m.sourceEventId, m.performers))
    + ([DeleteGenres(m.sourceId, m.sourceEventId)] + GenrePlan(env, m.sourceId, m.sourceEventId, m.genres))
  }

  function MessagePlan(env: Env, m: Message): seq<Write> {
    EnrichmentPlan(env, m.enrichment) + ([VenueWrite(env, m.venue)] + ([EventWrite(env, m)] + AssociationPlan(env, m)))
  }

  /** rank 1 -> 1.0, down to 0.6 at rank 50, then flat. */
  function RankWeight(rank: int): real {
    if rank <= 1 then 1.0
    else
      var w := 1.0 - (rank - 1) as real * 0.4 / 49.0;
      if w < 0.6 then 0.6 else w
  }

  /** rank 1 -> 1.0, 0.02 less per rank, never below 0.1. */
  function RankGenreWeight(rank: int): real {
    var w := 1.0 - (rank - 1) as real * 0.02;
    if w < 0.1 then 0.1 else w
  }

  function KindWeight(kind: string, rank: int): real {
    if kind == "spotify_top_genre" then RankGenreWeight(rank) else RankWeight(rank)
  }

  function InterestWrite(env: Env, user: string, kind: string, item: Ranked): Write {
    InsertInterest(user, kind, item.name, env.normalize(item.name), KindWeight(kind, item.rank))
  }

  function InsertsPlan(env: Env, user: string, kind: string, items: seq<Ranked>): seq<Write>
    decreases |items|
  {
    if items == [] then []
    else InsertsPlan(env, user, kind, items[..|items| - 1]) + [InterestWrite(env, user, kind, items[|items| - 1])]
  }

  function KindPlan(env: Env, user: string, kind: string, items: seq<Ranked>): seq<Write> {
    [DeleteInterests(user, kind)] + InsertsPlan(env, user, kind, items)
  }

  function InterestPlan(env: Env, user: string, im: InterestMessage): seq<Write> {
    if im.onlyEmbed then []
    else
      KindPlan(env, user, "spotify_top_artist", im.topArtists)
      + (KindPlan(env, user, "spotify_top_track_artist", im.trackArtists)
         + (KindPlan(env, user, "spotify_saved_song_artist", im.savedArtists)
            + KindPlan(env, user, "spotify_top_genre", im.topGenres)))
  }

  /** PlainOnly is a body whose enrichment block failed to decode. */
  function Degraded(body: Body): Message
    requires body.Enriched? || body.PlainOnly?
  {
    if body.PlainOnly? then body.m.(enrichment := None) else body.m
  }

  /** Whether handling can succeed at all: an unknown event source is an error on
      every delivery. */
  predicate Handleable(env: Env, body: Body) {
    body.Enriched? || body.PlainOnly? ==> body.m.sourceId in env.sources
  }

  function BodyPlan(env: Env, body: Body): seq<Write> {
    if !Handleable(env, body) then []
    else match body
      case Malformed => []
      case Interests(user, im) => InterestPlan(env, user, im)
      case _ => MessagePlan(env, Degraded(body))
  }
}
