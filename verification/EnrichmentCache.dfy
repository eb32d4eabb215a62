/** The enrichment gate: which paid workflows run for a performer, and what the
    cache remembers of them. Times are milliseconds. */
module EnrichmentCache {
  import opened Common

  datatype Workflow = Image | Bio | Tour

  datatype Status = Fine | Nothing | Failed

  /** What one workflow returns; a timeout or a throw comes back as Failed. */
  datatype Info = Info(status: Status, body: string)

  /** at is None when the stored timestamp does not parse. */
  datatype Record = Record(status: Status, at: Option<int>, payload: Option<Info>)

  datatype Entry = Entry(artist: Option<string>, workflows: map<Workflow, Record>)

  /** Absent strings are empty; rest stands for every other field of the event. */
  datatype Event = Event(performers: seq<string>, segment: string, imageUrl: string, rest: string)

  datatype Enrichment = Enrichment(artist: string, image: Option<Info>, bio: Option<Info>, tour: Option<Info>,
                                   attemptedAt: int) {
    function Of(w: Workflow): Option<Info> {
      match w case Image => image case Bio => bio case Tour => tour
    }
  }

  datatype Message = Message(event: Event, enrichment: Option<Enrichment>)

  /** The outside during one call: whether the cache answers, the artist the
      search picks (None if it throws), and what each workflow would return. */
  datatype World = World(readable: bool, writable: bool, artist: Option<string>, image: Info, bio: Info, tour: Info) {
    function Result(w: Workflow): Info {
      match w case Image => image case Bio => bio case Tour => tour
    }
  }

  const HOUR := 3_600_000
  const DAY := 24 * HOUR

  function TtlMs(w: Workflow, status: Status): int {
    match status
    case Failed => 6 * HOUR
    case Nothing => if w == Tour then 7 * DAY else 14 * DAY
    case Fine => if w == Tour then 7 * DAY else 90 * DAY
  }

  /** 90 days for a result, 14 for none, 6 hours for a failure; 7 days for a tour
      either way. */
  lemma TtlsInFigures(w: Workflow, status: Status)
    ensures TtlMs(w, status)
            == if status == Failed then 21_600_000
               else if w == Tour then 604_800_000
               else if status == Nothing then 1_209_600_000
               else 7_776_000_000
  {
  }

  predicate IsFresh(r: Record, w: Workflow, now: int) {
    r.at.Some? && now - r.at.value < TtlMs(w, r.status)
  }

  function CachedPayload(entry: Option<Entry>, w: Workflow, now: int): Option<Info> {
    if entry.Some? && w in entry.value.workflows && IsFresh(entry.value.workflows[w], w, now)
    then entry.value.workflows[w].payload else None
  }

  predicate Eligible(event: Event) {
    event.performers != [] && event.performers[0] != "" && event.segment !in {"sports", "arts-theatre", "miscellaneous"}
  }

  predicate Needed(event: Event, entry: Option<Entry>, w: Workflow, now: int) {
    CachedPayload(entry, w, now).None? && (w == Image ==> event.imageUrl == "")
  }

  predicate NothingNeeded(event: Event, entry: Option<Entry>, now: int) {
    entry.Some? && entry.value.artist.Some? && forall w: Workflow :: !Needed(event, entry, w, now)
  }

  // ---------------------------------------------------------------------
  // One call
  // ---------------------------------------------------------------------

  /** key stands for cacheObjectKey: a digest of the normalized name. */
  function Lookup(key: string -> string, cache: map<string, Entry>, event: Event, world: World): Option<Entry>
    requires Eligible(event)
  {
    if world.readable && key(event.performers[0]) in cache then Some(cache[key(event.performers[0])]) else None
  }

  /** Whether this call pays for w on behalf of the performer stored under k. */
  predicate Runs(key: string -> string, cache: map<string, Entry>, event: Event, world: World, now: int, k: string,
                 w: Workflow) {
    && Eligible(event) && key(event.performers[0]) == k
    && world.artist.Some? && Needed(event, Lookup(key, cache, event, world), w, now)
  }

  function Remembered(event: Event, entry: Option<Entry>, world: World, now: int): map<Workflow, Record> {
    var was := if entry.Some? then entry.value.workflows else map[];
    map w: Workflow | w in was || Needed(event, entry, w, now) ::
      if Needed(event, entry, w, now) then Record(world.Result(w).status, Some(now), Some(world.Result(w))) else was[w]
  }

  function Served(event: Event, entry: Option<Entry>, world: World, now: int, w: Workflow): Option<Info> {
    if Needed(event, entry, w, now) then Some(world.Result(w)) else CachedPayload(entry, w, now)
  }

  function CacheAfter(key: string -> string, cache: map<string, Entry>, event: Event, world: World,
                      now: int): map<string, Entry> {
    if !Eligible(event) then cache
    else
      var entry := Lookup(key, cache, event, world);
      if NothingNeeded(event, entry, now) || world.artist.None? || !world.writable then cache
      else cache[key(event.performers[0]) := Entry(world.artist, Remembered(event, entry, world, now))]
  }

  function Emitted(key: string -> string, cache: map<string, Entry>, event: Event, world: World, now: int): Message {
    if !Eligible(event) then Message(event, None)
    else
      var entry := Lookup(key, cache, event, world);
      var artist := if NothingNeeded(event, entry, now) then entry.value.artist else world.artist;
      if artist.None? then Message(event, None)
      else Message(event, Some(Enrichment(artist.value, Served(event, entry, world, now, Image),
                                          Served(event, entry, world, now, Bio),
                                          Served(event, entry, world, now, Tour), now)))
  }

  class Cache {
    const key: string -> string
    var entries: map<string, Entry>

    constructor (key: string -> string)
      ensures this.key == key && entries == map[]
    {
      this.key := key;
      entries := map[];
    }

    method Read(performer: string) returns (r: Option<Entry>)
      ensures r == if key(performer) in entries then Some(entries[key(performer)]) else None
    {
      if key(performer) in entries {
        return Some(entries[key(performer)]);
      }
      return None;
    }

    method Write(performer: string, entry: Entry)
      modifies this
      ensures entries == old(entries)[key(performer) := entry]
    {
      entries := entries[key(performer) := entry];
    }

    method EnrichEvent(event: Event, world: World, now: int) returns (message: Message)
      modifies this
      ensures entries == CacheAfter(key, old(entries), event, world, now)
      ensures message == Emitted(key, old(entries), event, world, now)
    {
      hide CachedPayload, TtlMs, IsFresh;
      if event.performers == [] || event.performers[0] == "" {
        return Message(event, None);
      }
      var performer := event.performers[0];
      if event.segment in {"sports", "arts-theatre", "miscellaneous"} {
        return Message(event, None);
      }
      var entry: Option<Entry> := None;
      if world.readable {
        entry := Read(performer);
      }
      var cachedImage := CachedPayload(entry, Image, now);
      var cachedBio := CachedPayload(entry, Bio, now);
      var cachedTour := CachedPayload(entry, Tour, now);
      var needsImage := event.imageUrl == "";
      var runImage := needsImage && cachedImage.None?;
      var runBio := cachedBio.None?;
      var runTour := cachedTour.None?;
      assert runImage == Needed(event, entry, Image, now) && runBio == Needed(event, entry, Bio, now)
          && runTour == Needed(event, entry, Tour, now);
      if !runImage && !runBio && !runTour && entry.Some? && entry.value.artist.Some? {
        assert NothingNeeded(event, entry, now);
        return Message(event, Some(Enrichment(entry.value.artist.value, cachedImage, cachedBio, cachedTour, now)));
      }
      if world.artist.None? {
        return Message(event, None);
      }
      var image := if runImage then Some(world.image) else cachedImage;
      var bio := if runBio then Some(world.bio) else cachedBio;
      var tour := if runTour then Some(world.tour) else cachedTour;
      var workflows := if entry.Some? then entry.value.workflows else map[];
      if runImage {
        workflows := workflows[Image := Record(world.image.status, Some(now), Some(world.image))];
      }
      if runBio {
        workflows := workflows[Bio := Record(world.bio.status, Some(now), Some(world.bio))];
      }
      if runTour {
        workflows := workflows[Tour := Record(world.tour.status, Some(now), Some(world.tour))];
      }
      assert workflows == Remembered(event, entry, world, now);
      if world.writable {
        Write(performer, Entry(world.artist, workflows));
      }
      return Message(event, Some(Enrichment(world.artist.value, image, bio, tour, now)));
    }
  }

  /** Stripping the enrichment gives back the event, and an enriched message is
      complete: a picture unless the event brought one, a biography, a tour. */
  lemma EnrichmentOnlyAdds(key: string -> string, cache: map<string, Entry>, event: Event, world: World, now: int)
    ensures Emitted(key, cache, event, world, now).event == event
    ensures Emitted(key, cache, event, world, now).enrichment.Some? ==>
              forall w: Workflow :: (w == Image ==> event.imageUrl == "")
                  ==> Emitted(key, cache, event, world, now).enrichment.value.Of(w).Some?
  {
  }

  /** The entry holds a result of w young enough to serve. */
  predicate Serves(entry: Option<Entry>, w: Workflow, now: int, p: Info) {
    && entry.Some? && w in entry.value.workflows
    && var r := entry.value.workflows[w];
       r.payload == Some(p) && r.at.Some? && now - r.at.value < TtlMs(w, r.status)
  }

  ghost predicate Lacks(entry: Option<Entry>, w: Workflow, now: int) {
    forall p :: !Serves(entry, w, now, p)
  }

  /** An event with no performer, or of a segment that is never enriched, passes
      through, and the cache is not consulted. */
  lemma SkippedEventsPassThrough(key: string -> string, cache: map<string, Entry>, event: Event, world: World, now: int)
    requires event.performers == [] || event.performers[0] == "" || event.segment == "sports"
             || event.segment == "arts-theatre"
             || event.segment == "miscellaneous"
    ensures Emitted(key, cache, event, world, now) == Message(event, None)
            && CacheAfter(key, cache, event, world, now) == cache
  {
  }

  /** The gate, workflow by workflow, for any other event. */
  lemma GateInFull(key: string -> string, cache: map<string, Entry>, event: Event, world: World, now: int, w: Workflow)
    requires event.performers != [] && event.performers[0] != "" && event.segment != "sports"
             && event.segment != "arts-theatre"
             && event.segment != "miscellaneous"
    ensures var k, m, after := key(event.performers[0]), Emitted(key, cache, event, world, now),
            CacheAfter(key, cache, event, world, now);
            var entry := if world.readable && k in cache then Some(cache[k]) else None;
            var idle := entry.Some? && entry.value.artist.Some? && forall x: Workflow ::
                          !Lacks(entry, x, now) || (x == Image && event.imageUrl != "");
            // nothing to pay for: the artist on file, no search, no write
            && (idle ==> m.enrichment.Some? && m.enrichment.value.artist == entry.value.artist.value && after == cache)
            // a search that fails leaves the event bare and the cache alone
            && (!idle && world.artist.None? ==> m.enrichment.None? && after == cache)
            && (!idle && world.artist.Some? ==> m.enrichment.Some? && m.enrichment.value.artist == world.artist.value)
            && (m.enrichment.Some? ==> m.enrichment.value.attemptedAt == now)
            // a young result is served; a missing one is paid for, unless the event has its own picture
            && (m.enrichment.Some? ==>
                  && (forall p :: Serves(entry, w, now, p) ==> m.enrichment.value.Of(w) == Some(p))
                  && (Lacks(entry, w, now) ==>
                        m.enrichment.value.Of(w) == if w == Image
                            && event.imageUrl != "" then None else Some(world.Result(w))))
            // one write: what was paid for now, the rest as it was
            && (!idle && world.artist.Some? && world.writable ==>
                  && k in after && after[k].artist == world.artist
                  && (if Lacks(entry, w, now) && (w == Image ==> event.imageUrl == "") then
                        w in after[k].workflows
                        && after[k].workflows[w] == Record(world.Result(w).status, Some(now), Some(world.Result(w)))
                      else
                        && (w in after[k].workflows <==> entry.Some? && w in entry.value.workflows)
                        && (w in after[k].workflows ==> after[k].workflows[w] == entry.value.workflows[w])))
            && (!world.writable ==> after == cache)
            && (forall x :: x != k ==> (x in after <==> x in cache) && (x in cache ==> after[x] == cache[x]))
  {
    hide TtlMs;
    var entry := if world.readable && key(event.performers[0]) in cache then Some(cache[key(event.performers[0])])
        else None;
    forall x: Workflow
      ensures CachedPayload(entry, x, now).None? <==> Lacks(entry, x, now)
      ensures forall p :: Serves(entry, x, now, p) <==> CachedPayload(entry, x, now) == Some(p)
    {
      CachedIsServed(entry, x, now);
    }
    hide CachedPayload, Serves, Lacks;
  }

  lemma CachedIsServed(entry: Option<Entry>, w: Workflow, now: int)
    ensures CachedPayload(entry, w, now).None? <==> Lacks(entry, w, now)
    ensures forall p :: Serves(entry, w, now, p) <==> CachedPayload(entry, w, now) == Some(p)
  {
    hide TtlMs;
    if CachedPayload(entry, w, now).Some? {
      assert Serves(entry, w, now, CachedPayload(entry, w, now).value);
    }
  }

  // ---------------------------------------------------------------------
  // Whole histories
  // ---------------------------------------------------------------------

  datatype Call = Call(event: Event, world: World, now: int)

  function After(key: string -> string, cache: map<string, Entry>, calls: seq<Call>): map<string, Entry>
    decreases |calls|
  {
    if calls == [] then cache
    else
      var last := calls[|calls| - 1];
      CacheAfter(key, After(key, cache, calls[..|calls| - 1]), last.event, last.world, last.now)
  }

  /** Whether call i of the history pays for w on behalf of k. */
  predicate RunsAt(key: string -> string, cache: map<string, Entry>, calls: seq<Call>, i: nat, k: string, w: Workflow)
    requires i < |calls|
  {
    Runs(key, After(key, cache, calls[..i]), calls[i].event, calls[i].world, calls[i].now, k, w)
  }

  /** The call is about the performer stored under k. */
  predicate Concerns(key: string -> string, c: Call, k: string) {
    Eligible(c.event) && key(c.event.performers[0]) == k
  }

  predicate Monotone(calls: seq<Call>) {
    forall i, j :: 0 <= i < j < |calls| ==> calls[i].now <= calls[j].now
  }

  /** k's record of w was made at or after `at`; if it is not the one made then,
      it is a whole TTL younger. */
  predicate Guarded(cache: map<string, Entry>, k: string, w: Workflow, status: Status, at: int) {
    && k in cache && w in cache[k].workflows
    && var r := cache[k].workflows[w];
       r.payload.Some? && r.at.Some? && ((r.status == status && r.at.value == at)
                                         || r.at.value >= at + TtlMs(w, status))
  }

  lemma RunIsRecorded(key: string -> string, cache: map<string, Entry>, c: Call, k: string, w: Workflow)
    requires c.world.writable && Runs(key, cache, c.event, c.world, c.now, k, w)
    ensures var after := CacheAfter(key, cache, c.event, c.world, c.now);
            k in after && w in after[k].workflows
            && after[k].workflows[w] == Record(c.world.Result(w).status, Some(c.now), Some(c.world.Result(w)))
  {
    hide CachedPayload;
  }

  /** A call that replaces k's entry without having read it forgets records. */
  predicate Harmless(key: string -> string, c: Call, k: string) {
    Concerns(key, c, k) && c.world.writable ==> c.world.readable
  }

  lemma RestIsKept(key: string -> string, cache: map<string, Entry>, c: Call, k: string, w: Workflow)
    requires Harmless(key, c, k) && k in cache && w in cache[k].workflows
    requires !Runs(key, cache, c.event, c.world, c.now, k, w) || !c.world.writable
    ensures var after := CacheAfter(key, cache, c.event, c.world, c.now);
            k in after && w in after[k].workflows && after[k].workflows[w] == cache[k].workflows[w]
  {
    hide CachedPayload;
  }

  lemma RunMeansStale(key: string -> string, cache: map<string, Entry>, c: Call, k: string, w: Workflow)
    requires c.world.readable && Runs(key, cache, c.event, c.world, c.now, k, w)
    requires k in cache && w in cache[k].workflows && cache[k].workflows[w].payload.Some?
    ensures !IsFresh(cache[k].workflows[w], w, c.now)
  {
  }

  lemma GuardHolds(key: string -> string, cache: map<string, Entry>, c: Call, k: string, w: Workflow, status: Status,
                   at: int)
    requires Guarded(cache, k, w, status, at) && at <= c.now
    ensures Harmless(key, c, k) ==> Guarded(CacheAfter(key, cache, c.event, c.world, c.now), k, w, status, at)
    ensures c.world.readable && Runs(key, cache, c.event, c.world, c.now, k, w) ==> c.now >= at + TtlMs(w, status)
  {
    hide CacheAfter, Runs;
    if Runs(key, cache, c.event, c.world, c.now, k, w) && c.world.readable {
      RunMeansStale(key, cache, c, k, w);
      assert TtlMs(w, cache[k].workflows[w].status) > 0;
    }
    if Harmless(key, c, k) {
      if Runs(key, cache, c.event, c.world, c.now, k, w) && c.world.writable {
        RunConcerns(key, cache, c, k, w);
        RunIsRecorded(key, cache, c, k, w);
      } else {
        RestIsKept(key, cache, c, k, w);
      }
    }
  }

  lemma RunConcerns(key: string -> string, cache: map<string, Entry>, c: Call, k: string, w: Workflow)
    requires Runs(key, cache, c.event, c.world, c.now, k, w)
    ensures Concerns(key, c, k)
  {
  }

  /** What keeps calls i and j apart: i's record is written, no call between them
      replaces it unread, and j reads it. */
  predicate Linked(key: string -> string, calls: seq<Call>, i: nat, j: nat, k: string)
    requires i < j < |calls|
  {
    && calls[i].world.writable && calls[j].world.readable
    && forall m :: i < m < j ==> Harmless(key, calls[m], k)
  }

  lemma {:induction false} GuardedUntil(key: string -> string, cache: map<string, Entry>, calls: seq<Call>, i: nat,
                                        j: nat, k: string,
                                        w: Workflow)
    requires i < j <= |calls| && Monotone(calls) && RunsAt(key, cache, calls, i, k, w) && calls[i].world.writable
    requires forall m :: i < m < j ==> Harmless(key, calls[m], k)
    ensures Guarded(After(key, cache, calls[..j]), k, w, calls[i].world.Result(w).status, calls[i].now)
    decreases j
  {
    hide Runs, CacheAfter, Guarded, Harmless;
    assert calls[..j][..j - 1] == calls[..j - 1] && calls[..j][j - 1] == calls[j - 1];
    if j - 1 == i {
      RunIsRecorded(key, After(key, cache, calls[..i]), calls[i], k, w);
      NewRecordGuards(After(key, cache, calls[..j]), k, w, calls[i]);
    } else {
      GuardedUntil(key, cache, calls, i, j - 1, k, w);
      GuardHolds(key, After(key, cache, calls[..j - 1]), calls[j - 1], k, w, calls[i].world.Result(w).status,
                 calls[i].now);
    }
  }

  lemma NewRecordGuards(cache: map<string, Entry>, k: string, w: Workflow, c: Call)
    requires k in cache && w in cache[k].workflows
    requires cache[k].workflows[w] == Record(c.world.Result(w).status, Some(c.now), Some(c.world.Result(w)))
    ensures Guarded(cache, k, w, c.world.Result(w).status, c.now)
  {
  }

  /** If calls i and j both pay for w on behalf of k, they are at least the
      earlier outcome's TTL apart. */
  predicate Apart(key: string -> string, cache: map<string, Entry>, calls: seq<Call>, i: nat, j: nat, k: string,
                  w: Workflow)
    requires i < j < |calls|
  {
    RunsAt(key, cache, calls, i, k, w) && RunsAt(key, cache, calls, j, k, w) ==>
      calls[j].now - calls[i].now >= TtlMs(w, calls[i].world.Result(w).status)
  }

  /** Whatever events and performers come between. */
  lemma RunsAreSpaced(key: string -> string, cache: map<string, Entry>, calls: seq<Call>, i: nat, j: nat, k: string,
                      w: Workflow)
    requires i < j < |calls| && Monotone(calls) && Linked(key, calls, i, j, k)
    ensures Apart(key, cache, calls, i, j, k, w)
    ensures TtlMs(w, calls[i].world.Result(w).status) >= 6 * HOUR
  {
    hide Runs, CacheAfter, Guarded, Harmless;
    if RunsAt(key, cache, calls, i, k, w) {
      GuardedUntil(key, cache, calls, i, j, k, w);
      GuardHolds(key, After(key, cache, calls[..j]), calls[j], k, w, calls[i].world.Result(w).status, calls[i].now);
    }
  }

  // ---------------------------------------------------------------------
  // How much is spent
  // ---------------------------------------------------------------------

  /** Among the calls about k, an earlier one can write and a later one can read. */
  predicate Connected(key: string -> string, calls: seq<Call>, k: string) {
    forall i, j :: 0 <= i < j < |calls| && Concerns(key, calls[i], k) && Concerns(key, calls[j], k) ==>
      calls[i].world.writable && calls[j].world.readable
  }

  lemma ConnectedIsLinked(key: string -> string, calls: seq<Call>, i: nat, j: nat, k: string)
    requires i < j < |calls| && Connected(key, calls, k) && Concerns(key, calls[i], k) && Concerns(key, calls[j], k)
    ensures Linked(key, calls, i, j, k)
  {
  }

  /** Runs of w for k among the first n calls. */
  function RunCount(key: string -> string, cache: map<string, Entry>, calls: seq<Call>, n: nat, k: string,
                    w: Workflow): nat
    requires n <= |calls|
  {
    if n == 0 then 0
    else RunCount(key, cache, calls, n - 1, k, w) + if RunsAt(key, cache, calls, n - 1, k, w) then 1 else 0
  }

  /** The last of them ran long enough after the first call. */
  lemma {:induction false} CountedRunsTakeTime(key: string -> string, cache: map<string, Entry>, calls: seq<Call>,
                                               n: nat, k: string,
                                               w: Workflow) returns (last: nat)
    requires n <= |calls| && Monotone(calls) && Connected(key, calls, k) && RunCount(key, cache, calls, n, k, w) > 0
    ensures last < n && RunsAt(key, cache, calls, last, k, w)
    ensures (RunCount(key, cache, calls, n, k, w) - 1) * (6 * HOUR) <= calls[last].now - calls[0].now
  {
    hide RunsAt, Concerns, Connected;
    if !RunsAt(key, cache, calls, n - 1, k, w) {
      last := CountedRunsTakeTime(key, cache, calls, n - 1, k, w);
    } else {
      last := n - 1;
      if RunCount(key, cache, calls, n - 1, k, w) > 0 {
        var earlier := CountedRunsTakeTime(key, cache, calls, n - 1, k, w);
        TwoRunsAreSixHoursApart(key, cache, calls, earlier, last, k, w);
      }
    }
  }

  lemma TwoRunsAreSixHoursApart(key: string -> string, cache: map<string, Entry>, calls: seq<Call>, i: nat, j: nat,
                                k: string, w: Workflow)
    requires i < j < |calls| && Monotone(calls) && Connected(key, calls, k)
    requires RunsAt(key, cache, calls, i, k, w) && RunsAt(key, cache, calls, j, k, w)
    ensures calls[j].now - calls[i].now >= 6 * HOUR
  {
    hide After, Needed;
    ConnectedIsLinked(key, calls, i, j, k);
    RunsAreSpaced(key, cache, calls, i, j, k, w);
  }

  /** Whether the history keeps to one run more than the six-hour periods it covers. */
  predicate InBudget(key: string -> string, cache: map<string, Entry>, calls: seq<Call>, k: string, w: Workflow)
    requires calls != []
  {
    RunCount(key, cache, calls, |calls|, k, w) <= 1 + (calls[|calls| - 1].now - calls[0].now) / (6 * HOUR)
  }

  /** Spend is bounded, however many events arrive. */
  lemma RunsAreBounded(key: string -> string, cache: map<string, Entry>, calls: seq<Call>, k: string, w: Workflow)
    requires calls != [] && Monotone(calls) && Connected(key, calls, k)
    ensures InBudget(key, cache, calls, k, w)
  {
    hide RunCount, RunsAt, Connected;
    var count := RunCount(key, cache, calls, |calls|, k, w);
    if count > 0 {
      var last := CountedRunsTakeTime(key, cache, calls, |calls|, k, w);
      Periods(count - 1, calls[|calls| - 1].now - calls[0].now);
    }
  }

  lemma Periods(n: nat, span: int)
    requires n * (6 * HOUR) <= span
    ensures n <= span / (6 * HOUR)
  {
  }

  // ---------------------------------------------------------------------
  // Which failures break the spacing
  // ---------------------------------------------------------------------

  /** Whether the cache can be read and written during one call. */
  datatype Access = Access(readable: bool, writable: bool)

  predicate Suffers(calls: seq<Call>, f: seq<Access>) {
    |calls| == |f| && forall n :: 0 <= n < |f| ==>
        calls[n].world.readable == f[n].readable
        && calls[n].world.writable == f[n].writable
  }

  /** Under these failures, every history keeps its runs at i and j apart. */
  ghost predicate AlwaysApart(f: seq<Access>, i: nat, j: nat)
    requires i < j < |f|
  {
    forall key: string -> string, cache, calls, k, w :: Suffers(calls, f) && Monotone(calls)
        ==> Apart(key, cache, calls, i, j, k, w)
  }

  predicate PairIsSafe(f: seq<Access>, i: nat, j: nat)
    requires i < j < |f|
  {
    f[i].writable && f[j].readable && forall m :: i < m < j && f[m].writable ==> f[m].readable
  }

  const SHOW := Event(["performer"], "", "", "")

  const PICTURED := Event(["performer"], "", "picture", "")

  const SKIPPED := Event([], "", "", "")

  /** Calls i and j are for one performer without a picture; call m, if it is
      neither, is for the same performer with one; the others are not enriched. */
  function Scenario(f: seq<Access>, i: nat, j: nat, m: nat): seq<Call> {
    var info := Info(Fine, "");
    seq(|f|, n requires 0 <= n < |f| =>
      Call(if n == i || n == j then SHOW else if n == m then PICTURED else SKIPPED,
           World(f[n].readable, f[n].writable, Some("artist"), info, info, info), 0))
  }

  function Same(s: string): string { s }

  lemma {:induction false} QuietStretch(calls: seq<Call>, a: nat, b: nat)
    requires a <= b <= |calls| && forall n :: a <= n < b ==> !Eligible(calls[n].event)
    ensures After(Same, map[], calls[..b]) == After(Same, map[], calls[..a])
    decreases b
  {
    if a == b {
    } else {
      assert calls[..b][..b - 1] == calls[..b - 1] && calls[..b][b - 1] == calls[b - 1];
      QuietStretch(calls, a, b - 1);
    }
  }

  predicate NoPicture(cache: map<string, Entry>) {
    "performer" in cache ==> Image !in cache["performer"].workflows
  }

  lemma AfterOneMore(calls: seq<Call>, n: nat)
    requires n < |calls|
    ensures var c := calls[n];
            After(Same, map[], calls[..n + 1]) == CacheAfter(Same, After(Same, map[], calls[..n]), c.event, c.world,
                                                             c.now)
  {
    assert calls[..n + 1][..n] == calls[..n] && calls[..n + 1][n] == calls[n];
  }

  lemma ShowPaysForPicture(calls: seq<Call>, n: nat)
    requires n < |calls| && calls[n].event == SHOW && calls[n].world.artist.Some?
    requires NoPicture(After(Same, map[], calls[..n])) || !calls[n].world.readable
    ensures RunsAt(Same, map[], calls, n, "performer", Image)
  {
    hide After;
  }

  /** An unsafe pair of calls: a history in which both pay for the same picture
      at the same instant. */
  lemma UnsafePairPaysTwice(f: seq<Access>, i: nat, j: nat) returns (calls: seq<Call>)
    requires i < j < |f| && !PairIsSafe(f, i, j)
    ensures Suffers(calls, f) && Monotone(calls) && forall n :: 0 <= n < |calls| ==> calls[n].now == 0
    ensures RunsAt(Same, map[], calls, i, "performer", Image) && RunsAt(Same, map[], calls, j, "performer", Image)
  {
    hide RunsAt, After, CacheAfter, NoPicture;
    var m := i;
    if f[i].writable && f[j].readable {
      m :| i < m < j && f[m].writable && !f[m].readable;
    }
    calls := Scenario(f, i, j, m);
    QuietStretch(calls, 0, i);
    NothingCached(calls);
    ShowPaysForPicture(calls, i);
    if f[j].readable {
      PictureIsForgotten(calls, i, j, m);
    }
    ShowPaysForPicture(calls, j);
  }

  /** Either i's write is lost, or m replaces the entry it could not read. */
  lemma PictureIsForgotten(calls: seq<Call>, i: nat, j: nat, m: nat)
    requires i <= m < j < |calls| && forall n :: i < n < j && n != m ==> !Eligible(calls[n].event)
    requires calls[m].world.artist.Some? && After(Same, map[], calls[..i]) == map[]
    requires if m == i then !calls[i].world.writable
             else calls[m].event == PICTURED && !calls[m].world.readable && calls[m].world.writable
    ensures NoPicture(After(Same, map[], calls[..j]))
  {
    hide After, CacheAfter, NoPicture;
    AfterOneMore(calls, m);
    QuietStretch(calls, m + 1, j);
    if m == i {
      LostWrite(map[], calls[i]);
      NothingCached(calls);
    } else {
      UnreadEntryIsReplaced(After(Same, map[], calls[..m]), calls[m]);
    }
  }

  lemma NothingCached(calls: seq<Call>)
    ensures After(Same, map[], calls[..0]) == map[] && NoPicture(map[])
  {
  }

  lemma LostWrite(cache: map<string, Entry>, c: Call)
    requires !c.world.writable
    ensures CacheAfter(Same, cache, c.event, c.world, c.now) == cache
  {
  }

  lemma UnreadEntryIsReplaced(cache: map<string, Entry>, c: Call)
    requires c.event == PICTURED && !c.world.readable && c.world.writable && c.world.artist.Some?
    ensures NoPicture(CacheAfter(Same, cache, c.event, c.world, c.now))
  {
  }

  /** Two runs are kept apart, over every history with these failures, exactly
      when the earlier call can write, the later can read, and none between them
      writes without having read. */
  lemma PairIsApartIff(f: seq<Access>, i: nat, j: nat)
    requires i < j < |f|
    ensures AlwaysApart(f, i, j) <==> PairIsSafe(f, i, j)
  {
    hide Apart, RunsAt;
    if PairIsSafe(f, i, j) {
      forall key: string -> string, cache, calls, k, w | Suffers(calls, f) && Monotone(calls)
        ensures Apart(key, cache, calls, i, j, k, w)
      {
        RunsAreSpaced(key, cache, calls, i, j, k, w);
      }
    } else {
      var calls := UnsafePairPaysTwice(f, i, j);
      NotApart(calls, i, j);
    }
  }

  lemma NotApart(calls: seq<Call>, i: nat, j: nat)
    requires i < j < |calls| && calls[i].now == calls[j].now
    requires RunsAt(Same, map[], calls, i, "performer", Image) && RunsAt(Same, map[], calls, j, "performer", Image)
    ensures !Apart(Same, map[], calls, i, j, "performer", Image)
  {
    hide RunsAt;
  }

  ghost predicate Spaced(f: seq<Access>) {
    forall i, j :: 0 <= i < j < |f| ==> AlwaysApart(f, i, j)
  }

  ghost predicate Bounded(f: seq<Access>) {
    forall key: string -> string, cache, calls, k, w :: calls != [] && Suffers(calls, f) && Monotone(calls)
        ==> InBudget(key, cache, calls, k, w)
  }

  /** Every call but the first can read, every call but the last can write. */
  predicate Enough(f: seq<Access>) {
    (forall n :: 0 < n < |f| ==> f[n].readable) && forall n :: 0 <= n < |f| - 1 ==> f[n].writable
  }

  /** Exactly these failures keep the runs spaced, and their number bounded. */
  lemma SpacedIffEnough(f: seq<Access>)
    ensures Spaced(f) <==> Enough(f)
    ensures Bounded(f) <==> Enough(f)
  {
    hide AlwaysApart, Bounded;
    if Enough(f) {
      forall i, j | 0 <= i < j < |f|
        ensures AlwaysApart(f, i, j)
      {
        PairIsApartIff(f, i, j);
      }
      EnoughIsBounded(f);
    } else {
      var i, j := UnsafePair(f);
      PairIsApartIff(f, i, j);
      UnsafePairIsUnbounded(f, i, j);
    }
  }

  lemma UnsafePair(f: seq<Access>) returns (i: nat, j: nat)
    requires !Enough(f)
    ensures i < j < |f| && !PairIsSafe(f, i, j)
  {
    if n :| 0 < n < |f| && !f[n].readable {
      i, j := n - 1, n;
    } else {
      i :| 0 <= i < |f| - 1 && !f[i].writable;
      j := i + 1;
    }
  }

  lemma EnoughIsBounded(f: seq<Access>)
    requires Enough(f)
    ensures Bounded(f)
  {
    hide InBudget;
    forall key: string -> string, cache, calls, k, w | calls != [] && Suffers(calls, f) && Monotone(calls)
      ensures InBudget(key, cache, calls, k, w)
    {
      RunsAreBounded(key, cache, calls, k, w);
    }
  }

  lemma UnsafePairIsUnbounded(f: seq<Access>, i: nat, j: nat)
    requires i < j < |f| && !PairIsSafe(f, i, j)
    ensures !Bounded(f)
  {
    hide RunsAt;
    var calls := UnsafePairPaysTwice(f, i, j);
    TwoRunsCount(calls, i, j, |calls|);
    assert !InBudget(Same, map[], calls, "performer", Image);
  }

  lemma {:induction false} TwoRunsCount(calls: seq<Call>, i: nat, j: nat, n: nat)
    requires i < j < n <= |calls|
    requires RunsAt(Same, map[], calls, i, "performer", Image) && RunsAt(Same, map[], calls, j, "performer", Image)
    ensures RunCount(Same, map[], calls, n, "performer", Image) >= 2
  {
    hide RunsAt;
    if n == j + 1 {
      OneRunCounts(calls, i, j);
    } else {
      TwoRunsCount(calls, i, j, n - 1);
    }
  }

  lemma {:induction false} OneRunCounts(calls: seq<Call>, i: nat, n: nat)
    requires i < n <= |calls| && RunsAt(Same, map[], calls, i, "performer", Image)
    ensures RunCount(Same, map[], calls, n, "performer", Image) >= 1
  {
    hide RunsAt;
    if n == i + 1 {
    } else {
      OneRunCounts(calls, i, n - 1);
    }
  }

  // ---------------------------------------------------------------------
  // Where a served result comes from
  // ---------------------------------------------------------------------

  /** Call i paid for w on behalf of k and got p. */
  predicate Produced(key: string -> string, calls: seq<Call>, i: nat, k: string, w: Workflow, p: Info)
    requires i < |calls|
  {
    RunsAt(key, map[], calls, i, k, w) && calls[i].world.Result(w) == p
  }

  ghost predicate Sourced(key: string -> string, calls: seq<Call>, k: string, w: Workflow, r: Record) {
    && r.payload.Some? && r.payload.value.status == r.status && r.at.Some?
    && exists i :: 0 <= i < |calls| && Produced(key, calls, i, k, w, r.payload.value) && calls[i].now == r.at.value
  }

  ghost predicate AllSourced(key: string -> string, calls: seq<Call>, cache: map<string, Entry>) {
    forall k, w :: k in cache && w in cache[k].workflows ==> Sourced(key, calls, k, w, cache[k].workflows[w])
  }

  /** What a longer history adds does not change who produced what. */
  lemma StillSourced(key: string -> string, calls: seq<Call>, c: Call, k: string, w: Workflow, r: Record)
    requires Sourced(key, calls, k, w, r)
    ensures Sourced(key, calls + [c], k, w, r)
  {
    hide RunsAt, Runs, After;
    var i :| 0 <= i < |calls| && Produced(key, calls, i, k, w, r.payload.value) && calls[i].now == r.at.value;
    SamePast(key, calls, c, i, k, w);
    assert Produced(key, calls + [c], i, k, w, r.payload.value);
  }

  lemma SamePast(key: string -> string, calls: seq<Call>, c: Call, i: nat, k: string, w: Workflow)
    requires i < |calls|
    ensures RunsAt(key, map[], calls + [c], i, k, w) == RunsAt(key, map[], calls, i, k, w)
  {
    assert (calls + [c])[..i] == calls[..i];
  }

  lemma RecordsAfter(key: string -> string, cache: map<string, Entry>, c: Call, k: string, w: Workflow)
    requires var after := CacheAfter(key, cache, c.event, c.world, c.now); k in after && w in after[k].workflows
    ensures var r := CacheAfter(key, cache, c.event, c.world, c.now)[k].workflows[w];
            (k in cache && w in cache[k].workflows && r == cache[k].workflows[w])
            || (Runs(key, cache, c.event, c.world, c.now, k, w)
                && r == Record(c.world.Result(w).status, Some(c.now), Some(c.world.Result(w))))
  {
    hide CachedPayload;
  }

  lemma {:induction false} RecordsAreSourced(key: string -> string, calls: seq<Call>)
    ensures AllSourced(key, calls, After(key, map[], calls))
    decreases |calls|
  {
    hide Sourced, CacheAfter;
    if calls == [] {
    } else {
      var n := |calls| - 1;
      var past, c := calls[..n], calls[n];
      assert calls == past + [c];
      RecordsAreSourced(key, past);
      var before, after := After(key, map[], past), After(key, map[], calls);
      forall k, w | k in after && w in after[k].workflows
        ensures Sourced(key, calls, k, w, after[k].workflows[w])
      {
        RecordsAfter(key, before, c, k, w);
        if k in before && w in before[k].workflows && after[k].workflows[w] == before[k].workflows[w] {
          StillSourced(key, past, c, k, w, after[k].workflows[w]);
        } else {
          NewIsSourced(key, calls, k, w, after[k].workflows[w]);
        }
      }
    }
  }

  lemma NewIsSourced(key: string -> string, calls: seq<Call>, k: string, w: Workflow, r: Record)
    requires calls != [] && RunsAt(key, map[], calls, |calls| - 1, k, w)
    requires var c := calls[|calls| - 1]; r == Record(c.world.Result(w).status, Some(c.now), Some(c.world.Result(w)))
    ensures Sourced(key, calls, k, w, r)
  {
    hide RunsAt;
    assert Produced(key, calls, |calls| - 1, k, w, r.payload.value);
  }

  /** From an empty cache, with reads and writes failing as they may: every
      result a message carries was paid for by this call, or by an earlier one
      for the same performer less than its TTL ago. */
  lemma ServedResultsAreYoung(key: string -> string, calls: seq<Call>, w: Workflow)
    requires calls != []
    requires var c := calls[|calls| - 1];
             var m := Emitted(key, After(key, map[], calls[..|calls| - 1]), c.event, c.world, c.now);
             m.enrichment.Some? && m.enrichment.value.Of(w).Some?
    ensures var c := calls[|calls| - 1];
            var p := Emitted(key, After(key, map[], calls[..|calls| - 1]), c.event, c.world,
                             c.now).enrichment.value.Of(w).value;
            exists i :: 0 <= i < |calls| && Produced(key, calls, i, key(c.event.performers[0]), w, p)
                        && (i == |calls| - 1 || c.now - calls[i].now < TtlMs(w, p.status))
  {
    hide After, Produced;
    var n := |calls| - 1;
    var past, c := calls[..n], calls[n];
    assert calls == past + [c];
    var before := After(key, map[], past);
    var k := key(c.event.performers[0]);
    var entry := Lookup(key, before, c.event, c.world);
    if Needed(c.event, entry, w, c.now) {
      ThisCallProduced(key, calls, w);
    } else {
      RecordsAreSourced(key, past);
      var r := before[k].workflows[w];
      StillSourced(key, past, c, k, w, r);
    }
  }

  lemma ThisCallProduced(key: string -> string, calls: seq<Call>, w: Workflow)
    requires calls != [] && Eligible(calls[|calls| - 1].event)
    requires var c := calls[|calls| - 1]; Runs(key, After(key, map[], calls[..|calls| - 1]), c.event, c.world, c.now,
                                               key(c.event.performers[0]), w)
    ensures Produced(key, calls, |calls| - 1, key(calls[|calls| - 1].event.performers[0]), w,
                     calls[|calls| - 1].world.Result(w))
  {
  }
}
