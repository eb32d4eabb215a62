/** Keyset pagination of the two calendar feeds: the page queries, the handler's
    page cut, and a client that follows next_cursor while the tables change. */
module Calendar {
  import opened Common
  import opened Instants
  import CursorCodec

  const PAGE_SIZE := 20

  /** overAt is event_over_at(starts_at, ends_at, time_tbd). */
  datatype Event = Event(startsAt: int, overAt: int, archived: bool, segment: Option<string>, venue: nat)

  /** What one request sees. */
  datatype Snapshot = Snapshot(events: map<nat, Event>, cityOfVenue: map<nat, nat>, matches: set<(nat, nat)>, now: int)

  /** The parameters a client repeats on every page. */
  datatype Feed =
    | UserFeed(user: nat, segment: Option<string>)
    | CityFeed(city: nat, segment: Option<string>, venue: Option<nat>)

  datatype Key = Key(startsAt: int, id: nat)

  predicate Less(a: Key, b: Key) {
    a.startsAt < b.startsAt || (a.startsAt == b.startsAt && a.id < b.id)
  }

  datatype PageStart =
    | First
    | After(bound: int)
    | Cursor(key: Key)

  predicate Shows(feed: Feed, s: Snapshot, id: nat) {
    && id in s.events
    && var e := s.events[id];
    && !e.archived
    && e.overAt > s.now
    && (feed.segment.None? || e.segment.None? || e.segment == feed.segment)
    && e.venue in s.cityOfVenue
    && match feed
       case UserFeed(user, _) => (user, id) in s.matches
       case CityFeed(city, _, venue) => s.cityOfVenue[e.venue] == city && (venue.None? || e.venue == venue.value)
  }

  /** The cursor is a strict row comparison, the bound a strict comparison on the
      instant alone. */
  predicate Begins(start: PageStart, k: Key) {
    match start
    case First => true
    case After(bound) => k.startsAt > bound
    case Cursor(c) => Less(c, k)
  }

  function KeyOf(s: Snapshot, id: nat): Key
    requires id in s.events
  {
    Key(s.events[id].startsAt, id)
  }

  function Selected(feed: Feed, s: Snapshot, start: PageStart): set<Key> {
    set id | id in s.events && Shows(feed, s, id) && Begins(start, KeyOf(s, id)) :: KeyOf(s, id)
  }

  /** ORDER BY starts_at ASC, id ASC. */
  ghost function Ascending(keys: set<Key>): (r: seq<Key>)
    ensures forall k :: k in r <==> k in keys
    ensures Increasing(r)
    ensures |r| == |keys|
    decreases |keys|
  {
    if keys == {} then []
    else
      var least := Least(keys);
      [least] + Ascending(keys - {least})
  }

  ghost predicate Increasing(ks: seq<Key>) {
    forall i, j :: 0 <= i < j < |ks| ==> Less(ks[i], ks[j])
  }

  ghost function Least(keys: set<Key>): (r: Key)
    requires keys != {}
    ensures IsLeast(r, keys)
  {
    assert exists r :: IsLeast(r, keys) by { var r := FindLeast(keys); }
    var r :| IsLeast(r, keys);
    r
  }

  ghost predicate IsLeast(r: Key, keys: set<Key>) {
    r in keys && forall k :: k in keys && k != r ==> Less(r, k)
  }

  lemma {:induction false} FindLeast(keys: set<Key>) returns (r: Key)
    requires keys != {}
    ensures IsLeast(r, keys)
    decreases |keys|
  {
    var x :| x in keys;
    var rest := keys - {x};
    assert keys == rest + {x};
    if rest == {} {
      return x;
    }
    var m := FindLeast(rest);
    r := if Less(x, m) then x else m;
  }

  /** An increasing list is the only increasing list of its elements. */
  lemma {:induction false} IncreasingIsUnique(a: seq<Key>, b: seq<Key>)
    requires Increasing(a) && Increasing(b) && forall k :: k in a <==> k in b
    ensures a == b
    decreases |a|
  {
    if a == [] {
      HasAnElement(b);
    } else {
      assert a[0] in b && b != [];
      assert b[0] in a;
      assert a[0] == b[0];
      forall k
        ensures k in a[1..] <==> k in b[1..]
      {
        assert k in a <==> k == a[0] || k in a[1..];
        assert k in b <==> k == b[0] || k in b[1..];
      }
      IncreasingIsUnique(a[1..], b[1..]);
    }
  }

  ghost function Query(feed: Feed, s: Snapshot, start: PageStart, limit: nat): seq<Key> {
    var all := Ascending(Selected(feed, s, start));
    if |all| > limit then all[..limit] else all
  }

  datatype Page = Page(keys: seq<Key>, next: Option<Key>)

  ghost function PageOf(feed: Feed, s: Snapshot, start: PageStart): Page {
    var rows := Query(feed, s, start, PAGE_SIZE + 1);
    if |rows| > PAGE_SIZE then Page(rows[..PAGE_SIZE], Some(rows[PAGE_SIZE - 1])) else Page(rows, None)
  }

  /** The handler after the query: one row more than the page means there is a
      next page, which resumes after the last row served. */
  method BuildPage(rows: seq<Key>, ghost feed: Feed, ghost s: Snapshot, ghost start: PageStart) returns (page: Page)
    requires rows == Query(feed, s, start, PAGE_SIZE + 1)
    ensures page == PageOf(feed, s, start)
    ensures |rows| <= 20 ==> page == Page(rows, None)
    ensures |rows| > 20 ==> page == Page(rows[..20], Some(rows[19]))
  {
    hide Query, Selected, Ascending;
    var kept, next := rows, None;
    if |rows| > PAGE_SIZE {
      kept := rows[..PAGE_SIZE];
      next := Some(kept[|kept| - 1]);
    }
    var out: seq<Key> := [];
    for i := 0 to |kept|
      invariant out == kept[..i]
    {
      out := out + [kept[i]];
    }
    page := Page(out, next);
  }

  /** parsePageStart, with the cursor and time decoders as parameters; the error
      is the HTTP status. */
  function ParsePageStart(cursor: string, startsAt: string, decode: string -> Option<Key>,
                          parseTime: string -> Option<int>): Result<PageStart, int> {
    if cursor != "" && startsAt != "" then Err(422)
    else if cursor != "" then
      match decode(cursor)
      case None => Err(400)
      case Some(k) => Ok(Cursor(k))
    else if startsAt != "" then
      match parseTime(startsAt)
      case None => Err(400)
      case Some(t) => Ok(After(t))
    else Ok(First)
  }

  // ---------------------------------------------------------------------
  // A page splits what is left into what it serves and what comes after
  // ---------------------------------------------------------------------

  lemma PrefixOfAll(all: seq<Key>, n: nat, k: Key)
    requires Increasing(all) && 0 < n <= |all| && k in all
    ensures Increasing(all[..n]) && (k in all[..n] <==> !Less(all[n - 1], k))
    ensures Increasing(all[n..]) && (k in all[n..] <==> Less(all[n - 1], k))
  {
    var i :| 0 <= i < |all| && all[i] == k;
    if i < n {
      assert all[..n][i] == k;
      assert forall j :: n <= j < |all| ==> Less(all[i], all[j]);
    } else {
      assert all[n..][i - n] == k;
      assert forall j :: 0 <= j < n ==> Less(all[j], all[i]);
    }
  }

  lemma PageSplits(feed: Feed, s: Snapshot, start: PageStart)
    ensures var page := PageOf(feed, s, start);
            && Increasing(page.keys)
            && (forall k :: k in page.keys ==> k in Selected(feed, s, start))
            && (page.next.None? ==> forall k :: k in Selected(feed, s, start) ==> k in page.keys)
            && (page.next.Some? ==>
                  && |page.keys| == PAGE_SIZE && page.next.value == page.keys[PAGE_SIZE - 1]
                  && forall k :: k in Selected(feed, s, start) ==> (k in page.keys <==> !Less(page.next.value, k)))
  {
    hide Selected;
    var all := Ascending(Selected(feed, s, start));
    var page := PageOf(feed, s, start);
    if |all| > PAGE_SIZE {
      assert page.keys == all[..PAGE_SIZE] && page.next == Some(all[PAGE_SIZE - 1]);
      assert forall k :: k in page.keys ==> k in all;
      forall k | k in Selected(feed, s, start)
        ensures k in page.keys <==> !Less(page.next.value, k)
      {
        PrefixOfAll(all, PAGE_SIZE, k);
      }
    } else {
      assert page == Page(all, None);
    }
  }

  /** Successive requests: request i sees snapshots[i]. The client stops when a
      page has no next_cursor, or after the last snapshot. */
  ghost function Walk(feed: Feed, snapshots: seq<Snapshot>, start: PageStart): (pages: seq<Page>)
    ensures |pages| <= |snapshots|
    ensures snapshots != [] ==> pages != [] && pages[0] == PageOf(feed, snapshots[0], start)
    decreases |snapshots|
  {
    if snapshots == [] then []
    else
      var page := PageOf(feed, snapshots[0], start);
      if page.next.None? then [page] else [page] + Walk(feed, snapshots[1..], Cursor(page.next.value))
  }

  ghost function Served(pages: seq<Page>): seq<Key>
    decreases |pages|
  {
    if pages == [] then [] else pages[0].keys + Served(pages[1..])
  }

  ghost predicate Ended(pages: seq<Page>) {
    pages != [] && pages[|pages| - 1].next.None?
  }

  lemma WalkCons(feed: Feed, snapshots: seq<Snapshot>, start: PageStart)
    requires snapshots != []
    ensures var page, pages := PageOf(feed, snapshots[0], start), Walk(feed, snapshots, start);
            && pages[0] == page
            && pages[1..] == (if page.next.None? then [] else Walk(feed, snapshots[1..], Cursor(page.next.value)))
            && Served(pages) == page.keys + Served(pages[1..])
            && (Ended(pages) && page.next.Some? ==> Ended(pages[1..]))
  {
    var page, pages := PageOf(feed, snapshots[0], start), Walk(feed, snapshots, start);
    if page.next.Some? {
      var rest := Walk(feed, snapshots[1..], Cursor(page.next.value));
      assert pages == [page] + rest;
    }
  }

  /** Whatever happens to the tables between requests, the keys served are
      strictly increasing, so none is served twice. */
  lemma {:induction false} WalkIsIncreasing(feed: Feed, snapshots: seq<Snapshot>, start: PageStart)
    ensures Increasing(Served(Walk(feed, snapshots, start)))
    ensures forall k :: k in Served(Walk(feed, snapshots, start)) ==> Begins(start, k)
    decreases |snapshots|
  {
    hide PageOf, Selected, Shows;
    if snapshots == [] {
    } else {
      WalkCons(feed, snapshots, start);
      var page := PageOf(feed, snapshots[0], start);
      PageSplits(feed, snapshots[0], start);
      SelectedBegins(feed, snapshots[0], start);
      if page.next.Some? {
        WalkIsIncreasing(feed, snapshots[1..], Cursor(page.next.value));
        JoinIncreasing(page.keys, Served(Walk(feed, snapshots[1..], Cursor(page.next.value))), start);
      }
    }
  }

  lemma SelectedBegins(feed: Feed, s: Snapshot, start: PageStart)
    ensures forall k :: k in Selected(feed, s, start) ==>
            Begins(start, k) && Shows(feed, s, k.id)
            && KeyOf(s, k.id) == k
  {
  }

  lemma ShownIsSelected(feed: Feed, s: Snapshot, start: PageStart, k: Key)
    requires Shows(feed, s, k.id) && KeyOf(s, k.id) == k && Begins(start, k)
    ensures k in Selected(feed, s, start)
  {
  }

  lemma JoinIncreasing(a: seq<Key>, b: seq<Key>, start: PageStart)
    requires a != [] && Increasing(a) && Increasing(b)
    requires forall k :: k in a ==> Begins(start, k)
    requires forall k :: k in b ==> Less(a[|a| - 1], k)
    ensures Increasing(a + b)
    ensures forall k :: k in a + b ==> Begins(start, k)
  {
    var last := a[|a| - 1];
    assert last in a;
    forall i, j | 0 <= i < j < |a + b|
      ensures Less((a + b)[i], (a + b)[j])
    {
      if i < |a| <= j {
        assert b[j - |a|] in b;
        assert i == |a| - 1 || Less(a[i], last);
      }
    }
  }

  /** The row is there, matches the feed and keeps its key in every snapshot. */
  ghost predicate StaysPut(feed: Feed, snapshots: seq<Snapshot>, k: Key) {
    forall s :: s in snapshots ==> Shows(feed, s, k.id) && KeyOf(s, k.id) == k
  }

  lemma EndedHasAPage(feed: Feed, snapshots: seq<Snapshot>, start: PageStart)
    ensures Ended(Walk(feed, snapshots, start)) ==> snapshots != []
  {
  }

  lemma {:induction false} WalkServes(feed: Feed, snapshots: seq<Snapshot>, start: PageStart, k: Key)
    requires StaysPut(feed, snapshots, k) && Begins(start, k) && Ended(Walk(feed, snapshots, start))
    ensures k in Served(Walk(feed, snapshots, start))
    decreases |snapshots|
  {
    hide PageOf;
    EndedHasAPage(feed, snapshots, start);
    WalkCons(feed, snapshots, start);
    var page := PageOf(feed, snapshots[0], start);
    PageSplits(feed, snapshots[0], start);
    assert snapshots[0] in snapshots;
    ShownIsSelected(feed, snapshots[0], start, k);
    if k in page.keys {
    } else {
      WalkServes(feed, snapshots[1..], Cursor(page.next.value), k);
    }
  }

  function Occurrences(ks: seq<Key>, k: Key): nat {
    multiset(ks)[k]
  }

  lemma {:induction false} IncreasingHasEachOnce(ks: seq<Key>, k: Key)
    requires Increasing(ks) && k in ks
    ensures Occurrences(ks, k) == 1
    decreases |ks|
  {
    assert ks == [ks[0]] + ks[1..];
    if k == ks[0] {
      assert forall j :: 0 <= j < |ks[1..]| ==> ks[1..][j] == ks[j + 1] && Less(ks[0], ks[j + 1]);
      assert k !in ks[1..];
    } else {
      IncreasingHasEachOnce(ks[1..], k);
    }
  }

  /** A client that follows next_cursor to its end meets exactly once every row
      that stayed put, while rows are added, moved, archived or removed around
      it, whether it began at the beginning, at an instant or at a cursor. */
  lemma StableRowsServedExactlyOnce(feed: Feed, snapshots: seq<Snapshot>, start: PageStart, k: Key)
    requires StaysPut(feed, snapshots, k) && Begins(start, k) && Ended(Walk(feed, snapshots, start))
    ensures Occurrences(Served(Walk(feed, snapshots, start)), k) == 1
  {
    WalkServes(feed, snapshots, start, k);
    WalkIsIncreasing(feed, snapshots, start);
    IncreasingHasEachOnce(Served(Walk(feed, snapshots, start)), k);
  }

  /** Nothing is invented: every key served was selected by its own request. */
  lemma {:induction false} ServedRowsWereThere(feed: Feed, snapshots: seq<Snapshot>, start: PageStart, k: Key)
    requires k in Served(Walk(feed, snapshots, start))
    ensures exists s :: s in snapshots && Shows(feed, s, k.id) && KeyOf(s, k.id) == k
    decreases |snapshots|
  {
    hide PageOf;
    WalkCons(feed, snapshots, start);
    var page := PageOf(feed, snapshots[0], start);
    PageSplits(feed, snapshots[0], start);
    if k in page.keys {
      assert k in Selected(feed, snapshots[0], start);
    } else {
      ServedRowsWereThere(feed, snapshots[1..], Cursor(page.next.value), k);
    }
  }

  // ---------------------------------------------------------------------
  // On a table that does not change
  // ---------------------------------------------------------------------

  ghost function Still(s: Snapshot, n: nat): seq<Snapshot> {
    seq(n, i => s)
  }

  lemma {:induction false} StillWalkEnds(feed: Feed, s: Snapshot, start: PageStart, n: nat)
    requires |Selected(feed, s, start)| < PAGE_SIZE * n + 1 && n > 0
    ensures Ended(Walk(feed, Still(s, n), start))
    decreases n
  {
    hide PageOf;
    WalkCons(feed, Still(s, n), start);
    var page := PageOf(feed, s, start);
    PageSplits(feed, s, start);
    if page.next.None? {
    } else {
      LeftOver(feed, s, start, page);
      assert Still(s, n)[1..] == Still(s, n - 1);
      if n > 1 {
        StillWalkEnds(feed, s, Cursor(page.next.value), n - 1);
      }
    }
  }

  lemma LeftOver(feed: Feed, s: Snapshot, start: PageStart, page: Page)
    requires page == PageOf(feed, s, start) && page.next.Some?
    ensures |Selected(feed, s, Cursor(page.next.value))| == |Selected(feed, s, start)| - PAGE_SIZE > 0
  {
    var all, rest := Ascending(Selected(feed, s, start)), Selected(feed, s, Cursor(page.next.value));
    var tail := all[PAGE_SIZE..];
    assert all[PAGE_SIZE - 1] == page.next.value && all[PAGE_SIZE - 1] in all;
    forall k
      ensures k in tail <==> k in rest
    {
      if k in tail {
        assert k in all;
      }
      if k in rest {
        assert k in Selected(feed, s, start);
      }
      if k in all {
        PrefixOfAll(all, PAGE_SIZE, k);
      }
    }
    PrefixOfAll(all, PAGE_SIZE, page.next.value);
    IncreasingIsUnique(tail, Ascending(rest));
  }

  /** The pages of a still table concatenate to the whole sorted, filtered list,
      also when page one was asked for by starts_at and the rest by cursor alone;
      and the walk ends after one page per 20 rows, rounded up. */
  lemma StillTableIsServedWhole(feed: Feed, s: Snapshot, start: PageStart, n: nat)
    requires n > 0 && |Selected(feed, s, start)| <= PAGE_SIZE * n
    ensures Ended(Walk(feed, Still(s, n), start))
    ensures Served(Walk(feed, Still(s, n), start)) == Ascending(Selected(feed, s, start))
  {
    hide Walk, Selected, Shows, Ended;
    var snapshots := Still(s, n);
    StillWalkEnds(feed, s, start, n);
    WalkIsIncreasing(feed, snapshots, start);
    var served := Served(Walk(feed, snapshots, start));
    forall k
      ensures k in served <==> k in Selected(feed, s, start)
    {
      StillServes(feed, s, start, n, k);
    }
    IncreasingIsUnique(served, Ascending(Selected(feed, s, start)));
  }

  lemma StillServes(feed: Feed, s: Snapshot, start: PageStart, n: nat, k: Key)
    requires n > 0 && Ended(Walk(feed, Still(s, n), start))
    ensures k in Served(Walk(feed, Still(s, n), start)) <==> k in Selected(feed, s, start)
  {
    hide Walk, Ended, Shows, Served, Selected, StaysPut, Begins, Still;
    if k in Served(Walk(feed, Still(s, n), start)) {
      StillServesOnly(feed, s, start, n, k);
    }
    if k in Selected(feed, s, start) {
      SelectedBegins(feed, s, start);
      StaysWhenStill(feed, s, n, k);
      WalkServes(feed, Still(s, n), start, k);
    }
  }

  lemma StaysWhenStill(feed: Feed, s: Snapshot, n: nat, k: Key)
    requires Shows(feed, s, k.id) && KeyOf(s, k.id) == k
    ensures StaysPut(feed, Still(s, n), k)
  {
    hide Shows;
  }

  lemma StillServesOnly(feed: Feed, s: Snapshot, start: PageStart, n: nat, k: Key)
    requires k in Served(Walk(feed, Still(s, n), start))
    ensures k in Selected(feed, s, start)
  {
    hide Walk, Ended, Shows, Served, Selected;
    ServedRowsWereThere(feed, Still(s, n), start, k);
    WalkIsIncreasing(feed, Still(s, n), start);
    ShownIsSelected(feed, s, start, k);
  }

  // ---------------------------------------------------------------------
  // Through opaque tokens
  // ---------------------------------------------------------------------

  /** What the client really does: it sends back the token it was given. A
      request the handler rejects ends the walk. */
  ghost function TokenWalk(feed: Feed, snapshots: seq<Snapshot>, cursor: string, startsAt: string,
                           encode: Key -> string, decode: string -> Option<Key>,
                           parseTime: string -> Option<int>): seq<Page>
    decreases |snapshots|
  {
    if snapshots == [] then []
    else match ParsePageStart(cursor, startsAt, decode, parseTime)
      case Err(_) => []
      case Ok(start) =>
        var page := PageOf(feed, snapshots[0], start);
        if page.next.None? then [page]
        else [page] + TokenWalk(feed, snapshots[1..], encode(page.next.value), "", encode, decode, parseTime)
  }

  /** Every event of the snapshot has a key in the codec's range. */
  ghost predicate Within(s: Snapshot, range: Key -> bool) {
    forall id :: id in s.events ==> range(KeyOf(s, id))
  }

  lemma NextIsWithin(feed: Feed, s: Snapshot, start: PageStart, range: Key -> bool)
    requires Within(s, range) && PageOf(feed, s, start).next.Some?
    ensures range(PageOf(feed, s, start).next.value)
  {
    hide PageOf, Selected;
    var page := PageOf(feed, s, start);
    PageSplits(feed, s, start);
    assert page.next.value in page.keys;
    SelectedBegins(feed, s, start);
    assert KeyOf(s, page.next.value.id) == page.next.value;
  }

  /** With a codec that loses nothing in its range and never yields the empty
      token there, the token walk is the walk proved above. */
  lemma {:induction false} TokensCarryTheWalk(feed: Feed, snapshots: seq<Snapshot>, cursor: string, startsAt: string,
                                              encode: Key -> string, decode: string -> Option<Key>,
                                              parseTime: string -> Option<int>,
                                              range: Key -> bool)
    requires forall k :: range(k) ==> encode(k) != "" && decode(encode(k)) == Some(k)
    requires forall s :: s in snapshots ==> Within(s, range)
    requires ParsePageStart(cursor, startsAt, decode, parseTime).Ok?
    ensures TokenWalk(feed, snapshots, cursor, startsAt, encode, decode, parseTime)
            == Walk(feed, snapshots, ParsePageStart(cursor, startsAt, decode, parseTime).value)
    decreases |snapshots|
  {
    hide PageOf, Within;
    if snapshots == [] {
    } else {
      var start := ParsePageStart(cursor, startsAt, decode, parseTime).value;
      var page := PageOf(feed, snapshots[0], start);
      if page.next.Some? {
        NextIsWithin(feed, snapshots[0], start, range);
        TokensCarryTheWalk(feed, snapshots[1..], encode(page.next.value), "", encode, decode, parseTime, range);
      }
    }
  }

  // ---------------------------------------------------------------------
  // What the query parameters mean to the client
  // ---------------------------------------------------------------------

  /** Which events a user's feed shows: matched, current, not over, in the segment
      asked for or in none. */
  lemma UserFeedShows(user: nat, segment: Option<string>, s: Snapshot, id: nat)
    ensures Shows(UserFeed(user, segment), s, id) <==>
            && id in s.events && (user, id) in s.matches
            && var e := s.events[id];
               && !e.archived && s.now < e.overAt && e.venue in s.cityOfVenue
               && !(segment.Some? && e.segment.Some? && e.segment.value != segment.value)
  {
  }

  /** Which events a city's feed shows: those at the city's venues, or at the one
      asked for, under the same conditions. */
  lemma CityFeedShows(city: nat, segment: Option<string>, venue: Option<nat>, s: Snapshot, id: nat)
    ensures Shows(CityFeed(city, segment, venue), s, id) <==>
            && id in s.events
            && var e := s.events[id];
               && !e.archived && s.now < e.overAt && e.venue in s.cityOfVenue && s.cityOfVenue[e.venue] == city
               && !(segment.Some? && e.segment.Some? && e.segment.value != segment.value)
               && !(venue.Some? && e.venue != venue.value)
  {
  }

  /** A lossless codec, and events whose keys it can spell. */
  ghost predicate Spells(snapshots: seq<Snapshot>, encode: Key -> string, decode: string -> Option<Key>,
                         range: Key -> bool) {
    (forall k :: range(k) ==> encode(k) != "" && decode(encode(k)) == Some(k)) && forall s ::
        s in snapshots
        ==> Within(s, range)
  }

  /** What the walk serves from a start, whatever the tables do; and everything
      from there on if they keep still and the walk ended. */
  lemma WalkFrom(feed: Feed, snapshots: seq<Snapshot>, start: PageStart, k: Key)
    ensures Increasing(Served(Walk(feed, snapshots, start)))
    ensures k in Served(Walk(feed, snapshots, start)) ==> Begins(start, k)
    ensures snapshots != [] && Ended(Walk(feed, snapshots, start)) && snapshots == Still(snapshots[0], |snapshots|) ==>
              (k in Served(Walk(feed, snapshots, start)) <==>
               Shows(feed, snapshots[0], k.id) && KeyOf(snapshots[0], k.id) == k && Begins(start, k))
  {
    hide Walk, Served, Ended, Shows, Selected, Still, Begins;
    WalkIsIncreasing(feed, snapshots, start);
    if snapshots != [] && Ended(Walk(feed, snapshots, start)) && snapshots == Still(snapshots[0], |snapshots|) {
      StillServes(feed, snapshots[0], start, |snapshots|, k);
      SelectedMeans(feed, snapshots[0], start, k);
    }
  }

  lemma SelectedMeans(feed: Feed, s: Snapshot, start: PageStart, k: Key)
    ensures k in Selected(feed, s, start) <==> Shows(feed, s, k.id) && KeyOf(s, k.id) == k && Begins(start, k)
  {
    hide Begins;
    SelectedBegins(feed, s, start);
    if Shows(feed, s, k.id) && KeyOf(s, k.id) == k && Begins(start, k) {
      ShownIsSelected(feed, s, start, k);
    }
  }

  /** With starts_at, everything strictly after that instant and nothing else. */
  lemma StartsAtBounds(feed: Feed, snapshots: seq<Snapshot>, startsAt: string, t: int, encode: Key -> string,
                       decode: string -> Option<Key>, parseTime: string -> Option<int>, range: Key -> bool, k: Key)
    requires Spells(snapshots, encode, decode, range) && startsAt != "" && parseTime(startsAt) == Some(t)
    ensures var pages := TokenWalk(feed, snapshots, "", startsAt, encode, decode, parseTime);
            && Increasing(Served(pages))
            && (k in Served(pages) ==> k.startsAt > t)
            && (snapshots != [] && Ended(pages) && snapshots == Still(snapshots[0], |snapshots|) ==>
                  (k in Served(pages) <==>
                   Shows(feed, snapshots[0], k.id) && KeyOf(snapshots[0], k.id) == k && k.startsAt > t))
  {
    hide TokenWalk, Walk, Served, Ended, Shows, Still, Within;
    TokensCarryTheWalk(feed, snapshots, "", startsAt, encode, decode, parseTime, range);
    WalkFrom(feed, snapshots, After(t), k);
  }

  /** With a cursor, everything after the row it names and nothing else. */
  lemma CursorBounds(feed: Feed, snapshots: seq<Snapshot>, cursor: string, c: Key, encode: Key -> string,
                     decode: string -> Option<Key>, parseTime: string -> Option<int>, range: Key -> bool, k: Key)
    requires Spells(snapshots, encode, decode, range) && cursor != "" && decode(cursor) == Some(c)
    ensures var pages := TokenWalk(feed, snapshots, cursor, "", encode, decode, parseTime);
            var after := k.startsAt > c.startsAt || (k.startsAt == c.startsAt && k.id > c.id);
            && Increasing(Served(pages))
            && (k in Served(pages) ==> after)
            && (snapshots != [] && Ended(pages) && snapshots == Still(snapshots[0], |snapshots|) ==>
                  (k in Served(pages) <==> Shows(feed, snapshots[0], k.id) && KeyOf(snapshots[0], k.id) == k && after))
  {
    hide TokenWalk, Walk, Served, Ended, Shows, Still, Within;
    TokensCarryTheWalk(feed, snapshots, cursor, "", encode, decode, parseTime, range);
    WalkFrom(feed, snapshots, Cursor(c), k);
  }

  /** With neither, the whole feed. */
  lemma NoBounds(feed: Feed, snapshots: seq<Snapshot>, encode: Key -> string, decode: string -> Option<Key>,
                 parseTime: string -> Option<int>, range: Key -> bool, k: Key)
    requires Spells(snapshots, encode, decode, range)
    ensures var pages := TokenWalk(feed, snapshots, "", "", encode, decode, parseTime);
            && Increasing(Served(pages))
            && (snapshots != [] && Ended(pages) && snapshots == Still(snapshots[0], |snapshots|) ==>
                  (k in Served(pages) <==> Shows(feed, snapshots[0], k.id) && KeyOf(snapshots[0], k.id) == k))
  {
    hide TokenWalk, Walk, Served, Ended, Shows, Still, Within;
    TokensCarryTheWalk(feed, snapshots, "", "", encode, decode, parseTime, range);
    WalkFrom(feed, snapshots, First, k);
  }

  /** 422 for both parameters at once, 400 for one that does not decode, and no
      error otherwise. */
  lemma ParameterErrors(cursor: string, startsAt: string, decode: string -> Option<Key>,
                        parseTime: string -> Option<int>)
    ensures var r := ParsePageStart(cursor, startsAt, decode, parseTime);
            && (r == Err(422) <==> cursor != "" && startsAt != "")
            && (r == Err(400) <==> (cursor == "" || startsAt == "")
                                   && ((cursor != "" && decode(cursor).None?)
                                       || (startsAt != "" && parseTime(startsAt).None?)))
            && (r.Err? ==> r == Err(422) || r == Err(400))
  {
  }

  /** With both, or with one that does not decode, no page at all. */
  lemma BadParametersServeNothing(feed: Feed, snapshots: seq<Snapshot>, cursor: string, startsAt: string,
                                  encode: Key -> string,
                                  decode: string -> Option<Key>, parseTime: string -> Option<int>)
    requires (cursor != "" && startsAt != "") || (cursor != "" && decode(cursor).None?)
             || (startsAt != "" && parseTime(startsAt).None?)
    ensures TokenWalk(feed, snapshots, cursor, startsAt, encode, decode, parseTime) == []
  {
  }

  /** How the columns' values and the codec's correspond: a timestamp and its
      calendar fields, an id and its sixteen bytes. */
  datatype Columns = Columns(instantOf: int -> Instant, timeOf: Instant -> int, uuidOf: nat -> CursorCodec.Uuid,
                             idOf: CursorCodec.Uuid -> nat) {
    function Encode(k: Key): string {
      if ValidInstant(instantOf(k.startsAt)) then CursorCodec.EncodeCursor(instantOf(k.startsAt), uuidOf(k.id)) else ""
    }

    function Decode(token: string): Option<Key> {
      match CursorCodec.DecodeCursor(token)
      case None => None
      case Some((t, u)) => Some(Key(timeOf(t), idOf(u)))
    }

    /** Years 0 to 9999, and nothing lost by the conversions themselves. */
    predicate Holds(k: Key) {
      ValidInstant(instantOf(k.startsAt)) && timeOf(instantOf(k.startsAt)) == k.startsAt && idOf(uuidOf(k.id)) == k.id
    }
  }

  lemma ColumnsRoundTrip(cs: Columns, k: Key)
    requires cs.Holds(k)
    ensures cs.Encode(k) != "" && cs.Decode(cs.Encode(k)) == Some(k)
  {
    hide CursorCodec.EncodeCursor, CursorCodec.DecodeCursor;
    CursorCodec.CursorRoundTrip(cs.instantOf(k.startsAt), cs.uuidOf(k.id));
    CursorCodec.EmptyTokenIsRejected();
  }

  /** The service's own tokens carry the walk. */
  lemma CursorsCarryTheWalk(feed: Feed, snapshots: seq<Snapshot>, cursor: string, startsAt: string, cs: Columns,
                            parseTime: string -> Option<int>)
    requires forall s :: s in snapshots ==> Within(s, k => cs.Holds(k))
    requires ParsePageStart(cursor, startsAt, token => cs.Decode(token), parseTime).Ok?
    ensures TokenWalk(feed, snapshots, cursor, startsAt, k => cs.Encode(k), token => cs.Decode(token), parseTime)
            == Walk(feed, snapshots, ParsePageStart(cursor, startsAt, token => cs.Decode(token), parseTime).value)
  {
    hide Columns.Encode, Columns.Decode, Columns.Holds, ParsePageStart, TokenWalk, Walk, Within;
    forall k | cs.Holds(k)
      ensures cs.Encode(k) != "" && cs.Decode(cs.Encode(k)) == Some(k)
    {
      ColumnsRoundTrip(cs, k);
    }
    TokensCarryTheWalk(feed, snapshots, cursor, startsAt, k => cs.Encode(k), token => cs.Decode(token), parseTime,
                       k => cs.Holds(k));
  }
}
