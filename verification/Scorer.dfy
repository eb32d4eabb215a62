/** The match score of one user and one event, over the reals, and the artist
    list it is computed from. */
module Scorer {
  import opened Common

  // ---------------------------------------------------------------------
  // foldDeduped
  // ---------------------------------------------------------------------

  function Keys<T>(items: seq<T>, key: T -> string): set<string> {
    set i | 0 <= i < |items| :: key(items[i])
  }

  ghost predicate DistinctKeys<T>(items: seq<T>, key: T -> string) {
    forall i, j :: 0 <= i < j < |items| ==> key(items[i]) != key(items[j])
  }

  /** base, then the items of extra whose key has not been seen yet. */
  function Folded<T>(base: seq<T>, extra: seq<T>, key: T -> string): seq<T>
    decreases |extra|
  {
    if extra == [] then base
    else
      var init, last := Folded(base, extra[..|extra| - 1], key), extra[|extra| - 1];
      if key(last) in Keys(init, key) then init else init + [last]
  }

  lemma KeysSnoc<T>(items: seq<T>, x: T, key: T -> string)
    ensures Keys(items + [x], key) == Keys(items, key) + {key(x)}
  {
    var all := items + [x];
    forall k | k in Keys(items, key) + {key(x)}
      ensures k in Keys(all, key)
    {
      if k == key(x) {
        assert all[|items|] == x;
      } else {
        var i :| 0 <= i < |items| && key(items[i]) == k;
        assert all[i] == items[i];
      }
    }
  }

  method FoldDeduped<T>(base: seq<T>, extra: seq<T>, key: T -> string) returns (r: seq<T>)
    ensures r == Folded(base, extra, key)
  {
    var seen: set<string> := {};
    for i := 0 to |base|
      invariant seen == Keys(base[..i], key)
    {
      assert base[..i + 1] == base[..i] + [base[i]];
      KeysSnoc(base[..i], base[i], key);
      seen := seen + {key(base[i])};
    }
    assert base[..|base|] == base;
    r := base;
    for i := 0 to |extra|
      invariant r == Folded(base, extra[..i], key)
      invariant seen == Keys(r, key)
    {
      assert extra[..i + 1][..i] == extra[..i];
      var k := key(extra[i]);
      if k in seen {
        continue;
      }
      KeysSnoc(r, extra[i], key);
      seen := seen + {k};
      r := r + [extra[i]];
    }
    assert extra[..|extra|] == extra;
  }

  /** The first item with the key. */
  function Lookup<T>(items: seq<T>, key: T -> string, k: string): Option<T>
    decreases |items|
  {
    if items == [] then None
    else if key(items[0]) == k then Some(items[0])
    else Lookup(items[1..], key, k)
  }

  lemma {:induction false} LookupSnoc<T>(items: seq<T>, x: T, key: T -> string, k: string)
    ensures Lookup(items + [x], key, k) ==
            if Lookup(items, key, k).Some? then Lookup(items, key, k) else if key(x) == k then Some(x) else None
    decreases |items|
  {
    if items == [] {
      assert [] + [x] == [x];
    } else {
      assert (items + [x])[1..] == items[1..] + [x];
      LookupSnoc(items[1..], x, key, k);
    }
  }

  lemma {:induction false} LookupFinds<T>(items: seq<T>, key: T -> string, k: string)
    ensures Lookup(items, key, k).Some? <==> k in Keys(items, key)
    decreases |items|
  {
    if items == [] {
    } else {
      LookupFinds(items[1..], key, k);
      if k in Keys(items, key) {
        var i :| 0 <= i < |items| && key(items[i]) == k;
        if i > 0 {
          assert items[1..][i - 1] == items[i];
        }
      }
      if k in Keys(items[1..], key) {
        var i :| 0 <= i < |items[1..]| && key(items[1..][i]) == k;
        assert items[i + 1] == items[1..][i];
      }
    }
  }

  /** Folding keeps base's item for every key base has, and otherwise takes
      extra's first; it never introduces a duplicate key. */
  lemma {:induction false} FoldPrecedence<T>(base: seq<T>, extra: seq<T>, key: T -> string, k: string)
    ensures Lookup(Folded(base, extra, key), key, k) ==
            if Lookup(base, key, k).Some? then Lookup(base, key, k) else Lookup(extra, key, k)
    decreases |extra|
  {
    if extra == [] {
    } else {
      var init, last := extra[..|extra| - 1], extra[|extra| - 1];
      FoldPrecedence(base, init, key, k);
      assert extra == init + [last];
      LookupSnoc(init, last, key, k);
      var folded := Folded(base, init, key);
      LookupSnoc(folded, last, key, k);
      LookupFinds(folded, key, key(last));
    }
  }

  lemma {:induction false} FoldStaysDistinct<T>(base: seq<T>, extra: seq<T>, key: T -> string)
    requires DistinctKeys(base, key)
    ensures DistinctKeys(Folded(base, extra, key), key)
    decreases |extra|
  {
    if extra == [] {
    } else {
      FoldStaysDistinct(base, extra[..|extra| - 1], key);
    }
  }

  // ---------------------------------------------------------------------
  // Interests
  // ---------------------------------------------------------------------

  datatype Kind = TopArtist | TrackArtist | SavedArtist | TopGenre | ManualTag

  datatype InterestRow = InterestRow(user: nat, kind: Kind, value: string, normalized: string, weight: real)

  datatype Interest = Interest(value: string, normalized: string, weight: real)

  function OfKind(rows: seq<InterestRow>, user: nat, kind: Kind): seq<Interest>
    decreases |rows|
  {
    if rows == [] then []
    else
      var last := rows[|rows| - 1];
      OfKind(rows[..|rows| - 1], user, kind)
      + (if last.user == user && last.kind == kind then [Interest(last.value, last.normalized, last.weight)] else [])
  }

  const NORMALIZED := (i: Interest) => i.normalized

  /** The artists the scorer sees: top, then track, then saved-song artists. */
  function ScorerArtists(rows: seq<InterestRow>, user: nat): seq<Interest> {
    Folded(Folded(OfKind(rows, user, TopArtist), OfKind(rows, user, TrackArtist), NORMALIZED),
           OfKind(rows, user, SavedArtist), NORMALIZED)
  }

  function Values(items: seq<Interest>): seq<string> {
    seq(|items|, i requires 0 <= i < |items| => items[i].value)
  }

  /** The artist names the embedder sees: it folds display names, keyed by
      normalizing them again. */
  function EmbedderArtists(rows: seq<InterestRow>, user: nat, normalize: string -> string): seq<string> {
    Folded(Folded(Values(OfKind(rows, user, TopArtist)), Values(OfKind(rows, user, TrackArtist)), normalize),
           Values(OfKind(rows, user, SavedArtist)), normalize)
  }

  datatype UserProfile = UserProfile(user: nat, embedding: seq<real>, threshold: Option<real>,
                                     artists: seq<Interest>, genres: seq<Interest>, tags: seq<Interest>)

  datatype UserRow = UserRow(id: nat, embedding: seq<real>, threshold: Option<real>)

  function ProfileOf(u: UserRow, rows: seq<InterestRow>): UserProfile {
    UserProfile(u.id, u.embedding, u.threshold, ScorerArtists(rows, u.id), OfKind(rows, u.id, TopGenre),
                OfKind(rows, u.id, ManualTag))
  }

  datatype Buckets = Buckets(top: seq<Interest>, track: seq<Interest>, saved: seq<Interest>, genres: seq<Interest>,
                             tags: seq<Interest>)

  function BucketsOf(rows: seq<InterestRow>, user: nat): Buckets {
    Buckets(OfKind(rows, user, TopArtist), OfKind(rows, user, TrackArtist), OfKind(rows, user, SavedArtist),
            OfKind(rows, user, TopGenre), OfKind(rows, user, ManualTag))
  }

  /** The switch on ui.Kind. */
  function Filed(b: Buckets, r: InterestRow): Buckets {
    var ni := Interest(r.value, r.normalized, r.weight);
    match r.kind
    case TopArtist => b.(top := b.top + [ni])
    case TrackArtist => b.(track := b.track + [ni])
    case SavedArtist => b.(saved := b.saved + [ni])
    case TopGenre => b.(genres := b.genres + [ni])
    case ManualTag => b.(tags := b.tags + [ni])
  }

  lemma BucketsSnoc(rows: seq<InterestRow>, r: InterestRow, user: nat)
    ensures BucketsOf(rows + [r], user) == if r.user == user then Filed(BucketsOf(rows, user), r)
            else BucketsOf(rows, user)
  {
    assert (rows + [r])[..|rows|] == rows;
  }

  method FileInterests(users: seq<UserRow>, rows: seq<InterestRow>) returns (profiles: map<nat, Buckets>)
    requires forall r :: r in rows ==> exists u :: u in users && u.id == r.user
    ensures forall u :: u in users ==> u.id in profiles && profiles[u.id] == BucketsOf(rows, u.id)
  {
    hide BucketsOf, Filed;
    profiles := map[];
    for i := 0 to |users|
      invariant forall u :: u in users[..i] ==> u.id in profiles
      invariant forall id :: id in profiles ==> profiles[id] == BucketsOf([], id)
    {
      NothingFiled(users[i].id);
      profiles := profiles[users[i].id := Buckets([], [], [], [], [])];
    }
    for i := 0 to |rows|
      invariant forall u :: u in users ==> u.id in profiles
      invariant forall id :: id in profiles ==> profiles[id] == BucketsOf(rows[..i], id)
    {
      var r := rows[i];
      assert r in rows;
      assert rows[..i + 1] == rows[..i] + [r];
      forall id | id in profiles {
        BucketsSnoc(rows[..i], r, id);
      }
      profiles := profiles[r.user := Filed(profiles[r.user], r)];
    }
    assert rows[..|rows|] == rows;
  }

  lemma NothingFiled(user: nat)
    ensures BucketsOf([], user) == Buckets([], [], [], [], [])
  {
  }

  /** loadUsers after its queries: sort the interests of all users into lists,
      then fold each user's three artist lists. */
  method LoadUsers(users: seq<UserRow>, rows: seq<InterestRow>) returns (out: seq<UserProfile>)
    requires forall r :: r in rows ==> exists u :: u in users && u.id == r.user
    ensures |out| == |users|
    ensures forall i :: 0 <= i < |users| ==> out[i] == ProfileOf(users[i], rows)
    ensures forall i :: 0 <= i < |users| ==>
              && out[i].user == users[i].id && out[i].embedding == users[i].embedding
              && out[i].threshold == users[i].threshold && out[i].artists == ScorerArtists(rows, users[i].id)
              && out[i].genres == OfKind(rows, users[i].id, TopGenre)
              && out[i].tags == OfKind(rows, users[i].id, ManualTag)
  {
    hide OfKind, Folded;
    var profiles := FileInterests(users, rows);
    out := [];
    for i := 0 to |users|
      invariant |out| == i
      invariant forall j :: 0 <= j < i ==> out[j] == ProfileOf(users[j], rows)
    {
      var u := users[i];
      assert u in users;
      var b := profiles[u.id];
      var artists := FoldDeduped(b.top, b.track, NORMALIZED);
      artists := FoldDeduped(artists, b.saved, NORMALIZED);
      out := out + [UserProfile(u.id, u.embedding, u.threshold, artists, b.genres, b.tags)];
    }
  }

  /** Rows are unique per user, kind and normalized value. */
  ghost predicate UniqueRows(rows: seq<InterestRow>) {
    forall i, j :: 0 <= i < j < |rows| ==>
      rows[i].user != rows[j].user || rows[i].kind != rows[j].kind || rows[i].normalized != rows[j].normalized
  }

  /** A list of a kind holds exactly the user's rows of that kind. */
  lemma {:induction false} OfKindMembers(rows: seq<InterestRow>, user: nat, kind: Kind, ni: Interest)
    ensures ni in OfKind(rows, user, kind)
       <==> InterestRow(user, kind, ni.value, ni.normalized, ni.weight) in rows
    decreases |rows|
  {
    if rows == [] {
    } else {
      var init, last := rows[..|rows| - 1], rows[|rows| - 1];
      assert rows == init + [last];
      OfKindMembers(init, user, kind, ni);
      assert InterestRow(user, kind, ni.value, ni.normalized, ni.weight) in rows <==>
             InterestRow(user, kind, ni.value, ni.normalized, ni.weight) in init
             || InterestRow(user, kind, ni.value, ni.normalized, ni.weight) == last;
    }
  }

  lemma {:induction false} OfKindOrigin(rows: seq<InterestRow>, user: nat, kind: Kind, ni: Interest)
    requires ni in OfKind(rows, user, kind)
    ensures exists r ::
            r in rows && r.user == user && r.kind == kind && r.normalized == ni.normalized
            && r.value == ni.value
    decreases |rows|
  {
    var init, last := rows[..|rows| - 1], rows[|rows| - 1];
    if ni in OfKind(init, user, kind) {
      OfKindOrigin(init, user, kind, ni);
    } else {
      assert last in rows;
    }
  }

  lemma {:induction false} OfKindDistinct(rows: seq<InterestRow>, user: nat, kind: Kind)
    requires UniqueRows(rows)
    ensures DistinctKeys(OfKind(rows, user, kind), NORMALIZED)
    decreases |rows|
  {
    if rows == [] {
    } else {
      var init, last := rows[..|rows| - 1], rows[|rows| - 1];
      OfKindDistinct(init, user, kind);
      var items := OfKind(init, user, kind);
      if last.user == user && last.kind == kind {
        forall i | 0 <= i < |items|
          ensures items[i].normalized != last.normalized
        {
          OfKindOrigin(init, user, kind, items[i]);
        }
      }
    }
  }

  /** No artist is scored twice, and an artist found in several lists carries
      the weight of the highest-precedence one: top, then track, then saved. */
  lemma ArtistsFoldByPrecedence(rows: seq<InterestRow>, user: nat, k: string)
    requires UniqueRows(rows)
    ensures DistinctKeys(ScorerArtists(rows, user), NORMALIZED)
    ensures var top, track, saved := Lookup(OfKind(rows, user, TopArtist), NORMALIZED, k),
            Lookup(OfKind(rows, user, TrackArtist), NORMALIZED, k),
                                     Lookup(OfKind(rows, user, SavedArtist), NORMALIZED, k);
            Lookup(ScorerArtists(rows, user), NORMALIZED, k)
            == if top.Some? then top else if track.Some? then track else saved
  {
    var top, track, saved := OfKind(rows, user, TopArtist), OfKind(rows, user, TrackArtist),
        OfKind(rows, user, SavedArtist);
    OfKindDistinct(rows, user, TopArtist);
    FoldStaysDistinct(top, track, NORMALIZED);
    FoldStaysDistinct(Folded(top, track, NORMALIZED), saved, NORMALIZED);
    FoldPrecedence(top, track, NORMALIZED, k);
    FoldPrecedence(Folded(top, track, NORMALIZED), saved, NORMALIZED, k);
  }

  ghost predicate Consistent(items: seq<Interest>, normalize: string -> string) {
    forall ni :: ni in items ==> ni.normalized == normalize(ni.value)
  }

  lemma KeysOfValues(items: seq<Interest>, normalize: string -> string)
    requires Consistent(items, normalize)
    ensures Keys(items, NORMALIZED) == Keys(Values(items), normalize)
  {
    forall i | 0 <= i < |items|
      ensures NORMALIZED(items[i]) == normalize(Values(items)[i])
    {
      assert items[i] in items;
    }
  }

  lemma {:induction false} FoldCommutesWithValues(base: seq<Interest>, extra: seq<Interest>,
                                                  normalize: string -> string)
    requires Consistent(base, normalize) && Consistent(extra, normalize)
    ensures Consistent(Folded(base, extra, NORMALIZED), normalize)
    ensures Values(Folded(base, extra, NORMALIZED)) == Folded(Values(base), Values(extra), normalize)
    decreases |extra|
  {
    if extra == [] {
    } else {
      var init, last := extra[..|extra| - 1], extra[|extra| - 1];
      FoldCommutesWithValues(base, init, normalize);
      assert Values(extra)[..|extra| - 1] == Values(init);
      assert last in extra;
      var folded := Folded(base, init, NORMALIZED);
      KeysOfValues(folded, normalize);
      assert Values(folded + [last]) == Values(folded) + [last.value];
    }
  }

  lemma {:induction false} OfKindConsistent(rows: seq<InterestRow>, user: nat, kind: Kind, normalize: string -> string)
    requires forall r :: r in rows ==> r.normalized == normalize(r.value)
    ensures Consistent(OfKind(rows, user, kind), normalize)
    decreases |rows|
  {
    if rows == [] {
    } else {
      assert rows[|rows| - 1] in rows;
      OfKindConsistent(rows[..|rows| - 1], user, kind, normalize);
    }
  }

  /** The two implementations of the fold agree: the embedder embeds exactly the
      artists the scorer scores, in the same order. */
  lemma EmbedderAgreesWithScorer(rows: seq<InterestRow>, user: nat, normalize: string -> string)
    requires forall r :: r in rows ==> r.normalized == normalize(r.value)
    ensures EmbedderArtists(rows, user, normalize) == Values(ScorerArtists(rows, user))
  {
    OfKindConsistent(rows, user, TopArtist, normalize);
    OfKindConsistent(rows, user, TrackArtist, normalize);
    OfKindConsistent(rows, user, SavedArtist, normalize);
    var top, track, saved := OfKind(rows, user, TopArtist), OfKind(rows, user, TrackArtist),
        OfKind(rows, user, SavedArtist);
    FoldCommutesWithValues(top, track, normalize);
    FoldCommutesWithValues(Folded(top, track, NORMALIZED), saved, normalize);
  }

  // ---------------------------------------------------------------------
  // Cosine similarity
  // ---------------------------------------------------------------------

  /** A product under a name of its own, so that proofs can treat it as a value. */
  function Times(x: real, y: real): real { x * y }

  function Dot(a: seq<real>, b: seq<real>): real
    requires |a| == |b|
    decreases |a|
  {
    if a == [] then 0.0 else Dot(a[..|a| - 1], b[..|b| - 1]) + Times(a[|a| - 1], b[|b| - 1])
  }

  /** math.Sqrt, as far as the proofs need it. */
  ghost predicate IsSqrt(sqrt: real -> real) {
    forall x: real :: x >= 0.0 ==> sqrt(x) >= 0.0 && sqrt(x) * sqrt(x) == x
  }

  function Cosine(a: seq<real>, b: seq<real>, sqrt: real -> real): real {
    if |a| == 0 || |b| == 0 || |a| != |b| then 0.0
    else if Dot(a, a) == 0.0 || Dot(b, b) == 0.0 then 0.0
    else
      var scale := sqrt(Dot(a, a)) * sqrt(Dot(b, b));
      if scale == 0.0 then 0.0 else Dot(a, b) / scale
  }

  method CosineSimilarity(a: seq<real>, b: seq<real>, sqrt: real -> real) returns (r: real)
    requires IsSqrt(sqrt)
    ensures r == Cosine(a, b, sqrt)
  {
    if |a| == 0 || |b| == 0 || |a| != |b| {
      return 0.0;
    }
    var dot, normA, normB := 0.0, 0.0, 0.0;
    for i := 0 to |a|
      invariant dot == Dot(a[..i], b[..i]) && normA == Dot(a[..i], a[..i]) && normB == Dot(b[..i], b[..i])
    {
      assert a[..i + 1][..i] == a[..i] && b[..i + 1][..i] == b[..i];
      dot := dot + a[i] * b[i];
      normA := normA + a[i] * a[i];
      normB := normB + b[i] * b[i];
    }
    assert a[..|a|] == a && b[..|a|] == b;
    if normA == 0.0 || normB == 0.0 {
      return 0.0;
    }
    NormsArePositive(a, b, sqrt);
    r := dot / (sqrt(normA) * sqrt(normB));
  }

  /** The sum of the squares (x * a[i] - b[i])^2, from the three dot products. */
  ghost function Form(x: real, aa: real, ab: real, bb: real): real {
    x * x * aa - 2.0 * x * ab + bb
  }

  lemma {:induction false} QuadraticForm(a: seq<real>, b: seq<real>, x: real)
    requires |a| == |b|
    ensures Form(x, Dot(a, a), Dot(a, b), Dot(b, b)) >= 0.0
    decreases |a|
  {
    hide Form, Times;
    if a != [] {
      var p, q := a[..|a| - 1], b[..|b| - 1];
      QuadraticForm(p, q, x);
      OneMoreSquare(x, Dot(p, p), Dot(p, q), Dot(q, q), a[|a| - 1], b[|b| - 1], Dot(a, a), Dot(a, b), Dot(b, b));
    } else {
      assert b == [];
      FormAtZero(x);
    }
  }

  lemma FormAtZero(x: real)
    ensures Form(x, 0.0, 0.0, 0.0) == 0.0
  {
  }

  lemma OneMoreSquare(x: real, aa: real, ab: real, bb: real, u: real, v: real, aa': real, ab': real, bb': real)
    requires Form(x, aa, ab, bb) >= 0.0
    requires aa' == aa + Times(u, u) && ab' == ab + Times(u, v) && bb' == bb + Times(v, v)
    ensures Form(x, aa', ab', bb') >= 0.0
  {
    var d := x * u - v;
    assert d * d >= 0.0;
    assert d * d == x * x * (u * u) - 2.0 * x * (u * v) + v * v;
    assert x * x * (aa + u * u) == x * x * aa + x * x * (u * u);
    assert 2.0 * x * (ab + u * v) == 2.0 * x * ab + 2.0 * x * (u * v);
    assert aa' == aa + u * u && ab' == ab + u * v && bb' == bb + v * v;
    assert Form(x, aa', ab', bb') == x * x * (aa + u * u) - 2.0 * x * (ab + u * v) + (bb + v * v);
    assert Form(x, aa', ab', bb') == Form(x, aa, ab, bb) + d * d;
  }

  lemma SquareIsNonNegative(x: real)
    ensures Times(x, x) >= 0.0
  {
    if x >= 0.0 {
      assert x * x >= 0.0;
    } else {
      assert -x * -x >= 0.0;
    }
  }

  lemma {:induction false} NormIsNonNegative(a: seq<real>)
    ensures Dot(a, a) >= 0.0
    decreases |a|
  {
    if a == [] {
    } else {
      hide Times;
      NormIsNonNegative(a[..|a| - 1]);
      SquareIsNonNegative(a[|a| - 1]);
    }
  }

  /** For vectors of any length, zero vectors included. */
  lemma CauchySchwarz(a: seq<real>, b: seq<real>)
    requires |a| == |b|
    ensures Dot(a, b) * Dot(a, b) <= Dot(a, a) * Dot(b, b)
  {
    hide Form, Dot;
    NormIsNonNegative(a);
    NormIsNonNegative(b);
    DotIsSymmetric(a, b);
    if Dot(a, a) > 0.0 {
      var x := Dot(a, b) / Dot(a, a);
      QuadraticForm(a, b, x);
      AtTheMinimum(Dot(a, a), Dot(a, b), Dot(b, b), x);
    } else if Dot(b, b) > 0.0 {
      var x := Dot(b, a) / Dot(b, b);
      QuadraticForm(b, a, x);
      AtTheMinimum(Dot(b, b), Dot(b, a), Dot(a, a), x);
    } else {
      QuadraticForm(a, b, 1.0);
      QuadraticForm(a, b, -1.0);
      FormWithoutNorms(Dot(a, b));
    }
  }

  lemma {:induction false} DotIsSymmetric(a: seq<real>, b: seq<real>)
    requires |a| == |b|
    ensures Dot(a, b) == Dot(b, a)
    decreases |a|
  {
    if a == [] {
    } else {
      DotIsSymmetric(a[..|a| - 1], b[..|b| - 1]);
    }
  }

  lemma FormWithoutNorms(ab: real)
    requires Form(1.0, 0.0, ab, 0.0) >= 0.0 && Form(-1.0, 0.0, ab, 0.0) >= 0.0
    ensures ab == 0.0
  {
  }

  lemma AtTheMinimum(aa: real, ab: real, bb: real, x: real)
    requires aa > 0.0 && x == ab / aa && Form(x, aa, ab, bb) >= 0.0
    ensures ab * ab <= aa * bb
  {
    assert x * aa == ab;
    assert x * x * aa == x * (x * aa);
    assert x * x * aa == x * ab;
    assert bb >= x * ab;
    assert aa * bb >= aa * (x * ab) by { assert aa * (bb - x * ab) >= 0.0; }
    assert aa * (x * ab) == (x * aa) * ab;
  }

  lemma NormsArePositive(a: seq<real>, b: seq<real>, sqrt: real -> real)
    requires IsSqrt(sqrt) && Dot(a, a) != 0.0 && Dot(b, b) != 0.0
    ensures Dot(a, a) > 0.0 && Dot(b, b) > 0.0
    ensures sqrt(Dot(a, a)) > 0.0 && sqrt(Dot(b, b)) > 0.0 && sqrt(Dot(a, a)) * sqrt(Dot(b, b)) > 0.0
    ensures sqrt(Dot(a, a)) * sqrt(Dot(a, a)) == Dot(a, a) && sqrt(Dot(b, b)) * sqrt(Dot(b, b)) == Dot(b, b)
  {
    NormIsNonNegative(a);
    NormIsNonNegative(b);
    var p, q := sqrt(Dot(a, a)), sqrt(Dot(b, b));
    assert p * p == Dot(a, a) && q * q == Dot(b, b);
    assert p > 0.0 && q > 0.0;
  }

  lemma BiggerSquare(d: real, m: real)
    requires d > m > 0.0
    ensures d * d > m * m
  {
    assert (d - m) * (d + m) > 0.0;
    assert d * d - m * m == (d - m) * (d + m);
  }

  lemma SquareOrder(d: real, m: real)
    requires m > 0.0 && d * d <= m * m
    ensures -m <= d <= m
  {
    if d > m {
      BiggerSquare(d, m);
    } else if -d > m {
      BiggerSquare(-d, m);
    }
  }

  lemma RatioInRange(d: real, m: real)
    requires m > 0.0 && -m <= d <= m
    ensures -1.0 <= d / m <= 1.0
  {
  }

  lemma RatioBound(d: real, p: real, q: real)
    requires p > 0.0 && q > 0.0 && d * d <= (p * p) * (q * q)
    ensures p * q > 0.0 && -1.0 <= d / (p * q) <= 1.0
  {
    var m := p * q;
    assert m > 0.0;
    assert (p * p) * (q * q) == m * m;
    SquareOrder(d, m);
    RatioInRange(d, m);
  }

  /** For embeddings of any length the cosine lies in [-1, 1], and a non-zero
      embedding is at 1 with itself. */
  lemma CosineInRange(a: seq<real>, b: seq<real>, sqrt: real -> real)
    requires IsSqrt(sqrt)
    ensures -1.0 <= Cosine(a, b, sqrt) <= 1.0
    ensures Dot(a, a) != 0.0 ==> Cosine(a, a, sqrt) == 1.0
  {
    hide Dot, IsSqrt;
    if |a| == |b| && |a| != 0 && Dot(a, a) != 0.0 && Dot(b, b) != 0.0 {
      NormsArePositive(a, b, sqrt);
      CauchySchwarz(a, b);
      RatioBound(Dot(a, b), sqrt(Dot(a, a)), sqrt(Dot(b, b)));
    }
    if Dot(a, a) != 0.0 {
      NormsArePositive(a, a, sqrt);
      NothingIsZero();
    }
  }

  lemma NothingIsZero()
    ensures Dot([], []) == 0.0
  {
  }

  // ---------------------------------------------------------------------
  // The score
  // ---------------------------------------------------------------------

  datatype Config = Config(wString: real, wEmbedding: real, scoreThreshold: real, artistFactor: real,
                           genreFactor: real, stringMax: real)

  datatype Performer = Performer(display: string, normalized: string)

  datatype EventProfile = EventProfile(event: nat, embedding: seq<real>, performers: seq<Performer>,
                                       genres: seq<string>)

  datatype MatchScore = MatchScore(stringScore: real, embeddingScore: real, totalScore: real,
                                   matchedPerformers: seq<string>, matchedGenres: set<string>)

  /** The display name of the last performer with the normalized name. */
  function DisplayOf(performers: seq<Performer>, normalized: string): Option<string>
    decreases |performers|
  {
    if performers == [] then None
    else if performers[|performers| - 1].normalized == normalized then Some(performers[|performers| - 1].display)
    else DisplayOf(performers[..|performers| - 1], normalized)
  }

  function ArtistScore(artists: seq<Interest>, e: EventProfile, c: Config): real
    decreases |artists|
  {
    if artists == [] then 0.0
    else
      var last := artists[|artists| - 1];
      ArtistScore(artists[..|artists| - 1], e, c)
      + (if DisplayOf(e.performers, last.normalized).Some? then last.weight * c.artistFactor else 0.0)
  }

  function MatchedPerformers(artists: seq<Interest>, e: EventProfile): seq<string>
    decreases |artists|
  {
    if artists == [] then []
    else
      var display := DisplayOf(e.performers, artists[|artists| - 1].normalized);
      MatchedPerformers(artists[..|artists| - 1], e) + (if display.Some? then [display.value] else [])
  }

  /** Genres match on the raw value, not on the normalized one. */
  function GenreScore(interests: seq<Interest>, e: EventProfile, c: Config): real
    decreases |interests|
  {
    if interests == [] then 0.0
    else
      var last := interests[|interests| - 1];
      GenreScore(interests[..|interests| - 1], e, c)
      + (if last.value in e.genres then last.weight * c.genreFactor else 0.0)
  }

  function MatchedGenres(interests: seq<Interest>, e: EventProfile): set<string> {
    set ni | ni in interests && ni.value in e.genres :: ni.value
  }

  function Clamped(x: real): real {
    if x > 1.0 then 1.0 else if x < 0.0 then 0.0 else x
  }

  function StringPart(u: UserProfile, e: EventProfile, c: Config): real
    requires c.stringMax != 0.0
  {
    Clamped((ArtistScore(u.artists, e, c) + GenreScore(u.genres + u.tags, e, c)) / c.stringMax)
  }

  function EmbeddingPart(u: UserProfile, e: EventProfile, sqrt: real -> real): real {
    if |u.embedding| > 0 && |e.embedding| == |u.embedding| then (Cosine(u.embedding, e.embedding, sqrt) + 1.0) / 2.0
        else 0.0
  }

  function Total(c: Config, stringScore: real, embeddingScore: real): real {
    Times(c.wString, stringScore) + Times(c.wEmbedding, embeddingScore)
  }

  function Score(u: UserProfile, e: EventProfile, c: Config, sqrt: real -> real): MatchScore
    requires c.stringMax != 0.0
  {
    var s := StringPart(u, e, c);
    var m := EmbeddingPart(u, e, sqrt);
    MatchScore(s, m, Total(c, s, m), MatchedPerformers(u.artists, e), MatchedGenres(u.genres + u.tags, e))
  }

  method ScoreArtists(artists: seq<Interest>, e: EventProfile, c: Config)
      returns (artistScore: real, matched: seq<string>)
    ensures artistScore == ArtistScore(artists, e, c) && matched == MatchedPerformers(artists, e)
  {
    hide ArtistScore, MatchedPerformers;
    var performerSet: map<string, string> := map[];
    for i := 0 to |e.performers|
      invariant forall n :: n in performerSet <==> DisplayOf(e.performers[..i], n).Some?
      invariant forall n :: n in performerSet ==> DisplayOf(e.performers[..i], n) == Some(performerSet[n])
    {
      assert e.performers[..i + 1][..i] == e.performers[..i];
      performerSet := performerSet[e.performers[i].normalized := e.performers[i].display];
    }
    assert e.performers[..|e.performers|] == e.performers;
    artistScore, matched := 0.0, [];
    NoArtists(e, c);
    for i := 0 to |artists|
      invariant artistScore == ArtistScore(artists[..i], e, c) && matched == MatchedPerformers(artists[..i], e)
    {
      var ni := artists[i];
      ArtistsSnoc(artists[..i], ni, e, c);
      assert artists[..i + 1] == artists[..i] + [ni];
      if ni.normalized in performerSet {
        artistScore := artistScore + ni.weight * c.artistFactor;
        matched := matched + [performerSet[ni.normalized]];
      }
    }
    assert artists[..|artists|] == artists;
  }

  lemma NoArtists(e: EventProfile, c: Config)
    ensures ArtistScore([], e, c) == 0.0 && MatchedPerformers([], e) == []
  {
  }

  lemma ArtistsSnoc(artists: seq<Interest>, ni: Interest, e: EventProfile, c: Config)
    ensures var display := DisplayOf(e.performers, ni.normalized);
            && ArtistScore(artists + [ni], e, c)
               == ArtistScore(artists, e, c) + (if display.Some? then ni.weight * c.artistFactor else 0.0)
            && MatchedPerformers(artists + [ni], e)
               == MatchedPerformers(artists, e) + (if display.Some? then [display.value] else [])
  {
    assert (artists + [ni])[..|artists|] == artists;
  }

  method ComputeScore(u: UserProfile, e: EventProfile, c: Config, sqrt: real -> real) returns (score: MatchScore)
    requires c.stringMax != 0.0 && IsSqrt(sqrt)
    ensures score == Score(u, e, c, sqrt)
    ensures Explained(u, e, c, sqrt, score)
  {
    hide IsSqrt, Explained, Dot, Cosine, ArtistScore, MatchedPerformers, GenreScore, MatchedGenres, Times;
    var artistScore, matchedPerformers := ScoreArtists(u.artists, e, c);
    var genreScore, matchedGenres := ScoreGenres(u.genres + u.tags, e, c);
    var stringScore := (artistScore + genreScore) / c.stringMax;
    if stringScore > 1.0 {
      stringScore := 1.0;
    } else if stringScore < 0.0 {
      stringScore := 0.0;
    }
    var embedScore := 0.0;
    if |u.embedding| > 0 && |e.embedding| == |u.embedding| {
      var cs := CosineSimilarity(u.embedding, e.embedding, sqrt);
      embedScore := (cs + 1.0) / 2.0;
    }
    score := MatchScore(stringScore, embedScore, Times(c.wString, stringScore) + Times(c.wEmbedding, embedScore),
                        matchedPerformers, matchedGenres);
    ScoreIsExplained(u, e, c, sqrt);
  }

  lemma NoGenres(e: EventProfile)
    ensures MatchedGenres([], e) == {}
  {
  }

  lemma GenresSnoc(interests: seq<Interest>, ni: Interest, e: EventProfile)
    ensures MatchedGenres(interests + [ni], e)
            == MatchedGenres(interests, e) + if ni.value in e.genres then {ni.value} else {}
  {
    assert forall x :: x in interests + [ni] <==> x in interests || x == ni;
  }

  method ScoreGenres(interests: seq<Interest>, e: EventProfile, c: Config)
      returns (genreScore: real, matched: set<string>)
    ensures genreScore == GenreScore(interests, e, c) && matched == MatchedGenres(interests, e)
  {
    hide MatchedGenres;
    genreScore, matched := 0.0, {};
    NoGenres(e);
    for i := 0 to |interests|
      invariant genreScore == GenreScore(interests[..i], e, c) && matched == MatchedGenres(interests[..i], e)
    {
      assert interests[..i + 1][..i] == interests[..i];
      assert interests[..i + 1] == interests[..i] + [interests[i]];
      GenresSnoc(interests[..i], interests[i], e);
      var key := interests[i].value;
      if key in e.genres {
        genreScore := genreScore + interests[i].weight * c.genreFactor;
        matched := matched + {key};
      }
    }
    assert interests[..|interests|] == interests;
  }

  // ---------------------------------------------------------------------
  // The score in terms of the profiles
  // ---------------------------------------------------------------------

  /** The weights of the interests that count, times a factor. */
  function Worth(items: seq<Interest>, counts: Interest -> bool, factor: real): real
    decreases |items|
  {
    if items == [] then 0.0
    else (if counts(items[0]) then items[0].weight * factor else 0.0) + Worth(items[1..], counts, factor)
  }

  predicate Performs(e: EventProfile, ni: Interest) {
    exists p :: p in e.performers && p.normalized == ni.normalized
  }

  predicate Tagged(e: EventProfile, ni: Interest) {
    ni.value in e.genres
  }

  /** What the user's interests in this event add up to. */
  function Appeal(u: UserProfile, e: EventProfile, c: Config): real {
    Worth(u.artists, ni => Performs(e, ni), c.artistFactor) + Worth(u.genres + u.tags, ni => Tagged(e, ni),
          c.genreFactor)
  }

  /** The fields of a score, each in terms of the profiles and the configuration. */
  ghost predicate Explained(u: UserProfile, e: EventProfile, c: Config, sqrt: real -> real, s: MatchScore)
    requires c.stringMax != 0.0
  {
    && s.totalScore == c.wString * s.stringScore + c.wEmbedding * s.embeddingScore
    && (var x := Appeal(u, e, c) / c.stringMax;
        s.stringScore == if x > 1.0 then 1.0 else if x < 0.0 then 0.0 else x)
    && Compared(u.embedding, e.embedding, sqrt, s.embeddingScore)
    && (forall g :: g in s.matchedGenres <==> g in e.genres && exists ni :: ni in u.genres + u.tags && ni.value == g)
    && (forall d :: d in s.matchedPerformers <==> exists ni :: ni in u.artists && Shown(e, ni, d))
  }

  /** d is the display name of the last performer with the artist's normal form. */
  ghost predicate Shown(e: EventProfile, ni: Interest, d: string) {
    exists i :: 0 <= i < |e.performers| && e.performers[i].normalized == ni.normalized && e.performers[i].display == d
                && forall j :: i < j < |e.performers| ==> e.performers[j].normalized != ni.normalized
  }

  /** 0 for embeddings that cannot be compared, 1/2 for a zero vector, and else
      half of one plus the cosine: 1 for equal ones. */
  ghost predicate Compared(a: seq<real>, b: seq<real>, sqrt: real -> real, m: real) {
    if |a| == 0 || |b| != |a| then m == 0.0
    else if Dot(a, a) == 0.0 || Dot(b, b) == 0.0 then m == 0.5
    else (2.0 * m - 1.0) * (sqrt(Dot(a, a)) * sqrt(Dot(b, b))) == Dot(a, b) && (a == b ==> m == 1.0)
  }

  lemma {:induction false} WorthSnoc(items: seq<Interest>, ni: Interest, counts: Interest -> bool, factor: real)
    ensures Worth(items + [ni], counts, factor) == Worth(items, counts, factor) + if counts(ni)
            then ni.weight * factor else 0.0
    decreases |items|
  {
    if items == [] {
      assert [] + [ni] == [ni] && [ni][1..] == [];
    } else {
      assert (items + [ni])[1..] == items[1..] + [ni];
      WorthSnoc(items[1..], ni, counts, factor);
    }
  }

  lemma {:induction false} DisplayIsShown(performers: seq<Performer>, e: EventProfile, ni: Interest)
    requires performers == e.performers
    ensures DisplayOf(performers, ni.normalized).Some? <==> Performs(e, ni)
    ensures forall d :: DisplayOf(performers, ni.normalized) == Some(d) <==> Shown(e, ni, d)
    decreases |performers|
  {
    if performers == [] {
    } else {
      var n := |performers| - 1;
      var init := performers[..n];
      DisplayIsShown(init, e.(performers := init), ni);
      assert performers == init + [performers[n]];
      if performers[n].normalized == ni.normalized {
        assert performers[n] in e.performers;
        LastIsShown(e, ni, performers[n].display);
      } else {
        forall d
          ensures Shown(e, ni, d) <==> Shown(e.(performers := init), ni, d)
        {
          EarlierIsShown(e, ni, d);
        }
        assert Performs(e, ni) <==> Performs(e.(performers := init), ni);
      }
    }
  }

  lemma LastIsShown(e: EventProfile, ni: Interest, d: string)
    requires e.performers != [] && e.performers[|e.performers| - 1].normalized == ni.normalized
    requires e.performers[|e.performers| - 1].display == d
    ensures forall x :: Shown(e, ni, x) <==> x == d
  {
  }

  lemma EarlierIsShown(e: EventProfile, ni: Interest, d: string)
    requires e.performers != [] && e.performers[|e.performers| - 1].normalized != ni.normalized
    ensures Shown(e, ni, d) <==> Shown(e.(performers := e.performers[..|e.performers| - 1]), ni, d)
  {
    var init := e.performers[..|e.performers| - 1];
    if Shown(e, ni, d) {
      var i :| 0 <= i < |e.performers| && e.performers[i].normalized == ni.normalized && e.performers[i].display == d
               && forall j :: i < j < |e.performers| ==> e.performers[j].normalized != ni.normalized;
      assert init[i] == e.performers[i];
    }
    if Shown(e.(performers := init), ni, d) {
      var i :| 0 <= i < |init| && init[i].normalized == ni.normalized && init[i].display == d
               && forall j :: i < j < |init| ==> init[j].normalized != ni.normalized;
      assert forall j :: i < j < |init| ==> e.performers[j] == init[j];
      assert e.performers[i] == init[i];
    }
  }

  lemma {:induction false} ArtistsWorth(artists: seq<Interest>, e: EventProfile, c: Config)
    ensures ArtistScore(artists, e, c) == Worth(artists, ni => Performs(e, ni), c.artistFactor)
    decreases |artists|
  {
    hide Performs, DisplayOf;
    if artists == [] {
    } else {
      var init, last := artists[..|artists| - 1], artists[|artists| - 1];
      assert artists == init + [last];
      ArtistsWorth(init, e, c);
      WorthSnoc(init, last, ni => Performs(e, ni), c.artistFactor);
      DisplayIsShown(e.performers, e, last);
    }
  }

  lemma {:induction false} MatchedAreShown(artists: seq<Interest>, e: EventProfile, d: string)
    ensures d in MatchedPerformers(artists, e) <==> exists ni :: ni in artists && Shown(e, ni, d)
    decreases |artists|
  {
    hide Shown, DisplayOf;
    if artists == [] {
    } else {
      var init, last := artists[..|artists| - 1], artists[|artists| - 1];
      assert artists == init + [last];
      MatchedAreShown(init, e, d);
      DisplayIsShown(e.performers, e, last);
      assert last in artists && forall ni :: ni in artists <==> ni in init || ni == last;
    }
  }

  lemma {:induction false} GenresWorth(interests: seq<Interest>, e: EventProfile, c: Config)
    ensures GenreScore(interests, e, c) == Worth(interests, ni => Tagged(e, ni), c.genreFactor)
    decreases |interests|
  {
    if interests == [] {
    } else {
      var init, last := interests[..|interests| - 1], interests[|interests| - 1];
      assert interests == init + [last];
      GenresWorth(init, e, c);
      WorthSnoc(init, last, ni => Tagged(e, ni), c.genreFactor);
    }
  }

  lemma CosineTimesNorms(a: seq<real>, b: seq<real>, sqrt: real -> real)
    requires IsSqrt(sqrt) && |a| == |b| && |a| > 0 && Dot(a, a) != 0.0 && Dot(b, b) != 0.0
    ensures Cosine(a, b, sqrt) * (sqrt(Dot(a, a)) * sqrt(Dot(b, b))) == Dot(a, b)
  {
    hide Dot, IsSqrt;
    NormsArePositive(a, b, sqrt);
    Quotient(Dot(a, b), sqrt(Dot(a, a)) * sqrt(Dot(b, b)));
  }

  lemma Quotient(x: real, y: real)
    requires y > 0.0
    ensures x / y * y == x
  {
  }

  lemma EmbeddingIsCompared(u: UserProfile, e: EventProfile, sqrt: real -> real)
    requires IsSqrt(sqrt)
    ensures Compared(u.embedding, e.embedding, sqrt, EmbeddingPart(u, e, sqrt))
  {
    hide IsSqrt, Dot;
    var a, b := u.embedding, e.embedding;
    if |a| > 0 && |b| == |a| && Dot(a, a) != 0.0 && Dot(b, b) != 0.0 {
      hide Cosine;
      CosineTimesNorms(a, b, sqrt);
      CosineInRange(a, b, sqrt);
    }
  }

  lemma ScoreIsExplained(u: UserProfile, e: EventProfile, c: Config, sqrt: real -> real)
    requires c.stringMax != 0.0 && IsSqrt(sqrt)
    ensures Explained(u, e, c, sqrt, Score(u, e, c, sqrt))
  {
    hide IsSqrt, Dot, Cosine, ArtistScore, GenreScore, MatchedPerformers, EmbeddingPart, Compared, Shown, Worth,
        Performs;
    ArtistsWorth(u.artists, e, c);
    GenresWorth(u.genres + u.tags, e, c);
    forall d
      ensures d in MatchedPerformers(u.artists, e) <==> exists ni :: ni in u.artists && Shown(e, ni, d)
    {
      MatchedAreShown(u.artists, e, d);
    }
    EmbeddingIsCompared(u, e, sqrt);
  }

  lemma {:induction false} NothingCounts(items: seq<Interest>, counts: Interest -> bool, factor: real)
    requires forall ni :: ni in items ==> !counts(ni)
    ensures Worth(items, counts, factor) == 0.0
    decreases |items|
  {
    if items == [] {
    } else {
      NothingCounts(items[1..], counts, factor);
    }
  }

  /** An artist factor matters only to users with an artist who performs, a genre
      factor only to those with a genre or tag of the event. */
  lemma FactorsAreForTheirOwn(u: UserProfile, e: EventProfile, c: Config, artistFactor: real, genreFactor: real,
                              sqrt: real -> real,
                              s: MatchScore, s': MatchScore)
    requires c.stringMax != 0.0 && Explained(u, e, c, sqrt, s)
    requires Explained(u, e, c.(artistFactor := artistFactor, genreFactor := genreFactor), sqrt, s')
    requires artistFactor == c.artistFactor || forall ni, p ::
             ni in u.artists && p in e.performers
             ==> p.normalized != ni.normalized
    requires genreFactor == c.genreFactor || forall ni :: ni in u.genres + u.tags ==> ni.value !in e.genres
    ensures s.stringScore == s'.stringScore
  {
    hide Compared, Shown;
    if artistFactor != c.artistFactor {
      NothingCounts(u.artists, ni => Performs(e, ni), c.artistFactor);
      NothingCounts(u.artists, ni => Performs(e, ni), artistFactor);
    }
    if genreFactor != c.genreFactor {
      NothingCounts(u.genres + u.tags, ni => Tagged(e, ni), c.genreFactor);
      NothingCounts(u.genres + u.tags, ni => Tagged(e, ni), genreFactor);
    }
  }

  /** One more artist adds its weight times the artist factor if it performs, one
      more tag its weight times the genre factor if the event has it, and nothing
      otherwise. */
  lemma OneMoreInterest(u: UserProfile, e: EventProfile, c: Config, ni: Interest)
    ensures Appeal(u.(artists := u.artists + [ni]), e, c)
            == Appeal(u, e, c) + if exists p ::
                p in e.performers
                && p.normalized == ni.normalized then ni.weight * c.artistFactor else 0.0
    ensures Appeal(u.(tags := u.tags + [ni]), e, c) == Appeal(u, e, c) + if ni.value in e.genres
            then ni.weight * c.genreFactor else 0.0
  {
    hide Worth;
    WorthSnoc(u.artists, ni, i => Performs(e, i), c.artistFactor);
    WorthSnoc(u.genres + u.tags, ni, i => Tagged(e, i), c.genreFactor);
    assert u.genres + (u.tags + [ni]) == u.genres + u.tags + [ni];
  }

  /** Both parts lie in [0, 1], so with non-negative weights the total lies
      between 0 and their sum, whatever the interests and embeddings. */
  lemma ScoreInRange(u: UserProfile, e: EventProfile, c: Config, sqrt: real -> real)
    requires c.stringMax > 0.0 && c.wString >= 0.0 && c.wEmbedding >= 0.0 && IsSqrt(sqrt)
    ensures var s := Score(u, e, c, sqrt);
            && 0.0 <= s.stringScore <= 1.0 && 0.0 <= s.embeddingScore <= 1.0
            && 0.0 <= s.totalScore <= c.wString + c.wEmbedding
  {
    hide StringPart, EmbeddingPart, IsSqrt, MatchedPerformers, MatchedGenres, Total;
    PartsInRange(u, e, c, sqrt);
    TotalInRange(c, StringPart(u, e, c), EmbeddingPart(u, e, sqrt));
  }

  lemma TotalInRange(c: Config, x: real, y: real)
    requires c.wString >= 0.0 && c.wEmbedding >= 0.0 && 0.0 <= x <= 1.0 && 0.0 <= y <= 1.0
    ensures 0.0 <= Total(c, x, y) <= c.wString + c.wEmbedding
  {
    hide Times;
    WeightedPart(c.wString, x);
    WeightedPart(c.wEmbedding, y);
  }

  lemma PartsInRange(u: UserProfile, e: EventProfile, c: Config, sqrt: real -> real)
    requires c.stringMax > 0.0 && IsSqrt(sqrt)
    ensures 0.0 <= StringPart(u, e, c) <= 1.0 && 0.0 <= EmbeddingPart(u, e, sqrt) <= 1.0
  {
    hide Cosine, IsSqrt, ArtistScore, GenreScore;
    CosineInRange(u.embedding, e.embedding, sqrt);
  }

  lemma WeightedPart(w: real, x: real)
    requires w >= 0.0 && 0.0 <= x <= 1.0
    ensures 0.0 <= Times(w, x) <= w
  {
    assert w * x >= 0.0;
    assert w * (1.0 - x) >= 0.0;
  }
}
