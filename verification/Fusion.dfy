/** Reciprocal Rank Fusion of the two search legs, and the handler that renders
    the fused list. Event ids are numbers; scores are reals. */
module Fusion {
  import opened Common

  const RRF_K := 60.0
  const SEARCH_RESULT_LIMIT := 10
  const SEARCH_CANDIDATE_LIMIT := 50

  function Weight(rank: nat): real {
    1.0 / (RRF_K + (rank + 1) as real)
  }

  /** What one leg adds to an id's score. */
  function Contribution(leg: seq<nat>, id: nat): real
    decreases |leg|
  {
    if leg == [] then 0.0
    else Contribution(leg[..|leg| - 1], id) + (if leg[|leg| - 1] == id then Weight(|leg| - 1) else 0.0)
  }

  function Score(lexical: seq<nat>, semantic: seq<nat>, id: nat): real {
    Contribution(lexical, id) + Contribution(semantic, id)
  }

  /** Position of the first appearance. */
  function FirstIndex(ids: seq<nat>, id: nat): (r: nat)
    requires id in ids
    ensures r < |ids| && ids[r] == id && id !in ids[..r]
  {
    if ids[0] == id then 0
    else
      assert ids == [ids[0]] + ids[1..];
      var r := FirstIndex(ids[1..], id);
      assert ids[..r + 1] == [ids[0]] + ids[1..][..r];
      r + 1
  }

  /** Higher score first; ties by first appearance, lexical leg before semantic. */
  predicate Precedes(lexical: seq<nat>, semantic: seq<nat>, a: nat, b: nat)
    requires a in lexical + semantic && b in lexical + semantic
  {
    var x, y := Score(lexical, semantic, a), Score(lexical, semantic, b);
    x > y || (x == y && FirstIndex(lexical + semantic, a) < FirstIndex(lexical + semantic, b))
  }

  predicate Distinct(ids: seq<nat>) {
    forall i, j :: 0 <= i < j < |ids| ==> ids[i] != ids[j]
  }

  /** r lists every id of either leg once, each before all it precedes. */
  ghost predicate IsRanking(lexical: seq<nat>, semantic: seq<nat>, r: seq<nat>) {
    && (forall id :: id in r <==> id in lexical + semantic)
    && (forall i, j :: 0 <= i < j < |r| ==> Precedes(lexical, semantic, r[i], r[j]))
  }

  /** There is only one ranking, so map iteration order cannot show. */
  lemma {:induction false} RankingIsUnique(lexical: seq<nat>, semantic: seq<nat>, r: seq<nat>, s: seq<nat>)
    requires (forall i, j :: 0 <= i < j < |r| ==>
              r[i] in lexical + semantic && r[j] in lexical + semantic
              && Precedes(lexical, semantic, r[i], r[j]))
    requires (forall i, j :: 0 <= i < j < |s| ==>
              s[i] in lexical + semantic && s[j] in lexical + semantic
              && Precedes(lexical, semantic, s[i], s[j]))
    requires forall id :: id in r <==> id in s
    ensures r == s
    decreases |r|
  {
    hide Score;
    if r == [] {
      HasAnElement(s);
    } else {
      assert r[0] in s && s != [];
      assert s[0] in r;
      assert r[0] == s[0];
      forall id
        ensures id in r[1..] <==> id in s[1..]
      {
        assert id in r <==> id == r[0] || id in r[1..];
        assert id in s <==> id == s[0] || id in s[1..];
      }
      RankingIsUnique(lexical, semantic, r[1..], s[1..]);
    }
  }

  function Clamp(limit: int, n: nat): nat {
    if limit > n then n else if limit < 0 then 0 else limit
  }

  /** The first `limit` ids of the ranking. */
  ghost predicate Fused(lexical: seq<nat>, semantic: seq<nat>, limit: int, ids: seq<nat>) {
    exists r :: IsRanking(lexical, semantic, r) && ids == r[..Clamp(limit, |r|)]
  }

  /** The ids either leg found. */
  function Found(lexical: seq<nat>, semantic: seq<nat>): set<nat> {
    set id | id in lexical + semantic
  }

  lemma {:induction false} DistinctCount(ids: seq<nat>, found: set<nat>)
    requires Distinct(ids) && forall id :: id in found <==> id in ids
    ensures |found| == |ids|
    decreases |ids|
  {
    if ids == [] {
      assert found == {};
    } else {
      var rest := found - {ids[0]};
      forall id
        ensures id in rest <==> id in ids[1..]
      {
        assert id in ids <==> id == ids[0] || id in ids[1..];
      }
      DistinctCount(ids[1..], rest);
    }
  }

  lemma RankedOnce(lexical: seq<nat>, semantic: seq<nat>, r: seq<nat>)
    requires IsRanking(lexical, semantic, r)
    ensures Distinct(r)
  {
    hide Score;
    forall i, j | 0 <= i < j < |r|
      ensures r[i] != r[j]
    {
      assert Precedes(lexical, semantic, r[i], r[j]);
    }
  }

  /** The smaller of the limit and the number of ids found. */
  lemma FusedLength(lexical: seq<nat>, semantic: seq<nat>, limit: int, ids: seq<nat>)
    requires Fused(lexical, semantic, limit, ids)
    ensures var n := |Found(lexical, semantic)|;
            |ids| == if limit < 0 then 0 else if limit > n then n else limit
  {
    hide Score;
    var r :| IsRanking(lexical, semantic, r) && ids == r[..Clamp(limit, |r|)];
    var found := Found(lexical, semantic);
    assert forall id :: id in found <==> id in r;
    RankedOnce(lexical, semantic, r);
    DistinctCount(r, found);
  }

  lemma FusedIsUnique(lexical: seq<nat>, semantic: seq<nat>, limit: int, ids: seq<nat>, others: seq<nat>)
    requires Fused(lexical, semantic, limit, ids) && Fused(lexical, semantic, limit, others)
    ensures ids == others
  {
    hide Precedes;
    var r :| IsRanking(lexical, semantic, r) && ids == r[..Clamp(limit, |r|)];
    var s :| IsRanking(lexical, semantic, s) && others == s[..Clamp(limit, |s|)];
    RankingIsUnique(lexical, semantic, r, s);
  }

  // ---------------------------------------------------------------------
  // fuseRRF
  // ---------------------------------------------------------------------

  datatype Entry = Entry(score: real, order: nat)

  /** byID after the ids of `all` have been added in order, the first |lexical|
      of them from the lexical leg. */
  ghost predicate Tallied(byID: map<nat, Entry>, lexical: seq<nat>, semantic: seq<nat>) {
    && OrderedByAppearance(byID, lexical + semantic)
    && (forall id :: id in byID ==> byID[id].score == Score(lexical, semantic, id))
  }

  /** The body of `add` for one id. */
  function Added(byID: map<nat, Entry>, id: nat, rank: nat): map<nat, Entry> {
    var e := if id in byID then byID[id] else Entry(0.0, |byID|);
    byID[id := e.(score := e.score + Weight(rank))]
  }

  lemma {:induction false} NotInLeg(leg: seq<nat>, id: nat)
    requires id !in leg
    ensures Contribution(leg, id) == 0.0
    decreases |leg|
  {
    if leg == [] {
    } else {
      assert leg[|leg| - 1] in leg;
      NotInLeg(leg[..|leg| - 1], id);
    }
  }

  lemma ContributionSnoc(leg: seq<nat>, x: nat, id: nat)
    ensures Contribution(leg + [x], id) == Contribution(leg, id) + if x == id then Weight(|leg|) else 0.0
  {
    assert (leg + [x])[..|leg|] == leg;
  }

  lemma {:induction false} FirstIndexIs(ids: seq<nat>, id: nat, k: nat)
    requires k < |ids| && ids[k] == id && id !in ids[..k]
    ensures id in ids && FirstIndex(ids, id) == k
    decreases k
  {
    if k == 0 {
    } else {
      assert ids[..k][0] == ids[0];
      assert ids[..k] == [ids[0]] + ids[1..][..k - 1];
      FirstIndexIs(ids[1..], id, k - 1);
    }
  }

  lemma FirstIndexSnoc(all: seq<nat>, x: nat, id: nat)
    requires id in all + [x]
    ensures FirstIndex(all + [x], id) == if id in all then FirstIndex(all, id) else |all|
  {
    var k := if id in all then FirstIndex(all, id) else |all|;
    assert (all + [x])[..k] == all[..k];
    FirstIndexIs(all + [x], id, k);
  }

  /** One id added to either leg; `grown` is lexical or semantic with it at the end. */
  lemma TallyOne(byID: map<nat, Entry>, lexical: seq<nat>, semantic: seq<nat>, id: nat)
    requires Tallied(byID, lexical, semantic)
    ensures semantic == [] ==> Tallied(Added(byID, id, |lexical|), lexical + [id], [])
    ensures Tallied(Added(byID, id, |semantic|), lexical, semantic + [id])
  {
    hide Weight, Contribution, Tallied;
    TallyAll(byID, lexical, semantic, id, |semantic|, lexical, semantic + [id]);
    if semantic == [] {
      TallyAll(byID, lexical, semantic, id, |lexical|, lexical + [id], []);
    }
  }

  lemma TallyAll(byID: map<nat, Entry>, lexical: seq<nat>, semantic: seq<nat>, id: nat, rank: nat, lexical': seq<nat>,
                 semantic': seq<nat>)
    requires Tallied(byID, lexical, semantic)
    requires (lexical' == lexical && semantic' == semantic + [id] && rank == |semantic|)
          || (lexical' == lexical + [id] && semantic' == semantic == [] && rank == |lexical|)
    ensures Tallied(Added(byID, id, rank), lexical', semantic')
  {
    hide Weight, Contribution, FirstIndex;
    AddedOrders(byID, id, rank);
    var all, after := lexical + semantic, Added(byID, id, rank);
    assert lexical' + semantic' == all + [id];
    forall x | x in after
      ensures after[x].score == Score(lexical', semantic', x)
    {
      ScoreGrows(lexical, semantic, id, rank, lexical', semantic', x);
      if x !in all {
        NotInLeg(lexical, x);
        NotInLeg(semantic, x);
      }
    }
    OrdersGrow(byID, all, id, rank);
  }

  lemma ScoreGrows(lexical: seq<nat>, semantic: seq<nat>, id: nat, rank: nat, lexical': seq<nat>, semantic': seq<nat>,
                   x: nat)
    requires (lexical' == lexical && semantic' == semantic + [id] && rank == |semantic|)
          || (lexical' == lexical + [id] && semantic' == semantic == [] && rank == |lexical|)
    ensures Score(lexical', semantic', x) == Score(lexical, semantic, x) + if x == id then Weight(rank) else 0.0
  {
    hide Weight, Contribution;
    ContributionSnoc(lexical, id, x);
    ContributionSnoc(semantic, id, x);
  }

  ghost predicate OrderedByAppearance(byID: map<nat, Entry>, all: seq<nat>) {
    && (forall id :: id in byID <==> id in all)
    && (forall id :: id in byID ==> byID[id].order < |byID|)
    && (forall a, b :: a in byID && b in byID ==> (byID[a].order < byID[b].order
                                                   <==> FirstIndex(all, a) < FirstIndex(all, b)))
  }

  /** An id keeps its order; the newest gets the count of those before it. */
  function OrderAfter(byID: map<nat, Entry>, x: nat): nat {
    if x in byID then byID[x].order else |byID|
  }

  lemma AddedOrders(byID: map<nat, Entry>, id: nat, rank: nat)
    ensures Added(byID, id, rank).Keys == byID.Keys + {id}
    ensures |Added(byID, id, rank)| == |byID| + if id in byID then 0 else 1
    ensures forall x :: x in Added(byID, id, rank) ==> Added(byID, id, rank)[x].order == OrderAfter(byID, x)
  {
    hide Weight;
    var after := Added(byID, id, rank);
    assert after.Keys == byID.Keys + {id};
    assert |after| == |after.Keys| && |byID| == |byID.Keys|;
  }

  lemma OrdersGrow(byID: map<nat, Entry>, all: seq<nat>, id: nat, rank: nat)
    requires OrderedByAppearance(byID, all)
    ensures OrderedByAppearance(Added(byID, id, rank), all + [id])
  {
    hide Weight, FirstIndex, Added;
    AddedOrders(byID, id, rank);
    var after := Added(byID, id, rank);
    forall a, b | a in after && b in after
      ensures after[a].order < after[b].order <==> FirstIndex(all + [id], a) < FirstIndex(all + [id], b)
    {
      FirstIndexSnoc(all, id, a);
      FirstIndexSnoc(all, id, b);
    }
  }

  method AddLeg(byID: map<nat, Entry>, ids: seq<nat>, ghost lexical: seq<nat>) returns (r: map<nat, Entry>)
    requires Tallied(byID, lexical, [])
    ensures Tallied(r, lexical, ids)
    ensures lexical == [] ==> Tallied(r, ids, [])
  {
    hide Weight, Tallied;
    r := byID;
    for rank := 0 to |ids|
      invariant Tallied(r, lexical, ids[..rank])
      invariant lexical == [] ==> Tallied(r, ids[..rank], [])
    {
      assert ids[..rank + 1] == ids[..rank] + [ids[rank]];
      TallyOne(r, lexical, ids[..rank], ids[rank]);
      if lexical == [] {
        TallyOne(r, ids[..rank], [], ids[rank]);
      }
      r := Added(r, ids[rank], rank);
    }
    assert ids[..|ids|] == ids;
  }

  /** The comparison fuseRRF sorts with. */
  predicate Before(byID: map<nat, Entry>, a: nat, b: nat)
    requires a in byID && b in byID
  {
    byID[a].score > byID[b].score || (byID[a].score == byID[b].score && byID[a].order < byID[b].order)
  }

  ghost predicate SortedBy(byID: map<nat, Entry>, out: seq<nat>) {
    && (forall id :: id in out ==> id in byID)
    && forall i, j :: 0 <= i < j < |out| ==> Before(byID, out[i], out[j])
  }

  /** Distinct ids have distinct orders. */
  ghost predicate DistinctOrders(byID: map<nat, Entry>) {
    forall a, b :: a in byID && b in byID && a != b ==> byID[a].order != byID[b].order
  }

  method InsertSorted(byID: map<nat, Entry>, out: seq<nat>, id: nat) returns (r: seq<nat>)
    requires DistinctOrders(byID) && SortedBy(byID, out) && id in byID && id !in out
    ensures SortedBy(byID, r) && |r| == |out| + 1
    ensures forall x :: x in r <==> x in out || x == id
  {
    var p := 0;
    while p < |out| && Before(byID, out[p], id)
      invariant 0 <= p <= |out|
      invariant forall i :: 0 <= i < p ==> Before(byID, out[i], id)
    {
      p := p + 1;
    }
    r := out[..p] + [id] + out[p..];
    InsertionSorts(byID, out, id, p, r);
  }

  lemma InsertionSorts(byID: map<nat, Entry>, out: seq<nat>, id: nat, p: nat, r: seq<nat>)
    requires DistinctOrders(byID) && SortedBy(byID, out) && id in byID && id !in out && p <= |out|
    requires forall i :: 0 <= i < p ==> Before(byID, out[i], id)
    requires p < |out| ==> !Before(byID, out[p], id)
    requires r == out[..p] + [id] + out[p..]
    ensures SortedBy(byID, r) && forall x :: x in r <==> x in out || x == id
  {
    hide Before;
    assert out == out[..p] + out[p..];
    assert forall x :: x in r <==> x in out || x == id;
    Inserted(out, p, id, r);
    forall i, j | 0 <= i < j < |r|
      ensures Before(byID, r[i], r[j])
    {
      if i == p {
        BeforeTotal(byID, id, out[p]);
        if j > p + 1 {
          BeforeTransitive(byID, id, out[p], out[j - 1]);
        }
      }
    }
  }

  lemma BeforeTotal(byID: map<nat, Entry>, a: nat, b: nat)
    requires DistinctOrders(byID) && a in byID && b in byID && a != b
    ensures Before(byID, a, b) || Before(byID, b, a)
  {
  }

  lemma BeforeTransitive(byID: map<nat, Entry>, a: nat, b: nat, c: nat)
    requires a in byID && b in byID && c in byID && Before(byID, a, b) && Before(byID, b, c)
    ensures Before(byID, a, c)
  {
  }

  /** The entries, taken from the map in no particular order, then sorted. */
  method SortEntries(byID: map<nat, Entry>) returns (out: seq<nat>)
    requires DistinctOrders(byID)
    ensures SortedBy(byID, out) && forall id :: id in out <==> id in byID
  {
    out := [];
    var unseen := byID.Keys;
    while unseen != {}
      invariant unseen <= byID.Keys && SortedBy(byID, out)
      invariant forall id :: id in out <==> id in byID && id !in unseen
      decreases unseen
    {
      var id :| id in unseen;
      unseen := unseen - {id};
      out := InsertSorted(byID, out, id);
    }
  }

  lemma TalliedOrders(byID: map<nat, Entry>, lexical: seq<nat>, semantic: seq<nat>)
    requires Tallied(byID, lexical, semantic)
    ensures DistinctOrders(byID)
    ensures forall out ::
              SortedBy(byID, out) && (forall id :: id in out <==> id in byID) ==> IsRanking(lexical, semantic, out)
  {
    hide Score;
    forall a, b | a in byID && b in byID && a != b
      ensures byID[a].order != byID[b].order
    {
      assert FirstIndex(lexical + semantic, a) != FirstIndex(lexical + semantic, b);
    }
  }

  method FuseRRF(lexical: seq<nat>, semantic: seq<nat>, limit: int) returns (ids: seq<nat>)
    ensures Fused(lexical, semantic, limit, ids)
    ensures var n := |Found(lexical, semantic)|;
            |ids| == if limit < 0 then 0 else if limit > n then n else limit
  {
    hide Score, Tallied;
    NothingTallied();
    var byID := AddLeg(map[], lexical, []);
    byID := AddLeg(byID, semantic, lexical);
    TalliedOrders(byID, lexical, semantic);
    var out := SortEntries(byID);
    var n := limit;
    if n > |out| {
      n := |out|;
    }
    if n < 0 {
      n := 0;
    }
    ids := [];
    for i := 0 to n
      invariant ids == out[..i]
    {
      ids := ids + [out[i]];
    }
    FusedLength(lexical, semantic, limit, ids);
  }

  lemma NothingTallied()
    ensures Tallied(map[], [], [])
  {
  }

  // ---------------------------------------------------------------------
  // What the constants buy
  // ---------------------------------------------------------------------

  lemma {:induction false} RankedContribution(leg: seq<nat>, rank: nat)
    requires Distinct(leg) && rank < |leg|
    ensures Contribution(leg, leg[rank]) == Weight(rank)
    decreases |leg|
  {
    hide Weight;
    var init, last := leg[..|leg| - 1], leg[|leg| - 1];
    if rank == |leg| - 1 {
      assert last !in init;
      NotInLeg(init, last);
    } else {
      RankedContribution(init, rank);
    }
  }

  /** An id's score in figures: 1/61 for a first place, 1/62 for a second, and so
      on, added over the legs that hold it. */
  lemma ScoreInFigures(lexical: seq<nat>, semantic: seq<nat>, id: nat)
    requires Distinct(lexical) && Distinct(semantic)
    ensures Score(lexical, semantic, id)
            == (if id in lexical then 1.0 / (61 + FirstIndex(lexical, id)) as real else 0.0)
               + (if id in semantic then 1.0 / (61 + FirstIndex(semantic, id)) as real else 0.0)
  {
    hide Weight;
    LegInFigures(lexical, id);
    LegInFigures(semantic, id);
  }

  lemma LegInFigures(leg: seq<nat>, id: nat)
    requires Distinct(leg)
    ensures Contribution(leg, id) == if id in leg then 1.0 / (61 + FirstIndex(leg, id)) as real else 0.0
  {
    if id in leg {
      RankedContribution(leg, FirstIndex(leg, id));
      assert 60.0 + (FirstIndex(leg, id) + 1) as real == (61 + FirstIndex(leg, id)) as real;
    } else {
      NotInLeg(leg, id);
    }
  }

  lemma WeightFalls(a: nat, b: nat)
    requires a <= b
    ensures 0.0 < Weight(b) <= Weight(a) <= 1.0 / 61.0
    ensures a < b ==> Weight(b) < Weight(a)
  {
    var x, y := RRF_K + (a + 1) as real, RRF_K + (b + 1) as real;
    assert 61.0 <= x <= y;
    Reciprocals(61.0, x);
    Reciprocals(x, y);
  }

  lemma Reciprocals(x: real, y: real)
    requires 0.0 < x <= y
    ensures 0.0 < 1.0 / y <= 1.0 / x && (x < y ==> 1.0 / y < 1.0 / x)
  {
    var p, q := 1.0 / x, 1.0 / y;
    assert p * x == 1.0 && q * y == 1.0;
  }

  lemma WeightAt61()
    ensures Weight(0) == 1.0 / 61.0 && Weight(61) == 1.0 / 122.0 && Weight(60) == 1.0 / 121.0
  {
  }

  /** An id found by both legs beats every id found by one, provided neither leg
      is longer than 61. */
  lemma BothLegsBeatOne(lexical: seq<nat>, semantic: seq<nat>, a: nat, b: nat)
    requires Distinct(lexical) && Distinct(semantic) && |lexical| <= 61 && |semantic| <= 61
    requires a in lexical && a in semantic && ((b in lexical && b !in semantic) || (b in semantic && b !in lexical))
    ensures Score(lexical, semantic, a) > Score(lexical, semantic, b)
    ensures Precedes(lexical, semantic, a, b)
  {
    hide Weight;
    var i, j := FirstIndex(lexical, a), FirstIndex(semantic, a);
    RankedContribution(lexical, i);
    RankedContribution(semantic, j);
    WeightFalls(i, 60);
    WeightFalls(j, 60);
    WeightAt61();
    if b in lexical {
      RankedContribution(lexical, FirstIndex(lexical, b));
      NotInLeg(semantic, b);
      WeightFalls(0, FirstIndex(lexical, b));
    } else {
      RankedContribution(semantic, FirstIndex(semantic, b));
      NotInLeg(lexical, b);
      WeightFalls(0, FirstIndex(semantic, b));
    }
    assert 1.0 / 121.0 + 1.0 / 121.0 > 1.0 / 61.0;
  }

  ghost predicate BothAlwaysFirst(n: nat) {
    forall lexical, semantic, a, b ::
      Distinct(lexical) && Distinct(semantic) && |lexical| <= n && |semantic| <= n
      && a in lexical && a in semantic && ((b in lexical && b !in semantic) || (b in semantic && b !in lexical))
      ==> Precedes(lexical, semantic, a, b)
  }

  function Straight(): seq<nat> { seq(62, i => i) }

  function MeetsLast(): seq<nat> { seq(62, i requires i >= 0 => if i == 61 then 61 else 100 + i) }

  /** With legs of 62 an id last in both ties with one that is first in one, and
      loses the tie. */
  lemma SixtyTwoTies()
    ensures Distinct(Straight()) && Distinct(MeetsLast()) && |Straight()| == |MeetsLast()| == 62
    ensures 61 in Straight() && 61 in MeetsLast() && 0 in Straight() && 0 !in MeetsLast()
    ensures !Precedes(Straight(), MeetsLast(), 61, 0)
  {
    hide Weight;
    var lexical, semantic := Straight(), MeetsLast();
    assert lexical[61] == 61 && semantic[61] == 61 && lexical[0] == 0;
    RankedContribution(lexical, 61);
    RankedContribution(semantic, 61);
    RankedContribution(lexical, 0);
    NotInLeg(semantic, 0);
    WeightAt61();
    assert (lexical + semantic)[0] == 0;
    assert FirstIndex(lexical + semantic, 0) == 0;
  }

  /** The guarantee holds for candidate lists of at most n exactly when n is at
      most 61; the service fetches 50. */
  lemma BothLegsFirstIff(n: nat)
    ensures BothAlwaysFirst(n) <==> n <= 61
    ensures SEARCH_CANDIDATE_LIMIT <= 61
  {
    if n <= 61 {
      forall lexical, semantic, a, b |
        Distinct(lexical) && Distinct(semantic) && |lexical| <= n && |semantic| <= n
        && a in lexical && a in semantic && ((b in lexical && b !in semantic) || (b in semantic && b !in lexical))
        ensures Precedes(lexical, semantic, a, b)
      {
        BothLegsBeatOne(lexical, semantic, a, b);
      }
    } else {
      SixtyTwoTies();
    }
  }

  ghost predicate AheadIn(leg: seq<nat>, a: nat, b: nat) {
    b in leg ==> a in leg && FirstIndex(leg, a) < FirstIndex(leg, b)
  }

  lemma AheadContributes(leg: seq<nat>, a: nat, b: nat)
    requires Distinct(leg) && AheadIn(leg, a, b)
    ensures Contribution(leg, a) >= Contribution(leg, b)
    ensures b in leg ==> Contribution(leg, a) > Contribution(leg, b)
  {
    hide Weight;
    if b in leg {
      RankedContribution(leg, FirstIndex(leg, a));
      RankedContribution(leg, FirstIndex(leg, b));
      WeightFalls(FirstIndex(leg, a), FirstIndex(leg, b));
    } else {
      NotInLeg(leg, b);
      if a in leg {
        RankedContribution(leg, FirstIndex(leg, a));
        WeightFalls(FirstIndex(leg, a), FirstIndex(leg, a));
      } else {
        NotInLeg(leg, a);
      }
    }
  }

  /** Fusion respects agreement: an id ahead of another in every leg that holds
      the other is ahead of it in the result. */
  lemma FusionKeepsAgreedOrder(lexical: seq<nat>, semantic: seq<nat>, a: nat, b: nat)
    requires Distinct(lexical) && Distinct(semantic)
    requires AheadIn(lexical, a, b) && AheadIn(semantic, a, b) && b in lexical + semantic
    ensures a in lexical + semantic && Precedes(lexical, semantic, a, b)
  {
    AheadContributes(lexical, a, b);
    AheadContributes(semantic, a, b);
  }

  function TruncateIDs(ids: seq<nat>, limit: int): seq<nat> {
    if |ids| > limit then ids[..Clamp(limit, |ids|)] else ids
  }

  /** An empty semantic leg leaves the lexical order as it is. */
  lemma LexicalAlone(lexical: seq<nat>, limit: nat, ids: seq<nat>)
    requires Distinct(lexical) && Fused(lexical, [], limit, ids)
    ensures ids == TruncateIDs(lexical, limit)
    ensures ids == lexical[..if limit < |lexical| then limit else |lexical|]
  {
    hide Score, Weight;
    assert lexical + [] == lexical;
    forall i, j | 0 <= i < j < |lexical|
      ensures lexical[i] in lexical + [] && lexical[j] in lexical + [] && Precedes(lexical, [], lexical[i], lexical[j])
    {
      assert FirstIndex(lexical, lexical[i]) == i && FirstIndex(lexical, lexical[j]) == j;
      FusionKeepsAgreedOrder(lexical, [], lexical[i], lexical[j]);
    }
    assert IsRanking(lexical, [], lexical);
    FusedIsUnique(lexical, [], limit, ids, lexical[..Clamp(limit, |lexical|)]);
  }

  // ---------------------------------------------------------------------
  // applySemanticLeg and resultsFor
  // ---------------------------------------------------------------------

  /** view stands for the display columns, which both legs project alike. */
  datatype Row = Row(id: nat, view: string)

  function Ids(rows: seq<Row>): seq<nat> {
    seq(|rows|, i requires 0 <= i < |rows| => rows[i].id)
  }

  /** Every id is shown once, in order, by a row one of the legs returned. */
  ghost predicate Renders(results: seq<Row>, ids: seq<nat>, rows: seq<Row>) {
    && |results| == |ids|
    && forall i :: 0 <= i < |ids| ==> results[i].id == ids[i] && results[i] in rows
  }

  method ResultsFor(ids: seq<nat>, byID: map<nat, Row>, ghost rows: seq<Row>) returns (out: seq<Row>)
    requires forall id :: id in byID ==> byID[id].id == id && byID[id] in rows
    requires forall id :: id in ids ==> id in byID
    ensures Renders(out, ids, rows)
    ensures forall i :: 0 <= i < |ids| ==> out[i] == byID[ids[i]]
  {
    out := [];
    for i := 0 to |ids|
      invariant |out| == i
      invariant forall j :: 0 <= j < i ==> out[j] == byID[ids[j]] && out[j].id == ids[j] && out[j] in rows
    {
      if ids[i] in byID {
        out := out + [byID[ids[i]]];
      }
    }
  }

  method Index(byID: map<nat, Row>, rows: seq<Row>, ghost before: seq<Row>) returns (r: map<nat, Row>, ids: seq<nat>)
    requires forall id :: id in byID ==> byID[id].id == id && byID[id] in before
    ensures ids == Ids(rows)
    ensures forall id :: id in r ==> r[id].id == id && r[id] in before + rows
    ensures forall id :: id in byID || id in ids ==> id in r
    ensures forall id :: id in byID ==> r[id] == byID[id]
  {
    r, ids := byID, [];
    for i := 0 to |rows|
      invariant |ids| == i && forall j :: 0 <= j < i ==> ids[j] == rows[j].id
      invariant forall id :: id in r ==> r[id].id == id && r[id] in before + rows
      invariant forall id :: id in byID || id in ids ==> id in r
      invariant forall id :: id in byID ==> r[id] == byID[id]
    {
      ids := ids + [rows[i].id];
      if rows[i].id !in r {
        r := r[rows[i].id := rows[i]];
      }
    }
  }

  /** semantic is None when the flag is off, the embedder is missing or failed,
      or the query failed: the lexical rows are then served, truncated. */
  method ApplySemanticLeg(rows: seq<Row>, semantic: Option<seq<Row>>) returns (results: seq<Row>)
    ensures semantic.None? ==>
              && |results| == (if |rows| < 10 then |rows| else 10)
              && forall i :: 0 <= i < |results| ==> results[i].id == rows[i].id && results[i] in rows
    ensures semantic.Some? ==>
              exists ids :: Fused(Ids(rows), Ids(semantic.value), SEARCH_RESULT_LIMIT, ids)
                  && Renders(results, ids, rows + semantic.value)
    ensures |results| <= 10
  {
    hide Fused, Renders, IsRanking, TruncateIDs;
    var byID, lexical := Index(map[], rows, []);
    assert [] + rows == rows;
    match semantic {
      case None =>
        TruncatedIsPrefix(lexical, SEARCH_RESULT_LIMIT);
        results := ResultsFor(TruncateIDs(lexical, SEARCH_RESULT_LIMIT), byID, rows);
        RenderedAt(results, TruncateIDs(lexical, SEARCH_RESULT_LIMIT), rows);
      case Some(more) =>
        var both, ids := Index(byID, more, rows);
        var fused := FuseRRF(lexical, ids, SEARCH_RESULT_LIMIT);
        FusedMembers(lexical, ids, SEARCH_RESULT_LIMIT, fused);
        FusedLength(lexical, ids, SEARCH_RESULT_LIMIT, fused);
        results := ResultsFor(fused, both, rows + more);
        RenderedAt(results, fused, rows + more);
    }
  }

  lemma TruncatedIsPrefix(ids: seq<nat>, limit: nat)
    ensures TruncateIDs(ids, limit) == ids[..if |ids| < limit then |ids| else limit]
  {
  }

  lemma RenderedAt(results: seq<Row>, ids: seq<nat>, rows: seq<Row>)
    requires Renders(results, ids, rows)
    ensures |results| == |ids| && forall i :: 0 <= i < |results| ==> results[i].id == ids[i] && results[i] in rows
  {
  }

  lemma FusedMembers(lexical: seq<nat>, semantic: seq<nat>, limit: int, ids: seq<nat>)
    requires Fused(lexical, semantic, limit, ids)
    ensures forall id :: id in ids ==> id in lexical || id in semantic
  {
    hide Precedes, Score;
    var r :| IsRanking(lexical, semantic, r) && ids == r[..Clamp(limit, |r|)];
    forall id | id in ids
      ensures id in lexical || id in semantic
    {
      assert id in r;
      assert id in lexical + semantic;
    }
  }
}
