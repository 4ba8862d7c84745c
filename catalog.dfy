/** The two catalog queries, as a selection over the documents of the poll
    collection: keep the polls of one kind (active or ended at `now`), order
    them by end time, latest first, and keep the first few. */
module Catalog {
  import opened Polls

  datatype Kind = Active | Ended

  /** `limit(6)` on the active list, `limit(12)` on the gallery. */
  const ACTIVE_LIMIT: nat := 6
  const ENDED_LIMIT: nat := 12

  /** `where("endTime", ">", now)` and `where("endTime", "<=", now)`. */
  predicate Matches(kind: Kind, d: Listed, now: int) {
    match kind
    case Active => d.poll.endTime > now
    case Ended => d.poll.endTime <= now
  }

  function Filter(docs: seq<Listed>, kind: Kind, now: int): (r: seq<Listed>)
    ensures |r| <= |docs|
    ensures forall i :: 0 <= i < |r| ==> Matches(kind, r[i], now)
  {
    if docs == [] then []
    else (if Matches(kind, docs[0], now) then [docs[0]] else []) + Filter(docs[1..], kind, now)
  }

  /** The filter keeps every copy of a matching document and no other. */
  lemma {:induction false} FilterCounts(docs: seq<Listed>, kind: Kind, now: int, d: Listed)
    ensures multiset(Filter(docs, kind, now))[d] == if Matches(kind, d, now) then multiset(docs)[d] else 0
  {
    if docs != [] {
      FilterCounts(docs[1..], kind, now, d);
      assert docs == [docs[0]] + docs[1..];
    }
  }

  /** At any `now` every poll is in exactly one of the two catalogs' ranges,
      so together the two filters split the collection. */
  lemma FiltersPartition(docs: seq<Listed>, now: int)
    ensures forall d :: Matches(Active, d, now) != Matches(Ended, d, now)
    ensures multiset(Filter(docs, Active, now)) + multiset(Filter(docs, Ended, now)) == multiset(docs)
  {
    forall x ensures (multiset(Filter(docs, Active, now)) + multiset(Filter(docs, Ended, now)))[x] == multiset(docs)[x] {
      FilterCounts(docs, Active, now, x);
      FilterCounts(docs, Ended, now, x);
    }
  }

  /** `orderBy("endTime", "desc")` */
  predicate SortedDesc(s: seq<Listed>) {
    forall i, j :: 0 <= i < j < |s| ==> s[i].poll.endTime >= s[j].poll.endTime
  }

  /** Places `x` before the first document that ends no later than it. */
  function Insert(x: Listed, s: seq<Listed>): (r: seq<Listed>)
    ensures multiset(r) == multiset(s) + multiset{x}
  {
    if s == [] then [x]
    else if x.poll.endTime >= s[0].poll.endTime then [x] + s
    else
      assert s == [s[0]] + s[1..];
      [s[0]] + Insert(x, s[1..])
  }

  /** A document that ends no later than every element of `s` and than `x`
      ends no later than every element of the insertion. */
  lemma {:induction false} InsertBound(x: Listed, s: seq<Listed>, top: int)
    requires x.poll.endTime <= top
    requires forall i :: 0 <= i < |s| ==> s[i].poll.endTime <= top
    ensures forall i :: 0 <= i < |Insert(x, s)| ==> Insert(x, s)[i].poll.endTime <= top
  {
    if s != [] && x.poll.endTime < s[0].poll.endTime {
      InsertBound(x, s[1..], top);
    }
  }

  /** Insertion into a list ordered latest first keeps it ordered. */
  lemma {:induction false} InsertSorted(x: Listed, s: seq<Listed>)
    requires SortedDesc(s)
    ensures SortedDesc(Insert(x, s))
  {
    if s != [] && x.poll.endTime < s[0].poll.endTime {
      InsertSorted(x, s[1..]);
      InsertBound(x, s[1..], s[0].poll.endTime);
      var rest := Insert(x, s[1..]);
      assert Insert(x, s) == [s[0]] + rest;
    }
  }

  /** Latest end time first; polls with equal end times keep their order. */
  function SortDesc(s: seq<Listed>): (r: seq<Listed>)
    ensures SortedDesc(r)
    ensures multiset(r) == multiset(s)
  {
    if s == [] then []
    else
      assert s == [s[0]] + s[1..];
      var rest := SortDesc(s[1..]);
      InsertSorted(s[0], rest);
      Insert(s[0], rest)
  }

  /** `limit(n)`: the first `n` documents, or all of them when there are fewer. */
  function Take(s: seq<Listed>, n: nat): (r: seq<Listed>)
    ensures |r| == (if |s| <= n then |s| else n)
    ensures s == r + s[|r|..]
  {
    if |s| <= n then s else s[..n]
  }

  /** The query: filter, order, limit. */
  function Query(docs: seq<Listed>, kind: Kind, now: int, limit: nat): seq<Listed> {
    Take(SortDesc(Filter(docs, kind, now)), limit)
  }

  lemma QueryMembers(docs: seq<Listed>, kind: Kind, now: int, limit: nat)
    ensures var r := Query(docs, kind, now, limit);
            && multiset(r) <= multiset(docs)
            && (forall i :: 0 <= i < |r| ==> Matches(kind, r[i], now))
  {
    var f := Filter(docs, kind, now);
    var s := SortDesc(f);
    var r := Query(docs, kind, now, limit);
    assert multiset(s) == multiset(r) + multiset(s[|r|..]);
    forall x ensures multiset(r)[x] <= multiset(docs)[x] {
      FilterCounts(docs, kind, now, x);
    }
    forall i | 0 <= i < |r| ensures Matches(kind, r[i], now) {
      assert r[i] in multiset(s);
      assert r[i] in multiset(f);
    }
  }

  lemma QueryKeepsLatest(docs: seq<Listed>, kind: Kind, now: int, limit: nat)
    ensures var r := Query(docs, kind, now, limit);
            forall d, i :: d in docs && Matches(kind, d, now) && d !in r && 0 <= i < |r|
              ==> r[i].poll.endTime >= d.poll.endTime
  {
    var f := Filter(docs, kind, now);
    var s := SortDesc(f);
    var r := Query(docs, kind, now, limit);
    forall d, i | d in docs && Matches(kind, d, now) && d !in r && 0 <= i < |r|
      ensures r[i].poll.endTime >= d.poll.endTime
    {
      FilterCounts(docs, kind, now, d);
      assert d in multiset(s);
      var k :| 0 <= k < |s| && s[k] == d;
      assert s[i] == r[i];
    }
  }

  /** What a query returns: at most `limit` documents, each of the requested
      kind and each from the collection, latest end time first, as many as
      the limit allows, and no matching document left out ends later than
      one that was kept. */
  lemma QueryIsLatestMatches(docs: seq<Listed>, kind: Kind, now: int, limit: nat)
    ensures var r := Query(docs, kind, now, limit);
            && |r| <= limit
            && (forall i :: 0 <= i < |r| ==> Matches(kind, r[i], now))
            && SortedDesc(r)
            && multiset(r) <= multiset(docs)
            && |r| == (if |Filter(docs, kind, now)| <= limit then |Filter(docs, kind, now)| else limit)
            && (forall d, i :: d in docs && Matches(kind, d, now) && d !in r && 0 <= i < |r|
                  ==> r[i].poll.endTime >= d.poll.endTime)
  {
    var s := SortDesc(Filter(docs, kind, now));
    assert multiset(s) == multiset(Filter(docs, kind, now));
    assert |s| == |Filter(docs, kind, now)| by {
      assert |multiset(s)| == |s|;
    }
    QueryMembers(docs, kind, now, limit);
    QueryKeepsLatest(docs, kind, now, limit);
  }

  /** With a positive limit, a query comes back empty exactly when no
      document of the collection is of the requested kind. */
  lemma QueryEmptyIff(docs: seq<Listed>, kind: Kind, now: int, limit: nat)
    requires limit > 0
    ensures Query(docs, kind, now, limit) == [] <==> forall d :: d in docs ==> !Matches(kind, d, now)
  {
    var r := Query(docs, kind, now, limit);
    QueryIsLatestMatches(docs, kind, now, limit);
    if r == [] {
      forall d | d in docs ensures !Matches(kind, d, now) {
        FilterCounts(docs, kind, now, d);
        assert |Filter(docs, kind, now)| == 0;
        assert multiset(docs)[d] > 0;
      }
    } else {
      assert multiset(r)[r[0]] > 0;
      assert r[0] in docs;
    }
  }

  /** What a catalog renders: a skeleton of placeholder cards while loading,
      the "no polls" message, or one card per poll in query order. */
  datatype CatalogScreen = Skeleton(placeholders: nat) | NoPolls | Cards(ids: seq<string>)

  /** `polls.map((poll) => <PollCard key={poll.id} ... />)`, by key. */
  function Ids(polls: seq<Listed>): (r: seq<string>)
    ensures |r| == |polls| && forall i :: 0 <= i < |r| ==> r[i] == polls[i].id
  {
    seq(|polls|, i requires 0 <= i < |polls| => polls[i].id)
  }

  /** The render choice of both catalogs; they differ only in how many
      placeholder cards the skeleton has. */
  function Screen(placeholders: nat, loading: bool, polls: seq<Listed>): (v: CatalogScreen)
    ensures v.Skeleton? <==> loading
    ensures v.Skeleton? ==> v.placeholders == placeholders
    ensures v == NoPolls <==> !loading && polls == []
    ensures v.Cards? ==> v.ids == Ids(polls) && |v.ids| > 0
  {
    if loading then Skeleton(placeholders) else if polls == [] then NoPolls else Cards(Ids(polls))
  }

  /** The active-poll query of the home page. */
  function ActivePolls(docs: seq<Listed>, now: int): seq<Listed> {
    Query(docs, Active, now, ACTIVE_LIMIT)
  }

  /** The ended-poll query of the results gallery. */
  function EndedPolls(docs: seq<Listed>, now: int): seq<Listed> {
    Query(docs, Ended, now, ENDED_LIMIT)
  }

  /** A poll is never listed in both catalogs at the same `now`. */
  lemma CatalogsDisjoint(docs: seq<Listed>, now: int)
    ensures forall d :: d in ActivePolls(docs, now) ==> d !in EndedPolls(docs, now)
  {
    QueryIsLatestMatches(docs, Active, now, ACTIVE_LIMIT);
    QueryIsLatestMatches(docs, Ended, now, ENDED_LIMIT);
    forall d | d in ActivePolls(docs, now) ensures d !in EndedPolls(docs, now) {
      var i :| 0 <= i < |ActivePolls(docs, now)| && ActivePolls(docs, now)[i] == d;
      assert Matches(Active, d, now);
    }
  }
}
