/** Ranking of equally healthy candidates: affinity, then score, then model order, then the rotated slot. */
module Ordering {

  datatype Rank = Rank(notAffine: bool, score: nat, ordinal: nat, slot: nat)
  datatype Ranked<T> = Ranked(rank: Rank, item: T)

  /** Lexicographic order; false comes before true. */
  predicate Le(a: Rank, b: Rank) {
    if a.notAffine != b.notAffine then b.notAffine
    else if a.score != b.score then a.score < b.score
    else if a.ordinal != b.ordinal then a.ordinal < b.ordinal
    else a.slot <= b.slot
  }

  /** Stable: equal ranks keep their order. */
  function Insert<T>(x: Ranked<T>, sorted: seq<Ranked<T>>): seq<Ranked<T>> {
    if sorted == [] then [x]
    else if Le(sorted[0].rank, x.rank) then [sorted[0]] + Insert(x, sorted[1..])
    else [x] + sorted
  }

  function SortByRank<T>(xs: seq<Ranked<T>>): (r: seq<Ranked<T>>)
    ensures |r| == |xs|
    ensures multiset(r) == multiset(xs)
  {
    if xs == [] then []
    else
      assert xs == xs[..|xs| - 1] + [xs[|xs| - 1]];
      InsertPermutes(xs[|xs| - 1], SortByRank(xs[..|xs| - 1]));
      Insert(xs[|xs| - 1], SortByRank(xs[..|xs| - 1]))
  }

  function Items<T>(xs: seq<Ranked<T>>): (r: seq<T>)
    ensures |r| == |xs|
  {
    seq(|xs|, i requires 0 <= i < |xs| => xs[i].item)
  }

  predicate SortedRanks<T>(xs: seq<Ranked<T>>) {
    forall i, j :: 0 <= i < j < |xs| ==> Le(xs[i].rank, xs[j].rank)
  }

  lemma {:induction false} InsertPermutes<T>(x: Ranked<T>, sorted: seq<Ranked<T>>)
    ensures multiset(Insert(x, sorted)) == multiset(sorted) + multiset{x}
    ensures |Insert(x, sorted)| == |sorted| + 1
  {
    if sorted != [] && Le(sorted[0].rank, x.rank) {
      InsertPermutes(x, sorted[1..]);
      assert sorted == [sorted[0]] + sorted[1..];
    }
  }

  lemma {:induction false} InsertSorts<T>(x: Ranked<T>, sorted: seq<Ranked<T>>)
    requires SortedRanks(sorted)
    ensures SortedRanks(Insert(x, sorted))
  {
    if sorted != [] && Le(sorted[0].rank, x.rank) {
      var rest := Insert(x, sorted[1..]);
      InsertSorts(x, sorted[1..]);
      InsertPermutes(x, sorted[1..]);
      forall k | 0 <= k < |rest| ensures Le(sorted[0].rank, rest[k].rank) {
        assert rest[k] in multiset(rest);
        assert rest[k] == x || rest[k] in sorted[1..];
      }
    }
  }

  lemma {:induction false} SortSorts<T>(xs: seq<Ranked<T>>)
    ensures SortedRanks(SortByRank(xs))
  {
    if xs != [] {
      SortSorts(xs[..|xs| - 1]);
      InsertSorts(xs[|xs| - 1], SortByRank(xs[..|xs| - 1]));
    }
  }

  lemma {:induction false} InsertKeepsItems<T>(x: Ranked<T>, sorted: seq<Ranked<T>>)
    ensures multiset(Items(Insert(x, sorted))) == multiset(Items(sorted)) + multiset{x.item}
  {
    if sorted == [] {
      assert Items([x]) == [x.item];
    } else {
      assert Items(sorted) == [sorted[0].item] + Items(sorted[1..]);
      if Le(sorted[0].rank, x.rank) {
        InsertKeepsItems(x, sorted[1..]);
        assert Items(Insert(x, sorted)) == [sorted[0].item] + Items(Insert(x, sorted[1..]));
      } else {
        assert Items([x] + sorted) == [x.item] + Items(sorted);
      }
    }
  }

  lemma ItemsSnoc<T>(xs: seq<Ranked<T>>)
    requires xs != []
    ensures Items(xs) == Items(xs[..|xs| - 1]) + [xs[|xs| - 1].item]
  {
  }

  /** In plain comparisons: affine entries first, then by score, then by model order, then by slot. */
  lemma SortsPlainly<T>(xs: seq<Ranked<T>>, i: nat, j: nat)
    requires i < j < |xs|
    ensures var a, b := SortByRank(xs)[i].rank, SortByRank(xs)[j].rank;
      && (!b.notAffine ==> !a.notAffine)
      && (a.notAffine == b.notAffine ==>
            a.score < b.score
            || (a.score == b.score && (a.ordinal < b.ordinal || (a.ordinal == b.ordinal && a.slot <= b.slot))))
  {
    hide SortByRank;
    SortSorts(xs);
  }

  /** Sorting neither loses nor repeats an item. */
  lemma {:induction false} SortKeepsItems<T>(xs: seq<Ranked<T>>)
    ensures multiset(Items(SortByRank(xs))) == multiset(Items(xs))
  {
    if xs != [] {
      var n := |xs| - 1;
      ItemsSnoc(xs);
      hide Items, Insert;
      SortKeepsItems(xs[..n]);
      InsertKeepsItems(xs[n], SortByRank(xs[..n]));
    }
  }
}
