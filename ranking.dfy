/**
 * The post-processing the pages apply to the pipeline's list: the stable
 * descending sort by score (`results.sort(key=score, reverse=True)`) and the
 * tier filter of the "promissores" page.
 */
module Ranking {
  import opened Scoring
  import opened Pipeline

  /** Scores never increase along `rs`. */
  predicate Descending(rs: seq<VideoResult>) {
    forall i, j :: 0 <= i < j < |rs| ==> rs[i].score >= rs[j].score
  }

  /** The results with score `k`, in their order in `rs`. */
  function WithScore(rs: seq<VideoResult>, k: nat): seq<VideoResult> {
    if rs == [] then []
    else (if rs[0].score == k then [rs[0]] else []) + WithScore(rs[1..], k)
  }

  /** Puts `r` in front of the first result whose score is not above its own. */
  function InsertByScore(r: VideoResult, rs: seq<VideoResult>): seq<VideoResult> {
    if rs == [] || r.score >= rs[0].score then [r] + rs
    else [rs[0]] + InsertByScore(r, rs[1..])
  }

  /**
   * Python's stable sort with `reverse=True`: descending by score, results
   * with equal scores kept in their original order.
   */
  function SortByScore(rs: seq<VideoResult>): seq<VideoResult> {
    if rs == [] then [] else InsertByScore(rs[0], SortByScore(rs[1..]))
  }

  lemma {:induction false} InsertByScorePermutes(r: VideoResult, rs: seq<VideoResult>)
    ensures multiset(InsertByScore(r, rs)) == multiset(rs) + multiset{r}
  {
    if !(rs == [] || r.score >= rs[0].score) {
      var head, rest := rs[0], rs[1..];
      InsertByScorePermutes(r, rest);
      assert rs == [head] + rest;
      assert multiset(InsertByScore(r, rs)) == multiset{head} + multiset(InsertByScore(r, rest));
    }
  }

  /** The first element after inserting is either the inserted result or the old first one. */
  lemma InsertByScoreHead(r: VideoResult, rs: seq<VideoResult>)
    ensures |InsertByScore(r, rs)| == |rs| + 1
    ensures InsertByScore(r, rs)[0] == r || (rs != [] && InsertByScore(r, rs)[0] == rs[0])
  {
    InsertByScorePermutes(r, rs);
    assert |multiset(InsertByScore(r, rs))| == |multiset(rs)| + 1;
  }

  /** A list whose head is at least its descending tail's head is descending. */
  lemma ConsDescending(x: VideoResult, tail: seq<VideoResult>)
    requires Descending(tail) && (tail != [] ==> x.score >= tail[0].score)
    ensures Descending([x] + tail)
  {
    var out := [x] + tail;
    forall i, j | 0 <= i < j < |out|
      ensures out[i].score >= out[j].score
    {
      if i == 0 {
        assert out[j] == tail[j - 1];
        assert tail[0].score >= tail[j - 1].score;
      } else {
        assert out[i] == tail[i - 1] && out[j] == tail[j - 1];
      }
    }
  }

  lemma {:induction false} InsertByScoreDescending(r: VideoResult, rs: seq<VideoResult>)
    requires Descending(rs)
    ensures Descending(InsertByScore(r, rs))
  {
    if rs == [] || r.score >= rs[0].score {
      ConsDescending(r, rs);
    } else {
      var rest := rs[1..];
      assert Descending(rest) by {
        forall i, j | 0 <= i < j < |rest|
          ensures rest[i].score >= rest[j].score
        {
          assert rest[i] == rs[i + 1] && rest[j] == rs[j + 1];
        }
      }
      InsertByScoreDescending(r, rest);
      InsertByScoreHead(r, rest);
      if rest != [] {
        assert rs[0].score >= rs[1].score;
      }
      ConsDescending(rs[0], InsertByScore(r, rest));
    }
  }

  /** The results with score `k` in a list with `x` in front. */
  lemma WithScoreCons(x: VideoResult, tail: seq<VideoResult>, k: nat)
    ensures WithScore([x] + tail, k) == (if x.score == k then [x] else []) + WithScore(tail, k)
  {
    assert ([x] + tail)[0] == x && ([x] + tail)[1..] == tail;
  }

  lemma {:induction false} InsertByScoreWithScore(r: VideoResult, rs: seq<VideoResult>, k: nat)
    ensures WithScore(InsertByScore(r, rs), k) == (if r.score == k then [r] else []) + WithScore(rs, k)
  {
    if rs == [] || r.score >= rs[0].score {
      WithScoreCons(r, rs, k);
    } else {
      var head, rest := rs[0], rs[1..];
      InsertByScoreWithScore(r, rest, k);
      WithScoreCons(head, InsertByScore(r, rest), k);
      WithScoreCons(head, rest, k);
      assert rs == [head] + rest;
      // `r` scores below `head`, so at most one of them has score `k`.
      if head.score == k {
        assert WithScore(InsertByScore(r, rs), k) == [head] + WithScore(rest, k);
      } else {
        assert WithScore(InsertByScore(r, rs), k) == WithScore(InsertByScore(r, rest), k);
      }
    }
  }

  /**
   * The sort returns the same results, descending by score, and for every
   * score the results with that score in the order they had: exactly what a
   * stable descending sort promises.
   */
  lemma {:induction false} SortByScoreIsStableSort(rs: seq<VideoResult>)
    ensures Descending(SortByScore(rs))
    ensures multiset(SortByScore(rs)) == multiset(rs)
    ensures forall k :: WithScore(SortByScore(rs), k) == WithScore(rs, k)
  {
    if rs != [] {
      var sorted := SortByScore(rs[1..]);
      SortByScoreIsStableSort(rs[1..]);
      InsertByScoreDescending(rs[0], sorted);
      InsertByScorePermutes(rs[0], sorted);
      forall k
        ensures WithScore(SortByScore(rs), k) == WithScore(rs, k)
      {
        InsertByScoreWithScore(rs[0], sorted, k);
      }
      assert rs == [rs[0]] + rs[1..];
    }
  }

  /** A descending list is its own sort: sorting twice changes nothing. */
  lemma {:induction false} SortByScoreOfDescending(rs: seq<VideoResult>)
    requires Descending(rs)
    ensures SortByScore(rs) == rs
  {
    if rs != [] {
      SortByScoreOfDescending(rs[1..]);
    }
  }

  lemma SortByScoreIdempotent(rs: seq<VideoResult>)
    ensures SortByScore(SortByScore(rs)) == SortByScore(rs)
  {
    SortByScoreIsStableSort(rs);
    SortByScoreOfDescending(SortByScore(rs));
  }

  /** The labels the "promissores" page keeps. */
  const PromisingLabels: seq<string> := ["Ótima Oportunidade", "Boa Oportunidade"]

  /** The comprehension that keeps results whose label is one of `PromisingLabels`. */
  function KeepPromising(rs: seq<VideoResult>): seq<VideoResult> {
    if rs == [] then []
    else (if Label(rs[0].opportunity) in PromisingLabels then [rs[0]] else []) + KeepPromising(rs[1..])
  }

  /**
   * Filtering by label keeps exactly the results that are not `Saturado`,
   * in their order.
   */
  lemma {:induction false} KeepPromisingDropsSaturated(rs: seq<VideoResult>)
    ensures forall r :: r in KeepPromising(rs) <==> r in rs && r.opportunity != Saturated
    ensures |KeepPromising(rs)| <= |rs|
  {
    if rs != [] {
      KeepPromisingDropsSaturated(rs[1..]);
      LabelInjective(rs[0].opportunity, Saturated);
      assert rs == [rs[0]] + rs[1..];
    }
  }

  /** What `promissores` shows for the pipeline's list: the promising tiers, best score first. */
  function Promising(rs: seq<VideoResult>): seq<VideoResult> {
    SortByScore(KeepPromising(rs))
  }

  lemma PromisingIsSortedSelection(rs: seq<VideoResult>)
    ensures Descending(Promising(rs))
    ensures forall r :: r in Promising(rs) <==> r in rs && r.opportunity in {GreatOpportunity, GoodOpportunity}
    ensures forall k :: WithScore(Promising(rs), k) == WithScore(KeepPromising(rs), k)
  {
    KeepPromisingDropsSaturated(rs);
    SortByScoreIsStableSort(KeepPromising(rs));
    forall r
      ensures r in Promising(rs) <==> r in KeepPromising(rs)
    {
      assert r in Promising(rs) <==> r in multiset(Promising(rs));
    }
  }
}
