/**
 * `InvoiceTools.search_similar_invoices`: rank the stored invoices by the cosine
 * similarity of their embedding to the query, keep the first `limit` of the
 * ranking, and report those above the similarity threshold.
 *
 * The TF-IDF vectorizer and the cosine similarity are numerical library code; the
 * model receives their output, one similarity per stored embedding, or None where
 * that library code raises.
 */
module InvoiceSearch {
  import opened Json

  /** The minimum similarity a result must exceed. */
  const THRESHOLD: real := 0.1
  /** Length of the text prefix shown as a snippet. */
  const SNIPPET_LENGTH: int := 200

  /** Every index of `r` addresses a similarity. */
  predicate InRange(r: seq<nat>, s: seq<real>)
  {
    forall k :: 0 <= k < |r| ==> r[k] < |s|
  }

  /** The indices of `r` have non-increasing similarities. */
  predicate SortedDesc(r: seq<nat>, s: seq<real>)
    requires InRange(r, s)
  {
    forall a, b :: 0 <= a < b < |r| ==> s[r[a]] >= s[r[b]]
  }

  function Range(n: nat): (r: seq<nat>)
    ensures |r| == n && forall k :: 0 <= k < n ==> r[k] == k
  {
    seq(n, k requires 0 <= k < n => k)
  }

  /** Inserts index `i` into the ranking before the first entry whose similarity is
      not above `s[i]`. */
  function InsertRanked(r: seq<nat>, i: nat, s: seq<real>): (t: seq<nat>)
    requires InRange(r, s) && i < |s|
    ensures InRange(t, s)
    decreases |r|
  {
    if r == [] then [i]
    else if s[r[0]] <= s[i] then [i] + r
    else [r[0]] + InsertRanked(r[1..], i, s)
  }

  /** Insertion adds exactly the one index. */
  lemma {:induction false} InsertRankedPermutes(r: seq<nat>, i: nat, s: seq<real>)
    requires InRange(r, s) && i < |s|
    ensures multiset(InsertRanked(r, i, s)) == multiset(r) + multiset{i}
    decreases |r|
  {
    if r != [] && s[r[0]] > s[i] {
      InsertRankedPermutes(r[1..], i, s);
      assert r == [r[0]] + r[1..];
    }
  }

  /** The indices 0 .. n-1 ordered by decreasing similarity; among equal
      similarities the larger index comes first, as the reverse of a stable
      ascending sort gives. */
  function RankFirst(s: seq<real>, n: nat): (r: seq<nat>)
    requires n <= |s|
    ensures InRange(r, s)
    decreases n
  {
    if n == 0 then [] else InsertRanked(RankFirst(s, n - 1), n - 1, s)
  }

  /** `np.argsort(similarities)[::-1]`. */
  function Ranking(s: seq<real>): seq<nat>
  {
    RankFirst(s, |s|)
  }

  /** Insertion brings in no similarity above a bound that `i` and all of `r` respect. */
  lemma {:induction false} InsertRankedBelow(r: seq<nat>, i: nat, s: seq<real>, v: real)
    requires InRange(r, s) && i < |s|
    requires s[i] <= v && forall k :: 0 <= k < |r| ==> s[r[k]] <= v
    ensures forall k :: 0 <= k < |InsertRanked(r, i, s)| ==> s[InsertRanked(r, i, s)[k]] <= v
    decreases |r|
  {
    if r != [] && s[r[0]] > s[i] {
      var t := InsertRanked(r[1..], i, s);
      InsertRankedBelow(r[1..], i, s, v);
      var u := [r[0]] + t;
      assert InsertRanked(r, i, s) == u;
      forall k | 0 <= k < |u|
        ensures s[u[k]] <= v
      {
        if k > 0 {
          assert u[k] == t[k - 1];
        }
      }
    } else if r != [] {
      var u := [i] + r;
      assert InsertRanked(r, i, s) == u;
      forall k | 0 <= k < |u|
        ensures s[u[k]] <= v
      {
        if k > 0 {
          assert u[k] == r[k - 1];
        }
      }
    }
  }

  /** Insertion keeps the ranking ordered. */
  lemma {:induction false} InsertRankedSorted(r: seq<nat>, i: nat, s: seq<real>)
    requires InRange(r, s) && i < |s| && SortedDesc(r, s)
    ensures SortedDesc(InsertRanked(r, i, s), s)
    decreases |r|
  {
    if r != [] && s[r[0]] > s[i] {
      var rest := r[1..];
      assert forall k :: 0 <= k < |rest| ==> rest[k] == r[k + 1];
      InsertRankedSorted(rest, i, s);
      InsertRankedBelow(rest, i, s, s[r[0]]);
      var t := InsertRanked(rest, i, s);
      var u := [r[0]] + t;
      assert InsertRanked(r, i, s) == u;
      forall a, b | 0 <= a < b < |u|
        ensures s[u[a]] >= s[u[b]]
      {
        assert u[b] == t[b - 1];
        if a > 0 {
          assert u[a] == t[a - 1];
        }
      }
    } else if r != [] {
      var u := [i] + r;
      assert InsertRanked(r, i, s) == u;
      forall a, b | 0 <= a < b < |u|
        ensures s[u[a]] >= s[u[b]]
      {
        assert u[b] == r[b - 1];
        if a > 0 {
          assert u[a] == r[a - 1];
        }
      }
    }
  }

  lemma RangeStep(n: nat)
    requires n > 0
    ensures Range(n) == Range(n - 1) + [n - 1]
  {
  }

  /** The ranking holds each index below `n` once. */
  lemma {:induction false} RankingPermutes(s: seq<real>, n: nat)
    requires n <= |s|
    ensures multiset(RankFirst(s, n)) == multiset(Range(n))
    decreases n
  {
    if n > 0 {
      RankingPermutes(s, n - 1);
      var r := RankFirst(s, n - 1);
      assert RankFirst(s, n) == InsertRanked(r, n - 1, s);
      InsertRankedPermutes(r, n - 1, s);
      RangeStep(n);
    }
  }

  /** The ranking is ordered by decreasing similarity. */
  lemma {:induction false} RankingSorted(s: seq<real>, n: nat)
    requires n <= |s|
    ensures SortedDesc(RankFirst(s, n), s)
    decreases n
  {
    if n > 0 {
      RankingSorted(s, n - 1);
      var r := RankFirst(s, n - 1);
      assert RankFirst(s, n) == InsertRanked(r, n - 1, s);
      InsertRankedSorted(r, n - 1, s);
    }
  }

  /** The ranking is a permutation of the indices, ordered by decreasing similarity. */
  lemma RankingSpec(s: seq<real>, n: nat)
    requires n <= |s|
    ensures multiset(RankFirst(s, n)) == multiset(Range(n))
    ensures SortedDesc(RankFirst(s, n), s)
  {
    RankingPermutes(s, n);
    RankingSorted(s, n);
  }

  /** Every stored index appears in the ranking. */
  lemma RankingHasAll(s: seq<real>, i: nat)
    requires i < |s|
    ensures i in Ranking(s)
  {
    RankingSpec(s, |s|);
    assert Range(|s|)[i] == i;
    assert i in multiset(Range(|s|));
  }

  /** The ranked indices above the threshold, in ranking order. */
  function Selected(top: seq<nat>, s: seq<real>): seq<nat>
    decreases |top|
  {
    if top == [] then []
    else
      var idx := top[|top| - 1];
      Selected(top[..|top| - 1], s) + (if idx < |s| && s[idx] > THRESHOLD then [idx] else [])
  }

  datatype Hit = Hit(invoice: Record, similarity: real, snippet: string)

  /** One result dict: indexing the invoices or texts out of range raises IndexError. */
  function HitAt(idx: nat, invoices: seq<Record>, texts: seq<string>, s: seq<real>): Outcome<Hit>
  {
    if idx < |invoices| && idx < |texts| && idx < |s| then
      Done(Hit(invoices[idx], s[idx], SliceTo(texts[idx], SNIPPET_LENGTH) + "..."))
    else Raised
  }

  function Hits(sel: seq<nat>, invoices: seq<Record>, texts: seq<string>, s: seq<real>): Outcome<seq<Hit>>
  {
    MapAll(sel, idx => HitAt(idx, invoices, texts, s))
  }

  /** What `search_similar_invoices` returns: nothing when there are no texts or no
      embeddings, or when anything in its `try` block raises. */
  function SearchResult(invoices: seq<Record>, texts: seq<string>, similarities: Option<seq<real>>, limit: int): seq<Hit>
  {
    if |texts| == 0 || similarities.None? || |similarities.value| == 0 then []
    else
      var s := similarities.value;
      match Hits(Selected(SliceTo(Ranking(s), limit), s), invoices, texts, s)
      case Raised => []
      case Done(hs) => hs
  }

  /** `search_similar_invoices(query, limit)` given the similarities of the query. */
  method SearchSimilarInvoices(invoices: seq<Record>, texts: seq<string>, similarities: Option<seq<real>>, limit: int)
    returns (results: seq<Hit>)
    ensures results == SearchResult(invoices, texts, similarities, limit)
  {
    if |texts| == 0 || similarities.None? || |similarities.value| == 0 {
      return [];
    }
    var s := similarities.value;
    var top := SliceTo(Ranking(s), limit);
    assert InRange(top, s);
    var hits := CollectHits(top, s, invoices, texts);
    results := if hits.Raised? then [] else hits.value;
  }

  /** The loop over the top indices: the hits above the threshold, in ranking order,
      or Raised at the first one whose invoice or text is missing. */
  method CollectHits(top: seq<nat>, s: seq<real>, invoices: seq<Record>, texts: seq<string>)
    returns (r: Outcome<seq<Hit>>)
    requires InRange(top, s)
    ensures r == Hits(Selected(top, s), invoices, texts, s)
  {
    var results := [];
    var i := 0;
    assert Selected(top[..0], s) == [];
    while i < |top|
      invariant 0 <= i <= |top|
      invariant Hits(Selected(top[..i], s), invoices, texts, s) == Done(results)
    {
      var idx := top[i];
      assert top[..i + 1][..i] == top[..i];
      if s[idx] > THRESHOLD {
        if idx >= |invoices| || idx >= |texts| {
          HitsRaiseAt(top, s, i, invoices, texts);
          return Raised;
        }
        HitsStep(top, s, i, invoices, texts);
        assert HitAt(idx, invoices, texts, s).value == Hit(invoices[idx], s[idx], SliceTo(texts[idx], SNIPPET_LENGTH) + "...");
        results := results + [Hit(invoices[idx], s[idx], SliceTo(texts[idx], SNIPPET_LENGTH) + "...")];
      } else {
        assert Selected(top[..i + 1], s) == Selected(top[..i], s) + [];
        assert Selected(top[..i + 1], s) == Selected(top[..i], s);
      }
      i := i + 1;
    }
    assert top[..|top|] == top;
    return Done(results);
  }

  /** A selected index whose invoice or text is missing makes the whole search raise. */
  lemma HitsRaiseAt(top: seq<nat>, s: seq<real>, i: nat, invoices: seq<Record>, texts: seq<string>)
    requires i < |top| && top[i] < |s| && s[top[i]] > THRESHOLD
    requires top[i] >= |invoices| || top[i] >= |texts|
    ensures Hits(Selected(top, s), invoices, texts, s).Raised?
  {
    SelectedMembers(top, s);
    var sel := Selected(top, s);
    assert top[i] in sel;
    var k :| 0 <= k < |sel| && sel[k] == top[i];
    MapAllDone(sel, x => HitAt(x, invoices, texts, s));
  }

  /** One more ranked index above the threshold adds its hit at the end. */
  lemma HitsStep(top: seq<nat>, s: seq<real>, i: nat, invoices: seq<Record>, texts: seq<string>)
    requires i < |top| && top[i] < |s| && s[top[i]] > THRESHOLD
    requires top[i] < |invoices| && top[i] < |texts|
    requires Hits(Selected(top[..i], s), invoices, texts, s).Done?
    ensures Hits(Selected(top[..i + 1], s), invoices, texts, s)
      == Done(Hits(Selected(top[..i], s), invoices, texts, s).value + [HitAt(top[i], invoices, texts, s).value])
  {
    var idx := top[i];
    assert top[..i + 1][..i] == top[..i];
    var sel := Selected(top[..i], s);
    assert Selected(top[..i + 1], s) == sel + [idx];
    MapAllSnoc(sel, idx, x => HitAt(x, invoices, texts, s));
  }

  lemma {:induction false} SelectedMembers(top: seq<nat>, s: seq<real>)
    ensures forall x :: x in Selected(top, s) <==> x in top && x < |s| && s[x] > THRESHOLD
    decreases |top|
  {
    if top != [] {
      var front := top[..|top| - 1];
      SelectedMembers(front, s);
      assert top == front + [top[|top| - 1]];
    }
  }

  lemma {:induction false} SelectedLength(top: seq<nat>, s: seq<real>)
    ensures |Selected(top, s)| <= |top|
    decreases |top|
  {
    if top != [] {
      SelectedLength(top[..|top| - 1], s);
    }
  }

  lemma {:induction false} SelectedSorted(top: seq<nat>, s: seq<real>)
    requires InRange(top, s) && SortedDesc(top, s)
    ensures InRange(Selected(top, s), s) && SortedDesc(Selected(top, s), s)
    decreases |top|
  {
    if top != [] {
      var front := top[..|top| - 1];
      var last := top[|top| - 1];
      assert InRange(front, s) && SortedDesc(front, s);
      SelectedSorted(front, s);
      SelectedMembers(front, s);
      var sel := Selected(front, s);
      if last < |s| && s[last] > THRESHOLD {
        var u := sel + [last];
        forall a, b | 0 <= a < b < |u|
          ensures s[u[a]] >= s[u[b]]
        {
          if b == |sel| {
            assert u[a] in front;
            var p :| 0 <= p < |front| && front[p] == u[a];
            assert top[p] == u[a];
          }
        }
      }
    }
  }

  /** A completed hit list holds one hit per selected index, built from it. */
  lemma HitsPointwise(sel: seq<nat>, invoices: seq<Record>, texts: seq<string>, s: seq<real>)
    requires Hits(sel, invoices, texts, s).Done?
    ensures |Hits(sel, invoices, texts, s).value| == |sel|
    ensures forall k :: 0 <= k < |sel| ==>
      && sel[k] < |invoices| && sel[k] < |texts| && sel[k] < |s|
      && Hits(sel, invoices, texts, s).value[k]
           == Hit(invoices[sel[k]], s[sel[k]], SliceTo(texts[sel[k]], SNIPPET_LENGTH) + "...")
  {
    MapAllPointwise(sel, x => HitAt(x, invoices, texts, s));
  }

  /** At most `limit` results for a non-negative limit, and never more than there
      are embeddings. */
  lemma SearchLimit(invoices: seq<Record>, texts: seq<string>, similarities: Option<seq<real>>, limit: int)
    ensures var r := SearchResult(invoices, texts, similarities, limit);
      && (limit >= 0 ==> |r| <= limit)
      && (similarities.Some? ==> |r| <= |similarities.value|)
  {
    if similarities.Some? && |texts| > 0 && |similarities.value| > 0 {
      var s := similarities.value;
      var top := SliceTo(Ranking(s), limit);
      SelectedLength(top, s);
      RankingSpec(s, |s|);
      assert |Ranking(s)| == |s| by {
        assert |multiset(Ranking(s))| == |multiset(Range(|s|))|;
      }
      var h := Hits(Selected(top, s), invoices, texts, s);
      if h.Done? {
        HitsPointwise(Selected(top, s), invoices, texts, s);
      }
    }
  }

  /** Each result is an invoice whose similarity exceeds the threshold, reported with
      that similarity and its text's first 200 characters followed by "...". */
  lemma SearchHitsMeaning(invoices: seq<Record>, texts: seq<string>, similarities: Option<seq<real>>, limit: int)
    ensures var r := SearchResult(invoices, texts, similarities, limit);
      forall k :: 0 <= k < |r| ==>
        && similarities.Some?
        && exists idx :: 0 <= idx < |similarities.value| && idx < |invoices| && idx < |texts|
             && similarities.value[idx] > THRESHOLD
             && r[k] == Hit(invoices[idx], similarities.value[idx], SliceTo(texts[idx], SNIPPET_LENGTH) + "...")
  {
    if similarities.Some? && |texts| > 0 && |similarities.value| > 0 {
      var s := similarities.value;
      var top := SliceTo(Ranking(s), limit);
      var sel := Selected(top, s);
      if Hits(sel, invoices, texts, s).Done? {
        HitsPointwise(sel, invoices, texts, s);
        SelectedMembers(top, s);
        assert forall k :: 0 <= k < |sel| ==> sel[k] in sel;
      }
    }
  }

  /** Results come in order of non-increasing similarity. */
  lemma SearchHitsSorted(invoices: seq<Record>, texts: seq<string>, similarities: Option<seq<real>>, limit: int)
    ensures var r := SearchResult(invoices, texts, similarities, limit);
      forall k, l :: 0 <= k < l < |r| ==> r[k].similarity >= r[l].similarity
  {
    if similarities.Some? && |texts| > 0 && |similarities.value| > 0 {
      var s := similarities.value;
      var top := SliceTo(Ranking(s), limit);
      var sel := Selected(top, s);
      RankingSpec(s, |s|);
      assert InRange(top, s) && SortedDesc(top, s);
      SelectedSorted(top, s);
      if Hits(sel, invoices, texts, s).Done? {
        HitsPointwise(sel, invoices, texts, s);
      }
    }
  }

  /** An embedding outside the first `limit` ranks is no more similar than any
      inside them. */
  lemma OutsideTopIsLower(s: seq<real>, limit: int, i: nat, j: nat)
    requires i < |s| && i !in SliceTo(Ranking(s), limit) && j in SliceTo(Ranking(s), limit)
    ensures s[i] <= s[j]
  {
    var rank := Ranking(s);
    var top := SliceTo(rank, limit);
    RankingSpec(s, |s|);
    RankingHasAll(s, i);
    var q :| 0 <= q < |rank| && rank[q] == i;
    var p :| 0 <= p < |top| && top[p] == j;
    assert rank[p] == j;
  }

  /** The results are the best matches: every embedding left out of the first
      `limit` ranks is no more similar than any reported result. */
  lemma SearchHitsAreTop(invoices: seq<Record>, texts: seq<string>, similarities: Option<seq<real>>, limit: int)
    requires similarities.Some?
    ensures var r := SearchResult(invoices, texts, similarities, limit);
      var s := similarities.value;
      forall k, i :: 0 <= k < |r| && 0 <= i < |s| && i !in SliceTo(Ranking(s), limit) ==> s[i] <= r[k].similarity
  {
    var s := similarities.value;
    if |texts| > 0 && |s| > 0 {
      var top := SliceTo(Ranking(s), limit);
      var sel := Selected(top, s);
      if Hits(sel, invoices, texts, s).Done? {
        HitsPointwise(sel, invoices, texts, s);
        SelectedMembers(top, s);
        var r := Hits(sel, invoices, texts, s).value;
        forall k, i | 0 <= k < |r| && 0 <= i < |s| && i !in top
          ensures s[i] <= r[k].similarity
        {
          assert sel[k] in sel;
          OutsideTopIsLower(s, limit, i, sel[k]);
        }
      }
    }
  }

  /** When every selected invoice and text exists, every ranked index above the
      threshold is reported. */
  lemma SearchComplete(invoices: seq<Record>, texts: seq<string>, similarities: Option<seq<real>>, limit: int)
    requires similarities.Some? && |similarities.value| > 0 && |texts| > 0
    requires var s := similarities.value;
      forall idx :: idx in SliceTo(Ranking(s), limit) && idx < |s| && s[idx] > THRESHOLD ==> idx < |invoices| && idx < |texts|
    ensures var r := SearchResult(invoices, texts, similarities, limit);
      var s := similarities.value;
      forall idx :: idx in SliceTo(Ranking(s), limit) && idx < |s| && s[idx] > THRESHOLD ==>
        Hit(invoices[idx], s[idx], SliceTo(texts[idx], SNIPPET_LENGTH) + "...") in r
  {
    var s := similarities.value;
    var top := SliceTo(Ranking(s), limit);
    var sel := Selected(top, s);
    SelectedMembers(top, s);
    MapAllDone(sel, x => HitAt(x, invoices, texts, s));
    HitsPointwise(sel, invoices, texts, s);
    var r := Hits(sel, invoices, texts, s).value;
    forall idx | idx in top && idx < |s| && s[idx] > THRESHOLD
      ensures Hit(invoices[idx], s[idx], SliceTo(texts[idx], SNIPPET_LENGTH) + "...") in r
    {
      var k :| 0 <= k < |sel| && sel[k] == idx;
      assert r[k] == Hit(invoices[idx], s[idx], SliceTo(texts[idx], SNIPPET_LENGTH) + "...");
    }
  }

  /** A ranked index above the threshold whose invoice or text is missing empties the
      whole answer: the IndexError is caught and `[]` returned. */
  lemma SearchRaisesEmpty(invoices: seq<Record>, texts: seq<string>, similarities: Option<seq<real>>, limit: int, idx: nat)
    requires similarities.Some?
    requires idx in SliceTo(Ranking(similarities.value), limit)
    requires idx < |similarities.value| && similarities.value[idx] > THRESHOLD
    requires idx >= |invoices| || idx >= |texts|
    ensures SearchResult(invoices, texts, similarities, limit) == []
  {
    var s := similarities.value;
    var top := SliceTo(Ranking(s), limit);
    var i :| 0 <= i < |top| && top[i] == idx;
    if |texts| > 0 {
      HitsRaiseAt(top, s, i, invoices, texts);
    }
  }
}
