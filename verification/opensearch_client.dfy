/**
 * `OpenSearchClient`: the document store of the backend. Documents live in a dict
 * from document id to record, kept in insertion order; the pickle file that
 * persists it between calls is replaced by the in-memory field `entries`.
 *
 * The document id is the md5 digest of `session_id + "_" + filename`; md5 is the
 * parameter `digest`. The upload to S3 is reduced to whether it succeeded.
 */
module OpenSearchClient {
  import opened Json
  import opened Collections

  const S3_PREFIX: string := "invoices/"

  datatype Document = Document(
    id: string,
    sessionId: string,
    filename: string,
    s3Location: string,
    rawText: string,
    structuredData: Record,
    timestamp: string)

  datatype StoreResult = Stored(documentId: string, s3Location: string) | StoreFailed

  /** The text whose digest names a document: `f"{session_id}_{filename}"`. */
  function KeyText(sessionId: string, filename: string): string
  {
    sessionId + "_" + filename
  }

  /** The position of key `k` among the entries, or `|es|` when it is absent. */
  function IndexOf(es: seq<(string, Document)>, k: string): (j: nat)
    ensures j <= |es|
    ensures j < |es| ==> es[j].0 == k
    ensures j == |es| ==> forall i :: 0 <= i < |es| ==> es[i].0 != k
    decreases |es|
  {
    if es == [] then 0
    else if es[|es| - 1].0 == k && IndexOf(es[..|es| - 1], k) == |es| - 1 then |es| - 1
    else if IndexOf(es[..|es| - 1], k) < |es| - 1 then IndexOf(es[..|es| - 1], k)
    else |es|
  }

  /** `documents[k] = v`: an existing key keeps its position, a new one goes last. */
  function Put(es: seq<(string, Document)>, k: string, v: Document): seq<(string, Document)>
  {
    var j := IndexOf(es, k);
    if j < |es| then es[j := (k, v)] else es + [(k, v)]
  }

  /** `documents.get(k)`. */
  function Lookup(es: seq<(string, Document)>, k: string): Option<Document>
  {
    var j := IndexOf(es, k);
    if j < |es| then Some(es[j].1) else None
  }

  /** `documents.values()`, in insertion order. */
  function Records(es: seq<(string, Document)>): (ds: seq<Document>)
    ensures |ds| == |es| && forall i :: 0 <= i < |es| ==> ds[i] == es[i].1
  {
    seq(|es|, i requires 0 <= i < |es| => es[i].1)
  }

  predicate DistinctIds(es: seq<(string, Document)>)
  {
    forall i, j :: 0 <= i < j < |es| ==> es[i].0 != es[j].0
  }

  /** `[doc for doc in documents.values() if doc['session_id'] == session_id]`. */
  function SessionDocs(es: seq<(string, Document)>, sessionId: string): (ds: seq<Document>)
    ensures |ds| <= |es|
    ensures forall i :: 0 <= i < |ds| ==> ds[i].sessionId == sessionId
    decreases |es|
  {
    if es == [] then []
    else
      var d := es[|es| - 1].1;
      SessionDocs(es[..|es| - 1], sessionId) + (if d.sessionId == sessionId then [d] else [])
  }

  class DocumentStore {
    var entries: seq<(string, Document)>

    ghost predicate Valid()
      reads this
    {
      DistinctIds(entries)
    }

    constructor ()
      ensures entries == [] && Valid()
    {
      entries := [];
    }

    /** `upload_and_store_document`: on a successful upload, the record is stored under
        the digest of its key text, replacing any record with the same id. */
    method UploadAndStoreDocument(
      filename: string, sessionId: string, rawText: string, structuredData: Record,
      digest: string -> string, now: string, uploaded: bool)
      returns (r: StoreResult)
      requires Valid()
      modifies this
      ensures Valid()
      ensures !uploaded ==> r == StoreFailed && entries == old(entries)
      ensures uploaded ==>
        var id := digest(KeyText(sessionId, filename));
        var key := S3_PREFIX + KeyText(sessionId, filename);
        && r == Stored(id, key)
        && entries == Put(old(entries), id, Document(id, sessionId, filename, key, rawText, structuredData, now))
    {
      if !uploaded {
        return StoreFailed;
      }
      var s3Key := S3_PREFIX + KeyText(sessionId, filename);
      var id := digest(KeyText(sessionId, filename));
      var document := Document(id, sessionId, filename, s3Key, rawText, structuredData, now);
      PutKeepsDistinct(entries, id, document);
      entries := Put(entries, id, document);
      r := Stored(id, s3Key);
    }

    /** `get_session_documents`. */
    function GetSessionDocuments(sessionId: string): (ds: seq<Document>)
      reads this
      ensures forall i :: 0 <= i < |ds| ==> ds[i].sessionId == sessionId
      ensures IsSubsequence(ds, Records(entries))
    {
      SessionDocsSpec(entries, sessionId);
      SessionDocs(entries, sessionId)
    }

    /** `aggregate_data(session_id, field, operation)`. */
    method AggregateData(sessionId: string, field: string, operation: string) returns (r: AggResult)
      ensures r == AggregateSpec(SessionDocs(entries, sessionId), field, operation)
    {
      var docs := GetSessionDocuments(sessionId);
      if docs == [] {
        return AggFailure("No documents in session");
      }
      var values := CollectValues(docs, field);
      var result: AggValue;
      if operation == "sum" && field == "total_amount" {
        result := Number(NumberSum(values));
      } else if operation == "avg" && field == "total_amount" {
        result := Number(if values != [] then NumberSum(values) / |values| as real else 0.0);
      } else if operation == "count" {
        result := Count(|values|);
      } else if field == "vendor_name" {
        var counts := CountVendors(values);
        if counts.None? {
          return AggFailure("Aggregation failed");
        }
        result := VendorCounts(counts.value);
      } else {
        result := Items(values);
      }
      r := AggSuccess(field, operation, result, |docs|);
    }
  }

  /** The first loop of `aggregate_data`. */
  method CollectValues(docs: seq<Document>, field: string) returns (values: seq<Value>)
    ensures values == Collected(docs, field)
  {
    values := [];
    var i := 0;
    while i < |docs|
      invariant 0 <= i <= |docs|
      invariant values == Collected(docs[..i], field)
    {
      assert docs[..i + 1][..i] == docs[..i];
      var data := docs[i].structuredData;
      if field == "total_amount" {
        var amount := GetOr(data, "total_amount", Num(0.0));
        if IsNumber(amount) {
          values := values + [amount];
        }
      } else if field == "vendor_name" {
        values := values + [GetOr(data, "vendor_name", Str("Unknown"))];
      }
      i := i + 1;
    }
    assert docs[..|docs|] == docs;
  }

  /** The counting loop over `values` that fills a dict of counts: None where a value
      is unhashable and using it as a key raises TypeError. */
  method CountVendors(values: seq<Value>) returns (r: Option<seq<(Value, nat)>>)
    ensures r.Some? <==> forall i :: 0 <= i < |values| ==> Hashable(values[i])
    ensures r.Some? ==> r.value == Counts(GroupAll(Unit(values)))
  {
    var counts: seq<Bucket<()>> := [];
    var k := 0;
    while k < |values|
      invariant 0 <= k <= |values|
      invariant forall m :: 0 <= m < k ==> Hashable(values[m])
      invariant counts == GroupAll(Unit(values[..k]))
    {
      if !Hashable(values[k]) {
        return None;
      }
      CountStep(values, k);
      counts := Insert(counts, values[k], ());
      k := k + 1;
    }
    assert values[..|values|] == values;
    r := Some(Counts(counts));
  }

  /** Counting one more value inserts it into the counts so far. */
  lemma CountStep(values: seq<Value>, k: nat)
    requires k < |values|
    ensures GroupAll(Unit(values[..k + 1])) == Insert(GroupAll(Unit(values[..k])), values[k], ())
  {
    var es := Unit(values[..k + 1]);
    assert es[..k] == Unit(values[..k]);
    assert es[k] == (values[k], ());
  }

  datatype AggValue =
    | Number(n: real)
    | Count(c: nat)
    | VendorCounts(counts: seq<(Value, nat)>)
    | Items(values: seq<Value>)

  datatype AggResult =
    | AggFailure(error: string)
    | AggSuccess(field: string, operation: string, result: AggValue, documentCount: nat)

  /** The `values` the loop of `aggregate_data` collects: numeric totals (a missing one
      reads as 0), every vendor name (a missing one reads as 'Unknown'), or nothing. */
  function Collected(docs: seq<Document>, field: string): seq<Value>
    decreases |docs|
  {
    if docs == [] then []
    else
      var data := docs[|docs| - 1].structuredData;
      Collected(docs[..|docs| - 1], field) +
        (if field == "total_amount" then
           (var amount := GetOr(data, "total_amount", Num(0.0)); if IsNumber(amount) then [amount] else [])
         else if field == "vendor_name" then [GetOr(data, "vendor_name", Str("Unknown"))]
         else [])
  }

  /** Python `sum` over ints, floats and bools. */
  function NumberSum(vs: seq<Value>): real
    decreases |vs|
  {
    if vs == [] then 0.0
    else NumberSum(vs[..|vs| - 1]) + (if IsNumber(vs[|vs| - 1]) then NumberOf(vs[|vs| - 1]) else 0.0)
  }

  /** Each value paired with nothing, to be counted by key. */
  function Unit(vs: seq<Value>): (es: seq<(Value, ())>)
    ensures |es| == |vs| && forall i :: 0 <= i < |vs| ==> es[i] == (vs[i], ())
  {
    seq(|vs|, i requires 0 <= i < |vs| => (vs[i], ()))
  }

  function AggregateSpec(docs: seq<Document>, field: string, operation: string): (r: AggResult)
    ensures r.AggFailure? ==> docs == [] || field == "vendor_name"
    ensures r.AggSuccess? ==> r.field == field && r.operation == operation && r.documentCount == |docs| > 0
  {
    if docs == [] then AggFailure("No documents in session")
    else
      var values := Collected(docs, field);
      if operation == "sum" && field == "total_amount" then
        AggSuccess(field, operation, Number(NumberSum(values)), |docs|)
      else if operation == "avg" && field == "total_amount" then
        AggSuccess(field, operation, Number(if values != [] then NumberSum(values) / |values| as real else 0.0), |docs|)
      else if operation == "count" then
        AggSuccess(field, operation, Count(|values|), |docs|)
      else if field == "vendor_name" then
        if forall i :: 0 <= i < |values| ==> Hashable(values[i]) then
          AggSuccess(field, operation, VendorCounts(Counts(GroupAll(Unit(values)))), |docs|)
        else AggFailure("Aggregation failed")
      else AggSuccess(field, operation, Items(values), |docs|)
  }

  lemma PutKeepsDistinct(es: seq<(string, Document)>, k: string, v: Document)
    requires DistinctIds(es)
    ensures DistinctIds(Put(es, k, v))
  {
  }

  /** Storing under an id already present replaces that record where it stands; the
      length, the order and every other record are unchanged. */
  lemma PutExisting(es: seq<(string, Document)>, k: string, v: Document)
    requires Lookup(es, k).Some?
    ensures |Put(es, k, v)| == |es|
    ensures forall i :: 0 <= i < |es| && es[i].0 != k ==> Put(es, k, v)[i] == es[i]
  {
  }

  /** Storing under a new id appends the record after all existing ones. */
  lemma PutNew(es: seq<(string, Document)>, k: string, v: Document)
    requires Lookup(es, k).None?
    ensures Put(es, k, v) == es + [(k, v)]
  {
  }

  /** `documents[k] = v` followed by `documents.get(k')`. */
  lemma LookupPut(es: seq<(string, Document)>, k: string, v: Document, k': string)
    requires DistinctIds(es)
    ensures Lookup(Put(es, k, v), k') == if k' == k then Some(v) else Lookup(es, k')
  {
    var es' := Put(es, k, v);
    PutKeepsDistinct(es, k, v);
    var j := IndexOf(es', k');
    if k' == k {
      if IndexOf(es, k) < |es| {
        assert es'[IndexOf(es, k)].0 == k;
      } else {
        assert es'[|es|].0 == k;
      }
    } else if IndexOf(es, k') < |es| {
      assert es'[IndexOf(es, k')].0 == k';
    } else {
      assert forall i :: 0 <= i < |es'| ==> es'[i].0 != k';
    }
  }

  /** Uploading the same file name to the same session twice leaves one record, the
      later one: the id depends only on the two names. */
  lemma ReuploadReplaces(es: seq<(string, Document)>, digest: string -> string,
                         sessionId: string, filename: string, d1: Document, d2: Document)
    requires DistinctIds(es)
    ensures
      var id := digest(KeyText(sessionId, filename));
      Lookup(Put(Put(es, id, d1), id, d2), id) == Some(d2)
      && |Put(Put(es, id, d1), id, d2)| == |Put(es, id, d1)|
  {
    var id := digest(KeyText(sessionId, filename));
    PutKeepsDistinct(es, id, d1);
    LookupPut(es, id, d1, id);
    LookupPut(Put(es, id, d1), id, d2, id);
    PutExisting(Put(es, id, d1), id, d2);
  }

  /** The key text joins the two names with '_' without escaping, so distinct
      (session, file) pairs can share one document id. */
  lemma KeyTextCollides()
    ensures KeyText("a_b", "c") == KeyText("a", "b_c")
  {
  }

  /** A session's documents are the stored records of that session, in store order. */
  lemma {:induction false} SessionDocsSpec(es: seq<(string, Document)>, sessionId: string)
    ensures forall d :: d in SessionDocs(es, sessionId) <==>
                        d.sessionId == sessionId && exists i :: 0 <= i < |es| && es[i].1 == d
    ensures IsSubsequence(SessionDocs(es, sessionId), Records(es))
    decreases |es|
  {
    if es != [] {
      var front := es[..|es| - 1];
      SessionDocsSpec(front, sessionId);
      var d := es[|es| - 1].1;
      assert Records(es) == Records(front) + [d];
      SubsequenceExtend(SessionDocs(front, sessionId), Records(front), d, d.sessionId == sessionId);
      assert SessionDocs(es, sessionId) ==
        if d.sessionId == sessionId then SessionDocs(front, sessionId) + [d] else SessionDocs(front, sessionId);
      forall x: Document | x.sessionId == sessionId && exists i :: 0 <= i < |es| && es[i].1 == x
        ensures x in SessionDocs(es, sessionId)
      {
        var i :| 0 <= i < |es| && es[i].1 == x;
        if i < |es| - 1 {
          assert front[i].1 == x;
        }
      }
      forall x: Document | x in SessionDocs(es, sessionId)
        ensures exists i :: 0 <= i < |es| && es[i].1 == x
      {
        if x in SessionDocs(front, sessionId) {
          var i :| 0 <= i < |front| && front[i].1 == x;
          assert es[i].1 == x;
        } else {
          assert es[|es| - 1].1 == x;
        }
      }
    }
  }

  /** One value per document for the vendor field; none for a field other than the two
      the loop knows. */
  lemma {:induction false} CollectedLength(docs: seq<Document>, field: string)
    ensures field == "vendor_name" ==> |Collected(docs, field)| == |docs|
    ensures field != "vendor_name" && field != "total_amount" ==> Collected(docs, field) == []
    ensures field == "total_amount" ==> forall i :: 0 <= i < |Collected(docs, field)| ==> IsNumber(Collected(docs, field)[i])
    decreases |docs|
  {
    if docs != [] {
      CollectedLength(docs[..|docs| - 1], field);
    }
  }

  /** Grouping by vendor counts every session document exactly once. */
  lemma VendorCountsCoverSession(docs: seq<Document>, operation: string)
    requires AggregateSpec(docs, "vendor_name", operation).AggSuccess?
    requires AggregateSpec(docs, "vendor_name", operation).result.VendorCounts?
    ensures CountTotal(AggregateSpec(docs, "vendor_name", operation).result.counts) == |docs|
  {
    var values := Collected(docs, "vendor_name");
    assert AggregateSpec(docs, "vendor_name", operation).result.counts == Counts(GroupAll(Unit(values)));
    CollectedLength(docs, "vendor_name");
    GroupAllSpec(Unit(values));
    CountTotalIsSize(GroupAll(Unit(values)));
  }

  /** Each vendor entry is the number of session documents whose vendor equals it as a
      dict key, and no two entries have equal keys. */
  lemma VendorCountsMeaning(docs: seq<Document>, operation: string)
    requires AggregateSpec(docs, "vendor_name", operation).AggSuccess?
    requires AggregateSpec(docs, "vendor_name", operation).result.VendorCounts?
    ensures var cs := AggregateSpec(docs, "vendor_name", operation).result.counts;
      && (forall j :: 0 <= j < |cs| ==> cs[j].1 == |ItemsFor(Unit(Collected(docs, "vendor_name")), cs[j].0)| > 0)
      && (forall i, j :: 0 <= i < j < |cs| ==> !KeyEq(cs[i].0, cs[j].0))
  {
    GroupAllSpec(Unit(Collected(docs, "vendor_name")));
  }

  /** `count` counts the collected values: every document for the vendor field, none
      for an unknown field. */
  lemma CountOperation(docs: seq<Document>, field: string)
    requires docs != []
    ensures field == "vendor_name" ==> AggregateSpec(docs, field, "count") == AggSuccess(field, "count", Count(|docs|), |docs|)
    ensures field != "vendor_name" && field != "total_amount" ==> AggregateSpec(docs, field, "count") == AggSuccess(field, "count", Count(0), |docs|)
  {
    CollectedLength(docs, field);
  }

  /** The average times the number of numeric totals is their sum. */
  lemma AverageTimesCount(docs: seq<Document>)
    requires docs != []
    ensures var avg := AggregateSpec(docs, "total_amount", "avg").result.n;
            var n := AggregateSpec(docs, "total_amount", "count").result.c;
            avg * n as real == AggregateSpec(docs, "total_amount", "sum").result.n
  {
    var values := Collected(docs, "total_amount");
    if values == [] {
      assert NumberSum(values) == 0.0;
    }
  }

  /** The only failures are the empty session and an unhashable vendor value. */
  lemma AggregateFailures(docs: seq<Document>, field: string, operation: string)
    ensures AggregateSpec(docs, field, operation).AggFailure? <==>
      docs == [] ||
      (field == "vendor_name" && operation != "count" &&
       exists i :: 0 <= i < |Collected(docs, field)| && !Hashable(Collected(docs, field)[i]))
  {
    assert "vendor_name" != "total_amount" by {
      assert "vendor_name"[0] != "total_amount"[0];
    }
    if docs != [] && field == "vendor_name" && operation != "count" {
      var values := Collected(docs, field);
      if forall i :: 0 <= i < |values| ==> Hashable(values[i]) {
        assert AggregateSpec(docs, field, operation).AggSuccess?;
      } else {
        var i :| 0 <= i < |values| && !Hashable(values[i]);
        assert AggregateSpec(docs, field, operation).AggFailure?;
        assert !Hashable(Collected(docs, field)[i]);
      }
    }
  }

  /** The vendor field collects each document's vendor name, or 'Unknown'. */
  lemma {:induction false} CollectedVendors(docs: seq<Document>)
    ensures |Collected(docs, "vendor_name")| == |docs|
    ensures forall i :: 0 <= i < |docs| ==>
      Collected(docs, "vendor_name")[i] == GetOr(docs[i].structuredData, "vendor_name", Str("Unknown"))
    decreases |docs|
  {
    if docs != [] {
      CollectedVendors(docs[..|docs| - 1]);
    }
  }
}
