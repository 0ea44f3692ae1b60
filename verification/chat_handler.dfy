/**
 * `ChatHandler`: answers chat messages about the invoices of one session.
 *
 * The session's documents come from the document store. The conversational model
 * behind `chat_with_streaming` is the parameter `invoke`, from full prompt to reply
 * (None where the call raised). `str()` of a number or container is `repr`, and the
 * `:,.2f` money format is `money`.
 */
module ChatHandler {
  import opened Json
  import opened Text
  import opened Collections
  import opened OpenSearchClient

  const NO_DOCUMENTS: string :=
    "I don't have any documents uploaded yet. Please upload some invoices first and I'll be happy to help analyze them!"
  const UNDETERMINED: string :=
    "I couldn't determine which vendor charged the most from the available data."
  const PROMPT_HEAD: string :=
    "You are a helpful assistant analyzing invoices. Based on the invoice data below, answer the user's question naturally and conversationally. Be brief and direct - no numbered lists or formal structure. Just answer like you're having a conversation.\n\n"
  const PROMPT_TAIL: string :=
    "\n\nProvide a natural, conversational response. If asked about \"who charged the most\" or similar, just say the vendor name and amount directly."

  datatype ChatReply =
    | ChatReply(success: bool, response: string, sources: Option<seq<string>>, sessionId: string)
    | ChatFailure(error: string, sessionId: string)

  /* ---------------------------------------------------------------- context */

  /** One line item, numbered by its position in the list; quantity, rate and amount
      appear only when truthy. */
  function LineDetail(n: nat, item: Record, repr: Value -> string): string
  {
    var qty := GetOr(item, "quantity", Str(""));
    var rate := GetOr(item, "rate", Str(""));
    var amount := GetOr(item, "amount", Str(""));
    "\n  " + NatToString(n) + ". " + PyStr(GetOr(item, "description", Str("Unknown")), repr)
      + (if Truthy(qty) then " - Quantity: " + PyStr(qty, repr) else "")
      + (if Truthy(rate) then " - Rate: $" + PyStr(rate, repr) else "")
      + (if Truthy(amount) then " - Amount: $" + PyStr(amount, repr) else "")
  }

  /** The line details of a list of items; entries that are not dicts are skipped but
      still advance the numbering. */
  function ItemDetails(items: seq<Value>, repr: Value -> string): string
    decreases |items|
  {
    if items == [] then ""
    else
      var last := items[|items| - 1];
      ItemDetails(items[..|items| - 1], repr) + (if last.Obj? then LineDetail(|items|, last.fields, repr) else "")
  }

  /** The first line of a document's entry: file name, vendor and amount, and the invoice
      number and date when truthy. */
  function Header(d: Document, repr: Value -> string): string
  {
    var data := d.structuredData;
    var inv := GetOr(data, "invoice_number", Str(""));
    var date := GetOr(data, "date", Str(""));
    "Document: " + d.filename
      + " - Vendor: " + PyStr(GetOr(data, "vendor_name", Str("Unknown vendor")), repr)
      + ", Amount: $" + PyStr(GetOr(data, "total_amount", Str("Unknown amount")), repr)
      + (if Truthy(inv) then ", Invoice: " + PyStr(inv, repr) else "")
      + (if Truthy(date) then ", Date: " + PyStr(date, repr) else "")
  }

  /** The `line_items` of a record when they are rendered: a non-empty list. */
  function RenderedItems(data: Record): Option<seq<Value>>
  {
    var li := GetOr(data, "line_items", List([]));
    if li.List? && li.items != [] then Some(li.items) else None
  }

  function DocInfo(d: Document, repr: Value -> string): string
  {
    match RenderedItems(d.structuredData)
    case None => Header(d, repr)
    case Some(items) =>
      Header(d, repr) + "\nLine Items (" + NatToString(|items|) + " items):" + ItemDetails(items, repr)
  }

  /** One entry per document whose structured data is a non-empty dict, in order. */
  function ContextParts(docs: seq<Document>, repr: Value -> string): seq<string>
    decreases |docs|
  {
    if docs == [] then []
    else
      var d := docs[|docs| - 1];
      ContextParts(docs[..|docs| - 1], repr) + (if d.structuredData != map[] then [DocInfo(d, repr)] else [])
  }

  function Context(docs: seq<Document>, repr: Value -> string): string
  {
    "Invoice data:\n" + JoinWith(ContextParts(docs, repr), '\n')
  }

  function ConversationPrompt(context: string, message: string): string
  {
    PROMPT_HEAD + context + "\n\nUser question: " + message + PROMPT_TAIL
  }

  /** `chat_with_streaming(prompt)` with no extra context: the reply stripped, or None. */
  function ChatWithStreaming(prompt: string, invoke: string -> Option<string>): (r: Option<string>)
    ensures r.Some? <==> invoke("\n\nUser: " + prompt + "\n\nAssistant:").Some?
    ensures r.Some? ==> |r.value| <= |invoke("\n\nUser: " + prompt + "\n\nAssistant:").value|
    ensures r.Some? && r.value != [] ==> !IsSpace(r.value[0]) && !IsSpace(r.value[|r.value| - 1])
  {
    match invoke("\n\nUser: " + prompt + "\n\nAssistant:")
    case Some(text) => Some(Strip(text))
    case None => None
  }

  /** The inner loop of the context building. */
  method RenderLineItems(items: seq<Value>, repr: Value -> string) returns (s: string)
    ensures s == ItemDetails(items, repr)
  {
    s := "";
    var i := 0;
    while i < |items|
      invariant 0 <= i <= |items|
      invariant s == ItemDetails(items[..i], repr)
    {
      assert items[..i + 1][..i] == items[..i];
      if items[i].Obj? {
        s := s + LineDetail(i + 1, items[i].fields, repr);
      }
      i := i + 1;
    }
    assert items[..|items|] == items;
  }

  method RenderDocInfo(d: Document, repr: Value -> string) returns (s: string)
    ensures s == DocInfo(d, repr)
  {
    s := Header(d, repr);
    var li := GetOr(d.structuredData, "line_items", List([]));
    if li.List? && li.items != [] {
      var details := RenderLineItems(li.items, repr);
      s := s + "\nLine Items (" + NatToString(|li.items|) + " items):" + details;
    }
  }

  /** The outer loop of the context building. */
  method BuildContext(docs: seq<Document>, repr: Value -> string) returns (context: string)
    ensures context == Context(docs, repr)
  {
    var parts: seq<string> := [];
    var i := 0;
    while i < |docs|
      invariant 0 <= i <= |docs|
      invariant parts == ContextParts(docs[..i], repr)
    {
      assert docs[..i + 1][..i] == docs[..i];
      if docs[i].structuredData != map[] {
        var info := RenderDocInfo(docs[i], repr);
        parts := parts + [info];
      }
      i := i + 1;
    }
    assert docs[..|docs|] == docs;
    context := "Invoice data:\n" + JoinWith(parts, '\n');
  }

  /* ------------------------------------------------------ highest vendor */

  function AmountOf(d: Document): Value
  {
    GetOr(d.structuredData, "total_amount", Num(0.0))
  }

  function VendorOf(d: Document): Value
  {
    GetOr(d.structuredData, "vendor_name", Str("Unknown"))
  }

  /** The amount `d` contributes to the scan, when it is an int, float or bool. */
  predicate Beats(d: Document, h: real)
  {
    IsNumber(AmountOf(d)) && NumberOf(AmountOf(d)) > h
  }

  /** `(highest_amount, highest_vendor)` after the scan: a strictly greater numeric total
      replaces the current best, so the first of equal totals wins. */
  function Scan(docs: seq<Document>): (best: (real, Value))
    ensures best.0 >= 0.0
    ensures best.0 == 0.0 ==> best.1 == Str("Unknown")
    decreases |docs|
  {
    if docs == [] then (0.0, Str("Unknown"))
    else
      var best := Scan(docs[..|docs| - 1]);
      var d := docs[|docs| - 1];
      if Beats(d, best.0) then (NumberOf(AmountOf(d)), VendorOf(d)) else best
  }

  method HighestVendor(docs: seq<Document>) returns (highest: real, vendor: Value)
    ensures (highest, vendor) == Scan(docs)
  {
    highest, vendor := 0.0, Str("Unknown");
    var i := 0;
    while i < |docs|
      invariant 0 <= i <= |docs|
      invariant (highest, vendor) == Scan(docs[..i])
    {
      assert docs[..i + 1][..i] == docs[..i];
      var amount := AmountOf(docs[i]);
      if IsNumber(amount) && NumberOf(amount) > highest {
        highest := NumberOf(amount);
        vendor := VendorOf(docs[i]);
      }
      i := i + 1;
    }
    assert docs[..|docs|] == docs;
  }

  predicate AsksHighest(message: string)
  {
    var m := Lower(message);
    Contains(m, "vendor") && (Contains(m, "most") || Contains(m, "highest") || Contains(m, "charged"))
  }

  function HighestAnswer(best: (real, Value), repr: Value -> string, money: real -> string): string
  {
    if best.0 > 0.0 then PyStr(best.1, repr) + " charged the most at $" + money(best.0) + "."
    else UNDETERMINED
  }

  function GenericAnswer(d: Document, repr: Value -> string): string
  {
    "I found an invoice from " + PyStr(GetOr(d.structuredData, "vendor_name", Str("Unknown vendor")), repr)
      + " for $" + PyStr(GetOr(d.structuredData, "total_amount", Str("Unknown amount")), repr) + "."
  }

  /** `[{'filename': doc['filename']} for doc in session_documents]`. */
  function Filenames(docs: seq<Document>): (fs: seq<string>)
    ensures |fs| == |docs| && forall i :: 0 <= i < |docs| ==> fs[i] == docs[i].filename
  {
    seq(|docs|, i requires 0 <= i < |docs| => docs[i].filename)
  }

  /** What `handle_chat` returns for the given session documents. */
  function ChatSpec(docs: seq<Document>, message: string, sessionId: string,
                    invoke: string -> Option<string>, repr: Value -> string, money: real -> string): (r: ChatReply)
    ensures r.ChatReply? && r.success && r.sessionId == sessionId
    ensures r.sources == if docs == [] then None else Some(Filenames(docs))
  {
    if docs == [] then ChatReply(true, NO_DOCUMENTS, None, sessionId)
    else
      match ChatWithStreaming(ConversationPrompt(Context(docs, repr), message), invoke)
      case Some(text) => ChatReply(true, text, Some(Filenames(docs)), sessionId)
      case None =>
        if AsksHighest(message) then ChatReply(true, HighestAnswer(Scan(docs), repr, money), Some(Filenames(docs)), sessionId)
        else ChatReply(true, GenericAnswer(docs[0], repr), Some(Filenames(docs)), sessionId)
  }

  /** `handle_chat(message, session_id)`. */
  method HandleChat(store: DocumentStore, message: string, sessionId: string,
                    invoke: string -> Option<string>, repr: Value -> string, money: real -> string)
    returns (r: ChatReply)
    ensures r == ChatSpec(SessionDocs(store.entries, sessionId), message, sessionId, invoke, repr, money)
  {
    var docs := store.GetSessionDocuments(sessionId);
    if docs == [] {
      return ChatReply(true, NO_DOCUMENTS, None, sessionId);
    }
    var context := BuildContext(docs, repr);
    var reply := ChatWithStreaming(ConversationPrompt(context, message), invoke);
    if reply.Some? {
      return ChatReply(true, reply.value, Some(Filenames(docs)), sessionId);
    }
    if AsksHighest(message) {
      var highest, vendor := HighestVendor(docs);
      return ChatReply(true, HighestAnswer((highest, vendor), repr, money), Some(Filenames(docs)), sessionId);
    }
    r := ChatReply(true, GenericAnswer(docs[0], repr), Some(Filenames(docs)), sessionId);
  }

  /* --------------------------------------------------- aggregation routing */

  datatype Route = SumRoute | VendorCountRoute | ChatRoute

  /** The keyword branching of `handle_aggregation_query`. */
  function RouteOf(message: string): (r: Route)
    ensures r == SumRoute ==> Contains(Lower(message), "total")
    ensures r == VendorCountRoute ==> Contains(Lower(message), "vendor")
  {
    var m := Lower(message);
    if Contains(m, "total") && (Contains(m, "amount") || Contains(m, "cost") || Contains(m, "spent")) then SumRoute
    else if Contains(m, "vendor") && (Contains(m, "count") || Contains(m, "how many")) then VendorCountRoute
    else ChatRoute
  }

  /** `', '.join(names)`: None when a name is not a string (join raises TypeError). */
  function JoinNames(names: seq<Value>): Option<string>
  {
    if names == [] then Some("")
    else if !names[0].Str? then None
    else if |names| == 1 then Some(names[0].s)
    else
      match JoinNames(names[1..])
      case None => None
      case Some(rest) => Some(names[0].s + ", " + rest)
  }

  /** `counts.keys()`, in insertion order. */
  function CountKeys(cs: seq<(Value, nat)>): (ks: seq<Value>)
    ensures |ks| == |cs| && forall i :: 0 <= i < |cs| ==> ks[i] == cs[i].0
  {
    seq(|cs|, i requires 0 <= i < |cs| => cs[i].0)
  }

  /** The vendor-list reply built from an aggregate result: `.keys()` raises unless the
      result is a dict. */
  function VendorListReply(a: AggValue, sessionId: string): ChatReply
  {
    if !a.VendorCounts? then ChatFailure("Aggregation query failed", sessionId)
    else
      match JoinNames(CountKeys(a.counts))
      case None => ChatFailure("Aggregation query failed", sessionId)
      case Some(list) =>
        ChatReply(true, "I found " + NatToString(|a.counts|) + " unique vendors: " + list, None, sessionId)
  }

  /** The pieces of the total-amount reply. */
  const SUM_LEAD := "The total amount across all invoices is $"
  const SUM_FROM := " from "
  const SUM_TAIL := " document(s)."

  function SumReply(a: AggResult, sessionId: string, money: real -> string): ChatReply
    requires a.AggSuccess? && a.result.Number?
  {
    ChatReply(true, SUM_LEAD + money(a.result.n) + SUM_FROM + NatToString(a.documentCount) + SUM_TAIL, None, sessionId)
  }

  /** What `handle_aggregation_query` returns, as written: the vendor branch asks for the
      operation `count`. */
  function AggregationSpec(docs: seq<Document>, message: string, sessionId: string,
                           invoke: string -> Option<string>, repr: Value -> string, money: real -> string): (r: ChatReply)
    ensures r.sessionId == sessionId
    ensures r.ChatFailure? ==> RouteOf(message) == VendorCountRoute && docs != []
    ensures r.ChatReply? ==> r.success
  {
    match RouteOf(message)
    case SumRoute =>
      var a := AggregateSpec(docs, "total_amount", "sum");
      if a.AggSuccess? then SumReply(a, sessionId, money) else ChatSpec(docs, message, sessionId, invoke, repr, money)
    case VendorCountRoute =>
      var a := AggregateSpec(docs, "vendor_name", "count");
      if a.AggSuccess? then VendorListReply(a.result, sessionId) else ChatSpec(docs, message, sessionId, invoke, repr, money)
    case ChatRoute => ChatSpec(docs, message, sessionId, invoke, repr, money)
  }

  /** `handle_aggregation_query(message, session_id)`. */
  method HandleAggregationQuery(store: DocumentStore, message: string, sessionId: string,
                                invoke: string -> Option<string>, repr: Value -> string, money: real -> string)
    returns (r: ChatReply)
    ensures r == AggregationSpec(SessionDocs(store.entries, sessionId), message, sessionId, invoke, repr, money)
  {
    var route := RouteOf(message);
    if route == SumRoute {
      var a := store.AggregateData(sessionId, "total_amount", "sum");
      if a.AggSuccess? {
        return SumReply(a, sessionId, money);
      }
    } else if route == VendorCountRoute {
      var a := store.AggregateData(sessionId, "vendor_name", "count");
      if a.AggSuccess? {
        return VendorListReply(a.result, sessionId);
      }
    }
    r := HandleChat(store, message, sessionId, invoke, repr, money);
  }

  /** The documents that get a context entry. */
  function WithData(docs: seq<Document>): seq<Document>
    decreases |docs|
  {
    if docs == [] then []
    else
      var d := docs[|docs| - 1];
      WithData(docs[..|docs| - 1]) + (if d.structuredData != map[] then [d] else [])
  }

  /** The context holds one entry per document with non-empty structured data, in
      session order. */
  lemma {:induction false} ContextPartsSpec(docs: seq<Document>, repr: Value -> string)
    ensures |ContextParts(docs, repr)| == |WithData(docs)|
    ensures forall k :: 0 <= k < |WithData(docs)| ==> ContextParts(docs, repr)[k] == DocInfo(WithData(docs)[k], repr)
    decreases |docs|
  {
    if docs != [] {
      var front := docs[..|docs| - 1];
      var d := docs[|docs| - 1];
      ContextPartsSpec(front, repr);
      if d.structuredData != map[] {
        assert ContextParts(docs, repr) == ContextParts(front, repr) + [DocInfo(d, repr)];
        assert WithData(docs) == WithData(front) + [d];
      } else {
        assert ContextParts(docs, repr) == ContextParts(front, repr);
        assert WithData(docs) == WithData(front);
      }
    }
  }

  /** The documents with an entry are exactly those with non-empty structured data,
      kept in session order. */
  lemma {:induction false} WithDataSpec(docs: seq<Document>)
    ensures IsSubsequence(WithData(docs), docs)
    ensures forall d :: d in WithData(docs) <==> d in docs && d.structuredData != map[]
    decreases |docs|
  {
    if docs != [] {
      var front := docs[..|docs| - 1];
      var d := docs[|docs| - 1];
      WithDataSpec(front);
      assert docs == front + [d];
      SubsequenceExtend(WithData(front), front, d, d.structuredData != map[]);
      assert WithData(docs) == if d.structuredData != map[] then WithData(front) + [d] else WithData(front);
    }
  }

  /** Every entry opens with the file name and the vendor label; without a non-empty
      list of line items it is the header alone. */
  lemma DocInfoShape(d: Document, repr: Value -> string)
    ensures IsPrefix("Document: " + d.filename + " - Vendor: ", DocInfo(d, repr))
    ensures RenderedItems(d.structuredData).None? ==> DocInfo(d, repr) == Header(d, repr)
  {
    var p := "Document: " + d.filename + " - Vendor: ";
    assert Header(d, repr)[..|p|] == p;
    assert DocInfo(d, repr)[..|p|] == Header(d, repr)[..|p|];
  }

  /** The first document whose numeric total is the greatest, and its vendor. */
  predicate FirstBest(docs: seq<Document>, i: int, best: (real, Value))
  {
    && 0 <= i < |docs|
    && IsNumber(AmountOf(docs[i])) && NumberOf(AmountOf(docs[i])) == best.0
    && VendorOf(docs[i]) == best.1
    && forall j :: 0 <= j < i ==> !IsNumber(AmountOf(docs[j])) || NumberOf(AmountOf(docs[j])) < best.0
  }

  /** The scan finds the greatest numeric total when one is positive, together with the
      vendor of the first document carrying it; otherwise it keeps 0 and 'Unknown'. */
  lemma {:induction false} ScanSpec(docs: seq<Document>)
    ensures Scan(docs).0 >= 0.0
    ensures forall i :: 0 <= i < |docs| ==> !Beats(docs[i], Scan(docs).0)
    ensures Scan(docs).0 > 0.0 ==> exists i :: FirstBest(docs, i, Scan(docs))
    ensures Scan(docs).0 == 0.0 ==> Scan(docs).1 == Str("Unknown")
    decreases |docs|
  {
    if docs != [] {
      var front := docs[..|docs| - 1];
      var d := docs[|docs| - 1];
      ScanSpec(front);
      var best := Scan(front);
      if Beats(d, best.0) {
        assert FirstBest(docs, |docs| - 1, Scan(docs)) by {
          forall j | 0 <= j < |docs| - 1
            ensures !IsNumber(AmountOf(docs[j])) || NumberOf(AmountOf(docs[j])) < Scan(docs).0
          {
            assert docs[j] == front[j];
          }
        }
      } else {
        assert forall j :: 0 <= j < |front| ==> docs[j] == front[j];
        if best.0 > 0.0 {
          var i :| FirstBest(front, i, best);
          assert FirstBest(docs, i, Scan(docs));
        }
      }
    }
  }

  /** On a failed model call a "charged the most" question is answered from the scan. */
  lemma HighestFallback(docs: seq<Document>, message: string, sessionId: string,
                        invoke: string -> Option<string>, repr: Value -> string, money: real -> string)
    requires docs != [] && AsksHighest(message)
    requires ChatWithStreaming(ConversationPrompt(Context(docs, repr), message), invoke).None?
    ensures ChatSpec(docs, message, sessionId, invoke, repr, money) ==
      ChatReply(true, HighestAnswer(Scan(docs), repr, money), Some(Filenames(docs)), sessionId)
  {
  }

  /** The scan answers "couldn't determine" exactly when no numeric total is positive. */
  lemma UndeterminedIffNoPositive(docs: seq<Document>, repr: Value -> string, money: real -> string)
    ensures (HighestAnswer(Scan(docs), repr, money) == UNDETERMINED) <== (forall i :: 0 <= i < |docs| ==> !Beats(docs[i], 0.0))
    ensures Scan(docs).0 == 0.0 <==> (forall i :: 0 <= i < |docs| ==> !Beats(docs[i], 0.0))
  {
    ScanSpec(docs);
    if Scan(docs).0 > 0.0 {
      var i :| FirstBest(docs, i, Scan(docs));
      assert Beats(docs[i], 0.0);
    }
  }

  /** A session with no documents gets the fixed reply, whatever the model would say. */
  lemma EmptySessionSkipsModel(message: string, sessionId: string, invoke1: string -> Option<string>,
                               invoke2: string -> Option<string>, repr: Value -> string, money: real -> string)
    ensures ChatSpec([], message, sessionId, invoke1, repr, money) == ChatSpec([], message, sessionId, invoke2, repr, money)
    ensures ChatSpec([], message, sessionId, invoke1, repr, money).response == NO_DOCUMENTS
  {
  }

  /** A model answer is passed on stripped, with every session document as a source,
      including those left out of the context. */
  lemma ModelAnswerPassedOn(docs: seq<Document>, message: string, sessionId: string,
                            invoke: string -> Option<string>, repr: Value -> string, money: real -> string)
    requires docs != []
    requires invoke("\n\nUser: " + ConversationPrompt(Context(docs, repr), message) + "\n\nAssistant:").Some?
    ensures var r := ChatSpec(docs, message, sessionId, invoke, repr, money);
      r.ChatReply? && r.success
      && r.response == Strip(invoke("\n\nUser: " + ConversationPrompt(Context(docs, repr), message) + "\n\nAssistant:").value)
      && r.sources == Some(Filenames(docs)) && |r.sources.value| == |docs|
  {
  }

  /** `handle_chat` reports success on every path. */
  lemma ChatAlwaysSucceeds(docs: seq<Document>, message: string, sessionId: string,
                           invoke: string -> Option<string>, repr: Value -> string, money: real -> string)
    ensures ChatSpec(docs, message, sessionId, invoke, repr, money).ChatReply?
    ensures ChatSpec(docs, message, sessionId, invoke, repr, money).success
    ensures ChatSpec(docs, message, sessionId, invoke, repr, money).sessionId == sessionId
  {
  }

  /** Only the two keyword patterns leave the chat path, and an empty session always
      falls through to it. */
  lemma RoutingSpec(docs: seq<Document>, message: string, sessionId: string,
                    invoke: string -> Option<string>, repr: Value -> string, money: real -> string)
    ensures RouteOf(message) == ChatRoute || docs == [] ==>
      AggregationSpec(docs, message, sessionId, invoke, repr, money) == ChatSpec(docs, message, sessionId, invoke, repr, money)
  {
  }

  /** A total-amount question on a non-empty session is answered with the sum of the
      amounts and the number of documents. */
  lemma SumRouteReply(docs: seq<Document>, message: string, sessionId: string,
                      invoke: string -> Option<string>, repr: Value -> string, money: real -> string)
    requires RouteOf(message) == SumRoute && docs != []
    ensures AggregationSpec(docs, message, sessionId, invoke, repr, money).response ==
      SUM_LEAD + money(NumberSum(Collected(docs, "total_amount"))) + SUM_FROM + NatToString(|docs|) + SUM_TAIL
  {
    SumAggregate(docs);
  }

  lemma SumAggregate(docs: seq<Document>)
    requires docs != []
    ensures AggregateSpec(docs, "total_amount", "sum")
      == AggSuccess("total_amount", "sum", Number(NumberSum(Collected(docs, "total_amount"))), |docs|)
  {
  }

  /** As written, the vendor-count branch always fails on a non-empty session: the
      `count` operation yields a number, which has no `keys()`. */
  lemma VendorCountQueryFails(docs: seq<Document>, message: string, sessionId: string,
                              invoke: string -> Option<string>, repr: Value -> string, money: real -> string)
    requires docs != [] && RouteOf(message) == VendorCountRoute
    ensures AggregationSpec(docs, message, sessionId, invoke, repr, money) == ChatFailure("Aggregation query failed", sessionId)
  {
  }

  /** The vendor-count reply as evidently intended: group the vendor names, as any
      operation other than `count` does for the `vendor_name` field. */
  function IntendedVendorReply(docs: seq<Document>, message: string, sessionId: string,
                               invoke: string -> Option<string>, repr: Value -> string, money: real -> string): ChatReply
  {
    var a := AggregateSpec(docs, "vendor_name", "group");
    if a.AggSuccess? then VendorListReply(a.result, sessionId) else ChatSpec(docs, message, sessionId, invoke, repr, money)
  }

  lemma {:induction false} JoinNamesStrings(names: seq<Value>)
    requires forall i :: 0 <= i < |names| ==> names[i].Str?
    ensures JoinNames(names).Some?
    decreases |names|
  {
    if |names| > 1 {
      JoinNamesStrings(names[1..]);
    }
  }

  /** With string vendor names, every key of the grouped counts is a string. */
  lemma GroupedVendorsAreStrings(docs: seq<Document>)
    requires forall i :: 0 <= i < |docs| ==> VendorOf(docs[i]).Str?
    ensures forall i :: 0 <= i < |Collected(docs, "vendor_name")| ==> Hashable(Collected(docs, "vendor_name")[i])
    ensures forall j :: 0 <= j < |GroupAll(Unit(Collected(docs, "vendor_name")))| ==>
      GroupAll(Unit(Collected(docs, "vendor_name")))[j].key.Str?
  {
    var values := Collected(docs, "vendor_name");
    CollectedVendors(docs);
    assert forall i :: 0 <= i < |values| ==> values[i].Str?;
    forall j | 0 <= j < |GroupAll(Unit(values))|
      ensures GroupAll(Unit(values))[j].key.Str?
    {
      GroupKeyIsString(values, j);
    }
  }

  /** A group formed from string values has a string key. */
  lemma GroupKeyIsString(values: seq<Value>, j: nat)
    requires forall i :: 0 <= i < |values| ==> values[i].Str?
    requires j < |GroupAll(Unit(values))|
    ensures GroupAll(Unit(values))[j].key.Str?
  {
    var es := Unit(values);
    var gs := GroupAll(es);
    GroupAllSpec(es);
    assert gs[j].items == ItemsFor(es, gs[j].key);
    ItemsForNonEmpty(es, gs[j].key);
    var i :| 0 <= i < |es| && KeyEq(es[i].0, gs[j].key);
    assert es[i].0 == values[i];
  }

  /** With string vendor names, the intended reply succeeds and reports one entry per
      distinct name, the entries together counting every session document. */
  lemma IntendedVendorCount(docs: seq<Document>, message: string, sessionId: string,
                            invoke: string -> Option<string>, repr: Value -> string, money: real -> string)
    requires docs != []
    requires forall i :: 0 <= i < |docs| ==> VendorOf(docs[i]).Str?
    ensures var a := AggregateSpec(docs, "vendor_name", "group");
      && a.AggSuccess? && a.result.VendorCounts?
      && CountTotal(a.result.counts) == |docs|
      && JoinNames(CountKeys(a.result.counts)).Some?
      && IntendedVendorReply(docs, message, sessionId, invoke, repr, money) ==
           ChatReply(true, "I found " + NatToString(|a.result.counts|) + " unique vendors: "
                           + JoinNames(CountKeys(a.result.counts)).value, None, sessionId)
  {
    var values := Collected(docs, "vendor_name");
    GroupedVendorsAreStrings(docs);
    var gs := GroupAll(Unit(values));
    var cs := Counts(gs);
    assert forall i :: 0 <= i < |values| ==> Hashable(values[i]);
    assert AggregateSpec(docs, "vendor_name", "group") == AggSuccess("vendor_name", "group", VendorCounts(cs), |docs|);
    VendorCountsCoverSession(docs, "group");
    assert forall i :: 0 <= i < |cs| ==> CountKeys(cs)[i] == gs[i].key;
    JoinNamesStrings(CountKeys(cs));
  }
}
