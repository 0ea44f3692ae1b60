# AP invoice extractor: a verified model of the invoice pipeline's core

The system takes invoice documents (PDF or plain text), extracts their text, turns
that text into a structured invoice record with a cascade of language-model tiers
and a regular-expression fallback, stores the records per user session, and answers
chat questions and aggregate queries about a session's invoices. It runs both as a
local backend and as one AWS Lambda function over an S3 bucket.

This Dafny project models the bookkeeping and decision logic of that pipeline. Model
calls, S3, the file system, JSON and YAML parsing, md5, uuid, base64, the clock and
the numerical libraries are parameters (oracles), so every statement holds for any
answer they might give.

| module | file | models |
|---|---|---|
| `Json` | json.dfy | loose dict-shaped records: a JSON-like `Value`, Python truthiness, `dict.get`, comprehensions that may raise, `xs[:n]`, the first-`{`-to-last-`}` span cut |
| `Text` | text.dfy | `lower`, `strip`, `split`, `find`/`rfind`, `str(int)` and string order |
| `Collections` | collections.dfy | `sum`, subsequences, and dicts that group values under keys in first-insertion order |
| `Dates` | dates.dfy | `strptime(s, '%Y-%m-%d')` and the printed form of a date |
| `SessionManager` | session_manager.dfy | the in-memory session store (a class over a map) and its expiry sweep |
| `InvoiceTools` | invoice_tools.dfy | filter, aggregate, vendor summary, session summary and lookup over a session's invoices, each loop a method proved against a specification function |
| `InvoiceSearch` | invoice_search.dfy | the ranking, top-`limit` cut and threshold of the similarity search |
| `ClaudeClient` | claude_client.dfy | the extraction cascade, its acceptance gate, the JSON span parser and the regular-expression fallback |
| `OpenSearchClient` | opensearch_client.dfy | the document store (a class over an insertion-ordered map) and `aggregate_data` |
| `ChatHandler` | chat_handler.dfy | chat context rendering, the highest-vendor fallback, and keyword routing of aggregate questions |
| `LambdaFunction` | lambda_function.dfy | request routing, field validation, the S3 key layout, and the bucket as a class whose methods put, update and delete objects |
| `LocalTextExtractor` | local_text_extractor.dfy | suffix dispatch, encoding order, line and word metrics, and the directory scan |
| `Config` | config.dfy | deployment settings: section defaults, environment overrides, stack and bucket names |

Python exceptions that the code lets escape, or catches, on ill-typed fields are
modelled as an explicit `Raised` outcome rather than excluded by preconditions.
Amounts are `real`.

## Model

| member | source | states |
|---|---|---|
| SessionManager.CleanRawText | backend/clients/session_manager.py:86-87 | the cleaned raw text is the first 1000 characters of the input with every newline and carriage return replaced by a space; all other characters are kept |
| SessionManager.SearchTextsPointwise | backend/clients/session_manager.py:60-99 | building the searchable texts raises exactly when one invoice's text raises; otherwise there is one text per invoice, the i-th built from the i-th invoice |
| SessionManager.SearchTexts | backend/clients/session_manager.py:60-99 | the texts of all invoices are built exactly when each invoice's text can be built, and then there is one text per invoice |
| SessionManager.SessionStore.BuildSearchTexts | backend/clients/session_manager.py:60-99 | the text-building loop yields SearchTexts of the invoices: one text per invoice in order, or Raised at the first invoice whose text raises |
| SessionManager.LastPartKeepsTextNonBlank | backend/clients/session_manager.py:94-96 | parts joined with spaces whose last part starts with a non-space never strip to empty, so the joined text is used |
| SessionManager.FallbackTextIsUnknown | backend/clients/session_manager.py:90-99 | the fallback text is only reached when the document name is falsy, so it always reads "Document Unknown invoice data" |
| SessionManager.EmptyInvoiceText | backend/clients/session_manager.py:62-99 | an invoice with no structured data, raw text or document name gets the fallback text |
| SessionManager.SessionStore.constructor | backend/clients/session_manager.py:11-12 | a new manager holds no sessions |
| SessionManager.SessionStore.CreateSession | backend/clients/session_manager.py:18-38 | on success the store gains exactly the new id, mapped to the invoices, their texts and an expiry SESSION_TIMEOUT (7200 s) after now, and the id is returned; when text building raises nothing changes |
| SessionManager.SessionStore.GetSession | backend/clients/session_manager.py:40-47 | a known id returns its session with last_accessed set to now, and only that field of that session changes; an unknown id returns None and changes nothing; expiry is not checked |
| SessionManager.SessionStore.DeleteSession | backend/clients/session_manager.py:49-56 | removes exactly that id and returns whether it was present |
| SessionManager.SessionStore.ExpiredIds | backend/clients/session_manager.py:133-139 | the collected ids are exactly the stored sessions whose expiry lies strictly before now |
| SessionManager.SessionStore.CleanupExpiredSessions | backend/clients/session_manager.py:131-145 | the new session map is the old one with the expired sessions removed (Sweep) |
| SessionManager.SessionStore.GetSessionCount | backend/clients/session_manager.py:147-150 | returns the number of stored sessions |
| SessionManager.SweepRemovesExpired | backend/clients/session_manager.py:137-142 | deleting each collected id one by one removes exactly the expired set |
| SessionManager.SweepKeepsUnexpired | backend/clients/session_manager.py:138 | a session survives the sweep iff its expiry is not before now (a session expiring exactly now survives), and survivors are unchanged |
| SessionManager.Sweep | backend/clients/session_manager.py:131-145 | after the sweep the store holds exactly the sessions that have not expired, each unchanged |
| SessionManager.DeleteTwice | backend/clients/session_manager.py:49-56 | the first delete reports whether the session existed, the second always reports False, and the id is gone |
| SessionManager.ReadAfterExpiry | backend/clients/session_manager.py:40-47 | an expired session is still returned by get_session until a sweep runs; after the sweep it is gone |
| OpenSearchClient.IndexOf | backend/clients/opensearch_client.py:76 | the position of a document id among the stored entries, or their count when the id is absent |
| OpenSearchClient.Records | backend/clients/opensearch_client.py:100 | `documents.values()`: one record per entry, in insertion order |
| OpenSearchClient.DocumentStore.constructor | backend/clients/opensearch_client.py:157-165 | a store with no document file starts empty |
| OpenSearchClient.DocumentStore.UploadAndStoreDocument | backend/clients/opensearch_client.py:34-93 | a failed upload reports failure and stores nothing; a successful one returns the id (digest of "session_filename") and the key "invoices/session_filename", and stores the record under that id, replacing a record with the same id; ids stay distinct |
| OpenSearchClient.DocumentStore.AggregateData | backend/clients/opensearch_client.py:104-153 | the result equals AggregateSpec on the session's documents: failure for an empty session, then sum / avg / count / vendor counts / raw values by operation and field |
| OpenSearchClient.CollectValues | backend/clients/opensearch_client.py:113-123 | the loop collects exactly Collected(docs, field): numeric totals for total_amount, every vendor (default 'Unknown') for vendor_name, nothing otherwise |
| OpenSearchClient.CountVendors | backend/clients/opensearch_client.py:134-137 | the counting loop completes iff every value is hashable, and then yields the per-key counts in first-seen order |
| OpenSearchClient.CountStep | backend/clients/opensearch_client.py:135-136 | counting one more value inserts it into the counts so far |
| OpenSearchClient.Unit | backend/clients/opensearch_client.py:134-136 | each value paired with the unit payload, position by position |
| OpenSearchClient.PutKeepsDistinct | backend/clients/opensearch_client.py:76 | `documents[doc_id] = document` keeps the ids distinct |
| OpenSearchClient.PutExisting | backend/clients/opensearch_client.py:76 | storing under an existing id replaces it in place: same length, every other entry unchanged |
| OpenSearchClient.PutNew | backend/clients/opensearch_client.py:76 | storing under a new id appends the entry at the end |
| OpenSearchClient.LookupPut | backend/clients/opensearch_client.py:76 | a lookup after a store returns the stored record for that id and the old record for any other id |
| OpenSearchClient.ReuploadReplaces | backend/clients/opensearch_client.py:59-77 | uploading the same file name to the same session twice keeps one record, the later one |
| OpenSearchClient.KeyTextCollides | backend/clients/opensearch_client.py:39-59 | ("a_b", "c") and ("a", "b_c") give the same key text, hence the same document id and S3 key |
| OpenSearchClient.SessionDocsSpec | backend/clients/opensearch_client.py:97-102 | a document is returned iff it is stored and belongs to the session; the result keeps store order (a subsequence of the values) |
| OpenSearchClient.SessionDocs | backend/clients/opensearch_client.py:97-102 | the session's documents all carry that session id and are no more than the stored documents |
| OpenSearchClient.DocumentStore.GetSessionDocuments | backend/clients/opensearch_client.py:97-102 | returns stored documents, in storage order, each of which belongs to the asked session |
| OpenSearchClient.AggregateSpec | backend/clients/opensearch_client.py:104-153 | failure only for a session with no documents or for `vendor_name`; success echoes the field and operation and counts the session's documents |
| OpenSearchClient.CollectedLength | backend/clients/opensearch_client.py:113-123 | vendor_name collects one value per document, an unknown field collects nothing, total_amount collects only numbers |
| OpenSearchClient.VendorCountsCoverSession | backend/clients/opensearch_client.py:132-137 | the vendor counts add up to the number of session documents |
| OpenSearchClient.VendorCountsMeaning | backend/clients/opensearch_client.py:132-137 | each count is the positive number of documents whose vendor equals that key, and no two keys are equal |
| OpenSearchClient.CountOperation | backend/clients/opensearch_client.py:130-131 | `count` returns the number of collected values: all documents for vendor_name, 0 for an unknown field |
| OpenSearchClient.AverageTimesCount | backend/clients/opensearch_client.py:126-131 | avg times the count of numeric totals equals their sum |
| OpenSearchClient.AggregateFailures | backend/clients/opensearch_client.py:106-153 | aggregation fails iff the session is empty or a non-count vendor grouping meets an unhashable vendor value |
| OpenSearchClient.CollectedVendors | backend/clients/opensearch_client.py:121-123 | the vendor field collects each document's vendor_name, or 'Unknown', in order |
| ChatHandler.RenderLineItems | backend/clients/chat_handler.py:44-56 | the line-item loop produces ItemDetails: one numbered detail per dict item, with quantity, rate and amount only when truthy, non-dict items skipped |
| ChatHandler.RenderDocInfo | backend/clients/chat_handler.py:29-56 | builds DocInfo: the header with invoice number and date when truthy, then the line items when they form a non-empty list |
| ChatHandler.BuildContext | backend/clients/chat_handler.py:26-60 | the context is "Invoice data:\n" followed by the entries of the documents with structured data, joined by newlines |
| ChatHandler.HighestVendor | backend/clients/chat_handler.py:85-93 | the scan loop computes Scan(docs) (see ScanSpec) |
| ChatHandler.Filenames | backend/clients/chat_handler.py:78 | the sources list one file name per session document, in order |
| ChatHandler.ChatWithStreaming | backend/clients/claude_client.py:263-300 | an answer exists exactly when the model call succeeds, and it is the reply with surrounding whitespace removed: no longer than the reply and neither starting nor ending with whitespace |
| ChatHandler.HandleChat | backend/clients/chat_handler.py:11-121 | the reply equals ChatSpec on the session's documents: the fixed reply for no documents, else the model's answer, else the highest-vendor or generic fallback |
| ChatHandler.CountKeys | backend/clients/chat_handler.py:149 | `counts.keys()`: the keys in insertion order |
| ChatHandler.HandleAggregationQuery | backend/clients/chat_handler.py:131-164 | the reply equals AggregationSpec: keyword routing, the aggregate reply on success, the chat path otherwise, and the failure reply when building the vendor list raises |
| ChatHandler.ContextPartsSpec | backend/clients/chat_handler.py:26-58 | one context entry per document with non-empty structured data, the k-th being DocInfo of the k-th such document |
| ChatHandler.WithDataSpec | backend/clients/chat_handler.py:28 | the documents with an entry are exactly those with non-empty structured data, in session order |
| ChatHandler.DocInfoShape | backend/clients/chat_handler.py:35-43 | every entry starts with "Document: <filename> - Vendor: "; without a non-empty list of line items it is the header alone |
| ChatHandler.ScanSpec | backend/clients/chat_handler.py:85-93 | the scan result is non-negative, no numeric total exceeds it, when positive it is the total and vendor of the first document carrying the maximum, and otherwise the vendor stays 'Unknown' |
| ChatHandler.Scan | backend/clients/chat_handler.py:85-93 | the highest amount found is never negative, and while it is zero the vendor is still "Unknown" |
| ChatHandler.HighestFallback | backend/clients/chat_handler.py:81-105 | when the model call fails, a "charged the most" question is answered from the scan, with every document as a source |
| ChatHandler.UndeterminedIffNoPositive | backend/clients/chat_handler.py:95-98 | the scan keeps 0 iff no numeric total is positive, and then the answer is the "couldn't determine" message |
| ChatHandler.EmptySessionSkipsModel | backend/clients/chat_handler.py:18-23 | an empty session gets the fixed "no documents" reply whatever the model would say |
| ChatHandler.ModelAnswerPassedOn | backend/clients/chat_handler.py:72-80 | a successful model answer is returned stripped, with every session document as a source |
| ChatHandler.ChatAlwaysSucceeds | backend/clients/chat_handler.py:11-121 | every path of handle_chat reports success and carries the session id |
| ChatHandler.ChatSpec | backend/clients/chat_handler.py:11-121 | every chat reply succeeds for the asked session, with sources exactly the file names of its documents, or none for an empty session |
| ChatHandler.RoutingSpec | backend/clients/chat_handler.py:134-157 | a message matching neither keyword pattern, or any message on an empty session, gets exactly the handle_chat reply |
| ChatHandler.RouteOf | backend/clients/chat_handler.py:134-157 | the sum route needs "total" in the lowered question and the vendor-count route needs "vendor" |
| ChatHandler.AggregationSpec | backend/clients/chat_handler.py:131-164 | the reply is for the asked session; it fails only on the vendor-count route over a non-empty session, and every other reply succeeds |
| ChatHandler.SumRouteReply | backend/clients/chat_handler.py:137-144 | a total-amount question on a non-empty session is answered with the money-formatted sum of the numeric totals and the number of documents |
| ChatHandler.VendorCountQueryFails | backend/clients/chat_handler.py:146-149 | as written, a vendor-count question on a non-empty session always yields "Aggregation query failed" |
| ChatHandler.JoinNamesStrings | backend/clients/chat_handler.py:149 | `', '.join` succeeds when every name is a string |
| ChatHandler.GroupedVendorsAreStrings | backend/clients/opensearch_client.py:121-137 | with string vendor names, every collected value is hashable and every grouped key is a string |
| ChatHandler.IntendedVendorCount | backend/clients/chat_handler.py:146-154 | with string vendor names, the corrected vendor query succeeds: one entry per distinct name, the counts add up to the number of documents, and the reply lists the names |
| ClaudeClient.ParseJsonResponse | backend/clients/claude_client.py:211-227 | the reply is the parsed span from the first `{` to the last `}`, the "no valid JSON" error when there is no such span, and the "JSON parsing failed" error when the span does not parse; it never raises |
| ClaudeClient.ParseOfWrapped | backend/clients/claude_client.py:215-220 | prose around one braced body, with no `{` before and no `}` after, is cut back to exactly that body before parsing |
| ClaudeClient.TierResult | backend/clients/claude_client.py:60-209 | for either model tier (`_try_nova_lite_extraction`, `_try_sonnet_extraction`), a failed call gives a record with an `error` key that the gate rejects, and an accepted result is exactly the parsed JSON span of the reply |
| ClaudeClient.NoBraceIsError | backend/clients/claude_client.py:218-224 | a reply without `{` is the "no valid JSON" error, which fails the acceptance gate |
| ClaudeClient.ShortTextIsRefused | backend/clients/claude_client.py:28-29 | text with fewer than 10 non-blank characters is refused with the "insufficient text" error, untagged, whatever the models would answer |
| ClaudeClient.LongTextIsTagged | backend/clients/claude_client.py:31-54 | any other text gets an answer tagged with one of the three tiers |
| ClaudeClient.FormatExtractedText | backend/clients/claude_client.py:16-58 | a model tag is set exactly when the stripped text has at least ten characters; the tag is one of the three tiers, and a model tier's record passes the acceptance gate |
| ClaudeClient.NovaAcceptedFirst | backend/clients/claude_client.py:33-39 | an acceptable Nova Lite result is returned tagged `nova-lite`, and the Sonnet reply has no influence |
| ClaudeClient.SonnetAcceptedSecond | backend/clients/claude_client.py:41-48 | a rejected Nova Lite result and an acceptable Sonnet result give the Sonnet result tagged `claude-3.5-sonnet` |
| ClaudeClient.ManualFallbackLast | backend/clients/claude_client.py:50-54 | both tiers rejected gives the regular-expression extraction tagged `manual-fallback`, with no key besides amount, number and tag |
| ClaudeClient.ModelAnswerPassesGate | backend/clients/claude_client.py:36-48 | an answer tagged by a model tier passes the acceptance gate |
| ClaudeClient.TagKeepsGate | backend/clients/claude_client.py:36-48 | adding the `model_used` tag keeps a record acceptable |
| ClaudeClient.ErrorKeyFailsGate | backend/clients/claude_client.py:231-232 | any record with an `error` key is rejected |
| ClaudeClient.GateExamples | backend/clients/claude_client.py:235-239 | a "Not found" vendor, a zero total and a numeric-string total are rejected; a numeric total, a `True` total or a real vendor name is accepted |
| ClaudeClient.IsExtractionSuccessful | backend/clients/claude_client.py:229-239 | an accepted record has no `error` key and has a vendor name or a total amount |
| ClaudeClient.RunFrom | backend/clients/claude_client.py:248 | the greedy run: every character in it satisfies the class and the one after it does not |
| ClaudeClient.Cleaned | backend/clients/claude_client.py:251 | the cleaned match holds no `$` and no `,` |
| ClaudeClient.CleanedAppend | backend/clients/claude_client.py:251 | removing `$` and `,` distributes over concatenation |
| ClaudeClient.CleanedDigits | backend/clients/claude_client.py:251 | a string of digits is left unchanged |
| ClaudeClient.CommaIsIgnored | backend/clients/claude_client.py:251 | a thousands separator anywhere in the match does not change the amount |
| ClaudeClient.DecimalValue | backend/clients/claude_client.py:252 | `float` of the cleaned match is never negative, and fails when no digit is present |
| ClaudeClient.Pow10 | backend/clients/claude_client.py:252 | the scale of the fractional digits is at least 1 |
| ClaudeClient.DollarDigitsValue | backend/clients/claude_client.py:248-252 | `$` followed by plain digits gives the integer those digits spell |
| ClaudeClient.RunOfDigits | backend/clients/claude_client.py:248 | the amount class consumes exactly a run of digits that ends before a non-amount character |
| ClaudeClient.FirstAmountIsLeftmost | backend/clients/claude_client.py:248 | an amount match exists iff some `$` is followed by a digit or comma, and the one taken is the leftmost |
| ClaudeClient.LeadingAmountWins | backend/clients/claude_client.py:248-252 | a leading `$` with digits decides the amount, whatever amounts follow |
| ClaudeClient.NoDollarNoAmount | backend/clients/claude_client.py:248-249 | text without `$` sets no amount |
| ClaudeClient.DollarCommaHasNoAmount | backend/clients/claude_client.py:250-254 | "$," matches but `float` raises, so no amount is set and nothing raises |
| ClaudeClient.FallbackKeys | backend/clients/claude_client.py:241-261 | the fallback sets only `total_amount`, a non-negative number, and `invoice_number`, a non-empty run of word characters |
| ClaudeClient.FallbackExtraction | backend/clients/claude_client.py:241-261 | the fallback record has only the amount and the invoice number keys, each present exactly when its pattern matches |
| ClaudeClient.FirstInvoiceNumber | backend/clients/claude_client.py:257 | a match captures a non-empty number shorter than the rest of the text |
| ClaudeClient.FirstInvoiceNumberIsLeftmost | backend/clients/claude_client.py:257 | the search finds a number exactly when some position matches, and then it is the match at the leftmost such position |
| ClaudeClient.InvoiceNumberIsWord | backend/clients/claude_client.py:257-259 | a captured invoice number is a non-empty run of word characters |
| ClaudeClient.NoKeywordNoNumber | backend/clients/claude_client.py:257 | text without an `i` or `I` yields no invoice number |
| ClaudeClient.InvoiceLabelIsTaken | backend/clients/claude_client.py:257 | in "Invoice Number: 42" the capture is the label "Number" |
| ClaudeClient.InvoiceHashNumber | backend/clients/claude_client.py:257 | in "INV#123" the `#` is skipped and "123" captured |
| ClaudeClient.BareInvoiceKeyword | backend/clients/claude_client.py:257 | a bare "Invoice" matches through the `inv` alternative and captures "oice" |
| InvoiceSearch.SearchSimilarInvoices | backend/clients/invoice_tools.py:16-48 | the method computes SearchResult: nothing without texts or embeddings or when the `try` block raises, else the hits of the first `limit` ranks above the threshold |
| InvoiceSearch.CollectHits | backend/clients/invoice_tools.py:35-43 | the loop builds one hit per ranked index above 0.1, in ranking order, or Raised at the first index out of range |
| InvoiceSearch.Range | backend/clients/invoice_tools.py:33 | the indices of the embeddings, in order |
| InvoiceSearch.InsertRanked | backend/clients/invoice_tools.py:33 | inserting an index into the ranking keeps every entry a valid index |
| InvoiceSearch.InsertRankedPermutes | backend/clients/invoice_tools.py:33 | insertion adds exactly the one index |
| InvoiceSearch.RankFirst | backend/clients/invoice_tools.py:33 | the ranking of the first `n` similarities addresses only them |
| InvoiceSearch.InsertRankedBelow | backend/clients/invoice_tools.py:33 | insertion brings in no similarity above a bound that all entries respect |
| InvoiceSearch.InsertRankedSorted | backend/clients/invoice_tools.py:33 | insertion keeps the ranking in non-increasing similarity |
| InvoiceSearch.RangeStep | backend/clients/invoice_tools.py:33 | the indices below `n + 1` are those below `n` and then `n` |
| InvoiceSearch.RankingPermutes | backend/clients/invoice_tools.py:33 | the ranking holds each index once |
| InvoiceSearch.RankingSorted | backend/clients/invoice_tools.py:33 | the ranking is ordered by decreasing similarity |
| InvoiceSearch.RankingSpec | backend/clients/invoice_tools.py:33 | `argsort(...)[::-1]` is a permutation of the indices in non-increasing similarity |
| InvoiceSearch.RankingHasAll | backend/clients/invoice_tools.py:33 | every index appears in the ranking |
| InvoiceSearch.HitsRaiseAt | backend/clients/invoice_tools.py:38-42 | a selected index whose invoice or text is missing makes the loop raise |
| InvoiceSearch.HitsStep | backend/clients/invoice_tools.py:36-43 | one more selected index adds its hit at the end |
| InvoiceSearch.SelectedMembers | backend/clients/invoice_tools.py:36-37 | the selected indices are ranked indices above the threshold |
| InvoiceSearch.SelectedLength | backend/clients/invoice_tools.py:36-37 | no more indices are selected than ranked |
| InvoiceSearch.SelectedSorted | backend/clients/invoice_tools.py:36-37 | selection keeps the ranking order |
| InvoiceSearch.HitsPointwise | backend/clients/invoice_tools.py:36-43 | a completed hit list holds one hit per selected index, built from it |
| InvoiceSearch.SearchLimit | backend/clients/invoice_tools.py:33 | at most `limit` results for a non-negative limit, and never more than there are embeddings |
| InvoiceSearch.SearchHitsMeaning | backend/clients/invoice_tools.py:37-43 | each result is an invoice above the threshold with its similarity and its text's first 200 characters followed by "..." |
| InvoiceSearch.SearchHitsSorted | backend/clients/invoice_tools.py:33-43 | results come in non-increasing similarity |
| InvoiceSearch.OutsideTopIsLower | backend/clients/invoice_tools.py:33 | an index beyond the first `limit` ranks is no more similar than any within them |
| InvoiceSearch.SearchHitsAreTop | backend/clients/invoice_tools.py:33-43 | every embedding left out of the first `limit` ranks is no more similar than any reported result |
| InvoiceSearch.SearchComplete | backend/clients/invoice_tools.py:36-43 | when every selected invoice and text exists, every ranked index above the threshold is reported |
| InvoiceSearch.SearchRaisesEmpty | backend/clients/invoice_tools.py:38-48 | a selected index whose invoice or text is missing empties the whole answer |
| InvoiceTools.FilterInvoices | backend/clients/invoice_tools.py:120-165 | the loop computes Filtered: the invoices every test keeps, in order, or Raised at the first test that raises |
| InvoiceTools.FilteredRaises | backend/clients/invoice_tools.py:129-163 | filtering raises exactly when testing some invoice raises |
| InvoiceTools.FilteredKeepsOrder | backend/clients/invoice_tools.py:127-165 | the result is an order-preserving subsequence holding exactly the invoices the tests keep |
| InvoiceTools.Filtered | backend/clients/invoice_tools.py:120-165 | the filtered list is never longer than the session's invoices |
| InvoiceTools.NoCriteriaKeepsAll | backend/clients/invoice_tools.py:132-163 | with no criteria every invoice is kept, provided each `data` is a dict |
| InvoiceTools.KeptAmountWithinBounds | backend/clients/invoice_tools.py:137-141 | a kept invoice lies within the amount bounds, bounds included, and only non-zero bounds apply |
| InvoiceTools.ZeroAmountMaxIsNoBound | backend/clients/invoice_tools.py:140 | `amount_max=0` keeps a 500-dollar invoice that a bound of 100 drops |
| InvoiceTools.KeptDateWithinBounds | backend/clients/invoice_tools.py:144-157 | when a date bound is given, a kept invoice has a parseable date between the bounds, bounds included |
| InvoiceTools.BadStartDateKeepsNothing | backend/clients/invoice_tools.py:146-157 | a start date that does not parse drops every invoice |
| InvoiceTools.QueryCaseIgnored | backend/clients/invoice_tools.py:133-160 | the vendor and payment-terms tests do not depend on the case of the query |
| InvoiceTools.LowerTwice | backend/clients/invoice_tools.py:133 | lower-casing is idempotent |
| InvoiceTools.GetInvoiceDetails | backend/clients/invoice_tools.py:167-173 | the first invoice whose number matches; None iff none matches; Raised iff a non-dict `data` comes before any match |
| InvoiceTools.AggregateAmounts | backend/clients/invoice_tools.py:50-118 | the method computes AggregateResult: the error for no invoices, else the grouped results and the summary, or Raised |
| InvoiceTools.GroupAmounts | backend/clients/invoice_tools.py:55-79 | the first loop raises iff some invoice raises, and otherwise files each truthy amount under its key in first-seen order |
| InvoiceTools.SummarizeGroups | backend/clients/invoice_tools.py:81-107 | the second loop yields one result per group, the sum of all amounts and their number |
| InvoiceTools.Summarize | backend/clients/invoice_tools.py:86-104 | one result per group |
| InvoiceTools.Max | backend/clients/invoice_tools.py:94 | `max(amounts)` is an element no smaller than any other |
| InvoiceTools.Min | backend/clients/invoice_tools.py:96 | `min(amounts)` is an element no larger than any other |
| InvoiceTools.GroupValueMeaning | backend/clients/invoice_tools.py:87-98 | max and min are attained bounds, avg times count is the sum, count is the length, and an unknown operation sums |
| InvoiceTools.AmountEntriesRaise | backend/clients/invoice_tools.py:57-79 | an invoice that raises makes the whole grouping raise |
| InvoiceTools.AmountEntriesCount | backend/clients/invoice_tools.py:59-62 | one pair per invoice with a truthy amount |
| InvoiceTools.CountSumOfSummary | backend/clients/invoice_tools.py:100-107 | the group counts add up to the number of grouped amounts |
| InvoiceTools.AggregateResultOf | backend/clients/invoice_tools.py:50-118 | a non-empty session whose grouping completes gets the summary of its groups |
| InvoiceTools.AggregateSummary | backend/clients/invoice_tools.py:106-117 | the group counts add up to `total_invoices`, the number of truthy amounts; `total_amount` is their sum whatever the operation; the average divides by max(count, 1) |
| InvoiceTools.AverageTimesCount | backend/clients/invoice_tools.py:114 | the average times max(count, 1) gives back the total |
| InvoiceTools.OperationOnlyChangesValues | backend/clients/invoice_tools.py:86-117 | the operation changes only the group values: success, totals and the number of groups do not depend on it |
| InvoiceTools.UnknownOperationSummary | backend/clients/invoice_tools.py:97-98 | an unknown operation summarizes the groups as "sum" does |
| InvoiceTools.UnknownOperationIsSum | backend/clients/invoice_tools.py:97-98 | an unknown operation gives the "sum" result apart from the echoed operation name |
| InvoiceTools.UnknownGroupByKeys | backend/clients/invoice_tools.py:76-77 | an unknown `group_by` files every pair under "All" |
| InvoiceTools.SingleKeyGroup | backend/clients/invoice_tools.py:55-79 | pairs sharing one key form a single group holding all their values in order |
| InvoiceTools.UnknownGroupByIsAll | backend/clients/invoice_tools.py:76-79 | an unknown `group_by` yields one group "All" with every amount, or none when no amount is truthy |
| InvoiceTools.DateGroupKey | backend/clients/invoice_tools.py:67-73 | date grouping uses "Unknown Date" exactly when the date does not parse |
| InvoiceTools.GetVendorSummary | backend/clients/invoice_tools.py:175-198 | the method computes VendorSummary: per vendor its invoices, total, count and rounded average, or Raised |
| InvoiceTools.FileByVendor | backend/clients/invoice_tools.py:184-191 | the first loop raises iff some invoice raises, and otherwise files each invoice and amount under its vendor in first-seen order |
| InvoiceTools.VendorStatistics | backend/clients/invoice_tools.py:194-196 | the second loop yields each vendor's statistics |
| InvoiceTools.AllStats | backend/clients/invoice_tools.py:194-198 | one statistics entry per vendor, in order |
| InvoiceTools.Firsts | backend/clients/invoice_tools.py:189 | the invoices of the filed pairs, in order |
| InvoiceTools.Seconds | backend/clients/invoice_tools.py:190 | the amounts of the filed pairs, in order |
| InvoiceTools.VendorItemsAreInvoices | backend/clients/invoice_tools.py:184-189 | the invoices filed under a vendor are exactly that vendor's invoices, in order |
| InvoiceTools.CountOfAllStats | backend/clients/invoice_tools.py:191 | the vendor counts add up to the number of filed invoices |
| InvoiceTools.VendorSummaryOf | backend/clients/invoice_tools.py:175-198 | a grouping that completes gives the statistics of its groups |
| InvoiceTools.VendorCounts | backend/clients/invoice_tools.py:184-191 | vendors are pairwise different and the counts add up to the number of invoices |
| InvoiceTools.VendorEntriesHoldTheirInvoices | backend/clients/invoice_tools.py:189 | each vendor entry lists exactly the invoices of that vendor, in order |
| InvoiceTools.VendorAverage | backend/clients/invoice_tools.py:190-196 | a vendor's count is its number of invoices, and its average times its count is its total |
| InvoiceTools.GetSessionSummary | backend/clients/invoice_tools.py:200-246 | the method computes SessionSummaryResult: the error for no invoices, else the summary, or Raised |
| InvoiceTools.AccumulateInvoices | backend/clients/invoice_tools.py:210-229 | the loop raises iff some invoice makes `SummaryEntryOf` raise (its `data` is not a dict, its amount is not a number, or a truthy vendor or its payment terms are unhashable), and otherwise ends with the accumulators of all entries |
| InvoiceTools.AmountsOf | backend/clients/invoice_tools.py:213 | one amount per invoice |
| InvoiceTools.TermKeys | backend/clients/invoice_tools.py:228-229 | one terms key per invoice |
| InvoiceTools.EarliestDate | backend/clients/invoice_tools.py:242 | `min(date_range)` is a listed date no later than any other |
| InvoiceTools.LatestDate | backend/clients/invoice_tools.py:243 | `max(date_range)` is a listed date no earlier than any other |
| InvoiceTools.AccumulateTotal | backend/clients/invoice_tools.py:213-214 | the running total is the sum of the amounts |
| InvoiceTools.AccumulateVendors | backend/clients/invoice_tools.py:216-218 | the vendor set is the grouping of the truthy vendors |
| InvoiceTools.AccumulateDates | backend/clients/invoice_tools.py:220-226 | the date list holds the dates that parse, in order |
| InvoiceTools.AccumulateTerms | backend/clients/invoice_tools.py:228-229 | the terms counts are the grouping of the terms |
| InvoiceTools.AccumulateSpec | backend/clients/invoice_tools.py:205-229 | the accumulators are the sum of the amounts, the set of truthy vendors, the parsed dates and the terms counts |
| InvoiceTools.AccumulateSnoc | backend/clients/invoice_tools.py:210-229 | one more invoice is one more loop step |
| InvoiceTools.SessionSummaryOf | backend/clients/invoice_tools.py:200-246 | a non-empty session whose entries complete gets the summary of its entries |
| InvoiceTools.DatesOfSpec | backend/clients/invoice_tools.py:220-226 | a date is listed iff some invoice's date parses to it |
| InvoiceTools.VendorKeysSpec | backend/clients/invoice_tools.py:216-218 | a vendor is added iff some invoice has it as truthy vendor |
| InvoiceTools.TermsCountAll | backend/clients/invoice_tools.py:228-237 | the payment-terms counts add up to `total_invoices`, the number of invoices |
| InvoiceTools.VendorKeysFrom | backend/clients/invoice_tools.py:216-218 | each added vendor comes from some invoice |
| InvoiceTools.VendorBucketFromInvoice | backend/clients/invoice_tools.py:216-218 | each member of the vendor set is the truthy vendor of some invoice |
| InvoiceTools.VendorSetCoversInvoices | backend/clients/invoice_tools.py:216-218 | every truthy vendor of an invoice is in the vendor set |
| InvoiceTools.UniqueVendors | backend/clients/invoice_tools.py:235-236 | `unique_vendors` is the length of `vendor_list`, whose entries are pairwise different and are exactly the truthy vendors |
| InvoiceTools.DateRangeSpec | backend/clients/invoice_tools.py:240-244 | a date range is present iff some date parses; it is then ordered, both ends are dates of invoices, and every parsed date lies between them |
| InvoiceTools.SummaryEntryMeaning | backend/clients/invoice_tools.py:211-226 | an invoice contributes its vendor iff the vendor is truthy, and its date iff the date is a string that parses |
| InvoiceTools.SummaryEntryOf | backend/clients/invoice_tools.py:211-229 | an invoice contributes only when its data is a dict and its payment terms are hashable, and a vendor it contributes is truthy and hashable |
| LocalTextExtractor.BaseName | backend/clients/local_text_extractor.py:62-71 | `os.path.basename` holds no '/' |
| LocalTextExtractor.Suffix | backend/clients/local_text_extractor.py:26 | the suffix is empty or a '.' followed by at least one character, with no further '.' and no '/' |
| LocalTextExtractor.NoDotUnsupported | backend/clients/local_text_extractor.py:26-32 | a name with no '.' has no suffix and is refused |
| LocalTextExtractor.ExtractTextFromBytes | backend/clients/local_text_extractor.py:13-49 | the method computes BytesSpec: the unsupported-type error, else the PDF or text extraction |
| LocalTextExtractor.BytesSpec | backend/clients/local_text_extractor.py:13-49 | the result names the document; it is an unsupported-type error exactly when the lowered suffix is not supported, any other error is a failed PDF, and a success records the byte count |
| LocalTextExtractor.DispatchSpec | backend/clients/local_text_extractor.py:26-43 | an unsupported suffix gives the error; ".pdf" goes to the PDF reader, the five text suffixes to the text decoder, so the "handler not implemented" branch is unreachable |
| LocalTextExtractor.ExtractTextFromFile | backend/clients/local_text_extractor.py:51-77 | the method computes FileSpec: "file not found" with the base name for a missing path, else the extraction of its bytes under its base name |
| LocalTextExtractor.FileSpec | backend/clients/local_text_extractor.py:51-77 | the result is named by the base name; it is a not-found error exactly when the path is neither a file nor a directory, and a success comes from an existing file and records its size |
| LocalTextExtractor.ExtractTextFromMultipleFiles | backend/clients/local_text_extractor.py:79-93 | one result per path, in order, each that of the single-file extraction |
| LocalTextExtractor.CollectPages | backend/clients/local_text_extractor.py:104-111 | the page loop keeps the non-blank pages in order and an error note for each page that fails |
| LocalTextExtractor.BlankPdf | backend/clients/local_text_extractor.py:104-108 | a PDF whose pages are all blank yields no kept text |
| LocalTextExtractor.ExtractFromPdfBytes | backend/clients/local_text_extractor.py:95-142 | the method computes PdfSpec: the "PDF extraction failed" error when the reader raises, else the joined pages with lines, words, counts and the page count |
| LocalTextExtractor.PdfSpec | backend/clients/local_text_extractor.py:95-142 | the result names the document; it is an error exactly when the PDF reader fails, and a success records the page count and the byte count and no encoding |
| LocalTextExtractor.Latin1Decode | backend/clients/local_text_extractor.py:148-153 | Latin-1 maps each byte to the code point of equal value |
| LocalTextExtractor.DecodeText | backend/clients/local_text_extractor.py:148-156 | the loop takes the first encoding that succeeds, in the order UTF-8, Latin-1, cp1252 |
| LocalTextExtractor.DecodingNeverFails | backend/clients/local_text_extractor.py:148-162 | Latin-1 always succeeds, so cp1252 is never tried and the "could not decode" error cannot occur |
| LocalTextExtractor.ExtractFromTextBytes | backend/clients/local_text_extractor.py:144-191 | the method computes TextSpec: the decoded text with lines, words and counts, its metadata naming "utf-8" whichever encoding succeeded |
| LocalTextExtractor.TextSpec | backend/clients/local_text_extractor.py:144-191 | a text file always succeeds, under its name, with no page count, its byte count and the utf-8 encoding |
| LocalTextExtractor.FirstWords | backend/clients/local_text_extractor.py:175 | `words[:100]`: the first min(100, n) words |
| LocalTextExtractor.StripIsSlice | backend/clients/local_text_extractor.py:165 | a stripped line is a slice of the line |
| LocalTextExtractor.StripLine | backend/clients/local_text_extractor.py:165 | a non-empty stripped line holds no newline and has no surrounding whitespace |
| LocalTextExtractor.StrippedLinesSpec | backend/clients/local_text_extractor.py:165 | no more lines than parts, each non-empty, without newline or surrounding whitespace |
| LocalTextExtractor.TextMetrics | backend/clients/local_text_extractor.py:165-177 | `total_lines` counts the lines, at most 100 words are listed and they start the word list, `total_words` counts all words, and the words hold exactly the non-whitespace characters |
| LocalTextExtractor.InsertSorted | backend/clients/local_text_extractor.py:217 | insertion adds exactly the one string |
| LocalTextExtractor.InsertSortedSorted | backend/clients/local_text_extractor.py:217 | insertion keeps the order |
| LocalTextExtractor.SortStrings | backend/clients/local_text_extractor.py:217 | `sorted` is a permutation |
| LocalTextExtractor.SortStringsSpec | backend/clients/local_text_extractor.py:217 | `sorted` returns the same strings in ascending order |
| LocalTextExtractor.CollectSupported | backend/clients/local_text_extractor.py:213-215 | the loop computes SupportedFiles: the listed files with a supported lowercased suffix, in listing order |
| LocalTextExtractor.SupportedFilesSpec | backend/clients/local_text_extractor.py:213-215 | a path is kept iff it is a listed file with a supported suffix, and the kept paths are a subsequence of the listing |
| LocalTextExtractor.ScanDirectoryForDocuments | backend/clients/local_text_extractor.py:197-217 | `[]` for a missing path, Raised for a file, else the sorted supported files |
| LocalTextExtractor.ScanSpec | backend/clients/local_text_extractor.py:207-217 | the scan of a directory is sorted and holds exactly its supported files |
| LambdaFunction.Bucket.constructor | lambda/lambda_function.py:12 | a fresh bucket holds no object |
| LambdaFunction.Bucket.Put | lambda/lambda_function.py:434-458 | `put_object` stores the object under its key and changes nothing else |
| LambdaFunction.Bucket.DeletePrefix | lambda/lambda_function.py:257-268 | listing a prefix and deleting what it lists removes exactly the keys under the prefix |
| LambdaFunction.StoreDocument | lambda/lambda_function.py:427-463 | the id is md5 of "{session}_{filename}"; the file is stored under `documents/` and its metadata record under `metadata/{id}.json`, nothing else changes |
| LambdaFunction.ProcessDocument | lambda/lambda_function.py:60-115 | the response and the new bucket are ProcessSpec of the old bucket |
| LambdaFunction.ParseProcess | lambda/lambda_function.py:60-83 | an accepted upload has truthy file data and file name, and a truthy session id or a fresh uuid |
| LambdaFunction.ProcessSpec | lambda/lambda_function.py:60-115 | the status is 200, 400 or 500; every non-200 leaves the bucket unchanged, and no object is ever removed |
| LambdaFunction.ProcessRefusesMissingFields | lambda/lambda_function.py:78-83 | a falsy file data or file name answers 400 and writes nothing |
| LambdaFunction.ProcessWritesSession | lambda/lambda_function.py:69-108 | a decodable upload answers 200, writes only under its session prefix, removes nothing, leaves a decodable metadata record under the metadata prefix, and uses the generated uuid when no session id is given |
| LambdaFunction.UpdateDocument | lambda/lambda_function.py:117-182 | the response and the new bucket are UpdateSpec of the old bucket |
| LambdaFunction.UpdateSpec | lambda/lambda_function.py:117-182 | the status is 200, 400, 404 or 500; every non-200 leaves the bucket unchanged, and the set of keys never changes |
| LambdaFunction.EmptyUpdateRefused | lambda/lambda_function.py:130-135 | an empty `structured_data` dict is refused with 400 and nothing changes |
| LambdaFunction.UpdateTouchesOneRecord | lambda/lambda_function.py:138-175 | a missing record gives 404 and no change; a stored object that does not load as a dict gives 500 and no change; otherwise 200 and only that record changes, in `structured_data` and `updated_at` alone |
| LambdaFunction.GetSessionDocuments | lambda/lambda_function.py:465-486 | every object under the session's metadata prefix, loaded (records as dicts, stored files through the JSON oracle), once each; `[]` when any of them does not load |
| LambdaFunction.BlobSpoilsListing | lambda/lambda_function.py:475-486 | a stored file whose bytes do not parse as JSON, lying under a session's metadata prefix (the upload of a session named `x/metadata` lies under `x`'s), makes the listing of `x` give up |
| LambdaFunction.HandleChat | lambda/lambda_function.py:184-242 | the response is ChatResponse of the request and the documents the listing returns |
| LambdaFunction.ChatResponse | lambda/lambda_function.py:184-242 | 200 exactly for a complete request whose documents render as context (or that has none), 400 exactly for missing fields, any other answer 500 |
| LambdaFunction.ChatContextSpec | lambda/lambda_function.py:217-222 | the context holds the file name and data of every document, in order, and fails iff some document lacks either |
| LambdaFunction.ChatWithoutDocuments | lambda/lambda_function.py:206-214 | a session without documents gets the fixed "no documents" answer |
| LambdaFunction.DeleteSession | lambda/lambda_function.py:244-284 | the response and the new bucket are DeleteSpec of the old bucket |
| LambdaFunction.DeleteSpec | lambda/lambda_function.py:244-284 | the status is 200, 400 or 500; every non-200 leaves the bucket unchanged, and deletion only removes objects, never changes one |
| LambdaFunction.DeleteRemovesPrefix | lambda/lambda_function.py:257-268 | deletion removes exactly the keys under the session prefix, leaves the rest unchanged, and empties the metadata listing |
| LambdaFunction.LambdaHandler | lambda/lambda_function.py:21-58 | OPTIONS answers 200 with an empty body, a missing path 500, and otherwise the route decides which handler's specification holds, 404 for no route; a chat reply is the one for the documents of the session's metadata listing (all of them in listing order, or none when one does not load), and chat never changes the bucket |
| LambdaFunction.TrailingSlashIgnored | lambda/lambda_function.py:34 | a trailing slash does not change the route |
| LambdaFunction.PostRoutesAreExact | lambda/lambda_function.py:37-42 | each POST endpoint is chosen iff the stripped path is exactly its path and the method is POST |
| LambdaFunction.DeleteRoute | lambda/lambda_function.py:43-44 | any `/session/.../delete` path reaches the delete handler with DELETE and no handler with POST |
| LambdaFunction.RouteOf | lambda/lambda_function.py:34-44 | only POST and DELETE requests reach a handler, and the delete route is taken exactly for a DELETE whose trailing-slash-stripped path starts with `/session/` and ends with `/delete` |
| LambdaFunction.CallModelUsesSpan | lambda/lambda_function.py:356-362 | a model result comes only from the first-'{'-to-last-'}' span, and no span means no result |
| LambdaFunction.NovaResultWins | lambda/lambda_function.py:306-308 | a first result that is a dict with `vendor_name` is returned as it is |
| LambdaFunction.SonnetSecond | lambda/lambda_function.py:310-313 | otherwise a second result that is a dict with `vendor_name` is returned |
| LambdaFunction.DefaultLast | lambda/lambda_function.py:315-316 | with neither passing, the fixed default; an empty dict or no reply never passes |
| LambdaFunction.ExtractStructuredData | lambda/lambda_function.py:302-319 | the extracted data is the default record, the TypeError record, or a reply of Nova or Sonnet that passed the vendor gate |
| LambdaFunction.CallModelGivesDict | lambda/lambda_function.py:356-365 | when `json.loads` turns a `{`-initial text into a dict, every parsed model reply is a dict |
| LambdaFunction.ExtractionHasVendor | lambda/lambda_function.py:302-319 | under the same assumption on `json.loads`, the vendor gate never raises and the extracted data is a dict holding `vendor_name` |
| LambdaFunction.KeyLayout | lambda/lambda_function.py:427-470 | every key written for a session lies under its prefix; metadata keys under the metadata prefix, file keys not |
| LambdaFunction.SessionPrefixChars | lambda/lambda_function.py:260 | a key under a session prefix carries the session id after "sessions/", followed by '/' |
| LambdaFunction.SessionsDisjoint | lambda/lambda_function.py:260 | two different session ids without '/' share no key |
| LambdaFunction.SlashedIdOverlaps | lambda/lambda_function.py:433-470 | the file of session `x/metadata` is listed as metadata of session `x` |
| LambdaFunction.PrefixOfLonger | lambda/lambda_function.py:465-470 | a key under the metadata prefix is under the session prefix |
| Config.SectionsOf | config.py:17-66 | the sections are found iff the document is a mapping and every section present, including `api.cors` and the current environment's entry, is a mapping |
| Config.Config.LoadAws | config.py:19-22 | region and account are the environment's CDK_DEFAULT_REGION and CDK_DEFAULT_ACCOUNT when set, else the file's, else "us-west-2" and None; nothing else changes |
| Config.Config.LoadStack | config.py:24-26 | the stack name is the file's or "InvoiceProcessorStack" |
| Config.Config.LoadS3 | config.py:28-31 | the two bucket names are the file's or their defaults |
| Config.Config.LoadBedrock | config.py:33-37 | the three model ids are the file's or their defaults |
| Config.Config.LoadLambda | config.py:39-43 | timeout, memory and runtime are the file's or 300, 1024 and "python3.13" |
| Config.Config.LoadApiName | config.py:45-47 | the API name is the file's or "InvoiceProcessorAPI" |
| Config.Config.LoadCors | config.py:48-51 | the three CORS lists are the file's or their defaults |
| Config.Config.LoadCloudfront | config.py:53-62 | the root object and error responses are the file's or their defaults |
| Config.Config.ApplyOverrides | config.py:64-76 | the environment's `cors_origins` replaces the origins, and a truthy `s3_suffix` is appended to both bucket names |
| Config.Config.LoadConfig | config.py:12-76 | succeeds iff LoadSpec does, and then the settings are LoadSpec's |
| Config.LoadSpec | config.py:12-76 | a YAML document that is not a mapping makes loading raise |
| Config.Config.GetStackName | config.py:84-86 | the stack name is unchanged iff the environment is exactly "prod"; otherwise the result starts with "{name}-", ends with "-{env}" and is exactly as long as both, so it is "{name}-{env}" |
| Config.Config.GetS3BucketName | config.py:88-91 | starts with "{base}-", ends with "-{account}-{region}" and is exactly as long as the three parts and two hyphens, so it is `{base}-{account}-{region}`, the base being the invoice bucket iff the type is "invoice" |
| Config.GetConfig | config.py:93-95 | a fresh configuration holding LoadSpec's settings, or None where loading raises |
| Config.NonMappingRaises | config.py:17-66 | an empty file, a document that is not a mapping, or a present section that is not a mapping makes loading raise |
| Config.EmptyFileDefaults | config.py:19-62 | an empty mapping gives every default, with region and account from the environment |
| Config.EnvironmentWins | config.py:21-22 | CDK_DEFAULT_REGION and CDK_DEFAULT_ACCOUNT take precedence over the file; without them the account is the file's or None |
| Config.CorsOriginsOverride | config.py:49-69 | the environment's `cors_origins` replaces the API's allowed origins |
| Config.BucketSuffix | config.py:72-76 | a truthy `s3_suffix` is appended to both bucket names after a hyphen; otherwise they are the file's |
| Config.ProductionNeedsVariable | config.py:78-82 | without `ENVIRONMENT` the environment is "dev" and not production; production holds exactly when the variable lowers to "prod", so an exact "prod" is production |
| Config.UpperCaseProd | config.py:81-86 | ENVIRONMENT "PROD" counts as production, yet the stack name is still suffixed with "-PROD" |
| Config.DefaultBucketName | config.py:88-91 | without settings the bucket names embed "None" for the missing account |
| Json.MapAllDone | backend/clients/invoice_tools.py:129-130 | a loop that reads each invoice's `data` completes iff no single step raises |
| Json.MapAllPointwise | backend/clients/invoice_tools.py:210-211 | a completed loop has one result per invoice, the i-th from the i-th |
| Json.SliceTo | backend/clients/invoice_tools.py:33-42 | Python `xs[:n]`: a prefix of length min(n, len) for n >= 0, and len + n (at least 0) for negative n |
| Json.JsonSpanSpec | backend/clients/claude_client.py:215-219 | the span exists iff some `}` follows the first `{`; it starts with `{`, ends with `}`, with no `{` before it and no `}` after it |
| Json.JsonSpanOfWrapped | lambda/lambda_function.py:357-360 | prose around one braced body, with no `{` before and no `}` after, is cut back to exactly that body |
| Text.Find | backend/clients/claude_client.py:215 | `find('{')`: the first index of the character, or -1 when absent |
| Text.RFind | backend/clients/claude_client.py:216 | `rfind('}')`: the last index of the character, or -1 when absent |
| Text.Strip | backend/clients/claude_client.py:28 | `strip()` is no longer than its input and neither starts nor ends with whitespace |
| Text.JoinSplitOn | backend/clients/local_text_extractor.py:113-116 | splitting on a character and joining with it gives back the text |
| Text.WordsKeepNonSpaces | backend/clients/local_text_extractor.py:168 | `split()` loses exactly the whitespace: its words concatenate to the non-whitespace characters |
| Text.NatToStringRoundTrip | backend/clients/chat_handler.py:142 | `str(n)` of a count reads back as `n` |
| Text.StrLeTotal | backend/clients/local_text_extractor.py:217 | string order is total |
| Text.StrLeTransitive | backend/clients/local_text_extractor.py:217 | string order is transitive |
| Collections.GroupAllSpec | backend/clients/invoice_tools.py:55-79 | `defaultdict(list)` grouping: keys pairwise different, each entry holds exactly the values with its key in order, every key has an entry, sizes add up to the number of pairs |
| Collections.GroupAllTotal | backend/clients/invoice_tools.py:86-107 | the group sums add up to the sum of all grouped amounts |
| Dates.ParseDate | backend/clients/invoice_tools.py:147-157 | `strptime(s, '%Y-%m-%d')` yields only calendar dates, and None where Python raises |
| Dates.PadDigits | backend/clients/invoice_tools.py:242-243 | `%m` and `%d` print two digits that read back as the number |
| Dates.ParsePrintedDate | backend/clients/invoice_tools.py:223-243 | a date printed with `%Y-%m-%d` parses back to itself when its year has four digits |

## Left out

- `round(x, 2)` and the `:,.2f` money format are not modelled: amounts are exact reals, and the formatted text is the parameter `money`.
- `str()` of numbers, lists and dicts is the parameter `repr`; only strings, None and booleans are rendered concretely.
- Floating-point arithmetic: sums and averages are exact over `real`, so rounding error and overflow to infinity are not captured.
- TF-IDF fitting and cosine similarity are numerical library code; the search receives one similarity per embedding, or None where that code raises, and session creation does not build embeddings.
- InvoiceSearch.RankingSpec: the order among equal similarities is the model's own insertion order; NumPy's `argsort` reversed may order ties differently, so only tie-independent properties are stated about the results.
- The session sweeper thread, its lock and `sleep` become plain sequential method calls; the clock (`time.time`, `utcnow`) and fresh uuids are parameters.
- Model invocation: every `invoke_model` call, its prompt text and the shape of its response are reduced to an optional reply string.
- `validate_extraction` and `_call_claude` are not modelled: they read `self.model_id`, which the constructor never sets, so they always return their error dict.
- `_call_claude_with_tools` and the `INVOICE_TOOLS` schema are transport and schema data, with no logic to verify.
- ClaudeClient.FormatExtractedText: the `except` branch that returns the untagged fallback is not modelled; with a string input and tiers that catch their own errors, only console printing could raise there, and printing is not modelled.
- ChatHandler.HandleChat: the `except` branch that reports "Chat processing failed" is not modelled; stored documents always carry a dict `structured_data` and every field is read with `.get`.
- The regular expressions' `\d`, `\w` and IGNORECASE, and `str.lower`, are taken on ASCII only; Python also matches other Unicode digits, letters and case pairs.
- Exception messages (`str(e)`) are not modelled: a 500 response carries an opaque exception body, and error records carry the fixed part of their message.
- Persistence: the pickle file of the document store, the S3 objects and the YAML file become in-memory values; S3's 1000-key page limit, paging and listing order are not modelled. S3 writes never fail in the model: `store_document` puts the file before its metadata record, so a failing metadata put leaves the file stored while `process_document` answers 500; LambdaFunction.ProcessSpec's unchanged bucket on a non-200 answer holds only because the model has no failing put.
- LambdaFunction.GetSessionDocuments: the order of the returned documents is left open, stated as some listing of the metadata keys; S3 lists keys in binary order.
- Base64 decoding, PDF text extraction, md5, uuid4 and UTF-8/cp1252 decoding are parameters; Latin-1 decoding is written out.
- `json.loads` is a parameter, both on model replies (`loads`) and on the bytes of a stored object (`loadBytes`); an uploaded file is kept as its bytes, and an object written as a record loads as that record.
- LambdaFunction.ExtractionHasVendor and LambdaFunction.CallModelGivesDict assume of `loads` that a text starting with `{` that parses at all parses to a dict, which `json.loads` guarantees; without it the vendor gate may raise on a parsed reply that is not a dict.
- CORS headers are not modelled; responses carry only their status code and body.
- The config file's location and `yaml.safe_load` are not modelled: the parsed document is the parameter `data`, and the environment the map `environ`.
- Config.Config.LoadConfig: when loading raises, the settings assigned before the failing section are not stated; Config.GetConfig composes construction and loading, as `Config()` does.
- LocalTextExtractor.Suffix: `pathlib` normalisation beyond dropping trailing '/' is not modelled (a final `.` or `..` component, repeated separators); the suffix is taken from the text after the last remaining '/'.
- The unsupported-type error message lists the supported extensions in set iteration order; the model keeps only the offending extension.
- `get_supported_extensions` returns the set as a list in set iteration order; the model has the set `SUPPORTED_EXTENSIONS`.
- The `timestamp` fields of extraction metadata and stored records are the clock parameter, or not recorded.
- InvoiceTools.UniqueVendors: `list(vendors)` follows Python's set iteration order; the model lists vendors in first-seen order, and the statements made about the list do not depend on its order.
- backend/lambda_functions/document_processor.py is not part of this model: its success path reads a key that the store never returns, so it always ends in its error handler.
- The CDK stack, the web apps, the HTTP API server and the console driver are deployment and transport code, not part of this model.

## Findings

| source | as written | input that shows it | evidently intended | confidence | as-written member | corrected member |
|---|---|---|---|---|---|---|
| backend/clients/chat_handler.py:146-149 | the vendor-count question calls `aggregate_data(session_id, 'vendor_name', 'count')`, which returns an integer count (backend/clients/opensearch_client.py:130-131), then calls `.keys()` on it, which raises, so the reply is always "Aggregation query failed" | any session with at least one document and the message "how many vendors" | ask for the vendor grouping (a non-count operation) and list its keys | not executed | ChatHandler.VendorCountQueryFails | ChatHandler.IntendedVendorCount |
