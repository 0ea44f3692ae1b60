/**
 * `lambda_function`: the AWS Lambda entry point of the deployed pipeline. Documents
 * and their metadata live in one S3 bucket under `sessions/{session_id}/`.
 *
 * The bucket is the class `Bucket`, a map from object key to stored object; a
 * metadata object is kept as the record it encodes, an uploaded file as its bytes.
 * Everything the handler asks of the outside world is a field of `Env`: JSON parsing
 * of text and of stored bytes, base64 decoding, PDF text
 * extraction, the replies of the two extraction models and of the chat model, md5,
 * uuid4, the clock and `str()` of non-string values.
 */
module LambdaFunction {
  import opened Json
  import opened Text

  datatype Env = Env(
    loads: string -> Option<Value>,
    loadBytes: seq<bv8> -> Option<Value>,
    b64decode: Value -> Option<seq<bv8>>,
    pdfText: seq<bv8> -> string,
    nova: string -> Option<string>,
    sonnet: string -> Option<string>,
    respond: (Value, seq<Record>) -> string,
    md5: string -> string,
    uuid: string,
    now: string,
    repr: Value -> string)

  datatype StoredObject = Blob(data: seq<bv8>) | Metadata(record: Record)

  /** The response body: empty, a JSON dict, or `{'error': str(e)}` after an exception
      (whose message text is not modelled). */
  datatype Body = NoBody | JsonBody(fields: Record) | ExceptionBody

  datatype Response = Response(statusCode: int, body: Body)

  const SERVER_ERROR: Response := Response(500, ExceptionBody)
  const DEFAULT_EXTRACTION: Value :=
    Obj(map["vendor_name" := Str("Unknown"), "total_amount" := Num(0.0)])
  const NO_SESSION_DOCUMENTS: string := "No documents found in this session. Please upload some invoices first."

  function ErrorResponse(code: int, message: string): Response
  {
    Response(code, JsonBody(map["error" := Str(message)]))
  }

  /* ------------------------------------------------------------- key layout */

  function SessionPrefix(sessionId: string): string
  {
    "sessions/" + sessionId + "/"
  }

  function MetadataPrefix(sessionId: string): string
  {
    SessionPrefix(sessionId) + "metadata/"
  }

  function DocumentKey(sessionId: string, filename: string): string
  {
    SessionPrefix(sessionId) + "documents/" + filename
  }

  function MetadataKey(sessionId: string, documentId: string): string
  {
    MetadataPrefix(sessionId) + documentId + ".json"
  }

  /** The keys of a bucket under a prefix, as `list_objects_v2(Prefix=...)` sees them. */
  function KeysUnder(objects: map<string, StoredObject>, prefix: string): set<string>
  {
    set k | k in objects && IsPrefix(prefix, k)
  }

  class Bucket {
    var objects: map<string, StoredObject>

    constructor ()
      ensures objects == map[]
    {
      objects := map[];
    }

    /** `put_object(Key=key, Body=...)`. */
    method Put(key: string, obj: StoredObject)
      modifies this
      ensures objects == old(objects)[key := obj]
    {
      objects := objects[key := obj];
    }

    /** `list_objects_v2` under a prefix followed by `delete_objects` of what it lists. */
    method DeletePrefix(prefix: string)
      modifies this
      ensures objects == map k | k in old(objects) && !IsPrefix(prefix, k) :: old(objects)[k]
    {
      objects := map k | k in objects && !IsPrefix(prefix, k) :: objects[k];
    }
  }

  /* --------------------------------------------------------------- routing */

  datatype Endpoint = ProcessDocumentEndpoint | UpdateDocumentEndpoint | ChatEndpoint | DeleteSessionEndpoint | NotFound

  /** The dispatch on the path with its trailing slashes removed and the HTTP method. */
  function RouteOf(path: string, httpMethod: Value): (e: Endpoint)
    ensures e != NotFound ==> httpMethod == Str("POST") || httpMethod == Str("DELETE")
    ensures e == DeleteSessionEndpoint <==>
      httpMethod == Str("DELETE") && IsPrefix("/session/", RStripChar(path, '/')) && IsSuffix("/delete", RStripChar(path, '/'))
  {
    var p := RStripChar(path, '/');
    if p == "/process-document" && httpMethod == Str("POST") then ProcessDocumentEndpoint
    else if p == "/update-document" && httpMethod == Str("POST") then UpdateDocumentEndpoint
    else if p == "/chat" && httpMethod == Str("POST") then ChatEndpoint
    else if IsPrefix("/session/", p) && IsSuffix("/delete", p) && httpMethod == Str("DELETE") then DeleteSessionEndpoint
    else NotFound
  }

  predicate IsOptions(event: Record)
  {
    GetOr(event, "httpMethod", Null) == Str("OPTIONS")
  }

  /** `event.get('path', '').rstrip('/')`: a path that is not a string raises. */
  function PathOf(event: Record): Option<string>
  {
    var p := GetOr(event, "path", Str(""));
    if p.Str? then Some(p.s) else None
  }

  /** The request body: a JSON string is parsed, anything else is used as it is; only a
      dict supports the `.get` calls that follow. */
  function RequestBody(event: Record, env: Env): Outcome<Record>
  {
    var raw := GetOr(event, "body", Obj(map[]));
    var parsed := if raw.Str? then env.loads(raw.s) else Some(raw);
    if parsed.Some? && parsed.value.Obj? then Done(parsed.value.fields) else Raised
  }

  /* ------------------------------------------------------------ extraction */

  /** `call_nova_lite` / `call_claude_sonnet` after the model call: the span from the
      first '{' to the last '}' parsed as JSON, or None. */
  function CallModel(reply: Option<string>, env: Env): Option<Value>
  {
    if reply.None? then None
    else
      match JsonSpan(reply.value)
      case None => None
      case Some(span) => env.loads(span)
  }

  /** `result and 'vendor_name' in result`; `in` raises on a truthy number or bool. */
  function VendorGate(result: Option<Value>): Outcome<bool>
  {
    if result.None? || !Truthy(result.value) then Done(false)
    else
      match result.value
      case Obj(m) => Done("vendor_name" in m)
      case List(xs) => Done(Str("vendor_name") in xs)
      case Str(s) => Done(Contains(s, "vendor_name"))
      case _ => Raised
  }

  /** `extract_structured_data`: the Nova Lite result if it passes the gate, else the
      Sonnet result if it does, else the fixed default; `{'error': ...}` if a gate raises. */
  function ExtractStructuredData(rawText: string, env: Env): (r: Value)
    ensures || r == DEFAULT_EXTRACTION || r == Obj(map["error" := Str("TypeError")])
            || (VendorGate(Some(r)) == Done(true)
                && (Some(r) == CallModel(env.nova(rawText), env) || Some(r) == CallModel(env.sonnet(rawText), env)))
  {
    var first := CallModel(env.nova(rawText), env);
    match VendorGate(first)
    case Raised => Obj(map["error" := Str("TypeError")])
    case Done(true) => first.value
    case Done(false) =>
      var second := CallModel(env.sonnet(rawText), env);
      match VendorGate(second)
      case Raised => Obj(map["error" := Str("TypeError")])
      case Done(true) => second.value
      case Done(false) => DEFAULT_EXTRACTION
  }

  /* -------------------------------------------------------- process_document */

  datatype ProcessRequest =
    | ProcessBadBody
    | ProcessMissingFields
    | ProcessRequest(fileData: Value, fileName: Value, sessionId: Value)

  function ParseProcess(event: Record, env: Env): (r: ProcessRequest)
    ensures r.ProcessRequest? ==>
      Truthy(r.fileData) && Truthy(r.fileName) && (Truthy(r.sessionId) || r.sessionId == Str(env.uuid))
  {
    match RequestBody(event, env)
    case Raised => ProcessBadBody
    case Done(body) =>
      var fileData := GetOr(body, "file_data", Null);
      var fileName := GetOr(body, "file_name", Null);
      var given := GetOr(body, "session_id", Null);
      var sessionId := if Truthy(given) then given else Str(env.uuid);
      if !(Truthy(fileData) && Truthy(fileName)) then ProcessMissingFields
      else ProcessRequest(fileData, fileName, sessionId)
  }

  /** The metadata record `store_document` writes. */
  function MetadataRecord(docId: string, sessionId: Value, filename: Value, pdfKey: string,
                          rawText: string, data: Value, now: string): Record
  {
    map["id" := Str(docId), "session_id" := sessionId, "filename" := filename,
        "s3_location" := Str(pdfKey), "raw_text" := Str(rawText), "structured_data" := data,
        "timestamp" := Str(now)]
  }

  function DocIdOf(sessionId: Value, fileName: Value, env: Env): string
  {
    env.md5(PyStr(sessionId, env.repr) + "_" + PyStr(fileName, env.repr))
  }

  /** The bucket and the response after `process_document`. */
  function ProcessSpec(objects: map<string, StoredObject>, event: Record, env: Env): (r: (Response, map<string, StoredObject>))
    ensures r.0.statusCode in {200, 400, 500}
    ensures r.0.statusCode != 200 ==> r.1 == objects
    ensures objects.Keys <= r.1.Keys
  {
    match ParseProcess(event, env)
    case ProcessBadBody => (SERVER_ERROR, objects)
    case ProcessMissingFields => (ErrorResponse(400, "Missing required fields: file_data and file_name"), objects)
    case ProcessRequest(fileData, fileName, sid) =>
      match env.b64decode(fileData)
      case None => (SERVER_ERROR, objects)
      case Some(content) =>
        var rawText := env.pdfText(content);
        var data := ExtractStructuredData(rawText, env);
        var s := PyStr(sid, env.repr);
        var docId := DocIdOf(sid, fileName, env);
        var pdfKey := DocumentKey(s, PyStr(fileName, env.repr));
        var meta := MetadataRecord(docId, sid, fileName, pdfKey, rawText, data, env.now);
        (Response(200, JsonBody(map["success" := Bool(true), "document_id" := Str(docId), "session_id" := sid,
                                    "structured_data" := data, "raw_text" := Str(rawText), "file_data" := fileData])),
         objects[pdfKey := Blob(content)][MetadataKey(s, docId) := Metadata(meta)])
  }

  /** `store_document`: the file under `documents/`, then its metadata under `metadata/`. */
  method StoreDocument(b: Bucket, content: seq<bv8>, fileName: Value, sessionId: Value,
                       rawText: string, data: Value, env: Env) returns (docId: string)
    modifies b
    ensures docId == DocIdOf(sessionId, fileName, env)
    ensures var pdfKey := DocumentKey(PyStr(sessionId, env.repr), PyStr(fileName, env.repr));
      b.objects == old(b.objects)[pdfKey := Blob(content)]
        [MetadataKey(PyStr(sessionId, env.repr), docId) := Metadata(MetadataRecord(docId, sessionId, fileName, pdfKey, rawText, data, env.now))]
  {
    docId := DocIdOf(sessionId, fileName, env);
    var s := PyStr(sessionId, env.repr);
    var pdfKey := DocumentKey(s, PyStr(fileName, env.repr));
    b.Put(pdfKey, Blob(content));
    b.Put(MetadataKey(s, docId), Metadata(MetadataRecord(docId, sessionId, fileName, pdfKey, rawText, data, env.now)));
  }

  method ProcessDocument(b: Bucket, event: Record, env: Env) returns (r: Response)
    modifies b
    ensures (r, b.objects) == ProcessSpec(old(b.objects), event, env)
  {
    var req := ParseProcess(event, env);
    if req.ProcessBadBody? {
      return SERVER_ERROR;
    } else if req.ProcessMissingFields? {
      return ErrorResponse(400, "Missing required fields: file_data and file_name");
    }
    var content := env.b64decode(req.fileData);
    if content.None? {
      return SERVER_ERROR;
    }
    var rawText := env.pdfText(content.value);
    var data := ExtractStructuredData(rawText, env);
    var docId := StoreDocument(b, content.value, req.fileName, req.sessionId, rawText, data, env);
    r := Response(200, JsonBody(map["success" := Bool(true), "document_id" := Str(docId), "session_id" := req.sessionId,
                                    "structured_data" := data, "raw_text" := Str(rawText), "file_data" := req.fileData]));
  }

  /* --------------------------------------------------------- update_document */

  datatype UpdateRequest =
    | UpdateBadBody
    | UpdateMissingFields
    | UpdateRequest(documentId: Value, key: string, data: Value)

  function ParseUpdate(event: Record, env: Env): UpdateRequest
  {
    match RequestBody(event, env)
    case Raised => UpdateBadBody
    case Done(body) =>
      var documentId := GetOr(body, "document_id", Null);
      var sessionId := GetOr(body, "session_id", Null);
      var data := GetOr(body, "structured_data", Null);
      if !(Truthy(documentId) && Truthy(sessionId) && Truthy(data)) then UpdateMissingFields
      else UpdateRequest(documentId, MetadataKey(PyStr(sessionId, env.repr), PyStr(documentId, env.repr)), data)
  }

  function UpdateSpec(objects: map<string, StoredObject>, event: Record, env: Env): (r: (Response, map<string, StoredObject>))
    ensures r.0.statusCode in {200, 400, 404, 500}
    ensures r.0.statusCode != 200 ==> r.1 == objects
    ensures r.1.Keys == objects.Keys
  {
    match ParseUpdate(event, env)
    case UpdateBadBody => (SERVER_ERROR, objects)
    case UpdateMissingFields => (ErrorResponse(400, "Missing required fields: document_id, session_id, structured_data"), objects)
    case UpdateRequest(documentId, key, data) =>
      if key !in objects then (ErrorResponse(404, "Document not found"), objects)
      else
        match Load(objects[key], env)
        case Some(Obj(m)) =>
          (Response(200, JsonBody(map["success" := Bool(true), "message" := Str("Document updated successfully"),
                                      "document_id" := documentId])),
           objects[key := Metadata(m["structured_data" := data]["updated_at" := Str(env.now)])])
        case _ => (SERVER_ERROR, objects)
  }

  /** `update_document`: a read-modify-write of one metadata record. */
  method UpdateDocument(b: Bucket, event: Record, env: Env) returns (r: Response)
    modifies b
    ensures (r, b.objects) == UpdateSpec(old(b.objects), event, env)
  {
    var req := ParseUpdate(event, env);
    if req.UpdateBadBody? {
      return SERVER_ERROR;
    } else if req.UpdateMissingFields? {
      return ErrorResponse(400, "Missing required fields: document_id, session_id, structured_data");
    }
    if req.key !in b.objects {
      return ErrorResponse(404, "Document not found");
    }
    var stored := Load(b.objects[req.key], env);
    if !(stored.Some? && stored.value.Obj?) {
      return SERVER_ERROR;
    }
    var metadata := stored.value.fields;
    metadata := metadata["structured_data" := req.data];
    metadata := metadata["updated_at" := Str(env.now)];
    b.Put(req.key, Metadata(metadata));
    r := Response(200, JsonBody(map["success" := Bool(true), "message" := Str("Document updated successfully"),
                                    "document_id" := req.documentId]));
  }

  /* ---------------------------------------------------- get_session_documents */

  /** `json.loads` of a stored object's body: metadata decodes to its record, an
      uploaded file to whatever its bytes parse as, if anything. */
  function Load(obj: StoredObject, env: Env): Option<Value>
  {
    match obj
    case Metadata(record) => Some(Obj(record))
    case Blob(data) => env.loadBytes(data)
  }

  predicate AllLoad(objects: map<string, StoredObject>, prefix: string, env: Env)
  {
    forall k :: k in objects && IsPrefix(prefix, k) ==> Load(objects[k], env).Some?
  }

  /** `docs` holds one decoded record per key under `prefix`, in the listing `order`. */
  ghost predicate IsListing(objects: map<string, StoredObject>, prefix: string, env: Env, order: seq<string>, docs: seq<Value>)
  {
    && (forall i, j :: 0 <= i < j < |order| ==> order[i] != order[j])
    && (forall k :: k in order <==> k in KeysUnder(objects, prefix))
    && |docs| == |order|
    && (forall i :: 0 <= i < |order| ==> order[i] in objects && Load(objects[order[i]], env) == Some(docs[i]))
  }

  /** `get_session_documents`: every metadata object of the session, decoded, in the
      order the listing returns them (left open here); `[]` as soon as one fails to decode. */
  method GetSessionDocuments(b: Bucket, sessionId: string, env: Env) returns (docs: seq<Value>, ghost order: seq<string>)
    ensures AllLoad(b.objects, MetadataPrefix(sessionId), env) ==> IsListing(b.objects, MetadataPrefix(sessionId), env, order, docs)
    ensures !AllLoad(b.objects, MetadataPrefix(sessionId), env) ==> docs == []
  {
    var prefix := MetadataPrefix(sessionId);
    var remaining := KeysUnder(b.objects, prefix);
    docs, order := [], [];
    while remaining != {}
      invariant remaining <= KeysUnder(b.objects, prefix)
      invariant forall k :: k in order <==> k in KeysUnder(b.objects, prefix) && k !in remaining
      invariant forall i, j :: 0 <= i < j < |order| ==> order[i] != order[j]
      invariant |docs| == |order|
      invariant forall i :: 0 <= i < |order| ==> order[i] in b.objects && Load(b.objects[order[i]], env) == Some(docs[i])
      decreases |remaining|
    {
      var k :| k in remaining;
      var loaded := Load(b.objects[k], env);
      if loaded.None? {
        return [], order;
      }
      docs := docs + [loaded.value];
      order := order + [k];
      remaining := remaining - {k};
    }
    forall k | k in b.objects && IsPrefix(prefix, k)
      ensures Load(b.objects[k], env).Some?
    {
      assert k in KeysUnder(b.objects, prefix);
      var i :| 0 <= i < |order| && order[i] == k;
    }
  }

  /* ------------------------------------------------------------ handle_chat */

  datatype ChatRequest =
    | ChatBadBody
    | ChatMissingFields
    | ChatRequest(message: Value, sessionId: Value)

  function ParseChat(event: Record, env: Env): ChatRequest
  {
    match RequestBody(event, env)
    case Raised => ChatBadBody
    case Done(body) =>
      var message := GetOr(body, "message", Null);
      var sessionId := GetOr(body, "session_id", Null);
      if !(Truthy(message) && Truthy(sessionId)) then ChatMissingFields else ChatRequest(message, sessionId)
  }

  /** `{'filename': doc['filename'], 'data': doc['structured_data']}` per document; a
      document that is not a dict with both keys raises. */
  function ChatContext(docs: seq<Value>): Outcome<seq<Record>>
  {
    if docs == [] then Done([])
    else
      var d := docs[0];
      if !d.Obj? || "filename" !in d.fields || "structured_data" !in d.fields then Raised
      else
        match ChatContext(docs[1..])
        case Raised => Raised
        case Done(rest) => Done([map["filename" := d.fields["filename"], "data" := d.fields["structured_data"]]] + rest)
  }

  /** The response of `handle_chat` given the documents the listing produced. */
  function ChatResponse(req: ChatRequest, docs: seq<Value>, env: Env): (r: Response)
    ensures r.statusCode == 200 <==> req.ChatRequest? && (docs == [] || ChatContext(docs).Done?)
    ensures r.statusCode == 400 <==> req.ChatMissingFields?
    ensures r.statusCode != 200 && r.statusCode != 400 ==> r == SERVER_ERROR
  {
    match req
    case ChatBadBody => SERVER_ERROR
    case ChatMissingFields => ErrorResponse(400, "Missing message or session_id")
    case ChatRequest(message, sessionId) =>
      if docs == [] then Response(200, JsonBody(map["success" := Bool(true), "response" := Str(NO_SESSION_DOCUMENTS)]))
      else
        match ChatContext(docs)
        case Raised => SERVER_ERROR
        case Done(context) =>
          Response(200, JsonBody(map["success" := Bool(true), "response" := Str(env.respond(message, context)),
                                     "session_id" := sessionId]))
  }

  method HandleChat(b: Bucket, event: Record, env: Env) returns (r: Response, ghost docs: seq<Value>, ghost order: seq<string>)
    ensures var req := ParseChat(event, env);
      && r == ChatResponse(req, docs, env)
      && (req.ChatRequest? ==>
            var prefix := MetadataPrefix(PyStr(req.sessionId, env.repr));
            if AllLoad(b.objects, prefix, env) then IsListing(b.objects, prefix, env, order, docs) else docs == [])
  {
    var req := ParseChat(event, env);
    docs, order := [], [];
    if req.ChatBadBody? {
      return SERVER_ERROR, docs, order;
    } else if req.ChatMissingFields? {
      return ErrorResponse(400, "Missing message or session_id"), docs, order;
    }
    var found;
    found, order := GetSessionDocuments(b, PyStr(req.sessionId, env.repr), env);
    docs := found;
    if found == [] {
      return Response(200, JsonBody(map["success" := Bool(true), "response" := Str(NO_SESSION_DOCUMENTS)])), docs, order;
    }
    var context := ChatContext(found);
    if context.Raised? {
      return SERVER_ERROR, docs, order;
    }
    r := Response(200, JsonBody(map["success" := Bool(true), "response" := Str(env.respond(req.message, context.value)),
                                    "session_id" := req.sessionId]));
  }

  /* --------------------------------------------------------- delete_session */

  datatype DeleteRequest = DeleteBadParameters | DeleteMissingId | DeleteRequest(prefix: string)

  function ParseDelete(event: Record, env: Env): DeleteRequest
  {
    var params := GetOr(event, "pathParameters", Obj(map[]));
    if !params.Obj? then DeleteBadParameters
    else
      var sessionId := GetOr(params.fields, "sessionId", Null);
      if !Truthy(sessionId) then DeleteMissingId else DeleteRequest(SessionPrefix(PyStr(sessionId, env.repr)))
  }

  function DeleteSpec(objects: map<string, StoredObject>, event: Record, env: Env): (r: (Response, map<string, StoredObject>))
    ensures r.0.statusCode in {200, 400, 500}
    ensures r.0.statusCode != 200 ==> r.1 == objects
    ensures r.1.Keys <= objects.Keys && forall k :: k in r.1 ==> r.1[k] == objects[k]
  {
    match ParseDelete(event, env)
    case DeleteBadParameters => (SERVER_ERROR, objects)
    case DeleteMissingId => (ErrorResponse(400, "Missing session ID"), objects)
    case DeleteRequest(prefix) =>
      (Response(200, JsonBody(map["success" := Bool(true), "message" := Str("Session deleted successfully")])),
       map k | k in objects && !IsPrefix(prefix, k) :: objects[k])
  }

  method DeleteSession(b: Bucket, event: Record, env: Env) returns (r: Response)
    modifies b
    ensures (r, b.objects) == DeleteSpec(old(b.objects), event, env)
  {
    var req := ParseDelete(event, env);
    if req.DeleteBadParameters? {
      return SERVER_ERROR;
    } else if req.DeleteMissingId? {
      return ErrorResponse(400, "Missing session ID");
    }
    b.DeletePrefix(req.prefix);
    r := Response(200, JsonBody(map["success" := Bool(true), "message" := Str("Session deleted successfully")]));
  }

  /* ---------------------------------------------------------- lambda_handler */

  method LambdaHandler(b: Bucket, event: Record, env: Env) returns (r: Response, ghost docs: seq<Value>, ghost order: seq<string>)
    modifies b
    ensures IsOptions(event) ==> r == Response(200, NoBody) && b.objects == old(b.objects)
    ensures !IsOptions(event) && PathOf(event).None? ==> r == SERVER_ERROR && b.objects == old(b.objects)
    ensures !IsOptions(event) && PathOf(event).Some? ==>
      match RouteOf(PathOf(event).value, GetOr(event, "httpMethod", Str("")))
      case ProcessDocumentEndpoint => (r, b.objects) == ProcessSpec(old(b.objects), event, env)
      case UpdateDocumentEndpoint => (r, b.objects) == UpdateSpec(old(b.objects), event, env)
      case ChatEndpoint =>
        var req := ParseChat(event, env);
        && r == ChatResponse(req, docs, env) && b.objects == old(b.objects)
        && (req.ChatRequest? ==>
              var prefix := MetadataPrefix(PyStr(req.sessionId, env.repr));
              if AllLoad(b.objects, prefix, env) then IsListing(b.objects, prefix, env, order, docs) else docs == [])
      case DeleteSessionEndpoint => (r, b.objects) == DeleteSpec(old(b.objects), event, env)
      case NotFound => r == ErrorResponse(404, "Endpoint not found") && b.objects == old(b.objects)
  {
    docs, order := [], [];
    if IsOptions(event) {
      return Response(200, NoBody), docs, order;
    }
    var path := PathOf(event);
    if path.None? {
      return SERVER_ERROR, docs, order;
    }
    var endpoint := RouteOf(path.value, GetOr(event, "httpMethod", Str("")));
    match endpoint {
      case ProcessDocumentEndpoint => r := ProcessDocument(b, event, env);
      case UpdateDocumentEndpoint => r := UpdateDocument(b, event, env);
      case ChatEndpoint => r, docs, order := HandleChat(b, event, env);
      case DeleteSessionEndpoint => r := DeleteSession(b, event, env);
      case NotFound => r := ErrorResponse(404, "Endpoint not found");
    }
  }

  /* ---------------------------------------------------------------- lemmas */

  /** One more trailing slash changes nothing: `rstrip('/')` removes all of them. */
  lemma TrailingSlashIgnored(path: string, httpMethod: Value)
    ensures RouteOf(path + "/", httpMethod) == RouteOf(path, httpMethod)
  {
    assert (path + "/")[..|path|] == path;
  }

  /** The three POST endpoints match the stripped path exactly. */
  lemma PostRoutesAreExact(path: string, httpMethod: Value)
    ensures RouteOf(path, httpMethod) == ProcessDocumentEndpoint <==>
      RStripChar(path, '/') == "/process-document" && httpMethod == Str("POST")
    ensures RouteOf(path, httpMethod) == ChatEndpoint <==>
      RStripChar(path, '/') == "/chat" && httpMethod == Str("POST")
    ensures RouteOf(path, httpMethod) == UpdateDocumentEndpoint <==>
      RStripChar(path, '/') == "/update-document" && httpMethod == Str("POST")
  {
  }

  /** Any path of the form `/session/.../delete` reaches the delete handler with DELETE,
      whatever stands between the two parts. */
  lemma DeleteRoute(middle: string)
    ensures RouteOf("/session/" + middle + "/delete", Str("DELETE")) == DeleteSessionEndpoint
    ensures RouteOf("/session/" + middle + "/delete", Str("POST")) == NotFound
  {
    var p := "/session/" + middle + "/delete";
    assert RStripChar(p, '/') == p;
    assert p[..9] == "/session/";
    assert p[|p| - 7..] == "/delete";
  }

  /** A reply passes `CallModel` only through its first-'{'-to-last-'}' span. */
  lemma CallModelUsesSpan(reply: Option<string>, env: Env)
    ensures CallModel(reply, env).Some? ==>
      reply.Some? && JsonSpan(reply.value).Some? && env.loads(JsonSpan(reply.value).value) == CallModel(reply, env)
    ensures reply.Some? && JsonSpan(reply.value).None? ==> CallModel(reply, env).None?
  {
  }

  /** A first result that is a dict holding the key `vendor_name`, whatever its value,
      is returned as it is, whatever the second model says. */
  lemma NovaResultWins(rawText: string, env: Env, m: map<string, Value>)
    requires CallModel(env.nova(rawText), env) == Some(Obj(m)) && "vendor_name" in m
    ensures ExtractStructuredData(rawText, env) == Obj(m)
  {
  }

  /** A first result without the key hands over to the second model. */
  lemma SonnetSecond(rawText: string, env: Env, m: map<string, Value>)
    requires VendorGate(CallModel(env.nova(rawText), env)) == Done(false)
    requires CallModel(env.sonnet(rawText), env) == Some(Obj(m)) && "vendor_name" in m
    ensures ExtractStructuredData(rawText, env) == Obj(m)
  {
  }

  /** With neither model passing the gate, the fixed default comes back; an empty dict
      or no reply at all never passes it. */
  lemma DefaultLast(rawText: string, env: Env)
    requires VendorGate(CallModel(env.nova(rawText), env)) == Done(false)
    requires VendorGate(CallModel(env.sonnet(rawText), env)) == Done(false)
    ensures ExtractStructuredData(rawText, env) == DEFAULT_EXTRACTION
    ensures VendorGate(Some(Obj(map[]))) == Done(false) && VendorGate(None) == Done(false)
  {
  }

  /** What `json.loads` guarantees of text that starts with `{`: it parses to a dict
      or raises. */
  ghost predicate BracedLoadsAreDicts(env: Env)
  {
    forall s: string :: |s| > 0 && s[0] == '{' && env.loads(s).Some? ==> env.loads(s).value.Obj?
  }

  /** The span `CallModel` parses starts with `{`, so with such a parser a model result
      is always a dict. */
  lemma CallModelGivesDict(reply: Option<string>, env: Env)
    requires BracedLoadsAreDicts(env)
    ensures CallModel(reply, env).Some? ==> CallModel(reply, env).value.Obj?
  {
    if reply.Some? && JsonSpan(reply.value).Some? {
      JsonSpanSpec(reply.value);
      var span := JsonSpan(reply.value).value;
      var a, b :| 0 <= a < b <= |reply.value| && span == reply.value[a..b] && reply.value[a] == '{';
      assert span[0] == '{';
    }
  }

  /** With a real JSON parser neither gate can raise, so `extract_structured_data`
      never returns its `{'error': ...}` record: the answer is always a dict holding
      `vendor_name`. */
  lemma ExtractionHasVendor(rawText: string, env: Env)
    requires BracedLoadsAreDicts(env)
    ensures VendorGate(CallModel(env.nova(rawText), env)).Done?
    ensures VendorGate(CallModel(env.sonnet(rawText), env)).Done?
    ensures var r := ExtractStructuredData(rawText, env); r.Obj? && "vendor_name" in r.fields
  {
    CallModelGivesDict(env.nova(rawText), env);
    CallModelGivesDict(env.sonnet(rawText), env);
  }

  /** Every key written for a session lies under its prefix; the metadata key lies under
      the metadata prefix and the file key does not. */
  lemma KeyLayout(sessionId: string, filename: string, documentId: string)
    ensures IsPrefix(SessionPrefix(sessionId), DocumentKey(sessionId, filename))
    ensures IsPrefix(SessionPrefix(sessionId), MetadataKey(sessionId, documentId))
    ensures IsPrefix(MetadataPrefix(sessionId), MetadataKey(sessionId, documentId))
    ensures IsPrefix(SessionPrefix(sessionId), MetadataPrefix(sessionId))
    ensures !IsPrefix(MetadataPrefix(sessionId), DocumentKey(sessionId, filename))
  {
    var n := |SessionPrefix(sessionId)|;
    assert DocumentKey(sessionId, filename)[..n] == SessionPrefix(sessionId);
    assert MetadataKey(sessionId, documentId)[..n] == SessionPrefix(sessionId);
    assert MetadataKey(sessionId, documentId)[..n + 9] == MetadataPrefix(sessionId);
    assert MetadataPrefix(sessionId)[..n] == SessionPrefix(sessionId);
    assert DocumentKey(sessionId, filename)[n] == 'd';
    assert MetadataPrefix(sessionId)[n] == 'm';
  }

  /** What a key under a session prefix looks like around the session id. */
  lemma SessionPrefixChars(sessionId: string, k: string)
    ensures IsPrefix(SessionPrefix(sessionId), k) ==>
      && |k| > 9 + |sessionId| && k[9 + |sessionId|] == '/'
      && forall i :: 0 <= i < |sessionId| ==> k[9 + i] == sessionId[i]
  {
    if IsPrefix(SessionPrefix(sessionId), k) {
      assert forall i :: 0 <= i < |sessionId| ==> SessionPrefix(sessionId)[9 + i] == sessionId[i];
    }
  }

  /** Two different session ids without '/' have no key in common. */
  lemma SessionsDisjoint(a: string, b: string, k: string)
    requires '/' !in a && '/' !in b && a != b
    ensures !(IsPrefix(SessionPrefix(a), k) && IsPrefix(SessionPrefix(b), k))
  {
    SessionPrefixChars(a, k);
    SessionPrefixChars(b, k);
  }

  /** A session id with a '/' breaks that isolation: the file of session `x/metadata`
      is listed as metadata of session `x`. */
  lemma SlashedIdOverlaps(filename: string)
    ensures IsPrefix(MetadataPrefix("x"), DocumentKey("x/metadata", filename))
  {
    assert DocumentKey("x/metadata", filename)[..|MetadataPrefix("x")|] == MetadataPrefix("x");
  }

  /** A stored file whose bytes do not parse as JSON under a session's metadata prefix
      (a PDF of session `x/metadata` under `x`'s, say) makes the listing give up. */
  lemma BlobSpoilsListing(objects: map<string, StoredObject>, sessionId: string, env: Env, k: string)
    requires k in objects && objects[k].Blob? && env.loadBytes(objects[k].data).None?
    requires IsPrefix(MetadataPrefix(sessionId), k)
    ensures !AllLoad(objects, MetadataPrefix(sessionId), env)
  {
  }

  /** `process_document` answers 400 and writes nothing when the file data or the file
      name is falsy. */
  lemma ProcessRefusesMissingFields(objects: map<string, StoredObject>, event: Record, env: Env, body: Record)
    requires RequestBody(event, env) == Done(body)
    requires !Truthy(GetOr(body, "file_data", Null)) || !Truthy(GetOr(body, "file_name", Null))
    ensures ProcessSpec(objects, event, env) ==
      (ErrorResponse(400, "Missing required fields: file_data and file_name"), objects)
  {
  }

  /** A successful upload writes exactly the file key and the metadata key, both under
      the session prefix, and the metadata decodes from the session's listing; with no
      session id given, the generated one is used and returned. */
  lemma ProcessWritesSession(objects: map<string, StoredObject>, event: Record, env: Env)
    requires ParseProcess(event, env).ProcessRequest?
    requires env.b64decode(ParseProcess(event, env).fileData).Some?
    ensures var req := ParseProcess(event, env);
      var s := PyStr(req.sessionId, env.repr);
      var after := ProcessSpec(objects, event, env).1;
      && ProcessSpec(objects, event, env).0.statusCode == 200
      && (forall k :: k in after && (k !in objects || after[k] != objects[k]) ==> IsPrefix(SessionPrefix(s), k))
      && (forall k :: k in objects ==> k in after)
      && MetadataKey(s, DocIdOf(req.sessionId, req.fileName, env)) in KeysUnder(after, MetadataPrefix(s))
      && Load(after[MetadataKey(s, DocIdOf(req.sessionId, req.fileName, env))], env).Some?
    ensures var body := RequestBody(event, env).value;
      !Truthy(GetOr(body, "session_id", Null)) ==> ParseProcess(event, env).sessionId == Str(env.uuid)
  {
    var req := ParseProcess(event, env);
    var s := PyStr(req.sessionId, env.repr);
    KeyLayout(s, PyStr(req.fileName, env.repr), DocIdOf(req.sessionId, req.fileName, env));
  }

  /** `update_document` with an empty `structured_data` dict is refused with 400. */
  lemma EmptyUpdateRefused(objects: map<string, StoredObject>, event: Record, env: Env, body: Record)
    requires RequestBody(event, env) == Done(body)
    requires GetOr(body, "structured_data", Null) == Obj(map[])
    ensures UpdateSpec(objects, event, env).0.statusCode == 400
    ensures UpdateSpec(objects, event, env).1 == objects
  {
  }

  /** A successful update rewrites one metadata record, changing only `structured_data`
      and `updated_at`; a missing record gives 404, and an object that does not decode
      to a dict gives 500, both without a change. */
  lemma UpdateTouchesOneRecord(objects: map<string, StoredObject>, event: Record, env: Env)
    requires ParseUpdate(event, env).UpdateRequest?
    ensures var req := ParseUpdate(event, env);
      var (r, after) := UpdateSpec(objects, event, env);
      && (req.key !in objects ==> r == ErrorResponse(404, "Document not found") && after == objects)
      && (req.key in objects && !(Load(objects[req.key], env).Some? && Load(objects[req.key], env).value.Obj?) ==>
            r == SERVER_ERROR && after == objects)
      && (req.key in objects && Load(objects[req.key], env).Some? && Load(objects[req.key], env).value.Obj? ==>
            var before := Load(objects[req.key], env).value.fields;
            && r.statusCode == 200
            && after.Keys == objects.Keys
            && (forall k :: k in objects && k != req.key ==> after[k] == objects[k])
            && after[req.key].Metadata?
            && after[req.key].record.Keys == before.Keys + {"structured_data", "updated_at"}
            && after[req.key].record["structured_data"] == req.data
            && after[req.key].record["updated_at"] == Str(env.now)
            && (forall f :: f in before && f != "structured_data" && f != "updated_at" ==> after[req.key].record[f] == before[f]))
  {
  }

  lemma PrefixOfLonger(p: string, q: string, k: string)
    ensures IsPrefix(p + q, k) ==> IsPrefix(p, k)
  {
    if IsPrefix(p + q, k) {
      assert k[..|p|] == (p + q)[..|p|];
    }
  }

  /** Deleting a session removes exactly the keys under its prefix, so its metadata
      listing is empty afterwards, and keeps every other object as it was. */
  lemma DeleteRemovesPrefix(objects: map<string, StoredObject>, event: Record, env: Env)
    requires ParseDelete(event, env).DeleteRequest?
    ensures var prefix := ParseDelete(event, env).prefix;
      var after := DeleteSpec(objects, event, env).1;
      && (forall k :: k in after <==> k in objects && !IsPrefix(prefix, k))
      && (forall k :: k in after ==> after[k] == objects[k])
      && KeysUnder(after, prefix) == {}
      && KeysUnder(after, prefix + "metadata/") == {}
  {
    var prefix := ParseDelete(event, env).prefix;
    var after := DeleteSpec(objects, event, env).1;
    forall k | k in after
      ensures !IsPrefix(prefix + "metadata/", k)
    {
      PrefixOfLonger(prefix, "metadata/", k);
    }
  }

  /** The chat context holds the file name and data of every listed document, in order,
      or the request fails. */
  lemma {:induction false} ChatContextSpec(docs: seq<Value>)
    ensures ChatContext(docs).Done? <==>
      forall i :: 0 <= i < |docs| ==> docs[i].Obj? && "filename" in docs[i].fields && "structured_data" in docs[i].fields
    ensures ChatContext(docs).Done? ==>
      var ctx := ChatContext(docs).value;
      |ctx| == |docs| &&
      forall i :: 0 <= i < |docs| ==>
        ctx[i] == map["filename" := docs[i].fields["filename"], "data" := docs[i].fields["structured_data"]]
    decreases |docs|
  {
    if docs != [] {
      ChatContextSpec(docs[1..]);
      assert forall i :: 1 <= i < |docs| ==> docs[i] == docs[1..][i - 1];
    }
  }

  /** A chat request on a session with no decodable documents gets the fixed answer. */
  lemma ChatWithoutDocuments(event: Record, env: Env)
    requires ParseChat(event, env).ChatRequest?
    ensures ChatResponse(ParseChat(event, env), [], env) ==
      Response(200, JsonBody(map["success" := Bool(true), "response" := Str(NO_SESSION_DOCUMENTS)]))
  {
  }
}
