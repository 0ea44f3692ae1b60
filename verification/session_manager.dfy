/**
 * The in-memory session store of backend/clients/session_manager.py.
 *
 * A session holds the invoices a user uploaded and one searchable text per invoice.
 * Sessions live in a dict keyed by id; `expires_at` is fixed at creation, reads only
 * touch `last_accessed`, and a periodic sweep removes sessions whose expiry has passed.
 * The lock and the sweeping thread become sequential method calls; the clock and the
 * fresh uuid are parameters. TF-IDF embeddings are not modelled.
 */
module SessionManager {
  import opened Json
  import opened Text

  /** Seconds a session lives after creation. */
  const SESSION_TIMEOUT: int := 7200
  /** Seconds between two sweeps of the cleanup thread. */
  const CLEANUP_INTERVAL: int := 300
  /** Number of raw-text characters kept in a searchable text. */
  const RAW_TEXT_LIMIT: nat := 1000

  datatype Session = Session(
    id: string,
    invoices: seq<Record>,
    texts: seq<string>,
    createdAt: int,
    expiresAt: int,
    lastAccessed: int)

  /** The session `create_session` stores. */
  function NewSession(id: string, invoices: seq<Record>, texts: seq<string>, now: int): Session
  {
    Session(id, invoices, texts, now, now + SESSION_TIMEOUT, now)
  }

  predicate Expired(s: Session, now: int)
  {
    now > s.expiresAt
  }

  /** The store after one sweep at time `now`. */
  function Sweep(sessions: map<string, Session>, now: int): (r: map<string, Session>)
    ensures r.Keys <= sessions.Keys
    ensures forall id :: id in r ==> r[id] == sessions[id] && !Expired(r[id], now)
    ensures forall id :: id in sessions && !Expired(sessions[id], now) ==> id in r
  {
    map id | id in sessions && !Expired(sessions[id], now) :: sessions[id]
  }

  /** `raw_text.replace('\n', ' ').replace('\r', ' ')[:1000]` */
  function CleanRawText(raw: string): (r: string)
    ensures |r| == if |raw| < RAW_TEXT_LIMIT then |raw| else RAW_TEXT_LIMIT
    ensures forall i :: 0 <= i < |r| ==> r[i] != '\n' && r[i] != '\r'
    ensures forall i :: 0 <= i < |r| && raw[i] != '\n' && raw[i] != '\r' ==> r[i] == raw[i]
    ensures forall i :: 0 <= i < |r| && (raw[i] == '\n' || raw[i] == '\r') ==> r[i] == ' '
  {
    var n := if |raw| < RAW_TEXT_LIMIT then |raw| else RAW_TEXT_LIMIT;
    seq(n, i requires 0 <= i < n => if raw[i] == '\n' || raw[i] == '\r' then ' ' else raw[i])
  }

  /** The "Item <description>" parts of the line items; a line item that is not a
      dict raises AttributeError on `.get`. */
  function ItemParts(items: seq<Value>, repr: Value -> string): Outcome<seq<string>>
  {
    if items == [] then Done([])
    else if !items[0].Obj? then Raised
    else
      var desc := GetOr(items[0].fields, "description", Str(""));
      match ItemParts(items[1..], repr)
      case Raised => Raised
      case Done(rest) => Done((if Truthy(desc) then ["Item " + PyStr(desc, repr)] else []) + rest)
  }

  /** The parts built from a truthy `structured_data`. */
  function StructuredParts(sd: Value, repr: Value -> string): Outcome<seq<string>>
  {
    if !Truthy(sd) then Done([])
    else if !sd.Obj? then Raised
    else
      var data := sd.fields;
      var head := [
        "Vendor " + PyStr(GetOr(data, "vendor_name", Str("")), repr),
        "Invoice " + PyStr(GetOr(data, "invoice_number", Str("")), repr),
        "Amount " + PyStr(GetOr(data, "total_amount", Num(0.0)), repr) + " dollars",
        "Date " + PyStr(GetOr(data, "date", Str("")), repr),
        "Terms " + PyStr(GetOr(data, "payment_terms", Str("")), repr)];
      var items := Get(data, "line_items");
      if !Truthy(items) then Done(head)
      else if !items.List? then Raised
      else
        match ItemParts(items.items, repr)
        case Raised => Raised
        case Done(ps) => Done(head + ps)
  }

  /** All text parts of one invoice, before joining. */
  function TextParts(inv: Record, repr: Value -> string): Outcome<seq<string>>
  {
    var raw := GetOr(inv, "raw_text", Str(""));
    var name := GetOr(inv, "document_name", Str(""));
    match StructuredParts(Get(inv, "structured_data"), repr)
    case Raised => Raised
    case Done(ps) =>
      if Truthy(raw) && !raw.Str? then Raised
      else
        var rawPart := if Truthy(raw) then [CleanRawText(raw.s)] else [];
        var namePart := if Truthy(name) then ["Document " + PyStr(name, repr)] else [];
        Done(ps + rawPart + namePart)
  }

  const FALLBACK_TEXT: string := "Document Unknown invoice data"

  /** The searchable text of one invoice: its parts joined by spaces and stripped,
      or a fallback when that is empty. */
  function SearchText(inv: Record, repr: Value -> string): Outcome<string>
  {
    match TextParts(inv, repr)
    case Raised => Raised
    case Done(parts) =>
      var full := Strip(JoinWith(parts, ' '));
      if full != "" then Done(full)
      else
        var name := GetOr(inv, "document_name", Str(""));
        Done("Document " + (if Truthy(name) then PyStr(name, repr) else "Unknown") + " invoice data")
  }

  /** The texts of a list of invoices, in order; raises if any invoice raises. */
  function SearchTexts(invs: seq<Record>, repr: Value -> string): (r: Outcome<seq<string>>)
    ensures r.Done? <==> forall i :: 0 <= i < |invs| ==> SearchText(invs[i], repr).Done?
    ensures r.Done? ==> |r.value| == |invs|
  {
    var f := inv => SearchText(inv, repr);
    MapAllDone(invs, f);
    if MapAll(invs, f).Done? then MapAllPointwise(invs, f); MapAll(invs, f) else MapAll(invs, f)
  }

  /** Text building raises exactly when the text of some invoice raises, and otherwise
      yields one text per invoice, the i-th from the i-th invoice. */
  lemma SearchTextsPointwise(invs: seq<Record>, repr: Value -> string)
    ensures SearchTexts(invs, repr).Done? <==> forall i :: 0 <= i < |invs| ==> SearchText(invs[i], repr).Done?
    ensures SearchTexts(invs, repr).Done? ==>
      |SearchTexts(invs, repr).value| == |invs|
      && forall i :: 0 <= i < |invs| ==> SearchText(invs[i], repr) == Done(SearchTexts(invs, repr).value[i])
  {
    var f := inv => SearchText(inv, repr);
    MapAllDone(invs, f);
    if SearchTexts(invs, repr).Done? {
      MapAllPointwise(invs, f);
    }
  }

  lemma {:induction false} JoinEndsWithLast(parts: seq<string>, sep: char)
    requires |parts| >= 1
    ensures IsSuffix(parts[|parts| - 1], JoinWith(parts, sep))
    decreases |parts|
  {
    if |parts| > 1 {
      JoinEndsWithLast(parts[1..], sep);
    }
  }

  lemma StripEmptyMeansBlank(s: string)
    requires Strip(s) == ""
    ensures forall i :: 0 <= i < |s| ==> IsSpace(s[i])
  {
    assert StripLeft(s) == [];
  }

  /** Text parts that end with a part starting with a non-space never join to blank. */
  lemma LastPartKeepsTextNonBlank(parts: seq<string>, last: string)
    requires |parts| >= 1 && parts[|parts| - 1] == last
    requires last != [] && !IsSpace(last[0])
    ensures Strip(JoinWith(parts, ' ')) != ""
  {
    var joined := JoinWith(parts, ' ');
    JoinEndsWithLast(parts, ' ');
    if Strip(joined) == "" {
      StripEmptyMeansBlank(joined);
      assert false;
    }
  }

  /** The fallback text is only reached when the invoice has no truthy document name,
      so it always reads "Document Unknown invoice data". */
  lemma FallbackTextIsUnknown(inv: Record, repr: Value -> string)
    requires TextParts(inv, repr).Done?
    requires Strip(JoinWith(TextParts(inv, repr).value, ' ')) == ""
    ensures SearchText(inv, repr) == Done(FALLBACK_TEXT)
  {
    BlankTextHasNoName(inv, repr);
    assert "Document " + "Unknown" + " invoice data" == FALLBACK_TEXT;
  }

  /** A truthy document name would leave the joined text non-blank. */
  lemma BlankTextHasNoName(inv: Record, repr: Value -> string)
    requires TextParts(inv, repr).Done?
    requires Strip(JoinWith(TextParts(inv, repr).value, ' ')) == ""
    ensures !Truthy(GetOr(inv, "document_name", Str("")))
  {
    var name := GetOr(inv, "document_name", Str(""));
    if Truthy(name) {
      var parts := TextParts(inv, repr).value;
      var last := "Document " + PyStr(name, repr);
      assert parts[|parts| - 1] == last;
      LastPartKeepsTextNonBlank(parts, last);
    }
  }

  /** An invoice carrying nothing usable gets the fallback text. */
  lemma EmptyInvoiceText(repr: Value -> string)
    ensures SearchText(map[], repr) == Done(FALLBACK_TEXT)
  {
    var inv: Record := map[];
    assert StructuredParts(Get(inv, "structured_data"), repr) == Done([]);
    assert TextParts(inv, repr).Done?;
    assert TextParts(inv, repr).value == [];
    assert JoinWith([], ' ') == "";
    FallbackTextIsUnknown(inv, repr);
  }

  class SessionStore {
    var sessions: map<string, Session>

    constructor ()
      ensures sessions == map[]
    {
      sessions := map[];
    }

    /** `_generate_embeddings`, text half: one text per invoice, in order. */
    static method BuildSearchTexts(invoices: seq<Record>, repr: Value -> string) returns (r: Outcome<seq<string>>)
      ensures r == SearchTexts(invoices, repr)
    {
      var texts: seq<string> := [];
      var i := 0;
      while i < |invoices|
        invariant 0 <= i <= |invoices|
        invariant SearchTexts(invoices[..i], repr) == Done(texts)
      {
        assert invoices[..i + 1][..i] == invoices[..i];
        var t := SearchText(invoices[i], repr);
        if t.Raised? {
          SearchTextsPointwise(invoices, repr);
          return Raised;
        }
        texts := texts + [t.value];
        i := i + 1;
      }
      assert invoices[..i] == invoices;
      r := Done(texts);
    }

    /** `create_session`: stores a session under the fresh id with the given invoices
        and their texts, expiring SESSION_TIMEOUT seconds after `now`. */
    method CreateSession(invoices: seq<Record>, freshId: string, now: int, repr: Value -> string)
      returns (r: Outcome<string>)
      modifies this
      ensures r.Done? <==> SearchTexts(invoices, repr).Done?
      ensures r.Done? ==>
        r.value == freshId && sessions == old(sessions)[freshId := NewSession(freshId, invoices, SearchTexts(invoices, repr).value, now)]
      ensures r.Done? && freshId !in old(sessions) ==> |sessions| == |old(sessions)| + 1
      ensures r.Raised? ==> sessions == old(sessions)
    {
      var texts := BuildSearchTexts(invoices, repr);
      if texts.Raised? {
        return Raised;
      }
      sessions := sessions[freshId := NewSession(freshId, invoices, texts.value, now)];
      r := Done(freshId);
    }

    /** `get_session`: returns the session and refreshes only its `last_accessed`.
        Expiry is not checked. */
    method GetSession(id: string, now: int) returns (r: Option<Session>)
      modifies this
      ensures id in old(sessions) ==>
        r == Some(old(sessions)[id].(lastAccessed := now))
        && sessions == old(sessions)[id := old(sessions)[id].(lastAccessed := now)]
      ensures id !in old(sessions) ==> r == None && sessions == old(sessions)
    {
      if id in sessions {
        var s := sessions[id].(lastAccessed := now);
        sessions := sessions[id := s];
        return Some(s);
      }
      return None;
    }

    /** `delete_session`: removes exactly that key; reports whether it was there. */
    method DeleteSession(id: string) returns (deleted: bool)
      modifies this
      ensures deleted == (id in old(sessions))
      ensures sessions == old(sessions) - {id}
      ensures deleted ==> |sessions| == |old(sessions)| - 1
    {
      if id in sessions {
        sessions := sessions - {id};
        return true;
      }
      return false;
    }

    /** The first half of `_cleanup_expired_sessions`, run under the lock: the ids of
        the sessions whose expiry lies strictly before `now`. */
    method ExpiredIds(now: int) returns (expired: set<string>)
      ensures forall id :: id in expired <==> id in sessions && Expired(sessions[id], now)
    {
      expired := {};
      var pending := sessions.Keys;
      while pending != {}
        invariant pending <= sessions.Keys
        invariant forall x :: x in expired <==> x in sessions && x !in pending && Expired(sessions[x], now)
        decreases pending
      {
        var id :| id in pending;
        if Expired(sessions[id], now) {
          expired := expired + {id};
        }
        pending := pending - {id};
      }
    }

    /** `_cleanup_expired_sessions`: collects the expired ids, then deletes each. */
    method CleanupExpiredSessions(now: int)
      modifies this
      ensures sessions == Sweep(old(sessions), now)
    {
      var snap := sessions;
      var expired := ExpiredIds(now);
      var toDelete := expired;
      while toDelete != {}
        invariant toDelete <= expired
        invariant sessions == snap - (expired - toDelete)
        decreases toDelete
      {
        var id :| id in toDelete;
        var _ := DeleteSession(id);
        RemoveOneMore(snap, expired, toDelete, id);
        toDelete := toDelete - {id};
      }
      SweepRemovesExpired(snap, now, expired);
    }

    /** `get_session_count` */
    method GetSessionCount() returns (n: nat)
      ensures n == |sessions|
    {
      n := |sessions|;
    }
  }

  lemma RemoveOneMore(m: map<string, Session>, all: set<string>, left: set<string>, id: string)
    requires id in left && left <= all
    ensures m - (all - left) - {id} == m - (all - (left - {id}))
  {
    assert (m - (all - left) - {id}).Keys == (m - (all - (left - {id}))).Keys;
  }

  lemma SweepRemovesExpired(m: map<string, Session>, now: int, expired: set<string>)
    requires forall id :: id in expired <==> id in m && Expired(m[id], now)
    ensures Sweep(m, now) == m - expired
  {
    assert Sweep(m, now).Keys == (m - expired).Keys;
  }

  /** The sweep keeps exactly the sessions that have not expired; a session whose
      expiry equals `now` survives, and survivors are unchanged. */
  lemma SweepKeepsUnexpired(sessions: map<string, Session>, now: int, id: string)
    ensures id in Sweep(sessions, now) <==> id in sessions && now <= sessions[id].expiresAt
    ensures id in Sweep(sessions, now) ==> Sweep(sessions, now)[id] == sessions[id]
  {
  }

  /** Deleting twice: the first call reports the session, the second reports nothing,
      and the id is gone afterwards. */
  method DeleteTwice(store: SessionStore, id: string) returns (first: bool, second: bool)
    modifies store
    ensures first == (id in old(store.sessions))
    ensures !second
    ensures id !in store.sessions
  {
    first := store.DeleteSession(id);
    second := store.DeleteSession(id);
  }

  /** A session past its expiry is still returned by `get_session` until a sweep runs,
      and the sweep then removes it. */
  method ReadAfterExpiry(store: SessionStore, id: string, now: int) returns (before: Option<Session>, after: Option<Session>)
    requires id in store.sessions && Expired(store.sessions[id], now)
    modifies store
    ensures before.Some? && before.value.expiresAt == old(store.sessions[id].expiresAt)
    ensures after == None
  {
    before := store.GetSession(id, now);
    store.CleanupExpiredSessions(now);
    after := store.GetSession(id, now);
  }
}
