/**
 * `ClaudeClient.format_extracted_text`: turn raw document text into a structured
 * invoice record with a cascade of two model tiers and a regular-expression
 * fallback, together with the helpers it relies on.
 *
 * Each model call is an oracle: its reply text, or None when the call or the
 * reading of its response raises (each tier catches that and returns an error
 * record). `json.loads` is the oracle `parse`, None where it raises
 * JSONDecodeError; it only ever sees a `{...}` span, so a success is a dict.
 */
module ClaudeClient {
  import opened Json
  import opened Text

  const NOVA_TAG: string := "nova-lite"
  const SONNET_TAG: string := "claude-3.5-sonnet"
  const MANUAL_TAG: string := "manual-fallback"

  function ErrorRecord(message: string): Record
  {
    map["error" := Str(message)]
  }

  /** `_parse_json_response`: the parsed span, or an error record; it never raises. */
  function ParseJsonResponse(text: string, parse: string -> Option<Record>): (r: Record)
    ensures JsonSpan(text).None? ==> r == ErrorRecord("No valid JSON found in response")
    ensures JsonSpan(text).Some? && parse(JsonSpan(text).value).None? ==> r == ErrorRecord("JSON parsing failed")
    ensures JsonSpan(text).Some? && parse(JsonSpan(text).value).Some? ==> r == parse(JsonSpan(text).value).value
  {
    match JsonSpan(text)
    case None => ErrorRecord("No valid JSON found in response")
    case Some(span) =>
      match parse(span)
      case None => ErrorRecord("JSON parsing failed")
      case Some(data) => data
  }

  /** The two model tiers of the extraction cascade. */
  datatype Tier = NovaLite | Sonnet

  /** The fixed part of the error message a tier reports when its call fails. */
  function FailureMessage(tier: Tier): string
  {
    match tier
    case NovaLite => "Nova Lite failed"
    case Sonnet => "Claude 3.5 Sonnet failed"
  }

  /** `_try_nova_lite_extraction` and `_try_sonnet_extraction`: the parsed reply, or an
      error record when the call fails or the response has no text. */
  function TierResult(tier: Tier, reply: Option<string>, parse: string -> Option<Record>): (r: Record)
    ensures reply.None? ==> "error" in r && !IsExtractionSuccessful(r)
    ensures IsExtractionSuccessful(r) ==>
      reply.Some? && JsonSpan(reply.value).Some? && parse(JsonSpan(reply.value).value) == Some(r)
  {
    if reply.None? then ErrorRecord(FailureMessage(tier)) else ParseJsonResponse(reply.value, parse)
  }

  /** `_is_extraction_successful`: no `error` key, and a usable vendor or total. */
  predicate IsExtractionSuccessful(r: Record): (ok: bool)
    ensures ok ==> "error" !in r && ("vendor_name" in r || "total_amount" in r)
  {
    && "error" !in r
    && (|| (Truthy(Get(r, "vendor_name")) && Get(r, "vendor_name") != Str("Not found"))
        || (Truthy(Get(r, "total_amount")) && IsNumber(Get(r, "total_amount"))))
  }

  // ----- `_fallback_extraction`: two regular expressions -----

  /** `\d` on ASCII digits, or a comma: the class `[\d,]`. */
  predicate IsAmountChar(c: char)
  {
    IsDigit(c) || c == ','
  }

  /** `\w` on ASCII: a letter, a digit or `_`. */
  predicate IsWordChar(c: char)
  {
    ('a' <= c <= 'z') || ('A' <= c <= 'Z') || IsDigit(c) || c == '_'
  }

  /** The class `[\s#:]`. */
  predicate IsSeparator(c: char)
  {
    IsSpace(c) || c == '#' || c == ':'
  }

  /** Length of the longest run from `i` of characters satisfying `p`: what a greedy
      `p*` consumes. */
  function RunFrom(s: string, i: nat, p: char -> bool): (n: nat)
    requires i <= |s|
    ensures i + n <= |s|
    ensures forall k :: i <= k < i + n ==> p(s[k])
    ensures i + n < |s| ==> !p(s[i + n])
    decreases |s| - i
  {
    if i < |s| && p(s[i]) then 1 + RunFrom(s, i + 1, p) else 0
  }

  /** The match of `\$[\d,]+\.?\d*` that starts at a `$` followed by `[\d,]`: the
      greedy run of `[\d,]`, an optional `.`, and the greedy run of digits. */
  function AmountMatchAt(s: string, i: nat): (m: string)
    requires i + 1 < |s| && s[i] == '$' && IsAmountChar(s[i + 1])
  {
    var e := i + 1 + RunFrom(s, i + 1, IsAmountChar);
    if e < |s| && s[e] == '.' then s[i..e + 1 + RunFrom(s, e + 1, IsDigit)] else s[i..e]
  }

  /** `re.search(r'\$[\d,]+\.?\d*', s)` from position `i`: the leftmost match. */
  function FirstAmountMatch(s: string, i: nat): Option<string>
    requires i <= |s|
    decreases |s| - i
  {
    if i + 1 >= |s| then None
    else if s[i] == '$' && IsAmountChar(s[i + 1]) then Some(AmountMatchAt(s, i))
    else FirstAmountMatch(s, i + 1)
  }

  /** `.replace('$', '').replace(',', '')`. */
  function Cleaned(m: string): (t: string)
    ensures '$' !in t && ',' !in t
  {
    if m == [] then []
    else (if m[0] == '$' || m[0] == ',' then [] else [m[0]]) + Cleaned(m[1..])
  }

  function Pow10(n: nat): (p: nat)
    ensures p >= 1
  {
    if n == 0 then 1 else 10 * Pow10(n - 1)
  }

  /** `float(t)` for digits with at most one `.`: None where Python raises ValueError,
      that is when there is no digit at all. */
  function DecimalValue(t: string): (r: Option<real>)
    ensures r.Some? ==> r.value >= 0.0
  {
    var dot := Find(t, '.');
    if dot < 0 then
      if t != [] && AllDigits(t) then Some(DigitsValue(t) as real) else None
    else
      var whole := t[..dot];
      var frac := t[dot + 1..];
      if AllDigits(whole) && AllDigits(frac) && |whole| + |frac| > 0 then
        Some(DigitsValue(whole) as real + DigitsValue(frac) as real / Pow10(|frac|) as real)
      else None
  }

  /** The word captured by `(?:invoice|inv)[\s#:]*(\w+)` when the keyword ends at `q`:
      a greedy separator run, then a word that must start right after it (separators
      are not word characters, so backtracking cannot start it earlier). */
  function WordAfter(s: string, q: nat): Option<string>
    requires q <= |s|
  {
    var w := q + RunFrom(s, q, IsSeparator);
    var n := RunFrom(s, w, IsWordChar);
    if n > 0 then Some(s[w..w + n]) else None
  }

  /** Case-insensitive match of the keyword `kw` at position `p`. */
  predicate KeywordAt(s: string, p: nat, kw: string)
  {
    p + |kw| <= |s| && Lower(s[p..p + |kw|]) == kw
  }

  /** The capture of a match starting at `p`: the alternative `invoice` first, then `inv`. */
  function InvoiceMatchAt(s: string, p: nat): Option<string>
    requires p <= |s|
  {
    if KeywordAt(s, p, "invoice") && WordAfter(s, p + 7).Some? then WordAfter(s, p + 7)
    else if KeywordAt(s, p, "inv") then WordAfter(s, p + 3)
    else None
  }

  /** `re.search(r'(?:invoice|inv)[\s#:]*(\w+)', s, re.IGNORECASE).group(1)` from `p`. */
  function FirstInvoiceNumber(s: string, p: nat): (r: Option<string>)
    requires p <= |s|
    ensures r.Some? ==> 0 < |r.value| < |s| - p
    decreases |s| - p
  {
    if InvoiceMatchAt(s, p).Some? then InvoiceMatchAt(s, p)
    else if p == |s| then None
    else FirstInvoiceNumber(s, p + 1)
  }

  /** The amount of the first `$` match, None when there is no match or `float`
      raises on its cleaned text. */
  function FallbackAmount(raw: string): Option<real>
  {
    var m := FirstAmountMatch(raw, 0);
    if m.Some? then DecimalValue(Cleaned(m.value)) else None
  }

  /** `_fallback_extraction(raw_text)`. */
  function FallbackExtraction(raw: string): (r: Record)
    ensures r.Keys <= {"total_amount", "invoice_number"}
    ensures "total_amount" in r <==> FallbackAmount(raw).Some?
    ensures "invoice_number" in r <==> FirstInvoiceNumber(raw, 0).Some?
  {
    var amount := FallbackAmount(raw);
    var withAmount: Record := if amount.Some? then map["total_amount" := Num(amount.value)] else map[];
    var number := FirstInvoiceNumber(raw, 0);
    if number.Some? then withAmount["invoice_number" := Str(number.value)] else withAmount
  }

  /** `format_extracted_text(raw_text)` given both tiers' replies. */
  function FormatExtractedText(raw: string, nova: Option<string>, sonnet: Option<string>, parse: string -> Option<Record>): (r: Record)
    ensures "model_used" in r <==> |Strip(raw)| >= 10
    ensures "model_used" in r ==>
      r["model_used"] in {Str(NOVA_TAG), Str(SONNET_TAG), Str(MANUAL_TAG)}
      && (r["model_used"] != Str(MANUAL_TAG) ==> IsExtractionSuccessful(r))
  {
    if raw == "" || |Strip(raw)| < 10 then ErrorRecord("Insufficient text content for processing")
    else
      var n := TierResult(NovaLite, nova, parse);
      if IsExtractionSuccessful(n) then n["model_used" := Str(NOVA_TAG)]
      else
        var s := TierResult(Sonnet, sonnet, parse);
        if IsExtractionSuccessful(s) then s["model_used" := Str(SONNET_TAG)]
        else FallbackExtraction(raw)["model_used" := Str(MANUAL_TAG)]
  }

  // ----- the cascade -----

  /** Text that is empty or shorter than 10 characters once stripped is refused before
      any model call: the answer is the error record, without a `model_used` tag, for
      every pair of replies. */
  lemma ShortTextIsRefused(raw: string, nova: Option<string>, sonnet: Option<string>, parse: string -> Option<Record>)
    requires |Strip(raw)| < 10
    ensures FormatExtractedText(raw, nova, sonnet, parse) == ErrorRecord("Insufficient text content for processing")
    ensures "model_used" !in FormatExtractedText(raw, nova, sonnet, parse)
  {
  }

  /** Text of at least 10 non-blank characters always gets an answer tagged with the
      tier that produced it. */
  lemma LongTextIsTagged(raw: string, nova: Option<string>, sonnet: Option<string>, parse: string -> Option<Record>)
    requires |Strip(raw)| >= 10
    ensures var r := FormatExtractedText(raw, nova, sonnet, parse);
      && "model_used" in r
      && (r["model_used"] == Str(NOVA_TAG) || r["model_used"] == Str(SONNET_TAG) || r["model_used"] == Str(MANUAL_TAG))
  {
    assert raw != "";
  }

  /** An acceptable Nova result is returned tagged `nova-lite`, whatever Sonnet would
      have answered: the second tier is never consulted. */
  lemma NovaAcceptedFirst(raw: string, nova: Option<string>, sonnet1: Option<string>, sonnet2: Option<string>, parse: string -> Option<Record>)
    requires |Strip(raw)| >= 10 && IsExtractionSuccessful(TierResult(NovaLite, nova, parse))
    ensures FormatExtractedText(raw, nova, sonnet1, parse) == TierResult(NovaLite, nova, parse)["model_used" := Str(NOVA_TAG)]
    ensures FormatExtractedText(raw, nova, sonnet1, parse) == FormatExtractedText(raw, nova, sonnet2, parse)
  {
    assert raw != "";
    var tagged := TierResult(NovaLite, nova, parse)["model_used" := Str(NOVA_TAG)];
    assert FormatExtractedText(raw, nova, sonnet1, parse) == tagged;
    assert FormatExtractedText(raw, nova, sonnet2, parse) == tagged;
  }

  /** A rejected Nova result and an acceptable Sonnet result give the Sonnet result
      tagged `claude-3.5-sonnet`. */
  lemma SonnetAcceptedSecond(raw: string, nova: Option<string>, sonnet: Option<string>, parse: string -> Option<Record>)
    requires |Strip(raw)| >= 10
    requires !IsExtractionSuccessful(TierResult(NovaLite, nova, parse)) && IsExtractionSuccessful(TierResult(Sonnet, sonnet, parse))
    ensures FormatExtractedText(raw, nova, sonnet, parse) == TierResult(Sonnet, sonnet, parse)["model_used" := Str(SONNET_TAG)]
  {
    assert raw != "";
  }

  /** When both tiers are rejected the answer is the regular-expression extraction
      tagged `manual-fallback`, holding no keys besides the amount, the number and the tag. */
  lemma ManualFallbackLast(raw: string, nova: Option<string>, sonnet: Option<string>, parse: string -> Option<Record>)
    requires |Strip(raw)| >= 10
    requires !IsExtractionSuccessful(TierResult(NovaLite, nova, parse)) && !IsExtractionSuccessful(TierResult(Sonnet, sonnet, parse))
    ensures var r := FormatExtractedText(raw, nova, sonnet, parse);
      && r == FallbackExtraction(raw)["model_used" := Str(MANUAL_TAG)]
      && r.Keys <= {"total_amount", "invoice_number", "model_used"}
  {
    var f := FallbackExtraction(raw);
    assert FormatExtractedText(raw, nova, sonnet, parse) == f["model_used" := Str(MANUAL_TAG)] by {
      assert raw != "";
    }
    assert f.Keys <= {"total_amount", "invoice_number"};
  }

  /** A model-tagged answer still passes the acceptance gate: the tag touches neither
      `error`, `vendor_name` nor `total_amount`. */
  lemma ModelAnswerPassesGate(raw: string, nova: Option<string>, sonnet: Option<string>, parse: string -> Option<Record>)
    requires var r := FormatExtractedText(raw, nova, sonnet, parse);
      "model_used" in r && r["model_used"] != Str(MANUAL_TAG)
    ensures IsExtractionSuccessful(FormatExtractedText(raw, nova, sonnet, parse))
  {
    var n := TierResult(NovaLite, nova, parse);
    var s := TierResult(Sonnet, sonnet, parse);
    FallbackKeys(raw);
    assert raw != "" && |Strip(raw)| >= 10;
    if IsExtractionSuccessful(n) {
      TagKeepsGate(n, NOVA_TAG);
    } else if IsExtractionSuccessful(s) {
      TagKeepsGate(s, SONNET_TAG);
    }
  }

  lemma TagKeepsGate(r: Record, tag: string)
    requires IsExtractionSuccessful(r)
    ensures IsExtractionSuccessful(r["model_used" := Str(tag)])
  {
    var t := r["model_used" := Str(tag)];
    assert Get(t, "vendor_name") == Get(r, "vendor_name");
    assert Get(t, "total_amount") == Get(r, "total_amount");
  }

  // ----- the acceptance gate -----

  /** Any `error` key fails the gate, whatever else the record holds. */
  lemma ErrorKeyFailsGate(r: Record)
    requires "error" in r
    ensures !IsExtractionSuccessful(r)
  {
  }

  /** Placeholders that do not count: a vendor of "Not found", a zero total, a total
      given as a numeric string; a true boolean total does count, a bool being an int. */
  lemma GateExamples()
    ensures !IsExtractionSuccessful(map["vendor_name" := Str("Not found")])
    ensures !IsExtractionSuccessful(map["vendor_name" := Str(""), "total_amount" := Num(0.0)])
    ensures !IsExtractionSuccessful(map["total_amount" := Str("120.50")])
    ensures IsExtractionSuccessful(map["total_amount" := Num(120.5)])
    ensures IsExtractionSuccessful(map["total_amount" := Bool(true)])
    ensures IsExtractionSuccessful(map["vendor_name" := Str("Acme LLP"), "total_amount" := Str("n/a")])
  {
    assert Str("Not found") == Str("Not found");
  }

  // ----- the span parser -----

  /** A reply of text without `{`, one braced body and text without `}` parses exactly
      that braced body. */
  lemma ParseOfWrapped(pre: string, body: string, post: string, parse: string -> Option<Record>)
    requires '{' !in pre && '}' !in post
    ensures ParseJsonResponse(pre + "{" + body + "}" + post, parse)
      == if parse("{" + body + "}").Some? then parse("{" + body + "}").value else ErrorRecord("JSON parsing failed")
  {
    JsonSpanOfWrapped(pre, body, post);
  }

  /** A reply with no `{` at all is answered with the "no valid JSON" error. */
  lemma NoBraceIsError(text: string, parse: string -> Option<Record>)
    requires '{' !in text
    ensures ParseJsonResponse(text, parse) == ErrorRecord("No valid JSON found in response")
    ensures !IsExtractionSuccessful(ParseJsonResponse(text, parse))
  {
    JsonSpanSpec(text);
  }

  // ----- the regular-expression fallback -----

  /** The fallback sets nothing but `total_amount` and `invoice_number`; an amount is
      never negative and a number is a non-empty run of word characters. */
  lemma FallbackKeys(raw: string)
    ensures var r := FallbackExtraction(raw);
      && r.Keys <= {"total_amount", "invoice_number"}
      && ("total_amount" in r ==> r["total_amount"].Num? && r["total_amount"].n >= 0.0)
      && ("invoice_number" in r ==>
            && r["invoice_number"].Str? && r["invoice_number"].s != []
            && forall k :: 0 <= k < |r["invoice_number"].s| ==> IsWordChar(r["invoice_number"].s[k]))
  {
    InvoiceNumberIsWord(raw, 0);
    var amount := FallbackAmount(raw);
    var withAmount: Record := if amount.Some? then map["total_amount" := Num(amount.value)] else map[];
    assert withAmount.Keys <= {"total_amount"};
    var number := FirstInvoiceNumber(raw, 0);
    assert FallbackExtraction(raw) == if number.Some? then withAmount["invoice_number" := Str(number.value)] else withAmount;
  }

  lemma {:induction false} InvoiceNumberIsWord(s: string, p: nat)
    requires p <= |s|
    ensures FirstInvoiceNumber(s, p).Some? ==>
      FirstInvoiceNumber(s, p).value != [] && forall k :: 0 <= k < |FirstInvoiceNumber(s, p).value| ==> IsWordChar(FirstInvoiceNumber(s, p).value[k])
    decreases |s| - p
  {
    if InvoiceMatchAt(s, p).None? && p < |s| {
      InvoiceNumberIsWord(s, p + 1);
    }
  }

  /** Position `j` starts a match of the amount pattern: a `$` then `[\d,]`. */
  predicate AmountStartsAt(s: string, j: nat)
  {
    j + 1 < |s| && s[j] == '$' && IsAmountChar(s[j + 1])
  }

  /** The amount comes from the leftmost `$` followed by a digit or comma. */
  lemma {:induction false} FirstAmountIsLeftmost(s: string, i: nat)
    requires i <= |s|
    ensures FirstAmountMatch(s, i).Some? <==> exists j :: i <= j && AmountStartsAt(s, j)
    ensures FirstAmountMatch(s, i).Some? ==>
      exists j :: i <= j && AmountStartsAt(s, j)
        && FirstAmountMatch(s, i).value == AmountMatchAt(s, j)
        && forall k :: i <= k < j ==> !AmountStartsAt(s, k)
    decreases |s| - i
  {
    if i + 1 >= |s| {
      assert forall j :: i <= j ==> !AmountStartsAt(s, j);
    } else if AmountStartsAt(s, i) {
      assert FirstAmountMatch(s, i) == Some(AmountMatchAt(s, i));
    } else {
      assert FirstAmountMatch(s, i) == FirstAmountMatch(s, i + 1);
      FirstAmountIsLeftmost(s, i + 1);
      assert forall j :: i <= j && AmountStartsAt(s, j) ==> i + 1 <= j;
    }
  }

  /** The invoice number comes from the leftmost position where the pattern matches,
      and there is one exactly when the pattern matches somewhere. */
  lemma {:induction false} FirstInvoiceNumberIsLeftmost(s: string, p: nat)
    requires p <= |s|
    ensures FirstInvoiceNumber(s, p).Some? <==> exists q :: p <= q <= |s| && InvoiceMatchAt(s, q).Some?
    ensures FirstInvoiceNumber(s, p).Some? ==>
      exists q :: p <= q <= |s| && FirstInvoiceNumber(s, p) == InvoiceMatchAt(s, q)
        && forall k :: p <= k < q ==> InvoiceMatchAt(s, k).None?
    decreases |s| - p
  {
    if InvoiceMatchAt(s, p).Some? {
      assert FirstInvoiceNumber(s, p) == InvoiceMatchAt(s, p);
    } else if p < |s| {
      assert FirstInvoiceNumber(s, p) == FirstInvoiceNumber(s, p + 1);
      FirstInvoiceNumberIsLeftmost(s, p + 1);
      assert forall q :: p <= q <= |s| && InvoiceMatchAt(s, q).Some? ==> p + 1 <= q;
    }
  }

  /** Text without a `$` yields no amount. */
  lemma NoDollarNoAmount(raw: string)
    requires '$' !in raw
    ensures "total_amount" !in FallbackExtraction(raw)
  {
    FirstAmountIsLeftmost(raw, 0);
  }

  /** The capture is the first word after the keyword, so a label between the
      keyword and the number is taken for the number. */
  lemma InvoiceLabelIsTaken()
    ensures FirstInvoiceNumber("Invoice Number: 42", 0) == Some("Number")
  {
    var s := "Invoice Number: 42";
    assert Lower(s[0..7]) == "invoice";
    assert RunFrom(s, 7, IsSeparator) == 1;
    assert RunFrom(s, 14, IsWordChar) == 0;
    assert RunFrom(s, 13, IsWordChar) == 1;
    assert RunFrom(s, 12, IsWordChar) == 2;
    assert RunFrom(s, 11, IsWordChar) == 3;
    assert RunFrom(s, 10, IsWordChar) == 4;
    assert RunFrom(s, 9, IsWordChar) == 5;
    assert RunFrom(s, 8, IsWordChar) == 6;
    assert s[8..14] == "Number";
  }

  /** `#` and `:` between the keyword and the number are skipped. */
  lemma InvoiceHashNumber()
    ensures FirstInvoiceNumber("INV#123", 0) == Some("123")
  {
    var s := "INV#123";
    assert Lower(s[0..7])[3] == '#';
    assert Lower(s[0..3]) == "inv";
    assert RunFrom(s, 4, IsSeparator) == 0;
    assert RunFrom(s, 3, IsSeparator) == 1;
    assert RunFrom(s, 7, IsWordChar) == 0;
    assert RunFrom(s, 6, IsWordChar) == 1;
    assert RunFrom(s, 5, IsWordChar) == 2;
    assert RunFrom(s, 4, IsWordChar) == 3;
    assert s[4..7] == "123";
  }

  /** A bare "Invoice" with no word after it still matches through the shorter
      alternative `inv`, capturing the rest of the keyword. */
  lemma BareInvoiceKeyword()
    ensures FirstInvoiceNumber("Invoice", 0) == Some("oice")
  {
    var s := "Invoice";
    assert Lower(s[0..7]) == "invoice";
    assert RunFrom(s, 7, IsSeparator) == 0;
    assert RunFrom(s, 7, IsWordChar) == 0;
    assert Lower(s[0..3]) == "inv";
    assert RunFrom(s, 3, IsSeparator) == 0;
    assert RunFrom(s, 6, IsWordChar) == 1;
    assert RunFrom(s, 5, IsWordChar) == 2;
    assert RunFrom(s, 4, IsWordChar) == 3;
    assert RunFrom(s, 3, IsWordChar) == 4;
    assert s[3..7] == "oice";
  }

  /** "$," matches the pattern but leaves no digit, so `float` raises and no amount is set. */
  lemma DollarCommaHasNoAmount()
    ensures FallbackAmount("$,") == None
  {
    var s := "$,";
    assert RunFrom(s, 2, IsAmountChar) == 0;
    assert RunFrom(s, 1, IsAmountChar) == 1;
    assert s[0] == '$' && IsAmountChar(s[1]);
    assert AmountMatchAt(s, 0) == s[0..2] == s;
    assert Cleaned("$,") == "";
  }

  lemma {:induction false} CleanedAppend(x: string, y: string)
    ensures Cleaned(x + y) == Cleaned(x) + Cleaned(y)
    decreases |x|
  {
    if x != [] {
      assert (x + y)[1..] == x[1..] + y;
      CleanedAppend(x[1..], y);
    } else {
      assert x + y == y;
    }
  }

  /** Thousands separators do not change the amount: a comma anywhere in the match is
      dropped before `float` sees it. */
  lemma CommaIsIgnored(a: string, b: string)
    ensures Cleaned(a + "," + b) == Cleaned(a + b)
  {
    assert Cleaned(",") == [] by {
      assert ","[1..] == [];
    }
    calc {
      Cleaned(a + "," + b);
      { CleanedAppend(a + ",", b); }
      Cleaned(a + ",") + Cleaned(b);
      { CleanedAppend(a, ","); }
      Cleaned(a) + Cleaned(b);
      { CleanedAppend(a, b); }
      Cleaned(a + b);
    }
  }

  lemma {:induction false} CleanedDigits(d: string)
    requires AllDigits(d)
    ensures Cleaned(d) == d
    decreases |d|
  {
    if d != [] {
      CleanedDigits(d[1..]);
      assert d == [d[0]] + d[1..];
    }
  }

  /** A match of `$` and plain digits gives the integer those digits spell. */
  lemma DollarDigitsValue(d: string)
    requires d != [] && AllDigits(d)
    ensures DecimalValue(Cleaned("$" + d)) == Some(DigitsValue(d) as real)
  {
    assert Cleaned("$") == [] by {
      assert "$"[1..] == [];
    }
    CleanedAppend("$", d);
    CleanedDigits(d);
    assert Cleaned("$" + d) == d;
    assert Find(d, '.') < 0 by {
      var i := Find(d, '.');
      assert 0 <= i ==> d[i] == '.' && IsDigit(d[i]);
    }
  }

  lemma {:induction false} RunOfDigits(s: string, i: nat, n: nat)
    requires i + n <= |s| && forall k :: i <= k < i + n ==> IsDigit(s[k])
    requires i + n == |s| || !IsAmountChar(s[i + n])
    ensures RunFrom(s, i, IsAmountChar) == n
    decreases n
  {
    if n > 0 {
      RunOfDigits(s, i + 1, n - 1);
    }
  }

  /** The first amount in the text is taken, not the largest: a leading `$` and digits
      decide the amount whatever amounts follow. */
  lemma LeadingAmountWins(d: string, rest: string)
    requires d != [] && AllDigits(d)
    requires rest == [] || (!IsAmountChar(rest[0]) && rest[0] != '.')
    ensures FallbackAmount("$" + d + rest) == Some(DigitsValue(d) as real)
  {
    var s := "$" + d + rest;
    assert forall k :: 1 <= k < 1 + |d| ==> s[k] == d[k - 1];
    RunOfDigits(s, 1, |d|);
    assert s[0] == '$' && IsAmountChar(s[1]);
    assert AmountMatchAt(s, 0) == s[0..1 + |d|] == "$" + d;
    DollarDigitsValue(d);
  }

  /** Text with no `i`/`I` never yields an invoice number. */
  lemma {:induction false} NoKeywordNoNumber(s: string, p: nat)
    requires p <= |s|
    requires 'i' !in s && 'I' !in s
    ensures FirstInvoiceNumber(s, p) == None
    decreases |s| - p
  {
    if p < |s| {
      assert s[p] in s;
      assert LowerChar(s[p]) != 'i';
      if p + 7 <= |s| {
        assert Lower(s[p..p + 7])[0] == LowerChar(s[p]);
      }
      if p + 3 <= |s| {
        assert Lower(s[p..p + 3])[0] == LowerChar(s[p]);
      }
      assert InvoiceMatchAt(s, p) == None;
    }
    if p < |s| {
      NoKeywordNoNumber(s, p + 1);
    }
  }
}
