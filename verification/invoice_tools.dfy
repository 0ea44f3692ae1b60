/**
 * The query tools of backend/clients/invoice_tools.py over the invoices of one
 * session. Every invoice is a dict whose `data` dict holds the extracted fields.
 * The object's fields are only read, so each tool takes the invoice list as a
 * parameter. Python's optional arguments are modelled by their truthiness: an empty
 * string or a 0.0 bound means "not given", exactly as the `if vendor and ...` tests
 * treat None and falsy values alike.
 */
module InvoiceTools {
  import opened Json
  import opened Text
  import opened Dates
  import opened Collections

  // ---------------------------------------------------------------- filter_invoices

  datatype Criteria = Criteria(
    vendor: string,
    amountMin: real,
    amountMax: real,
    dateStart: string,
    dateEnd: string,
    paymentTerms: string)

  const NoCriteria: Criteria := Criteria("", 0.0, 0.0, "", "", "")

  /** `data.get(k, '').lower()`: raises unless the field is a string. */
  function LoweredField(data: Record, k: string): Outcome<string>
  {
    match GetOr(data, k, Str(""))
    case Str(s) => Done(Lower(s))
    case _ => Raised
  }

  /** The date test of `filter_invoices`. It runs inside a bare `try`, so an invoice
      date or a bound that does not parse excludes the invoice. */
  predicate WithinDates(data: Record, c: Criteria)
  {
    if c.dateStart == "" && c.dateEnd == "" then true
    else
      match ParseDateValue(GetOr(data, "date", Str("")))
      case None => false
      case Some(d) =>
        && (c.dateStart == "" || (ParseDate(c.dateStart).Some? && DateLe(ParseDate(c.dateStart).value, d)))
        && (c.dateEnd == "" || (ParseDate(c.dateEnd).Some? && DateLe(d, ParseDate(c.dateEnd).value)))
  }

  /** Whether `filter_invoices` keeps one invoice, testing vendor, amount bounds,
      dates and payment terms in that order. Comparing a non-number amount with a
      bound, or lowering a non-string field, raises. */
  function Keep(inv: Record, c: Criteria): Outcome<bool>
  {
    match SubRecord(inv, "data")
    case Raised => Raised
    case Done(data) =>
      var amount := GetOr(data, "total_amount", Num(0.0));
      if c.vendor != "" && LoweredField(data, "vendor_name").Raised? then Raised
      else if c.vendor != "" && !Contains(LoweredField(data, "vendor_name").value, Lower(c.vendor)) then Done(false)
      else if c.amountMin != 0.0 && !IsNumber(amount) then Raised
      else if c.amountMin != 0.0 && NumberOf(amount) < c.amountMin then Done(false)
      else if c.amountMax != 0.0 && !IsNumber(amount) then Raised
      else if c.amountMax != 0.0 && NumberOf(amount) > c.amountMax then Done(false)
      else if !WithinDates(data, c) then Done(false)
      else if c.paymentTerms != "" && LoweredField(data, "payment_terms").Raised? then Raised
      else Done(c.paymentTerms == "" || Contains(LoweredField(data, "payment_terms").value, Lower(c.paymentTerms)))
  }

  /** The list `filter_invoices` builds, or Raised. */
  function Filtered(invs: seq<Record>, c: Criteria): (r: Outcome<seq<Record>>)
    ensures r.Done? ==> |r.value| <= |invs|
    decreases |invs|
  {
    if invs == [] then Done([])
    else
      match Filtered(invs[..|invs| - 1], c)
      case Raised => Raised
      case Done(kept) =>
        match Keep(invs[|invs| - 1], c)
        case Raised => Raised
        case Done(b) => Done(if b then kept + [invs[|invs| - 1]] else kept)
  }

  /** `filter_invoices` */
  method FilterInvoices(invoices: seq<Record>, c: Criteria) returns (r: Outcome<seq<Record>>)
    ensures r == Filtered(invoices, c)
  {
    var filtered: seq<Record> := [];
    var i := 0;
    while i < |invoices|
      invariant 0 <= i <= |invoices|
      invariant Filtered(invoices[..i], c) == Done(filtered)
    {
      assert invoices[..i + 1][..i] == invoices[..i];
      var keep := Keep(invoices[i], c);
      if keep.Raised? {
        FilteredRaises(invoices, c);
        return Raised;
      }
      if keep.value {
        filtered := filtered + [invoices[i]];
      }
      i := i + 1;
    }
    assert invoices[..i] == invoices;
    r := Done(filtered);
  }

  /** Filtering raises exactly when testing some invoice raises. */
  lemma {:induction false} FilteredRaises(invs: seq<Record>, c: Criteria)
    ensures Filtered(invs, c).Raised? <==> exists i :: 0 <= i < |invs| && Keep(invs[i], c).Raised?
    decreases |invs|
  {
    if invs != [] {
      var front := invs[..|invs| - 1];
      FilteredRaises(front, c);
      assert forall i :: 0 <= i < |front| ==> front[i] == invs[i];
      if Filtered(front, c).Raised? {
        var i :| 0 <= i < |front| && Keep(front[i], c).Raised?;
        assert Keep(invs[i], c).Raised?;
      }
    }
  }

  /** The result is an order-preserving subsequence of the invoices, holding exactly
      the invoices the tests keep. */
  lemma {:induction false} FilteredKeepsOrder(invs: seq<Record>, c: Criteria)
    requires Filtered(invs, c).Done?
    ensures IsSubsequence(Filtered(invs, c).value, invs)
    ensures forall x :: x in Filtered(invs, c).value <==> x in invs && Keep(x, c) == Done(true)
    decreases |invs|
  {
    if invs != [] {
      var front := invs[..|invs| - 1];
      var last := invs[|invs| - 1];
      FilteredKeepsOrder(front, c);
      assert invs == front + [last];
      SubsequenceExtend(Filtered(front, c).value, front, last, Keep(last, c).value);
    }
  }

  /** With no criteria every invoice is kept, as long as each has a dict `data`. */
  lemma {:induction false} NoCriteriaKeepsAll(invs: seq<Record>)
    requires forall i :: 0 <= i < |invs| ==> SubRecord(invs[i], "data").Done?
    ensures Filtered(invs, NoCriteria) == Done(invs)
    decreases |invs|
  {
    if invs != [] {
      NoCriteriaKeepsAll(invs[..|invs| - 1]);
      assert invs[..|invs| - 1] + [invs[|invs| - 1]] == invs;
    }
  }

  /** Amount bounds are inclusive, and only a non-zero bound applies. */
  lemma KeptAmountWithinBounds(inv: Record, c: Criteria)
    requires Keep(inv, c) == Done(true)
    ensures var amount := GetOr(SubRecord(inv, "data").value, "total_amount", Num(0.0));
      && (c.amountMin != 0.0 ==> IsNumber(amount) && c.amountMin <= NumberOf(amount))
      && (c.amountMax != 0.0 ==> IsNumber(amount) && NumberOf(amount) <= c.amountMax)
  {
  }

  /** `amount_max=0` imposes no bound: a 500-dollar invoice passes it, but not a bound of 100. */
  lemma ZeroAmountMaxIsNoBound()
    ensures Keep(map["data" := Obj(map["total_amount" := Num(500.0)])], NoCriteria.(amountMax := 0.0)) == Done(true)
    ensures Keep(map["data" := Obj(map["total_amount" := Num(500.0)])], NoCriteria.(amountMax := 100.0)) == Done(false)
  {
    var data := map["total_amount" := Num(500.0)];
    assert SubRecord(map["data" := Obj(data)], "data") == Done(data);
  }

  /** A kept invoice has a date that parses and lies within both given bounds,
      bounds included. */
  lemma KeptDateWithinBounds(inv: Record, c: Criteria)
    requires Keep(inv, c) == Done(true)
    requires c.dateStart != "" || c.dateEnd != ""
    ensures var d := ParseDateValue(GetOr(SubRecord(inv, "data").value, "date", Str("")));
      && d.Some?
      && (c.dateStart != "" ==> ParseDate(c.dateStart).Some? && DateLe(ParseDate(c.dateStart).value, d.value))
      && (c.dateEnd != "" ==> ParseDate(c.dateEnd).Some? && DateLe(d.value, ParseDate(c.dateEnd).value))
  {
  }

  /** A start date that does not parse excludes every invoice. */
  lemma {:induction false} BadStartDateKeepsNothing(invs: seq<Record>, c: Criteria)
    requires c.dateStart != "" && ParseDate(c.dateStart).None?
    requires Filtered(invs, c).Done?
    ensures Filtered(invs, c).value == []
    decreases |invs|
  {
    if invs != [] {
      BadStartDateKeepsNothing(invs[..|invs| - 1], c);
    }
  }

  lemma LowerTwice(s: string)
    ensures Lower(Lower(s)) == Lower(s)
  {
  }

  /** The vendor and payment-terms tests ignore the case of the query. */
  lemma QueryCaseIgnored(inv: Record, c: Criteria)
    ensures Keep(inv, c.(vendor := Lower(c.vendor), paymentTerms := Lower(c.paymentTerms))) == Keep(inv, c)
  {
    LowerTwice(c.vendor);
    LowerTwice(c.paymentTerms);
    assert Lower(c.vendor) == "" <==> c.vendor == "";
    assert Lower(c.paymentTerms) == "" <==> c.paymentTerms == "";
  }

  // ------------------------------------------------------------ get_invoice_details

  /** The invoice's `data.get('invoice_number') == invoice_number`, for a dict `data`. */
  predicate HasNumber(inv: Record, number: string)
    requires SubRecord(inv, "data").Done?
  {
    Get(SubRecord(inv, "data").value, "invoice_number") == Str(number)
  }

  /** Every invoice before position `n` has a dict `data` and a different number. */
  predicate NoMatchBefore(invs: seq<Record>, number: string, n: int)
    requires 0 <= n <= |invs|
  {
    forall j :: 0 <= j < n ==> SubRecord(invs[j], "data").Done? && !HasNumber(invs[j], number)
  }

  /** `get_invoice_details`: the first invoice whose number matches, None when none
      matches; raises on a non-dict `data` met before the match. */
  method GetInvoiceDetails(invoices: seq<Record>, number: string) returns (r: Outcome<Option<Record>>)
    ensures r == Done(None) <==> NoMatchBefore(invoices, number, |invoices|)
    ensures r.Done? && r.value.Some? ==>
      exists i :: 0 <= i < |invoices| && invoices[i] == r.value.value
        && SubRecord(invoices[i], "data").Done? && HasNumber(invoices[i], number)
        && NoMatchBefore(invoices, number, i)
    ensures r.Raised? ==>
      exists i :: 0 <= i < |invoices| && SubRecord(invoices[i], "data").Raised? && NoMatchBefore(invoices, number, i)
  {
    var i := 0;
    while i < |invoices|
      invariant 0 <= i <= |invoices|
      invariant NoMatchBefore(invoices, number, i)
    {
      var data := SubRecord(invoices[i], "data");
      if data.Raised? {
        return Raised;
      }
      if Get(data.value, "invoice_number") == Str(number) {
        return Done(Some(invoices[i]));
      }
      i := i + 1;
    }
    return Done(None);
  }

  // -------------------------------------------------------------- aggregate_amounts

  /** Using a value as a dict key: lists and dicts raise TypeError. */
  function HashKey(v: Value): Outcome<Value>
  {
    if Hashable(v) then Done(v) else Raised
  }

  /** `float(amount)` for a truthy amount. Numbers and booleans convert; a string goes
      through `parseFloat`, which is None where Python raises ValueError; anything
      else raises TypeError. */
  function ToFloat(v: Value, parseFloat: string -> Option<real>): Outcome<real>
  {
    match v
    case Num(n) => Done(n)
    case Bool(b) => Done(if b then 1.0 else 0.0)
    case Str(s) => if parseFloat(s).Some? then Done(parseFloat(s).value) else Raised
    case _ => Raised
  }

  /** The key `aggregate_amounts` files an invoice under. */
  function GroupKey(data: Record, groupBy: string): Outcome<Value>
  {
    if groupBy == "vendor" then HashKey(GetOr(data, "vendor_name", Str("Unknown")))
    else if groupBy == "date" then
      match ParseDateValue(GetOr(data, "date", Str("")))
      case Some(d) => Done(Str(MonthKey(d)))
      case None => Done(Str("Unknown Date"))
    else if groupBy == "payment_terms" then HashKey(GetOr(data, "payment_terms", Str("Unknown")))
    else Done(Str("All"))
  }

  /** The (key, amount) pair one invoice contributes, or None when its amount is
      falsy and the invoice is skipped. */
  function AmountEntry(inv: Record, groupBy: string, parseFloat: string -> Option<real>): Outcome<Option<(Value, real)>>
  {
    match SubRecord(inv, "data")
    case Raised => Raised
    case Done(data) =>
      var amount := GetOr(data, "total_amount", Num(0.0));
      if !Truthy(amount) then Done(None)
      else
        match GroupKey(data, groupBy)
        case Raised => Raised
        case Done(k) =>
          match ToFloat(amount, parseFloat)
          case Raised => Raised
          case Done(x) => Done(Some((k, x)))
  }

  /** The pairs of all invoices, in order. */
  function AmountEntries(invs: seq<Record>, groupBy: string, parseFloat: string -> Option<real>): Outcome<seq<(Value, real)>>
    decreases |invs|
  {
    if invs == [] then Done([])
    else
      match AmountEntries(invs[..|invs| - 1], groupBy, parseFloat)
      case Raised => Raised
      case Done(es) =>
        match AmountEntry(invs[|invs| - 1], groupBy, parseFloat)
        case Raised => Raised
        case Done(e) => Done(if e.Some? then es + [e.value] else es)
  }

  /** Number of invoices with a dict `data` and a truthy `total_amount`. */
  function CountWithAmount(invs: seq<Record>): nat
    decreases |invs|
  {
    if invs == [] then 0
    else
      var inv := invs[|invs| - 1];
      CountWithAmount(invs[..|invs| - 1])
        + (if SubRecord(inv, "data").Done? && Truthy(GetOr(SubRecord(inv, "data").value, "total_amount", Num(0.0))) then 1 else 0)
  }

  function Max(xs: seq<real>): (m: real)
    requires xs != []
    ensures m in xs && forall i :: 0 <= i < |xs| ==> xs[i] <= m
    decreases |xs|
  {
    if |xs| == 1 then xs[0]
    else
      var m := Max(xs[..|xs| - 1]);
      assert forall i :: 0 <= i < |xs| - 1 ==> xs[..|xs| - 1][i] == xs[i];
      if xs[|xs| - 1] > m then xs[|xs| - 1] else m
  }

  function Min(xs: seq<real>): (m: real)
    requires xs != []
    ensures m in xs && forall i :: 0 <= i < |xs| ==> m <= xs[i]
    decreases |xs|
  {
    if |xs| == 1 then xs[0]
    else
      var m := Min(xs[..|xs| - 1]);
      assert forall i :: 0 <= i < |xs| - 1 ==> xs[..|xs| - 1][i] == xs[i];
      if xs[|xs| - 1] < m then xs[|xs| - 1] else m
  }

  predicate KnownOperation(op: string)
  {
    op == "sum" || op == "avg" || op == "count" || op == "max" || op == "min"
  }

  /** The value of one group; an unknown operation sums. */
  function GroupValue(op: string, amounts: seq<real>): real
    requires amounts != []
  {
    if op == "avg" then Sum(amounts) / |amounts| as real
    else if op == "count" then |amounts| as real
    else if op == "max" then Max(amounts)
    else if op == "min" then Min(amounts)
    else Sum(amounts)
  }

  datatype GroupResult = GroupResult(key: Value, value: real, count: nat, amounts: seq<real>)

  datatype Aggregate = Aggregate(
    groups: seq<GroupResult>,
    totalAmount: real,
    totalInvoices: nat,
    averageAmount: real,
    groupBy: string,
    operation: string)

  /** The per-group results, in the order the groups were created. */
  function Summarize(gs: seq<Bucket<real>>, op: string): (rs: seq<GroupResult>)
    requires forall j :: 0 <= j < |gs| ==> gs[j].items != []
    ensures |rs| == |gs|
    decreases |gs|
  {
    if gs == [] then []
    else
      var g := gs[|gs| - 1];
      Summarize(gs[..|gs| - 1], op) + [GroupResult(g.key, GroupValue(op, g.items), |g.items|, g.items)]
  }

  function CountSum(rs: seq<GroupResult>): nat
    decreases |rs|
  {
    if rs == [] then 0 else CountSum(rs[..|rs| - 1]) + rs[|rs| - 1].count
  }

  /** `max(n, 1)` */
  function AtLeastOne(n: nat): nat
  {
    if n >= 1 then n else 1
  }

  /** `total / max(count, 1)` */
  function AverageOf(total: real, count: nat): real
  {
    total / AtLeastOne(count) as real
  }

  /** What `aggregate_amounts` returns. */
  function AggregateResult(invs: seq<Record>, groupBy: string, op: string, parseFloat: string -> Option<real>): Outcome<Result<Aggregate>>
  {
    if invs == [] then Done(Failure("No invoices to aggregate"))
    else
      match AmountEntries(invs, groupBy, parseFloat)
      case Raised => Raised
      case Done(es) =>
        var gs := GroupAll(es);
        GroupAllSpec(es);
        Done(Success(Aggregate(Summarize(gs, op), Total(gs), Size(gs), AverageOf(Total(gs), Size(gs)), groupBy, op)))
  }

  /** `aggregate_amounts`: groups the truthy amounts, then computes one value per
      group and the overall summary. */
  method AggregateAmounts(invoices: seq<Record>, groupBy: string, op: string, parseFloat: string -> Option<real>)
    returns (r: Outcome<Result<Aggregate>>)
    ensures r == AggregateResult(invoices, groupBy, op, parseFloat)
  {
    if invoices == [] {
      return Done(Failure("No invoices to aggregate"));
    }
    var grouped := GroupAmounts(invoices, groupBy, parseFloat);
    if grouped.Raised? {
      return Raised;
    }
    var groups := grouped.value;
    GroupAllSpec(AmountEntries(invoices, groupBy, parseFloat).value);
    var results, totalSum, totalCount := SummarizeGroups(groups, op);
    r := Done(Success(Aggregate(results, totalSum, totalCount, AverageOf(totalSum, totalCount), groupBy, op)));
  }

  /** The first loop of `aggregate_amounts`: the truthy amounts grouped by key. */
  method GroupAmounts(invoices: seq<Record>, groupBy: string, parseFloat: string -> Option<real>)
    returns (r: Outcome<seq<Bucket<real>>>)
    ensures r.Raised? <==> AmountEntries(invoices, groupBy, parseFloat).Raised?
    ensures r.Done? ==> r.value == GroupAll(AmountEntries(invoices, groupBy, parseFloat).value)
  {
    var groups: seq<Bucket<real>> := [];
    ghost var es: seq<(Value, real)> := [];
    var i := 0;
    while i < |invoices|
      invariant 0 <= i <= |invoices|
      invariant AmountEntries(invoices[..i], groupBy, parseFloat) == Done(es)
      invariant groups == GroupAll(es)
    {
      assert invoices[..i + 1][..i] == invoices[..i];
      var e := AmountEntry(invoices[i], groupBy, parseFloat);
      if e.Raised? {
        AmountEntriesRaise(invoices, groupBy, parseFloat, i);
        return Raised;
      }
      if e.value.Some? {
        var (k, x) := e.value.value;
        assert (es + [(k, x)])[..|es|] == es;
        groups := Insert(groups, k, x);
        es := es + [(k, x)];
      }
      i := i + 1;
    }
    assert invoices[..i] == invoices;
    return Done(groups);
  }

  /** The second loop of `aggregate_amounts`: one result per group, the sum of all
      amounts and their number. */
  method SummarizeGroups(groups: seq<Bucket<real>>, op: string)
    returns (results: seq<GroupResult>, totalSum: real, totalCount: nat)
    requires forall j :: 0 <= j < |groups| ==> groups[j].items != []
    ensures results == Summarize(groups, op)
    ensures totalSum == Total(groups) && totalCount == Size(groups)
  {
    results, totalSum, totalCount := [], 0.0, 0;
    var j := 0;
    while j < |groups|
      invariant 0 <= j <= |groups|
      invariant results == Summarize(groups[..j], op)
      invariant totalSum == Total(groups[..j])
      invariant totalCount == Size(groups[..j])
    {
      assert groups[..j + 1][..j] == groups[..j];
      var amounts := groups[j].items;
      results := results + [GroupResult(groups[j].key, GroupValue(op, amounts), |amounts|, amounts)];
      totalSum := totalSum + Sum(amounts);
      totalCount := totalCount + |amounts|;
      j := j + 1;
    }
    assert groups[..j] == groups;
  }

  lemma {:induction false} AmountEntriesRaise(invs: seq<Record>, groupBy: string, parseFloat: string -> Option<real>, n: nat)
    requires n < |invs| && AmountEntry(invs[n], groupBy, parseFloat).Raised?
    ensures AmountEntries(invs, groupBy, parseFloat).Raised?
    decreases |invs|
  {
    if n < |invs| - 1 {
      AmountEntriesRaise(invs[..|invs| - 1], groupBy, parseFloat, n);
    }
  }

  /** One pair per invoice with a truthy amount, in order. */
  lemma {:induction false} AmountEntriesCount(invs: seq<Record>, groupBy: string, parseFloat: string -> Option<real>)
    requires AmountEntries(invs, groupBy, parseFloat).Done?
    ensures |AmountEntries(invs, groupBy, parseFloat).value| == CountWithAmount(invs)
    decreases |invs|
  {
    if invs != [] {
      AmountEntriesCount(invs[..|invs| - 1], groupBy, parseFloat);
    }
  }

  lemma {:induction false} CountSumOfSummary(gs: seq<Bucket<real>>, op: string)
    requires forall j :: 0 <= j < |gs| ==> gs[j].items != []
    ensures CountSum(Summarize(gs, op)) == Size(gs)
    decreases |gs|
  {
    if gs != [] {
      CountSumOfSummary(gs[..|gs| - 1], op);
      assert Summarize(gs, op)[..|gs| - 1] == Summarize(gs[..|gs| - 1], op);
    }
  }

  /** The successful result of `aggregate_amounts`, spelled out from the pairs. */
  lemma AggregateResultOf(invs: seq<Record>, groupBy: string, op: string, parseFloat: string -> Option<real>)
    requires invs != [] && AmountEntries(invs, groupBy, parseFloat).Done?
    ensures var gs := GroupAll(AmountEntries(invs, groupBy, parseFloat).value);
      (forall j :: 0 <= j < |gs| ==> gs[j].items != [])
      && AggregateResult(invs, groupBy, op, parseFloat)
        == Done(Success(Aggregate(Summarize(gs, op), Total(gs), Size(gs), AverageOf(Total(gs), Size(gs)), groupBy, op)))
  {
    GroupAllSpec(AmountEntries(invs, groupBy, parseFloat).value);
  }

  /**
   * The summary of `aggregate_amounts`: the group counts add up to `total_invoices`,
   * which is the number of invoices with a truthy amount; `total_amount` is the sum
   * of all those amounts whatever the operation; the average divides by
   * max(count, 1).
   */
  lemma AggregateSummary(invs: seq<Record>, groupBy: string, op: string, parseFloat: string -> Option<real>)
    requires AggregateResult(invs, groupBy, op, parseFloat).Done?
    requires AggregateResult(invs, groupBy, op, parseFloat).value.Success?
    ensures var a := AggregateResult(invs, groupBy, op, parseFloat).value.value;
      && CountSum(a.groups) == a.totalInvoices == CountWithAmount(invs)
      && a.totalAmount == Sum(Values(AmountEntries(invs, groupBy, parseFloat).value))
      && a.averageAmount == AverageOf(a.totalAmount, a.totalInvoices)
  {
    var es := AmountEntries(invs, groupBy, parseFloat).value;
    var gs := GroupAll(es);
    AggregateResultOf(invs, groupBy, op, parseFloat);
    GroupAllSpec(es);
    GroupAllTotal(es);
    CountSumOfSummary(gs, op);
    AmountEntriesCount(invs, groupBy, parseFloat);
  }

  /** The average times max(count, 1) gives back the total. */
  lemma AverageTimesCount(total: real, count: nat)
    ensures AverageOf(total, count) * AtLeastOne(count) as real == total
  {
  }

  /** The summary does not depend on the operation: only the group values do. */
  lemma OperationOnlyChangesValues(invs: seq<Record>, groupBy: string, op1: string, op2: string, parseFloat: string -> Option<real>)
    ensures AggregateResult(invs, groupBy, op1, parseFloat).Done? <==> AggregateResult(invs, groupBy, op2, parseFloat).Done?
    ensures AggregateResult(invs, groupBy, op1, parseFloat).Done? && AggregateResult(invs, groupBy, op1, parseFloat).value.Success? ==>
      var a1 := AggregateResult(invs, groupBy, op1, parseFloat).value.value;
      var a2 := AggregateResult(invs, groupBy, op2, parseFloat).value.value;
      a1.totalAmount == a2.totalAmount && a1.totalInvoices == a2.totalInvoices && |a1.groups| == |a2.groups|
  {
  }

  lemma {:induction false} UnknownOperationSummary(gs: seq<Bucket<real>>, op: string)
    requires forall j :: 0 <= j < |gs| ==> gs[j].items != []
    requires !KnownOperation(op)
    ensures Summarize(gs, op) == Summarize(gs, "sum")
    decreases |gs|
  {
    if gs != [] {
      UnknownOperationSummary(gs[..|gs| - 1], op);
    }
  }

  /** An unknown operation gives the same groups and totals as "sum". */
  lemma UnknownOperationIsSum(invs: seq<Record>, groupBy: string, op: string, parseFloat: string -> Option<real>)
    requires !KnownOperation(op)
    ensures AggregateResult(invs, groupBy, op, parseFloat) ==
      match AggregateResult(invs, groupBy, "sum", parseFloat)
      case Done(Success(a)) => Done(Success(a.(operation := op)))
      case other => other
  {
    if invs != [] && AmountEntries(invs, groupBy, parseFloat).Done? {
      var es := AmountEntries(invs, groupBy, parseFloat).value;
      GroupAllSpec(es);
      UnknownOperationSummary(GroupAll(es), op);
    }
  }

  /** With an unknown `group_by` every pair is filed under "All". */
  lemma {:induction false} UnknownGroupByKeys(invs: seq<Record>, groupBy: string, parseFloat: string -> Option<real>)
    requires groupBy != "vendor" && groupBy != "date" && groupBy != "payment_terms"
    requires AmountEntries(invs, groupBy, parseFloat).Done?
    ensures forall i :: 0 <= i < |AmountEntries(invs, groupBy, parseFloat).value| ==>
      AmountEntries(invs, groupBy, parseFloat).value[i].0 == Str("All")
    decreases |invs|
  {
    if invs != [] {
      UnknownGroupByKeys(invs[..|invs| - 1], groupBy, parseFloat);
    }
  }

  lemma {:induction false} SingleKeyGroup(es: seq<(Value, real)>, k: Value)
    requires es != []
    requires forall i :: 0 <= i < |es| ==> es[i].0 == k
    ensures GroupAll(es) == [Bucket(k, Values(es))]
    decreases |es|
  {
    var front := es[..|es| - 1];
    var x := es[|es| - 1].1;
    assert es[|es| - 1].0 == k;
    assert GroupAll(es) == Insert(GroupAll(front), k, x);
    assert Values(es) == Values(front) + [x];
    if |es| == 1 {
      assert GroupAll(front) == [] && Values(front) == [];
      assert Insert([], k, x) == [Bucket(k, [x])];
      assert Values(es) == [x];
    } else {
      SingleKeyGroup(front, k);
      assert KeyEq(k, k);
      assert FindKey([Bucket(k, Values(front))], k) == 0;
    }
  }

  /** An unknown `group_by` yields the single group "All" holding every amount, or
      no group when no invoice has a truthy amount. */
  lemma UnknownGroupByIsAll(invs: seq<Record>, groupBy: string, op: string, parseFloat: string -> Option<real>)
    requires groupBy != "vendor" && groupBy != "date" && groupBy != "payment_terms"
    requires AggregateResult(invs, groupBy, op, parseFloat).Done?
    requires AggregateResult(invs, groupBy, op, parseFloat).value.Success?
    ensures var a := AggregateResult(invs, groupBy, op, parseFloat).value.value;
      var es := AmountEntries(invs, groupBy, parseFloat).value;
      if es == [] then a.groups == []
      else |a.groups| == 1 && a.groups[0].key == Str("All") && a.groups[0].amounts == Values(es)
  {
    var es := AmountEntries(invs, groupBy, parseFloat).value;
    UnknownGroupByKeys(invs, groupBy, parseFloat);
    if es != [] {
      SingleKeyGroup(es, Str("All"));
    }
  }

  /** Date grouping files an invoice under "Unknown Date" exactly when its date does
      not parse; otherwise under its year and month. */
  lemma DateGroupKey(data: Record)
    ensures GroupKey(data, "date") == Done(Str("Unknown Date")) <==> ParseDateValue(GetOr(data, "date", Str(""))).None?
  {
    var d := ParseDateValue(GetOr(data, "date", Str("")));
    if d.Some? {
      var y := NatToString(d.value.year);
      assert MonthKey(d.value)[0] == y[0];
      assert IsDigit(y[0]);
    }
  }

  /** Each group value means what the operation names. */
  lemma GroupValueMeaning(op: string, amounts: seq<real>)
    requires amounts != []
    ensures op == "max" ==> GroupValue(op, amounts) in amounts && forall i :: 0 <= i < |amounts| ==> amounts[i] <= GroupValue(op, amounts)
    ensures op == "min" ==> GroupValue(op, amounts) in amounts && forall i :: 0 <= i < |amounts| ==> GroupValue(op, amounts) <= amounts[i]
    ensures op == "avg" ==> GroupValue(op, amounts) * |amounts| as real == Sum(amounts)
    ensures op == "count" ==> GroupValue(op, amounts) == |amounts| as real
    ensures !KnownOperation(op) ==> GroupValue(op, amounts) == Sum(amounts)
  {
  }

  // ------------------------------------------------------------- get_vendor_summary

  /** The vendor an invoice is filed under, the invoice and its amount. The running
      `total_amount += amount` starts from 0, so a non-number amount raises. */
  function VendorEntry(inv: Record): Outcome<(Value, (Record, real))>
  {
    match SubRecord(inv, "data")
    case Raised => Raised
    case Done(data) =>
      var amount := GetOr(data, "total_amount", Num(0.0));
      match HashKey(GetOr(data, "vendor_name", Str("Unknown")))
      case Raised => Raised
      case Done(v) => if IsNumber(amount) then Done((v, (inv, NumberOf(amount)))) else Raised
  }

  datatype VendorStats = VendorStats(vendor: Value, invoices: seq<Record>, totalAmount: real, count: nat, avgAmount: real)

  function Firsts(ps: seq<(Record, real)>): (rs: seq<Record>)
    ensures |rs| == |ps| && forall i :: 0 <= i < |ps| ==> rs[i] == ps[i].0
    decreases |ps|
  {
    if ps == [] then [] else Firsts(ps[..|ps| - 1]) + [ps[|ps| - 1].0]
  }

  function Seconds(ps: seq<(Record, real)>): (xs: seq<real>)
    ensures |xs| == |ps| && forall i :: 0 <= i < |ps| ==> xs[i] == ps[i].1
    decreases |ps|
  {
    if ps == [] then [] else Seconds(ps[..|ps| - 1]) + [ps[|ps| - 1].1]
  }

  /** The statistics of one vendor entry, with `avg_amount = total / count`. */
  function StatsOf(b: Bucket<(Record, real)>): VendorStats
    requires b.items != []
  {
    var total := Sum(Seconds(b.items));
    VendorStats(b.key, Firsts(b.items), total, |b.items|, total / |b.items| as real)
  }

  function AllStats(bs: seq<Bucket<(Record, real)>>): (vs: seq<VendorStats>)
    requires forall j :: 0 <= j < |bs| ==> bs[j].items != []
    ensures |vs| == |bs| && forall j :: 0 <= j < |bs| ==> vs[j] == StatsOf(bs[j])
    decreases |bs|
  {
    if bs == [] then [] else AllStats(bs[..|bs| - 1]) + [StatsOf(bs[|bs| - 1])]
  }

  /** What `get_vendor_summary` returns, one entry per vendor in first-seen order. */
  function VendorSummary(invs: seq<Record>): Outcome<seq<VendorStats>>
  {
    match MapAll(invs, VendorEntry)
    case Raised => Raised
    case Done(es) =>
      GroupAllSpec(es);
      Done(AllStats(GroupAll(es)))
  }

  /** `get_vendor_summary`: files every invoice under its vendor, then computes each
      vendor's average. */
  method GetVendorSummary(invoices: seq<Record>) returns (r: Outcome<seq<VendorStats>>)
    ensures r == VendorSummary(invoices)
  {
    var filed := FileByVendor(invoices);
    if filed.Raised? {
      return Raised;
    }
    GroupAllSpec(MapAll(invoices, VendorEntry).value);
    var stats := VendorStatistics(filed.value);
    r := Done(stats);
  }

  /** The second loop of `get_vendor_summary`: each vendor's total, count and average. */
  method VendorStatistics(buckets: seq<Bucket<(Record, real)>>) returns (stats: seq<VendorStats>)
    requires forall j :: 0 <= j < |buckets| ==> buckets[j].items != []
    ensures stats == AllStats(buckets)
  {
    stats := [];
    var j := 0;
    while j < |buckets|
      invariant 0 <= j <= |buckets|
      invariant stats == AllStats(buckets[..j])
    {
      assert buckets[..j + 1][..j] == buckets[..j];
      var b := buckets[j];
      var total := Sum(Seconds(b.items));
      stats := stats + [VendorStats(b.key, Firsts(b.items), total, |b.items|, total / |b.items| as real)];
      j := j + 1;
    }
    assert buckets[..j] == buckets;
  }

  /** The first loop of `get_vendor_summary`: the invoices and amounts filed under
      their vendors, in first-seen order. */
  method FileByVendor(invoices: seq<Record>) returns (r: Outcome<seq<Bucket<(Record, real)>>>)
    ensures r.Raised? <==> MapAll(invoices, VendorEntry).Raised?
    ensures r.Done? ==> r.value == GroupAll(MapAll(invoices, VendorEntry).value)
  {
    var buckets: seq<Bucket<(Record, real)>> := [];
    ghost var es: seq<(Value, (Record, real))> := [];
    var i := 0;
    while i < |invoices|
      invariant 0 <= i <= |invoices|
      invariant MapAll(invoices[..i], VendorEntry) == Done(es)
      invariant buckets == GroupAll(es)
    {
      var e := VendorEntry(invoices[i]);
      if e.Raised? {
        MapAllDone(invoices, VendorEntry);
        return Raised;
      }
      MapAllPrefixStep(invoices, i, VendorEntry);
      assert (es + [e.value])[..|es|] == es;
      buckets := Insert(buckets, e.value.0, e.value.1);
      es := es + [e.value];
      i := i + 1;
    }
    assert invoices[..i] == invoices;
    return Done(buckets);
  }

  /** The vendor of an invoice whose `data` is a dict. */
  function VendorOf(inv: Record): Value
    requires SubRecord(inv, "data").Done?
  {
    GetOr(SubRecord(inv, "data").value, "vendor_name", Str("Unknown"))
  }

  /** The invoices whose vendor equals `v`, in order. */
  function InvoicesOf(invs: seq<Record>, v: Value): seq<Record>
    requires forall i :: 0 <= i < |invs| ==> SubRecord(invs[i], "data").Done?
    decreases |invs|
  {
    if invs == [] then []
    else InvoicesOf(invs[..|invs| - 1], v) + (if KeyEq(VendorOf(invs[|invs| - 1]), v) then [invs[|invs| - 1]] else [])
  }

  function CountOfStats(vs: seq<VendorStats>): nat
    decreases |vs|
  {
    if vs == [] then 0 else CountOfStats(vs[..|vs| - 1]) + vs[|vs| - 1].count
  }

  lemma {:induction false} VendorItemsAreInvoices(invs: seq<Record>, es: seq<(Value, (Record, real))>, v: Value)
    requires MapAll(invs, VendorEntry) == Done(es)
    ensures forall i :: 0 <= i < |invs| ==> SubRecord(invs[i], "data").Done?
    ensures Firsts(ItemsFor(es, v)) == InvoicesOf(invs, v)
    decreases |invs|
  {
    MapAllDone(invs, VendorEntry);
    MapAllPointwise(invs, VendorEntry);
    if invs != [] {
      var front := invs[..|invs| - 1];
      var e := VendorEntry(invs[|invs| - 1]).value;
      assert MapAll(invs, VendorEntry) == Done(MapAll(front, VendorEntry).value + [e]);
      var fes := MapAll(front, VendorEntry).value;
      VendorItemsAreInvoices(front, fes, v);
      assert es == fes + [e];
      assert es[..|es| - 1] == fes;
      assert Firsts(ItemsFor(es, v)) == Firsts(ItemsFor(fes, v)) + (if KeyEq(e.0, v) then [e.1.0] else []);
    }
  }

  lemma {:induction false} CountOfAllStats(bs: seq<Bucket<(Record, real)>>)
    requires forall j :: 0 <= j < |bs| ==> bs[j].items != []
    ensures CountOfStats(AllStats(bs)) == Size(bs)
    decreases |bs|
  {
    if bs != [] {
      CountOfAllStats(bs[..|bs| - 1]);
      assert AllStats(bs)[..|bs| - 1] == AllStats(bs[..|bs| - 1]);
    }
  }

  /** The successful result of `get_vendor_summary`, spelled out from its entries. */
  lemma VendorSummaryOf(invs: seq<Record>)
    requires MapAll(invs, VendorEntry).Done?
    ensures var gs := GroupAll(MapAll(invs, VendorEntry).value);
      && (forall j :: 0 <= j < |gs| ==> gs[j].items != [])
      && VendorSummary(invs) == Done(AllStats(gs))
  {
    GroupAllSpec(MapAll(invs, VendorEntry).value);
  }

  /** The vendor entries cover every invoice once: the vendors are pairwise
      different and the counts add up to the number of invoices. */
  lemma VendorCounts(invs: seq<Record>)
    requires VendorSummary(invs).Done?
    ensures var vs := VendorSummary(invs).value;
      && CountOfStats(vs) == |invs|
      && forall j, k :: 0 <= j < k < |vs| ==> !KeyEq(vs[j].vendor, vs[k].vendor)
  {
    var es := MapAll(invs, VendorEntry).value;
    MapAllPointwise(invs, VendorEntry);
    VendorSummaryOf(invs);
    GroupAllSpec(es);
    CountOfAllStats(GroupAll(es));
  }

  /** Each vendor entry lists exactly the invoices of that vendor, in their
      original order. */
  lemma VendorEntriesHoldTheirInvoices(invs: seq<Record>)
    requires VendorSummary(invs).Done?
    ensures forall i :: 0 <= i < |invs| ==> SubRecord(invs[i], "data").Done?
    ensures forall j :: 0 <= j < |VendorSummary(invs).value| ==>
      VendorSummary(invs).value[j].invoices == InvoicesOf(invs, VendorSummary(invs).value[j].vendor)
  {
    var es := MapAll(invs, VendorEntry).value;
    VendorSummaryOf(invs);
    var gs := GroupAll(es);
    GroupAllSpec(es);
    VendorItemsAreInvoices(invs, es, Null);
    forall j | 0 <= j < |gs|
      ensures StatsOf(gs[j]).invoices == InvoicesOf(invs, gs[j].key)
    {
      VendorItemsAreInvoices(invs, es, gs[j].key);
    }
  }

  /** A vendor's count is the number of its invoices, and its average times its
      count is its total. */
  lemma VendorAverage(b: Bucket<(Record, real)>)
    requires b.items != []
    ensures StatsOf(b).count == |StatsOf(b).invoices| > 0
    ensures StatsOf(b).avgAmount * StatsOf(b).count as real == StatsOf(b).totalAmount
  {
  }

  // ------------------------------------------------------------ get_session_summary

  /** What one invoice contributes to `get_session_summary`: its amount, its truthy
      vendor, its parsed date and its payment terms. The running sum starts from 0,
      so a non-number amount raises; an unhashable vendor or terms value raises when
      added to the set or dict; a date that does not parse is skipped. */
  datatype SummaryEntry = SummaryEntry(amount: real, vendor: Option<Value>, date: Option<Date>, terms: Value)

  function SummaryEntryOf(inv: Record): (r: Outcome<SummaryEntry>)
    ensures r.Done? ==> SubRecord(inv, "data").Done? && Hashable(r.value.terms)
    ensures r.Done? && r.value.vendor.Some? ==> Truthy(r.value.vendor.value) && Hashable(r.value.vendor.value)
  {
    match SubRecord(inv, "data")
    case Raised => Raised
    case Done(data) =>
      var amount := GetOr(data, "total_amount", Num(0.0));
      var vendor := Get(data, "vendor_name");
      var date := Get(data, "date");
      var terms := GetOr(data, "payment_terms", Str("Unknown"));
      if !IsNumber(amount) then Raised
      else if Truthy(vendor) && !Hashable(vendor) then Raised
      else if !Hashable(terms) then Raised
      else
        Done(SummaryEntry(
          NumberOf(amount),
          if Truthy(vendor) then Some(vendor) else None,
          if Truthy(date) then ParseDateValue(date) else None,
          terms))
  }

  function AmountsOf(es: seq<SummaryEntry>): (xs: seq<real>)
    ensures |xs| == |es|
    decreases |es|
  {
    if es == [] then [] else AmountsOf(es[..|es| - 1]) + [es[|es| - 1].amount]
  }

  /** The truthy vendors, as keys of a set. */
  function VendorKeys(es: seq<SummaryEntry>): seq<(Value, ())>
    decreases |es|
  {
    if es == [] then []
    else
      var e := es[|es| - 1];
      VendorKeys(es[..|es| - 1]) + (if e.vendor.Some? then [(e.vendor.value, ())] else [])
  }

  function TermKeys(es: seq<SummaryEntry>): (ks: seq<(Value, ())>)
    ensures |ks| == |es|
    decreases |es|
  {
    if es == [] then [] else TermKeys(es[..|es| - 1]) + [(es[|es| - 1].terms, ())]
  }

  function DatesOf(es: seq<SummaryEntry>): seq<Date>
    decreases |es|
  {
    if es == [] then []
    else
      var e := es[|es| - 1];
      DatesOf(es[..|es| - 1]) + (if e.date.Some? then [e.date.value] else [])
  }

  function EarliestDate(ds: seq<Date>): (d: Date)
    requires ds != []
    ensures d in ds && forall i :: 0 <= i < |ds| ==> DateLe(d, ds[i])
    decreases |ds|
  {
    if |ds| == 1 then ds[0]
    else
      var m := EarliestDate(ds[..|ds| - 1]);
      assert forall i :: 0 <= i < |ds| - 1 ==> ds[..|ds| - 1][i] == ds[i];
      if DateLe(m, ds[|ds| - 1]) then m else ds[|ds| - 1]
  }

  function LatestDate(ds: seq<Date>): (d: Date)
    requires ds != []
    ensures d in ds && forall i :: 0 <= i < |ds| ==> DateLe(ds[i], d)
    decreases |ds|
  {
    if |ds| == 1 then ds[0]
    else
      var m := LatestDate(ds[..|ds| - 1]);
      assert forall i :: 0 <= i < |ds| - 1 ==> ds[..|ds| - 1][i] == ds[i];
      if DateLe(ds[|ds| - 1], m) then m else ds[|ds| - 1]
  }

  /** The earliest and latest parsed dates; printed with `%Y-%m-%d` (see `DateText`). */
  datatype DateRange = DateRange(earliest: Date, latest: Date)

  datatype SessionSummary = SessionSummary(
    totalInvoices: nat,
    totalAmount: real,
    averageAmount: real,
    uniqueVendors: nat,
    vendorList: seq<Value>,
    paymentTermsBreakdown: seq<(Value, nat)>,
    dateRange: Option<DateRange>)

  /** The summary built from the entries of a non-empty invoice list. */
  function SummaryOf(es: seq<SummaryEntry>): SessionSummary
    requires es != []
  {
    var total := Sum(AmountsOf(es));
    var vendors := GroupAll(VendorKeys(es));
    var dates := DatesOf(es);
    SessionSummary(
      |es|,
      total,
      total / |es| as real,
      |vendors|,
      Keys(vendors),
      Counts(GroupAll(TermKeys(es))),
      if dates == [] then None else Some(DateRange(EarliestDate(dates), LatestDate(dates))))
  }

  /** What `get_session_summary` returns. */
  function SessionSummaryResult(invs: seq<Record>): Outcome<Result<SessionSummary>>
  {
    if invs == [] then Done(Failure("No invoices in session"))
    else
      match MapAll(invs, SummaryEntryOf)
      case Raised => Raised
      case Done(es) =>
        MapAllPointwise(invs, SummaryEntryOf);
        Done(Success(SummaryOf(es)))
  }

  /** The accumulators of `get_session_summary` after some invoices. */
  datatype Accumulators = Accumulators(total: real, vendors: seq<Bucket<()>>, dates: seq<Date>, terms: seq<Bucket<()>>)

  /** One iteration of the loop: add the amount, the vendor and the date, count the terms. */
  function Step(a: Accumulators, e: SummaryEntry): Accumulators
  {
    Accumulators(
      a.total + e.amount,
      if e.vendor.Some? then Insert(a.vendors, e.vendor.value, ()) else a.vendors,
      if e.date.Some? then a.dates + [e.date.value] else a.dates,
      Insert(a.terms, e.terms, ()))
  }

  function Accumulate(es: seq<SummaryEntry>): Accumulators
    decreases |es|
  {
    if es == [] then Accumulators(0.0, [], [], []) else Step(Accumulate(es[..|es| - 1]), es[|es| - 1])
  }

  lemma {:induction false} AccumulateTotal(es: seq<SummaryEntry>)
    ensures Accumulate(es).total == Sum(AmountsOf(es))
    decreases |es|
  {
    if es != [] {
      AccumulateTotal(es[..|es| - 1]);
      assert AmountsOf(es)[..|es| - 1] == AmountsOf(es[..|es| - 1]);
    }
  }

  lemma {:induction false} AccumulateVendors(es: seq<SummaryEntry>)
    ensures Accumulate(es).vendors == GroupAll(VendorKeys(es))
    decreases |es|
  {
    if es != [] {
      var front := es[..|es| - 1];
      AccumulateVendors(front);
      var e := es[|es| - 1];
      if e.vendor.Some? {
        var vk := VendorKeys(es);
        assert vk == VendorKeys(front) + [(e.vendor.value, ())];
        assert vk[..|vk| - 1] == VendorKeys(front);
        assert GroupAll(vk) == Insert(GroupAll(VendorKeys(front)), e.vendor.value, ());
      } else {
        assert VendorKeys(es) == VendorKeys(front) + [];
        assert VendorKeys(front) + [] == VendorKeys(front);
      }
    }
  }

  lemma {:induction false} AccumulateDates(es: seq<SummaryEntry>)
    ensures Accumulate(es).dates == DatesOf(es)
    decreases |es|
  {
    if es != [] {
      AccumulateDates(es[..|es| - 1]);
    }
  }

  lemma {:induction false} AccumulateTerms(es: seq<SummaryEntry>)
    ensures Accumulate(es).terms == GroupAll(TermKeys(es))
    decreases |es|
  {
    if es != [] {
      AccumulateTerms(es[..|es| - 1]);
      assert TermKeys(es)[..|es| - 1] == TermKeys(es[..|es| - 1]);
    }
  }

  /** The loop's accumulators are the sum of the amounts, the set of truthy vendors,
      the parsed dates and the terms counts. */
  lemma AccumulateSpec(es: seq<SummaryEntry>)
    ensures Accumulate(es) == Accumulators(Sum(AmountsOf(es)), GroupAll(VendorKeys(es)), DatesOf(es), GroupAll(TermKeys(es)))
  {
    AccumulateTotal(es);
    AccumulateVendors(es);
    AccumulateDates(es);
    AccumulateTerms(es);
  }

  lemma AccumulateSnoc(es: seq<SummaryEntry>, x: SummaryEntry)
    ensures Accumulate(es + [x]) == Step(Accumulate(es), x)
  {
    assert (es + [x])[..|es|] == es;
  }

  /** `get_session_summary`: one pass accumulating the total, the vendor set, the
      parsed dates and the payment-terms counts. */
  method GetSessionSummary(invoices: seq<Record>) returns (r: Outcome<Result<SessionSummary>>)
    ensures r == SessionSummaryResult(invoices)
  {
    if invoices == [] {
      return Done(Failure("No invoices in session"));
    }
    var acc := AccumulateInvoices(invoices);
    if acc.Raised? {
      return Raised;
    }
    var Accumulators(total, vendors, dates, terms) := acc.value;
    ghost var es := MapAll(invoices, SummaryEntryOf).value;
    MapAllPointwise(invoices, SummaryEntryOf);
    AccumulateSpec(es);
    var range: Option<DateRange> := None;
    if dates != [] {
      range := Some(DateRange(EarliestDate(dates), LatestDate(dates)));
    }
    r := Done(Success(SessionSummary(
      |invoices|, total, total / |invoices| as real, |vendors|, Keys(vendors), Counts(terms), range)));
  }

  /** The loop of `get_session_summary`: the accumulators after every invoice, or
      Raised at the first invoice that makes the loop raise: `data` is not a dict, the
      amount is not a number, or a truthy vendor or the payment terms are unhashable. */
  method AccumulateInvoices(invoices: seq<Record>) returns (r: Outcome<Accumulators>)
    ensures r.Raised? <==> MapAll(invoices, SummaryEntryOf).Raised?
    ensures r.Done? ==> r.value == Accumulate(MapAll(invoices, SummaryEntryOf).value)
  {
    var total := 0.0;
    var vendors: seq<Bucket<()>> := [];
    var dates: seq<Date> := [];
    var terms: seq<Bucket<()>> := [];
    ghost var es: seq<SummaryEntry> := [];
    var i := 0;
    while i < |invoices|
      invariant 0 <= i <= |invoices|
      invariant MapAll(invoices[..i], SummaryEntryOf) == Done(es)
      invariant Accumulators(total, vendors, dates, terms) == Accumulate(es)
    {
      var e := SummaryEntryOf(invoices[i]);
      if e.Raised? {
        MapAllDone(invoices, SummaryEntryOf);
        return Raised;
      }
      var x := e.value;
      total := total + x.amount;
      vendors := if x.vendor.Some? then Insert(vendors, x.vendor.value, ()) else vendors;
      dates := if x.date.Some? then dates + [x.date.value] else dates;
      terms := Insert(terms, x.terms, ());
      MapAllPrefixStep(invoices, i, SummaryEntryOf);
      AccumulateSnoc(es, x);
      es := es + [x];
      i := i + 1;
    }
    assert invoices[..i] == invoices;
    return Done(Accumulators(total, vendors, dates, terms));
  }

  /** The summary of a non-empty session is the summary of its entries. */
  lemma SessionSummaryOf(invs: seq<Record>)
    requires invs != [] && MapAll(invs, SummaryEntryOf).Done?
    ensures |MapAll(invs, SummaryEntryOf).value| == |invs|
    ensures SessionSummaryResult(invs) == Done(Success(SummaryOf(MapAll(invs, SummaryEntryOf).value)))
  {
    MapAllPointwise(invs, SummaryEntryOf);
  }

  lemma {:induction false} DatesOfSpec(es: seq<SummaryEntry>)
    ensures forall d :: d in DatesOf(es) <==> exists i :: 0 <= i < |es| && es[i].date == Some(d)
    decreases |es|
  {
    if es != [] {
      var front := es[..|es| - 1];
      DatesOfSpec(front);
      assert forall i :: 0 <= i < |front| ==> front[i] == es[i];
    }
  }

  lemma {:induction false} VendorKeysSpec(es: seq<SummaryEntry>)
    ensures forall v :: (v, ()) in VendorKeys(es) <==> exists i :: 0 <= i < |es| && es[i].vendor == Some(v)
    decreases |es|
  {
    if es != [] {
      var front := es[..|es| - 1];
      VendorKeysSpec(front);
      assert forall i :: 0 <= i < |front| ==> front[i] == es[i];
    }
  }

  /** The payment-terms counts add up to the number of invoices. */
  lemma TermsCountAll(es: seq<SummaryEntry>)
    requires es != []
    ensures CountTotal(SummaryOf(es).paymentTermsBreakdown) == SummaryOf(es).totalInvoices == |es|
  {
    GroupAllSpec(TermKeys(es));
    CountTotalIsSize(GroupAll(TermKeys(es)));
  }

  /** Each vendor key comes from an invoice with that truthy vendor. */
  lemma {:induction false} VendorKeysFrom(es: seq<SummaryEntry>, m: nat)
    requires m < |VendorKeys(es)|
    ensures exists i :: 0 <= i < |es| && es[i].vendor == Some(VendorKeys(es)[m].0)
    decreases |es|
  {
    var front := es[..|es| - 1];
    var e := es[|es| - 1];
    var vk := VendorKeys(es);
    if m < |VendorKeys(front)| {
      assert vk[m] == VendorKeys(front)[m];
      VendorKeysFrom(front, m);
      var i :| 0 <= i < |front| && front[i].vendor == Some(VendorKeys(front)[m].0);
      assert es[i] == front[i];
    } else {
      assert e.vendor.Some? && vk[m] == (e.vendor.value, ());
      assert es[|es| - 1] == e;
    }
  }

  /** Every entry of the vendor set is the truthy vendor of some invoice. */
  lemma VendorBucketFromInvoice(es: seq<SummaryEntry>, j: nat)
    requires j < |GroupAll(VendorKeys(es))|
    ensures exists i :: 0 <= i < |es| && es[i].vendor.Some? && KeyEq(es[i].vendor.value, GroupAll(VendorKeys(es))[j].key)
  {
    var vk := VendorKeys(es);
    var gs := GroupAll(vk);
    GroupAllSpec(vk);
    assert gs[j].items == ItemsFor(vk, gs[j].key);
    ItemsForNonEmpty(vk, gs[j].key);
    var m :| 0 <= m < |vk| && KeyEq(vk[m].0, gs[j].key);
    VendorKeysFrom(es, m);
    var i :| 0 <= i < |es| && es[i].vendor == Some(vk[m].0);
    assert es[i].vendor.Some? && KeyEq(es[i].vendor.value, gs[j].key);
  }

  /** Every truthy vendor of an invoice is in the vendor set. */
  lemma VendorSetCoversInvoices(es: seq<SummaryEntry>)
    ensures forall i :: 0 <= i < |es| && es[i].vendor.Some? ==>
      FindKey(GroupAll(VendorKeys(es)), es[i].vendor.value) < |GroupAll(VendorKeys(es))|
  {
    var vk := VendorKeys(es);
    GroupAllSpec(vk);
    VendorKeysSpec(es);
    forall i | 0 <= i < |es| && es[i].vendor.Some?
      ensures FindKey(GroupAll(vk), es[i].vendor.value) < |GroupAll(vk)|
    {
      assert (es[i].vendor.value, ()) in vk;
    }
  }

  /** The vendor list holds each truthy vendor of the session once: the listed
      vendors are pairwise different, each is the vendor of some invoice, and every
      invoice's truthy vendor is listed. */
  lemma UniqueVendors(es: seq<SummaryEntry>)
    requires es != []
    ensures var s := SummaryOf(es);
      && s.uniqueVendors == |s.vendorList|
      && (forall j, k :: 0 <= j < k < |s.vendorList| ==> !KeyEq(s.vendorList[j], s.vendorList[k]))
      && (forall j :: 0 <= j < |s.vendorList| ==> exists i :: 0 <= i < |es| && es[i].vendor.Some? && KeyEq(es[i].vendor.value, s.vendorList[j]))
      && (forall i :: 0 <= i < |es| && es[i].vendor.Some? ==> exists j :: 0 <= j < |s.vendorList| && KeyEq(s.vendorList[j], es[i].vendor.value))
  {
    var gs := GroupAll(VendorKeys(es));
    GroupAllSpec(VendorKeys(es));
    VendorSetCoversInvoices(es);
    var vl := SummaryOf(es).vendorList;
    assert vl == Keys(gs);
    forall j | 0 <= j < |vl|
      ensures exists i :: 0 <= i < |es| && es[i].vendor.Some? && KeyEq(es[i].vendor.value, vl[j])
    {
      VendorBucketFromInvoice(es, j);
    }
    forall i | 0 <= i < |es| && es[i].vendor.Some?
      ensures exists j :: 0 <= j < |gs| && KeyEq(gs[j].key, es[i].vendor.value)
    {
      var j := FindKey(gs, es[i].vendor.value);
      assert KeyEq(gs[j].key, es[i].vendor.value);
    }
  }

  /** `date_range` is present exactly when some invoice's date parses; then the
      earliest is no later than the latest, both are parsed dates, and every parsed
      date lies between them. */
  lemma DateRangeSpec(es: seq<SummaryEntry>)
    requires es != []
    ensures var r := SummaryOf(es).dateRange;
      && (r.Some? <==> exists i :: 0 <= i < |es| && es[i].date.Some?)
      && (r.Some? ==>
            && DateLe(r.value.earliest, r.value.latest)
            && (exists i :: 0 <= i < |es| && es[i].date == Some(r.value.earliest))
            && (exists i :: 0 <= i < |es| && es[i].date == Some(r.value.latest))
            && forall i :: 0 <= i < |es| && es[i].date.Some? ==>
                 DateLe(r.value.earliest, es[i].date.value) && DateLe(es[i].date.value, r.value.latest))
  {
    DatesOfSpec(es);
    var ds := DatesOf(es);
    if ds != [] {
      var lo := EarliestDate(ds);
      var hi := LatestDate(ds);
      assert DateLe(lo, hi);
      forall i | 0 <= i < |es| && es[i].date.Some?
        ensures DateLe(lo, es[i].date.value) && DateLe(es[i].date.value, hi)
      {
        assert es[i].date.value in ds;
      }
    }
  }

  /** The entry an invoice contributes carries its truthy vendor and its date when
      that date is a truthy string that parses. */
  lemma SummaryEntryMeaning(inv: Record)
    requires SummaryEntryOf(inv).Done?
    ensures var data := SubRecord(inv, "data").value;
      var e := SummaryEntryOf(inv).value;
      && (e.vendor.Some? <==> Truthy(Get(data, "vendor_name")))
      && (e.date.Some? <==> Get(data, "date").Str? && ParseDate(Get(data, "date").s).Some?)
  {
  }
}
