/**
 * The stateable rules of routes/receipts.js: the parameterised SQL of the
 * receipt list (`GET /`), the image URL of a listed receipt, and how the
 * upload route merges the form fields with what OCR suggested.
 *
 * Form and query values are strings or missing (`None`); `ocrData` being
 * `null` is the same as each of its fields being `None`.
 */
module Receipts {
  import opened Wrappers
  import opened Text
  import opened Dates
  import opened Candidates
  import opened Storage

  // ---------------------------------------------------------------------------
  // Placeholders of a PostgreSQL query text
  // ---------------------------------------------------------------------------

  /** The longest run of digits at the front of `s`. */
  function DigitRun(s: string): (d: string)
    ensures |d| <= |s| && AllDigits(d)
  {
    if |s| > 0 && IsDigit(s[0]) then [s[0]] + DigitRun(s[1..]) else ""
  }

  /** The numbers of the `$n` placeholders of a query text, left to right. */
  function Placeholders(q: string): seq<nat>
  {
    if q == [] then []
    else if q[0] == '$' && DigitRun(q[1..]) != "" then
      var d := DigitRun(q[1..]);
      [DigitsValue(d)] + Placeholders(q[1 + |d|..])
    else Placeholders(q[1..])
  }

  /** A run of digits stops where the following text starts with a non-digit. */
  lemma {:induction false} DigitRunAppend(a: string, b: string)
    requires b == [] || !IsDigit(b[0])
    ensures DigitRun(a + b) == DigitRun(a)
  {
    if a == [] {
      assert a + b == b;
    } else if IsDigit(a[0]) {
      assert (a + b)[1..] == a[1..] + b;
      DigitRunAppend(a[1..], b);
    }
  }

  /** Text that does not start with a digit keeps placeholders apart: numbering is additive. */
  lemma {:induction false} PlaceholdersAppend(a: string, b: string)
    requires b == [] || !IsDigit(b[0])
    ensures Placeholders(a + b) == Placeholders(a) + Placeholders(b)
    decreases |a|
  {
    if a == [] {
      assert a + b == b;
    } else if a[0] == '$' && DigitRun(a[1..]) != "" {
      PlaceholdersAppendAtDollar(a, b);
    } else {
      assert (a + b)[1..] == a[1..] + b;
      DigitRunAppend(a[1..], b);
      PlaceholdersAppend(a[1..], b);
    }
  }

  /** The step of `PlaceholdersAppend` where `a` starts with a placeholder. */
  lemma {:induction false} PlaceholdersAppendAtDollar(a: string, b: string)
    requires b == [] || !IsDigit(b[0])
    requires a != [] && a[0] == '$' && DigitRun(a[1..]) != ""
    ensures Placeholders(a + b) == Placeholders(a) + Placeholders(b)
    decreases |a|, 0
  {
    var d := DigitRun(a[1..]);
    assert (a + b)[1..] == a[1..] + b;
    DigitRunAppend(a[1..], b);
    assert (a + b)[1 + |d|..] == a[1 + |d|..] + b;
    PlaceholdersAppend(a[1 + |d|..], b);
  }

  /** Text without a dollar sign has no placeholder. */
  lemma {:induction false} NoPlaceholders(s: string)
    requires '$' !in s
    ensures Placeholders(s) == []
  {
    if s != [] {
      NoPlaceholders(s[1..]);
    }
  }

  /** `` `$${n}` `` is the one placeholder `n`. */
  lemma OnePlaceholder(n: nat)
    ensures Placeholders("$" + NatToString(n)) == [n]
  {
    var s := "$" + NatToString(n);
    assert s[1..] == NatToString(n);
    AllDigitsRun(NatToString(n));
    assert s[1 + |NatToString(n)|..] == [];
    DigitsValueOfNatToString(n);
  }

  lemma {:induction false} AllDigitsRun(s: string)
    requires AllDigits(s)
    ensures DigitRun(s) == s
  {
    if s != [] {
      AllDigitsRun(s[1..]);
    }
  }

  /** `lit` followed by the placeholder `n`, when `lit` has no dollar sign. */
  lemma ClausePlaceholders(lit: string, n: nat)
    requires '$' !in lit
    ensures Placeholders(lit + "$" + NatToString(n)) == [n]
  {
    NoPlaceholders(lit);
    OnePlaceholder(n);
    assert lit + "$" + NatToString(n) == lit + ("$" + NatToString(n));
    PlaceholdersAppend(lit, "$" + NatToString(n));
  }

  /** `[1, 2, ..., n]`. */
  function OneTo(n: nat): (r: seq<nat>)
    ensures |r| == n
  {
    if n == 0 then [] else OneTo(n - 1) + [n]
  }

  /** `OneTo(n)` numbers its positions from 1. */
  lemma {:induction false} OneToSpec(n: nat)
    ensures forall k :: 0 <= k < n ==> OneTo(n)[k] == k + 1
  {
    if n > 0 {
      OneToSpec(n - 1);
    }
  }

  // ---------------------------------------------------------------------------
  // GET /: the list query (routes/receipts.js:31-61)
  // ---------------------------------------------------------------------------

  /** A bound parameter: a query-string value, `parseInt` of one, or a number. */
  datatype Param = Text(s: string) | ParseIntOf(raw: string) | Int(n: int)

  /** A query-string value is truthy when it is present and not empty. */
  predicate Present(v: Option<string>) { v.Some? && v.value != "" }

  // The literals of the query, written in pieces short enough to reason about character by character.
  const SelectIds: string := "\n            " + "SELECT id, " + "date, vendor, " + "service_type, " + "amount, \n"
  const SelectKeys: string := "                   " + "image_s3_key, " + "created_at, " + "updated_at\n"
  const SelectColumns: string := SelectIds + SelectKeys
  const SelectFrom: string := "            " + "FROM receipts \n" + "            " + "WHERE user_id = "
  const SelectHead: string := SelectColumns + SelectFrom
  const SelectTail: string := " AND deleted_at" + " IS NULL\n        "
  const YearClause: string := " AND EXTRACT(" + "YEAR FROM date) = "
  const MonthClause: string := " AND EXTRACT(" + "MONTH FROM date) = "
  const ServiceClause: string := " AND service_type = "
  const OrderClause: string := " ORDER BY date DESC, " + "created_at DESC LIMIT "
  const OffsetClause: string := " OFFSET "

  lemma SelectIdsLiteral() ensures '$' !in SelectIds { }
  lemma SelectKeysLiteral() ensures '$' !in SelectKeys { }
  lemma SelectFromLiteral() ensures '$' !in SelectFrom { }
  lemma YearClauseLiteral() ensures Clause(YearClause) { }
  lemma MonthClauseLiteral() ensures Clause(MonthClause) { }
  lemma ServiceClauseLiteral() ensures Clause(ServiceClause) { }
  lemma OrderClauseLiteral() ensures Clause(OrderClause) { }
  lemma OffsetClauseLiteral() ensures Clause(OffsetClause) { }
  lemma SelectTailLiteral() ensures '$' !in SelectTail && !IsDigit(SelectTail[0]) { }

  /** The literal query the builder starts from, with the user's `$1`. */
  function BaseQuery(): string { SelectHead + "$1" + SelectTail }

  /** `parseInt(v)` of a query value, with `v` defaulting to the number `d` when missing. */
  function IntParam(v: Option<string>, d: int): Param
  {
    if v.Some? then ParseIntOf(v.value) else Int(d)
  }

  /** The parameters of the filters that are present, in the order year, month, service type. */
  function FilterParams(year: Option<string>, month: Option<string>, serviceType: Option<string>): (ps: seq<Param>)
    ensures |ps| == (if Present(year) then 1 else 0) + (if Present(month) then 1 else 0) + (if Present(serviceType) then 1 else 0)
  {
    (if Present(year) then [Text(year.value)] else [])
    + (if Present(month) then [Text(month.value)] else [])
    + (if Present(serviceType) then [Text(serviceType.value)] else [])
  }

  /** The parameters after one filter step: the value is pushed when the filter is present. */
  function WithParam(ps: seq<Param>, v: Option<string>): seq<Param>
  {
    if Present(v) then ps + [Text(v.value)] else ps
  }

  /** Pushing the present filters one by one gives the user, then `FilterParams`. */
  lemma FilterParamsSteps(userId: string, year: Option<string>, month: Option<string>, serviceType: Option<string>)
    ensures WithParam(WithParam(WithParam([Text(userId)], year), month), serviceType) ==
      [Text(userId)] + FilterParams(year, month, serviceType)
  {
  }

  /**
   * The literal pieces of the query text: the base text, which holds the
   * user's `$1`, the clause of each filter, and the LIMIT and OFFSET clauses.
   */
  datatype QueryText = QueryText(base: string, yearClause: string, monthClause: string, serviceClause: string,
                                 orderClause: string, offsetClause: string)

  /** The pieces of the receipt list query. */
  const ListQueryText: QueryText :=
    QueryText(BaseQuery(), YearClause, MonthClause, ServiceClause, OrderClause, OffsetClause)

  /** The base text has the one placeholder `$1` and every clause is a `Clause`. */
  predicate WellFormed(t: QueryText)
  {
    && Placeholders(t.base) == [1]
    && Clause(t.yearClause) && Clause(t.monthClause) && Clause(t.serviceClause)
    && Clause(t.orderClause) && Clause(t.offsetClause)
  }

  lemma ListQueryTextWellFormed()
    ensures WellFormed(ListQueryText)
  {
    BaseQueryPlaceholders();
    YearClauseLiteral();
    MonthClauseLiteral();
    ServiceClauseLiteral();
    OrderClauseLiteral();
    OffsetClauseLiteral();
  }

  /** The text after one filter step: the clause and the next placeholder when the filter is present. */
  function WithFilter(q: string, v: Option<string>, clause: string, paramIndex: nat): string
  {
    if Present(v) then q + clause + "$" + NatToString(paramIndex) else q
  }

  /** The next placeholder number after one filter step. */
  function NextIndex(v: Option<string>, paramIndex: nat): nat
  {
    if Present(v) then paramIndex + 1 else paramIndex
  }

  /** The text after the three filter steps. */
  function FilteredQuery(t: QueryText, year: Option<string>, month: Option<string>, serviceType: Option<string>): string
  {
    var i2 := NextIndex(year, 2);
    WithFilter(WithFilter(WithFilter(t.base, year, t.yearClause, 2), month, t.monthClause, i2),
               serviceType, t.serviceClause, NextIndex(month, i2))
  }

  /** The placeholder number after the three filter steps: the one LIMIT uses. */
  function LimitIndex(year: Option<string>, month: Option<string>, serviceType: Option<string>): nat
  {
    NextIndex(serviceType, NextIndex(month, NextIndex(year, 2)))
  }

  /** The whole query text: the clauses of the present filters, then LIMIT and OFFSET. */
  function QueryWith(t: QueryText, year: Option<string>, month: Option<string>, serviceType: Option<string>): string
  {
    var k := LimitIndex(year, month, serviceType);
    FilteredQuery(t, year, month, serviceType) + t.orderClause + "$" + NatToString(k)
      + t.offsetClause + "$" + NatToString(k + 1)
  }

  /** LIMIT gets placeholder 2 plus the number of present filters. */
  lemma LimitIndexCount(year: Option<string>, month: Option<string>, serviceType: Option<string>)
    ensures LimitIndex(year, month, serviceType) == 2 + |FilterParams(year, month, serviceType)|
  {
  }

  /**
   * The text and the parameters of the receipt list query. Each present
   * filter adds one clause with the next placeholder and one parameter; the
   * placeholders are then 1, 2, ... in order, one per parameter, so `$k`
   * binds `params[k - 1]`.
   */
  method BuildListQuery(userId: string, year: Option<string>, month: Option<string>, serviceType: Option<string>,
                        limit: Option<string>, offset: Option<string>)
    returns (queryText: string, params: seq<Param>)
    ensures queryText == QueryWith(ListQueryText, year, month, serviceType)
    ensures params == [Text(userId)] + FilterParams(year, month, serviceType) + [IntParam(limit, 50), IntParam(offset, 0)]
    ensures Placeholders(queryText) == OneTo(|params|)
  {
    queryText, params := BuildQueryOn(ListQueryText, userId, year, month, serviceType, limit, offset);
    ListQueryPlaceholders(year, month, serviceType);
  }

  /** The builder run on the pieces `t`. */
  method BuildQueryOn(t: QueryText, userId: string, year: Option<string>, month: Option<string>,
                      serviceType: Option<string>, limit: Option<string>, offset: Option<string>)
    returns (queryText: string, params: seq<Param>)
    ensures queryText == QueryWith(t, year, month, serviceType)
    ensures params == [Text(userId)] + FilterParams(year, month, serviceType) + [IntParam(limit, 50), IntParam(offset, 0)]
  {
    var paramIndex: nat;
    queryText, params, paramIndex := ApplyFilters(t, userId, year, month, serviceType);
    queryText := queryText + t.orderClause + "$" + NatToString(paramIndex)
      + t.offsetClause + "$" + NatToString(paramIndex + 1);
    params := params + [IntParam(limit, 50), IntParam(offset, 0)];
  }

  /** The base text and the three filter steps, from placeholder 2 on. */
  method ApplyFilters(t: QueryText, userId: string, year: Option<string>, month: Option<string>,
                      serviceType: Option<string>)
    returns (queryText: string, params: seq<Param>, paramIndex: nat)
    ensures queryText == FilteredQuery(t, year, month, serviceType)
    ensures params == [Text(userId)] + FilterParams(year, month, serviceType)
    ensures paramIndex == LimitIndex(year, month, serviceType)
  {
    queryText := t.base;
    params := [Text(userId)];
    paramIndex := 2;
    queryText, params, paramIndex := AddFilter(queryText, params, paramIndex, year, t.yearClause);
    queryText, params, paramIndex := AddFilter(queryText, params, paramIndex, month, t.monthClause);
    queryText, params, paramIndex := AddFilter(queryText, params, paramIndex, serviceType, t.serviceClause);
    FilterParamsSteps(userId, year, month, serviceType);
  }

  /**
   * `if (v) { queryText += clause + '$' + paramIndex; params.push(v); paramIndex++; }`
   */
  method AddFilter(queryText: string, params: seq<Param>, paramIndex: nat, v: Option<string>, clause: string)
    returns (queryText': string, params': seq<Param>, paramIndex': nat)
    ensures queryText' == WithFilter(queryText, v, clause, paramIndex)
    ensures params' == WithParam(params, v)
    ensures paramIndex' == NextIndex(v, paramIndex)
  {
    queryText', params', paramIndex' := queryText, params, paramIndex;
    if Present(v) {
      queryText' := queryText' + clause + "$" + NatToString(paramIndex');
      params' := params' + [Text(v.value)];
      paramIndex' := paramIndex' + 1;
    }
  }

  /**
   * The placeholders of the list query are `1..n`, `n` being the number of its
   * parameters: three plus one per present filter.
   */
  lemma ListQueryPlaceholders(year: Option<string>, month: Option<string>, serviceType: Option<string>)
    ensures Placeholders(QueryWith(ListQueryText, year, month, serviceType)) ==
      OneTo(3 + |FilterParams(year, month, serviceType)|)
  {
    ListQueryTextWellFormed();
    QueryWithPlaceholders(ListQueryText, year, month, serviceType);
    LimitIndexCount(year, month, serviceType);
  }

  /** The numbering argument for any well-formed pieces. */
  lemma QueryWithPlaceholders(t: QueryText, year: Option<string>, month: Option<string>, serviceType: Option<string>)
    requires WellFormed(t)
    ensures Placeholders(QueryWith(t, year, month, serviceType)) == OneTo(LimitIndex(year, month, serviceType) + 1)
  {
    var q, k := FilteredPlaceholders(t, year, month, serviceType);
    LimitOffsetPlaceholders(q, t.orderClause, t.offsetClause, k);
  }

  /** The LIMIT and OFFSET clauses take the next two numbers. */
  lemma LimitOffsetPlaceholders(q: string, orderClause: string, offsetClause: string, k: nat)
    requires k >= 1 && Placeholders(q) == OneTo(k - 1)
    requires Clause(orderClause) && Clause(offsetClause)
    ensures Placeholders(q + orderClause + "$" + NatToString(k) + offsetClause + "$" + NatToString(k + 1)) == OneTo(k + 1)
  {
    AppendClause(q, orderClause, k);
    AppendClause(q + orderClause + "$" + NatToString(k), offsetClause, k + 1);
  }

  /** The three filter steps number their placeholders from 2 on; `k` is the number LIMIT gets. */
  lemma FilteredPlaceholders(t: QueryText, year: Option<string>, month: Option<string>, serviceType: Option<string>)
    returns (q: string, k: nat)
    requires WellFormed(t)
    ensures q == FilteredQuery(t, year, month, serviceType) && k == LimitIndex(year, month, serviceType)
    ensures k >= 1 && Placeholders(q) == OneTo(k - 1)
  {
    var q2, i3 := YearMonthPlaceholders(t, year, month);
    q := WithFilter(q2, serviceType, t.serviceClause, i3);
    k := NextIndex(serviceType, i3);
    FilterPlaceholders(q2, serviceType, t.serviceClause, i3);
  }

  /** The year and month steps, numbered 2 and on; `i3` is the next number. */
  lemma YearMonthPlaceholders(t: QueryText, year: Option<string>, month: Option<string>) returns (q2: string, i3: nat)
    requires WellFormed(t)
    ensures q2 == WithFilter(WithFilter(t.base, year, t.yearClause, 2), month, t.monthClause, NextIndex(year, 2))
    ensures i3 == NextIndex(month, NextIndex(year, 2))
    ensures i3 >= 1 && Placeholders(q2) == OneTo(i3 - 1)
  {
    var q1 := WithFilter(t.base, year, t.yearClause, 2);
    var i2 := NextIndex(year, 2);
    FilterPlaceholders(t.base, year, t.yearClause, 2);
    q2 := WithFilter(q1, month, t.monthClause, i2);
    i3 := NextIndex(month, i2);
    FilterPlaceholders(q1, month, t.monthClause, i2);
  }

  /** A filter step continues the numbering. */
  lemma FilterPlaceholders(q: string, v: Option<string>, clause: string, paramIndex: nat)
    requires paramIndex >= 1 && Placeholders(q) == OneTo(paramIndex - 1) && Clause(clause)
    ensures NextIndex(v, paramIndex) >= 1
    ensures Placeholders(WithFilter(q, v, clause, paramIndex)) == OneTo(NextIndex(v, paramIndex) - 1)
  {
    if Present(v) {
      AppendClause(q, clause, paramIndex);
    }
  }

  /** A clause literal: no placeholder in it, and it does not run on from a preceding number. */
  predicate Clause(lit: string) { '$' !in lit && lit != [] && !IsDigit(lit[0]) }

  /** The base query has the one placeholder `$1`. */
  lemma BaseQueryPlaceholders()
    ensures Placeholders(BaseQuery()) == [1]
  {
    SelectIdsLiteral();
    SelectKeysLiteral();
    SelectFromLiteral();
    SelectTailLiteral();
    assert '$' !in SelectHead;
    NoPlaceholders(SelectTail);
    ClausePlaceholders(SelectHead, 1);
    assert NatToString(1) == "1";
    assert SelectHead + "$1" == SelectHead + "$" + NatToString(1);
    PlaceholdersAppend(SelectHead + "$1", SelectTail);
  }

  /** Appending a clause and the placeholder `n` to a query whose placeholders are `1..n-1`. */
  lemma AppendClause(q: string, lit: string, n: nat)
    requires n >= 1 && Placeholders(q) == OneTo(n - 1)
    requires Clause(lit)
    ensures Placeholders(q + lit + "$" + NatToString(n)) == OneTo(n)
  {
    ClausePlaceholders(lit, n);
    assert q + lit + "$" + NatToString(n) == q + (lit + "$" + NatToString(n));
    PlaceholdersAppend(q, lit + "$" + NatToString(n));
  }

  // ---------------------------------------------------------------------------
  // Image URLs of listed receipts (routes/receipts.js:74-81)
  // ---------------------------------------------------------------------------

  const DefaultApiBaseUrl: string := "http://localhost:3000"

  /** A local `/uploads/` URL gets the API base URL in front; any other URL, or none, is kept. */
  function AbsoluteUrl(url: Option<string>, apiBaseUrl: Option<string>): (r: Option<string>)
    ensures url.Some? && StartsWith(url.value, UploadsPrefix) ==>
      r == Some((if Present(apiBaseUrl) then apiBaseUrl.value else DefaultApiBaseUrl) + url.value)
    ensures !(url.Some? && StartsWith(url.value, UploadsPrefix)) ==> r == url
  {
    if url.Some? && StartsWith(url.value, UploadsPrefix) then
      Some((if Present(apiBaseUrl) then apiBaseUrl.value else DefaultApiBaseUrl) + url.value)
    else url
  }

  /** The `image_url` of a listed receipt. */
  function ImageUrl(imageKey: Option<string>, accessKey: Option<string>, secretKey: Option<string>,
                    apiBaseUrl: Option<string>): Option<string>
  {
    if Present(imageKey) then AbsoluteUrl(GetFileUrl(imageKey.value, accessKey, secretKey), apiBaseUrl)
    else None
  }

  /**
   * A stored image has a URL exactly when S3 is not configured, and then it is
   * the API base URL followed by `/uploads/` and the key.
   */
  lemma ImageUrlSpec(imageKey: Option<string>, accessKey: Option<string>, secretKey: Option<string>,
                     apiBaseUrl: Option<string>)
    ensures ImageUrl(imageKey, accessKey, secretKey, apiBaseUrl).Some? <==>
      Present(imageKey) && !IsS3Configured(accessKey, secretKey)
    ensures Present(imageKey) && !IsS3Configured(accessKey, secretKey) ==>
      ImageUrl(imageKey, accessKey, secretKey, apiBaseUrl) ==
        Some((if Present(apiBaseUrl) then apiBaseUrl.value else DefaultApiBaseUrl) + UploadsPrefix + imageKey.value)
  {
    if Present(imageKey) && !IsS3Configured(accessKey, secretKey) {
      var u := GetFileUrl(imageKey.value, accessKey, secretKey);
      var base := if Present(apiBaseUrl) then apiBaseUrl.value else DefaultApiBaseUrl;
      assert u == Some(UploadsPrefix + imageKey.value);
      assert AbsoluteUrl(u, apiBaseUrl) == Some(base + u.value);
      assert base + (UploadsPrefix + imageKey.value) == base + UploadsPrefix + imageKey.value;
    }
  }

  // ---------------------------------------------------------------------------
  // POST /upload: merging form fields with OCR suggestions (routes/receipts.js:161-224)
  // ---------------------------------------------------------------------------

  /** `!v || v.trim() === ''`. */
  predicate Blank(v: Option<string>) { v.None? || Trim(v.value) == "" }

  /** `isOCROnly`: no date, vendor or amount was typed in. */
  predicate IsOcrOnly(date: Option<string>, vendor: Option<string>, amount: Option<string>)
  {
    Blank(date) && Blank(vendor) && Blank(amount)
  }

  /** A field is blank exactly when it is missing or all whitespace. */
  lemma BlankIff(v: Option<string>)
    ensures Blank(v) <==> v.None? || forall i :: 0 <= i < |v.value| ==> IsSpace(v.value[i])
  {
    if v.Some? {
      TrimEmptyIffBlank(v.value);
    }
  }

  /**
   * A request is only an OCR request exactly when each of date, vendor and
   * amount is missing or whitespace; the service type takes no part.
   */
  lemma IsOcrOnlySpec(date: Option<string>, vendor: Option<string>, amount: Option<string>)
    ensures IsOcrOnly(date, vendor, amount) <==>
      && (date.None? || forall i :: 0 <= i < |date.value| ==> IsSpace(date.value[i]))
      && (vendor.None? || forall i :: 0 <= i < |vendor.value| ==> IsSpace(vendor.value[i]))
      && (amount.None? || forall i :: 0 <= i < |amount.value| ==> IsSpace(amount.value[i]))
  {
    BlankIff(date);
    BlankIff(vendor);
    BlankIff(amount);
  }

  /**
   * `receiptDate`: the typed date as typed when it is not blank; else the OCR
   * date, when there is one and it parses, as `YYYY-MM-DD`; else today.
   */
  method ReceiptDate(date: Option<string>, ocrDate: Option<string>, parse: DateParser, today: Date)
    returns (receiptDate: string)
    ensures !Blank(date) ==> receiptDate == date.value
    ensures Blank(date) && Present(ocrDate) && parse(ocrDate.value).Some? ==>
      receiptDate == FormatIso(parse(ocrDate.value).value)
    ensures Blank(date) && !(Present(ocrDate) && parse(ocrDate.value).Some?) ==> receiptDate == FormatIso(today)
    ensures Trim(receiptDate) != ""
  {
    var chosen: Option<string> := if date.Some? && date.value != "" && Trim(date.value) != "" then date else None;
    if chosen.None? && Present(ocrDate) {
      var parsed := parse(ocrDate.value);
      if parsed.Some? {
        chosen := Some(FormatIso(parsed.value));
      }
    }
    if chosen.None? {
      chosen := Some(FormatIso(today));
    }
    receiptDate := chosen.value;
    if Blank(date) {
      IsoNotBlank(receiptDate);
    }
  }

  /** A printed date is never blank: it has a `-` in it. */
  lemma IsoNotBlank(s: string)
    requires |s| >= 10 && s[|s| - 3] == '-'
    ensures Trim(s) != ""
  {
    NonSpaceNotBlank(s, |s| - 3);
  }

  /** `(v && v.trim()) || (o && o.trim()) || fallback`. */
  function Prefer(v: Option<string>, o: Option<string>, fallback: string): string
  {
    if !Blank(v) then Trim(v.value) else if !Blank(o) then Trim(o.value) else fallback
  }

  /** `receiptVendor`: trimmed, and empty exactly when neither the form nor OCR has a vendor. */
  function ReceiptVendor(vendor: Option<string>, ocrVendor: Option<string>): (r: string)
    ensures IsTrimmed(r)
    ensures r == "" <==> Blank(vendor) && Blank(ocrVendor)
    ensures !Blank(vendor) ==> r == Trim(vendor.value)
    ensures Blank(vendor) && !Blank(ocrVendor) ==> r == Trim(ocrVendor.value)
  {
    Prefer(vendor, ocrVendor, "")
  }

  /** `receiptService`: trimmed, never empty, and `Other` when neither source has one. */
  function ReceiptService(serviceType: Option<string>, ocrService: Option<string>): (r: string)
    ensures IsTrimmed(r) && r != ""
    ensures !Blank(serviceType) ==> r == Trim(serviceType.value)
    ensures Blank(serviceType) && !Blank(ocrService) ==> r == Trim(ocrService.value)
    ensures Blank(serviceType) && Blank(ocrService) ==> r == "Other"
  {
    Prefer(serviceType, ocrService, "Other")
  }

  /** The amount before validation: `parseFloat` of the typed text, or the OCR amount, or 0. */
  datatype Amount = ParseFloatOf(raw: string) | Cents(cents: nat)

  /** `receiptAmount`: a typed amount beats a non-zero OCR amount, which beats 0. */
  method ReceiptAmount(amount: Option<string>, ocrAmount: Option<nat>) returns (receiptAmount: Amount)
    ensures !Blank(amount) ==> receiptAmount == ParseFloatOf(amount.value)
    ensures Blank(amount) && ocrAmount.Some? && ocrAmount.value != 0 ==> receiptAmount == Cents(ocrAmount.value)
    ensures Blank(amount) && (ocrAmount.None? || ocrAmount.value == 0) ==> receiptAmount == Cents(0)
  {
    receiptAmount := Cents(0);
    if amount.Some? && amount.value != "" && Trim(amount.value) != "" {
      receiptAmount := ParseFloatOf(amount.value);
    } else if ocrAmount.Some? && ocrAmount.value != 0 {
      receiptAmount := Cents(ocrAmount.value);
    }
  }
}
