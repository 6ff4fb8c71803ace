/**
 * `parseReceiptText` (services/ocr.js:99-244): the fields it extracts from the
 * OCR text, first as one function of the inputs (`Extract`), then as the
 * step-by-step procedure the source runs, proved to compute the same fields.
 *
 * The runtime's date parser and the current year are parameters.
 */
module ReceiptParser {
  import opened Wrappers
  import opened Text
  import opened Dates
  import opened Patterns
  import opened Candidates
  import opened VendorRules
  import opened ServiceType

  /** The `data` object: each field is set or absent. Amounts are in cents. */
  datatype ReceiptFields = ReceiptFields(
    date: Option<string>,
    amount: Option<nat>,
    vendor: Option<string>,
    serviceType: Option<string>)

  /** What `parseReceiptText(text)` returns. */
  function Extract(t: string, parse: DateParser, currentYear: int): ReceiptFields
  {
    ReceiptFields(
      ChosenDate(FoundDates(t, parse, currentYear)),
      ChosenAmount(FoundAmounts(t)),
      Vendor(t),
      DetectedService(t))
  }

  /** A date in the output is what `Candidates.ChosenDateFound` says about the chosen date. */
  lemma ExtractedDate(t: string, parse: DateParser, currentYear: int) returns (c: DateCandidate)
    requires Extract(t, parse, currentYear).date.Some?
    ensures c in FoundDates(t, parse, currentYear)
    ensures Extract(t, parse, currentYear).date.value == FormatIso(c.date)
    ensures YearInRange(c.date.year, currentYear)
    ensures exists i, k :: (0 <= i < |DatePatterns| && 0 <= k < |MatchAll(t, DatePatterns[i])| &&
      var m := MatchAll(t, DatePatterns[i])[k];
      parse(t[m.start..m.end]) == Some(c.date) && c.weight == DateWeight(m.start))
    ensures forall j :: 0 <= j < |FoundDates(t, parse, currentYear)| ==>
      FoundDates(t, parse, currentYear)[j].weight <= c.weight
  {
    c := ChosenDateFound(t, parse, currentYear);
  }

  /** An amount in the output is what `Candidates.ChosenAmountFound` says about the chosen amount. */
  lemma ExtractedAmount(t: string, parse: DateParser, currentYear: int) returns (c: AmountCandidate)
    requires Extract(t, parse, currentYear).amount.Some?
    ensures c in FoundAmounts(t) && Extract(t, parse, currentYear).amount.value == c.cents
    ensures 0 < c.cents < 100000 * 100
    ensures exists i, k :: (0 <= i < |AmountPatterns| && 0 <= k < |MatchAll(t, AmountPatterns[i])| &&
      var m := MatchAll(t, AmountPatterns[i])[k];
      m.start == c.position && ParseFloatCents(MatchedNumber(t, m)) == Some(c.cents))
    ensures (exists j :: 0 <= j < |FoundAmounts(t)| && FoundAmounts(t)[j].weight == FULL) ==> c.weight == FULL
  {
    c := ChosenAmountFound(t);
  }

  /**
   * `text.replace(/\s+/g, ' ')`: every run of whitespace becomes one space.
   * The parser computes `cleanText` from this and then never reads it.
   */
  function CollapseWhitespace(s: string): (r: string)
    ensures forall i :: 0 <= i < |r| && IsSpace(r[i]) ==> r[i] == ' '
    ensures forall i :: 0 <= i < |r| - 1 && IsSpace(r[i]) ==> !IsSpace(r[i + 1])
    ensures |s| > 0 && !IsSpace(s[0]) ==> |r| > 0 && r[0] == s[0]
    ensures |s| > 0 ==> |r| > 0
    decreases |s|
  {
    if s == [] then []
    else if IsSpace(s[0]) then
      var w := Run(s, 0, Space);
      " " + CollapseWhitespace(s[w..])
    else [s[0]] + CollapseWhitespace(s[1..])
  }

  /** The characters of `s` that are not whitespace, in order. */
  function NonSpaces(s: string): (r: string)
    ensures |r| <= |s|
  {
    if s == [] then [] else (if IsSpace(s[0]) then [] else [s[0]]) + NonSpaces(s[1..])
  }

  lemma {:induction false} NonSpacesAppend(a: string, b: string)
    ensures NonSpaces(a + b) == NonSpaces(a) + NonSpaces(b)
  {
    if a != [] {
      assert (a + b)[1..] == a[1..] + b;
      NonSpacesAppend(a[1..], b);
    } else {
      assert a + b == b;
    }
  }

  lemma {:induction false} NonSpacesOfBlank(s: string)
    requires forall i :: 0 <= i < |s| ==> IsSpace(s[i])
    ensures NonSpaces(s) == []
  {
    if s != [] {
      NonSpacesOfBlank(s[1..]);
    }
  }

  /** Collapsing changes only whitespace: the other characters stay, in order. */
  lemma {:induction false} CollapseKeepsNonSpaces(s: string)
    ensures NonSpaces(CollapseWhitespace(s)) == NonSpaces(s)
    decreases |s|
  {
    if s != [] {
      if IsSpace(s[0]) {
        var w := Run(s, 0, Space);
        CollapseKeepsNonSpaces(s[w..]);
        NonSpacesAppend(" ", CollapseWhitespace(s[w..]));
        assert NonSpaces(" ") == [];
        assert s == s[..w] + s[w..];
        NonSpacesAppend(s[..w], s[w..]);
        NonSpacesOfBlank(s[..w]);
      } else {
        CollapseKeepsNonSpaces(s[1..]);
        assert ([s[0]] + CollapseWhitespace(s[1..]))[1..] == CollapseWhitespace(s[1..]);
      }
    }
  }

  /**
   * The replacement read one character at a time: a whitespace character
   * writes a space unless the character before it was whitespace too, and any
   * other character is copied.
   */
  function Squeeze(s: string, afterSpace: bool): string
  {
    if s == [] then []
    else if IsSpace(s[0]) then (if afterSpace then "" else " ") + Squeeze(s[1..], true)
    else [s[0]] + Squeeze(s[1..], false)
  }

  lemma {:induction false} SqueezeSkipsSpaces(s: string, j: nat, w: nat)
    requires j <= w <= |s| && forall k :: j <= k < w ==> IsSpace(s[k])
    ensures Squeeze(s[j..], true) == Squeeze(s[w..], true)
    decreases w - j
  {
    if j < w {
      assert s[j..][1..] == s[j + 1..];
      SqueezeSkipsSpaces(s, j + 1, w);
    }
  }

  /** `replace(/\s+/g, ' ')` writes exactly what the one-character-at-a-time reading writes. */
  lemma {:induction false} CollapseIsSqueeze(s: string)
    ensures CollapseWhitespace(s) == Squeeze(s, false)
    decreases |s|
  {
    if s != [] {
      if IsSpace(s[0]) {
        var w := Run(s, 0, Space);
        CollapseIsSqueeze(s[w..]);
        SqueezeSkipsSpaces(s, 1, w);
        assert s[1..] == s[1..][..];
      } else {
        CollapseIsSqueeze(s[1..]);
      }
    }
  }

  /** Element 0 after the stable sort: a loop that keeps the first best rank seen. */
  method PickWinner(rs: seq<Rank>) returns (best: nat)
    requires |rs| > 0
    ensures best == Winner(rs)
  {
    best := 0;
    for i := 1 to |rs|
      invariant best == Winner(rs[..i])
    {
      assert rs[..i + 1][..i] == rs[..i];
      if Outranks(rs[i], rs[best]) {
        best := i;
      }
    }
    assert rs[..|rs|] == rs;
  }

  /** The inner date loop over the matches of one pattern. */
  method DatesOfMatches(text: string, parse: DateParser, currentYear: int, matches: seq<Span>)
    returns (found: seq<DateCandidate>)
    requires forall k :: 0 <= k < |matches| ==> WellFormed(text, matches[k])
    ensures found == Keep(matches, DateFilter(text, parse, currentYear))
  {
    ghost var dateOf := DateFilter(text, parse, currentYear);
    found := [];
    for mi := 0 to |matches|
      invariant found == Keep(matches[..mi], dateOf)
    {
      var m := matches[mi];
      var date := parse(text[m.start..m.end]);
      if date.Some? {
        var year := date.value.year;
        if year >= 2000 && year <= currentYear + 1 {
          found := found + [DateCandidate(date.value, if m.start < 500 then FULL else HALF)];
        }
      }
      KeepStep(matches, mi, dateOf);
    }
    assert matches[..|matches|] == matches;
  }

  /** The date loops: every match of every date pattern, in order, through the year filter. */
  method CollectDates(text: string, parse: DateParser, currentYear: int) returns (foundDates: seq<DateCandidate>)
    ensures foundDates == FoundDates(text, parse, currentYear)
  {
    foundDates := [];
    for pi := 0 to |DatePatterns|
      invariant foundDates == Collect(text, DatePatterns[..pi], DateFilter(text, parse, currentYear))
    {
      var found := DatesOfMatches(text, parse, currentYear, MatchAll(text, DatePatterns[pi]));
      foundDates := foundDates + found;
      CollectStep(text, DatePatterns, pi, DateFilter(text, parse, currentYear));
    }
    assert DatePatterns[..|DatePatterns|] == DatePatterns;
  }

  /** The inner amount loop over the matches of one pattern. */
  method AmountsOfMatches(text: string, matches: seq<Span>) returns (found: seq<AmountCandidate>)
    requires forall k :: 0 <= k < |matches| ==> WellFormed(text, matches[k])
    ensures found == Keep(matches, AmountFilter(text))
  {
    ghost var amountOf := AmountFilter(text);
    found := [];
    for mi := 0 to |matches|
      invariant found == Keep(matches[..mi], amountOf)
    {
      var m := matches[mi];
      var amountStr := AmountString(text[m.start..m.end], text[m.groupStart..m.end]);
      var amount := ParseFloatCents(amountStr);
      // The same number string and test as the filter the specification uses.
      assert amountOf(m) == AmountCandidateOf(text, m);
      assert amountStr == MatchedNumber(text, m);
      ghost var ok := amount.Some? && 0 < amount.value < 100000 * 100 && '.' in amountStr;
      assert AmountCandidateOf(text, m) ==
        if ok then Some(AmountCandidate(amount.value, AmountWeight(text, m.start), m.start)) else None;
      if amount.Some? && 0 < amount.value < 100000 * 100 && '.' in amountStr {
        var isTotal := ContainsAnyCI(Window(text, m.start), TotalWords);
        found := found + [AmountCandidate(amount.value, if isTotal then FULL else HALF, m.start)];
      }
      KeepStep(matches, mi, amountOf);
    }
    assert matches[..|matches|] == matches;
  }

  /** The amount loops: every match of every amount pattern, in order, through the value filter. */
  method CollectAmounts(text: string) returns (amounts: seq<AmountCandidate>)
    ensures amounts == FoundAmounts(text)
  {
    amounts := [];
    for pi := 0 to |AmountPatterns|
      invariant amounts == Collect(text, AmountPatterns[..pi], AmountFilter(text))
    {
      var found := AmountsOfMatches(text, MatchAll(text, AmountPatterns[pi]));
      amounts := amounts + found;
      CollectStep(text, AmountPatterns, pi, AmountFilter(text));
    }
    assert AmountPatterns[..|AmountPatterns|] == AmountPatterns;
  }

  /** The loop over the two fallback expressions, left at the first plausible name. */
  method FallbackVendor(text: string) returns (vendor: Option<string>)
    ensures vendor == FallbackFrom(text, 0)
  {
    vendor := None;
    var k := 0;
    while k < |VendorPatterns|
      invariant 0 <= k <= |VendorPatterns|
      invariant FallbackFrom(text, k) == FallbackFrom(text, 0)
    {
      var group := VendorGroup(text, VendorPatterns[k]);
      if group.Some? && group.value != "" {
        var v := Trim(group.value);
        if PlausibleName(v) {
          vendor := Some(v);
          break;
        }
      }
      k := k + 1;
    }
  }

  /** The line scan, then, when it found nothing, the fallback expressions. */
  method FindVendor(text: string) returns (vendor: Option<string>)
    ensures vendor == Vendor(text)
  {
    vendor := ScanLines(Lines(text));
    if vendor.None? || vendor.value == "" {
      vendor := FallbackVendor(text);
    }
  }

  /** The procedure of the source, step by step. */
  method ParseReceiptText(text: string, parse: DateParser, currentYear: int) returns (data: ReceiptFields)
    ensures data == Extract(text, parse, currentYear)
  {
    var cleanText := Trim(CollapseWhitespace(text));

    var foundDates := CollectDates(text, parse, currentYear);
    var date: Option<string> := None;
    if |foundDates| > 0 {
      var k := PickWinner(DateRanks(foundDates));
      date := Some(FormatIso(foundDates[k].date));
    }

    var amounts := CollectAmounts(text);
    var amount: Option<nat> := None;
    if |amounts| > 0 {
      var k := PickWinner(AmountRanks(amounts));
      amount := Some(amounts[k].cents);
    }

    var vendor := FindVendor(text);
    var serviceType := DetectServiceType(text);
    data := ReceiptFields(date, amount, vendor, serviceType);
  }
}
