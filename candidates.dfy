/**
 * The candidates `parseReceiptText` collects from the matches of its date and
 * amount expressions (services/ocr.js:117-135 and 155-170), and the way it picks
 * one of them: a stable sort followed by taking element 0.
 *
 * Confidences are 1 and 0.5 in the source; here they are the weights
 * `FULL` = 2 and `HALF` = 1, which order candidates the same way.
 */
module Candidates {
  import opened Wrappers
  import opened Text
  import opened Dates
  import opened Patterns

  const FULL: nat := 2
  const HALF: nat := 1

  // ---------------------------------------------------------------------------
  // Collecting: every match of every pattern, in order, through a filter
  // ---------------------------------------------------------------------------

  /** The candidates `f` makes of the matches `ms`, in match order (back-recursive). */
  function Keep<A>(ms: seq<Span>, f: Span -> Option<A>): (cs: seq<A>)
    ensures |cs| <= |ms|
  {
    if ms == [] then []
    else
      var m := ms[|ms| - 1];
      Keep(ms[..|ms| - 1], f) + if f(m).Some? then [f(m).value] else []
  }

  /** `Keep` keeps exactly the candidates `f` makes, and nothing else. */
  lemma {:induction false} KeepSpec<A>(ms: seq<Span>, f: Span -> Option<A>)
    ensures forall c :: c in Keep(ms, f) ==> exists k :: 0 <= k < |ms| && f(ms[k]) == Some(c)
    ensures forall k :: 0 <= k < |ms| && f(ms[k]).Some? ==> f(ms[k]).value in Keep(ms, f)
  {
    if ms != [] {
      var init := ms[..|ms| - 1];
      KeepSpec(init, f);
      assert forall k :: 0 <= k < |init| ==> init[k] == ms[k];
    }
  }

  /**
   * The candidates of all matches of the patterns `ps`, pattern by pattern and
   * match by match: what the source's nested `for` loops push.
   */
  function Collect<A>(t: string, ps: seq<Pattern>, f: Span -> Option<A>): seq<A>
  {
    if ps == [] then [] else Collect(t, ps[..|ps| - 1], f) + Keep(MatchAll(t, ps[|ps| - 1]), f)
  }

  /** Every collected candidate is what `f` makes of some match of some pattern. */
  lemma {:induction false} CollectSound<A>(t: string, ps: seq<Pattern>, f: Span -> Option<A>, c: A)
    requires c in Collect(t, ps, f)
    ensures exists i, k :: 0 <= i < |ps| && 0 <= k < |MatchAll(t, ps[i])| && f(MatchAll(t, ps[i])[k]) == Some(c)
  {
    var init := ps[..|ps| - 1];
    var last := |ps| - 1;
    var ms := MatchAll(t, ps[last]);
    assert Collect(t, ps, f) == Collect(t, init, f) + Keep(ms, f);
    if c in Collect(t, init, f) {
      CollectSound(t, init, f, c);
      var i, k :| 0 <= i < |init| && 0 <= k < |MatchAll(t, init[i])| && f(MatchAll(t, init[i])[k]) == Some(c);
      assert init[i] == ps[i];
    } else {
      KeepSpec(ms, f);
      var k :| 0 <= k < |ms| && f(ms[k]) == Some(c);
      assert 0 <= last < |ps| && 0 <= k < |MatchAll(t, ps[last])| && f(MatchAll(t, ps[last])[k]) == Some(c);
    }
  }

  /** Every candidate `f` makes of a match of one of the patterns is collected. */
  lemma {:induction false} CollectComplete<A>(t: string, ps: seq<Pattern>, f: Span -> Option<A>, i: nat, k: nat)
    requires i < |ps| && k < |MatchAll(t, ps[i])| && f(MatchAll(t, ps[i])[k]).Some?
    ensures f(MatchAll(t, ps[i])[k]).value in Collect(t, ps, f)
  {
    var init := ps[..|ps| - 1];
    var last := |ps| - 1;
    var ms := MatchAll(t, ps[last]);
    assert Collect(t, ps, f) == Collect(t, init, f) + Keep(ms, f);
    if i < last {
      assert init[i] == ps[i];
      CollectComplete(t, init, f, i, k);
    } else {
      assert i == last && MatchAll(t, ps[i]) == ms;
      KeepSpec(ms, f);
      var c := f(ms[k]).value;
      assert c in Keep(ms, f);
      assert c in Collect(t, init, f) + Keep(ms, f);
    }
  }

  /** One more match handled by the inner loop. */
  lemma KeepStep<A>(ms: seq<Span>, i: nat, f: Span -> Option<A>)
    requires i < |ms|
    ensures Keep(ms[..i + 1], f) == Keep(ms[..i], f) + (if f(ms[i]).Some? then [f(ms[i]).value] else [])
  {
    assert ms[..i + 1][..i] == ms[..i];
  }

  /** One more pattern handled by the outer loop. */
  lemma CollectStep<A>(t: string, ps: seq<Pattern>, i: nat, f: Span -> Option<A>)
    requires i < |ps|
    ensures Collect(t, ps[..i + 1], f) == Collect(t, ps[..i], f) + Keep(MatchAll(t, ps[i]), f)
  {
    assert ps[..i + 1][..i] == ps[..i];
  }

  // ---------------------------------------------------------------------------
  // Dates (services/ocr.js:117-135)
  // ---------------------------------------------------------------------------

  /** `new Date(s)` for the matched text: the runtime's parser, a parameter of the model. */
  type DateParser = string -> Option<Date>

  datatype DateCandidate = DateCandidate(date: Date, weight: nat)

  predicate YearInRange(year: int, currentYear: int) { 2000 <= year <= currentYear + 1 }

  /** A match found before position 500 counts fully, a later one half. */
  function DateWeight(index: nat): (w: nat)
    ensures w == FULL <==> index < 500
    ensures w == FULL || w == HALF
  {
    if index < 500 then FULL else HALF
  }

  /** What the loop body pushes for one date match, if anything. */
  function DateCandidateOf(t: string, parse: DateParser, currentYear: int, m: Span): (r: Option<DateCandidate>)
    ensures r.Some? <==> (WellFormed(t, m) && parse(t[m.start..m.end]).Some? &&
                          YearInRange(parse(t[m.start..m.end]).value.year, currentYear))
    ensures r.Some? ==> r.value.date == parse(t[m.start..m.end]).value && r.value.weight == DateWeight(m.start)
  {
    if !WellFormed(t, m) then None
    else
      var d := parse(t[m.start..m.end]);
      if d.Some? && YearInRange(d.value.year, currentYear) then Some(DateCandidate(d.value, DateWeight(m.start)))
      else None
  }

  function DateFilter(t: string, parse: DateParser, currentYear: int): Span -> Option<DateCandidate>
  {
    (m: Span) => DateCandidateOf(t, parse, currentYear, m)
  }

  /** `foundDates` after the loops. */
  function FoundDates(t: string, parse: DateParser, currentYear: int): seq<DateCandidate>
  {
    Collect(t, DatePatterns, DateFilter(t, parse, currentYear))
  }

  /**
   * A date is a candidate exactly when some match of a date pattern parses to
   * it with a year in [2000, currentYear + 1], weighted by where that match starts.
   */
  lemma FoundDatesSpec(t: string, parse: DateParser, currentYear: int)
    ensures forall c :: c in FoundDates(t, parse, currentYear) ==>
      exists i, k :: (0 <= i < |DatePatterns| && 0 <= k < |MatchAll(t, DatePatterns[i])| &&
        var m := MatchAll(t, DatePatterns[i])[k];
        parse(t[m.start..m.end]) == Some(c.date) && YearInRange(c.date.year, currentYear) &&
        c.weight == DateWeight(m.start))
    ensures forall i, k :: 0 <= i < |DatePatterns| && 0 <= k < |MatchAll(t, DatePatterns[i])| ==>
      var m := MatchAll(t, DatePatterns[i])[k];
      var d := parse(t[m.start..m.end]);
      d.Some? && YearInRange(d.value.year, currentYear) ==>
        DateCandidate(d.value, DateWeight(m.start)) in FoundDates(t, parse, currentYear)
  {
    var f := DateFilter(t, parse, currentYear);
    var cs := FoundDates(t, parse, currentYear);
    forall c | c in cs
      ensures exists i, k :: (0 <= i < |DatePatterns| && 0 <= k < |MatchAll(t, DatePatterns[i])| &&
        var m := MatchAll(t, DatePatterns[i])[k];
        parse(t[m.start..m.end]) == Some(c.date) && YearInRange(c.date.year, currentYear) &&
        c.weight == DateWeight(m.start))
    {
      CollectSound(t, DatePatterns, f, c);
      var i, k :| 0 <= i < |DatePatterns| && 0 <= k < |MatchAll(t, DatePatterns[i])| &&
        f(MatchAll(t, DatePatterns[i])[k]) == Some(c);
      var m := MatchAll(t, DatePatterns[i])[k];
      assert DateCandidateOf(t, parse, currentYear, m) == Some(c);
    }
    forall i, k | 0 <= i < |DatePatterns| && 0 <= k < |MatchAll(t, DatePatterns[i])|
      ensures var m := MatchAll(t, DatePatterns[i])[k];
        var d := parse(t[m.start..m.end]);
        d.Some? && YearInRange(d.value.year, currentYear) ==> DateCandidate(d.value, DateWeight(m.start)) in cs
    {
      var m := MatchAll(t, DatePatterns[i])[k];
      assert WellFormed(t, m);
      assert f(m) == DateCandidateOf(t, parse, currentYear, m);
      if f(m).Some? {
        CollectComplete(t, DatePatterns, f, i, k);
      }
    }
  }

  // ---------------------------------------------------------------------------
  // Amounts (services/ocr.js:155-170)
  // ---------------------------------------------------------------------------

  datatype AmountCandidate = AmountCandidate(cents: nat, weight: nat, position: nat)

  /** `s.replace('$', '')`: the first dollar sign goes. */
  function RemoveFirstDollar(s: string): (r: string)
    ensures '$' in s ==> |r| == |s| - 1
    ensures '$' !in s ==> r == s
  {
    if s == [] then s else if s[0] == '$' then s[1..] else [s[0]] + RemoveFirstDollar(s[1..])
  }

  /** The sign removed is the first one: everything around it stays. */
  lemma {:induction false} RemoveFirstDollarAt(s: string, i: nat)
    requires i < |s| && s[i] == '$' && '$' !in s[..i]
    ensures RemoveFirstDollar(s) == s[..i] + s[i + 1..]
  {
    if i > 0 {
      assert s[0] != '$' by { assert s[0] == s[..i][0]; }
      assert s[1..][..i - 1] == s[1..i];
      assert '$' !in s[1..][..i - 1] by { assert forall c :: c in s[1..i] ==> c in s[..i]; }
      RemoveFirstDollarAt(s[1..], i - 1);
      assert s[..i] == [s[0]] + s[1..][..i - 1];
      assert s[1..][i - 1 + 1..] == s[i + 1..];
    }
  }

  /** `s.replace(/,/g, '')`. */
  function RemoveCommas(s: string): (r: string)
    ensures ',' !in r && |r| == |s| - CountChar(s, ',')
    ensures ',' !in s ==> r == s
  {
    if s == [] then s else (if s[0] == ',' then "" else [s[0]]) + RemoveCommas(s[1..])
  }

  /**
   * Removing commas works piece by piece, so with `RemoveCommas(",") == ""` and
   * `RemoveCommas([c]) == [c]` for any other `c` the result is fixed: the other
   * characters, in order.
   */
  lemma {:induction false} RemoveCommasAppend(a: string, b: string)
    ensures RemoveCommas(a + b) == RemoveCommas(a) + RemoveCommas(b)
  {
    if a == [] {
      assert a + b == b;
    } else {
      assert (a + b)[1..] == a[1..] + b;
      RemoveCommasAppend(a[1..], b);
    }
  }

  /**
   * `(match[1] || match[0].replace('$', '').replace(/,/g, '')).trim()` for the
   * whole match `whole` and the text of group 1 `group`. Every amount pattern's
   * group matches at least one character, so the fallback is never taken.
   */
  function AmountString(whole: string, group: string): (s: string)
    ensures group != "" ==> s == Trim(group)
    ensures group == "" ==> s == Trim(RemoveCommas(RemoveFirstDollar(whole))) && ',' !in s
  {
    Trim(if group != "" then group else RemoveCommas(RemoveFirstDollar(whole)))
  }

  /** The number string of a match. */
  function MatchedNumber(t: string, m: Span): (s: string)
    requires WellFormed(t, m)
    ensures s == Trim(t[m.groupStart..m.end])
  {
    var group := t[m.groupStart..m.end];
    assert |group| > 0;
    AmountString(t[m.start..m.end], group)
  }

  /**
   * `parseFloat(s) * 100` for a string that begins with a digit: the leading
   * digits are the whole part and at most two digits after a `.` the cents;
   * anything else ends the number (so `"1,234.56"` reads as 1). None is `NaN`.
   */
  function ParseFloatCents(s: string): (r: Option<nat>)
    ensures r.Some? <==> |s| > 0 && IsDigit(s[0])
  {
    var w := Run(s, 0, Digit);
    if w == 0 then None
    else
      var whole := DigitsValue(s[..w]);
      if w < |s| && s[w] == '.' then
        var f := Run(s, w + 1, Digit);
        var cents := if f >= 2 then DigitsValue(s[w + 1..w + 3]) else if f == 1 then 10 * DigitValue(s[w + 1]) else 0;
        Some(whole * 100 + cents)
      else Some(whole * 100)
  }

  /** The whole part of a number is read up to the first comma and the rest is dropped. */
  lemma CommaEndsNumber(d: string, rest: string)
    requires |d| >= 1 && AllDigits(d)
    ensures ParseFloatCents(d + "," + rest) == Some(DigitsValue(d) * 100)
  {
    var s := d + "," + rest;
    RunExact(s, 0, |d|, Digit);
    assert s[..|d|] == d;
  }

  /** Digits, a point and two digits read as the number they spell, in cents. */
  lemma DecimalValue(s: string, w: nat)
    requires 1 <= w && w + 3 == |s| && AllDigits(s[..w])
    requires s[w] == '.' && IsDigit(s[w + 1]) && IsDigit(s[w + 2])
    ensures ParseFloatCents(s) == Some(DigitsValue(s[..w]) * 100 + DigitsValue(s[w + 1..]))
  {
    assert forall k :: 0 <= k < w ==> s[..w][k] == s[k];
    RunExact(s, 0, w, Digit);
    RunExact(s, w + 1, |s|, Digit);
    assert s[w + 1..w + 3] == s[w + 1..];
  }

  /** The comma-grouped families capture `1,234.56` and keep the value 1. */
  lemma GroupedAmountKeepsLeadingDigits()
    ensures ParseFloatCents("1,234.56") == Some(100)
  {
    CommaEndsNumber("1", "234.56");
    assert "1" + "," + "234.56" == "1,234.56";
  }

  /** The words whose presence just before a match makes it count fully. */
  const TotalWords: seq<string> := ["total", "amount", "due", "paid", "balance"]

  /** The up to 20 characters before position `i`. */
  function Window(t: string, i: nat): (w: string)
    requires i <= |t|
    ensures |w| == (if i < 20 then i else 20)
    ensures w == t[i - |w|..i]
  {
    t[(if i < 20 then 0 else i - 20)..i]
  }

  function AmountWeight(t: string, i: nat): (w: nat)
    requires i <= |t|
    ensures w == FULL <==> ContainsAnyCI(Window(t, i), TotalWords)
    ensures w == FULL || w == HALF
  {
    if ContainsAnyCI(Window(t, i), TotalWords) then FULL else HALF
  }

  /** What the loop body pushes for one amount match, if anything. */
  function AmountCandidateOf(t: string, m: Span): (r: Option<AmountCandidate>)
    ensures r.Some? ==> WellFormed(t, m) && r.value.position == m.start
    ensures r.Some? ==> 0 < r.value.cents < 100000 * 100 && '.' in MatchedNumber(t, m)
    ensures r.Some? ==> Some(r.value.cents) == ParseFloatCents(MatchedNumber(t, m))
    ensures r.Some? ==> r.value.weight == AmountWeight(t, m.start)
    ensures WellFormed(t, m) && '.' in MatchedNumber(t, m) ==>
      var v := ParseFloatCents(MatchedNumber(t, m));
      (v.Some? && 0 < v.value < 100000 * 100 ==> r.Some?)
  {
    if !WellFormed(t, m) then None
    else
      var s := MatchedNumber(t, m);
      var v := ParseFloatCents(s);
      if v.Some? && 0 < v.value < 100000 * 100 && '.' in s then
        Some(AmountCandidate(v.value, AmountWeight(t, m.start), m.start))
      else None
  }

  function AmountFilter(t: string): Span -> Option<AmountCandidate>
  {
    (m: Span) => AmountCandidateOf(t, m)
  }

  /** `amounts` after the loops. */
  function FoundAmounts(t: string): seq<AmountCandidate>
  {
    Collect(t, AmountPatterns, AmountFilter(t))
  }

  /**
   * Every amount candidate comes from a match of an amount pattern whose number
   * holds a `.` and reads as more than 0 and less than 100000, sits at that
   * match's start, and counts fully exactly when a total word occurs in the 20
   * characters before it. Conversely every such match is a candidate.
   */
  lemma FoundAmountsSpec(t: string)
    ensures forall c :: c in FoundAmounts(t) ==>
      && 0 < c.cents < 100000 * 100
      && c.position <= |t|
      && (c.weight == FULL <==> ContainsAnyCI(Window(t, c.position), TotalWords))
      && (c.weight == FULL || c.weight == HALF)
      && exists i, k :: (0 <= i < |AmountPatterns| && 0 <= k < |MatchAll(t, AmountPatterns[i])| &&
        var m := MatchAll(t, AmountPatterns[i])[k];
        m.start == c.position && '.' in MatchedNumber(t, m) &&
        ParseFloatCents(MatchedNumber(t, m)) == Some(c.cents))
    ensures forall i, k :: 0 <= i < |AmountPatterns| && 0 <= k < |MatchAll(t, AmountPatterns[i])| ==>
      var m := MatchAll(t, AmountPatterns[i])[k];
      var v := ParseFloatCents(MatchedNumber(t, m));
      '.' in MatchedNumber(t, m) && v.Some? && 0 < v.value < 100000 * 100 ==>
        AmountCandidate(v.value, AmountWeight(t, m.start), m.start) in FoundAmounts(t)
  {
    var f := AmountFilter(t);
    forall c | c in FoundAmounts(t)
      ensures && 0 < c.cents < 100000 * 100
      && c.position <= |t|
      && (c.weight == FULL <==> ContainsAnyCI(Window(t, c.position), TotalWords))
      && (c.weight == FULL || c.weight == HALF)
      && exists i, k :: (0 <= i < |AmountPatterns| && 0 <= k < |MatchAll(t, AmountPatterns[i])| &&
        var m := MatchAll(t, AmountPatterns[i])[k];
        m.start == c.position && '.' in MatchedNumber(t, m) &&
        ParseFloatCents(MatchedNumber(t, m)) == Some(c.cents))
    {
      CollectSound(t, AmountPatterns, f, c);
      var i, k :| 0 <= i < |AmountPatterns| && 0 <= k < |MatchAll(t, AmountPatterns[i])| &&
        f(MatchAll(t, AmountPatterns[i])[k]) == Some(c);
      var m := MatchAll(t, AmountPatterns[i])[k];
      assert AmountCandidateOf(t, m) == Some(c);
    }
    forall i, k | 0 <= i < |AmountPatterns| && 0 <= k < |MatchAll(t, AmountPatterns[i])|
      ensures var m := MatchAll(t, AmountPatterns[i])[k];
        var v := ParseFloatCents(MatchedNumber(t, m));
        '.' in MatchedNumber(t, m) && v.Some? && 0 < v.value < 100000 * 100 ==>
          AmountCandidate(v.value, AmountWeight(t, m.start), m.start) in FoundAmounts(t)
    {
      var m := MatchAll(t, AmountPatterns[i])[k];
      var v := ParseFloatCents(MatchedNumber(t, m));
      if '.' in MatchedNumber(t, m) && v.Some? && 0 < v.value < 100000 * 100 {
        assert f(m) == Some(AmountCandidate(v.value, AmountWeight(t, m.start), m.start));
        CollectComplete(t, AmountPatterns, f, i, k);
      }
    }
  }

  // ---------------------------------------------------------------------------
  // Picking: a stable sort, then element 0
  // ---------------------------------------------------------------------------

  /** What a comparator looks at: the weight first, then a tie-breaker (larger first). */
  datatype Rank = Rank(weight: nat, tiebreak: nat)

  /** `a` sorts strictly before `b`. */
  predicate Outranks(a: Rank, b: Rank) {
    a.weight > b.weight || (a.weight == b.weight && a.tiebreak > b.tiebreak)
  }

  /**
   * Element 0 after a stable sort by descending rank: the first of the elements
   * nothing outranks. Every element before it is outranked by it.
   */
  function Winner(rs: seq<Rank>): (k: nat)
    requires |rs| > 0
    ensures k < |rs|
    ensures forall j :: 0 <= j < |rs| ==> !Outranks(rs[j], rs[k])
    ensures forall j :: 0 <= j < k ==> Outranks(rs[k], rs[j])
  {
    if |rs| == 1 then 0
    else
      var init := rs[..|rs| - 1];
      var k := Winner(init);
      assert forall j :: 0 <= j < |rs| - 1 ==> init[j] == rs[j];
      if Outranks(rs[|rs| - 1], rs[k]) then |rs| - 1 else k
  }

  /** Dates are sorted by confidence alone. */
  function DateRanks(cs: seq<DateCandidate>): (rs: seq<Rank>)
    ensures |rs| == |cs| && forall k :: 0 <= k < |cs| ==> rs[k] == Rank(cs[k].weight, 0)
  {
    if cs == [] then [] else [Rank(cs[0].weight, 0)] + DateRanks(cs[1..])
  }

  /** Amounts are sorted by confidence, then by later position. */
  function AmountRanks(cs: seq<AmountCandidate>): (rs: seq<Rank>)
    ensures |rs| == |cs| && forall k :: 0 <= k < |cs| ==> rs[k] == Rank(cs[k].weight, cs[k].position)
  {
    if cs == [] then [] else [Rank(cs[0].weight, cs[0].position)] + AmountRanks(cs[1..])
  }

  /** `data.date`: the ISO day of the winning candidate; absent when there is none. */
  function ChosenDate(cs: seq<DateCandidate>): (r: Option<string>)
    ensures r.None? <==> cs == []
  {
    if cs == [] then None else Some(FormatIso(cs[Winner(DateRanks(cs))].date))
  }

  /** `data.amount`, in cents. */
  function ChosenAmount(cs: seq<AmountCandidate>): (r: Option<nat>)
    ensures r.None? <==> cs == []
  {
    if cs == [] then None else Some(cs[Winner(AmountRanks(cs))].cents)
  }

  /** The chosen date is the first-found candidate of the highest weight. */
  lemma DateChoice(cs: seq<DateCandidate>) returns (k: nat)
    requires cs != []
    ensures k < |cs| && ChosenDate(cs) == Some(FormatIso(cs[k].date))
    ensures forall j :: 0 <= j < |cs| ==> cs[j].weight <= cs[k].weight
    ensures forall j :: 0 <= j < k ==> cs[j].weight < cs[k].weight
  {
    var rs := DateRanks(cs);
    k := Winner(rs);
    forall j | 0 <= j < |cs| ensures cs[j].weight <= cs[k].weight {
      assert !Outranks(rs[j], rs[k]);
    }
    forall j | 0 <= j < k ensures cs[j].weight < cs[k].weight {
      assert Outranks(rs[k], rs[j]);
    }
  }

  /**
   * The chosen amount has the highest weight, the latest position among the
   * candidates of that weight, and is the first found among those.
   */
  lemma AmountChoice(cs: seq<AmountCandidate>) returns (k: nat)
    requires cs != []
    ensures k < |cs| && ChosenAmount(cs) == Some(cs[k].cents)
    ensures forall j :: 0 <= j < |cs| ==> cs[j].weight <= cs[k].weight
    ensures forall j :: 0 <= j < |cs| && cs[j].weight == cs[k].weight ==> cs[j].position <= cs[k].position
    ensures forall j :: 0 <= j < k ==>
      (cs[j].weight < cs[k].weight || (cs[j].weight == cs[k].weight && cs[j].position < cs[k].position))
  {
    var rs := AmountRanks(cs);
    k := Winner(rs);
    forall j | 0 <= j < |cs| ensures cs[j].weight <= cs[k].weight {
      assert !Outranks(rs[j], rs[k]);
    }
    forall j | 0 <= j < |cs| && cs[j].weight == cs[k].weight ensures cs[j].position <= cs[k].position {
      assert !Outranks(rs[j], rs[k]);
    }
    forall j | 0 <= j < k ensures cs[j].weight < cs[k].weight ||
      (cs[j].weight == cs[k].weight && cs[j].position < cs[k].position)
    {
      assert Outranks(rs[k], rs[j]);
    }
  }

  /**
   * The chosen date is the printed form of a candidate whose year is in
   * [2000, currentYear + 1], read from some match of a date pattern, and no
   * candidate weighs more.
   */
  lemma ChosenDateFound(t: string, parse: DateParser, currentYear: int) returns (c: DateCandidate)
    requires ChosenDate(FoundDates(t, parse, currentYear)).Some?
    ensures c in FoundDates(t, parse, currentYear)
    ensures ChosenDate(FoundDates(t, parse, currentYear)).value == FormatIso(c.date)
    ensures YearInRange(c.date.year, currentYear)
    ensures exists i, k :: (0 <= i < |DatePatterns| && 0 <= k < |MatchAll(t, DatePatterns[i])| &&
      var m := MatchAll(t, DatePatterns[i])[k];
      parse(t[m.start..m.end]) == Some(c.date) && c.weight == DateWeight(m.start))
    ensures forall j :: 0 <= j < |FoundDates(t, parse, currentYear)| ==>
      FoundDates(t, parse, currentYear)[j].weight <= c.weight
  {
    var cs := FoundDates(t, parse, currentYear);
    var k := DateChoice(cs);
    c := cs[k];
    assert c in cs;
    FoundDatesSpec(t, parse, currentYear);
  }

  /**
   * The chosen amount is more than 0 and less than 100000, is what some
   * amount match reads as, and counts fully whenever some candidate does.
   */
  lemma ChosenAmountFound(t: string) returns (c: AmountCandidate)
    requires ChosenAmount(FoundAmounts(t)).Some?
    ensures c in FoundAmounts(t) && ChosenAmount(FoundAmounts(t)).value == c.cents
    ensures 0 < c.cents < 100000 * 100
    ensures exists i, k :: (0 <= i < |AmountPatterns| && 0 <= k < |MatchAll(t, AmountPatterns[i])| &&
      var m := MatchAll(t, AmountPatterns[i])[k];
      m.start == c.position && ParseFloatCents(MatchedNumber(t, m)) == Some(c.cents))
    ensures (exists j :: 0 <= j < |FoundAmounts(t)| && FoundAmounts(t)[j].weight == FULL) ==> c.weight == FULL
  {
    var cs := FoundAmounts(t);
    var k := AmountChoice(cs);
    c := cs[k];
    assert c in cs;
    FoundAmountsSpec(t);
  }
}
