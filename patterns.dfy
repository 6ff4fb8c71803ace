/**
 * The ten global regular expressions of the receipt parser (four date
 * families, six amount families, services/ocr.js:106-115 and 143-153) as
 * explicit scanners over the text, and `String.prototype.matchAll` over them.
 *
 * Each `...At` function answers what the backtracking matcher answers when it
 * is started at one position: the end of the match (and, for the amount
 * families, where capture group 1 begins), or None. The backtracking is
 * resolved by hand: in every pattern a greedy run of `\d`, `\s`, `[\s:]` or
 * `[\s,.-]` is followed by something its own characters cannot begin, so a
 * shorter run can never succeed where the longest one fails, and the
 * alternatives of each keyword alternation begin with different letters, so
 * at most one of them applies at a position.
 */
module Patterns {
  import opened Wrappers
  import opened Text

  /** A match: where it starts (`match.index`), where group 1 starts, and where it ends. */
  datatype Span = Span(start: nat, groupStart: nat, end: nat)

  datatype Pattern =
    | SlashDate       // /\b(\d{1,2})\/(\d{1,2})\/(\d{2,4})\b/g
    | IsoDate         // /\b(\d{4})-(\d{1,2})-(\d{1,2})\b/g
    | MonthNameDate   // /\b(Jan|...|Dec)[\s,.-]+(\d{1,2})[\s,.-]+(\d{2,4})\b/gi
    | DashDate        // /\b(\d{1,2})-(\d{1,2})-(\d{2,4})\b/g
    | KeywordGrouped  // /\b(?:total|...|grand\s+total)[\s:]*\$?\s*(\d{1,3}(?:,\d{3})*\.\d{2})\b/gi
    | KeywordPlain    // /\b(?:total|...|subtotal)[\s:]*\$?\s*(\d+\.\d{2})\b/gi
    | DollarGrouped   // /\$\s*(\d{1,3}(?:,\d{3})*\.\d{2})\b/g
    | DollarPlain     // /\$\s*(\d+\.\d{2})\b/g
    | BareGrouped     // /\b(\d{1,3}(?:,\d{3})*\.\d{2})\b/g
    | BarePlain       // /\b(\d+\.\d{2})\b/g
  {
    predicate IsAmount() { !(SlashDate? || IsoDate? || MonthNameDate? || DashDate?) }
  }

  /** The date families in the order the parser tries them. */
  const DatePatterns: seq<Pattern> := [SlashDate, IsoDate, MonthNameDate, DashDate]

  /** The amount families in the order the parser tries them. */
  const AmountPatterns: seq<Pattern> :=
    [KeywordGrouped, KeywordPlain, DollarGrouped, DollarPlain, BareGrouped, BarePlain]

  // ---------------------------------------------------------------------------
  // Building blocks
  // ---------------------------------------------------------------------------

  datatype CharClass = Digit | Space | SpaceOrColon | DateSep | NameChar

  predicate InClass(c: char, cls: CharClass) {
    match cls
    case Digit => IsDigit(c)
    case Space => IsSpace(c)
    case SpaceOrColon => IsSpace(c) || c == ':'   // [\s:]
    case DateSep => IsSpace(c) || c == ',' || c == '.' || c == '-'   // [\s,.-]
    case NameChar => IsLetter(c) || IsSpace(c) || c == '&'   // [A-Za-z\s&]
  }

  /** Length of the longest run of `cls` characters starting at `j`. */
  function Run(t: string, j: nat, cls: CharClass): (r: nat)
    requires j <= |t|
    ensures j + r <= |t|
    ensures forall k :: j <= k < j + r ==> InClass(t[k], cls)
    ensures j + r == |t| || !InClass(t[j + r], cls)
    decreases |t| - j
  {
    if j < |t| && InClass(t[j], cls) then 1 + Run(t, j + 1, cls) else 0
  }

  /** A run that is bounded by a character outside the class is exactly the run `Run` finds. */
  lemma {:induction false} RunExact(t: string, j: nat, e: nat, cls: CharClass)
    requires j <= e <= |t|
    requires forall k :: j <= k < e ==> InClass(t[k], cls)
    requires e == |t| || !InClass(t[e], cls)
    ensures Run(t, j, cls) == e - j
    decreases e - j
  {
    if j < e {
      RunExact(t, j + 1, e, cls);
    }
  }

  /** `\b` at position `k`: a word character on exactly one side. */
  predicate Boundary(t: string, k: nat)
    requires k <= |t|
  {
    (k > 0 && IsWordChar(t[k - 1])) != (k < |t| && IsWordChar(t[k]))
  }

  /** The literal `p` (lower case) at position `k`, ignoring ASCII case. */
  predicate LitCIAt(t: string, k: nat, p: string)
    requires k <= |t|
  {
    StartsWithCI(t[k..], p)
  }

  // ---------------------------------------------------------------------------
  // Date families
  // ---------------------------------------------------------------------------

  /** `\b(\d{1,2})S(\d{1,2})S(\d{2,4})\b` for the separator `S`. */
  function NumericDateAt(t: string, i: nat, sep: char): (r: Option<nat>)
    requires i <= |t|
    ensures r.Some? ==> i < r.value <= |t|
  {
    if !Boundary(t, i) then None
    else
      var r1 := Run(t, i, Digit);
      if !(1 <= r1 <= 2 && i + r1 < |t| && t[i + r1] == sep) then None
      else
        var j := i + r1 + 1;
        var r2 := Run(t, j, Digit);
        if !(1 <= r2 <= 2 && j + r2 < |t| && t[j + r2] == sep) then None
        else
          var k := j + r2 + 1;
          var r3 := Run(t, k, Digit);
          if 2 <= r3 <= 4 && Boundary(t, k + r3) then Some(k + r3) else None
  }

  /**
   * What a numeric date match is: 1-2 digits, the separator, 1-2 digits, the
   * separator, 2-4 digits, with a word boundary at both ends.
   */
  lemma NumericDateShape(t: string, i: nat, sep: char) returns (j: nat, k: nat)
    requires i <= |t| && NumericDateAt(t, i, sep).Some?
    ensures var e := NumericDateAt(t, i, sep).value;
      && i + 2 <= j <= i + 3 && t[j - 1] == sep && AllDigits(t[i..j - 1])
      && j + 2 <= k <= j + 3 && t[k - 1] == sep && AllDigits(t[j..k - 1])
      && k + 2 <= e <= k + 4 && AllDigits(t[k..e])
      && Boundary(t, i) && Boundary(t, e)
  {
    var r1 := Run(t, i, Digit);
    j := i + r1 + 1;
    var r2 := Run(t, j, Digit);
    k := j + r2 + 1;
    var r3 := Run(t, k, Digit);
    assert NumericDateAt(t, i, sep).value == k + r3;
  }

  /** `\b(\d{4})-(\d{1,2})-(\d{1,2})\b`. */
  function IsoDateAt(t: string, i: nat): (r: Option<nat>)
    requires i <= |t|
    ensures r.Some? ==> i < r.value <= |t|
  {
    if !Boundary(t, i) then None
    else
      var r1 := Run(t, i, Digit);
      if !(r1 == 4 && i + 4 < |t| && t[i + 4] == '-') then None
      else
        var j := i + 5;
        var r2 := Run(t, j, Digit);
        if !(1 <= r2 <= 2 && j + r2 < |t| && t[j + r2] == '-') then None
        else
          var k := j + r2 + 1;
          var r3 := Run(t, k, Digit);
          if 1 <= r3 <= 2 && Boundary(t, k + r3) then Some(k + r3) else None
  }

  const MonthAbbreviations: seq<string> :=
    ["jan", "feb", "mar", "apr", "may", "jun", "jul", "aug", "sep", "oct", "nov", "dec"]

  predicate MonthAt(t: string, i: nat)
    requires i <= |t|
  {
    exists m :: 0 <= m < |MonthAbbreviations| && LitCIAt(t, i, MonthAbbreviations[m])
  }

  /** `\b(Jan|...|Dec)[\s,.-]+(\d{1,2})[\s,.-]+(\d{2,4})\b`, case-insensitive. */
  function MonthNameDateAt(t: string, i: nat): (r: Option<nat>)
    requires i <= |t|
    ensures r.Some? ==> i < r.value <= |t|
  {
    if !(Boundary(t, i) && i + 3 <= |t| && MonthAt(t, i)) then None
    else
      var s1 := Run(t, i + 3, DateSep);
      var j := i + 3 + s1;
      var r2 := Run(t, j, Digit);
      if !(s1 >= 1 && 1 <= r2 <= 2) then None
      else
        var s2 := Run(t, j + r2, DateSep);
        var k := j + r2 + s2;
        var r3 := Run(t, k, Digit);
        if s2 >= 1 && 2 <= r3 <= 4 && Boundary(t, k + r3) then Some(k + r3) else None
  }

  // ---------------------------------------------------------------------------
  // Amount families
  // ---------------------------------------------------------------------------

  /** `\.\d{2}\b` at `p`. */
  function CentsAt(t: string, p: nat): (r: Option<nat>)
    requires p <= |t|
    ensures r.Some? ==> r.value == p + 3 <= |t| && t[p] == '.'
  {
    if p + 3 <= |t| && t[p] == '.' && IsDigit(t[p + 1]) && IsDigit(t[p + 2]) && Boundary(t, p + 3)
    then Some(p + 3) else None
  }

  /** Where the greedy `(?:,\d{3})*` stops. */
  function CommaGroupsEnd(t: string, p: nat): (q: nat)
    requires p <= |t|
    ensures p <= q <= |t|
    decreases |t| - p
  {
    if p + 4 <= |t| && t[p] == ',' && IsDigit(t[p + 1]) && IsDigit(t[p + 2]) && IsDigit(t[p + 3])
    then CommaGroupsEnd(t, p + 4) else p
  }

  /** `\d{1,3}(?:,\d{3})*\.\d{2}\b` at `g`. */
  function GroupedNumberAt(t: string, g: nat): (r: Option<nat>)
    requires g <= |t|
    ensures r.Some? ==> g + 4 <= r.value <= |t| && t[r.value - 3] == '.'
  {
    var r1 := Run(t, g, Digit);
    if 1 <= r1 <= 3 then CentsAt(t, CommaGroupsEnd(t, g + r1)) else None
  }

  /** `\d+\.\d{2}\b` at `g`. */
  function PlainNumberAt(t: string, g: nat): (r: Option<nat>)
    requires g <= |t|
    ensures r.Some? ==> g + 4 <= r.value <= |t| && t[r.value - 3] == '.'
  {
    var r1 := Run(t, g, Digit);
    if r1 >= 1 then CentsAt(t, g + r1) else None
  }

  /**
   * `(?:total|amount|due|paid|balance|subtotal|grand\s+total)`, case-insensitive;
   * the last alternative only when `withGrand`. Returns where the keyword ends.
   */
  function KeywordEnd(t: string, i: nat, withGrand: bool): (r: Option<nat>)
    requires i <= |t|
    ensures r.Some? ==> i < r.value <= |t|
  {
    if LitCIAt(t, i, "total") then Some(i + 5)
    else if LitCIAt(t, i, "amount") then Some(i + 6)
    else if LitCIAt(t, i, "due") then Some(i + 3)
    else if LitCIAt(t, i, "paid") then Some(i + 4)
    else if LitCIAt(t, i, "balance") then Some(i + 7)
    else if LitCIAt(t, i, "subtotal") then Some(i + 8)
    else if withGrand && LitCIAt(t, i, "grand") then
      var s := Run(t, i + 5, Space);
      if s >= 1 && LitCIAt(t, i + 5 + s, "total") then Some(i + 10 + s) else None
    else None
  }

  /** Where the number starts after `[\s:]*\$?\s*` beginning at `k`. */
  function AfterKeyword(t: string, k: nat): (g: nat)
    requires k <= |t|
    ensures k <= g <= |t|
  {
    var p := k + Run(t, k, SpaceOrColon);
    if p < |t| && t[p] == '$' then p + 1 + Run(t, p + 1, Space) else p
  }

  /** Where the number starts after `\$\s*` at `i`, if `t[i]` is a dollar sign. */
  function AfterDollar(t: string, i: nat): (r: Option<nat>)
    requires i <= |t|
    ensures r.Some? ==> i < r.value <= |t|
  {
    if i < |t| && t[i] == '$' then Some(i + 1 + Run(t, i + 1, Space)) else None
  }

  function NumberAt(t: string, g: nat, grouped: bool): (r: Option<nat>)
    requires g <= |t|
    ensures r.Some? ==> g + 4 <= r.value <= |t| && t[r.value - 3] == '.'
  {
    if grouped then GroupedNumberAt(t, g) else PlainNumberAt(t, g)
  }

  // ---------------------------------------------------------------------------
  // One attempt, and matchAll
  // ---------------------------------------------------------------------------

  predicate WellFormed(t: string, sp: Span) {
    sp.start <= sp.groupStart < sp.end <= |t|
  }

  /** Group 1 of an amount match ends in the decimal point and two digits. */
  predicate PointBeforeCents(t: string, sp: Span) {
    sp.groupStart + 4 <= sp.end <= |t| && t[sp.end - 3] == '.'
  }

  /** The match the pattern finds when it is tried at exactly position `i`. */
  function MatchAt(t: string, i: nat, p: Pattern): (r: Option<Span>)
    requires i <= |t|
    ensures r.Some? ==> r.value.start == i && WellFormed(t, r.value)
    ensures r.Some? && p.IsAmount() ==> PointBeforeCents(t, r.value)
  {
    match p
    case SlashDate => DateSpan(i, NumericDateAt(t, i, '/'))
    case IsoDate => DateSpan(i, IsoDateAt(t, i))
    case MonthNameDate => DateSpan(i, MonthNameDateAt(t, i))
    case DashDate => DateSpan(i, NumericDateAt(t, i, '-'))
    case KeywordGrouped => KeywordAmountAt(t, i, true)
    case KeywordPlain => KeywordAmountAt(t, i, false)
    case DollarGrouped => DollarAmountAt(t, i, true)
    case DollarPlain => DollarAmountAt(t, i, false)
    case BareGrouped => BareAmountAt(t, i, true)
    case BarePlain => BareAmountAt(t, i, false)
  }

  function DateSpan(i: nat, e: Option<nat>): (r: Option<Span>)
    requires e.Some? ==> i < e.value
    ensures r.Some? ==> r.value.start == i == r.value.groupStart < r.value.end
  {
    if e.Some? then Some(Span(i, i, e.value)) else None
  }

  /** The match from `i` whose group 1 is the number starting at `g`, if there is one. */
  function NumberSpan(t: string, i: nat, g: nat, grouped: bool): (r: Option<Span>)
    requires i <= g <= |t|
    ensures r.Some? ==> r.value.start == i && r.value.groupStart == g && WellFormed(t, r.value)
    ensures r.Some? ==> PointBeforeCents(t, r.value)
  {
    var e := NumberAt(t, g, grouped);
    if e.Some? then Some(Span(i, g, e.value)) else None
  }

  /** `\b(?:keywords)[\s:]*\$?\s*(number)\b`; the grouped family also knows `grand total`. */
  function KeywordAmountAt(t: string, i: nat, grouped: bool): (r: Option<Span>)
    requires i <= |t|
    ensures r.Some? ==> r.value.start == i && WellFormed(t, r.value)
    ensures r.Some? ==> PointBeforeCents(t, r.value)
  {
    if !Boundary(t, i) then None
    else
      var k := KeywordEnd(t, i, grouped);
      if k.None? then None else NumberSpan(t, i, AfterKeyword(t, k.value), grouped)
  }

  /** `\$\s*(number)\b`. */
  function DollarAmountAt(t: string, i: nat, grouped: bool): (r: Option<Span>)
    requires i <= |t|
    ensures r.Some? ==> r.value.start == i && WellFormed(t, r.value)
    ensures r.Some? ==> PointBeforeCents(t, r.value)
  {
    var g := AfterDollar(t, i);
    if g.None? then None else NumberSpan(t, i, g.value, grouped)
  }

  /** `\b(number)\b`. */
  function BareAmountAt(t: string, i: nat, grouped: bool): (r: Option<Span>)
    requires i <= |t|
    ensures r.Some? ==> r.value.start == i && WellFormed(t, r.value)
    ensures r.Some? ==> PointBeforeCents(t, r.value)
  {
    if !Boundary(t, i) then None else NumberSpan(t, i, i, grouped)
  }

  /**
   * What one attempt of a sticky regular expression answers at each position
   * of `t`: a match starting there, or None.
   */
  type Matcher = nat -> Option<Span>

  predicate ValidMatcher(t: string, at: Matcher) {
    forall i: nat :: i <= |t| && at(i).Some? ==> at(i).value.start == i && WellFormed(t, at(i).value)
  }

  /**
   * `[...t.matchAll(re)]` with the search starting at `from`: try each position
   * in turn; after a match, resume where it ended. No pattern here matches the
   * empty string, so nothing is tried at the very end of the text.
   */
  function ScanFrom(t: string, at: Matcher, from: nat): (ms: seq<Span>)
    requires from <= |t| && ValidMatcher(t, at)
    ensures forall k :: 0 <= k < |ms| ==> from <= ms[k].start && WellFormed(t, ms[k])
    decreases |t| - from
  {
    if from == |t| then []
    else
      var m := at(from);
      if m.Some? then [m.value] + ScanFrom(t, at, m.value.end)
      else ScanFrom(t, at, from + 1)
  }

  /** The pattern `p` as a matcher over `t`. */
  function MatcherOf(t: string, p: Pattern): (at: Matcher)
    ensures ValidMatcher(t, at)
  {
    (i: nat) => if i <= |t| then MatchAt(t, i, p) else None
  }

  /** `[...t.matchAll(p)]`. */
  function MatchAll(t: string, p: Pattern): (ms: seq<Span>)
    ensures forall k :: 0 <= k < |ms| ==> WellFormed(t, ms[k])
  {
    ScanFrom(t, MatcherOf(t, p), 0)
  }

  /**
   * `t.match(re)` for a regular expression without the `g` flag: the leftmost
   * match, found by trying each position from `from` on.
   */
  function FirstMatch(t: string, at: Matcher, from: nat): (r: Option<Span>)
    requires from <= |t| && ValidMatcher(t, at)
    ensures r.Some? ==> from <= r.value.start && at(r.value.start) == r && WellFormed(t, r.value)
    ensures forall j :: from <= j < |t| && (r.None? || j < r.value.start) ==> at(j).None?
    decreases |t| - from
  {
    if from == |t| then None
    else if at(from).Some? then at(from)
    else FirstMatch(t, at, from + 1)
  }

  /** Position `j` lies inside none of the matches. */
  predicate Uncovered(ms: seq<Span>, j: nat) {
    forall k :: 0 <= k < |ms| ==> j < ms[k].start || ms[k].end <= j
  }

  /** Every element of the scan is what the matcher finds at its own start. */
  lemma {:induction false} ScanSound(t: string, at: Matcher, from: nat)
    requires from <= |t| && ValidMatcher(t, at)
    ensures forall k :: 0 <= k < |ScanFrom(t, at, from)| ==>
      at(ScanFrom(t, at, from)[k].start) == Some(ScanFrom(t, at, from)[k])
    decreases |t| - from
  {
    if from < |t| {
      var m := at(from);
      if m.Some? {
        var ms := ScanFrom(t, at, from);
        var rest := ScanFrom(t, at, m.value.end);
        assert ms == [m.value] + rest;
        ScanSound(t, at, m.value.end);
        forall k | 0 <= k < |ms| ensures at(ms[k].start) == Some(ms[k]) {
          if k > 0 {
            assert ms[k] == rest[k - 1];
          }
        }
      } else {
        ScanSound(t, at, from + 1);
      }
    }
  }

  /** The matches come in order and do not overlap. */
  lemma {:induction false} ScanOrdered(t: string, at: Matcher, from: nat)
    requires from <= |t| && ValidMatcher(t, at)
    ensures forall k :: 0 <= k < |ScanFrom(t, at, from)| - 1 ==>
      ScanFrom(t, at, from)[k].end <= ScanFrom(t, at, from)[k + 1].start
    decreases |t| - from
  {
    if from < |t| {
      var m := at(from);
      if m.Some? {
        var ms := ScanFrom(t, at, from);
        var rest := ScanFrom(t, at, m.value.end);
        assert ms == [m.value] + rest;
        ScanOrdered(t, at, m.value.end);
        forall k | 0 <= k < |ms| - 1 ensures ms[k].end <= ms[k + 1].start {
          assert ms[k + 1] == rest[k];
          if k > 0 {
            assert ms[k] == rest[k - 1];
          }
        }
      } else {
        ScanOrdered(t, at, from + 1);
      }
    }
  }

  /** At every position that no match covers, the matcher finds nothing: no match is missed. */
  lemma {:induction false} ScanComplete(t: string, at: Matcher, from: nat, j: nat)
    requires ValidMatcher(t, at)
    requires from <= j < |t| && Uncovered(ScanFrom(t, at, from), j)
    ensures at(j).None?
    decreases |t| - from
  {
    var m := at(from);
    var ms := ScanFrom(t, at, from);
    if m.Some? {
      var rest := ScanFrom(t, at, m.value.end);
      assert ms == [m.value] + rest;
      assert m.value.end <= j by {
        assert ms[0] == m.value;
      }
      assert Uncovered(rest, j) by {
        forall k | 0 <= k < |rest| ensures j < rest[k].start || rest[k].end <= j {
          assert ms[k + 1] == rest[k];
        }
      }
      if m.value.end <= j {
        ScanComplete(t, at, m.value.end, j);
      }
    } else if j > from {
      ScanComplete(t, at, from + 1, j);
    }
  }

  /**
   * `MatchAll` is exactly the leftmost-first, non-overlapping scan: every
   * element is what the pattern finds at its own start, the matches come in
   * order without overlapping, and at every position that no match covers the
   * pattern finds nothing.
   */
  lemma MatchAllIsScan(t: string, p: Pattern)
    ensures var ms := MatchAll(t, p);
      && (forall k :: 0 <= k < |ms| ==> MatchAt(t, ms[k].start, p) == Some(ms[k]))
      && (forall k :: 0 <= k < |ms| - 1 ==> ms[k].end <= ms[k + 1].start)
      && (forall j :: 0 <= j < |t| && Uncovered(ms, j) ==> MatchAt(t, j, p).None?)
  {
    var at := MatcherOf(t, p);
    ScanSound(t, at, 0);
    ScanOrdered(t, at, 0);
    forall j | 0 <= j < |t| && Uncovered(MatchAll(t, p), j) ensures MatchAt(t, j, p).None? {
      ScanComplete(t, at, 0, j);
      assert at(j) == MatchAt(t, j, p);
    }
  }

  /**
   * Every number the amount families capture contains the decimal point, so the
   * parser's `amountStr.includes('.')` test never rejects one.
   */
  lemma AmountGroupHasPoint(t: string, p: Pattern, k: nat)
    requires p.IsAmount() && k < |MatchAll(t, p)|
    ensures var sp := MatchAll(t, p)[k]; '.' in t[sp.groupStart..sp.end]
  {
    var sp := MatchAll(t, p)[k];
    ScanSound(t, MatcherOf(t, p), 0);
    var r := MatchAt(t, sp.start, p);
    assert r == Some(sp);
    PointInGroup(t, sp);
  }

  lemma PointInGroup(t: string, sp: Span)
    requires PointBeforeCents(t, sp)
    ensures '.' in t[sp.groupStart..sp.end]
  {
    assert t[sp.groupStart..sp.end][sp.end - 3 - sp.groupStart] == '.';
  }
}
