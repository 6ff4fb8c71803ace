/**
 * The vendor rules of `parseReceiptText` (services/ocr.js:180-224): a scan of
 * the first ten non-empty trimmed lines with skip and accept rules, and, when
 * that finds nothing, two fallback regular expressions tried in order.
 */
module VendorRules {
  import opened Wrappers
  import opened Text
  import opened Patterns

  // ---------------------------------------------------------------------------
  // Lines
  // ---------------------------------------------------------------------------

  /** The non-empty strings of `xs`, in order. */
  function NonEmpty(xs: seq<string>): (r: seq<string>)
    ensures |r| <= |xs|
    ensures forall k :: 0 <= k < |r| ==> r[k] != "" && r[k] in xs
    ensures forall s :: s in xs && s != "" ==> s in r
  {
    if xs == [] then []
    else
      var rest := NonEmpty(xs[1..]);
      assert forall s :: s in xs[1..] ==> s in xs;
      if xs[0] != "" then [xs[0]] + rest else rest
  }

  /** `text.split(/\n|\r/).map(l => l.trim()).filter(l => l.length > 0)`. */
  function Lines(t: string): seq<string>
  {
    NonEmpty(MapTrim(Split(t, {'\n', '\r'})))
  }

  /** Every line is a non-empty, trimmed piece of the text between two line breaks. */
  lemma LinesSpec(t: string)
    ensures forall k :: 0 <= k < |Lines(t)| ==>
      var l := Lines(t)[k];
      l != "" && IsTrimmed(l) && '\n' !in l && '\r' !in l
  {
    forall k | 0 <= k < |Lines(t)| ensures var l := Lines(t)[k]; l != "" && IsTrimmed(l) && '\n' !in l && '\r' !in l {
      LineSpec(t, Lines(t)[k]);
    }
  }

  lemma LineSpec(t: string, l: string)
    requires l in Lines(t)
    ensures l != "" && IsTrimmed(l) && '\n' !in l && '\r' !in l
  {
    var pieces := Split(t, {'\n', '\r'});
    var trimmed := MapTrim(pieces);
    assert l in trimmed && l != "";
    var i :| 0 <= i < |trimmed| && trimmed[i] == l;
    var p := pieces[i];
    assert l == Trim(p);
    assert '\n' !in p && '\r' !in p;
    TrimKeepsOut(p, '\n');
    TrimKeepsOut(p, '\r');
  }

  // ---------------------------------------------------------------------------
  // The line scan
  // ---------------------------------------------------------------------------

  const SkipWords: seq<string> := ["total", "subtotal", "tax", "amount", "date", "time"]

  /** `^[0-9\s\-\/]+$` */
  predicate AllDateLike(line: string) {
    |line| > 0 && forall i :: 0 <= i < |line| ==> IsDigit(line[i]) || IsSpace(line[i]) || line[i] == '-' || line[i] == '/'
  }

  /** `^[A-Z0-9\s]+$` */
  predicate AllCapsOrDigits(line: string) {
    |line| > 0 && forall i :: 0 <= i < |line| ==> IsUpper(line[i]) || IsDigit(line[i]) || IsSpace(line[i])
  }

  /** The lines the scan passes over with `continue`. */
  predicate Skip(line: string) {
    || (|line| > 0 && IsDigit(line[0]))
    || (|line| > 0 && line[0] == '$')
    || AllDateLike(line)
    || |line| < 3
    || |line| > 60
    || exists k :: 0 <= k < |SkipWords| && StartsWithCI(line, SkipWords[k])
  }

  /** The lines the scan takes as the vendor. */
  predicate Accept(line: string) {
    && |line| > 0 && IsUpper(line[0])
    && (exists i :: 0 <= i < |line| && IsLetter(line[i]))
    && !AllCapsOrDigits(line)
    && |Split(line, {' '})| <= 5
  }

  predicate Qualifies(line: string) { !Skip(line) && Accept(line) }

  /** `line.split(' ').length <= 5` allows at most four space characters. */
  lemma WordLimit(line: string)
    ensures |Split(line, {' '})| <= 5 <==> CountChar(line, ' ') <= 4
  {
    SplitCount(line, ' ');
  }

  /** The window the scan looks at: the first `min(10, lines.length)` lines. */
  function ScanWindow(lines: seq<string>): (n: nat)
    ensures n <= |lines| && n <= 10 && (n == 10 || n == |lines|)
  {
    if |lines| < 10 then |lines| else 10
  }

  /** The index of the first qualifying line in `lines[i..n]`. */
  function FirstVendorLine(lines: seq<string>, i: nat, n: nat): (r: Option<nat>)
    requires n <= |lines|
    ensures r.Some? ==> i <= r.value < n && Qualifies(lines[r.value])
    ensures r.Some? ==> forall j :: i <= j < r.value ==> !Qualifies(lines[j])
    ensures r.None? ==> forall j :: i <= j < n ==> !Qualifies(lines[j])
    decreases n - i
  {
    if i >= n then None
    else if Qualifies(lines[i]) then Some(i)
    else FirstVendorLine(lines, i + 1, n)
  }

  /** What the line scan assigns to `data.vendor`, if anything. */
  function LineVendor(lines: seq<string>): Option<string>
  {
    var k := FirstVendorLine(lines, 0, ScanWindow(lines));
    if k.Some? then Some(lines[k.value]) else None
  }

  /**
   * The line scan picks one of the first `min(10, n)` lines that passes no skip
   * rule and every accept rule, the first such line; it finds nothing only when
   * no line of that window qualifies.
   */
  lemma LineVendorSpec(lines: seq<string>)
    ensures LineVendor(lines).Some? ==>
      exists k :: (0 <= k < ScanWindow(lines) &&
        lines[k] == LineVendor(lines).value && !Skip(lines[k]) && Accept(lines[k]) &&
        forall j :: 0 <= j < k ==> !Qualifies(lines[j]))
    ensures LineVendor(lines).None? <==> forall j :: 0 <= j < ScanWindow(lines) ==> !Qualifies(lines[j])
  {
    var k := FirstVendorLine(lines, 0, ScanWindow(lines));
    if k.Some? {
      assert lines[k.value] == LineVendor(lines).value;
    }
  }

  /** The scan as the source runs it: a `for` loop with `continue` and `break`. */
  method ScanLines(lines: seq<string>) returns (vendor: Option<string>)
    ensures vendor == LineVendor(lines)
  {
    var n := if |lines| < 10 then |lines| else 10;
    vendor := None;
    var i := 0;
    while i < n
      invariant 0 <= i <= n
      invariant FirstVendorLine(lines, i, n) == FirstVendorLine(lines, 0, n)
    {
      var line := lines[i];
      if Skip(line) {
        i := i + 1;
        continue;
      }
      if Accept(line) {
        vendor := Some(line);
        break;
      }
      i := i + 1;
    }
  }

  // ---------------------------------------------------------------------------
  // The fallback expressions
  // ---------------------------------------------------------------------------

  const VendorWords: seq<string> := ["from", "store", "merchant", "vendor", "pharmacy", "hospital", "clinic"]

  /** The end of the first of `VendorWords[k..]` found at `i`, ignoring case. */
  function VendorWordEnd(t: string, i: nat, k: nat): (r: Option<nat>)
    requires i <= |t|
    ensures r.Some? ==> i < r.value <= |t|
    decreases |VendorWords| - k
  {
    if k >= |VendorWords| then None
    else if LitCIAt(t, i, VendorWords[k]) then Some(i + |VendorWords[k]|)
    else VendorWordEnd(t, i, k + 1)
  }

  /**
   * The lazy `[A-Za-z\s&]+?(?:\n|$)` from `p` (no `m` flag): the first end
   * after at least one class character where a newline or the end of the text
   * follows.
   */
  function LazyNameEnd(t: string, p: nat): (r: Option<nat>)
    requires p <= |t|
    ensures r.Some? ==> p < r.value <= |t| && (r.value == |t| || t[r.value] == '\n')
    ensures r.Some? ==> forall k :: p <= k < r.value ==> InClass(t[k], NameChar)
    ensures r.Some? ==> forall q :: p < q < r.value ==> t[q] != '\n'
    decreases |t| - p
  {
    if p < |t| && InClass(t[p], NameChar) then
      if p + 1 == |t| || t[p + 1] == '\n' then Some(p + 1) else LazyNameEnd(t, p + 1)
    else None
  }

  /**
   * `(?:FROM|STORE|MERCHANT|VENDOR|PHARMACY|HOSPITAL|CLINIC)[\s:]+([A-Z][A-Za-z\s&]+?)(?:\n|$)`
   * with the `i` flag, tried at `i`. The words begin with different letters, and
   * a shorter `[\s:]+` would leave a blank or colon where a letter is needed.
   */
  function LabelledAt(t: string, i: nat): (r: Option<Span>)
    requires i <= |t|
    ensures r.Some? ==> r.value.start == i && WellFormed(t, r.value)
  {
    var e := VendorWordEnd(t, i, 0);
    if e.None? then None
    else
      var s := Run(t, e.value, SpaceOrColon);
      var g := e.value + s;
      if s == 0 || g >= |t| || !IsLetter(t[g]) then None
      else
        var q := LazyNameEnd(t, g + 1);
        if q.Some? then Some(Span(i, g, q.value)) else None
  }

  /**
   * The greedy `{2,c}` part of `[A-Za-z\s&]{2,40}(?:\n|$)` (the `m` flag): the
   * longest count at most `c` that a line end or the end of the text follows.
   */
  function GreedyNameEnd(t: string, base: nat, c: nat): (r: Option<nat>)
    requires base + c <= |t|
    ensures r.Some? ==> base + 2 <= r.value <= base + c
    ensures r.Some? ==> r.value == |t| || IsLineTerminator(t[r.value])
    ensures forall q :: (if r.Some? then r.value else base + 1) < q <= base + c && q >= base + 2 ==>
      q < |t| && !IsLineTerminator(t[q])
    decreases c
  {
    if c < 2 then None
    else if base + c == |t| || IsLineTerminator(t[base + c]) then Some(base + c)
    else GreedyNameEnd(t, base, c - 1)
  }

  /** `^([A-Z][A-Za-z\s&]{2,40})(?:\n|$)` with the `m` flag, tried at `i`. */
  function HeadingAt(t: string, i: nat): (r: Option<Span>)
    requires i <= |t|
    ensures r.Some? ==> r.value.start == i == r.value.groupStart && WellFormed(t, r.value)
  {
    if !(i < |t| && (i == 0 || IsLineTerminator(t[i - 1])) && IsUpper(t[i])) then None
    else
      var run := Run(t, i + 1, NameChar);
      var q := GreedyNameEnd(t, i + 1, if run > 40 then 40 else run);
      if q.Some? then Some(Span(i, i, q.value)) else None
  }

  datatype VendorPattern = Labelled | Heading

  const VendorPatterns: seq<VendorPattern> := [Labelled, Heading]

  function VendorMatcher(t: string, vp: VendorPattern): (at: Matcher)
    ensures ValidMatcher(t, at)
  {
    match vp
    case Labelled => (i: nat) => if i <= |t| then LabelledAt(t, i) else None
    case Heading => (i: nat) => if i <= |t| then HeadingAt(t, i) else None
  }

  /** `match[1]` of `text.match(pattern)`, or None when there is no match. */
  function VendorGroup(t: string, vp: VendorPattern): (r: Option<string>)
  {
    var m := FirstMatch(t, VendorMatcher(t, vp), 0);
    if m.Some? then Some(t[m.value.groupStart..m.value.end]) else None
  }

  /** `vendor.length > 2 && vendor.length < 50` */
  predicate PlausibleName(v: string) { 2 < |v| < 50 }

  /** The fallback loop from pattern `k` on: the first trimmed group of plausible length. */
  function FallbackFrom(t: string, k: nat): (r: Option<string>)
    ensures r.Some? ==> PlausibleName(r.value) && IsTrimmed(r.value)
    ensures r.Some? ==>
      exists j :: (k <= j < |VendorPatterns| && VendorGroup(t, VendorPatterns[j]).Some? &&
        r.value == Trim(VendorGroup(t, VendorPatterns[j]).value))
    decreases |VendorPatterns| - k
  {
    if k >= |VendorPatterns| then None
    else
      var g := VendorGroup(t, VendorPatterns[k]);
      if g.Some? && g.value != "" && PlausibleName(Trim(g.value)) then Some(Trim(g.value))
      else FallbackFrom(t, k + 1)
  }

  /** `data.vendor` at the end of the vendor rules. */
  function Vendor(t: string): Option<string>
  {
    var lv := LineVendor(Lines(t));
    if lv.Some? && lv.value != "" then lv else FallbackFrom(t, 0)
  }

  /**
   * A vendor the line scan finds is the vendor; the fallback expressions are
   * used only when it finds none, and what they give is trimmed and 3 to 49
   * characters long.
   */
  lemma VendorSpec(t: string)
    ensures LineVendor(Lines(t)).Some? ==> Vendor(t) == LineVendor(Lines(t))
    ensures LineVendor(Lines(t)).None? ==> Vendor(t) == FallbackFrom(t, 0)
    ensures Vendor(t).Some? && LineVendor(Lines(t)).None? ==>
      3 <= |Vendor(t).value| <= 49 && IsTrimmed(Vendor(t).value)
  {
    var lv := LineVendor(Lines(t));
    if lv.Some? {
      var k := FirstVendorLine(Lines(t), 0, ScanWindow(Lines(t)));
      assert Accept(Lines(t)[k.value]);
    }
  }
}
