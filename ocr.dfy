/**
 * What `processReceiptOCR` does with the annotations the text detector returns
 * (services/ocr.js:44-83): the empty result when nothing was detected, the
 * words, their average confidence, and the extracted fields of the full text.
 * The detector call itself is not modelled: its answer is the input here.
 */
module Ocr {
  import opened Wrappers
  import opened Candidates
  import opened ReceiptParser

  /** One text annotation; either field may be missing. */
  datatype Annotation = Annotation(description: Option<string>, confidence: Option<real>)

  datatype Word = Word(text: string, confidence: real)

  /** `{ text: d.description || '', confidence: d.confidence || 0 }` */
  function ToWord(a: Annotation): Word
  {
    Word(if a.description.Some? then a.description.value else "",
         if a.confidence.Some? then a.confidence.value else 0.0)
  }

  function ToWords(anns: seq<Annotation>): (ws: seq<Word>)
    ensures |ws| == |anns| && forall k :: 0 <= k < |anns| ==> ws[k] == ToWord(anns[k])
  {
    if anns == [] then [] else [ToWord(anns[0])] + ToWords(anns[1..])
  }

  /** `words.map(w => w.confidence).filter(c => c > 0)` */
  function PositiveConfidences(ws: seq<Word>): (cs: seq<real>)
    ensures |cs| <= |ws|
    ensures forall k :: 0 <= k < |cs| ==> cs[k] > 0.0
    ensures forall k :: 0 <= k < |cs| ==> exists j :: 0 <= j < |ws| && ws[j].confidence == cs[k]
    ensures (forall j :: 0 <= j < |ws| ==> ws[j].confidence <= 0.0) <==> cs == []
  {
    if ws == [] then []
    else
      var rest := PositiveConfidences(ws[1..]);
      assert forall k :: 0 <= k < |rest| ==> exists j :: 0 <= j < |ws| && ws[j].confidence == rest[k] by {
        forall k | 0 <= k < |rest| ensures exists j :: 0 <= j < |ws| && ws[j].confidence == rest[k] {
          var j :| 0 <= j < |ws[1..]| && ws[1..][j].confidence == rest[k];
          assert ws[j + 1].confidence == rest[k];
        }
      }
      if ws[0].confidence > 0.0 then [ws[0].confidence] + rest else rest
  }

  /** `confidences.reduce((a, b) => a + b, 0)` */
  function Sum(cs: seq<real>): real
  {
    if cs == [] then 0.0 else cs[0] + Sum(cs[1..])
  }

  /** `Math.round`: the nearest integer, halves rounded up. */
  function Round(x: real): int
  {
    (x + 0.5).Floor
  }

  /** `Round(x)` is the integer nearest to `x`, a half rounding up. */
  lemma RoundSpec(x: real)
    ensures Round(x) as real - 0.5 <= x < Round(x) as real + 0.5
  {
  }

  /** Rounding keeps order with integer bounds. */
  lemma RoundBetween(x: real, lo: int, hi: int)
    requires lo as real <= x <= hi as real
    ensures lo <= Round(x) <= hi
  {
    RoundSpec(x);
  }

  /**
   * The reported confidence: the mean of the positive word confidences as a
   * percentage, rounded; 85 when no word has a positive confidence.
   */
  function AverageConfidence(ws: seq<Word>): (n: int)
    ensures PositiveConfidences(ws) == [] ==> n == 85
  {
    var cs := PositiveConfidences(ws);
    if |cs| > 0 then Round(Sum(cs) / |cs| as real * 100.0) else 85
  }

  lemma {:induction false} SumBounds(cs: seq<real>)
    requires forall k :: 0 <= k < |cs| ==> 0.0 < cs[k] <= 1.0
    ensures 0.0 <= Sum(cs) <= |cs| as real
    ensures cs != [] ==> Sum(cs) > 0.0
  {
    if cs != [] {
      SumBounds(cs[1..]);
    }
  }

  /** A mean of values in (0, 1], as a percentage, lies in [0, 100]. */
  lemma PercentBounds(total: real, n: real)
    requires 0.0 < total <= n
    ensures 0.0 <= total / n * 100.0 <= 100.0
  {
    var q := total / n;
    assert q * n == total;
    assert (q - 1.0) * n == total - n <= 0.0;
  }

  /** When every confidence is at most 1, as the detector reports them, the percentage is between 0 and 100. */
  lemma AverageConfidenceBounds(ws: seq<Word>)
    requires forall k :: 0 <= k < |ws| ==> ws[k].confidence <= 1.0
    ensures 0 <= AverageConfidence(ws) <= 100
  {
    var cs := PositiveConfidences(ws);
    if |cs| > 0 {
      forall k | 0 <= k < |cs| ensures 0.0 < cs[k] <= 1.0 {
        var j :| 0 <= j < |ws| && ws[j].confidence == cs[k];
      }
      SumBounds(cs);
      PercentBounds(Sum(cs), |cs| as real);
      RoundBetween(Sum(cs) / |cs| as real * 100.0, 0, 100);
    }
  }

  /** The object `processReceiptOCR` resolves to. */
  datatype OcrResult = OcrResult(text: string, confidence: int, words: seq<Word>, fields: ReceiptFields)

  /** No annotation at all: empty text, confidence 0, no words and no field. */
  const NothingDetected: OcrResult := OcrResult("", 0, [], ReceiptFields(None, None, None, None))

  /** The text, confidence and kept words of a non-empty detection. */
  method Summarize(anns: seq<Annotation>) returns (text: string, confidence: int, kept: seq<Word>)
    requires anns != []
    ensures text == ToWord(anns[0]).text
    ensures confidence == AverageConfidence(ToWords(anns[1..]))
    ensures kept == ToWords(anns[1..])[..if |anns| - 1 < 50 then |anns| - 1 else 50]
  {
    text := if anns[0].description.Some? then anns[0].description.value else "";
    var words := ToWords(anns[1..]);
    confidence := AverageConfidence(words);
    kept := words[..if |words| < 50 then |words| else 50];
  }

  /**
   * From the detector's annotations to the result: the first annotation is the
   * full text, the others are the words; at most the first 50 words are kept.
   */
  method ProcessDetections(detections: Option<seq<Annotation>>, parse: DateParser, currentYear: int)
    returns (result: OcrResult)
    ensures detections.None? || detections.value == [] ==> result == NothingDetected
    ensures detections.Some? && detections.value != [] ==>
      var fullText := ToWord(detections.value[0]).text;
      var words := ToWords(detections.value[1..]);
      && result.text == fullText
      && result.confidence == AverageConfidence(words)
      && |result.words| == (if |words| < 50 then |words| else 50)
      && result.words == words[..|result.words|]
      && result.fields == Extract(fullText, parse, currentYear)
  {
    if detections.None? || |detections.value| == 0 {
      return NothingDetected;
    }
    var fullText, avgConfidence, kept := Summarize(detections.value);
    var extractedData := ParseReceiptText(fullText, parse, currentYear);
    result := OcrResult(fullText, avgConfidence, kept, extractedData);
  }
}
