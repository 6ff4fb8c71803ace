/**
 * The service-type classifier of `parseReceiptText` (services/ocr.js:226-241):
 * six categories in a fixed order, each with a case-insensitive alternation of
 * keywords looked for anywhere in the text; the first category that matches wins.
 */
module ServiceType {
  import opened Wrappers
  import opened Text

  const ServiceTypes: seq<string> :=
    ["Prescription", "Doctor Visit", "Dental", "Vision", "Lab Tests", "Mental Health"]

  /** The keywords of each category, as the source lists them ("therapy" appears twice in the last). */
  const ServiceWords: seq<seq<string>> := [
    ["prescription", "pharmacy", "rx", "medication", "drug"],
    ["doctor", "physician", "clinic", "visit", "appointment"],
    ["dental", "dentist", "teeth", "oral"],
    ["vision", "eye", "optometrist", "glasses", "contact"],
    ["lab", "test", "blood", "diagnostic"],
    ["therapy", "psychologist", "psychiatrist", "mental", "therapy"]
  ]

  /** The text mentions category `k`. */
  predicate Mentions(t: string, k: nat)
    requires k < |ServiceWords|
  {
    ContainsAnyCI(t, ServiceWords[k])
  }

  /** The first category from `k` on that the text mentions. */
  function FirstMentioned(t: string, k: nat): (r: Option<nat>)
    ensures r.Some? ==> k <= r.value < |ServiceTypes| && Mentions(t, r.value)
    ensures r.Some? ==> forall j :: k <= j < r.value ==> !Mentions(t, j)
    ensures r.None? ==> forall j :: k <= j < |ServiceTypes| ==> !Mentions(t, j)
    decreases |ServiceTypes| - k
  {
    if k >= |ServiceTypes| then None
    else if Mentions(t, k) then Some(k)
    else FirstMentioned(t, k + 1)
  }

  /** `data.service_type`. */
  function DetectedService(t: string): Option<string>
  {
    var k := FirstMentioned(t, 0);
    if k.Some? then Some(ServiceTypes[k.value]) else None
  }

  /**
   * The service type is the first category, in the fixed order, one of whose
   * keywords occurs in the text ignoring case, and it is absent exactly when no
   * keyword of any category occurs.
   */
  lemma DetectedServiceSpec(t: string)
    ensures DetectedService(t).Some? ==>
      exists k :: (0 <= k < |ServiceTypes| && DetectedService(t).value == ServiceTypes[k] &&
        (exists w :: 0 <= w < |ServiceWords[k]| && ContainsCI(t, ServiceWords[k][w])) &&
        forall j :: 0 <= j < k ==> forall w :: 0 <= w < |ServiceWords[j]| ==> !ContainsCI(t, ServiceWords[j][w]))
    ensures DetectedService(t).None? <==>
      forall j :: 0 <= j < |ServiceTypes| ==> forall w :: 0 <= w < |ServiceWords[j]| ==> !ContainsCI(t, ServiceWords[j][w])
  {
    var k := FirstMentioned(t, 0);
    if k.Some? {
      assert Mentions(t, k.value);
    } else {
      forall j | 0 <= j < |ServiceTypes| ensures forall w :: 0 <= w < |ServiceWords[j]| ==> !ContainsCI(t, ServiceWords[j][w]) {
        assert !Mentions(t, j);
      }
    }
  }

  /** The classifier as the source runs it: a loop over the categories with `break`. */
  method DetectServiceType(t: string) returns (serviceType: Option<string>)
    ensures serviceType == DetectedService(t)
  {
    serviceType := None;
    var k := 0;
    while k < |ServiceTypes|
      invariant 0 <= k <= |ServiceTypes|
      invariant FirstMentioned(t, k) == FirstMentioned(t, 0)
    {
      if ContainsAnyCI(t, ServiceWords[k]) {
        serviceType := Some(ServiceTypes[k]);
        break;
      }
      k := k + 1;
    }
  }
}
