/** Choosing between the recognised text of the original photograph and of
    its enhanced copy, and summarising a batch of recognitions. */
module OcrSelect {
  import opened Wrappers

  /** What one recognition pass reports. A missing `success` is false; a
      missing text, confidence or word count reads as "", 0.0 and 0. */
  datatype OcrReading = OcrReading(success: bool, text: string, confidence: real, wordCount: int)

  datatype Source = Original | Enhanced

  /** The chosen text together with the figures of the pass it came from. */
  datatype Selection = Selection(text: string, confidence: real, wordCount: int, source: Source)

  /** Word counts closer than this are compared by confidence instead. */
  const WordCountThreshold := 3

  function Pick(r: OcrReading, source: Source): (sel: Selection)
    ensures sel.text == r.text && sel.confidence == r.confidence && sel.wordCount == r.wordCount
    ensures sel.source == source
  {
    Selection(r.text, r.confidence, r.wordCount, source)
  }

  function Abs(n: int): nat { if n < 0 then -n else n }

  /** `_select_best_ocr_result`. An absent enhanced reading is `None`. */
  function SelectBest(original: OcrReading, enhanced: Option<OcrReading>): (sel: Selection)
    ensures enhanced.None? || !enhanced.value.success ==> sel == Pick(original, Original)
    ensures enhanced.Some? && enhanced.value.success && !original.success ==> sel == Pick(enhanced.value, Enhanced)
    ensures enhanced.Some? && enhanced.value.success && original.success
      && Abs(enhanced.value.wordCount - original.wordCount) > WordCountThreshold
      ==> (sel.source == Enhanced <==> enhanced.value.wordCount > original.wordCount)
    ensures enhanced.Some? && enhanced.value.success && original.success
      && Abs(enhanced.value.wordCount - original.wordCount) <= WordCountThreshold
      ==> (sel.source == Enhanced <==> enhanced.value.confidence > original.confidence)
    ensures sel.source == Original ==> sel == Pick(original, Original)
    ensures sel.source == Enhanced ==> enhanced.Some? && enhanced.value.success && sel == Pick(enhanced.value, Enhanced)
  {
    if enhanced.None? || !enhanced.value.success then Pick(original, Original)
    else if !original.success then Pick(enhanced.value, Enhanced)
    else
      var e := enhanced.value;
      if Abs(e.wordCount - original.wordCount) > WordCountThreshold then
        if e.wordCount > original.wordCount then Pick(e, Enhanced) else Pick(original, Original)
      else if e.confidence > original.confidence then Pick(e, Enhanced)
      else Pick(original, Original)
  }

  /** When both passes succeed, the chosen one is never beaten by more than
      the threshold in words, and within the threshold it has the higher
      confidence (the original on a tie). */
  lemma SelectionDominates(original: OcrReading, e: OcrReading)
    requires original.success && e.success
    ensures var sel := SelectBest(original, Some(e));
      var other := if sel.source == Original then e else original;
      sel.wordCount >= other.wordCount - WordCountThreshold
      && (Abs(e.wordCount - original.wordCount) <= WordCountThreshold ==> sel.confidence >= other.confidence)
      && (Abs(e.wordCount - original.wordCount) > WordCountThreshold ==> sel.wordCount > other.wordCount)
  {
  }

  // ---- Batch summary ----

  /** The part of a per-image result the summary reads. */
  datatype Outcome = Outcome(success: bool, wordCount: int, confidence: real, ocrSource: string)

  /** What the parallel gather hands back for one image: a result, or the
      exception the task raised. */
  datatype BatchItem = Raised(message: string) | Returned(outcome: Outcome)

  /** An entry of the failed list: `{"error": str(e)}` or the unsuccessful result. */
  datatype Failure = ErrorEntry(message: string) | FailedOutcome(outcome: Outcome)

  datatype Summary = Summary(
    totalProcessed: nat,
    successfulCount: nat,
    failedCount: nat,
    totalWords: int,
    enhancedSelected: nat,
    originalSelected: int,
    successful: seq<Outcome>,
    failed: seq<Failure>)

  predicate Succeeded(item: BatchItem) { item.Returned? && item.outcome.success }

  /** The successful results, in order. */
  function Successes(items: seq<BatchItem>): (r: seq<Outcome>)
    ensures |r| <= |items|
  {
    if items == [] then []
    else Successes(items[..|items| - 1]) + (if Succeeded(items[|items| - 1]) then [items[|items| - 1].outcome] else [])
  }

  function FailureOf(item: BatchItem): Failure
    requires !Succeeded(item)
  {
    match item
    case Raised(m) => ErrorEntry(m)
    case Returned(o) => FailedOutcome(o)
  }

  /** The failures, in order. */
  function Failures(items: seq<BatchItem>): (r: seq<Failure>)
    ensures |r| <= |items|
  {
    if items == [] then []
    else Failures(items[..|items| - 1]) + (if Succeeded(items[|items| - 1]) then [] else [FailureOf(items[|items| - 1])])
  }

  function SumWords(rs: seq<Outcome>): int
  {
    if rs == [] then 0 else SumWords(rs[..|rs| - 1]) + rs[|rs| - 1].wordCount
  }

  function CountEnhanced(rs: seq<Outcome>): (n: nat)
    ensures n <= |rs|
  {
    if rs == [] then 0 else CountEnhanced(rs[..|rs| - 1]) + (if rs[|rs| - 1].ocrSource == "enhanced" then 1 else 0)
  }

  /** Every item lands in exactly one of the two lists. */
  lemma {:induction false} Partition(items: seq<BatchItem>)
    ensures |Successes(items)| + |Failures(items)| == |items|
  {
    if items != [] {
      Partition(items[..|items| - 1]);
    }
  }

  /** `_format_results`, without the average confidence. */
  method FormatResults(items: seq<BatchItem>) returns (s: Summary)
    ensures s.successful == Successes(items) && s.failed == Failures(items)
    ensures s.totalProcessed == |items|
    ensures s.successfulCount == |s.successful| && s.failedCount == |s.failed|
    ensures s.successfulCount + s.failedCount == s.totalProcessed
    ensures s.totalWords == SumWords(s.successful)
    ensures s.enhancedSelected == CountEnhanced(s.successful)
    ensures s.enhancedSelected + s.originalSelected == s.successfulCount && s.originalSelected >= 0
  {
    var successful: seq<Outcome> := [];
    var failed: seq<Failure> := [];
    var i := 0;
    while i < |items|
      invariant 0 <= i <= |items|
      invariant successful == Successes(items[..i]) && failed == Failures(items[..i])
    {
      assert items[..i + 1][..i] == items[..i];
      match items[i] {
        case Raised(m) =>
          failed := failed + [ErrorEntry(m)];
        case Returned(o) =>
          if o.success {
            successful := successful + [o];
          } else {
            failed := failed + [FailedOutcome(o)];
          }
      }
      i := i + 1;
    }
    assert items[..|items|] == items;
    Partition(items);
    var enhanced := CountEnhanced(successful);
    s := Summary(|items|, |successful|, |failed|, SumWords(successful), enhanced,
      |successful| - enhanced, successful, failed);
  }
}
