/**
 * `SptIdAnnotator`: highlight every ID in an element's text that the data
 * service resolves.  The annotation holder is replaced by the sequence of
 * text ranges the annotator creates, in creation order.
 */
module Annotator {
  import opened Wrappers
  import opened IdScan
  import opened DataService

  /** `TextRange(startOffset, endOffset)`, end exclusive, in document offsets. */
  datatype TextRange = TextRange(startOffset: int, endOffset: int)

  /** The starts among `starts` whose candidate resolves, in order. */
  function Known(text: string, starts: seq<nat>, service: SptDataService): (r: seq<nat>)
    requires ValidStarts(text, starts)
    reads service
    ensures ValidStarts(text, r)
    ensures forall m :: m in r <==> m in starts && Resolves(text, m, service)
    ensures Spaced(starts) ==> Spaced(r)
    decreases |starts|
  {
    if starts == [] then []
    else
      var init := starts[..|starts| - 1];
      var last := starts[|starts| - 1];
      assert forall m :: m in init ==> m in starts;
      assert forall m :: m in starts <==> m in init || m == last;
      var prefix := Known(text, init, service);
      assert last in starts;
      var r := prefix + (if Resolves(text, last, service) then [last] else []);
      assert Spaced(starts) ==> Spaced(r) by {
        if Spaced(starts) {
          forall i, j | 0 <= i < j < |r|
            ensures r[i] + ID_LENGTH <= r[j]
          {
            if j == |prefix| {
              assert r[i] in prefix;
              var h :| 0 <= h < |init| && init[h] == r[i];
            }
          }
        }
      }
      r
  }

  /** The range of the candidate at `m`, for an element that starts at `base`. */
  function RangeAt(base: int, m: nat): TextRange {
    TextRange(base + m, base + m + ID_LENGTH)
  }

  /** The ranges of the candidates at `starts`, in order. */
  function RangesOf(base: int, starts: seq<nat>): (r: seq<TextRange>)
    ensures |r| == |starts| && forall k :: 0 <= k < |r| ==> r[k] == RangeAt(base, starts[k])
  {
    seq(|starts|, k requires 0 <= k < |starts| => RangeAt(base, starts[k]))
  }

  /** One more start adds its range at the end. */
  lemma RangesOfAppend(base: int, starts: seq<nat>, m: nat)
    ensures RangesOf(base, starts + [m]) == RangesOf(base, starts) + [RangeAt(base, m)]
  {
    var a, b := RangesOf(base, starts + [m]), RangesOf(base, starts) + [RangeAt(base, m)];
    assert forall k :: 0 <= k < |starts| ==> a[k] == b[k];
  }

  /** One more start considered: the known starts grow by it exactly when it resolves. */
  lemma KnownStep(text: string, starts: seq<nat>, i: nat, service: SptDataService)
    requires ValidStarts(text, starts) && i < |starts|
    ensures ValidStarts(text, starts[..i]) && ValidStarts(text, starts[..i + 1])
    ensures starts[i] + ID_LENGTH <= |text|
    ensures Known(text, starts[..i + 1], service)
         == Known(text, starts[..i], service) + (if Resolves(text, starts[i], service) then [starts[i]] else [])
  {
    var upTo := starts[..i + 1];
    forall m | m in upTo
      ensures m + ID_LENGTH <= |text|
    {
      var h :| 0 <= h < i + 1 && upTo[h] == m;
      assert starts[h] in starts;
    }
    assert forall m :: m in starts[..i] ==> m in starts;
    assert starts[..i + 1][..i] == starts[..i];
    assert starts[i] in starts;
  }

  /** What `annotate` creates for an element whose text is `element` (absent: nothing). */
  function Highlights(element: Option<string>, base: int, service: SptDataService): (r: seq<TextRange>)
    reads service
  {
    if element.None? then []
    else
      var text := element.value;
      MatchesValid(text);
      var known := Known(text, Matches(text, 0), service);
      RangesOf(base, known)
  }

  /** The highlights of a text: the ranges of its matches that resolve. */
  lemma HighlightsOfText(text: string, base: int, service: SptDataService)
    ensures ValidStarts(text, Matches(text, 0))
    ensures Highlights(Some(text), base, service) == RangesOf(base, Known(text, Matches(text, 0), service))
  {
    MatchesValid(text);
  }

  /** Every range is one ID long and covers a match of the text that the service resolves. */
  lemma HighlightsSound(text: string, base: int, service: SptDataService)
    ensures var r := Highlights(Some(text), base, service);
            forall k :: 0 <= k < |r| ==>
              r[k].endOffset - r[k].startOffset == ID_LENGTH &&
              exists m :: m in Matches(text, 0) && r[k] == RangeAt(base, m) && m + ID_LENGTH <= |text| && Resolves(text, m, service)
  {
    MatchesValid(text);
    var known := Known(text, Matches(text, 0), service);
    var r := Highlights(Some(text), base, service);
    assert r == RangesOf(base, known);
    forall k | 0 <= k < |r|
      ensures exists m :: m in Matches(text, 0) && r[k] == RangeAt(base, m) && m + ID_LENGTH <= |text| && Resolves(text, m, service)
    {
      assert known[k] in known;
    }
  }

  /** A match of the text is highlighted exactly when the service resolves it. */
  lemma HighlightsComplete(text: string, base: int, service: SptDataService, m: nat)
    requires m in Matches(text, 0)
    ensures m + ID_LENGTH <= |text|
    ensures RangeAt(base, m) in Highlights(Some(text), base, service) <==> Resolves(text, m, service)
  {
    MatchesValid(text);
    var known := Known(text, Matches(text, 0), service);
    var r := Highlights(Some(text), base, service);
    assert r == RangesOf(base, known);
    if Resolves(text, m, service) {
      var k :| 0 <= k < |known| && known[k] == m;
      assert r[k] == RangeAt(base, m);
    }
    if RangeAt(base, m) in r {
      var k :| 0 <= k < |r| && r[k] == RangeAt(base, m);
      assert known[k] == m;
      assert known[k] in known;
    }
  }

  /** The ranges are in ascending order and never overlap. */
  lemma HighlightsOrdered(element: Option<string>, base: int, service: SptDataService)
    ensures var r := Highlights(element, base, service);
            forall i, j :: 0 <= i < j < |r| ==> r[i].endOffset <= r[j].startOffset
  {
    if element.Some? {
      var text := element.value;
      MatchesValid(text);
      var known := Known(text, Matches(text, 0), service);
      assert Spaced(known);
    }
  }

  /** An element without text gets no annotation. */
  lemma NoTextNoHighlights(base: int, service: SptDataService)
    ensures Highlights(None, base, service) == []
  {
  }

  /** `annotate`: scan the text, and create a range for each match the service resolves. */
  method Annotate(element: Option<string>, base: int, service: SptDataService) returns (ranges: seq<TextRange>)
    ensures ranges == Highlights(element, base, service)
  {
    if element.None? {
      return [];
    }
    var text := element.value;
    var matches := FindAll(text);
    MatchesValid(text);
    ranges := [];
    assert ValidStarts(text, matches[..0]);
    for i := 0 to |matches|
      invariant ValidStarts(text, matches[..i])
      invariant ranges == RangesOf(base, Known(text, matches[..i], service))
    {
      KnownStep(text, matches, i, service);
      var potentialId := Candidate(text, matches[i]);
      if service.GetItemDetails(potentialId).Some? {
        RangesOfAppend(base, Known(text, matches[..i], service), matches[i]);
        ranges := ranges + [RangeAt(base, matches[i])];
      }
    }
    assert matches[..|matches|] == matches;
    HighlightsOfText(text, base, service);
  }
}
