/**
 * The ID pattern shared by the annotator and the documentation provider:
 * `Regex("[0-9a-f]{24}", IGNORE_CASE).findAll(text)`, a fixed-width pattern,
 * so its matches are the leftmost non-overlapping runs of 24 hex digits.
 */
module IdScan {
  import opened MongoId
  import opened DataService

  /** SPT IDs are 24 characters long. */
  const ID_LENGTH: nat := 24

  /** Twenty-four hex digits, in either case, start at position `i` of `s`. */
  predicate HexRunAt(s: string, i: nat) {
    i + ID_LENGTH <= |s| && forall k :: i <= k < i + ID_LENGTH ==> IsHexChar(s[k])
  }

  /** Every start is far enough from the end for a whole ID to fit. */
  predicate ValidStarts(s: string, starts: seq<nat>) {
    forall m :: m in starts ==> m + ID_LENGTH <= |s|
  }

  /** Starts in increasing order, each at least one ID length after the one before. */
  predicate Spaced(starts: seq<nat>) {
    forall i, j :: 0 <= i < j < |starts| ==> starts[i] + ID_LENGTH <= starts[j]
  }

  /** The candidate ID at a start. */
  function Candidate(s: string, m: nat): (id: string)
    requires m + ID_LENGTH <= |s|
    ensures |id| == ID_LENGTH
  {
    s[m..m + ID_LENGTH]
  }

  /** The candidate at `m` is an ID the data service knows, custom or static. */
  predicate Resolves(text: string, m: nat, service: SptDataService)
    requires m + ID_LENGTH <= |text|
    reads service
  {
    service.GetItemDetails(Candidate(text, m)).Some?
  }

  /**
   * The start positions `findAll` reports when the search begins at `from`:
   * a match consumes its 24 characters, a failed attempt moves on by one.
   */
  function Matches(s: string, from: nat): (r: seq<nat>)
    requires from <= |s|
    ensures forall k :: 0 <= k < |r| ==> from <= r[k] && HexRunAt(s, r[k])
    ensures Spaced(r)
    decreases |s| - from
  {
    if from + ID_LENGTH > |s| then []
    else if HexRunAt(s, from) then [from] + Matches(s, from + ID_LENGTH)
    else Matches(s, from + 1)
  }

  lemma MatchesValid(s: string)
    ensures ValidStarts(s, Matches(s, 0))
  {
    var r := Matches(s, 0);
    forall m | m in r
      ensures m + ID_LENGTH <= |s|
    {
      var k :| 0 <= k < |r| && r[k] == m;
      assert HexRunAt(s, r[k]);
    }
  }

  /**
   * Leftmost matching: every run of 24 hex digits at or after `from` lies
   * inside the match that starts at or before it and covers it, so no
   * run is passed over.
   */
  lemma {:induction false} MatchesCover(s: string, from: nat, p: nat)
    requires from <= p && from <= |s| && HexRunAt(s, p)
    ensures exists j :: 0 <= j < |Matches(s, from)| && Matches(s, from)[j] <= p < Matches(s, from)[j] + ID_LENGTH
    decreases |s| - from
  {
    var r := Matches(s, from);
    if HexRunAt(s, from) {
      if p < from + ID_LENGTH {
        assert r[0] == from;
      } else {
        MatchesCover(s, from + ID_LENGTH, p);
        var j :| 0 <= j < |Matches(s, from + ID_LENGTH)| &&
                 Matches(s, from + ID_LENGTH)[j] <= p < Matches(s, from + ID_LENGTH)[j] + ID_LENGTH;
        assert r[j + 1] == Matches(s, from + ID_LENGTH)[j];
      }
    } else {
      assert from != p;
      MatchesCover(s, from + 1, p);
    }
  }

  /** Twenty-five hex digits in a row give one match: the first twenty-four. */
  lemma LongRunExample()
    ensures Matches("0123456789abcdef012345678", 0) == [0]
  {
    var s := "0123456789abcdef012345678";
    assert HexRunAt(s, 0);
  }

  /** Upper-case digits match too, and a run one short of an ID does not. */
  lemma CaseAndLengthExamples()
    ensures Matches("507F1F77BCFAA64AFCAA6C5D", 0) == [0]
    ensures Matches("507f1f77bcfaa64afcaa6c5", 0) == []
  {
    assert HexRunAt("507F1F77BCFAA64AFCAA6C5D", 0);
  }

  /** The regex scan as a loop: try each position, and jump past a match. */
  method FindAll(text: string) returns (starts: seq<nat>)
    ensures starts == Matches(text, 0)
  {
    starts := [];
    var i := 0;
    while i + ID_LENGTH <= |text|
      invariant i <= |text|
      invariant starts + Matches(text, i) == Matches(text, 0)
      decreases |text| - i
    {
      if HexRunAt(text, i) {
        assert starts + Matches(text, i) == (starts + [i]) + Matches(text, i + ID_LENGTH);
        starts := starts + [i];
        i := i + ID_LENGTH;
      } else {
        i := i + 1;
      }
    }
    assert Matches(text, i) == [];
  }
}
