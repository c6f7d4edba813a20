/** The Sibyll event record's mother-index rewrite (SibyllEvent). Sibyll
    stores only mothers, one index pair per particle, 1-based with 0 for
    "none"; the record shifts them to 0-based and then repairs the rows
    that refer to the initial beam. */
module SibyllEvent {
  import opened Common

  /** Subtract one from both indices of every row: Fortran's 1-based
      indices (0 = none) become 0-based ones (-1 = none). */
  function HistoryZeroIndexing(mothers: seq<IndexPair>): (r: seq<IndexPair>)
    ensures |r| == |mothers|
    ensures forall i :: 0 <= i < |r| ==>
      r[i].first + 1 == mothers[i].first && r[i].second + 1 == mothers[i].second
  {
    if |mothers| == 0 then []
    else [IndexPair(mothers[0].first - 1, mothers[0].second - 1)] + HistoryZeroIndexing(mothers[1..])
  }

  /** Add one to both indices of every row: the inverse of zero-indexing,
      back to Fortran's convention. */
  function HistoryOneIndexing(mothers: seq<IndexPair>): (r: seq<IndexPair>)
    ensures |r| == |mothers|
    ensures forall i :: 0 <= i < |r| ==>
      r[i].first == mothers[i].first + 1 && r[i].second == mothers[i].second + 1
  {
    if |mothers| == 0 then []
    else [IndexPair(mothers[0].first + 1, mothers[0].second + 1)] + HistoryOneIndexing(mothers[1..])
  }

  /** Zero-indexing loses nothing: the native rows can be recovered. */
  lemma ZeroIndexingRoundTrip(mothers: seq<IndexPair>)
    ensures HistoryOneIndexing(HistoryZeroIndexing(mothers)) == mothers
  {
    var r := HistoryOneIndexing(HistoryZeroIndexing(mothers));
    assert forall i :: 0 <= i < |r| ==> r[i] == mothers[i];
  }

  /** A repaired row: two different mothers, or the "no mother" row [-1, -1]. */
  predicate IsRepairedRow(p: IndexPair) {
    p.first != p.second || p == IndexPair(-1, -1)
  }

  /** Reference definition of the repair of one row: a row [1, 1] (a
      particle produced by both beam particles) becomes the range [0, 1];
      any other row naming the same mother twice keeps only the first. */
  function RepairRow(p: IndexPair): IndexPair {
    if p == IndexPair(1, 1) then IndexPair(0, 1)
    else if p.first == p.second then IndexPair(p.first, -1)
    else p
  }

  /** The history repair applied after the initial beam particles have been
      prepended to the stack, as two whole-array passes: first every row
      equal to [1, 1] is set to [0, 1]; then, on the result, every row whose
      two entries agree gets -1 as its second entry. `mothers` is the array
      as the prepend left it. */
  method RepairInitialBeam(mothers: seq<IndexPair>) returns (r: seq<IndexPair>)
    ensures |r| == |mothers|
    ensures forall i :: 0 <= i < |r| ==> r[i] == RepairRow(mothers[i])
    ensures forall i :: 0 <= i < |r| ==> IsRepairedRow(r[i])
    ensures forall i :: 0 <= i < |r| && mothers[i] == IndexPair(1, 1) ==> r[i] == IndexPair(0, 1)
    ensures forall i :: 0 <= i < |r| && mothers[i].first != mothers[i].second ==> r[i] == mothers[i]
    ensures forall i :: 0 <= i < |r| && mothers[i].first == mothers[i].second && mothers[i] != IndexPair(1, 1) ==>
      r[i] == IndexPair(mothers[i].first, -1)
  {
    r := mothers;
    var i := 0;
    while i < |r|
      invariant 0 <= i <= |r| == |mothers|
      invariant forall j :: 0 <= j < i ==>
        r[j] == (if mothers[j] == IndexPair(1, 1) then IndexPair(0, 1) else mothers[j])
      invariant forall j :: i <= j < |r| ==> r[j] == mothers[j]
    {
      if r[i] == IndexPair(1, 1) {
        r := r[i := IndexPair(0, 1)];
      }
      i := i + 1;
    }
    i := 0;
    while i < |r|
      invariant 0 <= i <= |r| == |mothers|
      invariant forall j :: 0 <= j < i ==> r[j] == RepairRow(mothers[j])
      invariant forall j :: i <= j < |r| ==>
        r[j] == (if mothers[j] == IndexPair(1, 1) then IndexPair(0, 1) else mothers[j])
    {
      if r[i].first == r[i].second {
        r := r[i := IndexPair(r[i].first, -1)];
      }
      i := i + 1;
    }
  }

  /** Repairing a repaired row changes nothing, so a second repair of the
      whole array is a no-op. */
  lemma RepairRowIdempotent(p: IndexPair)
    ensures IsRepairedRow(RepairRow(p))
    ensures IsRepairedRow(p) ==> RepairRow(p) == p
    ensures RepairRow(RepairRow(p)) == RepairRow(p)
  {
  }
}
