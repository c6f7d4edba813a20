/** The Pythia 6 event record (PYTHIAEvent) over the HEPEVT stack:
    final-state and charged final-state selections, the lineage accessors
    that refuse a filtered record, and the charge vector computed at most
    once per record. */
module Pythia6Event {
  import opened Common

  /** HEPEVT status code of a final-state particle. */
  const FinalStateStatus := 1

  predicate StrictlyIncreasing(s: seq<nat>) {
    forall i, j :: 0 <= i < j < |s| ==> s[i] < s[j]
  }

  /** `np.where(mask)`: the positions at which the mask holds, ascending. */
  function Where(mask: seq<bool>): (idx: seq<nat>)
    ensures |idx| <= |mask|
    ensures StrictlyIncreasing(idx)
    ensures forall j :: 0 <= j < |idx| ==> idx[j] < |mask| && mask[idx[j]]
    ensures forall i :: 0 <= i < |mask| && mask[i] ==> i in idx
  {
    if |mask| == 0 then []
    else
      var prefix := Where(mask[..|mask| - 1]);
      if mask[|mask| - 1] then prefix + [|mask| - 1] else prefix
  }

  /** A mask that holds wherever another does selects only positions the
      other selects, and so no more of them. */
  lemma WhereMonotone(m1: seq<bool>, m2: seq<bool>)
    requires |m1| == |m2|
    requires forall i :: 0 <= i < |m1| && m1[i] ==> m2[i]
    ensures |Where(m1)| <= |Where(m2)|
    ensures forall j :: 0 <= j < |Where(m1)| ==> Where(m1)[j] in Where(m2)
  {
    WhereSizeMonotone(m1, m2);
  }

  lemma {:induction false} WhereSizeMonotone(m1: seq<bool>, m2: seq<bool>)
    requires |m1| == |m2|
    requires forall i :: 0 <= i < |m1| && m1[i] ==> m2[i]
    ensures |Where(m1)| <= |Where(m2)|
  {
    if |m1| > 0 {
      var n := |m1| - 1;
      WhereSizeMonotone(m1[..n], m2[..n]);
      WhereSizeStep(m1);
      WhereSizeStep(m2);
    }
  }

  lemma WhereSizeStep(m: seq<bool>)
    requires |m| > 0
    ensures |Where(m)| == |Where(m[..|m| - 1])| + (if m[|m| - 1] then 1 else 0)
  {
  }

  /** One event record. `status` and `kf` are the full (unfiltered) HEPEVT
      status codes and Pythia KF codes (`pyjets.k[:, 1]`, possibly longer
      than the live stack); `selection` holds indices into the full stack;
      `filtered` is the base class's "a selection was applied" flag;
      `chargeCache` is the instance's charge vector, `None` until first used. */
  datatype PythiaEvent = PythiaEvent(
    npart: nat,
    status: seq<int>,
    kf: seq<int>,
    jmohep: seq<IndexPair>,
    jdahep: seq<IndexPair>,
    selection: seq<nat>,
    filtered: bool,
    chargeCache: Option<seq<real>>)
  {
    predicate Valid() {
      && |status| == npart
      && |kf| >= npart
      && (forall j :: 0 <= j < |selection| ==> selection[j] < npart)
      && (chargeCache.Some? ==> |chargeCache.value| == npart)
    }
  }

  /** The record built over the native stack after a step: the first `npart`
      status codes, every particle selected, not filtered, no charges yet. */
  function NewEvent(npart: nat, isthep: seq<int>, kf: seq<int>, jmohep: seq<IndexPair>, jdahep: seq<IndexPair>): (e: PythiaEvent)
    requires |isthep| >= npart && |kf| >= npart
    ensures e.Valid() && !e.filtered && e.chargeCache.None?
    ensures e.npart == npart && e.status == isthep[..npart]
    ensures e.kf == kf && e.jmohep == jmohep && e.jdahep == jdahep
    ensures |e.selection| == npart && forall j :: 0 <= j < npart ==> e.selection[j] == j
  {
    PythiaEvent(npart, isthep[..npart], kf, jmohep, jdahep,
      seq(npart, i requires 0 <= i < npart => i as nat), false, None)
  }

  /** `filter_final_state`: select exactly the particles with final-state
      status, in stack order, and mark the record filtered. */
  function FilterFinalState(e: PythiaEvent): (r: PythiaEvent)
    requires e.Valid()
    ensures r.Valid() && r.filtered
    ensures forall i :: 0 <= i < e.npart ==> (i in r.selection <==> e.status[i] == FinalStateStatus)
    ensures StrictlyIncreasing(r.selection) && |r.selection| <= e.npart
    ensures r.(selection := e.selection, filtered := e.filtered) == e
  {
    var mask := seq(e.npart, i requires 0 <= i < e.npart => e.status[i] == FinalStateStatus);
    e.(selection := Where(mask), filtered := true)
  }

  /** The charge of every live particle: `pychge` (three times the charge)
      of its KF code, divided by three with Python 2's integer division, so
      the charge is rounded down to a whole number; it is exact for every
      particle of integer charge. */
  function ChargeVector(e: PythiaEvent, pychge: int -> int): (c: seq<real>)
    requires e.Valid()
    ensures |c| == e.npart
    ensures forall i :: 0 <= i < e.npart ==>
      && c[i] == c[i].Floor as real
      && c[i] * 3.0 <= pychge(e.kf[i]) as real < c[i] * 3.0 + 3.0
    ensures forall i :: 0 <= i < e.npart && pychge(e.kf[i]) % 3 == 0 ==>
      c[i] * 3.0 == pychge(e.kf[i]) as real
  {
    seq(e.npart, i requires 0 <= i < e.npart => FloorThird(pychge(e.kf[i])))
  }

  /** Python 2's `x / 3` on an integer, as a real. */
  function FloorThird(x: int): (q: real)
    ensures q == q.Floor as real
    ensures q * 3.0 <= x as real < q * 3.0 + 3.0
    ensures x % 3 == 0 ==> q * 3.0 == x as real
  {
    var d := x / 3;
    assert 3 * d <= x < 3 * d + 3;
    d as real
  }

  /** What reading `charge` yields: the values and the record afterwards. */
  datatype ChargeAccess = ChargeAccess(values: seq<real>, event: PythiaEvent)

  /** The `charge` property: fill the cache over the whole stack on first
      use (calling `pychge`), reuse it afterwards, and return the cached
      vector at the current selection. */
  function Charge(e: PythiaEvent, pychge: int -> int): (r: ChargeAccess)
    requires e.Valid()
    ensures r.event.Valid() && r.event.chargeCache.Some?
    ensures e.chargeCache.Some? ==> r.event == e
    ensures e.chargeCache.None? ==> r.event == e.(chargeCache := Some(ChargeVector(e, pychge)))
    ensures |r.values| == |e.selection|
    ensures forall j :: 0 <= j < |e.selection| ==>
      r.values[j] == r.event.chargeCache.value[e.selection[j]]
  {
    var cache := if e.chargeCache.Some? then e.chargeCache.value else ChargeVector(e, pychge);
    var e' := e.(chargeCache := Some(cache));
    ChargeAccess(seq(|e.selection|, j requires 0 <= j < |e.selection| => cache[e.selection[j]]), e')
  }

  /** `filter_final_state_charged`: select exactly the final-state particles
      whose cached charge is non-zero (filling the cache if needed). */
  function FilterFinalStateCharged(e: PythiaEvent, pychge: int -> int): (r: PythiaEvent)
    requires e.Valid()
    ensures r.Valid() && r.filtered && r.chargeCache.Some?
    ensures r.chargeCache == Charge(e, pychge).event.chargeCache
    ensures forall i :: 0 <= i < e.npart ==>
      (i in r.selection <==> e.status[i] == FinalStateStatus && r.chargeCache.value[i] != 0.0)
    ensures StrictlyIncreasing(r.selection)
    ensures r.(selection := e.selection, filtered := e.filtered, chargeCache := e.chargeCache) == e
  {
    var charged := Charge(e, pychge).event;
    var charges := charged.chargeCache.value;
    var mask := seq(e.npart, i requires 0 <= i < e.npart =>
      e.status[i] == FinalStateStatus && charges[i] != 0.0);
    charged.(selection := Where(mask), filtered := true)
  }

  /** The error the written charged filter raises on a filtered record,
      with the record as it is left: reading `charge` filled the cache
      before the list was indexed. */
  datatype ChargedFilterError = ListIndexedByArray(cached: PythiaEvent)

  /** `filter_final_state_charged` as written, under Python 2: `charge` is a
      Python list, so `charge != 0` compares the whole list with 0 and is the
      single value True, and the mask is the final-state mask alone. Reading
      `charge` fills the cache first; on a filtered record the selection is
      an index array, with which a list cannot be indexed. */
  function FilterFinalStateChargedAsWritten(e: PythiaEvent, pychge: int -> int): (r: Result<PythiaEvent, ChargedFilterError>)
    requires e.Valid()
    ensures r.Failure? <==> e.filtered
    ensures r.Failure? ==> r.error.cached == Charge(e, pychge).event
    ensures r.Success? ==> r.value.Valid() && r.value.filtered
    ensures r.Success? ==> r.value.chargeCache == Charge(e, pychge).event.chargeCache
    ensures r.Success? ==> forall i :: 0 <= i < e.npart ==>
      (i in r.value.selection <==> e.status[i] == FinalStateStatus)
    ensures r.Success? ==> StrictlyIncreasing(r.value.selection)
    ensures r.Success? ==>
      r.value.(selection := e.selection, filtered := e.filtered, chargeCache := e.chargeCache) == e
  {
    if e.filtered then Failure(ListIndexedByArray(Charge(e, pychge).event))
    else Success(FilterFinalState(Charge(e, pychge).event))
  }

  /** A neutral final-state particle, a photon, passes the written filter
      but not the element-wise one. */
  lemma NeutralParticlePassesWrittenFilter()
    ensures var e := NewEvent(1, [FinalStateStatus], [22], [], []);
      var neutral := (kf: int) => 0;
      && FilterFinalStateChargedAsWritten(e, neutral).Success?
      && 0 in FilterFinalStateChargedAsWritten(e, neutral).value.selection
      && 0 !in FilterFinalStateCharged(e, neutral).selection
  {
    var e := NewEvent(1, [FinalStateStatus], [22], [], []);
    var neutral := (kf: int) => 0;
    ChargedSelectionOfFreshEvent(e, neutral);
  }

  /** The charged selection lies inside the final-state one, so it is no
      larger, and neither is larger than the stack. */
  lemma ChargedWithinFinalState(e: PythiaEvent, pychge: int -> int)
    requires e.Valid()
    ensures var charged := FilterFinalStateCharged(e, pychge).selection;
      var fs := FilterFinalState(e).selection;
      && (forall j :: 0 <= j < |charged| ==> charged[j] in fs)
      && |charged| <= |fs| <= e.npart
  {
    var charges := Charge(e, pychge).event.chargeCache.value;
    var m1 := seq(e.npart, i requires 0 <= i < e.npart =>
      e.status[i] == FinalStateStatus && charges[i] != 0.0);
    var m2 := seq(e.npart, i requires 0 <= i < e.npart => e.status[i] == FinalStateStatus);
    WhereMonotone(m1, m2);
  }

  /** On a record whose charges were never read, the charged selection is
      the final-state particles whose rounded-down charge is non-zero:
      `pychge` at least 3 or negative, so a fractional positive charge is
      left out. For a particle of integer charge this is exactly a non-zero
      `pychge`. */
  lemma ChargedSelectionOfFreshEvent(e: PythiaEvent, pychge: int -> int)
    requires e.Valid() && e.chargeCache.None?
    ensures forall i :: 0 <= i < e.npart ==>
      (i in FilterFinalStateCharged(e, pychge).selection <==>
        e.status[i] == FinalStateStatus && (pychge(e.kf[i]) >= 3 || pychge(e.kf[i]) < 0))
    ensures forall i :: 0 <= i < e.npart && pychge(e.kf[i]) % 3 == 0 ==>
      (i in FilterFinalStateCharged(e, pychge).selection <==>
        e.status[i] == FinalStateStatus && pychge(e.kf[i]) != 0)
  {
    var charges := ChargeVector(e, pychge);
    forall i | 0 <= i < e.npart
      ensures charges[i] != 0.0 <==> pychge(e.kf[i]) >= 3 || pychge(e.kf[i]) < 0
    {
      ThirdNonZero(pychge(e.kf[i]));
    }
  }

  lemma ThirdNonZero(x: int)
    ensures FloorThird(x) != 0.0 <==> x >= 3 || x < 0
  {
    var q := FloorThird(x);
    if 0 <= x < 3 {
      assert q.Floor == 0;
    }
  }

  /** The lineage error: indices into the full stack cannot be used once a
      selection is applied. */
  datatype LineageError = StaleLineage

  /** `parents`: the raw `jmohep` rows, refused on a filtered record. */
  function Parents(e: PythiaEvent): (r: Result<seq<IndexPair>, LineageError>)
    ensures r.Failure? <==> e.filtered
    ensures r.Success? ==> r.value == e.jmohep
  {
    if e.filtered then Failure(StaleLineage) else Success(e.jmohep)
  }

  /** `children`: the raw `jdahep` rows, refused on a filtered record. */
  function Children(e: PythiaEvent): (r: Result<seq<IndexPair>, LineageError>)
    ensures r.Failure? <==> e.filtered
    ensures r.Success? ==> r.value == e.jdahep
  {
    if e.filtered then Failure(StaleLineage) else Success(e.jdahep)
  }

  /** After either filter, lineage is refused, even when every particle is
      final-state and the selection is the whole stack again. */
  lemma LineageRefusedAfterFilter(e: PythiaEvent, pychge: int -> int)
    requires e.Valid()
    ensures Parents(FilterFinalState(e)).Failure? && Children(FilterFinalState(e)).Failure?
    ensures Parents(FilterFinalStateCharged(e, pychge)).Failure?
    ensures Children(FilterFinalStateCharged(e, pychge)).Failure?
  {
  }

  /** The charge vector is computed at most once per record: a second read
      neither changes the record nor consults `pychge` again, whatever
      lookup it is given. */
  lemma ChargeComputedOnce(e: PythiaEvent, pychge: int -> int, other: int -> int)
    requires e.Valid()
    ensures var first := Charge(e, pychge);
      var second := Charge(first.event, other);
      second.event == first.event && second.values == first.values
  {
  }
}
