/** The Pythia 6 run (PYTHIA6Run): generator initialisation with its
    random-seed handling, and the decay switch edited by `set_stable`.
    Native routines (`pyinit`, `pytune`, `pycomp`, the event calls) are
    parameters or recorded as state; randomness is the drawn value. */
module Pythia6Run {
  import opened Common
  import opened Decimal

  /** Inclusive bounds of the random seed drawn when none is given. */
  const MinRandomSeed := 1000000
  const MaxRandomSeed := 10000000

  /** Tune applied with the new multiple-parton-interaction model. */
  const NewMpiTune := 383

  /** Process selection written to `pysubs.msel`. */
  const DefaultMsel := 2

  datatype SeedChoice = RandomSeed | ExplicitSeed(value: int)

  /** Which Pythia routine generates an event. */
  datatype EventCall = PyEvnt | PyEvnw

  datatype Pythia6Kinematics = Pythia6Kinematics(p1pdg: int, p2pdg: int, ecm: real)

  /** One row of `pydat3.mdcy`, indexed by compressed code KC - 1: the decay
      switch (0 = stable, 1 = may decay), the first decay channel and the
      number of channels. */
  datatype DecayRow = DecayRow(decaySwitch: int, firstChannel: int, channelCount: int)

  /** The generator state the run touches. */
  datatype RunState = RunState(
    initialized: bool,
    mrpy: seq<int>,                           // pydatr.mrpy
    mdcy: seq<DecayRow>,                      // pydat3.mdcy
    msel: int,                                // pysubs.msel
    tune: Option<int>,                        // last pytune
    eventCall: Option<EventCall>,
    kinematics: Option<Pythia6Kinematics>)    // last pyinit

  datatype Pythia6Error = AlreadyInitialized | IndexError(index: int)

  /** An initialised run and the seed it reports. */
  datatype Started = Started(run: RunState, seed: int)

  // ---------------------------------------------------------------------
  // Seed

  /** The number of decimal digits of a drawn seed: 7, except 8 for the
      upper bound itself. */
  lemma SeedDigits(seed: int)
    requires MinRandomSeed <= seed <= MaxRandomSeed
    ensures |Str(seed)| == if seed < MaxRandomSeed then 7 else 8
  {
    assert Pow10(6) == MinRandomSeed && Pow10(7) == MaxRandomSeed && Pow10(8) == 10 * MaxRandomSeed;
    if seed < MaxRandomSeed {
      StrLength(seed, 7);
    } else {
      StrLength(seed, 8);
    }
  }

  /** The four values written to `mrpy[:4]`: characters [0:2], [2:4], [4:6]
      and [6:] of the seed's decimal string, each read back as a number. */
  function SplitSeed(seed: int): (chunks: seq<int>)
    requires MinRandomSeed <= seed <= MaxRandomSeed
    ensures |chunks| == 4
    ensures 10 <= chunks[0] <= 99
    ensures 0 <= chunks[1] <= 99 && 0 <= chunks[2] <= 99 && 0 <= chunks[3] <= 99
    ensures seed < MaxRandomSeed ==> chunks[3] <= 9
  {
    var s := Str(seed);
    SeedDigits(seed);
    assert Pow10(1) == 10 && Pow10(2) == 100;
    assert s[0..2][0] == s[0];
    [Int(s[0..2]), Int(s[2..4]), Int(s[4..6]), Int(s[6..])]
  }

  /** The chunks give the seed back: for a 7-digit seed
      p0·10^5 + p1·10^3 + p2·10 + p3, for the 8-digit one
      p0·10^6 + p1·10^4 + p2·10^2 + p3. */
  lemma SplitSeedRecombines(seed: int)
    requires MinRandomSeed <= seed <= MaxRandomSeed
    ensures var c := SplitSeed(seed);
      seed < MaxRandomSeed ==> c[0] * 100000 + c[1] * 1000 + c[2] * 10 + c[3] == seed
    ensures var c := SplitSeed(seed);
      seed == MaxRandomSeed ==> c[0] * 1000000 + c[1] * 10000 + c[2] * 100 + c[3] == seed
  {
    var c := SplitSeed(seed);
    SplitSeedShift(seed);
    assert seed == ((c[0] * 100 + c[1]) * 100 + c[2]) * SeedShift(seed) + c[3];
  }

  /** How far the first three chunks are shifted past the last one: 10 for a
      7-digit seed, 100 for the 8-digit one. */
  function SeedShift(seed: int): int {
    if seed < MaxRandomSeed then 10 else 100
  }

  /** The seed is its first three chunks, read as one number, shifted past
      the last chunk, plus the last chunk. */
  lemma SplitSeedShift(seed: int)
    requires MinRandomSeed <= seed <= MaxRandomSeed
    ensures var c := SplitSeed(seed);
      seed == ((c[0] * 100 + c[1]) * 100 + c[2]) * SeedShift(seed) + c[3]
  {
    var s := Str(seed);
    SplitSeedReadsChunks(seed);
    ChunkValues(s);
    assert Value(s) == seed by {
      IntStr(seed);
    }
  }

  /** The chunks are the values of the four slices, and the shift is the
      power of ten the last slice's length gives. */
  lemma SplitSeedReadsChunks(seed: int)
    requires MinRandomSeed <= seed <= MaxRandomSeed
    ensures var s := Str(seed);
      && 7 <= |s| <= 8
      && SplitSeed(seed) == [Value(s[0..2]), Value(s[2..4]), Value(s[4..6]), Value(s[6..])]
      && SeedShift(seed) == Pow10(|s| - 6)
  {
    var s := Str(seed);
    SeedDigits(seed);
    if seed < MaxRandomSeed {
      assert Pow10(|s| - 6) == Pow10(1) == 10;
    } else {
      assert Pow10(|s| - 6) == Pow10(2) == 100;
    }
  }

  /** Reading a 7- or 8-digit string chunk by chunk. */
  lemma ChunkValues(s: string)
    requires IsDigits(s) && 7 <= |s| <= 8
    ensures Value(s) ==
      ((Value(s[0..2]) * 100 + Value(s[2..4])) * 100 + Value(s[4..6])) * Pow10(|s| - 6) + Value(s[6..])
  {
    var a, b, c, d := s[0..2], s[2..4], s[4..6], s[6..];
    var ab, abc := a + b, a + b + c;
    assert |b| == 2 && |c| == 2 && |d| == |s| - 6;
    assert abc + d == s;
    ValueAppend(a, b);
    ValueAppend(ab, c);
    ValueAppend(abc, d);
    assert Pow10(2) == 100;
    assert Value(ab) == Value(a) * 100 + Value(b);
    assert Value(abc) == Value(ab) * 100 + Value(c);
    assert Value(s) == Value(abc) * Pow10(|s| - 6) + Value(d);
  }

  /** The split identifies the seed, with one exception: 1000000 and
      10000000 both write [10, 0, 0, 0]. */
  lemma SplitSeedInjective(a: int, b: int)
    requires MinRandomSeed <= a <= MaxRandomSeed && MinRandomSeed <= b <= MaxRandomSeed
    ensures SplitSeed(a) == SplitSeed(b) <==>
      a == b || (a == MinRandomSeed && b == MaxRandomSeed) || (a == MaxRandomSeed && b == MinRandomSeed)
  {
    SplitSeedRecombines(a);
    SplitSeedRecombines(b);
    SplitSeedRecombines(MinRandomSeed);
    SplitSeedRecombines(MaxRandomSeed);
    assert SplitSeed(MinRandomSeed) == [10, 0, 0, 0];
    assert SplitSeed(MaxRandomSeed) == [10, 0, 0, 0];
  }

  // ---------------------------------------------------------------------
  // Initialisation

  /** `set_event_kinematics`: the kinematics the next `pyinit` receives. */
  function SetEventKinematics(run: RunState, kin: Pythia6Kinematics): (r: RunState)
    ensures r.kinematics == Some(kin)
    ensures r.(kinematics := run.kinematics) == run
  {
    run.(kinematics := Some(kin))
  }

  /** `init_generator`: refuse a second initialisation before touching
      anything; write the split of a drawn seed to `mrpy[:4]` (an explicit
      seed is only reported); choose the event routine (and tune 383 with
      the new MPI model); select process set 2; set the kinematics; apply
      the base class's default final-state particles (`defaultFs`, its
      effect on the decay table) and set the kinematics again. */
  function InitGenerator(run: RunState, kin: Pythia6Kinematics, seed: SeedChoice, drawn: int, newMpi: bool,
                         defaultFs: seq<DecayRow> -> seq<DecayRow>): (r: Result<Started, Pythia6Error>)
    requires seed.RandomSeed? ==> MinRandomSeed <= drawn <= MaxRandomSeed
    requires |run.mrpy| >= 4
    ensures r.Failure? <==> run.initialized
    ensures r.Failure? ==> r.error == AlreadyInitialized
    ensures r.Success? ==>
      && r.value.run.initialized
      && r.value.run.msel == DefaultMsel
      && r.value.run.kinematics == Some(kin)
      && r.value.run.mdcy == defaultFs(run.mdcy)
      && |r.value.run.mrpy| == |run.mrpy|
      && (r.value.run.eventCall == Some(PyEvnw) <==> newMpi)
      && r.value.run.eventCall.Some?
      && r.value.run.tune == (if newMpi then Some(NewMpiTune) else run.tune)
    ensures r.Success? && seed.ExplicitSeed? ==>
      r.value.seed == seed.value && r.value.run.mrpy == run.mrpy
    ensures r.Success? && seed.RandomSeed? ==>
      && r.value.seed == drawn
      && r.value.run.mrpy[..4] == SplitSeed(drawn)
      && r.value.run.mrpy[4..] == run.mrpy[4..]
  {
    if run.initialized then Failure(AlreadyInitialized)
    else
      var marked := run.(initialized := true);
      var seeded := if seed.RandomSeed? then marked.(mrpy := SplitSeed(drawn) + run.mrpy[4..]) else marked;
      var used := if seed.RandomSeed? then drawn else seed.value;
      var routed :=
        if newMpi then seeded.(tune := Some(NewMpiTune), eventCall := Some(PyEvnw))
        else seeded.(eventCall := Some(PyEvnt));
      var configured := SetEventKinematics(routed.(msel := DefaultMsel), kin);
      var defaults := configured.(mdcy := defaultFs(configured.mdcy));
      Success(Started(SetEventKinematics(defaults, kin), used))
  }

  /** Initialisation happens once: a second call on the initialised run
      fails, whatever its arguments. */
  lemma InitGeneratorOnce(run: RunState, kin: Pythia6Kinematics, seed: SeedChoice, drawn: int, newMpi: bool,
                          defaultFs: seq<DecayRow> -> seq<DecayRow>,
                          kin2: Pythia6Kinematics, seed2: SeedChoice, drawn2: int, newMpi2: bool,
                          defaultFs2: seq<DecayRow> -> seq<DecayRow>)
    requires seed.RandomSeed? ==> MinRandomSeed <= drawn <= MaxRandomSeed
    requires seed2.RandomSeed? ==> MinRandomSeed <= drawn2 <= MaxRandomSeed
    requires |run.mrpy| >= 4
    requires InitGenerator(run, kin, seed, drawn, newMpi, defaultFs).Success?
    ensures var first := InitGenerator(run, kin, seed, drawn, newMpi, defaultFs).value.run;
      InitGenerator(first, kin2, seed2, drawn2, newMpi2, defaultFs2) == Failure(AlreadyInitialized)
  {
  }

  // ---------------------------------------------------------------------
  // Decay switch

  /** numpy's reading of an index into an axis of length n: negative
      indices count from the end; anything else out of range fails. */
  function PyIndex(i: int, n: nat): (r: Option<nat>)
    ensures r.Some? <==> -(n as int) <= i < n
    ensures r.Some? ==> r.value < n && (if i >= 0 then r.value == i else r.value == i + n)
  {
    if 0 <= i < n then Some(i) else if -(n as int) <= i < 0 then Some(i + n) else None
  }

  function SwitchValue(stable: bool): int {
    if stable then 0 else 1
  }

  /** `mdcy[kc - 1, 0] = 0 or 1` exactly as written, numpy indexing included:
      a code `kc` of 0 (what `pycomp` returns for an unknown particle) lands
      on the last row. */
  function SetDecaySwitchAsWritten(mdcy: seq<DecayRow>, kc: int, stable: bool): (r: Result<seq<DecayRow>, Pythia6Error>)
    ensures r.Failure? <==> !(-|mdcy| <= kc - 1 < |mdcy|)
    ensures r.Success? ==> |r.value| == |mdcy|
    ensures r.Success? && kc == 0 ==> r.value[|mdcy| - 1].decaySwitch == SwitchValue(stable)
    ensures r.Success? ==> var row := PyIndex(kc - 1, |mdcy|).value;
      && r.value[row] == mdcy[row].(decaySwitch := SwitchValue(stable))
      && forall i :: 0 <= i < |mdcy| && i != row ==> r.value[i] == mdcy[i]
  {
    match PyIndex(kc - 1, |mdcy|)
    case None => Failure(IndexError(kc - 1))
    case Some(row) => Success(mdcy[row := mdcy[row].(decaySwitch := SwitchValue(stable))])
  }

  /** A particle Pythia does not know edits another particle's switch: with
      two rows that may both decay, `kc = 0` makes the second one stable. */
  lemma UnknownCodeEditsLastRow()
    ensures var mdcy := [DecayRow(1, 1, 2), DecayRow(1, 3, 4)];
      SetDecaySwitchAsWritten(mdcy, 0, true) == Success([DecayRow(1, 1, 2), DecayRow(0, 3, 4)])
  {
    var mdcy := [DecayRow(1, 1, 2), DecayRow(1, 3, 4)];
    assert PyIndex(-1, 2) == Some(1);
    assert mdcy[1 := mdcy[1].(decaySwitch := SwitchValue(true))] == [DecayRow(1, 1, 2), DecayRow(0, 3, 4)];
  }

  /** The decay-switch edit as intended: row `kc - 1` gets 0 (stable) or 1
      (may decay), every other entry keeps its value, and a code outside
      1..|mdcy| (0 for a particle `pycomp` does not know) changes nothing. */
  function SetDecaySwitch(mdcy: seq<DecayRow>, kc: int, stable: bool): (r: seq<DecayRow>)
    ensures |r| == |mdcy|
    ensures forall i :: 0 <= i < |mdcy| && i != kc - 1 ==> r[i] == mdcy[i]
    ensures 1 <= kc <= |mdcy| ==>
      r[kc - 1] == mdcy[kc - 1].(decaySwitch := SwitchValue(stable))
    ensures !(1 <= kc <= |mdcy|) ==> r == mdcy
  {
    if 1 <= kc <= |mdcy| then mdcy[kc - 1 := mdcy[kc - 1].(decaySwitch := SwitchValue(stable))] else mdcy
  }

  /** For every code Pythia knows, the corrected edit is the written one. */
  lemma SetDecaySwitchAgreesOnKnownCodes(mdcy: seq<DecayRow>, kc: int, stable: bool)
    requires 1 <= kc <= |mdcy|
    ensures SetDecaySwitchAsWritten(mdcy, kc, stable) == Success(SetDecaySwitch(mdcy, kc, stable))
  {
  }

  /** `set_stable` as written: `mdcy[kc - 1, 0]` with numpy's indexing, so
      an unknown particle (`kc = 0`) edits the last row and a code beyond
      the table raises IndexError. */
  function SetStableAsWritten(run: RunState, pycomp: int -> int, pdgid: int, stable: bool): (r: Result<RunState, Pythia6Error>)
    ensures var kc := pycomp(pdgid);
      r.Failure? <==> !(-|run.mdcy| <= kc - 1 < |run.mdcy|)
    ensures r.Success? ==> r.value.(mdcy := run.mdcy) == run && |r.value.mdcy| == |run.mdcy|
    ensures r.Success? && pycomp(pdgid) == 0 ==>
      r.value.mdcy[|run.mdcy| - 1].decaySwitch == SwitchValue(stable)
    ensures r.Success? ==> var row := PyIndex(pycomp(pdgid) - 1, |run.mdcy|).value;
      && r.value.mdcy[row] == run.mdcy[row].(decaySwitch := SwitchValue(stable))
      && forall i :: 0 <= i < |run.mdcy| && i != row ==> r.value.mdcy[i] == run.mdcy[i]
    ensures 1 <= pycomp(pdgid) <= |run.mdcy| ==> r == Success(SetStable(run, pycomp, pdgid, stable))
  {
    var kc := pycomp(pdgid);
    match SetDecaySwitchAsWritten(run.mdcy, kc, stable)
    case Failure(err) => Failure(err)
    case Success(mdcy) => Success(run.(mdcy := mdcy))
  }

  /** `set_stable` with the corrected edit: the row of the particle's
      compressed code gets the switch for the requested stability, every
      other entry is kept, and an unknown particle changes nothing. */
  function SetStable(run: RunState, pycomp: int -> int, pdgid: int, stable: bool): (r: RunState)
    ensures r.(mdcy := run.mdcy) == run
    ensures |r.mdcy| == |run.mdcy|
    ensures var kc := pycomp(pdgid);
      forall i :: 0 <= i < |run.mdcy| && i != kc - 1 ==> r.mdcy[i] == run.mdcy[i]
    ensures var kc := pycomp(pdgid);
      1 <= kc <= |run.mdcy| ==> r.mdcy[kc - 1] == run.mdcy[kc - 1].(decaySwitch := SwitchValue(stable))
    ensures !(1 <= pycomp(pdgid) <= |run.mdcy|) ==> r == run
  {
    run.(mdcy := SetDecaySwitch(run.mdcy, pycomp(pdgid), stable))
  }

  /** The last `set_stable` of a particle wins, so the edit is idempotent;
      unlike Sibyll's, it does not restore an earlier switch value. */
  lemma SetStableLastWins(run: RunState, pycomp: int -> int, pdgid: int, s1: bool, s2: bool)
    ensures SetStable(SetStable(run, pycomp, pdgid, s1), pycomp, pdgid, s2) == SetStable(run, pycomp, pdgid, s2)
  {
    var kc := pycomp(pdgid);
    var once := SetDecaySwitch(run.mdcy, kc, s1);
    if 1 <= kc <= |run.mdcy| {
      assert SetDecaySwitch(once, kc, s2) == SetDecaySwitch(run.mdcy, kc, s2);
    }
  }
}
