/** The pure control logic of the Sibyll run (SIBYLLRun and Sibyll21):
    decay-table toggles, cross-section dispatch, the production-id check of
    the kinematics setter and Sibyll 2.1's final-state guard. Every call into
    the Fortran library is a field of `SibyllLib`. */
module SibyllRun {
  import opened Common
  import opened SibyllTables

  /** The Python exceptions these operations raise. */
  datatype SibyllError =
    | KeyError(key: int)       // projectile missing from the cross-section map
    | ValueError(reason: string)
    | AssertionError           // production id 0 after the PDG conversion

  /** What `sib_sigma_hp` returns: total, elastic, inelastic, the three
      diffractive parts, slope and rho. */
  datatype HadronSigma = HadronSigma(
    total: real, elastic: real, inelastic: real,
    diffXb: real, diffAx: real, diffXx: real,
    slope: real, rho: real)

  /** What `glauber` returns: total, elastic and quasi-elastic. */
  datatype GlauberSigma = GlauberSigma(total: real, elastic: real, quasielastic: real)

  /** The `nucsig` common block after `sig_had_nuc`; a NaN quasi-elastic
      cross section is `None`. */
  datatype NucleusSigma = NucleusSigma(
    total: real, quasielastic: Option<real>, inelastic: real,
    diffractiveSum: real, singleDiffractive: real, elastic: real)

  /** The native routines the run calls, as uninterpreted functions. */
  datatype SibyllLib = SibyllLib(
    pdgToPid: int -> int,                                  // isib_pdg2pid
    sigmaHp: (int, real) -> HadronSigma,                   // sib_sigma_hp(sib_id, ecm)
    glauber: (int, real, real, real) -> GlauberSigma,      // glauber(A, tot, slope, rho)
    sigHadNuc: (int, int, real, real, int, int) -> NucleusSigma) // sig_had_nuc(sib_id, A, ecm, alam, icsmod, iparm)

  /** The kinematics the run reads: projectile PDG id, projectile mass number
      (`None` for a non-nucleus), target mass number and CM energy. */
  datatype Kinematics = Kinematics(p1: int, p1A: Option<int>, p2A: int, ecm: real)

  /** Cross-section record; `None` is a field left at its default (NaN). */
  datatype CrossSectionData = CrossSectionData(
    total: Option<real>,
    prod: Option<real>,
    quasielastic: Option<real>,
    elastic: Option<real>,
    inelastic: Option<real>,
    diffractiveSum: Option<real>,
    diffractiveXb: Option<real>,
    diffractiveAx: Option<real>,
    diffractiveXx: Option<real>,
    diffractiveAxb: Option<real>)

  const NoCrossSection := CrossSectionData(None, None, None, None, None, None, None, None, None, None)

  /** Heaviest target the cross-section routines accept. */
  const MaxTargetA := 19

  predicate IsNuclearProjectile(kin: Kinematics) {
    kin.p1A.Some? && kin.p1A.value > 1
  }

  // ---------------------------------------------------------------------
  // Decay table

  /** Sibyll's 1-based particle code `sid` names an entry of `idb` the guard
      lets through: not 0, and at most `|idb| - 1`, so the last entry is
      never reachable. */
  predicate InDecayTable(sid: int, idb: seq<int>) {
    !(sid == 0 || sid > |idb| - 1)
  }

  /** `_set_stable` over an arbitrary unstable set: ids outside the set are
      ignored, K0 (±311) is redirected to K0-long (130) and K0-short (310),
      and otherwise entry `sid - 1` of `idb` is made non-positive (stable) or
      non-negative (may decay), keeping its absolute value. */
  function SetStableIn(lib: SibyllLib, unstable: set<int>, idb: seq<int>, pdgid: int, stable: bool): (r: seq<int>)
    decreases if Abs(pdgid) == 311 then 1 else 0
    ensures |r| == |idb|
    ensures forall i :: 0 <= i < |idb| ==> Abs(r[i]) == Abs(idb[i])
    ensures pdgid !in unstable ==> r == idb
    ensures Abs(pdgid) != 311 && !InDecayTable(Abs(lib.pdgToPid(pdgid)), idb) ==> r == idb
    ensures Abs(pdgid) != 311 ==>
      forall i :: 0 <= i < |idb| && i != Abs(lib.pdgToPid(pdgid)) - 1 ==> r[i] == idb[i]
    ensures pdgid in unstable && Abs(pdgid) != 311 && InDecayTable(Abs(lib.pdgToPid(pdgid)), idb) ==>
      (stable ==> r[Abs(lib.pdgToPid(pdgid)) - 1] <= 0) &&
      (!stable ==> r[Abs(lib.pdgToPid(pdgid)) - 1] >= 0)
  {
    if pdgid !in unstable then idb
    else
      var sid := Abs(lib.pdgToPid(pdgid));
      if Abs(pdgid) == 311 then
        SetStableIn(lib, unstable, SetStableIn(lib, unstable, idb, 130, stable), 310, stable)
      else if sid == 0 || sid > |idb| - 1 then idb
      else if stable then idb[sid - 1 := -Abs(idb[sid - 1])]
      else idb[sid - 1 := Abs(idb[sid - 1])]
  }

  /** `_set_stable` of a run of version `v`. */
  function SetStable(lib: SibyllLib, v: Version, idb: seq<int>, pdgid: int, stable: bool): (r: seq<int>)
    ensures |r| == |idb|
    ensures pdgid !in UnstablePids(v) ==> r == idb
  {
    SetStableIn(lib, UnstablePids(v), idb, pdgid, stable)
  }

  /** The edit a toggle of an unstable, non-K0 id with an admissible code
      makes: exactly entry `sid - 1`, set to minus or plus its absolute value. */
  function ToggledTable(idb: seq<int>, sid: int, stable: bool): seq<int>
    requires sid >= 0 && InDecayTable(sid, idb)
  {
    idb[sid - 1 := if stable then -Abs(idb[sid - 1]) else Abs(idb[sid - 1])]
  }

  /** For a shipped version the K0 redirect is dead code: ±311 is in no
      version's set, so toggling it leaves the table as it was. */
  lemma SetStableK0NoOp(lib: SibyllLib, v: Version, idb: seq<int>, stable: bool)
    ensures SetStable(lib, v, idb, 311, stable) == idb
    ensures SetStable(lib, v, idb, -311, stable) == idb
  {
    K0NeverUnstable(v);
  }

  /** An unstable set on which the K0 redirect never fires. */
  predicate K0Free(unstable: set<int>) {
    311 !in unstable && -311 !in unstable
  }

  /** Over a K0-free set, a toggle either leaves the table alone (id not
      unstable, or code rejected by the guard) or is exactly the
      single-entry edit. */
  lemma SetStableInCases(lib: SibyllLib, unstable: set<int>, idb: seq<int>, pdgid: int, stable: bool)
    requires K0Free(unstable)
    ensures var sid := Abs(lib.pdgToPid(pdgid));
      SetStableIn(lib, unstable, idb, pdgid, stable) ==
        if pdgid in unstable && InDecayTable(sid, idb) then ToggledTable(idb, sid, stable) else idb
  {
    if pdgid in unstable {
      assert Abs(pdgid) != 311;
    }
  }

  /** For a shipped version, the same dichotomy. */
  lemma SetStableCases(lib: SibyllLib, v: Version, idb: seq<int>, pdgid: int, stable: bool)
    ensures var sid := Abs(lib.pdgToPid(pdgid));
      SetStable(lib, v, idb, pdgid, stable) ==
        if pdgid in UnstablePids(v) && InDecayTable(sid, idb) then ToggledTable(idb, sid, stable) else idb
  {
    K0NeverUnstable(v);
    SetStableInCases(lib, UnstablePids(v), idb, pdgid, stable);
  }

  /** The last toggle of an id wins: toggling twice is toggling once with the
      second flag. In particular the edit is idempotent, and stable then
      unstable restores the entry's absolute value. Every shipped version's
      set is K0-free (`K0NeverUnstable`). */
  lemma SetStableLastWins(lib: SibyllLib, unstable: set<int>, idb: seq<int>, pdgid: int, s1: bool, s2: bool)
    requires K0Free(unstable)
    ensures var once := SetStableIn(lib, unstable, idb, pdgid, s1);
      SetStableIn(lib, unstable, once, pdgid, s2) == SetStableIn(lib, unstable, idb, pdgid, s2)
  {
    var sid := Abs(lib.pdgToPid(pdgid));
    var once := SetStableIn(lib, unstable, idb, pdgid, s1);
    SetStableInCases(lib, unstable, idb, pdgid, s1);
    SetStableInCases(lib, unstable, once, pdgid, s2);
    SetStableInCases(lib, unstable, idb, pdgid, s2);
    if pdgid in unstable && InDecayTable(sid, idb) {
      assert once == ToggledTable(idb, sid, s1);
      ToggledTwice(idb, sid, s1, s2);
    }
  }

  lemma ToggledTwice(idb: seq<int>, sid: int, s1: bool, s2: bool)
    requires sid >= 0 && InDecayTable(sid, idb)
    ensures InDecayTable(sid, ToggledTable(idb, sid, s1))
    ensures ToggledTable(ToggledTable(idb, sid, s1), sid, s2) == ToggledTable(idb, sid, s2)
  {
  }

  /** The guard admits codes up to `|idb| - 1` only, so the last entry of
      `idb` is never edited, whatever is toggled and whatever the set,
      the K0 redirect included. */
  lemma SetStableNeverTouchesLastEntry(lib: SibyllLib, unstable: set<int>, idb: seq<int>, pdgid: int, stable: bool)
    requires |idb| > 0
    ensures SetStableIn(lib, unstable, idb, pdgid, stable)[|idb| - 1] == idb[|idb| - 1]
    decreases if Abs(pdgid) == 311 then 1 else 0
  {
    if pdgid in unstable && Abs(pdgid) == 311 {
      var mid := SetStableIn(lib, unstable, idb, 130, stable);
      SetStableNeverTouchesLastEntry(lib, unstable, idb, 130, stable);
      SetStableNeverTouchesLastEntry(lib, unstable, mid, 310, stable);
    }
  }

  /** Stability is the sign of the entry: after a toggle of an admissible
      unstable id other than K0 with a non-zero entry, the entry is negative
      exactly when the particle was made stable. */
  lemma SetStableSign(lib: SibyllLib, unstable: set<int>, idb: seq<int>, pdgid: int, stable: bool)
    requires pdgid in unstable && Abs(pdgid) != 311
    requires InDecayTable(Abs(lib.pdgToPid(pdgid)), idb)
    requires idb[Abs(lib.pdgToPid(pdgid)) - 1] != 0
    ensures SetStableIn(lib, unstable, idb, pdgid, stable)[Abs(lib.pdgToPid(pdgid)) - 1] < 0 <==> stable
  {
    var sid := Abs(lib.pdgToPid(pdgid));
    assert Abs(SetStableIn(lib, unstable, idb, pdgid, stable)[sid - 1]) == Abs(idb[sid - 1]);
  }

  // ---------------------------------------------------------------------
  // Kinematics and final state

  /** What `_set_kinematics` leaves behind: the production id it stored and
      the assertion error, if it raised one. */
  datatype ProductionSetting = ProductionSetting(productionId: int, failure: Option<SibyllError>)

  /** `_set_kinematics`: the production id is the native conversion of the
      projectile and is stored before it is checked, so a zero id is stored
      and then fails the assertion. */
  function SetKinematics(lib: SibyllLib, kin: Kinematics): (r: ProductionSetting)
    ensures r.productionId == lib.pdgToPid(kin.p1)
    ensures r.failure.Some? <==> r.productionId == 0
    ensures r.failure.Some? ==> r.failure.value == AssertionError
  {
    var productionId := lib.pdgToPid(kin.p1);
    ProductionSetting(productionId, if productionId != 0 then None else Some(AssertionError))
  }

  /** Only the projectile matters: the target, its mass number and the
      energy are never consulted, so they cannot make the call fail. */
  lemma SetKinematicsReadsOnlyProjectile(lib: SibyllLib, k1: Kinematics, k2: Kinematics)
    requires k1.p1 == k2.p1
    ensures SetKinematics(lib, k1) == SetKinematics(lib, k2)
  {
  }

  /** Final-state ids Sibyll 2.1 needs to keep stable (it hangs otherwise). */
  const Sibyll21RequiredFinalState: seq<int> := [-13, 13, -2112, 2112]

  /** `_set_final_state_particles`: version 2.1 refuses a list missing any of
      the muons or neutrons; on success the list is handed unchanged to the
      generic implementation (the value returned). */
  function SetFinalStateParticles(v: Version, pdgids: seq<int>): (r: Result<seq<int>, SibyllError>)
    ensures v == Sibyll21 ==>
      (r.Success? <==> -13 in pdgids && 13 in pdgids && -2112 in pdgids && 2112 in pdgids)
    ensures v != Sibyll21 ==> r.Success?
    ensures r.Success? ==> r.value == pdgids
    ensures r.Failure? ==> r.error.ValueError?
  {
    if v == Sibyll21 && !(forall p :: p in Sibyll21RequiredFinalState ==> p in pdgids) then
      Failure(ValueError("final_state_particles should contain [-13, 13, -2112, 2112]"))
    else
      Success(pdgids)
  }

  /** Version 2.1's check is a containment test: a list that contains every
      id of an accepted list is accepted too, whatever its order, length or
      repetitions. */
  lemma SetFinalStateParticlesMonotone(v: Version, a: seq<int>, b: seq<int>)
    requires forall p :: p in a ==> p in b
    ensures SetFinalStateParticles(v, a).Success? ==> SetFinalStateParticles(v, b).Success?
  {
  }

  /** Hence acceptance depends only on the set of ids given. */
  lemma SetFinalStateParticlesReadsSet(v: Version, a: seq<int>, b: seq<int>)
    requires forall p :: p in a <==> p in b
    ensures SetFinalStateParticles(v, a).Success? <==> SetFinalStateParticles(v, b).Success?
  {
    SetFinalStateParticlesMonotone(v, a, b);
    SetFinalStateParticlesMonotone(v, b, a);
  }

  // ---------------------------------------------------------------------
  // Cross section

  /** `_cross_section`: nuclear projectiles get an empty record; otherwise
      the projectile's absolute PDG id is looked up, targets heavier than 19
      are refused, and the branch is chosen from the target mass number and
      the version label: Glauber for a nucleus with version 2.1,
      `sig_had_nuc` for a nucleus otherwise, `sib_sigma_hp` for a hadron. */
  function CrossSection(lib: SibyllLib, v: Version, kin: Kinematics): (r: Result<CrossSectionData, SibyllError>)
    ensures IsNuclearProjectile(kin) ==> r == Success(NoCrossSection)
    ensures !IsNuclearProjectile(kin) && Abs(kin.p1) !in CrossSectionProjectiles ==>
      r == Failure(KeyError(Abs(kin.p1)))
    ensures !IsNuclearProjectile(kin) && Abs(kin.p1) in CrossSectionProjectiles && kin.p2A > MaxTargetA ==>
      r.Failure? && r.error.ValueError?
    ensures r.Failure? <==>
      !IsNuclearProjectile(kin) && (Abs(kin.p1) !in CrossSectionProjectiles || kin.p2A > MaxTargetA)
    // Glauber branch: production is total minus quasi-elastic, no inelastic field
    ensures r.Success? && !IsNuclearProjectile(kin) && kin.p2A > 1 && v == Sibyll21 ==>
      && r.value.total.Some? && r.value.quasielastic.Some? && r.value.elastic.Some?
      && r.value.prod == Some(r.value.total.value - r.value.quasielastic.value)
      && r.value.inelastic.None? && r.value.diffractiveAxb.None?
    // hadron-nucleus branch: production is total minus quasi-elastic, or the
    // inelastic cross section when the quasi-elastic one is NaN
    ensures r.Success? && !IsNuclearProjectile(kin) && kin.p2A > 1 && v != Sibyll21 ==>
      && r.value.total.Some? && r.value.inelastic.Some? && r.value.prod.Some?
      && (r.value.quasielastic.Some? ==> r.value.prod.value == r.value.total.value - r.value.quasielastic.value)
      && (r.value.quasielastic.None? ==> r.value.prod == r.value.inelastic)
      && r.value.diffractiveXb.Some? && r.value.diffractiveAxb.None?
    // hadron-hadron branch: no double diffraction on both sides, no production
    ensures r.Success? && !IsNuclearProjectile(kin) && kin.p2A <= 1 ==>
      && r.value.diffractiveAxb == Some(0.0)
      && r.value.total.Some? && r.value.inelastic.Some? && r.value.elastic.Some?
      && r.value.prod.None? && r.value.quasielastic.None?
  {
    if IsNuclearProjectile(kin) then Success(NoCrossSection)
    else if Abs(kin.p1) !in CrossSectionProjectiles then Failure(KeyError(Abs(kin.p1)))
    else
      var sibId := CrossSectionProjectiles[Abs(kin.p1)];
      if kin.p2A > MaxTargetA then
        Failure(ValueError("does not support nuclear targets heavier than 19"))
      else if kin.p2A > 1 && (LabelIs21Iff(v); VersionLabel(v) == "2.1") then
        var pp := lib.sigmaHp(sibId, kin.ecm);
        var g := lib.glauber(kin.p2A, pp.total, pp.slope, pp.rho);
        Success(NoCrossSection.(
          total := Some(g.total),
          prod := Some(g.total - g.quasielastic),
          quasielastic := Some(g.quasielastic),
          elastic := Some(g.elastic)))
      else if kin.p2A > 1 then
        var alam, icsmod, iparm := 1.0, 1, 2;
        var nsig := lib.sigHadNuc(sibId, kin.p2A, kin.ecm, alam, icsmod, iparm);
        Success(NoCrossSection.(
          total := Some(nsig.total),
          prod := Some(if nsig.quasielastic.Some? then nsig.total - nsig.quasielastic.value else nsig.inelastic),
          quasielastic := nsig.quasielastic,
          inelastic := Some(nsig.inelastic),
          diffractiveSum := Some(nsig.diffractiveSum),
          diffractiveXb := Some(nsig.singleDiffractive),
          elastic := Some(nsig.elastic)))
      else
        var hh := lib.sigmaHp(sibId, kin.ecm);
        Success(NoCrossSection.(
          total := Some(hh.total),
          elastic := Some(hh.elastic),
          inelastic := Some(hh.inelastic),
          diffractiveXb := Some(hh.diffXb),
          diffractiveAx := Some(hh.diffAx),
          diffractiveXx := Some(hh.diffXx),
          diffractiveAxb := Some(0.0)))
  }

  /** A particle and its antiparticle get the same cross sections: only the
      absolute PDG id of the projectile is looked up. */
  lemma CrossSectionChargeConjugate(lib: SibyllLib, v: Version, kin: Kinematics)
    ensures CrossSection(lib, v, kin) == CrossSection(lib, v, kin.(p1 := -kin.p1))
  {
    assert Abs(-kin.p1) == Abs(kin.p1);
  }

  /** A nuclear projectile is answered before any native call: the result
      does not depend on the library at all. */
  lemma NuclearProjectileNeedsNoLibrary(lib1: SibyllLib, lib2: SibyllLib, v: Version, kin: Kinematics)
    requires IsNuclearProjectile(kin)
    ensures CrossSection(lib1, v, kin) == CrossSection(lib2, v, kin)
  {
  }

  /** The version only matters for nuclear targets, and there only whether
      it is 2.1: all 2.3 variants agree everywhere, and for a hadron target
      every version agrees. */
  lemma CrossSectionVersionDependence(lib: SibyllLib, v1: Version, v2: Version, kin: Kinematics)
    requires kin.p2A <= 1 || (v1 != Sibyll21 && v2 != Sibyll21) || v1 == v2
    ensures CrossSection(lib, v1, kin) == CrossSection(lib, v2, kin)
  {
    LabelIs21Iff(v1);
    LabelIs21Iff(v2);
  }
}
