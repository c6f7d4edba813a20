/** Constant tables of the Sibyll adapter: which PDG ids each Sibyll version
    may decay, the version labels, and the projectiles Sibyll's hadronic
    cross-section routines know. */
module SibyllTables {

  /** Muons and the mesons of the common unstable table. */
  const UnstableLeptonsAndMesons: set<int> := {
    -13, 13, 111, 113, -211, 211, -213, 213, 221, 223, 130, 310, -321, 321,
    331, 333, -411, 411, -413, 413, -421, 421, -423, 423, -431, 431, 441, 443
  }

  /** Non-strange baryons of the common unstable table (Delta states and
      the neutron). */
  const UnstableNucleonLike: set<int> := {
    -1114, 1114, -2112, 2112, -2114, 2114, -2214, 2214, -2224, 2224
  }

  /** Strange baryons of the common unstable table. */
  const UnstableStrangeBaryons: set<int> := {
    -3112, 3112, -3114, 3114, -3122, 3122, -3212, 3212, -3214, 3214,
    -3222, 3222, -3224, 3224, -3312, 3312, -3314, 3314, -3322, 3322,
    -3324, 3324, -3334, 3334
  }

  /** Charmed baryons of the common unstable table. */
  const UnstableCharmBaryons: set<int> := {
    -4112, 4112, -4114, 4114, -4122, 4122, -4132, 4132, -4212, 4212,
    -4214, 4214, -4222, 4222, -4224, 4224, -4232, 4232, -4314, 4314,
    -4324, 4324, -4332, 4332
  }

  /** PDG ids whose decay every Sibyll version can switch (the 86 entries of
      the shared table). */
  const SibyllUnstablePids: set<int> :=
    UnstableLeptonsAndMesons + UnstableNucleonLike + UnstableStrangeBaryons + UnstableCharmBaryons

  /** Sibyll 2.1 adds the K*0(1430) and K*+(1430) states. */
  const Sibyll21UnstablePids: set<int> :=
    SibyllUnstablePids + {-10311, 10311, -10321, 10321}

  /** Sibyll 2.3 and its patch versions add the tau and the K*(892) states. */
  const Sibyll23UnstablePids: set<int> :=
    SibyllUnstablePids + {-15, 15, -313, 313, -323, 323}

  /** The Sibyll releases the adapter ships, one per run class. */
  datatype Version =
    | Sibyll21
    | Sibyll23
    | Sibyll23c
    | Sibyll23c00
    | Sibyll23c01
    | Sibyll23c02
    | Sibyll23c03
    | Sibyll23d
    | Sibyll23StarNoEnh
    | Sibyll23StarRho
    | Sibyll23StarBar
    | Sibyll23StarStrange
    | Sibyll23StarMixed

  /** The version string a run reports. */
  function VersionLabel(v: Version): string {
    match v
    case Sibyll21 => "2.1"
    case Sibyll23 => "2.3"
    case Sibyll23c => "2.3c"
    case Sibyll23c00 => "2.3c00"
    case Sibyll23c01 => "2.3c01"
    case Sibyll23c02 => "2.3c02"
    case Sibyll23c03 => "2.3c03"
    case Sibyll23d => "2.3d"
    case Sibyll23StarNoEnh => "2.3Star-noenh"
    case Sibyll23StarRho => "2.3Star-rho"
    case Sibyll23StarBar => "2.3Star-bar"
    case Sibyll23StarStrange => "2.3Star-strange"
    case Sibyll23StarMixed => "2.3Star-mix"
  }

  /** The unstable-particle set a version's run class carries: 2.1 has its
      own, every later version inherits the 2.3 one. */
  function UnstablePids(v: Version): set<int> {
    if v == Sibyll21 then Sibyll21UnstablePids else Sibyll23UnstablePids
  }

  /** Projectile PDG id to the particle code of Sibyll's hadron cross-section
      routines: nucleons 1, charged pion 2, kaons 3. Keys are positive ids;
      antiparticles are looked up by absolute value. */
  const CrossSectionProjectiles: map<int, int> :=
    map[2212 := 1, 2112 := 1, 211 := 2, 321 := 3, 310 := 3, 130 := 3]

  /** Only version 2.1 carries the label the cross-section dispatch tests for. */
  lemma LabelIs21Iff(v: Version)
    ensures VersionLabel(v) == "2.1" <==> v == Sibyll21
  {
    match v
    case Sibyll21 =>
    case _ => assert VersionLabel(v)[2] != '1' || |VersionLabel(v)| != 3;
  }

  /** Neither version's set contains the neutral kaon K0 or its antiparticle. */
  lemma K0NeverUnstable(v: Version)
    ensures 311 !in UnstablePids(v) && -311 !in UnstablePids(v)
  {
    K0NotInCommonTable();
  }

  lemma K0NotInCommonTable()
    ensures 311 !in SibyllUnstablePids && -311 !in SibyllUnstablePids
  {
    K0NotUnstableLeptonsAndMesons();
    K0NotUnstableNucleonLike();
    K0NotUnstableStrangeBaryons();
    K0NotUnstableCharmBaryons();
  }

  lemma K0NotUnstableLeptonsAndMesons()
    ensures 311 !in UnstableLeptonsAndMesons && -311 !in UnstableLeptonsAndMesons
  {
  }

  lemma K0NotUnstableNucleonLike()
    ensures 311 !in UnstableNucleonLike && -311 !in UnstableNucleonLike
  {
  }

  lemma K0NotUnstableStrangeBaryons()
    ensures 311 !in UnstableStrangeBaryons && -311 !in UnstableStrangeBaryons
  {
  }

  lemma K0NotUnstableCharmBaryons()
    ensures 311 !in UnstableCharmBaryons && -311 !in UnstableCharmBaryons
  {
  }
}
