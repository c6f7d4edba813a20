# Sibyll and Pythia 6 adapter logic, in Dafny

This project models the pure, sequential logic of two adapters. Each adapter
puts one Fortran event generator behind a common event-record and run
interface.

**Sibyll** (`src/chromo/models/sibyll.py`):

- the version-specific sets of PDG ids whose decay can be switched;
- `_set_stable`, which stores stability as the sign of one entry of the
  decay table `idb`;
- the mother-history rewrite of the event record: zero-indexing, then the
  repair of the beam rows;
- `_cross_section`, which dispatches on the projectile, the target mass
  number and the version;
- `_set_kinematics`, which checks the production id;
- Sibyll 2.1's guard on the final-state particle list.

**Pythia 6** (`impy/models/pythia6.py`):

- the final-state and charged final-state selections, computed as `np.where`
  over the stack;
- the `parents` / `children` accessors, which refuse a filtered record;
- the charge vector, computed at most once per record and then reused; it
  divides `pychge` by three with Python 2's integer division (the file uses
  `xrange` and does not import true division), so charges are rounded down
  to whole numbers;
- `init_generator`, including the split of a drawn seed into four decimal
  chunks written to `mrpy`;
- `set_stable`, which writes a decay switch into `mdcy`.

Every native routine is a parameter, so it is an uninterpreted function. For
Sibyll these are collected in the `SibyllLib` record: `isib_pdg2pid`,
`sib_sigma_hp`, `glauber` and `sig_had_nuc`. For Pythia 6, `pychge` and
`pycomp` are function arguments. Randomness enters `init_generator` as the
drawn value.

Numbers are modelled as follows:

- Cross sections are exact `real`s.
- A cross-section field left at its default (NaN) is `None`.
- Python's `str` and `int` on non-negative integers are modelled on digit
  strings in module `Decimal`.

Modules: `Common` (Option, Result, `abs`, index pairs), `Decimal`,
`SibyllTables`, `SibyllEvent`, `SibyllRun`, `Pythia6Event`, `Pythia6Run`.

## Model

| member | source | states |
|---|---|---|
| SibyllTables.K0NeverUnstable | src/chromo/models/sibyll.py:11-102 | Neither the 2.1 set nor the 2.3 set contains 311 or -311. |
| SibyllTables.LabelIs21Iff | src/chromo/models/sibyll.py:287-386 | Among the shipped run classes, only Sibyll 2.1 reports the version string "2.1". The cross-section dispatch tests for that string. |
| SibyllEvent.HistoryZeroIndexing | src/chromo/models/sibyll.py:119-121 | The number of rows is kept. Every mother index is one less than the native 1-based one. |
| SibyllEvent.ZeroIndexingRoundTrip | src/chromo/models/sibyll.py:119-121 | Zero-indexing loses nothing: adding one back gives the native rows. |
| SibyllEvent.RepairInitialBeam | src/chromo/models/sibyll.py:123-129 | The two whole-array passes give the row-wise reference repair. The row count is kept. `[1, 1]` becomes `[0, 1]`. Any other `[i, i]` becomes `[i, -1]`. Rows with two different mothers are untouched. Every resulting row has two different entries or is `[-1, -1]`. |
| SibyllEvent.RepairRowIdempotent | src/chromo/models/sibyll.py:126-129 | Every repaired row is in the repaired form. Repairing a repaired row changes nothing. |
| SibyllRun.SetStableIn | src/chromo/models/sibyll.py:261-277 | Length and the absolute value of every entry are kept, through the K0 redirect too. An id outside the unstable set, or a rejected code, leaves `idb` unchanged. Otherwise only entry `sid - 1` can change. It ends non-positive when stable and non-negative when not. |
| SibyllRun.SetStable | src/chromo/models/sibyll.py:261-263 | For a run of a given version, an id outside that version's unstable set leaves `idb` unchanged. |
| SibyllRun.SetStableK0NoOp | src/chromo/models/sibyll.py:262-270 | For every shipped version, toggling 311 or -311 leaves `idb` unchanged, so the K0 redirect is unreachable. |
| SibyllRun.SetStableInCases | src/chromo/models/sibyll.py:261-277 | Over any unstable set without ±311, the toggle is exactly one of two things. If the id is unstable and its code passes the guard, entry `sid - 1` is set to minus (stable) or plus (unstable) its absolute value. Otherwise nothing changes. |
| SibyllRun.SetStableCases | src/chromo/models/sibyll.py:261-277 | The same two cases hold for the run of every shipped version. |
| SibyllRun.SetStableLastWins | src/chromo/models/sibyll.py:274-277 | Over any unstable set without ±311 (every version's set is one), two toggles of the same id equal the second toggle alone. Hence the edit is idempotent, and stable-then-unstable restores the entry's absolute value. |
| SibyllRun.SetStableNeverTouchesLastEntry | src/chromo/models/sibyll.py:264-273 | The guard `sid > idb.size - 1` also rejects `sid == len(idb)`. So the last entry of `idb` never changes, for any unstable set and through the K0 redirect too. |
| SibyllRun.SetStableSign | src/chromo/models/sibyll.py:274-277 | For an unstable id other than ±311 whose code passes the guard and whose entry is non-zero, the entry ends negative if and only if the particle was made stable. |
| SibyllRun.SetKinematics | src/chromo/models/sibyll.py:257-259 | The stored production id is always the native conversion of the projectile, stored before the check, so a refused call leaves it 0. The call raises the assertion error exactly when that id is 0. |
| SibyllRun.SetKinematicsReadsOnlyProjectile | src/chromo/models/sibyll.py:257-259 | Two kinematics with the same projectile give the same stored id and the same outcome, whatever the target, its mass number and the energy. |
| SibyllRun.SetFinalStateParticles | src/chromo/models/sibyll.py:293-300 | Version 2.1 accepts the list exactly when it contains -13, 13, -2112 and 2112. Otherwise it raises ValueError. Other versions always accept. An accepted list is passed on unchanged. |
| SibyllRun.SetFinalStateParticlesMonotone | src/chromo/models/sibyll.py:294 | The `np.isin` test is containment: a list holding every id of an accepted list is accepted too. |
| SibyllRun.SetFinalStateParticlesReadsSet | src/chromo/models/sibyll.py:294 | Two lists with the same ids, in any order and with any repetitions, are both accepted or both refused. |
| SibyllRun.CrossSection | src/chromo/models/sibyll.py:193-245 | A nuclear projectile gets the empty record. An unmapped `abs(p1)` raises KeyError. A target with A > 19 raises ValueError. No other input fails. For a nucleus target, 2.1 takes the Glauber path: prod = total - quasielastic, and inelastic is not set. Other versions take the `sig_had_nuc` path: prod = total - quasielastic, or inelastic when quasielastic is NaN. A hadron target reports `diffractive_axb == 0` and sets neither prod nor quasielastic. |
| SibyllRun.CrossSectionChargeConjugate | src/chromo/models/sibyll.py:202 | A projectile and its antiparticle get identical results. |
| SibyllRun.NuclearProjectileNeedsNoLibrary | src/chromo/models/sibyll.py:195-200 | For a nuclear projectile, the result does not depend on any native routine. The branch returns before any lookup. |
| SibyllRun.CrossSectionVersionDependence | src/chromo/models/sibyll.py:207-245 | All versions agree on a hadron target. All non-2.1 versions agree everywhere. |
| Decimal.IntStr | impy/models/pythia6.py:118-120 | `int(str(n)) == n` for every n >= 0. |
| Decimal.StrLength | impy/models/pythia6.py:118-120 | If 10^(k-1) <= n < 10^k, then `str(n)` has k digits. |
| Decimal.StrLengthBounds | impy/models/pythia6.py:118-120 | Conversely, for n >= 1, n lies between 10^(d-1) and 10^d, where d is the number of digits of `str(n)`. (For n = 0 this fails: `str(0)` has one digit.) |
| Pythia6Run.SeedDigits | impy/models/pythia6.py:117-118 | Every drawn seed has 7 digits, except the upper bound 10000000, which has 8. |
| Pythia6Run.SplitSeed | impy/models/pythia6.py:116-120 | Four chunks are written. The first is in 10..99 and the others in 0..99. For a 7-digit seed the last is a single digit. |
| Pythia6Run.SplitSeedRecombines | impy/models/pythia6.py:117-120 | For a 7-digit seed, the chunks give it back as p0·10^5 + p1·10^3 + p2·10 + p3. For 10000000 they give p0·10^6 + p1·10^4 + p2·10^2 + p3. |
| Pythia6Run.SplitSeedInjective | impy/models/pythia6.py:116-120 | Two drawn seeds write the same chunks exactly when they are equal, or are 1000000 and 10000000. |
| Pythia6Run.SetEventKinematics | impy/models/pythia6.py:88-97 | The run records the given kinematics. Nothing else changes. |
| Pythia6Run.InitGenerator | impy/models/pythia6.py:111-138 | An initialised run is refused before any change. Otherwise the run is initialised with msel 2 and the given kinematics. The event routine is `pyevnw` exactly with the new MPI model, which also sets tune 383. The decay table is what the base class's default final-state step (a parameter) makes of it. A drawn seed is reported and its split is written to `mrpy[:4]`; the rest of `mrpy` is kept. An explicit seed is reported and `mrpy` is unchanged. |
| Pythia6Run.InitGeneratorOnce | impy/models/pythia6.py:114 | A second `init_generator` on an initialised run fails, whatever its arguments. |
| Pythia6Run.SetDecaySwitchAsWritten | impy/models/pythia6.py:141-148 | The source's numpy indexing: any `kc - 1` in `[-len, len)` is written, and only those. The row numpy reads gets the switch, with its other columns kept. Every other row is unchanged. A `kc` of 0 writes the last row. |
| Pythia6Run.UnknownCodeEditsLastRow | impy/models/pythia6.py:142-144 | Counterexample: with `kc = 0`, the second of two rows is made stable. |
| Pythia6Run.SetDecaySwitch | impy/models/pythia6.py:141-148 | Row `kc - 1` gets switch 0 (stable) or 1 (may decay), with its other columns kept. Every other row is unchanged. A code outside `1..len(mdcy)` changes nothing. |
| Pythia6Run.SetDecaySwitchAgreesOnKnownCodes | impy/models/pythia6.py:141-148 | For every code in `1..len(mdcy)`, the corrected edit equals the source's. |
| Pythia6Run.SetStableAsWritten | impy/models/pythia6.py:141-148 | `set_stable` as written: it raises IndexError exactly when `kc - 1` is outside numpy's range. Otherwise only `mdcy` changes, and its length is kept. The row numpy reads gets the switch, with its other columns kept, and every other row is unchanged. An unknown particle (`kc = 0`) sets the last row's switch. For every known code it agrees with the corrected `SetStable`. |
| Pythia6Run.SetStable | impy/models/pythia6.py:141-148 | `set_stable` with the corrected edit. Only `mdcy` changes. Row `kc - 1` gets the switch for the requested stability, with its other columns kept. Every other row is unchanged. An unknown particle changes nothing. |
| Pythia6Run.SetStableLastWins | impy/models/pythia6.py:141-148 | Two `set_stable` calls equal the second alone. Hence the edit is idempotent. |
| Pythia6Event.Where | impy/models/pythia6.py:46-52 | `np.where`: strictly increasing positions, all in range. Each position holds the mask, and every position holding it is included. |
| Pythia6Event.NewEvent | impy/models/pythia6.py:15-44 | A new record is unfiltered and selects every particle in order. It holds the given status codes of the live particles and the given KF, mother and daughter arrays. It has an empty charge cache (line 23). |
| Pythia6Event.FilterFinalState | impy/models/pythia6.py:46-48 | The selection is exactly the indices with status 1, in increasing order, at most npart of them. The record is marked filtered. Nothing else changes. |
| Pythia6Event.ChargeVector | impy/models/pythia6.py:70-76 | One charge per live particle: `pychge` of its KF code divided by three and rounded down, as Python 2's `/` does on integers. The charge is a whole number, and it is exact when `pychge` is a multiple of 3. |
| Pythia6Event.Charge | impy/models/pythia6.py:70-77 | The cache is filled over all npart particles only when empty. An existing cache is reused and the record stays unchanged. The values returned are the cache at the current selection. |
| Pythia6Event.ChargeComputedOnce | impy/models/pythia6.py:70-77 | A second read of `charge` returns the same values and leaves the record as it was, whatever charge lookup it is given. |
| Pythia6Event.FilterFinalStateCharged | impy/models/pythia6.py:50-52 | The corrected filter: the selection is exactly the indices with status 1 and a non-zero cached charge, in increasing order. The cache is filled, and the record is marked filtered. Nothing else changes. |
| Pythia6Event.FilterFinalStateChargedAsWritten | impy/models/pythia6.py:50-52 | The filter as written under Python 2. On a filtered record it fails, because a list is indexed with an index array; the failure carries the record with its charge cache already filled. Otherwise the cache is filled and the selection is exactly the status-1 indices, charged or not, in increasing order, because a list compared with 0 is one True. The record is marked filtered, and nothing else changes. |
| Pythia6Event.NeutralParticlePassesWrittenFilter | impy/models/pythia6.py:50-52 | Counterexample: a record with one final-state photon (`pychge` 0). The written filter selects it, and the corrected filter does not. |
| Pythia6Event.ChargedWithinFinalState | impy/models/pythia6.py:46-52 | Every charged final-state index is a final-state index. Sizes: charged <= final state <= npart. |
| Pythia6Event.ChargedSelectionOfFreshEvent | impy/models/pythia6.py:50-77 | On a record whose charge was never read, the charged selection is exactly the particles with status 1 and a `pychge` of at least 3 or below 0. So a fractional positive charge (`pychge` 1 or 2) counts as neutral. For a particle of integer charge, the test is a non-zero `pychge`. |
| Pythia6Event.Parents | impy/models/pythia6.py:54-60 | The call fails exactly when the record is filtered. Otherwise it returns the raw `jmohep`. |
| Pythia6Event.Children | impy/models/pythia6.py:62-68 | The call fails exactly when the record is filtered. Otherwise it returns the raw `jdahep`. |
| Pythia6Event.LineageRefusedAfterFilter | impy/models/pythia6.py:46-68 | After either filter, both lineage accessors fail, even when the selection is the whole stack. |

## Left out

- Native engine calls have no model beyond being uninterpreted parameters.
  Event generation (`sibyll`, `decsib`, `sibhep`, `pyevnt`/`pyevnw`) is
  left out, and so are `pyinit`, `pytune`, `sibini` and `pdg_ini`. The table
  lookups (`isib_pdg2pid`, `sib_sigma_hp`, `glauber`, `sig_had_nuc`,
  `pychge`, `pycomp`) are function parameters.
- `SIBYLLRun._generate`, `PYTHIA6Run.generate_event` and
  `PYTHIA6Run.sigma_inel`: these only call native routines or read native
  cross sections.
- `SIBYLLRun.sigma_inel_air` is outside the modelled core. It repeats
  `_cross_section`'s projectile lookup, with the same KeyError for an
  unmapped `abs(p1)`, and then returns the native air cross section,
  taking the first element when the native routine returns a tuple.
- `SibyllEvent._charge_init`, `_get_impact_parameter`, `_get_n_wounded` and
  `n_NN_interactions`: these only read native common blocks.
- `SIBYLLRun.__init__` (src/chromo/models/sibyll.py:171-191) is not
  modelled as a whole. Beyond its native initialisation calls and logging
  setup, it does two things:
  - It assigns `self.kinematics`, which runs the modelled `_set_kinematics`
    (`SetKinematics`), so construction raises its AssertionError for a
    projectile with production id 0.
  - It calls `super()._set_final_state_particles()`. `super()` is resolved
    in `SIBYLLRun`, so on a Sibyll 2.1 run this calls the base-class method
    directly. The default final-state list set at construction never goes
    through the 2.1 check that `SetFinalStateParticles` models.
- Floating point: cross sections are exact reals. Rounding is not modelled.
  NaN appears only as a field left unset, or as a NaN quasi-elastic value
  from `sig_had_nuc` (`None`).
- `CrossSectionData` is not part of this model. Its fields are assumed to
  default to NaN, modelled as `None`.
- Logging and output routing (`attach_log`, `info`, `warnings.warn`):
  these are I/O.
- `MCEvent` and `MCRun`, the base classes, are not part of this model. The
  model assumes the following interface:
  - `_prepend_initial_beam`: `RepairInitialBeam` takes the array it
    leaves.
  - `_apply_slicing`: it installs the selection and sets the filtered flag.
    The selection of an unfiltered record is a slice over the whole stack;
    after a filter it is the index array `np.where` returns.
  - `MCEvent.__init__`: a new record is unfiltered and selects every
    particle.
  - `_abort_if_already_initialized`: it refuses an initialised run and
    marks it initialised.
  - The public `set_stable` delegates to `_set_stable`.
  - The generic `_set_final_state_particles` receives the accepted list
    when it is called through the version's override. The constructor
    calls it directly, bypassing that override (see `SIBYLLRun.__init__`
    above).
  - `self.version` (src/chromo/models/sibyll.py:207) returns the class's
    `_version` string. `LabelIs21Iff` and `CrossSection` rely on this.
- Pythia6Event.NewEvent: the record holds the native `kf`, `jmohep` and
  `jdahep` arrays as they were when it was built. The source reads them from the common
  blocks when `charge`, `parents` or `children` is accessed. So the model
  does not show a record read after the next event was generated returning
  the next event's values. The initial state (unfiltered, every particle
  selected) is the assumed `MCEvent.__init__` behaviour.
- Pythia6Event.FilterFinalStateCharged: this is the corrected filter. It
  gives `self.charge != 0` at line 51 its element-wise meaning (non-zero
  charge per particle). The code as written is
  Pythia6Event.FilterFinalStateChargedAsWritten; see Findings.
- Pythia6Event.FilterFinalState and Pythia6Event.FilterFinalStateCharged:
  the source reads `self.status` and `self.charge`. After a filter has been
  applied, what these hold depends on the base class. The model reads the
  full-stack status and the whole cached charge vector, so a filter always
  composes against the full stack. On an unfiltered record, the two readings
  agree.
- SibyllRun.SetStableIn: for ±311 the contract states only that lengths and
  absolute values are kept. It does not state the exact effect of the
  redirect to 130 and 310, because no shipped version reaches it (see
  SibyllRun.SetStableK0NoOp).
- Pythia6Run.InitGenerator: `_define_default_fs_particles` is a base-class
  method and is not part of this model. It is a parameter that maps the
  decay table to the table it leaves; any other effect it has is not
  modelled. The native `pyinit` calls behind the two
  `set_event_kinematics` calls are only recorded as the stored kinematics.
- SibyllRun.SetKinematics: the model always raises on a zero id. Under
  `python -O` the assertion is removed and a zero id is accepted silently;
  optimised runs are not modelled.
- SibyllRun.SetStableIn: `idb` holds Fortran 32-bit integers. numpy's `abs`
  of -2^31 wraps around to -2^31, so "absolute value kept" and the sign
  results fail at that one value. The model uses unbounded integers.
- An explicit seed goes through Python's `int(seed)` conversion; the model
  takes that seed as an integer already.
- The target mass number `kin.p2.A` is taken to be an integer, as for every
  target the run accepts.
- The Sibyll version subclasses' constants are not modelled
  (`_library_name`, `_sstar_param`, `_projectiles`). Only each version's
  label and its unstable-set choice are kept.
- The Python 2 list in `charge` is indexed with a `np.where` result. The
  model gives this the intended meaning: the cached charges at the selected
  positions.
- `tests/fixme_dpmjetIII.py`: it runs engines that are not part of this
  model and compares floating-point reference values.

## Findings

| source | as written | input that shows it | evidently intended | confidence | as-written member | corrected member |
|---|---|---|---|---|---|---|
| impy/models/pythia6.py:142-147 | `mdcy[kc - 1, 0]` is written with no check of `kc`. For `kc = 0`, numpy reads index -1 as the last row. | A PDG id that `pycomp` does not know (`kc = 0`). The last row's decay switch is overwritten, which edits another particle slot (Pythia6Run.UnknownCodeEditsLastRow). The run-level edit is Pythia6Run.SetStableAsWritten; the corrected one is Pythia6Run.SetStable. | An unknown particle leaves the decay table unchanged, as Sibyll's `sid == 0` guard does. | medium; not executed | Pythia6Run.SetDecaySwitchAsWritten | Pythia6Run.SetDecaySwitch |
| impy/models/pythia6.py:50-52 | `self.charge != 0` compares `charge`, which is a Python list, with 0. Under Python 2 that is the single value True, so the mask is `status == 1` alone. On a filtered record, indexing the list with an index array raises TypeError. | An unfiltered record holding a final-state photon (`pychge` 0). The written filter keeps it (Pythia6Event.NeutralParticlePassesWrittenFilter). | Keep the final-state particles whose own charge is non-zero. | medium; not executed | Pythia6Event.FilterFinalStateChargedAsWritten | Pythia6Event.FilterFinalStateCharged |
