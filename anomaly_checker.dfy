/**
 * The anomaly-invariant engine: the Fermion record and its validation, the SU(2)/SU(3)
 * group-theory tables, the seven anomaly coefficients as exact sums over a spectrum, and
 * the checker object that memoises the coefficient map and judges it against a tolerance.
 * Python's `fractions.Fraction` is modelled by Dafny's exact `real`.
 */
module Anomaly {
  import opened Wrappers

  /** One chiral field with its quantum numbers. */
  datatype Fermion = Fermion(
    name: string,
    su3Rep: int,
    su2Rep: int,
    hypercharge: real,
    chirality: int,
    generations: int)

  /** The validation error raised by the Fermion constructor, naming the offending field. */
  datatype FermionError =
    | UnsupportedSu3Rep(su3Rep: int)
    | UnsupportedSu2Rep(su2Rep: int)
    | BadChirality(chirality: int)
    | NonPositiveGenerations(generations: int)

  predicate Su3Supported(d: int) {
    d == 1 || d == 3 || d == 6 || d == 8
  }

  predicate Su2Supported(d: int) {
    d == 1 || d == 2 || d == 3
  }

  predicate ChiralityValid(c: int) {
    c == 1 || c == -1
  }

  /** What the constructor's checks guarantee of every Fermion it returns. */
  predicate ValidFermion(f: Fermion) {
    Su3Supported(f.su3Rep) && Su2Supported(f.su2Rep) && ChiralityValid(f.chirality) && f.generations >= 1
  }

  /** The dataclass constructor with its `__post_init__` checks, made in the source's order. */
  function NewFermion(name: string, su3Rep: int, su2Rep: int, hypercharge: real, chirality: int, generations: int)
    : (r: Result<Fermion, FermionError>)
    ensures r.Success? <==> ValidFermion(Fermion(name, su3Rep, su2Rep, hypercharge, chirality, generations))
    ensures r.Success? ==> r.value == Fermion(name, su3Rep, su2Rep, hypercharge, chirality, generations)
    ensures !Su3Supported(su3Rep) ==> r == Failure(UnsupportedSu3Rep(su3Rep))
    ensures Su3Supported(su3Rep) && !Su2Supported(su2Rep) ==> r == Failure(UnsupportedSu2Rep(su2Rep))
    ensures Su3Supported(su3Rep) && Su2Supported(su2Rep) && !ChiralityValid(chirality) ==>
              r == Failure(BadChirality(chirality))
    ensures Su3Supported(su3Rep) && Su2Supported(su2Rep) && ChiralityValid(chirality) && generations < 1 ==>
              r == Failure(NonPositiveGenerations(generations))
  {
    if !(su3Rep in [1, 3, 6, 8]) then Failure(UnsupportedSu3Rep(su3Rep))
    else if !(su2Rep in [1, 2, 3]) then Failure(UnsupportedSu2Rep(su2Rep))
    else if !(chirality in [-1, 1]) then Failure(BadChirality(chirality))
    else if generations < 1 then Failure(NonPositiveGenerations(generations))
    else Success(Fermion(name, su3Rep, su2Rep, hypercharge, chirality, generations))
  }

  // ---------------------------------------------------------------------------
  // Group-theory tables
  // ---------------------------------------------------------------------------

  /** SU(2) Dynkin index: a table for the doublet-and-smaller cases, the closed form otherwise. */
  function Su2DynkinIndex(dimension: int): (t: real)
    ensures t == (dimension * dimension * dimension - dimension) as real / 12.0
  {
    if dimension == 1 then 0.0
    else if dimension == 2 then 0.5
    else if dimension == 3 then 2.0
    else (dimension * dimension * dimension - dimension) as real / 12.0
  }

  /** SU(2) has no cubic Casimir: the cubic coefficient of every representation is zero. */
  function Su2CubicCoeff(dimension: int): (c: real)
    ensures c == 0.0
  {
    0.0
  }

  /** SU(3) Dynkin index for the four supported representations; any other dimension gets 0. */
  function Su3DynkinIndex(dimension: int): (t: real)
    ensures 0.0 <= t <= 3.0
    ensures t == 0.0 <==> dimension != 3 && dimension != 6 && dimension != 8
    ensures dimension == 3 ==> t == 0.5
    ensures dimension == 6 ==> t == 2.5
    ensures dimension == 8 ==> t == 3.0
  {
    if dimension == 1 then 0.0
    else if dimension == 3 then 0.5
    else if dimension == 6 then 2.5
    else if dimension == 8 then 3.0
    else 0.0
  }

  // ---------------------------------------------------------------------------
  // The seven anomaly coefficients
  // ---------------------------------------------------------------------------

  /** The keys of the coefficient map. */
  datatype Coefficient =
    | U1            // [U(1)_Y]
    | U1Cubed       // [U(1)_Y]³
    | U1Su2Squared  // [U(1)_Y][SU(2)]²
    | U1Su3Squared  // [U(1)_Y][SU(3)]²
    | Su2Cubed      // [SU(2)]³
    | Su3Cubed      // [SU(3)]³
    | GravityU1     // [Gravity]²[U(1)_Y]

  /** The order in which `compute_anomalies` inserts the keys (and so the order `items()` yields them). */
  const CoefficientOrder: seq<Coefficient> :=
    [U1, U1Cubed, U1Su2Squared, U1Su3Squared, Su2Cubed, Su3Cubed, GravityU1]

  /** An insertion-ordered coefficient dictionary. */
  type AnomalyMap = seq<(Coefficient, real)>

  /** chirality × generations, the weight of every summand. */
  function Weight(f: Fermion): real {
    (f.chirality * f.generations) as real
  }

  /** The group-theory factor of one coefficient for one fermion (everything but the weight). */
  function Term(c: Coefficient, f: Fermion): real {
    var y, d3, d2 := f.hypercharge, f.su3Rep as real, f.su2Rep as real;
    match c
    case U1 => y * d3 * d2
    case U1Cubed => y * y * y * d3 * d2
    case U1Su2Squared => y * d3 * Su2DynkinIndex(f.su2Rep)
    case U1Su3Squared => y * d2 * Su3DynkinIndex(f.su3Rep)
    case Su2Cubed => d3 * Su2CubicCoeff(f.su2Rep)
    case Su3Cubed => d2 * Su3DynkinIndex(f.su3Rep)
    case GravityU1 => y * d3 * d2
  }

  function Contribution(c: Coefficient, f: Fermion): real {
    Weight(f) * Term(c, f)
  }

  /** One coefficient: the sum of the fermions' weighted summands, 0 for the empty spectrum. */
  function Coeff(c: Coefficient, fs: seq<Fermion>): real {
    if fs == [] then 0.0 else Contribution(c, fs[0]) + Coeff(c, fs[1..])
  }

  /** The entries for the keys `cs`, in the order of `cs`. */
  function Entries(cs: seq<Coefficient>, fs: seq<Fermion>): AnomalyMap {
    if cs == [] then []
    else Entries(cs[..|cs| - 1], fs) + [(cs[|cs| - 1], Coeff(cs[|cs| - 1], fs))]
  }

  lemma {:induction false} EntriesIndex(cs: seq<Coefficient>, fs: seq<Fermion>)
    ensures |Entries(cs, fs)| == |cs|
    ensures forall i :: 0 <= i < |cs| ==> Entries(cs, fs)[i] == (cs[i], Coeff(cs[i], fs))
  {
    if cs != [] {
      EntriesIndex(cs[..|cs| - 1], fs);
    }
  }

  /** What `compute_anomalies` returns: every coefficient, in insertion order. */
  function Anomalies(fs: seq<Fermion>): (m: AnomalyMap)
    ensures |m| == |CoefficientOrder|
    ensures forall i :: 0 <= i < |m| ==> m[i] == (CoefficientOrder[i], Coeff(CoefficientOrder[i], fs))
  {
    EntriesIndex(CoefficientOrder, fs);
    Entries(CoefficientOrder, fs)
  }

  /** The position of each key in the map. */
  function KeyIndex(c: Coefficient): (i: nat)
    ensures i < |CoefficientOrder| && CoefficientOrder[i] == c
  {
    match c
    case U1 => 0
    case U1Cubed => 1
    case U1Su2Squared => 2
    case U1Su3Squared => 3
    case Su2Cubed => 4
    case Su3Cubed => 5
    case GravityU1 => 6
  }

  function Abs(x: real): real {
    if x < 0.0 then -x else x
  }

  /** The failure list: the entries whose absolute value exceeds the tolerance, in map order. */
  function Exceeding(m: AnomalyMap, tolerance: real): seq<(Coefficient, real)> {
    if m == [] then []
    else Exceeding(m[..|m| - 1], tolerance) + (if Abs(m[|m| - 1].1) > tolerance then [m[|m| - 1]] else [])
  }

  /** Every entry of the map lies within the tolerance. */
  predicate Cancels(m: AnomalyMap, tolerance: real) {
    forall i :: 0 <= i < |m| ==> Abs(m[i].1) <= tolerance
  }

  /** The verdict of a fresh checker on a spectrum. */
  predicate AllCancel(fs: seq<Fermion>, tolerance: real) {
    Cancels(Anomalies(fs), tolerance)
  }

  /** `verify_cancellation`'s default tolerance, 1e-10. */
  const DefaultTolerance: real := 0.0000000001

  /**
   * The checker object. `cache` is the `_anomalies` field: filled by `ComputeAnomalies`,
   * reused as-is by `VerifyCancellation`, and never invalidated by the checker itself.
   */
  class AnomalyChecker {
    var fermions: seq<Fermion>
    var cache: Option<AnomalyMap>

    constructor (fermions: seq<Fermion>)
      ensures this.fermions == fermions && cache == None
    {
      this.fermions := fermions;
      cache := None;
    }

    method ComputeAnomalies() returns (m: AnomalyMap)
      modifies this`cache
      ensures m == Anomalies(fermions)
      ensures cache == Some(m)
    {
      m := [(U1, Coeff(U1, fermions)),
            (U1Cubed, Coeff(U1Cubed, fermions)),
            (U1Su2Squared, Coeff(U1Su2Squared, fermions)),
            (U1Su3Squared, Coeff(U1Su3Squared, fermions)),
            (Su2Cubed, Coeff(Su2Cubed, fermions)),
            (Su3Cubed, Coeff(Su3Cubed, fermions)),
            (GravityU1, Coeff(GravityU1, fermions))];
      cache := Some(m);
    }

    /**
     * Judges the cached map (computing it first only when there is none): `allCancel` holds
     * exactly when no entry exceeds the tolerance, and `nonCancelling` lists the entries that do.
     */
    method VerifyCancellation(tolerance: real) returns (allCancel: bool, nonCancelling: seq<(Coefficient, real)>)
      modifies this`cache
      ensures cache == if old(cache).None? then Some(Anomalies(fermions)) else old(cache)
      ensures nonCancelling == Exceeding(cache.value, tolerance)
      ensures allCancel <==> Cancels(cache.value, tolerance)
      ensures allCancel <==> nonCancelling == []
    {
      if cache.None? {
        var _ := ComputeAnomalies();
      }
      var m := cache.value;
      nonCancelling := [];
      for i := 0 to |m|
        invariant nonCancelling == Exceeding(m[..i], tolerance)
      {
        assert m[..i + 1][..i] == m[..i];
        if Abs(m[i].1) > tolerance {
          nonCancelling := nonCancelling + [m[i]];
        }
      }
      assert m[..|m|] == m;
      ExceedingEmptyIffCancels(m, tolerance);
      allCancel := |nonCancelling| == 0;
    }
  }

  // ---------------------------------------------------------------------------
  // The judgement
  // ---------------------------------------------------------------------------

  /** The failure list is empty exactly when the map cancels. */
  lemma {:induction false} ExceedingEmptyIffCancels(m: AnomalyMap, tolerance: real)
    ensures Exceeding(m, tolerance) == [] <==> Cancels(m, tolerance)
  {
    if m != [] {
      ExceedingEmptyIffCancels(m[..|m| - 1], tolerance);
    }
  }

  /** The failure list holds exactly the entries of the map that exceed the tolerance. */
  lemma {:induction false} ExceedingMembers(m: AnomalyMap, tolerance: real, e: (Coefficient, real))
    ensures e in Exceeding(m, tolerance) <==> e in m && Abs(e.1) > tolerance
  {
    if m != [] {
      ExceedingMembers(m[..|m| - 1], tolerance, e);
      assert m == m[..|m| - 1] + [m[|m| - 1]];
    }
  }

  /** A fresh checker passes exactly when every coefficient is within the tolerance. */
  lemma AllCancelIffEveryCoefficient(fs: seq<Fermion>, tolerance: real)
    ensures AllCancel(fs, tolerance) <==> forall c :: Abs(Coeff(c, fs)) <= tolerance
  {
    var m := Anomalies(fs);
    if AllCancel(fs, tolerance) {
      forall c ensures Abs(Coeff(c, fs)) <= tolerance {
        assert m[KeyIndex(c)].1 == Coeff(c, fs);
      }
    } else {
      var i :| 0 <= i < |m| && Abs(m[i].1) > tolerance;
      assert Abs(Coeff(CoefficientOrder[i], fs)) > tolerance;
    }
  }

  /** Spectra with equal coefficients get the same verdict at every tolerance. */
  lemma SameCoefficientsSameVerdict(a: seq<Fermion>, b: seq<Fermion>, tolerance: real)
    requires forall c :: Coeff(c, a) == Coeff(c, b)
    ensures Anomalies(a) == Anomalies(b)
    ensures AllCancel(a, tolerance) == AllCancel(b, tolerance)
  {
  }

  // ---------------------------------------------------------------------------
  // Structural properties of the sums
  // ---------------------------------------------------------------------------

  /** [SU(2)]³ is exactly zero for every spectrum. */
  lemma {:induction false} Su2CubedVanishes(fs: seq<Fermion>)
    ensures Coeff(Su2Cubed, fs) == 0.0
  {
    if fs != [] {
      Su2CubedVanishes(fs[1..]);
    }
  }

  /** [U(1)_Y] and [Gravity]²[U(1)_Y] use the same summand and so always agree. */
  lemma {:induction false} U1EqualsGravityU1(fs: seq<Fermion>)
    ensures Coeff(U1, fs) == Coeff(GravityU1, fs)
  {
    if fs != [] {
      U1EqualsGravityU1(fs[1..]);
    }
  }

  /** The empty spectrum has every coefficient 0 and passes at every non-negative tolerance. */
  lemma EmptySpectrumCancels(tolerance: real)
    requires tolerance >= 0.0
    ensures forall c :: Coeff(c, []) == 0.0
    ensures AllCancel([], tolerance)
  {
  }

  /** Every coefficient is additive over spectrum concatenation. */
  lemma {:induction false} CoeffAppend(c: Coefficient, a: seq<Fermion>, b: seq<Fermion>)
    ensures Coeff(c, a + b) == Coeff(c, a) + Coeff(c, b)
  {
    if a == [] {
      assert a + b == b;
    } else {
      assert (a + b)[0] == a[0];
      assert (a + b)[1..] == a[1..] + b;
      CoeffAppend(c, a[1..], b);
    }
  }

  /** Two fermions that differ only in name and chirality, with opposite chiralities. */
  predicate VectorLikePair(f: Fermion, g: Fermion) {
    && f.su3Rep == g.su3Rep
    && f.su2Rep == g.su2Rep
    && f.hypercharge == g.hypercharge
    && f.generations == g.generations
    && g.chirality == -f.chirality
  }

  lemma PairContributionsCancel(c: Coefficient, f: Fermion, g: Fermion)
    requires VectorLikePair(f, g)
    ensures Contribution(c, f) + Contribution(c, g) == 0.0
  {
    assert g.chirality * g.generations == -(f.chirality * f.generations);
    assert Term(c, f) == Term(c, g);
  }

  /** Appending a vector-like pair leaves every coefficient unchanged. */
  lemma VectorLikePairPreservesCoeff(c: Coefficient, s: seq<Fermion>, f: Fermion, g: Fermion)
    requires VectorLikePair(f, g)
    ensures Coeff(c, s + [f, g]) == Coeff(c, s)
  {
    CoeffAppend(c, s, [f, g]);
    PairContributionsCancel(c, f, g);
    CoeffCons(c, g, []);
    CoeffCons(c, f, [g]);
    assert [f] + [g] == [f, g];
  }

  /** Appending a vector-like pair leaves the coefficient map, and so the verdict, unchanged. */
  lemma VectorLikePairPreservesVerdict(s: seq<Fermion>, f: Fermion, g: Fermion, tolerance: real)
    requires VectorLikePair(f, g)
    ensures Anomalies(s + [f, g]) == Anomalies(s)
    ensures AllCancel(s + [f, g], tolerance) == AllCancel(s, tolerance)
  {
    forall c ensures Coeff(c, s + [f, g]) == Coeff(c, s) {
      VectorLikePairPreservesCoeff(c, s, f, g);
    }
    SameCoefficientsSameVerdict(s + [f, g], s, tolerance);
  }

  /** The spectrum with every `generations` field set to `n`. */
  function WithGenerations(fs: seq<Fermion>, n: int): (r: seq<Fermion>)
    ensures |r| == |fs|
    ensures forall i :: 0 <= i < |fs| ==> r[i] == fs[i].(generations := n)
  {
    if fs == [] then [] else [fs[0].(generations := n)] + WithGenerations(fs[1..], n)
  }

  /** Setting every generation count to N multiplies every coefficient by N. */
  lemma {:induction false} GenerationScaling(c: Coefficient, fs: seq<Fermion>, n: int)
    ensures Coeff(c, WithGenerations(fs, n)) == n as real * Coeff(c, WithGenerations(fs, 1))
  {
    if fs != [] {
      GenerationScaling(c, fs[1..], n);
      ContributionScaling(c, fs[0], n);
      assert WithGenerations(fs, n) == [fs[0].(generations := n)] + WithGenerations(fs[1..], n);
      assert WithGenerations(fs, 1) == [fs[0].(generations := 1)] + WithGenerations(fs[1..], 1);
      CoeffCons(c, fs[0].(generations := n), WithGenerations(fs[1..], n));
      CoeffCons(c, fs[0].(generations := 1), WithGenerations(fs[1..], 1));
      Distribute(n as real, Contribution(c, fs[0].(generations := 1)), Coeff(c, WithGenerations(fs[1..], 1)));
    }
  }

  lemma Distribute(k: real, a: real, b: real)
    ensures k * a + k * b == k * (a + b)
  {
  }

  /** A spectrum whose fermions all have one generation is its own one-generation copy. */
  lemma {:induction false} OneGenerationUnchanged(fs: seq<Fermion>)
    requires forall i :: 0 <= i < |fs| ==> fs[i].generations == 1
    ensures WithGenerations(fs, 1) == fs
  {
    if fs != [] {
      OneGenerationUnchanged(fs[1..]);
      assert fs == [fs[0]] + fs[1..];
    }
  }

  /** One fermion's summand with N generations is N times its summand with one. */
  lemma ContributionScaling(c: Coefficient, f: Fermion, n: int)
    ensures Contribution(c, f.(generations := n)) == n as real * Contribution(c, f.(generations := 1))
  {
    var t := Term(c, f);
    assert Term(c, f.(generations := n)) == t;
    assert Term(c, f.(generations := 1)) == t;
    var x, k := f.chirality as real, n as real;
    assert Weight(f.(generations := n)) == x * k by {
      IntProductAsReal(f.chirality, n);
    }
    assert Weight(f.(generations := 1)) == x;
    assert (x * k) * t == k * (x * t);
  }

  lemma IntProductAsReal(a: int, b: int)
    ensures (a * b) as real == a as real * b as real
  {
  }

  // ---------------------------------------------------------------------------
  // The Standard Model
  // ---------------------------------------------------------------------------

  /** One generation of the Standard Model, optionally with a right-handed neutrino. */
  function StandardModelSpectrum(includeRightNeutrino: bool): (s: seq<Fermion>)
    ensures forall i :: 0 <= i < |s| ==> ValidFermion(s[i]) && s[i].generations == 1
  {
    var core := [
      Fermion("Q_L", 3, 2, 1.0 / 6.0, 1, 1),
      Fermion("u_R", 3, 1, 2.0 / 3.0, -1, 1),
      Fermion("d_R", 3, 1, -1.0 / 3.0, -1, 1),
      Fermion("L_L", 1, 2, -1.0 / 2.0, 1, 1),
      Fermion("e_R", 1, 1, -1.0, -1, 1)
    ];
    if includeRightNeutrino then core + [Fermion("ν_R", 1, 1, 0.0, -1, 1)] else core
  }

  lemma CoeffCons(c: Coefficient, f: Fermion, rest: seq<Fermion>)
    ensures Coeff(c, [f] + rest) == Contribution(c, f) + Coeff(c, rest)
  {
    assert ([f] + rest)[1..] == rest;
  }

  /** A right-handed neutrino (1,1)_0 contributes nothing to any coefficient. */
  lemma RightNeutrinoContributesNothing(c: Coefficient)
    ensures Contribution(c, Fermion("ν_R", 1, 1, 0.0, -1, 1)) == 0.0
  {
  }

  /** The five summands of one Standard-Model generation add up to zero for every coefficient. */
  lemma StandardModelSummandsCancel(c: Coefficient)
    ensures Contribution(c, Fermion("Q_L", 3, 2, 1.0 / 6.0, 1, 1)) + Contribution(c, Fermion("u_R", 3, 1, 2.0 / 3.0, -1, 1)) +
            Contribution(c, Fermion("d_R", 3, 1, -1.0 / 3.0, -1, 1)) + Contribution(c, Fermion("L_L", 1, 2, -1.0 / 2.0, 1, 1)) +
            Contribution(c, Fermion("e_R", 1, 1, -1.0, -1, 1)) == 0.0
  {
    match c
    case U1 =>
    case U1Cubed =>
    case U1Su2Squared =>
    case U1Su3Squared =>
    case Su2Cubed =>
    case Su3Cubed =>
    case GravityU1 =>
  }

  /** All seven coefficients of one Standard-Model generation are exactly zero, with or without ν_R. */
  lemma StandardModelIsAnomalyFree(includeRightNeutrino: bool, c: Coefficient)
    ensures Coeff(c, StandardModelSpectrum(includeRightNeutrino)) == 0.0
  {
    var q := Fermion("Q_L", 3, 2, 1.0 / 6.0, 1, 1);
    var u := Fermion("u_R", 3, 1, 2.0 / 3.0, -1, 1);
    var d := Fermion("d_R", 3, 1, -1.0 / 3.0, -1, 1);
    var l := Fermion("L_L", 1, 2, -1.0 / 2.0, 1, 1);
    var e := Fermion("e_R", 1, 1, -1.0, -1, 1);
    var core := [q, u, d, l, e];
    CoeffCons(c, e, []);
    CoeffCons(c, l, [e]);
    CoeffCons(c, d, [l, e]);
    CoeffCons(c, u, [d, l, e]);
    CoeffCons(c, q, [u, d, l, e]);
    assert [q] + [u, d, l, e] == core;
    StandardModelSummandsCancel(c);
    if includeRightNeutrino {
      var nu := Fermion("ν_R", 1, 1, 0.0, -1, 1);
      CoeffAppend(c, core, [nu]);
      CoeffCons(c, nu, []);
      RightNeutrinoContributesNothing(c);
    }
  }

  /** N generations of the Standard Model are anomaly-free at every non-negative tolerance. */
  lemma StandardModelGenerationsAnomalyFree(includeRightNeutrino: bool, n: int, tolerance: real)
    requires tolerance >= 0.0
    ensures AllCancel(WithGenerations(StandardModelSpectrum(includeRightNeutrino), n), tolerance)
  {
    var sm := StandardModelSpectrum(includeRightNeutrino);
    OneGenerationUnchanged(sm);
    forall c ensures Abs(Coeff(c, WithGenerations(sm, n))) <= tolerance {
      GenerationScaling(c, sm, n);
      StandardModelIsAnomalyFree(includeRightNeutrino, c);
    }
    AllCancelIffEveryCoefficient(WithGenerations(sm, n), tolerance);
  }

  /** Changing Q_L's hypercharge from 1/6 to 1/3 breaks [U(1)_Y]: it becomes 1 and is reported. */
  lemma BrokenQuarkHyperchargeDetected()
    ensures Coeff(U1, StandardModelSpectrum(false)[0 := StandardModelSpectrum(false)[0].(hypercharge := 1.0 / 3.0)]) == 1.0
    ensures (U1, 1.0) in Exceeding(Anomalies(StandardModelSpectrum(false)[0 := StandardModelSpectrum(false)[0].(hypercharge := 1.0 / 3.0)]), DefaultTolerance)
    ensures !AllCancel(StandardModelSpectrum(false)[0 := StandardModelSpectrum(false)[0].(hypercharge := 1.0 / 3.0)], DefaultTolerance)
  {
    var sm := StandardModelSpectrum(false);
    var broken := sm[0 := sm[0].(hypercharge := 1.0 / 3.0)];
    var q := broken[0];
    var rest := [sm[1], sm[2], sm[3], sm[4]];
    assert broken == [q] + rest;
    CoeffCons(U1, q, rest);
    CoeffCons(U1, sm[0], rest);
    assert sm == [sm[0]] + rest;
    StandardModelIsAnomalyFree(false, U1);
    assert Contribution(U1, q) - Contribution(U1, sm[0]) == 1.0;
    assert Anomalies(broken)[0] == (U1, 1.0);
    ExceedingMembers(Anomalies(broken), DefaultTolerance, (U1, 1.0));
    ExceedingEmptyIffCancels(Anomalies(broken), DefaultTolerance);
  }

  /** A lone fermion with hypercharge beyond the tolerance fails, with [U(1)_Y] among the failures. */
  lemma LoneChargedFermionFails(f: Fermion, tolerance: real)
    requires ValidFermion(f)
    requires tolerance < Abs(f.hypercharge)
    ensures (U1, Coeff(U1, [f])) in Exceeding(Anomalies([f]), tolerance)
    ensures !AllCancel([f], tolerance)
  {
    LoneU1AtLeastHypercharge(f);
    assert Anomalies([f])[0] == (U1, Coeff(U1, [f]));
    ExceedingMembers(Anomalies([f]), tolerance, (U1, Coeff(U1, [f])));
    ExceedingEmptyIffCancels(Anomalies([f]), tolerance);
  }

  /** A lone fermion's [U(1)_Y] is at least its hypercharge in absolute value. */
  lemma LoneU1AtLeastHypercharge(f: Fermion)
    requires ValidFermion(f)
    ensures Abs(Coeff(U1, [f])) >= Abs(f.hypercharge)
  {
    var w, t := Weight(f), Term(U1, f);
    assert Abs(w) >= 1.0 by {
      WeightAtLeastOne(f);
    }
    assert Abs(t) >= Abs(f.hypercharge) by {
      assert f.su3Rep as real >= 1.0 && f.su2Rep as real >= 1.0;
      ScaledByDimensions(f.hypercharge, f.su3Rep as real, f.su2Rep as real);
    }
    assert Coeff(U1, [f]) == w * t by {
      CoeffCons(U1, f, []);
    }
    AbsProductAtLeast(w, t);
  }

  lemma ScaledByDimensions(y: real, d3: real, d2: real)
    requires d3 >= 1.0 && d2 >= 1.0
    ensures Abs(y * d3 * d2) >= Abs(y)
  {
    AbsProductAtLeast(d3, y);
    AbsProductAtLeast(d2, d3 * y);
    assert y * d3 * d2 == d2 * (d3 * y);
  }

  lemma WeightAtLeastOne(f: Fermion)
    requires ValidFermion(f)
    ensures Abs(Weight(f)) >= 1.0
  {
    if f.chirality == 1 {
      assert f.chirality * f.generations == f.generations;
    } else {
      assert f.chirality * f.generations == -f.generations;
    }
  }

  lemma AbsProductAtLeast(w: real, x: real)
    requires Abs(w) >= 1.0
    ensures Abs(w * x) >= Abs(x)
  {
    if w >= 1.0 {
      if x >= 0.0 { assert w * x >= 1.0 * x; } else { assert w * x <= 1.0 * x; }
    } else {
      if x >= 0.0 { assert w * x <= -1.0 * x; } else { assert w * x >= -1.0 * x; }
    }
  }

  /** A lone coloured fermion (triplet, sextet or octet) fails [SU(3)]³ at any tolerance below 1/2. */
  lemma LoneColouredFermionFails(f: Fermion, tolerance: real)
    requires ValidFermion(f) && f.su3Rep != 1
    requires tolerance < 0.5
    ensures !AllCancel([f], tolerance)
  {
    var w := Weight(f);
    WeightAtLeastOne(f);
    var t3 := Su3DynkinIndex(f.su3Rep);
    var t := f.su2Rep as real * t3;
    assert t3 >= 0.5;
    AbsProductAtLeast(f.su2Rep as real, t3);
    CoeffCons(Su3Cubed, f, []);
    assert Coeff(Su3Cubed, [f]) == w * t;
    AbsProductAtLeast(w, t);
    AllCancelIffEveryCoefficient([f], tolerance);
  }

  /**
   * An injected cache is used as-is: with [U(1)_Y] replaced by 10⁻²⁰ in the Standard Model's
   * map, the checker fails at tolerance 0 and passes at the default tolerance.
   */
  method InjectedCacheTolerance() returns (tight: bool, loose: bool)
    ensures !tight && loose
  {
    var checker := new AnomalyChecker(StandardModelSpectrum(false));
    var m := checker.ComputeAnomalies();
    forall c ensures Coeff(c, StandardModelSpectrum(false)) == 0.0 {
      StandardModelIsAnomalyFree(false, c);
    }
    var tiny := 1.0 / 100000000000000000000.0;
    var injected := m[0 := (U1, tiny)];
    checker.cache := Some(injected);
    assert !Cancels(injected, 0.0) by {
      assert Abs(injected[0].1) > 0.0;
    }
    assert Cancels(injected, DefaultTolerance) by {
      forall i | 0 <= i < |injected| ensures Abs(injected[i].1) <= DefaultTolerance {
        if i > 0 {
          assert injected[i] == m[i];
        }
      }
    }
    var failures;
    tight, failures := checker.VerifyCancellation(0.0);
    loose, failures := checker.VerifyCancellation(DefaultTolerance);
  }
}
