/**
 * The staged search over extensions of a base spectrum: the candidate generators, Blocks A
 * (single fermions), B (vector-like pairs, exhaustive or seeded by Block A) and C (Higgsino-style
 * pairs), the block sequencing with its result limit, and the canonical serialisation that names
 * the result files. Every block judges a spectrum with a fresh `AnomalyChecker` at the default
 * tolerance.
 */
module Scanner {
  import opened Wrappers
  import opened Text
  import opened Sequences
  import opened Anomaly
  import opened Configuration

  /** The description text of a result, one constructor per format the source writes. */
  datatype Description =
    | SingleFermion(su3: int, su2: int, hypercharge: real, chirality: int)  // "Single fermion: (su3, su2)_Y × chi"
    | VectorLikeFromBlockA(su3: int, su2: int, hypercharge: real)         // "Vector-like pair from Block A: (su3, su2)_Y"
    | VectorLike(su3: int, su2: int, hypercharge: real)                   // "Vector-like pair: (su3, su2)_Y"
    | ChiralPair(hypercharge: real)                                       // "Chiral pair: (1, 2)_[+Y, -Y]"
    | PhysicsMotivated(index: int)                                        // "Physics-motivated set i"

  datatype ScanResult = ScanResult(
    spectrum: seq<Fermion>,
    anomalies: AnomalyMap,
    isAnomalyFree: bool,
    description: Description)

  /** A fresh checker's verdict: what `AnomalyChecker(s).verify_cancellation()` returns first. */
  predicate Passes(s: seq<Fermion>) {
    AllCancel(s, DefaultTolerance)
  }

  // ---------------------------------------------------------------------------
  // Candidate hypercharges
  // ---------------------------------------------------------------------------

  function Sixth(k: int): real {
    k as real / 6.0
  }

  /** `k_max`: the `hyper_max` argument, 6 when it is `None`. */
  function KMax(hyperMax: Option<int>): int {
    hyperMax.GetOr(6)
  }

  /** k/6 for k = lo, ..., hi - 1 in increasing order, keeping those with |k/6| <= absMax. */
  function GridValues(lo: int, hi: int, absMax: real): seq<real>
    decreases hi - lo
  {
    if hi <= lo then []
    else GridValues(lo, hi - 1, absMax) + (if Abs(Sixth(hi - 1)) <= absMax then [Sixth(hi - 1)] else [])
  }

  /** The thirteen standard hypercharges, in the source's order. */
  const StandardValues: seq<real> := [
    0.0,
    1.0 / 6.0, -1.0 / 6.0,
    1.0 / 3.0, -1.0 / 3.0,
    1.0 / 2.0, -1.0 / 2.0,
    2.0 / 3.0, -2.0 / 3.0,
    1.0, -1.0,
    5.0 / 6.0, -5.0 / 6.0]

  const DefaultDenominators: seq<int> := [1, 2, 3, 6]

  /** num/den for each non-zero den of `dens`, in list order. */
  function Fractions(num: int, dens: seq<int>): seq<real> {
    if dens == [] then []
    else
      var den := dens[|dens| - 1];
      Fractions(num, dens[..|dens| - 1]) + (if den != 0 then [Ratio(num, den)] else [])
  }

  /** `Fractions(num, dens)` for num = lo, ..., hi - 1. */
  function RangeValues(lo: int, hi: int, dens: seq<int>): seq<real>
    decreases hi - lo
  {
    if hi <= lo then [] else RangeValues(lo, hi - 1, dens) + Fractions(hi - 1, dens)
  }

  /** The grid or standard part of `generate_hypercharge_values`, before the range part. */
  function PrimaryValues(config: HyperchargeConfig, hyperMax: Option<int>): seq<real> {
    if config.useKOver6.GetOr(true) then
      GridValues(-KMax(hyperMax), KMax(hyperMax) + 1, config.absMax.GetOr(2.0))
    else if config.includeStandard.GetOr(true) then StandardValues
    else []
  }

  /** The `range` part of `generate_hypercharge_values`. */
  function CustomRangeValues(config: HyperchargeConfig): seq<real> {
    match config.range
    case None => []
    case Some(b) => RangeValues(b.lo, b.hi + 1, config.denominators.GetOr(DefaultDenominators))
  }

  /** The `values` list of `generate_hypercharge_values` just before the duplicates are removed. */
  function RawHyperchargeValues(config: HyperchargeConfig, hyperMax: Option<int>): seq<real> {
    PrimaryValues(config, hyperMax) + CustomRangeValues(config)
  }

  /** Grid values are exactly the k/6 with lo <= k < hi and |k/6| <= absMax. */
  lemma {:induction false} GridMembers(lo: int, hi: int, absMax: real, y: real)
    ensures y in GridValues(lo, hi, absMax) <==> exists k :: lo <= k < hi && y == Sixth(k) && Abs(y) <= absMax
    decreases hi - lo
  {
    if hi > lo {
      GridMembers(lo, hi - 1, absMax, y);
      if y == Sixth(hi - 1) && Abs(y) <= absMax {
        assert y in GridValues(lo, hi, absMax);
      }
    }
  }

  /** `Fractions(num, dens)` holds exactly num/den for the non-zero den of `dens`. */
  lemma {:induction false} FractionsMembers(num: int, dens: seq<int>, y: real)
    ensures y in Fractions(num, dens) <==> exists den :: den in dens && den != 0 && y == Ratio(num, den)
  {
    if dens != [] {
      var init, den := dens[..|dens| - 1], dens[|dens| - 1];
      FractionsMembers(num, init, y);
      assert dens == init + [den];
      if exists d :: d in dens && d != 0 && y == Ratio(num, d) {
        var d :| d in dens && d != 0 && y == Ratio(num, d);
        if d != den {
          assert d in init;
        }
      }
    }
  }

  /** The range part holds exactly num/den for lo <= num < hi and the non-zero den of `dens`. */
  lemma {:induction false} RangeMembers(lo: int, hi: int, dens: seq<int>, y: real)
    ensures y in RangeValues(lo, hi, dens) <==>
              exists num, den :: lo <= num < hi && den in dens && den != 0 && y == Ratio(num, den)
    decreases hi - lo
  {
    if hi > lo {
      RangeMembers(lo, hi - 1, dens, y);
      FractionsMembers(hi - 1, dens, y);
      if exists num, den :: lo <= num < hi && den in dens && den != 0 && y == Ratio(num, den) {
        var num, den :| lo <= num < hi && den in dens && den != 0 && y == Ratio(num, den);
        if num == hi - 1 {
          assert y in Fractions(hi - 1, dens);
        } else {
          assert y in RangeValues(lo, hi - 1, dens);
        }
      }
    }
  }

  /**
   * Grid mode (the default): every value is k/6 with |k| <= k_max (k_max = `hyper_max`, default 6)
   * and |k/6| <= abs_max (default 2.0), and every such k/6 is present; `range` values come on top.
   */
  lemma GridModeValues(config: HyperchargeConfig, hyperMax: Option<int>, y: real)
    requires config.useKOver6.GetOr(true)
    ensures y in RawHyperchargeValues(config, hyperMax) <==>
              (exists k :: -KMax(hyperMax) <= k <= KMax(hyperMax) && y == Sixth(k) && Abs(y) <= config.absMax.GetOr(2.0))
              || y in CustomRangeValues(config)
  {
    GridMembers(-KMax(hyperMax), KMax(hyperMax) + 1, config.absMax.GetOr(2.0), y);
  }

  /**
   * The thirteen standard values are used only when `use_k_over_6` is false and
   * `include_standard` is not; with both false only the `range` values remain.
   */
  lemma StandardModeValues(config: HyperchargeConfig, hyperMax: Option<int>)
    requires config.useKOver6 == Some(false)
    ensures config.includeStandard.GetOr(true) ==>
              RawHyperchargeValues(config, hyperMax) == StandardValues + CustomRangeValues(config)
    ensures !config.includeStandard.GetOr(true) ==>
              RawHyperchargeValues(config, hyperMax) == CustomRangeValues(config)
  {
  }

  /** `range` adds num/den for every num of the inclusive range and every non-zero denominator. */
  lemma CustomRangeMembers(config: HyperchargeConfig, y: real)
    requires config.range.Some?
    ensures y in CustomRangeValues(config) <==>
              exists num, den :: config.range.value.lo <= num <= config.range.value.hi &&
                den in config.denominators.GetOr(DefaultDenominators) && den != 0 && y == Ratio(num, den)
  {
    RangeMembers(config.range.value.lo, config.range.value.hi + 1, config.denominators.GetOr(DefaultDenominators), y);
  }

  /** `generate_su3_representations`: the configured `values`, else [1, 3, 6, 8]. */
  function Su3Representations(config: ScanConfig): seq<int> {
    config.su3Values.GetOr([1, 3, 6, 8])
  }

  /** `generate_su2_representations`: the configured `values`, else [1, 2, 3]. */
  function Su2Representations(config: ScanConfig): seq<int> {
    config.su2Values.GetOr([1, 2, 3])
  }

  /** Without configured lists, every representation offered is one the Fermion constructor accepts. */
  lemma DefaultRepresentationsSupported(config: ScanConfig)
    requires config.su3Values.None? && config.su2Values.None?
    ensures forall d :: d in Su3Representations(config) <==> Su3Supported(d)
    ensures forall d :: d in Su2Representations(config) <==> Su2Supported(d)
  {
  }

  // ---------------------------------------------------------------------------
  // Block A: single-fermion candidates
  // ---------------------------------------------------------------------------

  /** The seven (su3, su2) pairs Block A tries, in order. */
  const BlockAPairs: seq<(int, int)> := [(1, 1), (1, 2), (1, 3), (3, 1), (3, 2), (6, 1), (8, 1)]

  /** The two chiralities, in the order they are tried. */
  const Chiralities: seq<int> := [1, -1]

  /** "X_{su3}{su2}_{k}_{L|R}". */
  function CandidateName(su3: int, su2: int, k: int, chirality: int): string {
    "X_" + IntToString(su3) + IntToString(su2) + "_" + IntToString(k) + "_" + (if chirality == 1 then "L" else "R")
  }

  function Candidate(su3: int, su2: int, k: int, chirality: int): Fermion {
    Fermion(CandidateName(su3, su2, k, chirality), su3, su2, Sixth(k), chirality, 1)
  }

  function ChiralCandidates(su3: int, su2: int, k: int): seq<Fermion> {
    [Candidate(su3, su2, k, Chiralities[0]), Candidate(su3, su2, k, Chiralities[1])]
  }

  /** The candidates for one representation pair and k = lo, ..., hi - 1, skipping |k/6| > absMax. */
  function PairCandidates(su3: int, su2: int, lo: int, hi: int, absMax: real): seq<Fermion>
    decreases hi - lo
  {
    if hi <= lo then []
    else PairCandidates(su3, su2, lo, hi - 1, absMax) +
         (if Abs(Sixth(hi - 1)) > absMax then [] else ChiralCandidates(su3, su2, hi - 1))
  }

  /** Every candidate Block A tests, in the order of its three nested loops. */
  function BlockACandidates(pairs: seq<(int, int)>, kMax: int, absMax: real): seq<Fermion> {
    if pairs == [] then []
    else
      var p := pairs[|pairs| - 1];
      BlockACandidates(pairs[..|pairs| - 1], kMax, absMax) + PairCandidates(p.0, p.1, -kMax, kMax + 1, absMax)
  }

  /** Block A's `abs_max`: the configured one, else 1.0. */
  function BlockAAbsMax(config: ScanConfig): real {
    config.hypercharge.GetOr(EmptyHypercharge).absMax.GetOr(1.0)
  }

  /** The verdict on one candidate F: does base + [F] pass? */
  predicate SinglePasses(base: seq<Fermion>, f: Fermion) {
    Passes(base + [f])
  }

  function SingleVerdict(base: seq<Fermion>): Fermion -> bool {
    f => SinglePasses(base, f)
  }

  function SingleResult(base: seq<Fermion>, f: Fermion): ScanResult {
    ScanResult(base + [f], Anomalies(base + [f]), true, SingleFermion(f.su3Rep, f.su2Rep, f.hypercharge, f.chirality))
  }

  function SingleResultOf(base: seq<Fermion>): Fermion -> ScanResult {
    f => SingleResult(base, f)
  }

  /** The Block A hits for a base spectrum, a `hyper_max` and a configuration, in test order. */
  function BlockAHits(base: seq<Fermion>, hyperMax: Option<int>, config: ScanConfig): seq<Fermion> {
    Filter(SingleVerdict(base), BlockACandidates(BlockAPairs, KMax(hyperMax), BlockAAbsMax(config)))
  }

  /** The candidates of one representation pair: both chiralities of each admitted k/6. */
  lemma {:induction false} PairCandidatesMembers(su3: int, su2: int, lo: int, hi: int, absMax: real, f: Fermion)
    ensures f in PairCandidates(su3, su2, lo, hi, absMax) <==>
              exists k, chi :: lo <= k < hi && Abs(Sixth(k)) <= absMax && chi in Chiralities && f == Candidate(su3, su2, k, chi)
    decreases hi - lo
  {
    if hi > lo {
      PairCandidatesMembers(su3, su2, lo, hi - 1, absMax, f);
      if exists k, chi :: lo <= k < hi && Abs(Sixth(k)) <= absMax && chi in Chiralities && f == Candidate(su3, su2, k, chi) {
        var k, chi :| lo <= k < hi && Abs(Sixth(k)) <= absMax && chi in Chiralities && f == Candidate(su3, su2, k, chi);
        if k == hi - 1 {
          assert f in ChiralCandidates(su3, su2, k);
        } else {
          assert f in PairCandidates(su3, su2, lo, hi - 1, absMax);
        }
      }
    }
  }

  /** The candidates of a list of pairs are those of its members. */
  lemma {:induction false} BlockACandidatesMembers(pairs: seq<(int, int)>, kMax: int, absMax: real, f: Fermion)
    ensures f in BlockACandidates(pairs, kMax, absMax) <==>
              exists p :: p in pairs && f in PairCandidates(p.0, p.1, -kMax, kMax + 1, absMax)
  {
    if pairs != [] {
      var init, last := pairs[..|pairs| - 1], pairs[|pairs| - 1];
      BlockACandidatesMembers(init, kMax, absMax, f);
      assert pairs == init + [last];
      if exists p :: p in pairs && f in PairCandidates(p.0, p.1, -kMax, kMax + 1, absMax) {
        var p :| p in pairs && f in PairCandidates(p.0, p.1, -kMax, kMax + 1, absMax);
        if p != last {
          assert p in init;
        }
      }
    }
  }

  /**
   * Block A's hits are exactly the fermions (su3, su2)_{k/6} of chirality ±1 and one generation,
   * for one of the seven pairs, |k| <= k_max and |k/6| <= abs_max, whose addition to the base passes.
   */
  lemma BlockAHitIff(base: seq<Fermion>, hyperMax: Option<int>, config: ScanConfig, f: Fermion)
    ensures f in BlockAHits(base, hyperMax, config) <==>
              (exists p, k, chi :: p in BlockAPairs && -KMax(hyperMax) <= k <= KMax(hyperMax) &&
                 Abs(Sixth(k)) <= BlockAAbsMax(config) && chi in Chiralities && f == Candidate(p.0, p.1, k, chi))
              && Passes(base + [f])
  {
    var kMax, absMax := KMax(hyperMax), BlockAAbsMax(config);
    FilterMembers(SingleVerdict(base), BlockACandidates(BlockAPairs, kMax, absMax), f);
    BlockACandidatesMembers(BlockAPairs, kMax, absMax, f);
    forall p | p in BlockAPairs {
      PairCandidatesMembers(p.0, p.1, -kMax, kMax + 1, absMax, f);
    }
  }

  /** Every Block A candidate is a valid one-generation fermion. */
  lemma BlockAHitsValid(base: seq<Fermion>, hyperMax: Option<int>, config: ScanConfig, f: Fermion)
    requires f in BlockAHits(base, hyperMax, config)
    ensures ValidFermion(f) && f.generations == 1
  {
    BlockAHitIff(base, hyperMax, config, f);
  }

  /** The candidates of PairCandidates that pass `keep`, computed one k at a time. */
  function PairHits(keep: Fermion -> bool, su3: int, su2: int, lo: int, hi: int, absMax: real): seq<Fermion>
    decreases hi - lo
  {
    if hi <= lo then []
    else PairHits(keep, su3, su2, lo, hi - 1, absMax) +
         (if Abs(Sixth(hi - 1)) > absMax then [] else Filter(keep, ChiralCandidates(su3, su2, hi - 1)))
  }

  lemma {:induction false} PairHitsFilter(keep: Fermion -> bool, su3: int, su2: int, lo: int, hi: int, absMax: real)
    ensures PairHits(keep, su3, su2, lo, hi, absMax) == Filter(keep, PairCandidates(su3, su2, lo, hi, absMax))
    decreases hi - lo
  {
    if hi > lo {
      PairHitsFilter(keep, su3, su2, lo, hi - 1, absMax);
      FilterAppend(keep, PairCandidates(su3, su2, lo, hi - 1, absMax),
        if Abs(Sixth(hi - 1)) > absMax then [] else ChiralCandidates(su3, su2, hi - 1));
    }
  }

  /** The candidates of BlockACandidates that pass `keep`, computed one pair at a time. */
  function PairListHits(keep: Fermion -> bool, pairs: seq<(int, int)>, kMax: int, absMax: real): seq<Fermion> {
    if pairs == [] then []
    else
      var p := pairs[|pairs| - 1];
      PairListHits(keep, pairs[..|pairs| - 1], kMax, absMax) + PairHits(keep, p.0, p.1, -kMax, kMax + 1, absMax)
  }

  lemma PairListHitsSnoc(keep: Fermion -> bool, pairs: seq<(int, int)>, i: nat, kMax: int, absMax: real)
    requires i < |pairs|
    ensures PairListHits(keep, pairs[..i + 1], kMax, absMax) ==
              PairListHits(keep, pairs[..i], kMax, absMax) + PairHits(keep, pairs[i].0, pairs[i].1, -kMax, kMax + 1, absMax)
  {
    assert pairs[..i + 1][..i] == pairs[..i];
  }

  lemma {:induction false} PairListHitsFilter(keep: Fermion -> bool, pairs: seq<(int, int)>, kMax: int, absMax: real)
    ensures PairListHits(keep, pairs, kMax, absMax) == Filter(keep, BlockACandidates(pairs, kMax, absMax))
  {
    if pairs != [] {
      var p := pairs[|pairs| - 1];
      PairListHitsFilter(keep, pairs[..|pairs| - 1], kMax, absMax);
      PairHitsFilter(keep, p.0, p.1, -kMax, kMax + 1, absMax);
      FilterAppend(keep, BlockACandidates(pairs[..|pairs| - 1], kMax, absMax), PairCandidates(p.0, p.1, -kMax, kMax + 1, absMax));
    }
  }

  // ---------------------------------------------------------------------------
  // Block B: vector-like pairs over the product of the candidate lists
  // ---------------------------------------------------------------------------

  /** `itertools.product(su3s, su2s)`: su2 varies fastest. */
  function RepPairs(su3s: seq<int>, su2s: seq<int>): seq<(int, int)> {
    if su3s == [] then []
    else
      var d3 := su3s[|su3s| - 1];
      RepPairs(su3s[..|su3s| - 1], su2s) + Map((d2: int) => (d3, d2), su2s)
  }

  /** `itertools.product(hypercharges, su3s, su2s)`: the order Block B walks its triples in. */
  function Triples(ys: seq<real>, su3s: seq<int>, su2s: seq<int>): seq<(real, int, int)> {
    if ys == [] then []
    else
      var y := ys[|ys| - 1];
      Triples(ys[..|ys| - 1], su3s, su2s) + Map((p: (int, int)) => (y, p.0, p.1), RepPairs(su3s, su2s))
  }

  lemma {:induction false} RepPairsLength(su3s: seq<int>, su2s: seq<int>)
    ensures |RepPairs(su3s, su2s)| == |su3s| * |su2s|
  {
    if su3s != [] {
      var init, d3 := su3s[..|su3s| - 1], su3s[|su3s| - 1];
      RepPairsLength(init, su2s);
      MapIndex((d2: int) => (d3, d2), su2s);
      SuccTimes(|init|, |su2s|);
    }
  }

  lemma {:induction false} RepPairsMembers(su3s: seq<int>, su2s: seq<int>, p: (int, int))
    ensures p in RepPairs(su3s, su2s) <==> p.0 in su3s && p.1 in su2s
  {
    if su3s != [] {
      var init, d3 := su3s[..|su3s| - 1], su3s[|su3s| - 1];
      var row := Map((d2: int) => (d3, d2), su2s);
      RepPairsMembers(init, su2s, p);
      MapIndex((d2: int) => (d3, d2), su2s);
      assert su3s == init + [d3];
      if p.0 == d3 && p.1 in su2s {
        var j :| 0 <= j < |su2s| && su2s[j] == p.1;
        assert row[j] == p;
      }
    }
  }

  lemma SuccTimes(a: nat, b: nat)
    ensures (a + 1) * b == a * b + b
  {
  }

  /** Block B tests |ys|·|su3s|·|su2s| triples. */
  lemma {:induction false} TriplesLength(ys: seq<real>, su3s: seq<int>, su2s: seq<int>)
    ensures |Triples(ys, su3s, su2s)| == |ys| * (|su3s| * |su2s|)
  {
    if ys != [] {
      var init, y := ys[..|ys| - 1], ys[|ys| - 1];
      TriplesLength(init, su3s, su2s);
      RepPairsLength(su3s, su2s);
      MapIndex((p: (int, int)) => (y, p.0, p.1), RepPairs(su3s, su2s));
      SuccTimes(|init|, |su3s| * |su2s|);
    }
  }

  /** Block B tests exactly the (Y, su3, su2) drawn from the three lists. */
  lemma {:induction false} TriplesMembers(ys: seq<real>, su3s: seq<int>, su2s: seq<int>, t: (real, int, int))
    ensures t in Triples(ys, su3s, su2s) <==> t.0 in ys && t.1 in su3s && t.2 in su2s
  {
    if ys != [] {
      var init, y := ys[..|ys| - 1], ys[|ys| - 1];
      var pairs := RepPairs(su3s, su2s);
      var row := Map((p: (int, int)) => (y, p.0, p.1), pairs);
      TriplesMembers(init, su3s, su2s, t);
      RepPairsMembers(su3s, su2s, (t.1, t.2));
      MapIndex((p: (int, int)) => (y, p.0, p.1), pairs);
      assert ys == init + [y];
      if t.0 == y && t.1 in su3s && t.2 in su2s {
        var j :| 0 <= j < |pairs| && pairs[j] == (t.1, t.2);
        assert row[j] == t;
      }
    }
  }

  /** Whether the Fermion constructor accepts the representations of a triple. */
  predicate TripleSupported(t: (real, int, int)) {
    Su3Supported(t.1) && Su2Supported(t.2)
  }

  /** The error the constructor raises for the left-handed fermion of an unsupported triple. */
  function TripleError(t: (real, int, int)): FermionError {
    if !Su3Supported(t.1) then UnsupportedSu3Rep(t.1) else UnsupportedSu2Rep(t.2)
  }

  function LeftPartner(t: (real, int, int)): Fermion {
    Fermion("X_L", t.1, t.2, t.0, 1, 1)
  }

  function RightPartner(t: (real, int, int)): Fermion {
    Fermion("X_R", t.1, t.2, t.0, -1, 1)
  }

  function VectorLikeResult(base: seq<Fermion>, t: (real, int, int)): ScanResult {
    var s := base + [LeftPartner(t), RightPartner(t)];
    ScanResult(s, Anomalies(s), true, VectorLike(t.1, t.2, t.0))
  }

  function VectorLikeResultOf(base: seq<Fermion>): ((real, int, int)) -> ScanResult {
    t => VectorLikeResult(base, t)
  }

  /** Index of the first triple the constructor rejects, or the length when there is none. */
  function FirstUnsupported(ts: seq<(real, int, int)>): (n: nat)
    ensures n <= |ts|
    ensures forall j :: 0 <= j < n ==> TripleSupported(ts[j])
    ensures n < |ts| ==> !TripleSupported(ts[n])
  {
    if ts == [] then 0
    else if !TripleSupported(ts[0]) then 0
    else 1 + FirstUnsupported(ts[1..])
  }

  /**
   * Block B's (exhaustive) hits for the triples it walks: all triples up to the first rejected
   * one when the base passes, none otherwise; X_L and X_R form a vector-like pair.
   */
  function ExhaustiveHits(base: seq<Fermion>, ts: seq<(real, int, int)>): seq<ScanResult> {
    if Passes(base) then Map(VectorLikeResultOf(base), ts[..FirstUnsupported(ts)]) else []
  }

  /** The constructor error that ends Block B's exhaustive scan, if any. */
  function ExhaustiveError(ts: seq<(real, int, int)>): Option<FermionError> {
    var n := FirstUnsupported(ts);
    if n < |ts| then Some(TripleError(ts[n])) else None
  }

  /** X_L and X_R cancel: base + [X_L, X_R] passes exactly when the base does. */
  lemma VectorLikeVerdict(base: seq<Fermion>, t: (real, int, int))
    ensures Passes(base + [LeftPartner(t), RightPartner(t)]) == Passes(base)
    ensures Anomalies(base + [LeftPartner(t), RightPartner(t)]) == Anomalies(base)
  {
    VectorLikePairPreservesVerdict(base, LeftPartner(t), RightPartner(t), DefaultTolerance);
  }

  /** With the default configuration Block B never meets a representation the constructor rejects. */
  lemma DefaultTriplesSupported(ys: seq<real>, config: ScanConfig)
    requires config.su3Values.None? && config.su2Values.None?
    ensures ExhaustiveError(Triples(ys, Su3Representations(config), Su2Representations(config))) == None
  {
    var ts := Triples(ys, Su3Representations(config), Su2Representations(config));
    var n := FirstUnsupported(ts);
    if n < |ts| {
      TriplesMembers(ys, Su3Representations(config), Su2Representations(config), ts[n]);
      DefaultRepresentationsSupported(config);
    }
  }

  // ---------------------------------------------------------------------------
  // Block B': vector-like partners of the Block A hits
  // ---------------------------------------------------------------------------

  /** F̄: F with the chirality negated, named F.name + "bar", one generation. */
  function Conjugate(f: Fermion): Fermion {
    Fermion(f.name + "bar", f.su3Rep, f.su2Rep, f.hypercharge, -f.chirality, 1)
  }

  function PartnerResult(base: seq<Fermion>, f: Fermion): ScanResult {
    var s := base + [f, Conjugate(f)];
    ScanResult(s, Anomalies(s), true, VectorLikeFromBlockA(f.su3Rep, f.su2Rep, f.hypercharge))
  }

  function PartnerResultOf(base: seq<Fermion>): Fermion -> ScanResult {
    f => PartnerResult(base, f)
  }

  /** Block B' results for the Block A hits `hits`: one per hit when the base passes, none otherwise. */
  function PartnerHits(base: seq<Fermion>, hits: seq<Fermion>): seq<ScanResult> {
    if Passes(base) then Map(PartnerResultOf(base), hits) else []
  }

  /** For a one-generation F, base + [F, F̄] passes exactly when the base does. */
  lemma PartnerVerdict(base: seq<Fermion>, f: Fermion)
    requires f.generations == 1
    ensures Passes(base + [f, Conjugate(f)]) == Passes(base)
  {
    VectorLikePairPreservesVerdict(base, f, Conjugate(f), DefaultTolerance);
  }

  // ---------------------------------------------------------------------------
  // Block C: Higgsino-style pairs
  // ---------------------------------------------------------------------------

  /** The three hypercharges Block C tries, in order: 1/2, 1, 3/2. */
  const HiggsinoHypercharges: seq<real> := [0.5, 1.0, 1.5]

  function UpHiggsino(y: real): Fermion {
    Fermion("Hu", 1, 2, y, 1, 1)
  }

  function DownHiggsino(y: real): Fermion {
    Fermion("Hd", 1, 2, -y, 1, 1)
  }

  function HiggsinoResult(base: seq<Fermion>, y: real): ScanResult {
    var s := base + [UpHiggsino(y), DownHiggsino(y)];
    ScanResult(s, Anomalies(s), true, ChiralPair(y))
  }

  function HiggsinoResultOf(base: seq<Fermion>): real -> ScanResult {
    y => HiggsinoResult(base, y)
  }

  /** Hu(Y) and Hd(-Y) contribute opposite amounts to every coefficient. */
  lemma HiggsinoContributionsCancel(c: Coefficient, y: real)
    ensures Contribution(c, UpHiggsino(y)) + Contribution(c, DownHiggsino(y)) == 0.0
  {
    assert Weight(UpHiggsino(y)) == 1.0 && Weight(DownHiggsino(y)) == 1.0;
    match c
    case U1Cubed =>
      assert (-y) * (-y) * (-y) == -(y * y * y);
    case _ =>
  }

  /** The Higgsino pair leaves every coefficient, and so the verdict, of the base unchanged. */
  lemma HiggsinoVerdict(base: seq<Fermion>, y: real)
    ensures Anomalies(base + [UpHiggsino(y), DownHiggsino(y)]) == Anomalies(base)
    ensures Passes(base + [UpHiggsino(y), DownHiggsino(y)]) == Passes(base)
  {
    var u, d := UpHiggsino(y), DownHiggsino(y);
    forall c ensures Coeff(c, base + [u, d]) == Coeff(c, base) {
      CoeffAppend(c, base, [u, d]);
      HiggsinoContributionsCancel(c, y);
      CoeffCons(c, d, []);
      CoeffCons(c, u, [d]);
      assert [u] + [d] == [u, d];
      assert [d] + [] == [d];
    }
    SameCoefficientsSameVerdict(base + [u, d], base, DefaultTolerance);
  }

  /** Block C's hits: all three pairs when the base passes, none otherwise. */
  function HiggsinoHits(base: seq<Fermion>): seq<ScanResult> {
    if Passes(base) then Map(HiggsinoResultOf(base), HiggsinoHypercharges) else []
  }

  /** Without a rejected triple, Block B hits every triple it tests or none. */
  lemma ExhaustiveHitsAllOrNone(base: seq<Fermion>, ts: seq<(real, int, int)>)
    requires ExhaustiveError(ts).None?
    ensures |ExhaustiveHits(base, ts)| == if Passes(base) then |ts| else 0
  {
    var n := FirstUnsupported(ts);
    assert n == |ts|;
    assert ts[..n] == ts;
    MapIndex(VectorLikeResultOf(base), ts);
  }

  /** Block B hits all the triples it tests or none, so with no error it reports |ys|·|su3s|·|su2s| or 0 results. */
  lemma ExhaustiveHitsCount(base: seq<Fermion>, ys: seq<real>, su3s: seq<int>, su2s: seq<int>)
    requires ExhaustiveError(Triples(ys, su3s, su2s)).None?
    ensures |ExhaustiveHits(base, Triples(ys, su3s, su2s))| == if Passes(base) then |ys| * (|su3s| * |su2s|) else 0
  {
    TriplesLength(ys, su3s, su2s);
    ExhaustiveHitsAllOrNone(base, Triples(ys, su3s, su2s));
  }

  // ---------------------------------------------------------------------------
  // The block sequence of `run_comprehensive_scan`
  // ---------------------------------------------------------------------------

  datatype Block = BlockA | BlockB | BlockBPrime | BlockC

  /** `limit and len(self.anomaly_free_models) >= limit`: a limit of 0 or None never stops the scan. */
  predicate LimitReached(limit: Option<int>, count: int) {
    limit.Some? && limit.value != 0 && count >= limit.value
  }

  /**
   * The outcome of one scan: the blocks that ran, in order, what was added to `results`, what
   * was added to `anomaly_free_models` and the error that ended it, if any.
   */
  datatype RunTrace = RunTrace(ran: seq<Block>, reported: seq<ScanResult>, appended: seq<ScanResult>, error: Option<FermionError>)

  /**
   * The scan given each block's output: `start` models before it, Block A's results `a`,
   * Block B's hits `b` and error `bError`, whether Block B' is enabled, its results `bPrime`,
   * and Block C's results `c`. The limit is checked after A, after B and after B' only.
   */
  function ComprehensiveRun(limit: Option<int>, start: nat, a: seq<ScanResult>, b: seq<ScanResult>, bError: Option<FermionError>,
                            partners: bool, bPrime: seq<ScanResult>, c: seq<ScanResult>): RunTrace
  {
    if LimitReached(limit, start + |a|) then RunTrace([BlockA], a, a, None)
    else if bError.Some? then RunTrace([BlockA, BlockB], a, a + b, bError)
    else if LimitReached(limit, start + |a| + |b|) then RunTrace([BlockA, BlockB], a + b, a + b, None)
    else if !partners then RunTrace([BlockA, BlockB, BlockC], a + b + c, a + b + c, None)
    else if LimitReached(limit, start + |a| + |b| + |bPrime|) then RunTrace([BlockA, BlockB, BlockBPrime], a + b + bPrime, a + b + bPrime, None)
    else RunTrace([BlockA, BlockB, BlockBPrime, BlockC], a + b + bPrime + c, a + b + bPrime + c, None)
  }

  /** Block A always runs, first, and its results always head what is reported. */
  lemma RunStartsWithBlockA(limit: Option<int>, start: nat, a: seq<ScanResult>, b: seq<ScanResult>, bError: Option<FermionError>,
                            partners: bool, bPrime: seq<ScanResult>, c: seq<ScanResult>)
    ensures var t := ComprehensiveRun(limit, start, a, b, bError, partners, bPrime, c);
            |t.ran| >= 1 && t.ran[0] == BlockA && |t.reported| >= |a| && t.reported[..|a|] == a
  {
  }

  /** With a limit of None or 0 and no error, every block runs: A, B, B' when enabled, then C. */
  lemma UnlimitedRunRunsEveryBlock(limit: Option<int>, start: nat, a: seq<ScanResult>, b: seq<ScanResult>,
                                   partners: bool, bPrime: seq<ScanResult>, c: seq<ScanResult>)
    requires limit.None? || limit == Some(0)
    ensures var t := ComprehensiveRun(limit, start, a, b, None, partners, bPrime, c);
            t.ran == [BlockA, BlockB] + (if partners then [BlockBPrime] else []) + [BlockC] &&
            t.reported == a + b + (if partners then bPrime else []) + c &&
            t.error.None?
  {
  }

  /** A scan ends before Block C only on an error or on reaching a truthy limit. */
  lemma RunStopsEarlyOnlyAtLimit(limit: Option<int>, start: nat, a: seq<ScanResult>, b: seq<ScanResult>, bError: Option<FermionError>,
                                 partners: bool, bPrime: seq<ScanResult>, c: seq<ScanResult>)
    ensures var t := ComprehensiveRun(limit, start, a, b, bError, partners, bPrime, c);
            t.error.None? && BlockC !in t.ran ==> LimitReached(limit, start + |t.appended|)
    ensures var t := ComprehensiveRun(limit, start, a, b, bError, partners, bPrime, c);
            t.error.Some? ==> t.error == bError && t.ran == [BlockA, BlockB] && !LimitReached(limit, start + |a|)
  {
  }

  /**
   * Without an error, `results` gains exactly what `anomaly_free_models` gains; Block B's error
   * leaves its partial hits in `anomaly_free_models` but not in `results`.
   */
  lemma RunReportsWhatItAppends(limit: Option<int>, start: nat, a: seq<ScanResult>, b: seq<ScanResult>, bError: Option<FermionError>,
                                partners: bool, bPrime: seq<ScanResult>, c: seq<ScanResult>)
    ensures var t := ComprehensiveRun(limit, start, a, b, bError, partners, bPrime, c);
            t.error.None? ==> t.reported == t.appended
    ensures var t := ComprehensiveRun(limit, start, a, b, bError, partners, bPrime, c);
            t.error.Some? ==> t.appended == t.reported + b
  {
  }

  /** A negative limit is truthy and always reached, so only Block A runs. */
  lemma NegativeLimitRunsOnlyBlockA(limit: Option<int>, start: nat, a: seq<ScanResult>, b: seq<ScanResult>, bError: Option<FermionError>,
                                    partners: bool, bPrime: seq<ScanResult>, c: seq<ScanResult>)
    requires limit.Some? && limit.value < 0
    ensures ComprehensiveRun(limit, start, a, b, bError, partners, bPrime, c).ran == [BlockA]
  {
  }

  /**
   * `run_comprehensive_scan` for a scanner over `base` and `config` that held `start` models:
   * `hits` are the Block A hits after Block A (earlier ones included) and `ys` is the
   * hypercharge list Block B walks.
   */
  function ScanTrace(base: seq<Fermion>, config: ScanConfig, hits: seq<Fermion>, start: nat,
                     hyperMax: Option<int>, limit: Option<int>, ys: seq<real>): RunTrace
  {
    var ts := Triples(ys, Su3Representations(config), Su2Representations(config));
    ComprehensiveRun(limit, start,
      Map(SingleResultOf(base), BlockAHits(base, hyperMax, config)),
      ExhaustiveHits(base, ts), ExhaustiveError(ts),
      hits != [] && config.scanBlockAPairs.GetOr(true),
      PartnerHits(base, hits),
      HiggsinoHits(base))
  }

  // ---------------------------------------------------------------------------
  // Result files and export
  // ---------------------------------------------------------------------------

  /**
   * One element of `spec_json`, its fields in the key order `json.dumps(..., sort_keys=True)`
   * writes them. The hypercharge leaf stands for `str(Fraction)`, which the exact value fixes
   * and which fixes the exact value.
   */
  datatype FermionEntry = FermionEntry(chirality: int, generations: int, hypercharge: real, name: string, su2Rep: int, su3Rep: int)

  function Entry(f: Fermion): FermionEntry {
    FermionEntry(f.chirality, f.generations, f.hypercharge, f.name, f.su2Rep, f.su3Rep)
  }

  /** The serialised spectrum `dump_result` hashes: one entry per fermion, in spectrum order. */
  function SpecJson(spectrum: seq<Fermion>): seq<FermionEntry> {
    Map(Entry, spectrum)
  }

  /** Two spectra serialise alike exactly when they are the same spectrum. */
  lemma SpecJsonInjective(s: seq<Fermion>, s': seq<Fermion>)
    ensures SpecJson(s) == SpecJson(s') <==> s == s'
  {
    if SpecJson(s) == SpecJson(s') {
      MapIndex(Entry, s);
      MapIndex(Entry, s');
      assert |s| == |s'|;
      forall i | 0 <= i < |s|
        ensures s[i] == s'[i]
      {
        assert Entry(s[i]) == Entry(s'[i]);
      }
    }
  }

  /** A `hexdigest()` of SHA-1: forty lower-case hexadecimal digits. */
  type HexDigest = s: string | |s| == 40 && forall i :: 0 <= i < |s| ==> s[i] in "0123456789abcdef"
    witness "0000000000000000000000000000000000000000"

  /**
   * The file `dump_result` writes for `spectrum` under `tag`: `results/{tag}_{h}.json`, where h is
   * the first ten digits of the SHA-1 digest `sha1` gives for the serialised spectrum.
   */
  function ResultPath(sha1: seq<FermionEntry> -> HexDigest, tag: string, spectrum: seq<Fermion>): string {
    "results/" + tag + "_" + sha1(SpecJson(spectrum))[..10] + ".json"
  }

  /** Two dumps share a file exactly when their tags agree and their digests agree on ten digits. */
  lemma ResultPathDetermines(sha1: seq<FermionEntry> -> HexDigest, tag: string, s: seq<Fermion>, tag': string, s': seq<Fermion>)
    ensures ResultPath(sha1, tag, s) == ResultPath(sha1, tag', s') <==>
            tag == tag' && sha1(SpecJson(s))[..10] == sha1(SpecJson(s'))[..10]
  {
    var p, p' := ResultPath(sha1, tag, s), ResultPath(sha1, tag', s');
    if p == p' {
      assert |tag| == |tag'|;
      assert tag == p[8..8 + |tag|];
      assert tag' == p'[8..8 + |tag'|];
      assert sha1(SpecJson(s))[..10] == p[9 + |tag|..19 + |tag|];
      assert sha1(SpecJson(s'))[..10] == p'[9 + |tag'|..19 + |tag'|];
    }
  }

  /** `base_names`: the names of the base spectrum's fermions. */
  function BaseNames(base: seq<Fermion>): set<string> {
    set f | f in base :: f.name
  }

  /** `new_fermions`: the fermions of `spectrum` whose names are not among `names`, in order. */
  function NewFermions(names: set<string>, spectrum: seq<Fermion>): seq<Fermion> {
    Filter((f: Fermion) => f.name !in names, spectrum)
  }

  /** A fermion is new exactly when it is in the spectrum under a name outside `names`. */
  lemma {:induction false} NewFermionsMembers(names: set<string>, spectrum: seq<Fermion>, f: Fermion)
    ensures f in NewFermions(names, spectrum) <==> f in spectrum && f.name !in names
  {
    FilterMembers((f: Fermion) => f.name !in names, spectrum, f);
  }

  /** Extending the base by fermions with fresh names, the new fermions are exactly the extension. */
  lemma NewFermionsOfExtension(base: seq<Fermion>, extra: seq<Fermion>)
    requires forall f :: f in extra ==> f.name !in BaseNames(base)
    ensures NewFermions(BaseNames(base), base + extra) == extra
  {
    var keep := (f: Fermion) => f.name !in BaseNames(base);
    FilterAppend(keep, base, extra);
    assert forall f :: f in base ==> f.name in BaseNames(base);
    FilterAllOrNothing(keep, base, false);
    FilterAllOrNothing(keep, extra, true);
  }

  /** The machine-friendly signature `(su3,su2,Y,chi)` of a new fermion. */
  datatype Signature = Signature(su3: int, su2: int, hypercharge: real, chirality: int)

  function SignatureOf(f: Fermion): Signature {
    Signature(f.su3Rep, f.su2Rep, f.hypercharge, f.chirality)
  }

  /** One entry of `export_results`' `anomaly_free_models` list. */
  datatype ModelExport = ModelExport(description: Description, signature: seq<Signature>, fermions: seq<FermionEntry>, isAnomalyFree: bool)

  /** The export entry of `model` for a base spectrum whose names are `names`. */
  function ExportModel(names: set<string>, model: ScanResult): ModelExport {
    ModelExport(model.description, Map(SignatureOf, NewFermions(names, model.spectrum)), SpecJson(model.spectrum), true)
  }

  function ExportModelOf(names: set<string>): ScanResult -> ModelExport {
    model => ExportModel(names, model)
  }

  /**
   * A result over base + extra, with names the base does not use, is exported with one signature
   * per added fermion, in order, and with its whole spectrum serialised.
   */
  lemma ExportOfExtension(base: seq<Fermion>, extra: seq<Fermion>, model: ScanResult)
    requires model.spectrum == base + extra
    requires forall f :: f in extra ==> f.name !in BaseNames(base)
    ensures ExportModel(BaseNames(base), model).signature == Map(SignatureOf, extra)
    ensures ExportModel(BaseNames(base), model).fermions == SpecJson(base) + SpecJson(extra)
  {
    NewFermionsOfExtension(base, extra);
    MapAppend(Entry, base, extra);
  }

  /** The k/6 grid loop of `generate_hypercharge_values`. */
  method GridLoop(kMax: int, absMax: real) returns (values: seq<real>)
    ensures values == GridValues(-kMax, kMax + 1, absMax)
  {
    values := [];
    var k := -kMax;
    while k <= kMax
      invariant k == -kMax || -kMax < k <= kMax + 1
      invariant values == GridValues(-kMax, k, absMax)
      decreases kMax - k
    {
      var y := Sixth(k);
      if Abs(y) <= absMax {
        values := values + [y];
      }
      k := k + 1;
    }
  }

  /** The `range` loops of `generate_hypercharge_values`: num over [lo, hi], den over `dens`, zero skipped. */
  method RangeLoop(lo: int, hi: int, dens: seq<int>) returns (values: seq<real>)
    ensures values == RangeValues(lo, hi + 1, dens)
  {
    values := [];
    var num := lo;
    while num <= hi
      invariant num == lo || lo < num <= hi + 1
      invariant values == RangeValues(lo, num, dens)
      decreases hi - num
    {
      for j := 0 to |dens|
        invariant values == RangeValues(lo, num, dens) + Fractions(num, dens[..j])
      {
        assert dens[..j + 1][..j] == dens[..j];
        if dens[j] != 0 {
          values := values + [Ratio(num, dens[j])];
        }
      }
      assert dens[..|dens|] == dens;
      num := num + 1;
    }
  }

  /**
   * A fresh `AnomalyChecker` over `s`: the verdict of `verify_cancellation` at the default
   * tolerance and the anomaly map of `compute_anomalies` (the second call reads the cache).
   */
  method Judge(s: seq<Fermion>) returns (passes: bool, anomalies: AnomalyMap)
    ensures passes == Passes(s)
    ensures anomalies == Anomalies(s)
  {
    var checker := new AnomalyChecker(s);
    var failures;
    passes, failures := checker.VerifyCancellation(DefaultTolerance);
    anomalies := checker.ComputeAnomalies();
  }

  /** The scanner object: its configuration, its base spectrum and the three lists the blocks append to. */
  class ParameterSpaceScanner {
    const base: seq<Fermion>
    const scanConfig: ScanConfig
    var results: seq<ScanResult>
    var anomalyFreeModels: seq<ScanResult>
    var blockAHits: seq<Fermion>
    /** The verdict on base + [F] for each candidate F, named so that the block loops can speak of it. */
    ghost const singleVerdict: Fermion -> bool

    /** Every Block A hit is a valid one-generation fermion, which Block B' relies on. */
    ghost predicate Valid()
      reads this`blockAHits
    {
      (forall f {:trigger SinglePasses(base, f)} :: singleVerdict(f) == SinglePasses(base, f)) &&
      (forall f :: f in blockAHits ==> ValidFermion(f) && f.generations == 1)
    }

    constructor (base: seq<Fermion>, scanConfig: ScanConfig)
      ensures this.base == base && this.scanConfig == scanConfig
      ensures results == [] && anomalyFreeModels == [] && blockAHits == []
      ensures Valid()
    {
      this.base := base;
      this.scanConfig := scanConfig;
      results := [];
      anomalyFreeModels := [];
      blockAHits := [];
      singleVerdict := SingleVerdict(base);
    }

    /**
     * `generate_hypercharge_values`: the candidate list without duplicates. Its elements are
     * exactly those of `RawHyperchargeValues`; their order is that of a Python set and is not modelled.
     */
    method GenerateHyperchargeValues(hyperMax: Option<int>) returns (values: seq<real>)
      ensures NoDuplicates(values)
      ensures forall y :: y in values <==> y in RawHyperchargeValues(scanConfig.hypercharge.GetOr(EmptyHypercharge), hyperMax)
    {
      var config := scanConfig.hypercharge.GetOr(EmptyHypercharge);
      var raw: seq<real> := [];
      if config.useKOver6.GetOr(true) {
        var grid := GridLoop(KMax(hyperMax), config.absMax.GetOr(2.0));
        raw := raw + grid;
      } else if config.includeStandard.GetOr(true) {
        raw := raw + StandardValues;
      }
      if config.range.Some? {
        var more := RangeLoop(config.range.value.lo, config.range.value.hi, config.denominators.GetOr(DefaultDenominators));
        raw := raw + more;
      }
      assert raw == RawHyperchargeValues(config, hyperMax);
      values := Dedupe(raw);
    }

    /**
     * Block A: for each of the seven representation pairs, each k with |k| <= k_max and
     * |k/6| <= abs_max, and each chirality, tests base + [F]; every F that passes is appended
     * to `blockAHits`, and its result to the returned list and to `anomalyFreeModels`.
     */
    method ScanSingleAdditions(hyperMax: Option<int>) returns (found: seq<ScanResult>)
      requires Valid()
      modifies this`blockAHits, this`anomalyFreeModels
      ensures Valid()
      ensures blockAHits == old(blockAHits) + BlockAHits(base, hyperMax, scanConfig)
      ensures found == Map(SingleResultOf(base), BlockAHits(base, hyperMax, scanConfig))
      ensures anomalyFreeModels == old(anomalyFreeModels) + found
    {
      var kMax := KMax(hyperMax);
      var absMax := BlockAAbsMax(scanConfig);
      ghost var hits: seq<Fermion> := [];
      found := [];
      for p := 0 to |BlockAPairs|
        invariant hits == PairListHits(singleVerdict, BlockAPairs[..p], kMax, absMax)
        invariant found == Map(SingleResultOf(base), hits)
        invariant blockAHits == old(blockAHits) + hits
        invariant anomalyFreeModels == old(anomalyFreeModels) + found
        invariant Valid()
      {
        var (su3, su2) := BlockAPairs[p];
        ghost var more := PairHits(singleVerdict, su3, su2, -kMax, kMax + 1, absMax);
        ghost var added := Map(SingleResultOf(base), more);
        PairListHitsSnoc(singleVerdict, BlockAPairs, p, kMax, absMax);
        MapAppend(SingleResultOf(base), hits, more);
        ghost var prev := found;
        found := ScanPair(p, su3, su2, kMax, absMax, found);
        AppendAssociative(old(blockAHits), hits, more);
        AppendAssociative(old(anomalyFreeModels), prev, added);
        hits := hits + more;
      }
      assert BlockAPairs[..|BlockAPairs|] == BlockAPairs;
      PairListHitsFilter(singleVerdict, BlockAPairs, kMax, absMax);
      FilterCongruent(singleVerdict, SingleVerdict(base), BlockACandidates(BlockAPairs, kMax, absMax));
    }

    /** The k loop of Block A for one representation pair. */
    method ScanPair(ghost p: nat, su3: int, su2: int, kMax: int, absMax: real, found: seq<ScanResult>) returns (found': seq<ScanResult>)
      requires Valid() && p < |BlockAPairs| && BlockAPairs[p] == (su3, su2)
      modifies this`blockAHits, this`anomalyFreeModels
      ensures Valid()
      ensures blockAHits == old(blockAHits) + PairHits(singleVerdict, su3, su2, -kMax, kMax + 1, absMax)
      ensures found' == found + Map(SingleResultOf(base), PairHits(singleVerdict, su3, su2, -kMax, kMax + 1, absMax))
      ensures anomalyFreeModels == old(anomalyFreeModels) + Map(SingleResultOf(base), PairHits(singleVerdict, su3, su2, -kMax, kMax + 1, absMax))
    {
      found' := found;
      var k := -kMax;
      ghost var hits: seq<Fermion> := [];
      ghost var rs: seq<ScanResult> := [];
      while k <= kMax
        invariant k == -kMax || -kMax < k <= kMax + 1
        invariant hits == PairHits(singleVerdict, su3, su2, -kMax, k, absMax)
        invariant rs == Map(SingleResultOf(base), hits)
        invariant blockAHits == old(blockAHits) + hits
        invariant found' == found + rs
        invariant anomalyFreeModels == old(anomalyFreeModels) + rs
        invariant Valid()
        decreases kMax - k
      {
        ghost var more := if Abs(Sixth(k)) > absMax then [] else Filter(singleVerdict, ChiralCandidates(su3, su2, k));
        ghost var added := Map(SingleResultOf(base), more);
        assert PairHits(singleVerdict, su3, su2, -kMax, k + 1, absMax) == hits + more;
        MapAppend(SingleResultOf(base), hits, more);
        if Abs(Sixth(k)) <= absMax {
          found' := TestChiralities(p, su3, su2, k, found');
        }
        AppendAssociative(old(blockAHits), hits, more);
        AppendAssociative(found, rs, added);
        AppendAssociative(old(anomalyFreeModels), rs, added);
        hits, rs := hits + more, rs + added;
        k := k + 1;
      }
    }

    /** The chirality loop of Block A: (su3, su2)_{k/6} left-handed, then right-handed. */
    method TestChiralities(ghost p: nat, su3: int, su2: int, k: int, found: seq<ScanResult>) returns (found': seq<ScanResult>)
      requires Valid() && p < |BlockAPairs| && BlockAPairs[p] == (su3, su2)
      modifies this`blockAHits, this`anomalyFreeModels
      ensures Valid()
      ensures blockAHits == old(blockAHits) + Filter(singleVerdict, ChiralCandidates(su3, su2, k))
      ensures found' == found + Map(SingleResultOf(base), Filter(singleVerdict, ChiralCandidates(su3, su2, k)))
      ensures anomalyFreeModels == old(anomalyFreeModels) + Map(SingleResultOf(base), Filter(singleVerdict, ChiralCandidates(su3, su2, k)))
    {
      ghost var chiral := ChiralCandidates(su3, su2, k);
      ghost var hits: seq<Fermion> := [];
      ghost var rs: seq<ScanResult> := [];
      found' := found;
      for j := 0 to |Chiralities|
        invariant hits == Filter(singleVerdict, chiral[..j])
        invariant rs == Map(SingleResultOf(base), hits)
        invariant blockAHits == old(blockAHits) + hits
        invariant found' == found + rs
        invariant anomalyFreeModels == old(anomalyFreeModels) + rs
        invariant Valid()
      {
        ghost var f := Candidate(su3, su2, k, Chiralities[j]);
        ghost var more := if singleVerdict(f) then [f] else [];
        ghost var added := if singleVerdict(f) then [SingleResult(base, f)] else [];
        found' := TestCandidate(su3, su2, k, Chiralities[j], found');
        assert chiral[j] == f by {
          if j == 0 { } else { }
        }
        assert chiral[..j + 1] == chiral[..j] + [f];
        FilterSnoc(singleVerdict, chiral[..j], f);
        MapAppend(SingleResultOf(base), hits, more);
        assert Map(SingleResultOf(base), more) == added;
        AppendAssociative(old(blockAHits), hits, more);
        AppendAssociative(found, rs, added);
        AppendAssociative(old(anomalyFreeModels), rs, added);
        hits, rs := hits + more, rs + added;
      }
      assert chiral[..|Chiralities|] == chiral;
    }

    /**
     * The body of Block A's innermost loop: build F = (su3, su2)_{k/6} with the given chirality,
     * test base + [F], and record F and its result when it passes.
     */
    method TestCandidate(su3: int, su2: int, k: int, chirality: int, found: seq<ScanResult>) returns (found': seq<ScanResult>)
      requires Valid() && (su3, su2) in BlockAPairs && chirality in Chiralities
      modifies this`blockAHits, this`anomalyFreeModels
      ensures Valid()
      ensures var f := Candidate(su3, su2, k, chirality);
              blockAHits == old(blockAHits) + (if singleVerdict(f) then [f] else [])
      ensures var f := Candidate(su3, su2, k, chirality);
              found' == found + (if singleVerdict(f) then [SingleResult(base, f)] else [])
      ensures var f := Candidate(su3, su2, k, chirality);
              anomalyFreeModels == old(anomalyFreeModels) + (if singleVerdict(f) then [SingleResult(base, f)] else [])
    {
      var made := NewFermion(CandidateName(su3, su2, k, chirality), su3, su2, Sixth(k), chirality, 1);
      var f := made.value;
      var allCancel, anomalies := Judge(base + [f]);
      assert allCancel == SinglePasses(base, f);
      found' := found;
      if allCancel {
        blockAHits := blockAHits + [f];
        var r := ScanResult(base + [f], anomalies, true, SingleFermion(f.su3Rep, f.su2Rep, f.hypercharge, f.chirality));
        found' := found' + [r];
        anomalyFreeModels := anomalyFreeModels + [r];
      }
    }

    /**
     * The body shared by Blocks B, B' and C: test base + [f, g] with a fresh checker and, when it
     * passes, record its result under the description `d`.
     */
    method TestPair(f: Fermion, g: Fermion, d: Description, found: seq<ScanResult>) returns (found': seq<ScanResult>)
      modifies this`anomalyFreeModels
      ensures var s := base + [f, g];
              found' == found + (if Passes(s) then [ScanResult(s, Anomalies(s), true, d)] else [])
      ensures var s := base + [f, g];
              anomalyFreeModels == old(anomalyFreeModels) + (if Passes(s) then [ScanResult(s, Anomalies(s), true, d)] else [])
    {
      var passes, anomalies := Judge(base + [f, g]);
      found' := found;
      if passes {
        var r := ScanResult(base + [f, g], anomalies, true, d);
        found' := found' + [r];
        anomalyFreeModels := anomalyFreeModels + [r];
      }
    }

    /**
     * The exhaustive branch of `scan_vector_like_pairs`: for each (Y, su3, su2) of the product of
     * the candidate lists, builds X_L and X_R and tests base + [X_L, X_R]. The constructor's
     * error for an unsupported representation ends the block, after the hits before it have
     * been appended. `ys` is the hypercharge list the block walked.
     */
    method ScanExhaustive(hyperMax: Option<int>) returns (outcome: Result<seq<ScanResult>, FermionError>, ghost ys: seq<real>)
      modifies this`anomalyFreeModels
      ensures NoDuplicates(ys)
      ensures forall y :: y in ys <==> y in RawHyperchargeValues(scanConfig.hypercharge.GetOr(EmptyHypercharge), hyperMax)
      ensures var ts := Triples(ys, Su3Representations(scanConfig), Su2Representations(scanConfig));
              anomalyFreeModels == old(anomalyFreeModels) + ExhaustiveHits(base, ts)
      ensures var ts := Triples(ys, Su3Representations(scanConfig), Su2Representations(scanConfig));
              outcome == if ExhaustiveError(ts).Some? then Failure(ExhaustiveError(ts).value) else Success(ExhaustiveHits(base, ts))
    {
      var hypercharges := GenerateHyperchargeValues(hyperMax);
      ys := hypercharges;
      outcome := TestTriples(Triples(hypercharges, Su3Representations(scanConfig), Su2Representations(scanConfig)));
    }

    /** The `itertools.product` loop of the exhaustive branch, over the triples `ts`. */
    method TestTriples(ts: seq<(real, int, int)>) returns (outcome: Result<seq<ScanResult>, FermionError>)
      modifies this`anomalyFreeModels
      ensures anomalyFreeModels == old(anomalyFreeModels) + ExhaustiveHits(base, ts)
      ensures outcome == if ExhaustiveError(ts).Some? then Failure(ExhaustiveError(ts).value) else Success(ExhaustiveHits(base, ts))
    {
      var found: seq<ScanResult> := [];
      for i := 0 to |ts|
        invariant forall j :: 0 <= j < i ==> TripleSupported(ts[j])
        invariant found == if Passes(base) then Map(VectorLikeResultOf(base), ts[..i]) else []
        invariant anomalyFreeModels == old(anomalyFreeModels) + found
      {
        var (y, su3, su2) := ts[i];
        var left := NewFermion("X_L", su3, su2, y, 1, 1);
        if left.Failure? {
          assert FirstUnsupported(ts) == i;
          outcome := Failure(left.error);
          return;
        }
        var right := NewFermion("X_R", su3, su2, y, -1, 1);
        ghost var prev := found;
        found := TestPair(left.value, right.value, VectorLike(su3, su2, y), found);
        VectorLikeVerdict(base, ts[i]);
        assert ts[..i + 1] == ts[..i] + [ts[i]];
        MapSnoc(VectorLikeResultOf(base), ts[..i], ts[i]);
        AppendAssociative(old(anomalyFreeModels), prev, found[|prev|..]);
      }
      assert ts[..|ts|] == ts;
      outcome := Success(found);
    }

    /**
     * The Block A branch of `scan_vector_like_pairs`: for each hit F, tests base + [F, F̄].
     * Every hit has one generation, so the pair cancels and the verdict is the base's.
     */
    method ScanPartners() returns (found: seq<ScanResult>)
      requires Valid()
      modifies this`anomalyFreeModels
      ensures found == PartnerHits(base, blockAHits)
      ensures anomalyFreeModels == old(anomalyFreeModels) + found
    {
      found := [];
      for i := 0 to |blockAHits|
        invariant found == PartnerHits(base, blockAHits[..i])
        invariant anomalyFreeModels == old(anomalyFreeModels) + found
      {
        var f := blockAHits[i];
        assert ValidFermion(f) && f.generations == 1;
        var made := NewFermion(f.name + "bar", f.su3Rep, f.su2Rep, f.hypercharge, -f.chirality, 1);
        ghost var prev := found;
        found := TestPair(f, made.value, VectorLikeFromBlockA(f.su3Rep, f.su2Rep, f.hypercharge), found);
        PartnerVerdict(base, f);
        assert blockAHits[..i + 1] == blockAHits[..i] + [f];
        MapSnoc(PartnerResultOf(base), blockAHits[..i], f);
        AppendAssociative(old(anomalyFreeModels), prev, found[|prev|..]);
      }
      assert blockAHits[..|blockAHits|] == blockAHits;
    }

    /**
     * Blocks B and B': the Block A branch when `useBlockA` holds and there are Block A hits,
     * the exhaustive branch otherwise (also when `useBlockA` holds but there are no hits).
     */
    method ScanVectorLikePairs(useBlockA: bool, hyperMax: Option<int>) returns (outcome: Result<seq<ScanResult>, FermionError>, ghost ys: seq<real>)
      requires Valid()
      modifies this`anomalyFreeModels
      ensures useBlockA && blockAHits != [] ==>
                outcome == Success(PartnerHits(base, blockAHits)) &&
                anomalyFreeModels == old(anomalyFreeModels) + outcome.value
      ensures !(useBlockA && blockAHits != []) ==>
                NoDuplicates(ys) &&
                (forall y :: y in ys <==> y in RawHyperchargeValues(scanConfig.hypercharge.GetOr(EmptyHypercharge), hyperMax))
      ensures !(useBlockA && blockAHits != []) ==>
                var ts := Triples(ys, Su3Representations(scanConfig), Su2Representations(scanConfig));
                anomalyFreeModels == old(anomalyFreeModels) + ExhaustiveHits(base, ts) &&
                outcome == if ExhaustiveError(ts).Some? then Failure(ExhaustiveError(ts).value) else Success(ExhaustiveHits(base, ts))
    {
      if useBlockA && blockAHits != [] {
        var found := ScanPartners();
        outcome := Success(found);
        ys := [];
      } else {
        outcome, ys := ScanExhaustive(hyperMax);
      }
    }

    /** Block C: tests base + [Hu(Y), Hd(-Y)] for Y = 1/2, 1, 3/2. */
    method ScanChiralPairs() returns (found: seq<ScanResult>)
      modifies this`anomalyFreeModels
      ensures found == HiggsinoHits(base)
      ensures anomalyFreeModels == old(anomalyFreeModels) + found
    {
      found := [];
      for i := 0 to |HiggsinoHypercharges|
        invariant found == if Passes(base) then Map(HiggsinoResultOf(base), HiggsinoHypercharges[..i]) else []
        invariant anomalyFreeModels == old(anomalyFreeModels) + found
      {
        var y := HiggsinoHypercharges[i];
        var up := NewFermion("Hu", 1, 2, y, 1, 1);
        var down := NewFermion("Hd", 1, 2, -y, 1, 1);
        ghost var prev := found;
        found := TestPair(up.value, down.value, ChiralPair(y), found);
        HiggsinoVerdict(base, y);
        assert HiggsinoHypercharges[..i + 1] == HiggsinoHypercharges[..i] + [y];
        MapSnoc(HiggsinoResultOf(base), HiggsinoHypercharges[..i], y);
        AppendAssociative(old(anomalyFreeModels), prev, found[|prev|..]);
      }
      assert HiggsinoHypercharges[..|HiggsinoHypercharges|] == HiggsinoHypercharges;
    }

    /**
     * `run_comprehensive_scan`: Block A, Block B (exhaustive), Block B' when there are Block A
     * hits and `scan_block_a_pairs` is not false, then Block C, each block's results appended
     * to `results`, stopping after A, B or B' once `limit` is truthy and reached. An error from
     * Block B ends the scan; `ys` is the hypercharge list Block B walked.
     */
    method RunComprehensiveScan(hyperMax: Option<int>, limit: Option<int>) returns (outcome: Result<(), FermionError>, ghost ys: seq<real>)
      requires Valid()
      modifies this`results, this`anomalyFreeModels, this`blockAHits
      ensures Valid()
      ensures blockAHits == old(blockAHits) + BlockAHits(base, hyperMax, scanConfig)
      ensures var t := ScanTrace(base, scanConfig, blockAHits, old(|anomalyFreeModels|), hyperMax, limit, ys);
              results == old(results) + t.reported && anomalyFreeModels == old(anomalyFreeModels) + t.appended &&
              outcome == (if t.error.Some? then Failure(t.error.value) else Success(()))
      ensures BlockB in ScanTrace(base, scanConfig, blockAHits, old(|anomalyFreeModels|), hyperMax, limit, ys).ran ==>
                NoDuplicates(ys) && forall y :: y in ys <==> y in RawHyperchargeValues(scanConfig.hypercharge.GetOr(EmptyHypercharge), hyperMax)
    {
      ghost var start, models0, results0 := |anomalyFreeModels|, anomalyFreeModels, results;
      var single := ScanSingleAdditions(hyperMax);
      results := results + single;
      ys := [];
      if LimitReached(limit, |anomalyFreeModels|) {
        outcome := Success(());
        return;
      }
      outcome, ys := RunFromBlockB(hyperMax, limit, start, single, models0, results0);
    }

    /**
     * The scan from Block B on, once Block A has added `a` to the `start` models `models0` and
     * to the results `results0` without reaching the limit.
     */
    method RunFromBlockB(hyperMax: Option<int>, limit: Option<int>, ghost start: nat, ghost a: seq<ScanResult>,
                         ghost models0: seq<ScanResult>, ghost results0: seq<ScanResult>)
      returns (outcome: Result<(), FermionError>, ghost ys: seq<real>)
      requires Valid() && |models0| == start && !LimitReached(limit, start + |a|)
      requires results == results0 + a && anomalyFreeModels == models0 + a
      modifies this`results, this`anomalyFreeModels
      ensures NoDuplicates(ys)
      ensures forall y :: y in ys <==> y in RawHyperchargeValues(scanConfig.hypercharge.GetOr(EmptyHypercharge), hyperMax)
      ensures var ts := Triples(ys, Su3Representations(scanConfig), Su2Representations(scanConfig));
              var t := ComprehensiveRun(limit, start, a, ExhaustiveHits(base, ts), ExhaustiveError(ts),
                                        blockAHits != [] && scanConfig.scanBlockAPairs.GetOr(true),
                                        PartnerHits(base, blockAHits), HiggsinoHits(base));
              results == results0 + t.reported && anomalyFreeModels == models0 + t.appended &&
              outcome == (if t.error.Some? then Failure(t.error.value) else Success(()))
    {
      var vl;
      vl, ys := ScanVectorLikePairs(false, hyperMax);
      ghost var b := ExhaustiveHits(base, Triples(ys, Su3Representations(scanConfig), Su2Representations(scanConfig)));
      AppendAssociative(models0, a, b);
      if vl.Failure? {
        outcome := Failure(vl.error);
        return;
      }
      results := results + vl.value;
      AppendAssociative(results0, a, b);
      outcome := Success(());
      if LimitReached(limit, |anomalyFreeModels|) {
        return;
      }
      RunFromBlockBPrime(hyperMax, limit, start, a, b, models0, results0);
    }

    /**
     * The scan from Block B' on, once Blocks A and B have added `a` and `b` without an error and
     * without reaching the limit: Block B' when enabled, then Block C unless the limit is reached.
     */
    method RunFromBlockBPrime(hyperMax: Option<int>, limit: Option<int>, ghost start: nat, ghost a: seq<ScanResult>,
                              ghost b: seq<ScanResult>, ghost models0: seq<ScanResult>, ghost results0: seq<ScanResult>)
      requires Valid() && |models0| == start
      requires !LimitReached(limit, start + |a|) && !LimitReached(limit, start + |a| + |b|)
      requires results == results0 + (a + b) && anomalyFreeModels == models0 + (a + b)
      modifies this`results, this`anomalyFreeModels
      ensures var t := ComprehensiveRun(limit, start, a, b, None, blockAHits != [] && scanConfig.scanBlockAPairs.GetOr(true),
                                        PartnerHits(base, blockAHits), HiggsinoHits(base));
              results == results0 + t.reported && anomalyFreeModels == models0 + t.appended
    {
      var partners := blockAHits != [] && scanConfig.scanBlockAPairs.GetOr(true);
      ghost var before := a + b;
      if partners {
        var fromA;
        ghost var unused;
        fromA, unused := ScanVectorLikePairs(true, hyperMax);
        results := results + fromA.value;
        AppendAssociative(models0, a + b, fromA.value);
        AppendAssociative(results0, a + b, fromA.value);
        if LimitReached(limit, |anomalyFreeModels|) {
          return;
        }
        before := a + b + fromA.value;
      }
      var chiral := ScanChiralPairs();
      results := results + chiral;
      AppendAssociative(models0, before, chiral);
      AppendAssociative(results0, before, chiral);
    }

    /**
     * The model list of `export_results`: for each anomaly-free model, its description, the
     * signatures of the fermions whose names the base spectrum does not use, and its whole
     * spectrum serialised. Writing the file is not modelled.
     */
    method ExportResults() returns (models: seq<ModelExport>)
      ensures models == Map(ExportModelOf(BaseNames(base)), anomalyFreeModels)
    {
      models := [];
      for i := 0 to |anomalyFreeModels|
        invariant models == Map(ExportModelOf(BaseNames(base)), anomalyFreeModels[..i])
      {
        var model := anomalyFreeModels[i];
        var names := BaseNames(base);
        var newFermions := NewFermions(names, model.spectrum);
        var signature := Signatures(newFermions);
        models := models + [ModelExport(model.description, signature, SpecJson(model.spectrum), true)];
        assert anomalyFreeModels[..i + 1] == anomalyFreeModels[..i] + [model];
        MapSnoc(ExportModelOf(BaseNames(base)), anomalyFreeModels[..i], model);
      }
      assert anomalyFreeModels[..|anomalyFreeModels|] == anomalyFreeModels;
    }
  }

  /** The signature loop of `export_results`: one `(su3,su2,Y,chi)` entry per fermion, in order. */
  method Signatures(fs: seq<Fermion>) returns (signature: seq<Signature>)
    ensures |signature| == |fs|
    ensures forall i :: 0 <= i < |fs| ==> signature[i] == SignatureOf(fs[i])
    ensures signature == Map(SignatureOf, fs)
  {
    signature := [];
    for i := 0 to |fs|
      invariant signature == Map(SignatureOf, fs[..i])
    {
      assert fs[..i + 1] == fs[..i] + [fs[i]];
      MapSnoc(SignatureOf, fs[..i], fs[i]);
      signature := signature + [SignatureOf(fs[i])];
    }
    assert fs[..|fs|] == fs;
    MapIndex(SignatureOf, fs);
  }
}
