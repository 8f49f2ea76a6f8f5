/**
 * `RuleBasedScanner` of `bin/scan_with_rules.py`: a rule's scan configuration, rewritten, drives
 * a fresh scanner through the blocks the rule enables; then the rule's physics-motivated sets are
 * tested, and the models found are counted by kind.
 */
module RuleScan {
  import opened Wrappers
  import opened Text
  import opened Sequences
  import opened Anomaly
  import opened Configuration
  import opened Scanner
  import Rules

  // ---------------------------------------------------------------------------
  // The configuration rewrite
  // ---------------------------------------------------------------------------

  /**
   * The `hypercharge` section after the rewrite of `scan_with_rule`. A section holding
   * `custom_values` is replaced by `{include_standard: False, custom_values}`. Then a given
   * `hyper_max` becomes `k_max` in a section that has the `use_k_over_6` key.
   */
  function RewriteHypercharge(h: HyperchargeConfig, hyperMax: Option<int>): HyperchargeConfig {
    var h' := if h.customValues.Some? then EmptyHypercharge.(includeStandard := Some(false), customValues := h.customValues) else h;
    if hyperMax.Some? && h'.useKOver6.Some? then h'.(kMax := hyperMax) else h'
  }

  /** The configuration the scanner of `scan_with_rule` receives; only the `hypercharge` section changes. */
  function RewriteConfig(config: ScanConfig, hyperMax: Option<int>): ScanConfig {
    if config.hypercharge.Some? then config.(hypercharge := Some(RewriteHypercharge(config.hypercharge.value, hyperMax)))
    else config
  }

  /** The hypercharge section the scanner reads: the rewritten one, `{}` when there is none. */
  function ScannedHypercharge(config: ScanConfig, hyperMax: Option<int>): HyperchargeConfig {
    RewriteConfig(config, hyperMax).hypercharge.GetOr(EmptyHypercharge)
  }

  /**
   * Whatever the rule, the scanner of a rule-driven scan starts its hypercharge list with the
   * k/6 grid for |k| <= k_max and |k/6| <= 2: no translated section sets `use_k_over_6` to
   * false, so the `custom_values` of a rule are never what Block B walks. Only an INTEGER rule
   * adds its integer range; every other rule adds nothing to the grid.
   */
  lemma RuleScansWalkTheGrid(rule: Rules.ScanRule, config: ScanConfig, hyperMax: Option<int>)
    requires Rules.TranslatedFrom(rule, Success(config))
    ensures PrimaryValues(ScannedHypercharge(config, hyperMax), hyperMax) == GridValues(-KMax(hyperMax), KMax(hyperMax) + 1, 2.0)
    ensures ScannedHypercharge(config, hyperMax).range ==
              if rule.hypercharge.Some? && rule.hypercharge.value.kind == Rules.Integer then rule.hypercharge.value.range else None
    ensures ScannedHypercharge(config, hyperMax).denominators ==
              if rule.hypercharge.Some? && rule.hypercharge.value.kind == Rules.Integer then Some([1]) else None
  {
  }

  /**
   * `hyper_max` reaches `k_max` only in a GRID rule's section, the only translated section with
   * `use_k_over_6`; in the others `k_max` stays absent.
   */
  lemma HyperMaxReachesOnlyGridRules(rule: Rules.ScanRule, config: ScanConfig, hyperMax: Option<int>)
    requires Rules.TranslatedFrom(rule, Success(config)) && hyperMax.Some?
    ensures ScannedHypercharge(config, hyperMax).kMax ==
              if rule.hypercharge.Some? && rule.hypercharge.value.kind == Rules.Grid then hyperMax else None
  {
  }

  // ---------------------------------------------------------------------------
  // The blocks of a rule-driven scan
  // ---------------------------------------------------------------------------

  /**
   * The blocks of `scan_with_rule` given each block's output: Block A's results `a`, Block B's
   * hits `b` and error `bError`, and Block C's results `c`. Block A runs when "A" is enabled;
   * Blocks B and C run when enabled and the limit is not reached. An error from Block B ends the
   * scan. The block lists are discarded, so nothing is added to `results`.
   */
  function RuleRun(enabled: seq<string>, limit: Option<int>, a: seq<ScanResult>, b: seq<ScanResult>,
                   bError: Option<FermionError>, c: seq<ScanResult>): RunTrace
  {
    var ranA := if "A" in enabled then [BlockA] else [];
    var afterA := if "A" in enabled then a else [];
    var runB := "B" in enabled && !LimitReached(limit, |afterA|);
    if runB && bError.Some? then RunTrace(ranA + [BlockB], [], afterA + b, bError)
    else
      var ranB := if runB then ranA + [BlockB] else ranA;
      var afterB := if runB then afterA + b else afterA;
      if "C" in enabled && !LimitReached(limit, |afterB|) then RunTrace(ranB + [BlockC], [], afterB + c, None)
      else RunTrace(ranB, [], afterB, None)
  }

  /**
   * Block A runs exactly when it is enabled, whatever the limit. Block B runs exactly when it is
   * enabled and Block A's results leave the limit unreached. Block B' never runs, and no block
   * adds to `results`.
   */
  lemma RuleRunGates(enabled: seq<string>, limit: Option<int>, a: seq<ScanResult>, b: seq<ScanResult>,
                     bError: Option<FermionError>, c: seq<ScanResult>)
    ensures var t := RuleRun(enabled, limit, a, b, bError, c);
            (BlockA in t.ran <==> "A" in enabled) &&
            (BlockB in t.ran <==> "B" in enabled && !LimitReached(limit, if "A" in enabled then |a| else 0)) &&
            BlockBPrime !in t.ran && t.reported == []
  {
  }

  /**
   * Block C runs exactly when it is enabled, Block B raised nothing, and the limit is not
   * reached by what the earlier blocks found. An enabled block that does not run was
   * therefore stopped by the limit or by Block B's error.
   */
  lemma RuleRunGatesBlockC(enabled: seq<string>, limit: Option<int>, a: seq<ScanResult>, b: seq<ScanResult>,
                           bError: Option<FermionError>, c: seq<ScanResult>)
    ensures var t := RuleRun(enabled, limit, a, b, bError, c);
            var before := (if "A" in enabled then |a| else 0) + (if BlockB in t.ran then |b| else 0);
            BlockC in t.ran <==> "C" in enabled && t.error.None? && !LimitReached(limit, before)
    ensures var t := RuleRun(enabled, limit, a, b, bError, c);
            t.error.Some? <==> BlockB in t.ran && bError.Some?
  {
  }

  /**
   * With all three blocks enabled, a rule-driven scan runs the same blocks, finds the same models
   * and raises the same error as `run_comprehensive_scan` without Block B', from an empty scanner.
   */
  lemma RuleRunMatchesComprehensiveRun(enabled: seq<string>, limit: Option<int>, a: seq<ScanResult>, b: seq<ScanResult>,
                                       bError: Option<FermionError>, bPrime: seq<ScanResult>, c: seq<ScanResult>)
    requires "A" in enabled && "B" in enabled && "C" in enabled
    ensures var t, t' := RuleRun(enabled, limit, a, b, bError, c), ComprehensiveRun(limit, 0, a, b, bError, false, bPrime, c);
            t.ran == t'.ran && t.appended == t'.appended && t.error == t'.error
  {
  }

  // ---------------------------------------------------------------------------
  // Physics-motivated sets
  // ---------------------------------------------------------------------------

  /** The result `_test_physics_sets` records for a passing set with 1-based number `index`. */
  function PhysicsResult(base: seq<Fermion>, extra: seq<Fermion>, index: int): ScanResult {
    ScanResult(base + extra, Anomalies(base + extra), true, PhysicsMotivated(index))
  }

  /** The tag `physics_set_{i+1}` of the file written for a passing set. */
  function PhysicsTag(index: int): string {
    "physics_set_" + IntToString(index)
  }

  /** The verdict on the base extended by one physics set. */
  function PhysicsVerdict(base: seq<Fermion>): seq<Fermion> -> bool {
    extra => Passes(base + extra)
  }

  function PhysicsResultOf(base: seq<Fermion>): (seq<Fermion>, nat) -> ScanResult {
    (extra, index) => PhysicsResult(base, extra, index)
  }

  function PhysicsDumpOf(sha1: seq<FermionEntry> -> HexDigest, base: seq<Fermion>): (seq<Fermion>, nat) -> string {
    (extra, index) => ResultPath(sha1, PhysicsTag(index), base + extra)
  }

  /** The results of the sets that pass, in order, each numbered from 1 by its position in `sets`. */
  function PhysicsHits(base: seq<Fermion>, sets: seq<seq<Fermion>>): seq<ScanResult> {
    Numbered(PhysicsVerdict(base), PhysicsResultOf(base), sets)
  }

  /** The files `dump_result` writes for the sets that pass, in order. */
  function PhysicsDumps(sha1: seq<FermionEntry> -> HexDigest, base: seq<Fermion>, sets: seq<seq<Fermion>>): seq<string> {
    Numbered(PhysicsVerdict(base), PhysicsDumpOf(sha1, base), sets)
  }

  /** A physics-set result is recorded exactly for each set i whose extension of the base passes. */
  lemma PhysicsHitsMembers(base: seq<Fermion>, sets: seq<seq<Fermion>>, r: ScanResult)
    ensures r in PhysicsHits(base, sets) <==>
              exists i :: 0 <= i < |sets| && Passes(base + sets[i]) && r == PhysicsResult(base, sets[i], i + 1)
  {
    NumberedMembers(PhysicsVerdict(base), PhysicsResultOf(base), sets, r);
  }

  /** Distinct set numbers give distinct tags. */
  lemma PhysicsTagInjective(i: int, j: int)
    requires PhysicsTag(i) == PhysicsTag(j)
    ensures i == j
  {
    var p := "physics_set_";
    assert IntToString(i) == PhysicsTag(i)[|p|..];
    assert IntToString(j) == PhysicsTag(j)[|p|..];
    ParseIntRoundTrip(i);
    ParseIntRoundTrip(j);
  }

  /**
   * The files written for the physics sets of one scan are pairwise distinct: their tags carry
   * distinct set numbers, so none overwrites another, whatever the digests.
   */
  lemma PhysicsDumpsDistinct(sha1: seq<FermionEntry> -> HexDigest, base: seq<Fermion>, sets: seq<seq<Fermion>>)
    ensures NoDuplicates(PhysicsDumps(sha1, base, sets))
  {
    var record := PhysicsDumpOf(sha1, base);
    forall x: seq<Fermion>, i: nat, y: seq<Fermion>, j: nat | i != j
      ensures record(x, i) != record(y, j)
    {
      if record(x, i) == record(y, j) {
        ResultPathDetermines(sha1, PhysicsTag(i), base + x, PhysicsTag(j), base + y);
        PhysicsTagInjective(i, j);
      }
    }
    NumberedNoDuplicates(PhysicsVerdict(base), record, sets);
  }

  // ---------------------------------------------------------------------------
  // Counting models by kind
  // ---------------------------------------------------------------------------

  /** The four counters of `_categorize_models`, in the order their phrases are tried. */
  datatype Category = SingleFermionModels | VectorLikeModels | ChiralPairModels | PhysicsMotivatedModels

  /**
   * Whether the lower-cased description contains the phrase of `category`: "single fermion",
   * "vector-like", "chiral pair" or "physics-motivated". Each description format starts with
   * its own phrase; the rest of the text holds only numbers, signs, '/', '×', brackets and
   * commas, which can complete no other phrase.
   */
  predicate Mentions(d: Description, category: Category) {
    match category
    case SingleFermionModels => d.SingleFermion?
    case VectorLikeModels => d.VectorLikeFromBlockA? || d.VectorLike?
    case ChiralPairModels => d.ChiralPair?
    case PhysicsMotivatedModels => d.PhysicsMotivated?
  }

  /** The counter a description bumps: the first category whose phrase it mentions. */
  function CategoryOf(d: Description): Option<Category> {
    if Mentions(d, SingleFermionModels) then Some(SingleFermionModels)
    else if Mentions(d, VectorLikeModels) then Some(VectorLikeModels)
    else if Mentions(d, ChiralPairModels) then Some(ChiralPairModels)
    else if Mentions(d, PhysicsMotivatedModels) then Some(PhysicsMotivatedModels)
    else None
  }

  /** Every description the scanner writes mentions exactly one phrase, so it lands in exactly one counter. */
  lemma CategoryOfIsTheOnlyMention(d: Description, category: Category)
    ensures CategoryOf(d).Some?
    ensures Mentions(d, category) <==> CategoryOf(d) == Some(category)
  {
  }

  datatype Counts = Counts(singleFermion: nat, vectorLike: nat, chiralPair: nat, physicsMotivated: nat)

  function Count(counts: Counts, category: Category): nat {
    match category
    case SingleFermionModels => counts.singleFermion
    case VectorLikeModels => counts.vectorLike
    case ChiralPairModels => counts.chiralPair
    case PhysicsMotivatedModels => counts.physicsMotivated
  }

  function Total(counts: Counts): nat {
    counts.singleFermion + counts.vectorLike + counts.chiralPair + counts.physicsMotivated
  }

  /** The counters after one more model whose description lands in `category`, if any. */
  function Bump(counts: Counts, category: Option<Category>): Counts {
    match category
    case None => counts
    case Some(SingleFermionModels) => counts.(singleFermion := counts.singleFermion + 1)
    case Some(VectorLikeModels) => counts.(vectorLike := counts.vectorLike + 1)
    case Some(ChiralPairModels) => counts.(chiralPair := counts.chiralPair + 1)
    case Some(PhysicsMotivatedModels) => counts.(physicsMotivated := counts.physicsMotivated + 1)
  }

  /** The counters after the models, taken in order. */
  function Tally(models: seq<ScanResult>): Counts {
    if models == [] then Counts(0, 0, 0, 0)
    else Bump(Tally(models[..|models| - 1]), CategoryOf(models[|models| - 1].description))
  }

  function InCategory(category: Category): ScanResult -> bool {
    (m: ScanResult) => CategoryOf(m.description) == Some(category)
  }

  /** Each counter holds the number of models whose description lands in its category. */
  lemma {:induction false} TallyCounts(models: seq<ScanResult>, category: Category)
    ensures Count(Tally(models), category) == |Filter(InCategory(category), models)|
  {
    if models != [] {
      TallyCounts(models[..|models| - 1], category);
    }
  }

  /** The counters add up to the number of models: every model is counted once. */
  lemma {:induction false} TallyTotal(models: seq<ScanResult>)
    ensures Total(Tally(models)) == |models|
  {
    if models != [] {
      TallyTotal(models[..|models| - 1]);
      CategoryOfIsTheOnlyMention(models[|models| - 1].description, SingleFermionModels);
    }
  }

  /** Models that are all of one kind are all counted under it. */
  lemma {:induction false} TallyOfOneKind(models: seq<ScanResult>)
    requires forall m :: m in models ==> m.description.PhysicsMotivated?
    ensures Tally(models) == Counts(0, 0, 0, |models|)
  {
    if models != [] {
      TallyOfOneKind(models[..|models| - 1]);
    }
  }

  /** The physics sets that pass are all counted as physics-motivated. */
  lemma PhysicsHitsCounted(base: seq<Fermion>, sets: seq<seq<Fermion>>)
    ensures Tally(PhysicsHits(base, sets)) == Counts(0, 0, 0, |PhysicsHits(base, sets)|)
  {
    forall m | m in PhysicsHits(base, sets)
      ensures m.description.PhysicsMotivated?
    {
      PhysicsHitsMembers(base, sets, m);
    }
    TallyOfOneKind(PhysicsHits(base, sets));
  }

  /** `_categorize_models`. */
  method CategorizeModels(models: seq<ScanResult>) returns (counts: Counts)
    ensures counts == Tally(models)
  {
    counts := Counts(0, 0, 0, 0);
    for i := 0 to |models|
      invariant counts == Tally(models[..i])
    {
      var d := models[i].description;
      if Mentions(d, SingleFermionModels) {
        counts := counts.(singleFermion := counts.singleFermion + 1);
      } else if Mentions(d, VectorLikeModels) {
        counts := counts.(vectorLike := counts.vectorLike + 1);
      } else if Mentions(d, ChiralPairModels) {
        counts := counts.(chiralPair := counts.chiralPair + 1);
      } else if Mentions(d, PhysicsMotivatedModels) {
        counts := counts.(physicsMotivated := counts.physicsMotivated + 1);
      }
      assert models[..i + 1][..i] == models[..i];
    }
    assert models[..|models|] == models;
  }

  // ---------------------------------------------------------------------------
  // The scanner
  // ---------------------------------------------------------------------------

  /** Whether an error of `get_scan_configuration` is a `ValueError`, which `scan_with_rule` catches. */
  predicate IsValueError(e: Rules.RuleError) {
    e.UnknownRule? || e.NotAnInteger?
  }

  /**
   * How `scan_with_rule` ends: `{}` returned for a caught configuration error, another
   * configuration error raised, Block B's error raised, or the scan carried through the blocks
   * and the physics sets with the listed blocks enabled.
   */
  datatype ScanOutcome =
    | ConfigurationCaught(error: Rules.RuleError)
    | ConfigurationRaised(error: Rules.RuleError)
    | BlockRaised(failure: FermionError)
    | Scanned(enabled: seq<string>)

  /** The scan of the blocks for a scanner over `base` and `config`, where Block B walked `ys`. */
  function BlocksTrace(base: seq<Fermion>, config: ScanConfig, hyperMax: Option<int>, limit: Option<int>, ys: seq<real>): RunTrace {
    var ts := Triples(ys, Su3Representations(config), Su2Representations(config));
    RuleRun(config.enabledBlocks.GetOr(Rules.DefaultBlocks), limit,
      Map(SingleResultOf(base), BlockAHits(base, hyperMax, config)),
      ExhaustiveHits(base, ts), ExhaustiveError(ts),
      HiggsinoHits(base))
  }

  /** `RuleBasedScanner` with its rules loaded; reading the template file is not modelled. */
  class RuleBasedScanner {
    const ruleLoader: Rules.RuleLoader

    constructor (ruleLoader: Rules.RuleLoader)
      ensures this.ruleLoader == ruleLoader
    {
      this.ruleLoader := ruleLoader;
    }

    /**
     * `scan_with_rule` up to the statistics it gathers. `base` is the rule's base spectrum,
     * `physicsSets` its physics-motivated sets and `sha1` the digest of the result files.
     * `configured` is what `get_scan_configuration` gave, `ys` the hypercharge list Block B
     * walked and `dumped` the files written for the physics sets.
     */
    method ScanWithRule(ruleName: string, base: seq<Fermion>, physicsSets: seq<seq<Fermion>>,
                        sha1: seq<FermionEntry> -> HexDigest, hyperMax: Option<int>, limit: Option<int>)
      returns (outcome: ScanOutcome, scanner: ParameterSpaceScanner?, dumped: seq<string>,
               ghost configured: Result<ScanConfig, Rules.RuleError>, ghost ys: seq<real>)
      ensures ruleName !in ruleLoader.rules ==> configured == Failure(Rules.UnknownRule(ruleName))
      ensures ruleName in ruleLoader.rules ==> Rules.TranslatedFrom(ruleLoader.rules[ruleName], configured)
      ensures configured.Failure? ==>
                scanner == null && dumped == [] &&
                outcome == if IsValueError(configured.error) then ConfigurationCaught(configured.error) else ConfigurationRaised(configured.error)
      ensures configured.Success? ==>
                scanner != null && fresh(scanner) && scanner.base == base &&
                scanner.scanConfig == RewriteConfig(configured.value, hyperMax)
      ensures configured.Success? && scanner != null ==>
                var t := BlocksTrace(base, scanner.scanConfig, hyperMax, limit, ys);
                var physics := if t.error.None? then PhysicsHits(base, physicsSets) else [];
                scanner.results == physics && scanner.anomalyFreeModels == t.appended + physics &&
                dumped == (if t.error.None? then PhysicsDumps(sha1, base, physicsSets) else []) &&
                outcome == if t.error.Some? then BlockRaised(t.error.value) else Scanned(scanner.scanConfig.enabledBlocks.GetOr(Rules.DefaultBlocks))
      ensures configured.Success? && scanner != null && BlockB in BlocksTrace(base, scanner.scanConfig, hyperMax, limit, ys).ran ==>
                NoDuplicates(ys) && forall y :: y in ys <==> y in RawHyperchargeValues(ScannedHypercharge(configured.value, hyperMax), hyperMax)
    {
      var config := ruleLoader.GetScanConfiguration(ruleName);
      configured := config;
      if config.Failure? {
        dumped, ys := [], [];
        scanner := null;
        if config.error.UnknownRule? || config.error.NotAnInteger? {
          outcome := ConfigurationCaught(config.error);
        } else {
          outcome := ConfigurationRaised(config.error);
        }
        return;
      }
      outcome, scanner, dumped, ys := ScanConfigured(config.value, base, physicsSets, sha1, hyperMax, limit);
    }

    /** `scan_with_rule` from the configuration `get_scan_configuration` returned. */
    method ScanConfigured(config: ScanConfig, base: seq<Fermion>, physicsSets: seq<seq<Fermion>>,
                          sha1: seq<FermionEntry> -> HexDigest, hyperMax: Option<int>, limit: Option<int>)
      returns (outcome: ScanOutcome, scanner: ParameterSpaceScanner, dumped: seq<string>, ghost ys: seq<real>)
      ensures fresh(scanner) && scanner.base == base && scanner.scanConfig == RewriteConfig(config, hyperMax)
      ensures var t := BlocksTrace(base, scanner.scanConfig, hyperMax, limit, ys);
              var physics := if t.error.None? then PhysicsHits(base, physicsSets) else [];
              scanner.results == physics && scanner.anomalyFreeModels == t.appended + physics &&
              dumped == (if t.error.None? then PhysicsDumps(sha1, base, physicsSets) else []) &&
              outcome == if t.error.Some? then BlockRaised(t.error.value) else Scanned(scanner.scanConfig.enabledBlocks.GetOr(Rules.DefaultBlocks))
      ensures BlockB in BlocksTrace(base, scanner.scanConfig, hyperMax, limit, ys).ran ==>
                NoDuplicates(ys) && forall y :: y in ys <==> y in RawHyperchargeValues(scanner.scanConfig.hypercharge.GetOr(EmptyHypercharge), hyperMax)
    {
      dumped := [];
      var scanConfig := config;
      if scanConfig.hypercharge.Some? && scanConfig.hypercharge.value.customValues.Some? {
        var values := scanConfig.hypercharge.value.customValues;
        scanConfig := scanConfig.(hypercharge := Some(EmptyHypercharge.(includeStandard := Some(false), customValues := values)));
      }
      if hyperMax.Some? && scanConfig.hypercharge.Some? && scanConfig.hypercharge.value.useKOver6.Some? {
        scanConfig := scanConfig.(hypercharge := Some(scanConfig.hypercharge.value.(kMax := hyperMax)));
      }
      scanner := new ParameterSpaceScanner(base, scanConfig);
      var enabled := scanConfig.enabledBlocks.GetOr(Rules.DefaultBlocks);
      var error;
      error, ys := RunBlocks(scanner, enabled, hyperMax, limit);
      if error.Some? {
        outcome := BlockRaised(error.value);
        return;
      }
      if physicsSets != [] {
        dumped := TestPhysicsSets(scanner, physicsSets, sha1);
      }
      outcome := Scanned(enabled);
    }

    /** The block statements of `scan_with_rule`, on its fresh scanner. */
    method RunBlocks(scanner: ParameterSpaceScanner, enabled: seq<string>, hyperMax: Option<int>, limit: Option<int>)
      returns (error: Option<FermionError>, ghost ys: seq<real>)
      requires scanner.Valid() && scanner.results == [] && scanner.anomalyFreeModels == [] && scanner.blockAHits == []
      requires enabled == scanner.scanConfig.enabledBlocks.GetOr(Rules.DefaultBlocks)
      modifies scanner`anomalyFreeModels, scanner`blockAHits
      ensures var t := BlocksTrace(scanner.base, scanner.scanConfig, hyperMax, limit, ys);
              scanner.anomalyFreeModels == t.appended && error == t.error
      ensures BlockB in BlocksTrace(scanner.base, scanner.scanConfig, hyperMax, limit, ys).ran ==>
                NoDuplicates(ys) && forall y :: y in ys <==> y in RawHyperchargeValues(scanner.scanConfig.hypercharge.GetOr(EmptyHypercharge), hyperMax)
    {
      ghost var a := Map(SingleResultOf(scanner.base), BlockAHits(scanner.base, hyperMax, scanner.scanConfig));
      if "A" in enabled {
        var single := scanner.ScanSingleAdditions(hyperMax);
      }
      error, ys := RunBlocksFromB(scanner, enabled, hyperMax, limit, a);
    }

    /** The statements for Blocks B and C, once Block A, if enabled, has found `a`. */
    method RunBlocksFromB(scanner: ParameterSpaceScanner, enabled: seq<string>, hyperMax: Option<int>, limit: Option<int>,
                          ghost a: seq<ScanResult>)
      returns (error: Option<FermionError>, ghost ys: seq<real>)
      requires scanner.Valid() && scanner.anomalyFreeModels == (if "A" in enabled then a else [])
      modifies scanner`anomalyFreeModels
      ensures var ts := Triples(ys, Su3Representations(scanner.scanConfig), Su2Representations(scanner.scanConfig));
              var t := RuleRun(enabled, limit, a, ExhaustiveHits(scanner.base, ts), ExhaustiveError(ts), HiggsinoHits(scanner.base));
              scanner.anomalyFreeModels == t.appended && error == t.error
      ensures BlockB in RuleRun(enabled, limit, a, [], None, []).ran ==>
                NoDuplicates(ys) && forall y :: y in ys <==> y in RawHyperchargeValues(scanner.scanConfig.hypercharge.GetOr(EmptyHypercharge), hyperMax)
    {
      ys := [];
      error := None;
      if "B" in enabled && !LimitReached(limit, |scanner.anomalyFreeModels|) {
        var vl;
        vl, ys := scanner.ScanVectorLikePairs(false, hyperMax);
        if vl.Failure? {
          error := Some(vl.error);
          return;
        }
      }
      if "C" in enabled && !LimitReached(limit, |scanner.anomalyFreeModels|) {
        var chiral := scanner.ScanChiralPairs();
      }
    }

    /**
     * `_test_physics_sets`: each set that passes on top of the base is recorded, numbered from
     * 1, in `results` and `anomaly_free_models`, and its file is written.
     */
    method TestPhysicsSets(scanner: ParameterSpaceScanner, sets: seq<seq<Fermion>>, sha1: seq<FermionEntry> -> HexDigest)
      returns (dumped: seq<string>)
      modifies scanner`results, scanner`anomalyFreeModels
      ensures scanner.results == old(scanner.results) + PhysicsHits(scanner.base, sets)
      ensures scanner.anomalyFreeModels == old(scanner.anomalyFreeModels) + PhysicsHits(scanner.base, sets)
      ensures dumped == PhysicsDumps(sha1, scanner.base, sets)
    {
      var base := scanner.base;
      dumped := [];
      ghost var hits: seq<ScanResult> := [];
      for i := 0 to |sets|
        invariant hits == PhysicsHits(base, sets[..i])
        invariant dumped == PhysicsDumps(sha1, base, sets[..i])
        invariant scanner.results == old(scanner.results) + hits
        invariant scanner.anomalyFreeModels == old(scanner.anomalyFreeModels) + hits
      {
        var test := base + sets[i];
        var passes, anomalies := Judge(test);
        assert sets[..i + 1] == sets[..i] + [sets[i]];
        NumberedSnoc(PhysicsVerdict(base), PhysicsResultOf(base), sets[..i], sets[i]);
        NumberedSnoc(PhysicsVerdict(base), PhysicsDumpOf(sha1, base), sets[..i], sets[i]);
        if passes {
          var result := ScanResult(test, anomalies, true, PhysicsMotivated(i + 1));
          scanner.results := scanner.results + [result];
          scanner.anomalyFreeModels := scanner.anomalyFreeModels + [result];
          dumped := dumped + [ResultPath(sha1, PhysicsTag(i + 1), test)];
          AppendAssociative(old(scanner.results), hits, [result]);
          AppendAssociative(old(scanner.anomalyFreeModels), hits, [result]);
          hits := hits + [result];
        }
      }
      assert sets[..|sets|] == sets;
    }
  }
}
