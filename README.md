# Anomaly-cancellation scanner, modelled in Dafny

This project models the exact-arithmetic core of a search for anomaly-free extensions of the
Standard Model. It has four parts.

- **The anomaly engine** (`anomaly_checker.dfy`, module `Anomaly`).
  - A `Fermion` has an SU(3) representation, an SU(2) representation, a hypercharge Y, a
    chirality and a number of generations. Construction rejects bad fields in the order the
    source checks them.
  - The group-theory tables are modelled.
  - The seven anomaly coefficients are sums over the spectrum, each term weighted by
    chirality × generations.
  - `AnomalyChecker` keeps the coefficient cache as a field. `VerifyCancellation` reads the
    cache and collects the coefficients whose absolute value exceeds the tolerance.
- **The staged search** (`param_space_scanner.dfy`, module `Scanner`).
  - `ParameterSpaceScanner` holds `results`, `anomaly_free_models` and `block_a_hits`. Its
    block methods append to these fields from nested loops:
    - Block A adds single fermions;
    - Block B adds vector-like pairs, exhaustively;
    - Block B′ adds conjugate partners of the Block A hits;
    - Block C adds the Higgsino-like chiral pairs.
  - `run_comprehensive_scan` orders the blocks and stops early at a result limit.
  - The model also covers the candidate hypercharge generator, the serialisation hashed by
    `dump_result`, and the selection of new fermions when results are exported.
- **The rule layer** (`yaml_rule_loader.dfy`, module `Rules`).
  - Hypercharge constraints generate values, one constructor per constraint kind.
  - Exclusions are applied, and forbidden representation pairs are checked.
  - Strings are parsed as fractions.
  - A rule is translated into a scanner configuration.
  - A fermion set is validated against a rule, with its violations accumulated.
- **The rule-driven scan** (`scan_with_rules.dfy`, module `RuleScan`).
  - `scan_with_rule` rewrites the configuration, gates blocks A, B and C by the rule and the
    limit, and tests the rule's physics-motivated sets.
  - `_categorize_models` counts the models it finds by kind.

`configuration.dfy` holds the scan configuration shared by the scanner and the rule layer.
`wrappers.dfy`, `text.dfy` and `sequences.dfy` hold `Option`/`Result`, decimal integer text,
and sequence helpers.

How the source's data is represented:

- **Hypercharges** are `fractions.Fraction` in the source and are exact `real`s here.
  `str(Fraction)` cannot be computed from a `real`, so three things change:
  - the serialisation that `dump_result` hashes is a sequence of structured entries whose
    hypercharge field keeps the exact value;
  - descriptions of scan results are a datatype with one constructor per description format;
  - violations and failure entries are datatypes rather than formatted text.
- **The SHA-1 digest** is a function parameter: deterministic and otherwise unknown.
- **Unordered values.** The source builds hypercharge lists through a Python `set`, whose
  order is unspecified. There the model promises only the element set and the absence of
  duplicates.
- **Errors.** A `ValueError` raised by fermion construction inside Block B stops the block
  after partial appends. It is an error outcome that propagates to the callers.
  `scan_with_rule` catches only the `ValueError`s of `get_scan_configuration`. With the
  integer bounds of this model, the only such error is an unknown rule. The source also
  raises a `ValueError` from `int(...)` on string RATIONAL or RANGE bounds, and the
  non-integer-text case of `IsValueError` stands for it, but no modelled input produces it.
- **Rule scans always walk the k/6 grid.** After the rewrite in `scan_with_rule`, no rule
  section sets `use_k_over_6` to false. So every rule-driven scan walks the k/6 grid, and
  `custom_values` never reach the hypercharge generator (`RuleScansWalkTheGrid`).
- **Discarded block lists.** `scan_with_rule` discards the lists its blocks return. Its
  scanner's `results` therefore hold only the physics-set results.

## Model

| member | source | states |
|---|---|---|
| Anomaly.NewFermion | src/anomaly_checker.py:27-55 | Construction succeeds exactly for a valid fermion and then keeps every field. Otherwise the first failing check is reported: SU(3) rep outside {1,3,6,8}, then SU(2) rep outside {1,2,3}, then chirality outside {±1}, then generations below 1. |
| Anomaly.Su2DynkinIndex | src/anomaly_checker.py:72-90 | The SU(2) index equals (n³−n)/12 for every dimension, so the 1→0, 2→1/2, 3→2 table agrees with the general formula. |
| Anomaly.Su2CubicCoeff | src/anomaly_checker.py:93-106 | The SU(2) cubic coefficient is 0 for every representation. |
| Anomaly.Su3DynkinIndex | src/anomaly_checker.py:109-115 | The SU(3) index is 1/2 for the 3, 5/2 for the 6 and 3 for the 8, and 0 for every other representation. |
| Anomaly.Anomalies | src/anomaly_checker.py:133-187 | The coefficient map has the seven entries in source order, each the sum of its summand over the spectrum. |
| Anomaly.AnomalyChecker.constructor | src/anomaly_checker.py:60-68 | A new checker holds the spectrum and an empty cache. |
| Anomaly.AnomalyChecker.ComputeAnomalies | src/anomaly_checker.py:133-187 | Returns the coefficient map of the spectrum and stores it in the cache. |
| Anomaly.AnomalyChecker.VerifyCancellation | src/anomaly_checker.py:189-207 | Fills the cache only when it is empty, so an injected cache is used as is. Reports all-cancel exactly when no cached coefficient exceeds the tolerance in absolute value, which is exactly when the failure list is empty. The failure list holds the exceeding entries in map order. |
| Anomaly.ExceedingEmptyIffCancels | src/anomaly_checker.py:199-207 | No failure entry exists exactly when every coefficient is within tolerance. |
| Anomaly.ExceedingMembers | src/anomaly_checker.py:199-207 | An entry is reported exactly when it is in the map and its absolute value exceeds the tolerance. |
| Anomaly.AllCancelIffEveryCoefficient | src/anomaly_checker.py:189-207 | A spectrum passes exactly when each of the seven coefficients is within tolerance. |
| Anomaly.SameCoefficientsSameVerdict | src/anomaly_checker.py:189-207 | Two spectra with equal coefficients have equal maps and equal verdicts. |
| Anomaly.Su2CubedVanishes | src/anomaly_checker.py:168-172 | The [SU(2)]³ coefficient is 0 for every spectrum. |
| Anomaly.U1EqualsGravityU1 | src/anomaly_checker.py:143-146 | [U(1)_Y] and [Gravity]²[U(1)_Y] are equal for every spectrum. |
| Anomaly.EmptySpectrumCancels | src/anomaly_checker.py:140-184 | Every coefficient of the empty spectrum is 0, so it passes at any non-negative tolerance. |
| Anomaly.CoeffAppend | src/anomaly_checker.py:140-184 | Every coefficient is additive over concatenation of spectra. |
| Anomaly.PairContributionsCancel | src/anomaly_checker.py:140-184 | Two fermions that differ only in chirality (opposite signs) contribute opposite amounts to every coefficient. |
| Anomaly.VectorLikePairPreservesCoeff | bin/pytest_anomaly_suite.py:175-191 | Appending a vector-like pair leaves every coefficient unchanged. |
| Anomaly.VectorLikePairPreservesVerdict | bin/pytest_anomaly_suite.py:175-209 | Appending a vector-like pair leaves the coefficient map and the verdict unchanged. |
| Anomaly.WithGenerations | bin/pytest_anomaly_suite.py:250-270 | Setting every fermion's generations to N keeps the spectrum's length and every other field. |
| Anomaly.GenerationScaling | bin/pytest_anomaly_suite.py:250-270 | With every generations field set to N, each coefficient is N times the one-generation coefficient. |
| Anomaly.OneGenerationUnchanged | bin/pytest_anomaly_suite.py:250-270 | Setting generations to 1 changes nothing in a one-generation spectrum. |
| Anomaly.ContributionScaling | src/anomaly_checker.py:140-184 | One fermion's contribution scales linearly with its generations. |
| Anomaly.StandardModelSpectrum | src/anomaly_checker.py:246-276 | The Standard-Model spectrum consists of valid one-generation fermions. |
| Anomaly.RightNeutrinoContributesNothing | src/anomaly_checker.py:246-276 | ν_R contributes 0 to every coefficient. |
| Anomaly.StandardModelSummandsCancel | src/anomaly_checker.py:246-276 | The five one-generation Standard-Model multiplets contribute a total of 0 to every coefficient. |
| Anomaly.StandardModelIsAnomalyFree | bin/pytest_anomaly_suite.py:96-116 | Every coefficient of the Standard Model is exactly 0, with or without ν_R. |
| Anomaly.StandardModelGenerationsAnomalyFree | bin/pytest_anomaly_suite.py:233-248 | The Standard Model with N generations passes at every non-negative tolerance. |
| Anomaly.BrokenQuarkHyperchargeDetected | bin/pytest_anomaly_suite.py:131-143 | With Q_L's hypercharge set to 1/3, [U(1)_Y] becomes 1, is reported, and the spectrum fails. |
| Anomaly.LoneChargedFermionFails | bin/pytest_anomaly_suite.py:307-315 | A single fermion whose |Y| exceeds the tolerance fails, with [U(1)_Y] reported. |
| Anomaly.LoneU1AtLeastHypercharge | bin/pytest_anomaly_suite.py:317-332 | A single fermion's [U(1)_Y] coefficient is at least |Y| in absolute value. |
| Anomaly.LoneColouredFermionFails | bin/pytest_anomaly_suite.py:307-315 | A single coloured fermion fails at every tolerance below 1/2. |
| Anomaly.InjectedCacheTolerance | bin/pytest_anomaly_suite.py:334-357 | With 10⁻²⁰ injected into the cache, verification fails at tolerance 0 and passes at 10⁻¹⁰. |
| Scanner.GridMembers | src/param_space_scanner.py:125-132 | The grid holds exactly the k/6 with k in range and |k/6| ≤ abs_max. |
| Scanner.FractionsMembers | src/param_space_scanner.py:147-155 | One numerator yields exactly num/den for each non-zero listed denominator. |
| Scanner.RangeMembers | src/param_space_scanner.py:147-155 | The range values are exactly num/den for num in the inclusive range and each non-zero den. |
| Scanner.GridModeValues | src/param_space_scanner.py:117-158 | In grid mode (the default), the values are exactly k/6 with −k_max ≤ k ≤ k_max (k_max = hyper_max or 6) and |k/6| ≤ abs_max (default 2), together with any range values. |
| Scanner.StandardModeValues | src/param_space_scanner.py:135-145 | With use_k_over_6 false, the 13-value standard list is used exactly when include_standard is not false. |
| Scanner.CustomRangeMembers | src/param_space_scanner.py:147-155 | The range section adds num/den for each num in the inclusive range and each non-zero den. |
| Scanner.DefaultRepresentationsSupported | src/param_space_scanner.py:160-176 | The default SU(3) and SU(2) lists are exactly the supported representations. |
| Scanner.PairCandidatesMembers | src/param_space_scanner.py:205-215 | For one (su3, su2) pair, the candidates are exactly both chiralities of each k/6 allowed by the bounds. |
| Scanner.BlockACandidatesMembers | src/param_space_scanner.py:193-215 | Block A's candidates are exactly the 7 pairs × allowed k × {+1, −1}. |
| Scanner.BlockAHitIff | src/param_space_scanner.py:193-239 | A fermion is a Block A hit exactly when it is a candidate and base + [F] passes. |
| Scanner.BlockAHitsValid | src/param_space_scanner.py:193-239 | Every Block A hit is a valid one-generation fermion. |
| Scanner.PairHitsFilter | src/param_space_scanner.py:205-239 | The hits of one representation pair, gathered step by step, are the passing candidates in loop order. |
| Scanner.PairListHitsFilter | src/param_space_scanner.py:193-239 | The hits over all pairs are the passing Block A candidates in loop order. |
| Scanner.RepPairsLength | src/param_space_scanner.py:292-339 | There are |su3 list| × |su2 list| representation pairs. |
| Scanner.RepPairsMembers | src/param_space_scanner.py:292-339 | A pair is tested exactly when each component is in its list. |
| Scanner.TriplesLength | src/param_space_scanner.py:292-339 | Block B tests |hypercharges| × |su3 list| × |su2 list| triples. |
| Scanner.TriplesMembers | src/param_space_scanner.py:292-339 | A triple is tested exactly when each component is in its list. |
| Scanner.FirstUnsupported | src/param_space_scanner.py:292-339 | Locates the first triple whose fermion construction raises: every earlier triple is supported. |
| Scanner.VectorLikeVerdict | src/param_space_scanner.py:292-339 | A triple's X_L/X_R pair leaves the coefficient map and the verdict of the base unchanged. |
| Scanner.DefaultTriplesSupported | src/param_space_scanner.py:160-176 | With the default representation lists, Block B never raises. |
| Scanner.PartnerVerdict | src/param_space_scanner.py:257-291 | base + [F, F̄] passes exactly when the base passes. |
| Scanner.HiggsinoContributionsCancel | src/param_space_scanner.py:354-382 | Hu(Y) and Hd(−Y) contribute opposite amounts to every coefficient. |
| Scanner.HiggsinoVerdict | src/param_space_scanner.py:354-382 | A Block C pair leaves the coefficient map and the verdict unchanged. |
| Scanner.ExhaustiveHitsAllOrNone | src/param_space_scanner.py:292-339 | Block B finds every triple or none, according to whether the base passes. |
| Scanner.ExhaustiveHitsCount | src/param_space_scanner.py:292-339 | Block B finds |Y| × |su3| × |su2| models when the base passes, and 0 otherwise. |
| Scanner.RunStartsWithBlockA | src/param_space_scanner.py:399-432 | The comprehensive scan always runs Block A first and reports its hits. |
| Scanner.UnlimitedRunRunsEveryBlock | src/param_space_scanner.py:399-432 | With limit None or 0 and no error, the blocks run as A, B, B′ (when enabled), C, and `results` gains their outputs in that order. |
| Scanner.RunStopsEarlyOnlyAtLimit | src/param_space_scanner.py:399-432 | Without an error, the scan ends before C only when a truthy limit has been reached. An error comes only from B, run after A with the limit unreached. |
| Scanner.RunReportsWhatItAppends | src/param_space_scanner.py:399-432 | Without an error, `results` gains exactly what `anomaly_free_models` gains. After Block B's error, its partial hits reach `anomaly_free_models` only. |
| Scanner.NegativeLimitRunsOnlyBlockA | src/param_space_scanner.py:399-432 | A negative limit stops the scan after Block A. |
| Scanner.SpecJsonInjective | src/param_space_scanner.py:91-106 | Two spectra serialise equally exactly when they are equal. |
| Scanner.ResultPathDetermines | src/param_space_scanner.py:106-109 | Two result paths are equal exactly when their tags are equal and the first ten characters of the two spectra's digests agree. |
| Scanner.NewFermionsMembers | src/param_space_scanner.py:537-538 | The exported new fermions are exactly the spectrum's fermions whose names are not in the base. |
| Scanner.NewFermionsOfExtension | src/param_space_scanner.py:537-538 | For base + extra with fresh names, the new fermions are exactly `extra`. |
| Scanner.ExportOfExtension | src/param_space_scanner.py:535-562 | Such a model exports its full serialisation and the signatures of `extra`. |
| Scanner.GridLoop | src/param_space_scanner.py:125-132 | The grid loop builds the k/6 grid in increasing k. |
| Scanner.RangeLoop | src/param_space_scanner.py:147-155 | The range loop builds num/den for each num and non-zero den, in loop order. |
| Scanner.Judge | src/param_space_scanner.py:217-232 | A fresh checker on a spectrum gives its verdict and its coefficient map. |
| Scanner.ParameterSpaceScanner.constructor | src/param_space_scanner.py:49-61 | A new scanner holds the base and the configuration, with empty result lists. |
| Scanner.ParameterSpaceScanner.GenerateHyperchargeValues | src/param_space_scanner.py:117-158 | The values are duplicate-free, and they are exactly the grid or standard values together with the range values. |
| Scanner.ParameterSpaceScanner.ScanSingleAdditions | src/param_space_scanner.py:178-242 | `block_a_hits` and `anomaly_free_models` gain exactly the Block A hits, in loop order, and the same results are returned. |
| Scanner.ParameterSpaceScanner.ScanPair | src/param_space_scanner.py:205-239 | The loop over k for one representation pair appends exactly that pair's hits. |
| Scanner.ParameterSpaceScanner.TestChiralities | src/param_space_scanner.py:212-239 | The chirality loop appends exactly the passing chiralities of one k. |
| Scanner.ParameterSpaceScanner.TestCandidate | src/param_space_scanner.py:212-239 | A candidate is appended exactly when base + [F] passes. |
| Scanner.ParameterSpaceScanner.TestPair | src/param_space_scanner.py:319-339 | A pair is appended exactly when base + [F, G] passes. |
| Scanner.ParameterSpaceScanner.ScanExhaustive | src/param_space_scanner.py:292-339 | Block B walks the duplicate-free hypercharge list × representation lists and appends exactly the hits up to the first triple that raises. |
| Scanner.ParameterSpaceScanner.TestTriples | src/param_space_scanner.py:292-339 | The triple loop appends the passing pairs in order, then raises at the first unsupported triple. |
| Scanner.ParameterSpaceScanner.ScanPartners | src/param_space_scanner.py:257-291 | Block B′ appends base + [F, F̄] for each Block A hit that passes. |
| Scanner.ParameterSpaceScanner.ScanVectorLikePairs | src/param_space_scanner.py:244-341 | The partner branch runs exactly when use_block_a holds and there are Block A hits. Otherwise the exhaustive branch runs. |
| Scanner.ParameterSpaceScanner.ScanChiralPairs | src/param_space_scanner.py:343-384 | Block C appends the passing Higgsino pairs for Y = 1/2, 1, 3/2. |
| Scanner.ParameterSpaceScanner.RunComprehensiveScan | src/param_space_scanner.py:386-438 | The scanner's fields end as the comprehensive-run trace says: the block order, the early exit at the limit and Block B's error. |
| Scanner.ParameterSpaceScanner.ExportResults | src/param_space_scanner.py:525-565 | One export per anomaly-free model, each holding its new fermions relative to the base. |
| Scanner.Signatures | src/param_space_scanner.py:540-544 | The signature list has one (su3, su2, Y, chirality) entry per fermion. |
| Rules.RatiosIndex | src/yaml_rule_loader.py:84-92 | The grid rows are k/den for consecutive k, one per index. |
| Rules.RatiosMembers | src/yaml_rule_loader.py:75-92 | A row holds exactly k/den for k in range and within the bounds. |
| Rules.FractionRowsMembers | src/yaml_rule_loader.py:75-82 | The RATIONAL values are exactly num/den for each listed den and each num in lo·den..hi·den. |
| Rules.GridValuesShape | src/yaml_rule_loader.py:84-92 | GRID gives 2·k_max+1 values k/den in increasing k (defaults 6 and 6), with no absolute-value filter. |
| Rules.GridZeroDenominator | src/yaml_rule_loader.py:84-92 | A GRID with denominator 0 raises, unless k_max is negative. |
| Rules.IntegerValuesShape | src/yaml_rule_loader.py:69-73 | INTEGER gives the integers lo..hi in order, or [] without a range. |
| Rules.RationalValuesMembers | src/yaml_rule_loader.py:75-82 | RATIONAL raises exactly when a denominator is 0. Otherwise it holds exactly num/den with num in lo·den..hi·den. |
| Rules.RangeValuesMembers | src/yaml_rule_loader.py:94-104 | RANGE with integer bounds holds exactly num/den for each den and num in bounds. |
| Rules.RatioLoop | src/yaml_rule_loader.py:84-92 | The loop over k appends k/den in order, within the bounds. |
| Rules.FractionLoop | src/yaml_rule_loader.py:75-82 | The RATIONAL loops build the values, or raise at a zero denominator. |
| Rules.GenerateValues | src/yaml_rule_loader.py:61-106 | Per kind: EXACT and SET return their values or []. INTEGER, GRID, RATIONAL and RANGE are as the lemmas above say. |
| Rules.ExclusionsFilter | src/yaml_rule_loader.py:108-112 | Exclusions remove the excluded values and keep the order; with none, they are the identity. |
| Rules.ExclusionsMembers | src/yaml_rule_loader.py:108-112 | A value survives exactly when it is present and not excluded. |
| Rules.AllowedByIff | src/yaml_rule_loader.py:121-127 | A pair is allowed exactly when no forbidden triple matches both su3 and su2. |
| Rules.IsAllowedIff | src/yaml_rule_loader.py:121-127 | `is_allowed` ignores the hypercharge and allowed_values and checks only the forbidden list. |
| Rules.IndexOf | src/yaml_rule_loader.py:172-178 | Finds the first '/' in the text. |
| Rules.ParseIntegerText | src/yaml_rule_loader.py:172-178 | Parsing "n" gives n. |
| Rules.ParseFractionText | src/yaml_rule_loader.py:172-178 | Parsing "a/b" gives a/b, and raises when b is 0. |
| Rules.ParseFractionIgnoresLaterParts | src/yaml_rule_loader.py:172-178 | Text after a second '/' is ignored. |
| Rules.GeneratedMembers | src/yaml_rule_loader.py:61-106 | The generated values are those of the constraint's kind. |
| Rules.CustomValuesOfGenerated | src/yaml_rule_loader.py:359-364 | The custom values are the generated values with exclusions applied. |
| Rules.RepresentationViolationsIff | src/yaml_rule_loader.py:436-456 | There are at most three violations per fermion, and none exactly when every fermion conforms. |
| Rules.NameMapLast | src/yaml_rule_loader.py:462 | The name dictionary holds exactly the names present, each mapped to its last fermion. |
| Rules.PairViolationsIff | src/yaml_rule_loader.py:458-477 | There is at most one violation per parity pair, and none exactly when both names exist with equal su3 and su2. |
| Rules.SymmetryViolationsIff | src/yaml_rule_loader.py:458-477 | PARITY requirements give no violation exactly when all their pairs match. |
| Rules.ValidIff | src/yaml_rule_loader.py:419-479 | The set is valid exactly when every fermion conforms and every parity pair matches. |
| Rules.CheckFermion | src/yaml_rule_loader.py:436-456 | One fermion gets a violation per failed su3, su2 or hypercharge test, or an error when generating the hypercharge values raises. |
| Rules.FermionLoop | src/yaml_rule_loader.py:436-456 | The fermion loop accumulates every fermion's violations in order. |
| Rules.PairLoop | src/yaml_rule_loader.py:463-477 | The pair loop accumulates the parity violations in order. |
| Rules.SymmetryLoop | src/yaml_rule_loader.py:458-477 | The requirement loop checks only PARITY requirements. |
| Rules.RuleLoader.constructor | src/yaml_rule_loader.py:161-168 | The loader holds the given rules. |
| Rules.RuleLoader.GetScanConfiguration | src/yaml_rule_loader.py:327-383 | Raises on an unknown rule. GRID gives {use_k_over_6, k_max}. INTEGER gives {include_standard: False, range, denominators [1]}. Other kinds give custom_values with exclusions applied. enabled_blocks is the rule's blocks, or ['A','B','C'] by default. |
| Rules.RuleLoader.ValidateFermionSet | src/yaml_rule_loader.py:419-479 | Raises on an unknown rule. Otherwise reports (true, []) exactly when there is no violation, and otherwise the violations in check order. |
| RuleScan.RuleScansWalkTheGrid | bin/scan_with_rules.py:80-93 | After the rewrite, a rule scan walks the k/6 grid with k_max = hyper_max or 6, plus an INTEGER rule's range. |
| RuleScan.HyperMaxReachesOnlyGridRules | bin/scan_with_rules.py:89-93 | hyper_max becomes k_max exactly for GRID rules. |
| RuleScan.RuleRunGates | bin/scan_with_rules.py:99-126 | A runs exactly when enabled, whatever the limit. B runs exactly when enabled and the limit is not reached after A. B′ never runs, and `results` gains nothing. |
| RuleScan.RuleRunGatesBlockC | bin/scan_with_rules.py:117-126 | C runs exactly when enabled, B did not raise, and the limit is not reached by A's results (when A ran) plus B's (when B ran). An error occurs exactly when B ran and raised. |
| RuleScan.RuleRunMatchesComprehensiveRun | bin/scan_with_rules.py:110-126 | With A, B and C enabled, the rule scan runs and appends what run_comprehensive_scan does without B′. |
| RuleScan.PhysicsHitsMembers | bin/scan_with_rules.py:186-211 | A physics result is recorded exactly when set i passes on top of the base, and it is numbered i+1. |
| RuleScan.PhysicsTagInjective | bin/scan_with_rules.py:209-211 | Different set numbers give different file tags. |
| RuleScan.PhysicsDumpsDistinct | bin/scan_with_rules.py:186-211 | No two physics sets are written to the same file. |
| RuleScan.CategoryOfIsTheOnlyMention | bin/scan_with_rules.py:213-233 | Every description falls into exactly one category: the first that matches. |
| RuleScan.TallyCounts | bin/scan_with_rules.py:213-233 | Each category's count is the number of models in that category. |
| RuleScan.TallyTotal | bin/scan_with_rules.py:213-233 | The counts sum to the number of models. |
| RuleScan.TallyOfOneKind | bin/scan_with_rules.py:213-233 | Only-physics-motivated models are all counted as physics-motivated. |
| RuleScan.PhysicsHitsCounted | bin/scan_with_rules.py:186-233 | The physics results count only as physics-motivated. |
| RuleScan.CategorizeModels | bin/scan_with_rules.py:213-233 | The counting loop yields the tally. |
| RuleScan.RuleBasedScanner.constructor | bin/scan_with_rules.py:38-51 | The scanner holds the rule loader. |
| RuleScan.RuleBasedScanner.ScanWithRule | bin/scan_with_rules.py:53-132 | A caught configuration error ends with {}. Any other configuration error is raised. Otherwise a fresh scanner over the rewritten configuration runs the gated blocks, then the physics sets when no block raised. Block B walks the duplicate-free generated hypercharge list. |
| RuleScan.RuleBasedScanner.ScanConfigured | bin/scan_with_rules.py:80-132 | Rewrites the configuration, runs the blocks, then the physics sets. |
| RuleScan.RuleBasedScanner.RunBlocks | bin/scan_with_rules.py:99-126 | `anomaly_free_models` ends as the gated run says. |
| RuleScan.RuleBasedScanner.RunBlocksFromB | bin/scan_with_rules.py:117-126 | Blocks B and C run under their gates. |
| RuleScan.RuleBasedScanner.TestPhysicsSets | bin/scan_with_rules.py:186-211 | `results` and `anomaly_free_models` gain the passing sets, numbered from 1, and one file path is written per passing set. |

## Left out

- Floating point:
  - `float(value)` in the tolerance check and `abs(float(Y))` in the scanner become exact comparisons of reals;
  - float RANGE bounds and `limit_denominator(100)` parsing of numeric YAML values are not modelled, and RANGE and RATIONAL bounds are integers.
- String bounds of RATIONAL and RANGE constraints: bounds are integers, so the `ValueError` that `int(...)` raises on such bounds (src/yaml_rule_loader.py:79) is not produced.
- `_parse_fraction`'s int and float inputs: only string inputs are modelled, and only plain integer text (an optional sign and digits) parses as an integer.
- File and directory I/O: `os.makedirs`, the writes of `dump_result` and `export_results`, YAML loading (`_load_rules`, `_parse_rule` and the `_parse_*` helpers), the template read of the `RuleBasedScanner` constructor, and `_get_base_spectrum`. Rules, base spectra and physics sets arrive as parameters.
- The file writes inside Blocks A, B, B′ and C: their paths are modelled only for the physics sets.
- `hashlib.sha1`: it is a parameter.
- Printing, reports and timing: `generate_report`, `print_anomaly_free_models`, `_print_summary`, the timers of `scan_with_rule`, `test_variations`.
- `scan_with_rule` after the physics sets: the results dictionary reads `tested_configurations_count`, which the scanner never defines.
- `get_physics_sets`, `list_rules`, `export_rule`, `create_example_rules`, `batch_scan` and the `main` functions.
- `create_fermion_from_dict`: fermions arrive already built.
- The unreachable code after the `return` in `su3_dynkin_index`.
- `deepcopy` and the mutability of `ScanResult`: results are values.
- Scanner.ParameterSpaceScanner.GenerateHyperchargeValues: promises the element set and no duplicates, not an order, because the source's order comes from a Python `set`.
- Rules.GenerateValues: for RATIONAL and RANGE, promises the element set and no duplicates, not an order, for the same reason.
- Scanner.ParameterSpaceScanner.ScanExhaustive: the hypercharge list it walks is stated by its elements and the absence of duplicates only, as above.
