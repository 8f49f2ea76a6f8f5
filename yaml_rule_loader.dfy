/**
 * The rule layer: hypercharge constraints and the values they generate, representation
 * constraints, the fraction parser, the translation of a rule into a scanner configuration and
 * the validation of a fermion set against a rule. Rules arrive already parsed; every `Option`
 * field is a YAML key or dataclass field that may be absent or `None`.
 */
module Rules {
  import opened Wrappers
  import opened Text
  import opened Sequences
  import opened Anomaly
  import opened Configuration

  // ---------------------------------------------------------------------------
  // Hypercharge constraints
  // ---------------------------------------------------------------------------

  datatype ConstraintType = Exact | Range | Set | Integer | Rational | Grid | Exclude

  /** The `grid_spec` dictionary. */
  datatype GridSpec = GridSpec(kMax: Option<int>, denominator: Option<int>)

  /** `HyperchargeConstraint`; `range` holds integer bounds (float bounds are not modelled). */
  datatype HyperchargeConstraint = HyperchargeConstraint(
    kind: ConstraintType,
    values: Option<seq<real>>,
    range: Option<Bounds>,
    denominators: Option<seq<int>>,
    gridSpec: Option<GridSpec>,
    exclude: Option<seq<real>>)

  /** The exceptions the rule layer raises. */
  datatype RuleError =
    | ZeroDenominator            // ZeroDivisionError from Fraction(n, 0)
    | NotAnInteger(text: string) // ValueError from int(text)
    | UnknownRule(name: string)  // "Unknown rule: ..."
    | MissingGridSpec            // a GRID constraint whose grid_spec is None

  /** `bounds[0] <= y <= bounds[1]`, when there are bounds to respect. */
  predicate Within(bounds: Option<Bounds>, y: real) {
    bounds.None? || (bounds.value.lo as real <= y <= bounds.value.hi as real)
  }

  /** k/den for k = lo, ..., hi - 1 in increasing k, keeping those `Within(bounds, _)`. */
  function Ratios(lo: int, hi: int, den: int, bounds: Option<Bounds>): seq<real>
    requires den != 0
    decreases hi - lo
  {
    if hi <= lo then []
    else Ratios(lo, hi - 1, den, bounds) + (if Within(bounds, Ratio(hi - 1, den)) then [Ratio(hi - 1, den)] else [])
  }

  /** Without bounds, `Ratios` holds hi - lo values, the i-th being (lo + i)/den. */
  lemma {:induction false} RatiosIndex(lo: int, hi: int, den: int)
    requires den != 0 && lo <= hi
    ensures |Ratios(lo, hi, den, None)| == hi - lo
    ensures forall i :: 0 <= i < hi - lo ==> Ratios(lo, hi, den, None)[i] == Ratio(lo + i, den)
    decreases hi - lo
  {
    if hi > lo {
      RatiosIndex(lo, hi - 1, den);
    }
  }

  /** `Ratios` holds exactly the k/den with lo <= k < hi that are within the bounds. */
  lemma {:induction false} RatiosMembers(lo: int, hi: int, den: int, bounds: Option<Bounds>, y: real)
    requires den != 0
    ensures y in Ratios(lo, hi, den, bounds) <==> exists k :: lo <= k < hi && y == Ratio(k, den) && Within(bounds, y)
    decreases hi - lo
  {
    if hi > lo {
      RatiosMembers(lo, hi - 1, den, bounds, y);
      if exists k :: lo <= k < hi && y == Ratio(k, den) && Within(bounds, y) {
        var k :| lo <= k < hi && y == Ratio(k, den) && Within(bounds, y);
        if k == hi - 1 {
          assert y in Ratios(lo, hi, den, bounds);
        } else {
          assert y in Ratios(lo, hi - 1, den, bounds);
        }
      }
    }
  }

  /** The rows of the RATIONAL and RANGE loops: for each den, num/den for num from lo·den to hi·den. */
  function FractionRows(b: Bounds, dens: seq<int>, bounds: Option<Bounds>): seq<real>
    requires 0 !in dens
  {
    if dens == [] then []
    else
      var den := dens[|dens| - 1];
      FractionRows(b, dens[..|dens| - 1], bounds) + Ratios(b.lo * den, b.hi * den + 1, den, bounds)
  }

  /** The RATIONAL and RANGE loops raise on a zero denominator, whose num range is never empty. */
  function RawFractions(b: Bounds, dens: seq<int>, bounds: Option<Bounds>): Result<seq<real>, RuleError> {
    if 0 in dens then Failure(ZeroDenominator) else Success(FractionRows(b, dens, bounds))
  }

  lemma {:induction false} FractionRowsMembers(b: Bounds, dens: seq<int>, bounds: Option<Bounds>, y: real)
    requires 0 !in dens
    ensures y in FractionRows(b, dens, bounds) <==>
              exists den, num :: den in dens && b.lo * den <= num <= b.hi * den && y == Ratio(num, den) && Within(bounds, y)
  {
    if dens != [] {
      var init, den := dens[..|dens| - 1], dens[|dens| - 1];
      assert dens == init + [den];
      FractionRowsMembers(b, init, bounds, y);
      RatiosMembers(b.lo * den, b.hi * den + 1, den, bounds, y);
      if exists d, num :: d in dens && b.lo * d <= num <= b.hi * d && y == Ratio(num, d) && Within(bounds, y) {
        var d, num :| d in dens && b.lo * d <= num <= b.hi * d && y == Ratio(num, d) && Within(bounds, y);
        if d != den {
          assert d in init;
        }
      }
    }
  }

  const RangeDenominators: seq<int> := [1, 2, 3, 6]

  /** `self.denominators or [1, 2, 3, 6]`. */
  function DenominatorsOrDefault(dens: Option<seq<int>>): seq<int> {
    if dens.Some? && dens.value != [] then dens.value else RangeDenominators
  }

  /** `self.grid_spec` is truthy: a dictionary with at least one of its keys. */
  predicate GridSpecGiven(spec: Option<GridSpec>) {
    spec.Some? && (spec.value.kMax.Some? || spec.value.denominator.Some?)
  }

  /** The GRID loop: k/den for k = -k_max..k_max, raising on the first k when den is 0. */
  function GridRaw(kMax: int, den: int): Result<seq<real>, RuleError> {
    if kMax < 0 then Success([])
    else if den == 0 then Failure(ZeroDenominator)
    else Success(Ratios(-kMax, kMax + 1, den, None))
  }

  /**
   * The list `generate_values` builds, before RATIONAL and RANGE pass it through a set, or the
   * exception it raises.
   */
  function RawValues(c: HyperchargeConstraint): Result<seq<real>, RuleError> {
    match c.kind
    case Exact => Success(c.values.GetOr([]))
    case Set => Success(c.values.GetOr([]))
    case Integer =>
      if c.range.Some? then Success(Ratios(c.range.value.lo, c.range.value.hi + 1, 1, None)) else Success([])
    case Rational =>
      if c.range.Some? && c.denominators.Some? && c.denominators.value != [] then
        RawFractions(c.range.value, c.denominators.value, None)
      else Success([])
    case Grid =>
      if GridSpecGiven(c.gridSpec) then GridRaw(c.gridSpec.value.kMax.GetOr(6), c.gridSpec.value.denominator.GetOr(6))
      else Success([])
    case Range =>
      if c.range.Some? then RawFractions(c.range.value, DenominatorsOrDefault(c.denominators), c.range) else Success([])
    case Exclude => Success([])
  }

  /** RATIONAL and RANGE return `list(set(values))`: their order is not modelled. */
  predicate SetValued(kind: ConstraintType) {
    kind == Rational || kind == Range
  }

  /** What `generate_values` may return for `c`: the raw list, or its distinct elements for the set-valued kinds. */
  ghost predicate GeneratedFrom(c: HyperchargeConstraint, r: Result<seq<real>, RuleError>) {
    var raw := RawValues(c);
    if raw.Failure? || !SetValued(c.kind) then r == raw
    else r.Success? && NoDuplicates(r.value) && forall y :: y in r.value <==> y in raw.value
  }

  /**
   * GRID gives k/den for k = -k_max..k_max in increasing order (den > 0): 2·k_max + 1 values,
   * with no absolute-value filter; k_max and den default to 6.
   */
  lemma GridValuesShape(c: HyperchargeConstraint)
    requires c.kind == Grid && GridSpecGiven(c.gridSpec)
    requires c.gridSpec.value.kMax.GetOr(6) >= 0 && c.gridSpec.value.denominator.GetOr(6) > 0
    ensures var kMax, den := c.gridSpec.value.kMax.GetOr(6), c.gridSpec.value.denominator.GetOr(6);
            RawValues(c).Success? && |RawValues(c).value| == 2 * kMax + 1 &&
            (forall i :: 0 <= i <= 2 * kMax ==> RawValues(c).value[i] == Ratio(i - kMax, den)) &&
            (forall i, j :: 0 <= i < j <= 2 * kMax ==> RawValues(c).value[i] < RawValues(c).value[j])
  {
    var kMax, den := c.gridSpec.value.kMax.GetOr(6), c.gridSpec.value.denominator.GetOr(6);
    RatiosIndex(-kMax, kMax + 1, den);
    var vs := RawValues(c).value;
    forall i, j | 0 <= i < j <= 2 * kMax
      ensures vs[i] < vs[j]
    {
      assert (i - kMax) as real < (j - kMax) as real;
    }
  }

  /** GRID with a zero denominator raises, unless k_max < 0 leaves the loop empty. */
  lemma GridZeroDenominator(c: HyperchargeConstraint)
    requires c.kind == Grid && GridSpecGiven(c.gridSpec) && c.gridSpec.value.denominator == Some(0)
    ensures RawValues(c) == if c.gridSpec.value.kMax.GetOr(6) < 0 then Success([]) else Failure(ZeroDenominator)
  {
  }

  /** INTEGER gives the integers lo..hi in increasing order, and nothing without a range. */
  lemma IntegerValuesShape(c: HyperchargeConstraint)
    requires c.kind == Integer
    ensures c.range.None? ==> RawValues(c) == Success([])
    ensures c.range.Some? && c.range.value.lo <= c.range.value.hi + 1 ==>
              var b := c.range.value;
              RawValues(c).Success? && |RawValues(c).value| == b.hi - b.lo + 1 &&
              forall i :: 0 <= i <= b.hi - b.lo ==> RawValues(c).value[i] == (b.lo + i) as real
  {
    if c.range.Some? && c.range.value.lo <= c.range.value.hi + 1 {
      RatiosIndex(c.range.value.lo, c.range.value.hi + 1, 1);
    }
  }

  /**
   * RATIONAL with a range and denominators raises exactly when a denominator is 0; otherwise its
   * values are exactly num/den for each den and each num in lo·den..hi·den.
   */
  lemma RationalValuesMembers(c: HyperchargeConstraint, y: real)
    requires c.kind == Rational && c.range.Some? && c.denominators.Some? && c.denominators.value != []
    ensures RawValues(c).Failure? <==> 0 in c.denominators.value
    ensures RawValues(c).Success? ==>
              (y in RawValues(c).value <==>
                 exists den, num :: den in c.denominators.value &&
                   c.range.value.lo * den <= num <= c.range.value.hi * den && y == Ratio(num, den))
  {
    if 0 !in c.denominators.value {
      FractionRowsMembers(c.range.value, c.denominators.value, None, y);
    }
  }

  /** RANGE with integer bounds keeps, of the same fractions, those between the bounds. */
  lemma RangeValuesMembers(c: HyperchargeConstraint, y: real)
    requires c.kind == Range && c.range.Some? && 0 !in DenominatorsOrDefault(c.denominators)
    ensures RawValues(c).Success?
    ensures y in RawValues(c).value <==>
              (exists den, num :: den in DenominatorsOrDefault(c.denominators) &&
                 c.range.value.lo * den <= num <= c.range.value.hi * den && y == Ratio(num, den)) &&
              c.range.value.lo as real <= y <= c.range.value.hi as real
  {
    FractionRowsMembers(c.range.value, DenominatorsOrDefault(c.denominators), c.range, y);
  }

  /** The loop `for k in range(lo, hi)`: appends k/den, when within the bounds. */
  method RatioLoop(lo: int, hi: int, den: int, bounds: Option<Bounds>) returns (values: seq<real>)
    requires den != 0
    ensures values == Ratios(lo, hi, den, bounds)
  {
    values := [];
    var k := lo;
    while k < hi
      invariant k == lo || lo < k <= hi
      invariant values == Ratios(lo, k, den, bounds)
      decreases hi - k
    {
      var y := Ratio(k, den);
      if Within(bounds, y) {
        values := values + [y];
      }
      k := k + 1;
    }
  }

  /** The nested loops of RATIONAL and RANGE: den over `dens`, then num over lo·den..hi·den. */
  method FractionLoop(b: Bounds, dens: seq<int>, bounds: Option<Bounds>) returns (r: Result<seq<real>, RuleError>)
    ensures r == RawFractions(b, dens, bounds)
  {
    var values := [];
    for j := 0 to |dens|
      invariant 0 !in dens[..j]
      invariant values == FractionRows(b, dens[..j], bounds)
    {
      var den := dens[j];
      if den == 0 {
        r := Failure(ZeroDenominator);
        return;
      }
      var row := RatioLoop(b.lo * den, b.hi * den + 1, den, bounds);
      assert dens[..j + 1][..j] == dens[..j];
      values := values + row;
    }
    assert dens[..|dens|] == dens;
    r := Success(values);
  }

  /** `HyperchargeConstraint.generate_values`. */
  method GenerateValues(c: HyperchargeConstraint) returns (r: Result<seq<real>, RuleError>)
    ensures GeneratedFrom(c, r)
  {
    match c.kind {
      case Exact =>
        r := Success(c.values.GetOr([]));
      case Set =>
        r := Success(c.values.GetOr([]));
      case Integer =>
        r := Success(if c.range.Some? then Ratios(c.range.value.lo, c.range.value.hi + 1, 1, None) else []);
      case Rational =>
        r := Success([]);
        if c.range.Some? && c.denominators.Some? && c.denominators.value != [] {
          r := FractionLoop(c.range.value, c.denominators.value, None);
          if r.Success? {
            var distinct := Dedupe(r.value);
            r := Success(distinct);
          }
        }
      case Grid =>
        r := Success([]);
        if GridSpecGiven(c.gridSpec) {
          var kMax, den := c.gridSpec.value.kMax.GetOr(6), c.gridSpec.value.denominator.GetOr(6);
          if kMax >= 0 && den == 0 {
            r := Failure(ZeroDenominator);
          } else if kMax >= 0 {
            var values := RatioLoop(-kMax, kMax + 1, den, None);
            r := Success(values);
          }
        }
      case Range =>
        r := Success([]);
        if c.range.Some? {
          r := FractionLoop(c.range.value, DenominatorsOrDefault(c.denominators), c.range);
          if r.Success? {
            var distinct := Dedupe(r.value);
            r := Success(distinct);
          }
        }
      case Exclude =>
        r := Success([]);
    }
  }

  /** Whether `y` is among the excluded values; an absent or empty `exclude` excludes nothing. */
  predicate Excluded(exclude: Option<seq<real>>, y: real) {
    exclude.Some? && y in exclude.value
  }

  /** `apply_exclusions`. */
  function ApplyExclusions(exclude: Option<seq<real>>, values: seq<real>): seq<real> {
    if exclude.Some? && exclude.value != [] then Filter((v: real) => v !in exclude.value, values) else values
  }

  /** `apply_exclusions` keeps, in order, exactly the values that are not excluded (identity without exclusions). */
  lemma ExclusionsFilter(exclude: Option<seq<real>>, values: seq<real>)
    ensures ApplyExclusions(exclude, values) == Filter((v: real) => !Excluded(exclude, v), values)
  {
    var keep := (v: real) => !Excluded(exclude, v);
    if exclude.Some? && exclude.value != [] {
      FilterCongruent((v: real) => v !in exclude.value, keep, values);
    } else {
      FilterAllOrNothing(keep, values, true);
    }
  }

  lemma ExclusionsMembers(exclude: Option<seq<real>>, values: seq<real>, y: real)
    ensures y in ApplyExclusions(exclude, values) <==> y in values && !Excluded(exclude, y)
  {
    ExclusionsFilter(exclude, values);
    FilterMembers((v: real) => !Excluded(exclude, v), values, y);
  }

  // ---------------------------------------------------------------------------
  // Representation constraints
  // ---------------------------------------------------------------------------

  /** `RepresentationConstraint`: the allowed values and the (su3, su2, Y) triples forbidden together. */
  datatype RepresentationConstraint = RepresentationConstraint(allowedValues: seq<int>, forbidden: Option<seq<(int, int, real)>>)

  /** The loop of `is_allowed` over the forbidden triples, returning False on the first match. */
  function AllowedBy(forbidden: seq<(int, int, real)>, su3: int, su2: int): bool {
    forbidden == [] || ((forbidden[0].0 != su3 || forbidden[0].1 != su2) && AllowedBy(forbidden[1..], su3, su2))
  }

  /** `is_allowed`. */
  function IsAllowed(rc: RepresentationConstraint, su3: int, su2: int): bool {
    rc.forbidden.None? || AllowedBy(rc.forbidden.value, su3, su2)
  }

  /**
   * A combination is refused exactly when some forbidden triple matches both su3 and su2; the
   * triple's hypercharge and `allowed_values` play no part.
   */
  lemma {:induction false} AllowedByIff(forbidden: seq<(int, int, real)>, su3: int, su2: int)
    ensures AllowedBy(forbidden, su3, su2) <==> forall i :: 0 <= i < |forbidden| ==> !(forbidden[i].0 == su3 && forbidden[i].1 == su2)
  {
    if forbidden != [] {
      AllowedByIff(forbidden[1..], su3, su2);
      assert forall i :: 1 <= i < |forbidden| ==> forbidden[i] == forbidden[1..][i - 1];
    }
  }

  lemma IsAllowedIff(rc: RepresentationConstraint, su3: int, su2: int)
    ensures IsAllowed(rc, su3, su2) <==>
              rc.forbidden.None? || forall i :: 0 <= i < |rc.forbidden.value| ==> !(rc.forbidden.value[i].0 == su3 && rc.forbidden.value[i].1 == su2)
  {
    if rc.forbidden.Some? {
      AllowedByIff(rc.forbidden.value, su3, su2);
    }
  }

  // ---------------------------------------------------------------------------
  // The fraction parser
  // ---------------------------------------------------------------------------

  /** The index of the first `c` in `s`, or |s| when there is none. */
  function IndexOf(s: string, c: char): (i: nat)
    ensures i <= |s|
    ensures i < |s| ==> s[i] == c
    ensures forall k :: 0 <= k < i ==> s[k] != c
  {
    if s == [] then 0 else if s[0] == c then 0 else 1 + IndexOf(s[1..], c)
  }

  /** `int(text)`, raising ValueError where the text is not a plain integer. */
  function ParseInteger(text: string): Result<int, RuleError> {
    var n := ParseInt(text);
    if n.Some? then Success(n.value) else Failure(NotAnInteger(text))
  }

  /**
   * `_parse_fraction` on a string: with a '/', the parts before the first '/' and between it and
   * the next '/' are numerator and denominator (any later parts are ignored), converted left to
   * right before `Fraction` divides; without one, the whole text is an integer.
   */
  function ParseFraction(s: string): Result<real, RuleError> {
    var i := IndexOf(s, '/');
    if i < |s| then
      var rest := s[i + 1..];
      var numerator := ParseInteger(s[..i]);
      if numerator.Failure? then Failure(numerator.error)
      else
        var denominator := ParseInteger(rest[..IndexOf(rest, '/')]);
        if denominator.Failure? then Failure(denominator.error)
        else if denominator.value == 0 then Failure(ZeroDenominator)
        else Success(Ratio(numerator.value, denominator.value))
    else
      var n := ParseInteger(s);
      if n.Failure? then Failure(n.error) else Success(n.value as real)
  }

  lemma NoSlashIndex(i: int)
    ensures IndexOf(IntToString(i), '/') == |IntToString(i)|
  {
  }

  /** `_parse_fraction("n")` is n. */
  lemma ParseIntegerText(n: int)
    ensures ParseFraction(IntToString(n)) == Success(n as real)
  {
    NoSlashIndex(n);
    ParseIntRoundTrip(n);
  }

  /** The first `c` of t + u is at |t| when t has none and u starts with `c`. */
  lemma IndexPrefix(t: string, u: string)
    requires IndexOf(t, '/') == |t| && |u| >= 1 && u[0] == '/'
    ensures IndexOf(t + u, '/') == |t|
  {
    assert forall k :: 0 <= k < |t| ==> (t + u)[k] == t[k];
    assert (t + u)[|t|] == '/';
  }

  /** With no '/' in x, the text x + "/" + y is read as x over the part of y before its first '/'. */
  lemma ParseFractionSplit(x: string, y: string)
    requires IndexOf(x, '/') == |x|
    ensures var numerator, denominator := ParseInteger(x), ParseInteger(y[..IndexOf(y, '/')]);
            ParseFraction(x + "/" + y) ==
              if numerator.Failure? then Failure(numerator.error)
              else if denominator.Failure? then Failure(denominator.error)
              else if denominator.value == 0 then Failure(ZeroDenominator)
              else Success(Ratio(numerator.value, denominator.value))
  {
    var s := x + "/" + y;
    assert s == x + ("/" + y);
    IndexPrefix(x, "/" + y);
    assert s[..|x|] == x;
    assert s[|x| + 1..] == y;
  }

  /** `_parse_fraction("a/b")` is a/b and a zero b raises. */
  lemma ParseFractionText(a: int, b: int)
    ensures ParseFraction(IntToString(a) + "/" + IntToString(b)) == if b == 0 then Failure(ZeroDenominator) else Success(Ratio(a, b))
  {
    ParseIntRoundTrip(a);
    ParseIntRoundTrip(b);
    NoSlashIndex(a);
    NoSlashIndex(b);
    ParseFractionSplit(IntToString(a), IntToString(b));
    assert IntToString(b)[..|IntToString(b)|] == IntToString(b);
  }

  /** Text after a second '/' is ignored: "a/b/anything" parses as "a/b". */
  lemma ParseFractionIgnoresLaterParts(a: int, b: int, tail: string)
    ensures var s := IntToString(a) + "/" + IntToString(b);
            ParseFraction(s + "/" + tail) == ParseFraction(s)
  {
    var x, sb := IntToString(a), IntToString(b);
    NoSlashIndex(a);
    NoSlashIndex(b);
    Regroup(x, sb, tail);
    FirstPart(sb, "");
    FirstPart(sb, tail);
    ParseFractionSplit(x, sb);
    ParseFractionSplit(x, sb + "/" + tail);
  }

  lemma Regroup(x: string, y: string, tail: string)
    ensures x + "/" + y + "/" + tail == x + "/" + (y + "/" + tail)
  {
  }

  /** The part of y + "/" + tail before its first '/' is y, when y has none; likewise for y alone. */
  lemma FirstPart(y: string, tail: string)
    requires IndexOf(y, '/') == |y|
    ensures var t := y + "/" + tail; t[..IndexOf(t, '/')] == y
    ensures y[..IndexOf(y, '/')] == y
  {
    AppendAssociative(y, "/", tail);
    IndexPrefix(y, "/" + tail);
    PrefixOfAppend(y, "/" + tail);
  }

  lemma PrefixOfAppend(y: string, u: string)
    ensures (y + u)[..|y|] == y
  {
  }

  // ---------------------------------------------------------------------------
  // Rules and their translation into a scanner configuration
  // ---------------------------------------------------------------------------

  datatype SymmetryType = Parity | ChargeConjugation | Family | Custodial | Discrete

  /** `SymmetryRequirement`; its `group_action` and `constraints` are never read and are not modelled. */
  datatype SymmetryRequirement = SymmetryRequirement(kind: SymmetryType, pairs: Option<seq<(string, string)>>)

  /**
   * `ScanRule`. `blocks` is the rule's `blocks` key, absent when the rule gives none;
   * physics-motivated sets and metadata are not modelled here.
   */
  datatype ScanRule = ScanRule(
    name: string,
    description: string,
    baseSpectrum: string,
    blocks: Option<seq<string>>,
    hypercharge: Option<HyperchargeConstraint>,
    su3: Option<RepresentationConstraint>,
    su2: Option<RepresentationConstraint>,
    symmetry: seq<SymmetryRequirement>)

  /** The blocks a rule enables when it names none. */
  const DefaultBlocks: seq<string> := ["A", "B", "C"]

  /** A `hypercharge` section holding only `custom_values`. */
  predicate OnlyCustomValues(h: HyperchargeConfig) {
    h == EmptyHypercharge.(customValues := h.customValues) && h.customValues.Some?
  }

  /**
   * The `custom_values` for `c`: the generated values with the excluded ones removed, in the
   * generated order for the listed kinds and without duplicates for RATIONAL and RANGE.
   */
  ghost predicate CustomValuesFor(c: HyperchargeConstraint, vs: seq<real>) {
    RawValues(c).Success? &&
    if SetValued(c.kind) then NoDuplicates(vs) && forall y :: y in vs <==> y in RawValues(c).value && !Excluded(c.exclude, y)
    else vs == ApplyExclusions(c.exclude, RawValues(c).value)
  }

  /**
   * The `hypercharge` section for `c`: GRID becomes the k/6 grid with its k_max, INTEGER the
   * integer range with denominator 1, every other kind its custom values.
   */
  ghost predicate HyperchargeSection(c: HyperchargeConstraint, h: HyperchargeConfig) {
    if c.kind == Grid then
      c.gridSpec.Some? && h == EmptyHypercharge.(useKOver6 := Some(true), kMax := Some(c.gridSpec.value.kMax.GetOr(6)))
    else if c.kind == Integer then
      h == EmptyHypercharge.(includeStandard := Some(false), range := c.range, denominators := Some([1]))
    else
      OnlyCustomValues(h) && CustomValuesFor(c, h.customValues.value)
  }

  /** The sections other than `hypercharge`. */
  predicate OtherSections(rule: ScanRule, config: ScanConfig) {
    config.su3Values == (if rule.su3.Some? then Some(rule.su3.value.allowedValues) else None) &&
    config.su2Values == (if rule.su2.Some? then Some(rule.su2.value.allowedValues) else None) &&
    config.scanBlockAPairs.None? &&
    config.enabledBlocks == Some(rule.blocks.GetOr(DefaultBlocks)) &&
    config.ruleMetadata == Some(RuleMetadata(rule.name, rule.description, rule.baseSpectrum))
  }

  /**
   * `get_scan_configuration` on a known rule: it raises when a GRID constraint has no grid
   * spec or when generating the custom values raises; otherwise every section is as above.
   */
  ghost predicate TranslatedFrom(rule: ScanRule, r: Result<ScanConfig, RuleError>) {
    match rule.hypercharge
    case None => r.Success? && OtherSections(rule, r.value) && r.value.hypercharge.None?
    case Some(c) =>
      if c.kind == Grid && c.gridSpec.None? then r == Failure(MissingGridSpec)
      else if c.kind != Grid && c.kind != Integer && RawValues(c).Failure? then r == Failure(RawValues(c).error)
      else r.Success? && OtherSections(rule, r.value) && r.value.hypercharge.Some? && HyperchargeSection(c, r.value.hypercharge.value)
  }

  /** A successful `generate_values` holds exactly the raw values. */
  lemma GeneratedMembers(c: HyperchargeConstraint, r: Result<seq<real>, RuleError>, y: real)
    requires GeneratedFrom(c, r) && r.Success?
    ensures RawValues(c).Success? && (y in r.value <==> y in RawValues(c).value)
  {
  }

  /** Excluding from the generated values gives the custom values of `c`. */
  lemma CustomValuesOfGenerated(c: HyperchargeConstraint, r: Result<seq<real>, RuleError>)
    requires GeneratedFrom(c, r) && r.Success?
    ensures CustomValuesFor(c, ApplyExclusions(c.exclude, r.value))
  {
    if SetValued(c.kind) {
      ExclusionsFilter(c.exclude, r.value);
      FilterNoDuplicates((v: real) => !Excluded(c.exclude, v), r.value);
      forall y
        ensures y in ApplyExclusions(c.exclude, r.value) <==> y in RawValues(c).value && !Excluded(c.exclude, y)
      {
        ExclusionsMembers(c.exclude, r.value, y);
        GeneratedMembers(c, r, y);
      }
    }
  }

  // ---------------------------------------------------------------------------
  // Validation of a fermion set
  // ---------------------------------------------------------------------------

  /** The violations `validate_fermion_set` reports, one constructor per message. */
  datatype Violation =
    | Su3NotAllowed(fermion: string, su3Rep: int)          // "{name}: SU(3) rep {r} not allowed"
    | Su2NotAllowed(fermion: string, su2Rep: int)          // "{name}: SU(2) rep {r} not allowed"
    | HyperchargeNotAllowed(fermion: string, y: real)      // "{name}: Hypercharge {Y} not allowed"
    | ParityIncomplete(left: string, right: string)        // "Parity pair (l, r) incomplete"
    | ParityMismatch(left: string, right: string)          // "Parity pair (l, r) has mismatched representations"

  /** `y` is among the generated values and not excluded. */
  predicate HyperchargeAllowed(c: HyperchargeConstraint, y: real) {
    RawValues(c).Success? && y in RawValues(c).value && !Excluded(c.exclude, y)
  }

  /** The violations of one fermion, in the order of the three tests. */
  function FermionViolations(rule: ScanRule, f: Fermion): seq<Violation> {
    (if rule.su3.Some? && f.su3Rep !in rule.su3.value.allowedValues then [Su3NotAllowed(f.name, f.su3Rep)] else []) +
    (if rule.su2.Some? && f.su2Rep !in rule.su2.value.allowedValues then [Su2NotAllowed(f.name, f.su2Rep)] else []) +
    (if rule.hypercharge.Some? && !HyperchargeAllowed(rule.hypercharge.value, f.hypercharge)
     then [HyperchargeNotAllowed(f.name, f.hypercharge)] else [])
  }

  /** The violations of the fermion loop, fermion by fermion. */
  function RepresentationViolations(rule: ScanRule, fs: seq<Fermion>): seq<Violation> {
    if fs == [] then [] else RepresentationViolations(rule, fs[..|fs| - 1]) + FermionViolations(rule, fs[|fs| - 1])
  }

  /** A fermion passes the three membership tests that apply. */
  predicate Conforms(rule: ScanRule, f: Fermion) {
    (rule.su3.None? || f.su3Rep in rule.su3.value.allowedValues) &&
    (rule.su2.None? || f.su2Rep in rule.su2.value.allowedValues) &&
    (rule.hypercharge.None? || HyperchargeAllowed(rule.hypercharge.value, f.hypercharge))
  }

  /** Each fermion adds at most three violations, and none exactly when it conforms. */
  lemma {:induction false} RepresentationViolationsIff(rule: ScanRule, fs: seq<Fermion>)
    ensures |RepresentationViolations(rule, fs)| <= 3 * |fs|
    ensures RepresentationViolations(rule, fs) == [] <==> forall i :: 0 <= i < |fs| ==> Conforms(rule, fs[i])
  {
    if fs != [] {
      var init := fs[..|fs| - 1];
      RepresentationViolationsIff(rule, init);
      assert forall i :: 0 <= i < |init| ==> init[i] == fs[i];
    }
  }

  /** `fermion_dict = {f.name: f for f in fermions}`: a later fermion replaces an earlier one of the same name. */
  function NameMap(fs: seq<Fermion>): map<string, Fermion> {
    if fs == [] then map[] else NameMap(fs[..|fs| - 1])[fs[|fs| - 1].name := fs[|fs| - 1]]
  }

  /** A name is in the dictionary exactly when some fermion has it, and maps to the last such fermion. */
  lemma {:induction false} NameMapLast(fs: seq<Fermion>, n: string)
    ensures n in NameMap(fs) <==> exists i :: 0 <= i < |fs| && fs[i].name == n
    ensures forall i :: 0 <= i < |fs| && fs[i].name == n && (forall j :: i < j < |fs| ==> fs[j].name != n) ==>
              n in NameMap(fs) && NameMap(fs)[n] == fs[i]
  {
    if fs != [] {
      var init := fs[..|fs| - 1];
      NameMapLast(init, n);
      assert forall i :: 0 <= i < |init| ==> init[i] == fs[i];
    }
  }

  /** The check of one parity pair against the name dictionary. */
  function PairViolation(pair: (string, string), names: map<string, Fermion>): seq<Violation> {
    if pair.0 !in names || pair.1 !in names then [ParityIncomplete(pair.0, pair.1)]
    else if names[pair.0].su3Rep != names[pair.1].su3Rep || names[pair.0].su2Rep != names[pair.1].su2Rep then
      [ParityMismatch(pair.0, pair.1)]
    else []
  }

  function PairViolations(pairs: seq<(string, string)>, names: map<string, Fermion>): seq<Violation> {
    if pairs == [] then [] else PairViolations(pairs[..|pairs| - 1], names) + PairViolation(pairs[|pairs| - 1], names)
  }

  /** Only PARITY requirements with a non-empty pair list are checked. */
  predicate ChecksParity(req: SymmetryRequirement) {
    req.kind == Parity && req.pairs.Some? && req.pairs.value != []
  }

  function SymmetryViolations(reqs: seq<SymmetryRequirement>, fs: seq<Fermion>): seq<Violation> {
    if reqs == [] then []
    else
      var req := reqs[|reqs| - 1];
      SymmetryViolations(reqs[..|reqs| - 1], fs) + (if ChecksParity(req) then PairViolations(req.pairs.value, NameMap(fs)) else [])
  }

  /** Both fermions of the pair are present and share their SU(3) and SU(2) representations. */
  predicate PairMatched(pair: (string, string), names: map<string, Fermion>) {
    pair.0 in names && pair.1 in names &&
    names[pair.0].su3Rep == names[pair.1].su3Rep && names[pair.0].su2Rep == names[pair.1].su2Rep
  }

  /** Each pair adds at most one violation, and none exactly when it is matched. */
  lemma {:induction false} PairViolationsIff(pairs: seq<(string, string)>, names: map<string, Fermion>)
    ensures |PairViolations(pairs, names)| <= |pairs|
    ensures PairViolations(pairs, names) == [] <==> forall k :: 0 <= k < |pairs| ==> PairMatched(pairs[k], names)
  {
    if pairs != [] {
      var init := pairs[..|pairs| - 1];
      PairViolationsIff(init, names);
      assert forall k :: 0 <= k < |init| ==> init[k] == pairs[k];
    }
  }

  lemma {:induction false} SymmetryViolationsIff(reqs: seq<SymmetryRequirement>, fs: seq<Fermion>)
    ensures SymmetryViolations(reqs, fs) == [] <==>
              forall k :: 0 <= k < |reqs| && ChecksParity(reqs[k]) ==> PairViolations(reqs[k].pairs.value, NameMap(fs)) == []
  {
    if reqs != [] {
      var init := reqs[..|reqs| - 1];
      SymmetryViolationsIff(init, fs);
      assert forall k :: 0 <= k < |init| ==> init[k] == reqs[k];
    }
  }

  /** Every violation `validate_fermion_set` reports for `fs`, in its order. */
  function Violations(rule: ScanRule, fs: seq<Fermion>): seq<Violation> {
    RepresentationViolations(rule, fs) + SymmetryViolations(rule.symmetry, fs)
  }

  /** The exception validation raises: that of `generate_values`, met at the first fermion. */
  function ValidationError(rule: ScanRule, fs: seq<Fermion>): Option<RuleError> {
    if fs != [] && rule.hypercharge.Some? && RawValues(rule.hypercharge.value).Failure? then
      Some(RawValues(rule.hypercharge.value).error)
    else None
  }

  /**
   * A fermion set is valid exactly when every fermion conforms and every checked parity pair is
   * present with matching representations.
   */
  lemma ValidIff(rule: ScanRule, fs: seq<Fermion>)
    ensures Violations(rule, fs) == [] <==>
              (forall i :: 0 <= i < |fs| ==> Conforms(rule, fs[i])) &&
              (forall k, p :: 0 <= k < |rule.symmetry| && ChecksParity(rule.symmetry[k]) && p in rule.symmetry[k].pairs.value ==>
                 PairMatched(p, NameMap(fs)))
  {
    RepresentationViolationsIff(rule, fs);
    SymmetryViolationsIff(rule.symmetry, fs);
    forall k | 0 <= k < |rule.symmetry| && ChecksParity(rule.symmetry[k]) {
      PairViolationsIff(rule.symmetry[k].pairs.value, NameMap(fs));
    }
  }

  /** The tests of one fermion, calling `generate_values` afresh as the loop does. */
  method CheckFermion(rule: ScanRule, f: Fermion) returns (r: Result<seq<Violation>, RuleError>)
    ensures rule.hypercharge.Some? && RawValues(rule.hypercharge.value).Failure? ==>
              r == Failure(RawValues(rule.hypercharge.value).error)
    ensures !(rule.hypercharge.Some? && RawValues(rule.hypercharge.value).Failure?) ==> r == Success(FermionViolations(rule, f))
  {
    var su3Part: seq<Violation> := [];
    if rule.su3.Some? && f.su3Rep !in rule.su3.value.allowedValues {
      su3Part := [Su3NotAllowed(f.name, f.su3Rep)];
    }
    var su2Part: seq<Violation> := [];
    if rule.su2.Some? && f.su2Rep !in rule.su2.value.allowedValues {
      su2Part := [Su2NotAllowed(f.name, f.su2Rep)];
    }
    var hyperPart: seq<Violation> := [];
    if rule.hypercharge.Some? {
      var c := rule.hypercharge.value;
      var allowed := GenerateValues(c);
      if allowed.Failure? {
        r := Failure(allowed.error);
        return;
      }
      var kept := ApplyExclusions(c.exclude, allowed.value);
      ExclusionsMembers(c.exclude, allowed.value, f.hypercharge);
      GeneratedMembers(c, allowed, f.hypercharge);
      if f.hypercharge !in kept {
        hyperPart := [HyperchargeNotAllowed(f.name, f.hypercharge)];
      }
    }
    r := Success(su3Part + su2Part + hyperPart);
  }

  /** The fermion loop of `validate_fermion_set`. */
  method FermionLoop(rule: ScanRule, fs: seq<Fermion>) returns (r: Result<seq<Violation>, RuleError>)
    ensures r == if ValidationError(rule, fs).Some? then Failure(ValidationError(rule, fs).value) else Success(RepresentationViolations(rule, fs))
  {
    var found: seq<Violation> := [];
    for i := 0 to |fs|
      invariant i > 0 ==> ValidationError(rule, fs).None?
      invariant found == RepresentationViolations(rule, fs[..i])
    {
      var checked := CheckFermion(rule, fs[i]);
      if checked.Failure? {
        r := Failure(checked.error);
        return;
      }
      assert fs[..i + 1][..i] == fs[..i];
      found := found + checked.value;
    }
    assert fs[..|fs|] == fs;
    r := Success(found);
  }

  /** The pair loop of one PARITY requirement. */
  method PairLoop(pairs: seq<(string, string)>, names: map<string, Fermion>) returns (found: seq<Violation>)
    ensures found == PairViolations(pairs, names)
  {
    found := [];
    for k := 0 to |pairs|
      invariant found == PairViolations(pairs[..k], names)
    {
      var (left, right) := pairs[k];
      assert pairs[..k + 1][..k] == pairs[..k];
      if left !in names || right !in names {
        found := found + [ParityIncomplete(left, right)];
      } else if names[left].su3Rep != names[right].su3Rep || names[left].su2Rep != names[right].su2Rep {
        found := found + [ParityMismatch(left, right)];
      }
    }
    assert pairs[..|pairs|] == pairs;
  }

  /** The symmetry loop of `validate_fermion_set`. */
  method SymmetryLoop(reqs: seq<SymmetryRequirement>, fs: seq<Fermion>) returns (found: seq<Violation>)
    ensures found == SymmetryViolations(reqs, fs)
  {
    found := [];
    for k := 0 to |reqs|
      invariant found == SymmetryViolations(reqs[..k], fs)
    {
      var req := reqs[k];
      assert reqs[..k + 1][..k] == reqs[..k];
      if req.kind == Parity && req.pairs.Some? && req.pairs.value != [] {
        var more := PairLoop(req.pairs.value, NameMap(fs));
        found := found + more;
      }
    }
    assert reqs[..|reqs|] == reqs;
  }

  /** `YAMLRuleLoader` once its rules are loaded; loading the YAML file is not modelled. */
  class RuleLoader {
    const rules: map<string, ScanRule>

    constructor (rules: map<string, ScanRule>)
      ensures this.rules == rules
    {
      this.rules := rules;
    }

    /** `get_scan_configuration`. */
    method GetScanConfiguration(ruleName: string) returns (r: Result<ScanConfig, RuleError>)
      ensures ruleName !in rules ==> r == Failure(UnknownRule(ruleName))
      ensures ruleName in rules ==> TranslatedFrom(rules[ruleName], r)
    {
      if ruleName !in rules {
        return Failure(UnknownRule(ruleName));
      }
      var rule := rules[ruleName];
      var hypercharge: Option<HyperchargeConfig> := None;
      if rule.hypercharge.Some? {
        var c := rule.hypercharge.value;
        if c.kind == Grid {
          if c.gridSpec.None? {
            return Failure(MissingGridSpec);
          }
          hypercharge := Some(EmptyHypercharge.(useKOver6 := Some(true), kMax := Some(c.gridSpec.value.kMax.GetOr(6))));
        } else if c.kind == Integer {
          hypercharge := Some(EmptyHypercharge.(includeStandard := Some(false), range := c.range, denominators := Some([1])));
        } else {
          var values := GenerateValues(c);
          if values.Failure? {
            return Failure(values.error);
          }
          var kept := ApplyExclusions(c.exclude, values.value);
          CustomValuesOfGenerated(c, values);
          hypercharge := Some(EmptyHypercharge.(customValues := Some(kept)));
        }
      }
      var su3Values := if rule.su3.Some? then Some(rule.su3.value.allowedValues) else None;
      var su2Values := if rule.su2.Some? then Some(rule.su2.value.allowedValues) else None;
      var metadata := RuleMetadata(rule.name, rule.description, rule.baseSpectrum);
      r := Success(ScanConfig(hypercharge, su3Values, su2Values, None, Some(rule.blocks.GetOr(DefaultBlocks)), Some(metadata)));
    }

    /** `validate_fermion_set`: `(true, [])` exactly when there is no violation. */
    method ValidateFermionSet(fermions: seq<Fermion>, ruleName: string) returns (r: Result<(bool, seq<Violation>), RuleError>)
      ensures ruleName !in rules ==> r == Failure(UnknownRule(ruleName))
      ensures ruleName in rules ==>
                var rule := rules[ruleName];
                r == if ValidationError(rule, fermions).Some? then Failure(ValidationError(rule, fermions).value)
                     else Success((Violations(rule, fermions) == [], Violations(rule, fermions)))
    {
      if ruleName !in rules {
        return Failure(UnknownRule(ruleName));
      }
      var rule := rules[ruleName];
      var found := FermionLoop(rule, fermions);
      if found.Failure? {
        return Failure(found.error);
      }
      var symmetric := SymmetryLoop(rule.symmetry, fermions);
      var violations := found.value + symmetric;
      r := Success((|violations| == 0, violations));
    }
  }
}
