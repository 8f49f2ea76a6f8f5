/**
 * The scanner's configuration dictionary, as built by the rule layer or read from a template.
 * Every `Option` field is a dictionary key: `None` is an absent key.
 */
module Configuration {
  import opened Wrappers

  /** `Fraction(num, den)` as an exact value. */
  function Ratio(num: int, den: int): real
    requires den != 0
  {
    num as real / den as real
  }

  /** The two-element `range` list: an inclusive interval of integers. */
  datatype Bounds = Bounds(lo: int, hi: int)

  /** The `hypercharge` section. */
  datatype HyperchargeConfig = HyperchargeConfig(
    useKOver6: Option<bool>,
    kMax: Option<int>,
    absMax: Option<real>,
    includeStandard: Option<bool>,
    range: Option<Bounds>,
    denominators: Option<seq<int>>,
    customValues: Option<seq<real>>)

  /** The empty dictionary `{}` that `.get('hypercharge', {})` falls back to. */
  const EmptyHypercharge: HyperchargeConfig := HyperchargeConfig(None, None, None, None, None, None, None)

  datatype RuleMetadata = RuleMetadata(name: string, description: string, baseSpectrum: string)

  /**
   * The whole configuration. `su3Values` and `su2Values` are the `values` lists of the
   * `su3_rep` and `su2_rep` sections.
   */
  datatype ScanConfig = ScanConfig(
    hypercharge: Option<HyperchargeConfig>,
    su3Values: Option<seq<int>>,
    su2Values: Option<seq<int>>,
    scanBlockAPairs: Option<bool>,
    enabledBlocks: Option<seq<string>>,
    ruleMetadata: Option<RuleMetadata>)
}
