/** The records that the collector produces and the renderer consumes. */
module RateTypes {
  import opened Wrappers

  /** A pool name, such as the one `cli` and `build` receive as `pool`. */
  type Pool = string

  /** An asset as the selection prompt names it. */
  type Asset = string

  /**
   * The value the percent prompt resolves with, kept as the prompt gives it:
   * its numeric meaning belongs to the prompt and its translator.
   */
  type Percent = string

  /** The four rate fields `fetchRateStrategyParamsV3` fills; each may be undefined. */
  datatype RateParams = RateParams(
    optimalUtilizationRate: Option<Percent>,
    baseVariableBorrowRate: Option<Percent>,
    variableRateSlope1: Option<Percent>,
    variableRateSlope2: Option<Percent>)

  /** One entry of the collected list: an asset and its rate fields. */
  datatype RateStrategyUpdate = RateStrategyUpdate(asset: Asset, params: RateParams)
}
