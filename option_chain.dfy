/** One row of an option-chain file: the `OptionData` record that both the
    enrichment program and the nearest-strike report declare, with the same
    columns in the same order. Floating-point columns are modelled as `real`,
    integer columns as `int`. */
module OptionChain {

  datatype OptionData = OptionData(
    strikePrice: real,
    callLtp: real,
    putLtp: real,
    gammaCall: real,
    gammaPut: real,
    ivCall: real,
    ivPut: real,
    volumeCall: int,
    volumePut: int,
    deltaCall: real,
    deltaPut: real,
    thetaCall: real,
    thetaPut: real,
    rhoCall: real,
    rhoPut: real,
    underlyingLtp: real,
    callOpenInterest: int,
    putOpenInterest: int,
    daysToExpiry: real,
    vegaCall: real,
    vegaPut: real)

  /** The zero value of the record (`OptionData{}`): every column is zero. */
  const Zero: OptionData :=
    OptionData(0.0, 0.0, 0.0, 0.0, 0.0, 0.0, 0.0, 0, 0, 0.0, 0.0,
               0.0, 0.0, 0.0, 0.0, 0.0, 0, 0, 0.0, 0.0, 0.0)

  /** The eight Greek columns that the nearest-strike report adds up. */
  datatype Greek =
    GammaCall | GammaPut | ThetaCall | ThetaPut | DeltaCall | DeltaPut | VegaCall | VegaPut

  function Column(row: OptionData, g: Greek): real {
    match g
    case GammaCall => row.gammaCall
    case GammaPut => row.gammaPut
    case ThetaCall => row.thetaCall
    case ThetaPut => row.thetaPut
    case DeltaCall => row.deltaCall
    case DeltaPut => row.deltaPut
    case VegaCall => row.vegaCall
    case VegaPut => row.vegaPut
  }

  /** Every column other than the eight Greek columns summed by the report is zero. */
  predicate ZeroOutsideGreeks(row: OptionData) {
    row.strikePrice == 0.0 && row.callLtp == 0.0 && row.putLtp == 0.0 &&
    row.ivCall == 0.0 && row.ivPut == 0.0 &&
    row.volumeCall == 0 && row.volumePut == 0 &&
    row.rhoCall == 0.0 && row.rhoPut == 0.0 &&
    row.underlyingLtp == 0.0 &&
    row.callOpenInterest == 0 && row.putOpenInterest == 0 &&
    row.daysToExpiry == 0.0
  }
}
