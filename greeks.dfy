/** Per-row Greek enrichment (goGreek/main.go): `getGreeks` and the row loop
    of `worker`. The Black-Scholes routines of the external pricing library
    are opaque to this model; they are passed in as a `BlackScholes` value of
    uninterpreted functions, so that every property below holds whatever
    those routines compute. */
module Greeks {
  import opened OptionChain

  /** Constants that `getGreeks` hands to the pricing library. */
  const InterestRate: real := 0.0675
  const DividendYield: real := 0.013
  const SeedVolatility: real := 0.15
  const DaysPerYear: real := 365.0

  /** The pricing library's entry points, with the source's argument order:
      impliedVol(isCall, price, underlying, strike, years, seedVol, rate, dividend),
      delta/theta(isCall, underlying, strike, years, vol, rate, dividend),
      gamma/vega(underlying, strike, years, vol, rate, dividend). */
  datatype BlackScholes = BlackScholes(
    impliedVol: (bool, real, real, real, real, real, real, real) -> real,
    delta: (bool, real, real, real, real, real, real) -> real,
    gamma: (real, real, real, real, real, real) -> real,
    vega: (real, real, real, real, real, real) -> real,
    theta: (bool, real, real, real, real, real, real) -> real)

  /** Time to expiry in years, as the library expects it. */
  function Years(row: OptionData): real {
    row.daysToExpiry / DaysPerYear
  }

  /** The five sensitivities of one side (call or put) of a row. */
  datatype Sensitivities = Sensitivities(iv: real, delta: real, gamma: real, vega: real, theta: real)

  /** One side's sensitivities: the side's implied volatility is solved from
      that side's traded price, and every other Greek of the side uses it. */
  function SideGreeks(bs: BlackScholes, isCall: bool, ltp: real, row: OptionData): Sensitivities {
    var u, k, t := row.underlyingLtp, row.strikePrice, Years(row);
    var iv := bs.impliedVol(isCall, ltp, u, k, t, SeedVolatility, InterestRate, DividendYield);
    Sensitivities(
      iv,
      bs.delta(isCall, u, k, t, iv, InterestRate, DividendYield),
      bs.gamma(u, k, t, iv, InterestRate, DividendYield),
      bs.vega(u, k, t, iv, InterestRate, DividendYield),
      bs.theta(isCall, u, k, t, iv, InterestRate, DividendYield))
  }

  /** The columns `getGreeks` reads or must leave alone agree in `a` and `b`:
      everything except the ten Greek columns it writes. */
  predicate AgreeOutsideGreeks(a: OptionData, b: OptionData) {
    a.strikePrice == b.strikePrice && a.callLtp == b.callLtp && a.putLtp == b.putLtp &&
    a.underlyingLtp == b.underlyingLtp && a.daysToExpiry == b.daysToExpiry &&
    a.rhoCall == b.rhoCall && a.rhoPut == b.rhoPut &&
    a.volumeCall == b.volumeCall && a.volumePut == b.volumePut &&
    a.callOpenInterest == b.callOpenInterest && a.putOpenInterest == b.putOpenInterest
  }

  /** The row as `getGreeks` leaves it. */
  function Enriched(row: OptionData, bs: BlackScholes): (r: OptionData)
    // a row without an underlying price is left exactly as it was
    ensures row.underlyingLtp == 0.0 ==> r == row
    // no column outside the ten Greek columns ever changes
    ensures AgreeOutsideGreeks(row, r)
    // implied volatilities: each side from its own traded price and call/put flag
    ensures row.underlyingLtp != 0.0 ==>
      r.ivCall == bs.impliedVol(true, row.callLtp, row.underlyingLtp, row.strikePrice,
                                row.daysToExpiry / 365.0, 0.15, 0.0675, 0.013) &&
      r.ivPut == bs.impliedVol(false, row.putLtp, row.underlyingLtp, row.strikePrice,
                               row.daysToExpiry / 365.0, 0.15, 0.0675, 0.013)
    // call-side Greeks use the call volatility and the call flag
    ensures row.underlyingLtp != 0.0 ==>
      var u, k, t := row.underlyingLtp, row.strikePrice, row.daysToExpiry / 365.0;
      r.deltaCall == bs.delta(true, u, k, t, r.ivCall, 0.0675, 0.013) &&
      r.thetaCall == bs.theta(true, u, k, t, r.ivCall, 0.0675, 0.013) &&
      r.gammaCall == bs.gamma(u, k, t, r.ivCall, 0.0675, 0.013) &&
      r.vegaCall == bs.vega(u, k, t, r.ivCall, 0.0675, 0.013)
    // put-side Greeks use the put volatility and the put flag
    ensures row.underlyingLtp != 0.0 ==>
      var u, k, t := row.underlyingLtp, row.strikePrice, row.daysToExpiry / 365.0;
      r.deltaPut == bs.delta(false, u, k, t, r.ivPut, 0.0675, 0.013) &&
      r.thetaPut == bs.theta(false, u, k, t, r.ivPut, 0.0675, 0.013) &&
      r.gammaPut == bs.gamma(u, k, t, r.ivPut, 0.0675, 0.013) &&
      r.vegaPut == bs.vega(u, k, t, r.ivPut, 0.0675, 0.013)
  {
    if row.underlyingLtp == 0.0 then row
    else
      var call := SideGreeks(bs, true, row.callLtp, row);
      var put := SideGreeks(bs, false, row.putLtp, row);
      row.(thetaCall := call.theta, thetaPut := put.theta,
           ivCall := call.iv, ivPut := put.iv,
           deltaCall := call.delta, deltaPut := put.delta,
           gammaCall := call.gamma, gammaPut := put.gamma,
           vegaCall := call.vega, vegaPut := put.vega)
  }

  /** The ten values depend only on columns enrichment never writes, so
      enriching a row twice gives the same row as enriching it once. */
  lemma EnrichedIdempotent(row: OptionData, bs: BlackScholes)
    ensures Enriched(Enriched(row, bs), bs) == Enriched(row, bs)
  {
  }

  /** Two rows that agree on every column enrichment reads or keeps are
      enriched to the same row. */
  lemma EnrichedDependsOnInputsOnly(a: OptionData, b: OptionData, bs: BlackScholes)
    requires AgreeOutsideGreeks(a, b)
    requires a.underlyingLtp != 0.0
    ensures Enriched(a, bs) == Enriched(b, bs)
  {
  }

  /** A row held by pointer (`*OptionData`): the enrichment writes its fields in place. */
  class OptionRecord {
    var strikePrice: real
    var callLtp: real
    var putLtp: real
    var gammaCall: real
    var gammaPut: real
    var ivCall: real
    var ivPut: real
    var volumeCall: int
    var volumePut: int
    var deltaCall: real
    var deltaPut: real
    var thetaCall: real
    var thetaPut: real
    var rhoCall: real
    var rhoPut: real
    var underlyingLtp: real
    var callOpenInterest: int
    var putOpenInterest: int
    var daysToExpiry: real
    var vegaCall: real
    var vegaPut: real

    /** The record's current contents as a value. */
    function Value(): OptionData
      reads this
    {
      OptionData(strikePrice, callLtp, putLtp, gammaCall, gammaPut, ivCall, ivPut,
                 volumeCall, volumePut, deltaCall, deltaPut, thetaCall, thetaPut,
                 rhoCall, rhoPut, underlyingLtp, callOpenInterest, putOpenInterest,
                 daysToExpiry, vegaCall, vegaPut)
    }

    /** A record loaded with the columns of `v`. */
    constructor (v: OptionData)
      ensures Value() == v
    {
      strikePrice, callLtp, putLtp := v.strikePrice, v.callLtp, v.putLtp;
      gammaCall, gammaPut, ivCall, ivPut := v.gammaCall, v.gammaPut, v.ivCall, v.ivPut;
      volumeCall, volumePut := v.volumeCall, v.volumePut;
      deltaCall, deltaPut, thetaCall, thetaPut := v.deltaCall, v.deltaPut, v.thetaCall, v.thetaPut;
      rhoCall, rhoPut, underlyingLtp := v.rhoCall, v.rhoPut, v.underlyingLtp;
      callOpenInterest, putOpenInterest := v.callOpenInterest, v.putOpenInterest;
      daysToExpiry, vegaCall, vegaPut := v.daysToExpiry, v.vegaCall, v.vegaPut;
    }

    /** The ten assignments that close `getGreeks`, one side's values to
        the call columns and the other's to the put columns. */
    method Store(call: Sensitivities, put: Sensitivities)
      modifies `thetaCall, `thetaPut, `ivCall, `ivPut, `deltaCall, `deltaPut,
               `gammaCall, `gammaPut, `vegaCall, `vegaPut
      ensures ivCall == call.iv && deltaCall == call.delta && gammaCall == call.gamma &&
              vegaCall == call.vega && thetaCall == call.theta
      ensures ivPut == put.iv && deltaPut == put.delta && gammaPut == put.gamma &&
              vegaPut == put.vega && thetaPut == put.theta
    {
      thetaCall := call.theta;
      thetaPut := put.theta;
      ivCall := call.iv;
      ivPut := put.iv;
      deltaCall := call.delta;
      deltaPut := put.delta;
      gammaCall := call.gamma;
      gammaPut := put.gamma;
      vegaCall := call.vega;
      vegaPut := put.vega;
    }
  }

  /** `getGreeks`: the frame names exactly the ten columns it may assign, so
      every other field of the record is untouched by construction. */
  method GetGreeks(data: OptionRecord, bs: BlackScholes)
    modifies data`thetaCall, data`thetaPut, data`ivCall, data`ivPut,
             data`deltaCall, data`deltaPut, data`gammaCall, data`gammaPut,
             data`vegaCall, data`vegaPut
    ensures data.Value() == Enriched(old(data.Value()), bs)
  {
    var strikePrice := data.strikePrice;
    var underlyingPrice := data.underlyingLtp;
    var years := data.daysToExpiry / DaysPerYear;
    var callLtp := data.callLtp;
    var putLtp := data.putLtp;
    if underlyingPrice == 0.0 {
      // the source only logs "Underlying Price is zero" here
      return;
    }
    var ivCall := bs.impliedVol(true, callLtp, underlyingPrice, strikePrice, years,
                                SeedVolatility, InterestRate, DividendYield);
    var ivPut := bs.impliedVol(false, putLtp, underlyingPrice, strikePrice, years,
                               SeedVolatility, InterestRate, DividendYield);

    var callDelta := bs.delta(true, underlyingPrice, strikePrice, years, ivCall, InterestRate, DividendYield);
    var putDelta := bs.delta(false, underlyingPrice, strikePrice, years, ivPut, InterestRate, DividendYield);

    var gammaC := bs.gamma(underlyingPrice, strikePrice, years, ivCall, InterestRate, DividendYield);
    var vegaC := bs.vega(underlyingPrice, strikePrice, years, ivCall, InterestRate, DividendYield);

    var gammaP := bs.gamma(underlyingPrice, strikePrice, years, ivPut, InterestRate, DividendYield);
    var vegaP := bs.vega(underlyingPrice, strikePrice, years, ivPut, InterestRate, DividendYield);

    var callTheta := bs.theta(true, underlyingPrice, strikePrice, years, ivCall, InterestRate, DividendYield);
    var putTheta := bs.theta(false, underlyingPrice, strikePrice, years, ivPut, InterestRate, DividendYield);

    // naming the expected row keeps the proof of the postcondition small
    ghost var target := Enriched(data.Value(), bs);
    data.Store(Sensitivities(ivCall, callDelta, gammaC, vegaC, callTheta),
               Sensitivities(ivPut, putDelta, gammaP, vegaP, putTheta));
  }

  /** The row loop of `worker`: `getGreeks` on every element, left to right.
      The slice holds pointers, so one record may appear more than once;
      enrichment is idempotent, so every element still ends up enriched
      exactly as if it had been processed alone. */
  method EnrichRows(options: array<OptionRecord>, bs: BlackScholes)
    modifies set i | 0 <= i < options.Length :: options[i]
    ensures forall i :: 0 <= i < options.Length ==>
      options[i].Value() == Enriched(old(options[i].Value()), bs)
  {
    for i := 0 to options.Length
      invariant forall j :: 0 <= j < i ==>
        options[j].Value() == Enriched(old(options[j].Value()), bs)
      invariant forall j :: i <= j < options.Length ==>
        options[j].Value() == old(options[j].Value()) ||
        options[j].Value() == Enriched(old(options[j].Value()), bs)
    {
      EnrichedIdempotent(old(options[i].Value()), bs);
      GetGreeks(options[i], bs);
    }
  }
}
