/** The nearest-strike report (goGreek/processForPPO/main.go): the running
    maximum of the underlying price, the first row whose strike lies within
    50 of a centre price, the window of up to nine rows around it, and the
    column sums of the eight Greek columns over that window. Rows are values
    (`[]OptionData`): every operation reads copies and never writes to its
    input. */
module NearestStrike {
  import opened Wrappers
  import opened OptionChain

  /** Half-width of the strike band around the centre price. */
  const StrikeBand: real := 50.0
  /** Rows taken on each side of the nearest row. */
  const Radius: nat := 4

  /** Why `processCSV` cannot produce its result. */
  datatype ReportError =
    | NilDereference  // no strike within the band: `nearestRow` stays nil and is dereferenced

  // ---------------------------------------------------------------------
  // Running maximum of the underlying price
  // ---------------------------------------------------------------------

  /** The maximum the scan computes over `rows`, starting from 0. */
  function MaxUnderlying(rows: seq<OptionData>): (m: real)
    ensures m >= 0.0
    ensures forall i :: 0 <= i < |rows| ==> rows[i].underlyingLtp <= m
    ensures (exists i :: 0 <= i < |rows| && rows[i].underlyingLtp > 0.0) ==>
              exists i :: 0 <= i < |rows| && rows[i].underlyingLtp == m
    ensures (forall i :: 0 <= i < |rows| ==> rows[i].underlyingLtp <= 0.0) ==> m == 0.0
  {
    if rows == [] then 0.0
    else
      var m := MaxUnderlying(rows[..|rows| - 1]);
      var last := rows[|rows| - 1].underlyingLtp;
      assert forall i :: 0 <= i < |rows| - 1 ==> rows[..|rows| - 1][i] == rows[i];
      if last > m then last else m
  }

  /** The loop of `processCSV` that finds `maxUnderlyingLTP`. */
  method ScanMaxUnderlying(rows: seq<OptionData>) returns (maxUnderlyingLtp: real)
    ensures maxUnderlyingLtp == MaxUnderlying(rows)
  {
    maxUnderlyingLtp := 0.0;
    for i := 0 to |rows|
      invariant maxUnderlyingLtp == MaxUnderlying(rows[..i])
    {
      assert rows[..i + 1][..i] == rows[..i];
      if rows[i].underlyingLtp > maxUnderlyingLtp {
        maxUnderlyingLtp := rows[i].underlyingLtp;
      }
    }
    assert rows[..|rows|] == rows;
  }

  // ---------------------------------------------------------------------
  // First match
  // ---------------------------------------------------------------------

  /** The strike lies in the closed band [centre - 50, centre + 50]. */
  predicate NearStrike(row: OptionData, centre: real) {
    row.strikePrice >= centre - StrikeBand && row.strikePrice <= centre + StrikeBand
  }

  /** The index of the first row satisfying `p`, if any. */
  function FirstMatch(rows: seq<OptionData>, p: OptionData -> bool): (r: Option<nat>)
    ensures r.Some? ==> r.value < |rows| && p(rows[r.value])
    ensures r.Some? ==> forall j :: 0 <= j < r.value ==> !p(rows[j])
    ensures r.None? <==> forall j :: 0 <= j < |rows| ==> !p(rows[j])
  {
    if rows == [] then None
    else if p(rows[0]) then Some(0)
    else
      match FirstMatch(rows[1..], p)
      case None =>
        assert forall j :: 1 <= j < |rows| ==> rows[1..][j - 1] == rows[j];
        None
      case Some(k) =>
        assert forall j :: 1 <= j < k + 1 ==> rows[1..][j - 1] == rows[j];
        Some(k + 1)
  }

  /** The index of the first row within the band around `centre`. */
  function Nearest(rows: seq<OptionData>, centre: real): Option<nat> {
    FirstMatch(rows, (row: OptionData) => NearStrike(row, centre))
  }

  /** The search loop shared by `processCSV` and `processRefCsvData`: it
      stops at the first row in the band; `nearestIndex` stays 0 when none is. */
  method SearchNearest(rows: seq<OptionData>, centre: real) returns (found: bool, nearestIndex: nat)
    ensures found <==> exists i :: 0 <= i < |rows| && NearStrike(rows[i], centre)
    ensures found ==> nearestIndex < |rows| && NearStrike(rows[nearestIndex], centre) &&
                      forall j :: 0 <= j < nearestIndex ==> !NearStrike(rows[j], centre)
    ensures !found ==> nearestIndex == 0
    ensures nearestIndex == Nearest(rows, centre).GetOr(0)
  {
    found, nearestIndex := false, 0;
    var i := 0;
    while i < |rows|
      invariant 0 <= i <= |rows|
      invariant forall j :: 0 <= j < i ==> !NearStrike(rows[j], centre)
    {
      if NearStrike(rows[i], centre) {
        found, nearestIndex := true, i;
        break;
      }
      i := i + 1;
    }
    ghost var r := Nearest(rows, centre);
    assert found ==> r.Some? && r.value == nearestIndex;
  }

  // ---------------------------------------------------------------------
  // Window selection
  // ---------------------------------------------------------------------

  function Max(a: int, b: int): int { if a >= b then a else b }
  function Min(a: int, b: int): int { if a <= b then a else b }

  /** The rows at offsets -4 .. 4 around index `k` that exist, in order. */
  function Window(rows: seq<OptionData>, k: nat): (w: seq<OptionData>)
    ensures |w| <= 2 * Radius + 1
    ensures k < |rows| ==> 1 <= |w| && rows[k] in w
    ensures forall i :: 0 <= i < |w| ==> w[i] in rows
  {
    var lo, hi := Max(0, k - Radius), Min(|rows|, k + Radius + 1);
    if lo <= hi then rows[lo..hi] else []
  }

  /** The selection loop: offsets -4 through 4, skipping indices out of bounds. */
  method SelectRows(rows: seq<OptionData>, nearestIndex: nat) returns (selectedRows: seq<OptionData>)
    ensures selectedRows == Window(rows, nearestIndex)
    ensures |selectedRows| <= 9
  {
    var lo, hi := Max(0, nearestIndex - 4), Min(|rows|, nearestIndex + 5);
    selectedRows := [];
    for i := -4 to 5
      invariant lo <= hi ==> selectedRows == rows[lo..Max(lo, Min(hi, nearestIndex + i))]
      invariant lo > hi ==> selectedRows == []
    {
      var index := nearestIndex + i;
      if index >= 0 && index < |rows| {
        assert lo <= index < hi && Max(lo, Min(hi, index)) == index;
        assert rows[lo..index + 1] == rows[lo..index] + [rows[index]];
        selectedRows := selectedRows + [rows[index]];
      } else {
        assert Max(lo, Min(hi, index + 1)) == Max(lo, Min(hi, index));
      }
    }
  }

  // ---------------------------------------------------------------------
  // Column sums
  // ---------------------------------------------------------------------

  /** The sum of one Greek column over `rows`, added left to right. */
  function ColumnSum(rows: seq<OptionData>, g: Greek): real {
    if rows == [] then 0.0 else ColumnSum(rows[..|rows| - 1], g) + Column(rows[|rows| - 1], g)
  }

  /** The zero row with each Greek column replaced by its sum over `rows`. */
  function GreekTotals(rows: seq<OptionData>): (r: OptionData)
    ensures forall g :: Column(r, g) == ColumnSum(rows, g)
    ensures ZeroOutsideGreeks(r)
  {
    Zero.(gammaCall := ColumnSum(rows, GammaCall), gammaPut := ColumnSum(rows, GammaPut),
          thetaCall := ColumnSum(rows, ThetaCall), thetaPut := ColumnSum(rows, ThetaPut),
          deltaCall := ColumnSum(rows, DeltaCall), deltaPut := ColumnSum(rows, DeltaPut),
          vegaCall := ColumnSum(rows, VegaCall), vegaPut := ColumnSum(rows, VegaPut))
  }

  /** The summing loop: `resultRow` starts as the zero row and each selected
      row's eight Greek columns are added to it. */
  method SumGreeks(selectedRows: seq<OptionData>) returns (resultRow: OptionData)
    ensures resultRow == GreekTotals(selectedRows)
  {
    resultRow := Zero;
    for i := 0 to |selectedRows|
      invariant resultRow == GreekTotals(selectedRows[..i])
    {
      var row := selectedRows[i];
      assert selectedRows[..i + 1][..i] == selectedRows[..i];
      resultRow := resultRow.(
        gammaCall := resultRow.gammaCall + row.gammaCall,
        gammaPut := resultRow.gammaPut + row.gammaPut,
        thetaCall := resultRow.thetaCall + row.thetaCall,
        thetaPut := resultRow.thetaPut + row.thetaPut,
        deltaCall := resultRow.deltaCall + row.deltaCall,
        deltaPut := resultRow.deltaPut + row.deltaPut,
        vegaCall := resultRow.vegaCall + row.vegaCall,
        vegaPut := resultRow.vegaPut + row.vegaPut);
    }
    assert selectedRows[..|selectedRows|] == selectedRows;
  }

  // ---------------------------------------------------------------------
  // The two report functions and the lookup
  // ---------------------------------------------------------------------

  /** What `processRefCsvData` returns: Greek sums over the window around the
      first row in the band around `strikePrice`, or around row 0 if none is. */
  function WindowTotals(rows: seq<OptionData>, strikePrice: real): OptionData {
    GreekTotals(Window(rows, Nearest(rows, strikePrice).GetOr(0)))
  }

  method ProcessRefCsvData(ref: seq<OptionData>, strikePrice: real) returns (resultRow: OptionData)
    ensures resultRow == WindowTotals(ref, strikePrice)
    ensures ZeroOutsideGreeks(resultRow)
  {
    var _, nearestIndex := SearchNearest(ref, strikePrice);
    var selectedRows := SelectRows(ref, nearestIndex);
    resultRow := SumGreeks(selectedRows);
  }

  /** `processCSV` after the file is loaded: the strike of the first row in
      the band around the largest underlying price, and the same Greek sums
      `processRefCsvData` computes around that price. */
  method ProcessCsv(rows: seq<OptionData>) returns (r: Result<(real, OptionData), ReportError>)
    ensures r.Failure? <==> forall i :: 0 <= i < |rows| ==> !NearStrike(rows[i], MaxUnderlying(rows))
    ensures r.Failure? ==> r.error == NilDereference
    ensures r.Success? ==>
      var k := Nearest(rows, MaxUnderlying(rows)).value;
      r.value.0 == rows[k].strikePrice &&
      r.value.1 == WindowTotals(rows, MaxUnderlying(rows))
  {
    var maxUnderlyingLtp := ScanMaxUnderlying(rows);
    var found, nearestIndex := SearchNearest(rows, maxUnderlyingLtp);
    var selectedRows := SelectRows(rows, nearestIndex);
    var resultRow := SumGreeks(selectedRows);
    if !found {
      return Failure(NilDereference);
    }
    r := Success((rows[nearestIndex].strikePrice, resultRow));
  }

  /** The index of the first row whose strike is at least `price`. */
  function FirstAtOrAbove(rows: seq<OptionData>, price: real): Option<nat> {
    FirstMatch(rows, (row: OptionData) => row.strikePrice >= price)
  }

  /** `getOptionDataByPrice`: a copy of the first row whose strike is at
      least `strikePrice`, or the error "data not found". */
  method GetOptionDataByPrice(ref: seq<OptionData>, strikePrice: real) returns (r: Result<OptionData, string>)
    ensures r.Failure? <==> forall i :: 0 <= i < |ref| ==> ref[i].strikePrice < strikePrice
    ensures r.Failure? ==> r.error == "data not found"
    ensures r.Success? ==> exists k :: 0 <= k < |ref| && r.value == ref[k] &&
                             ref[k].strikePrice >= strikePrice &&
                             forall j :: 0 <= j < k ==> ref[j].strikePrice < strikePrice
    ensures r == match FirstAtOrAbove(ref, strikePrice)
                 case Some(k) => Success(ref[k])
                 case None => Failure("data not found")
  {
    for i := 0 to |ref|
      invariant forall j :: 0 <= j < i ==> ref[j].strikePrice < strikePrice
    {
      if ref[i].strikePrice >= strikePrice {
        return Success(ref[i]);
      }
    }
    return Failure("data not found");
  }
}
