# Option-chain Greeks, nearest-strike report and regression shapes — a Dafny model

This project models three sequential pieces of an option-chain toolkit written in Go.

- **Greek enrichment** (`goGreek/main.go`). `getGreeks` takes one option-chain row by pointer. If its underlying price is exactly zero, the row is left alone. Otherwise it computes the call and put implied volatilities. Each side's volatility comes from that side's traded price, with a seed volatility of 0.15, a rate of 6.75 % and a dividend yield of 1.3 %. From each side's volatility it computes that side's delta, gamma, vega and theta, and it writes these ten values into the row in place. A worker applies `getGreeks` to every row of a file, left to right.
- **Nearest-strike report** (`goGreek/processForPPO/main.go`). It takes the largest underlying price, starting from 0. It finds the first row whose strike lies within 50 of a centre price, selects up to nine rows around that row, and adds up eight Greek columns over them into an otherwise zero row. It also has a lookup for the first row whose strike is at least a given price.
- **Weighted regression helper** (`goGreek/regression/regression.go`). This part covers the decay weights, the row-major diagonal weight matrix, the n-by-2 design matrix `[1, x[i]]`, the check that the inputs have equal lengths, and the order of the returned coefficients (slope first).

Module layout:

- `option_chain.dfy` (module `OptionChain`): the shared `OptionData` row value. Both Go packages declare this record. Floating-point columns are `real` and integer columns are `int`.
- `greeks.dfy`: `getGreeks` is modelled on a class `OptionRecord` whose fields are the row's columns. Its `modifies` frame names exactly the ten columns it writes. The worker loop is a method over an array of records.
- `nearest_strike.dfy` (module `NearestStrike`): each loop of the report is a method, proved against a specification function.
- `regression.dfy`: the buffer-filling loops are methods over fresh arrays.
- `wrappers.dfy`: `Option` and `Result`.

The pricing library's routines (`BSImpliedVol`, `BSDelta`, `BSGamma`, `BSVega`, `BSTheta`), `math.Exp` and the linear-algebra solve are passed in as uninterpreted function values. Every property therefore holds whatever they compute.

`processCSV` dereferences `nearestRow` when no strike lies within 50 of the maximum, and that includes an empty file. The model returns `Failure(NilDereference)` for exactly those inputs.

## Model

| member | source | states |
|---|---|---|
| `Greeks.Enriched` | goGreek/main.go:74-111 | A zero underlying price leaves the row unchanged. The eleven columns outside the ten Greek columns never change. Each side's IV is `BSImpliedVol(isCall, side LTP, U, K, days/365, 0.15, 0.0675, 0.013)`. Each side's delta and theta use that side's IV and call/put flag, and each side's gamma and vega use that side's IV. |
| `Greeks.EnrichedIdempotent` | goGreek/main.go:76-110 | Enriching a row twice gives the same row as enriching it once, because the ten values depend only on columns `getGreeks` never writes. |
| `Greeks.EnrichedDependsOnInputsOnly` | goGreek/main.go:76-99 | Two rows with a nonzero underlying price that agree outside the ten Greek columns are enriched to the same row. |
| `Greeks.OptionRecord.Store` | goGreek/main.go:101-110 | The ten assignments: the call values go to the `*_CALL`/`Vega_Call` fields and the put values to the `*_PUT`/`Vega_Put` fields. The frame allows no other field to change. |
| `Greeks.GetGreeks` | goGreek/main.go:74-111 | The record afterwards equals `Enriched` of the record before. The `modifies` frame lists only the ten Greek fields. |
| `Greeks.EnrichRows` | goGreek/main.go:124-126 | Afterwards every element of the row array is `Enriched` of its value before. This holds even when one record appears several times in the array. The array itself (its length and order) is not written. |
| `NearestStrike.MaxUnderlying` | goGreek/processForPPO/main.go:50-55 | The maximum is at least 0 and at least every row's underlying price. It equals some row's value when any value is positive, and it is 0 when every value is at most 0. |
| `NearestStrike.ScanMaxUnderlying` | goGreek/processForPPO/main.go:50-55 | The scan loop returns `MaxUnderlying(rows)`. |
| `NearestStrike.FirstMatch` | goGreek/processForPPO/main.go:97-102 | The result is the smallest index whose row satisfies the test, or `None` exactly when no row does. |
| `NearestStrike.SearchNearest` | goGreek/processForPPO/main.go:96-102 | `found` holds iff some strike lies in `[centre-50, centre+50]`. If so, `nearestIndex` is the first such index, with no qualifying row before it. If not, `nearestIndex` is 0. |
| `NearestStrike.Window` | goGreek/processForPPO/main.go:108-114 | The window is `rows[max(0,k-4) .. min(len,k+5))` in original order. It has at most 9 rows. When `k` is in range it has at least 1 row and contains `rows[k]`. |
| `NearestStrike.SelectRows` | goGreek/processForPPO/main.go:72-78 | The offset loop from -4 to 4 with its bounds check yields exactly `Window(rows, k)`, with at most 9 rows. |
| `NearestStrike.GreekTotals` | goGreek/processForPPO/main.go:117-126 | In the result, each of the eight Greek columns is that column's sum over the rows. Every other column is zero. |
| `NearestStrike.SumGreeks` | goGreek/processForPPO/main.go:80-90 | The `+=` loop starting from `OptionData{}` returns `GreekTotals(selectedRows)`. |
| `NearestStrike.ProcessRefCsvData` | goGreek/processForPPO/main.go:95-129 | The result is the Greek totals over the window around the first strike within 50 of `strikePrice`, or around index 0 when there is none. All non-Greek columns are zero. |
| `NearestStrike.ProcessCsv` | goGreek/processForPPO/main.go:49-92 | The call fails (nil dereference) iff no strike lies within 50 of the maximum underlying price. Otherwise it returns the first such row's strike, and a row equal to `processRefCsvData(rows, max)`. |
| `NearestStrike.GetOptionDataByPrice` | goGreek/processForPPO/main.go:131-140 | The call returns a copy of the first row whose strike is at least `strikePrice`. It returns "data not found" iff every strike is below `strikePrice`. |
| `Regression.GenerateWeights` | goGreek/regression/regression.go:11-16 | The result has exactly `length` entries, and entry `i` is `exp(-decayRate * i)`. |
| `Regression.RowMajorInRange` | goGreek/regression/regression.go:22-24 | A row-major index `r*cols + c` with `r < rows` and `c < cols` lies inside a `rows*cols` buffer. |
| `Regression.RowMajorDecompose` | goGreek/regression/regression.go:23-24 | Index `r*n + c` with `c < n` belongs to row `r` and column `c` and to no other position. |
| `Regression.DiagonalIndexInRange` | goGreek/regression/regression.go:22-24 | Every write index `i*n + i` with `i < n` lies in `[0, n*n)`. |
| `Regression.Diagonal` | goGreek/regression/regression.go:20-27 | The matrix is n by n with a buffer of exactly `n*n` entries, where `n = len(weights)`. |
| `Regression.PartialDiagonalStep` | goGreek/regression/regression.go:23-24 | Writing `weights[i]` at `i*n + i` changes exactly that one entry of the buffer. |
| `Regression.NewDiagonalMatrix` | goGreek/regression/regression.go:20-27 | The zeroed buffer with `weights[i]` written at `i*n + i` is exactly `Diagonal(weights)`. |
| `Regression.DiagonalAt` | goGreek/regression/regression.go:22-26 | In row-major layout, entry (r, c) of the diagonal matrix is `weights[r]` when `r == c` and 0 otherwise. |
| `Regression.OffDiagonalZero` | goGreek/regression/regression.go:22-25 | Every buffer entry whose index is not `i*n + i` for any `i < n` is zero. |
| `Regression.Design` | goGreek/regression/regression.go:37-41 | The design matrix has `len(x)` rows and 2 columns. |
| `Regression.DesignAt` | goGreek/regression/regression.go:38-41 | Row `i` of the design matrix is `[1.0, x[i]]`. |
| `Regression.ColumnVector` | goGreek/regression/regression.go:43 | `y` is wrapped as a `len(y)`-by-1 matrix. |
| `Regression.WeightedLinearRegression` | goGreek/regression/regression.go:30-69 | The call fails with a length mismatch iff `len(y) != len(x)` or `len(weights) != len(x)`. Otherwise it passes the design matrix, `y` and `Diagonal(weights)` to the solver. It fails if the solver fails, and otherwise returns `(beta[1], beta[0])`: slope first, intercept second. |

## Left out

- File enumeration, CSV loading and saving, `os.Create`/`os.Open` failures and `log.Fatal`: all of this is filesystem and library I/O. This includes the quirk that a file that fails to parse is still queued with a nil row slice and then rewritten empty.
- The `dumpFiles` pool of eight goroutines, the channel and the `sync.WaitGroup`: their point is concurrency. Only the sequential row loop of `worker` is modelled.
- The log lines (`fmt.Println`, `fmt.Printf`), including "Underlying Price is zero": output only.
- The bodies of `BSImpliedVol`, `BSDelta`, `BSGamma`, `BSVega` and `BSTheta`: an external library doing iterative floating-point numerics. They are parameters, and nothing is claimed about their values or convergence.
- Floating point: every float column is a `real`. NaN and negative zero are not modelled (in the source a NaN underlying price is not equal to zero, so such a row is enriched). Rounding, and the order of the window sums, are not modelled either. Integer columns are unbounded `int`.
- `math.Exp`, the gonum matrix products and `SolveVec` in the regression: external floating-point linear algebra. `exp` and `solve` are parameters.
- NewDiagonalMatrix, WeightedLinearRegression: the checks inside gonum's `mat.NewDense` are not part of this model. `NewDiagonalMatrix([])` returns a 0-by-0 `Dense`, whereas regression.go:26 panics because gonum rejects a zero dimension. `WeightedLinearRegression` on empty inputs reaches `solve`, whereas regression.go:37 panics for the same reason.
- Slice aliasing in the regression: `mat.NewDense(n, 1, y)` shares `y`'s storage, and the returned buffers are modelled as values. Nothing mutates them afterwards.
- GenerateWeights: `length` is a `nat`. Go's `make` panics on a negative length, and that panic is not modelled.
- `run` in the regression package, the empty `main`, and `test.py`: an example driver that prints, and a random-data generator. Neither has behaviour to state.
