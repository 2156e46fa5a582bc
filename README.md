# Stock data scraper: daily merge and technical indicators

This project models the deterministic core of a small stock-price scraper
(`scraper.py`). The scraper keeps one price table per stock. Every day it
merges that day's scraped quote into the stored table. It then derives four
technical indicators from the table's `Price` column: a moving average, the
RSI, Bollinger bands and the MACD.

Modules (one file each):

- `Wrappers` (`wrappers.dfy`): `Option`. It stands for a table that does not
  exist and for the positions pandas leaves as NaN.
- `PriceTable` (`price_table.dfy`): the upsert-by-date at the end of
  `scrape_daily_data`.
  - `Merged` is the specification over sequences.
  - `ContainsDate`, `OverwriteQuotes` and `MergeDaily` are the imperative
    version over arrays. The `.loc` assignment updates the stored frame in
    place, and `MergeDaily` returns that same array. The prepend builds a
    fresh one.
- `Rolling` (`rolling.dfy`): the trailing-window mean behind
  `rolling(window).mean()`, and `calculate_moving_average`.
- `Rsi` (`rsi.dfy`): `calculate_rsi`.
- `Bollinger` (`bollinger.dfy`): `calculate_bollinger`.
- `Macd` (`macd.dfy`): `calculate_macd`. The exponential moving average is a
  recurrence.

Prices are exact `real`s. A derived column is a `seq<Option<real>>` aligned
with the prices, and `None` marks a NaN position.

Behaviour of the code that the model reproduces as written:

- A date not yet stored is put in FRONT of the table (`concat([df_new,
  df_existing])`). The table is not re-sorted.
  `MergeKeepsNewestFirst` proves what this does keep: a newest-first table
  stays newest-first when today is later than its newest day.
- The RSI has no guard for a zero loss mean. In floating point, `g/0` with
  `g > 0` is infinite and gives exactly 100. `0/0` is NaN. The model writes
  both outcomes out (`RsiValue`). A window with no movement, and so a flat
  series, gives an undefined (NaN) RSI (`RsiOfFlatSeries`).
- The first price difference is NaN, and `where(delta > 0, 0)` turns it into
  a 0 gain. So the first RSI value, at index `window - 1`, averages only
  `window - 1` real changes but divides by `window`
  (`FirstGainMeanHasPhantomDay`).
- Bollinger bands use pandas' default sample standard deviation (ddof 1). A
  window of one value therefore has NaN bands even though its middle band is
  defined.
- The merge stores whatever quote it is given. The code has no check of the
  scraped fields before the merge.

## Model

| member | source | states |
|---|---|---|
| `PriceTable.Merged` | scraper.py:74-84 | After the merge today's date is present and every row dated today carries today's quote. With no stored table the result is exactly the one new row. If today is stored, the length, dates, other columns and order are unchanged, and only the quote columns of today's rows change. Otherwise the new row is at index 0, followed by the stored rows in their order. |
| `PriceTable.MergeIdempotent` | scraper.py:76-79 | Merging the same date and quote twice gives the same table as merging once. |
| `PriceTable.MergeDates` | scraper.py:76-79 | The multiset of dates after a merge is the stored one, plus today's date exactly when it was not stored. A merge never adds a second row for a date already present. |
| `PriceTable.MergeKeepsDatesUnique` | scraper.py:76-81 | If the stored dates are unique, the merged dates are unique. |
| `PriceTable.MergeKeepsNewestFirst` | scraper.py:76-79 | A strictly newest-first table stays newest-first, provided that a date not yet stored is later than the newest stored date. |
| `PriceTable.ContainsDate` | scraper.py:76 | The scan returns true iff some stored row carries the date. |
| `PriceTable.OverwriteQuotes` | scraper.py:77 | The in-place `.loc` assignment: afterwards the array equals the stored rows with today's quote written into every row dated today. |
| `PriceTable.MergeDaily` | scraper.py:74-82 | The returned table is `Merged` of the stored rows as they were on entry. On an update it is the stored array itself. On a prepend, or with no stored table, it is a fresh array, and on a prepend the stored array is left unchanged. |
| `Rolling.RollingMean` | scraper.py:124 | The column has the length of the prices. Position `i` is defined iff `1 <= window <= i + 1`, and there it is the mean of prices `i - window + 1 .. i`. |
| `Rolling.CalculateMovingAverage` | scraper.py:119-125 | With no table there is no column. Otherwise the column is defined from index `window - 1` on and holds the trailing window mean. |
| `Rolling.RollingMeanOfConstant` | scraper.py:124 | For a constant price `p` every defined moving-average value is `p`. |
| `Rolling.RollingMeanWithinWindow` | scraper.py:124 | A defined moving-average value lies within any bounds of the prices in its window. |
| `Rolling.RollingMeanSlides` | scraper.py:124 | From one full window to the next, the mean changes by (entering price - leaving price) / window. |
| `Rsi.Gains` | scraper.py:140-141 | `delta.where(delta > 0, 0)`: one value per price, never negative, 0 on the first day. |
| `Rsi.Losses` | scraper.py:140-142 | `-delta.where(delta < 0, 0)`: one value per price, never negative, 0 on the first day. |
| `Rsi.GainsAndLosses` | scraper.py:140-142 | After the first day, gain minus loss is the day's price change, and at most one of the two is non-zero. |
| `Rsi.RsiValue` | scraper.py:143 | For non-negative means, the formula is defined iff some gain or loss exists. When defined it lies in [0, 100]. It equals 100 iff the loss mean is 0. With a positive loss mean it equals `100 * g / (g + l)`. |
| `Rsi.MeansNonNegative` | scraper.py:140-142 | Once a full window ends at `i`, the trailing gain mean and loss mean are defined and non-negative. |
| `Rsi.CalculateRsi` | scraper.py:139-144 | The column has the length of the prices. It is never defined before index `window - 1`. |
| `Rsi.RsiFromMeans` | scraper.py:140-143 | At each full window the RSI is the line-143 formula of the trailing mean of the gains (`max(delta, 0)`, 0 on day 0) and of the losses (`max(-delta, 0)`). It is defined iff one of them is positive. |
| `Rsi.RsiInRange` | scraper.py:139-144 | Every defined RSI value lies in [0, 100], for any price series. |
| `Rsi.RisingWindowSums` | scraper.py:140-142 | Over a window of rises, the losses sum to 0 and the gains to a positive amount. |
| `Rsi.RsiOfRisingWindow` | scraper.py:140-143 | A window whose every day-over-day change is a rise, with at least one real change in it, has RSI exactly 100. |
| `Rsi.RsiOfFlatSeries` | scraper.py:140-143 | A constant series has an RSI column that is undefined everywhere (0/0). |
| `Rsi.FirstGainMeanHasPhantomDay` | scraper.py:140-141 | At index `window - 1` the gain mean is the sum of the gains of days 1 to `window - 1`, divided by `window`. |
| `Bollinger.RollingStd` | scraper.py:161-162 | `rolling(window).std()`: one value per price, defined iff `2 <= window <= i + 1`, and there `root` of the sample (ddof 1) variance of the window. |
| `Bollinger.CalculateBollinger` | scraper.py:159-163 | The middle band is the moving average with the same window. Lower and upper bands are defined iff `2 <= window <= i + 1`, and there they are the window mean minus and plus 2 · `root` of the window's sample variance. Wherever they are defined, upper - middle == middle - lower. |
| `Bollinger.SampleVarianceNonNegative` | scraper.py:161-162 | The sample variance of any window of two or more prices is non-negative. |
| `Bollinger.BandsOrdered` | scraper.py:160-162 | If the square root is non-negative on non-negative arguments, then lower <= middle <= upper wherever the bands are defined. |
| `Bollinger.BandsOfConstant` | scraper.py:160-162 | For a constant price `p`, and a root with `root(0) == 0`, all three bands equal `p` wherever defined. |
| `Macd.Ema` | scraper.py:180-181 | `ewm(span, adjust=False).mean()` as a day-by-day recurrence. Its contract states that the EMA has one value per price, with no warm-up gap. The seed and the recurrence are `EmaSeed` and `EmaStep`. |
| `Macd.EmaSeed` | scraper.py:180-181 | The EMA of a non-empty series starts at the first price. |
| `Macd.EmaStep` | scraper.py:180-181 | For `i > 0`, EMA[i] = alpha * price[i] + (1 - alpha) * EMA[i-1], with alpha = 2 / (span + 1). |
| `Macd.EmaOfConstant` | scraper.py:180-181 | A constant price gives a constant EMA. |
| `Macd.EmaWithinRange` | scraper.py:180-181 | Every EMA value lies within any bounds of the prices. |
| `Macd.EmaOfShifted` | scraper.py:180-181 | Adding `c` to every price adds `c` to every EMA value. |
| `Macd.CalculateMacd` | scraper.py:179-185 | All five columns have the length of the prices. The short and long columns are the EMAs of the prices, and the signal line is the EMA of MACD. At every index MACD = short EMA - long EMA and histogram = MACD - signal line. |
| `Macd.MacdSeed` | scraper.py:179-185 | On day 0 both EMAs equal the price, and MACD, signal line and histogram are 0. |
| `Macd.MacdOfConstant` | scraper.py:179-185 | A constant price gives MACD, signal line and histogram identically 0. |
| `Macd.MacdIgnoresShift` | scraper.py:179-185 | Shifting every price by the same amount leaves MACD, signal line and histogram unchanged. |

## Left out

- Fetching pages and parsing HTML (`search_company`, the scraping in `scrape_daily_data` and all of `scrape_historical_data`): network I/O against an unseen page layout. The merge takes the already parsed quote as a parameter.
- The `except Exception` path of `scrape_daily_data`, which prints and goes on with unassigned variables: the model starts from a complete quote.
- Reading and writing CSV files, and checking whether the file exists (`get_data`, `read_csv`, `to_csv`): file-system I/O. "No file" is the `None` table.
- Converting the scraped `Price` text (with thousands separators) into numbers: prices are given as reals.
- `datetime.now()`: today's date is a parameter and is treated as an opaque key.
- All `plot_*` functions (drawing only), `run_scraper` and the `schedule` trigger (time-based scheduling).
- `update_and_analyze_stock`: it refers to an undefined `historical_data` and calls the indicator functions with the wrong number of arguments, so it has no behaviour to model.
- Floating-point rounding, and NaN or infinite prices: arithmetic is exact over `real`. NaN results are `None`, and the floating-point result of the RSI's division by zero is written out.
- The square root inside the rolling standard deviation: it is the parameter `root`, applied to the exact sample variance.
- Negative windows and spans below 1, which pandas rejects with an error: windows are `nat`, and spans are the subtype `Span` (at least 1). A window of 0 gives an undefined column.
- The indicator functions add columns to the caller's frame in place. The model returns the columns as values, so it does not capture that aliasing.
- `Macd.Ema`: its own contract states only the length. The recurrence and the seed are proved separately, in `EmaStep` and `EmaSeed`.
- The spans' default values 12, 26 and 9 are `CalculateMacdWithDefaults`, since Dafny functions here take every argument explicitly.
