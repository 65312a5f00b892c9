# CVT reduced-blanking timing calculator

This project models `CvtCalculator.js` in Dafny. That file implements the
reduced-blanking (RB) timing formula of the VESA Coordinated Video Timings
Standard, version 2.0, in its RB v2 and RB v3 variants. The model has three
parts, one module for each:

- **CvtInputs.** The input record is the class `Inputs`. It has one mutable
  field per parameter.
  - The five validating setters (`I_RED_BLANK_VER`, `I_H_PIXELS`, `I_V_LINES`,
    `I_IP_FREQ_RQD`, `I_VIDEO_OPT`) are methods. Each stores a legal value.
    Given an illegal value it reports failure and leaves the field unchanged.
  - Required parameters whose initial value is `null` are `Option` fields.
  - `Snapshot` reads the fields the way `calculate` reads each `.value`.
- **CvtConstants.** The two constant tables are one `Constants` value per
  `Version`.
- **CvtCalculator.** `calculate` is the method `Calculate`. It fills a fresh
  output record (a map from the twenty field names to an optional number)
  in the source's step order. It then runs `FillNulls`, the final loop that
  copies a same-named constant into every field that is still `null`.
  - Steps 1 to 7, 9 and 11 to 15 are functions. Each has a contract, except
    step 13's unrounded clock `RawPixelClock`, whose properties are the
    lemmas `RawPixelClockSign`, `RawPixelClockMonotone` and
    `PixelClockRounding`. The last step of 13, multiplying the step count by
    `C_CLOCK_STEP`, is `Timing.ActPixelFreq`, which `PixelClockRounding`
    also covers.
    Steps 8 and 10 are single sums and differences, written inline in
    `Compute` and `Calculate`; `VerticalDecomposition` states them.
  - The whole straight-line calculation is the pure function `Compute`.
  - `Calculate` is proved against `Compute`: its result is exactly the record
    of `Compute`'s timing, with the three table-copied fields filled in.

**CvtProperties** states the formula's properties about `Compute` as lemmas:
- the rounding bounds;
- the horizontal and vertical blank decompositions;
- the rounding direction of the pixel clock;
- the frequency identities;
- the effect of the video-optimized option;
- how the RB v3 pixel clock compares with the RB v2 clock;
- the unused version input, and the additional hblank that RB v2 ignores;
- a worked 1920 x 1080 at 60 Hz example for both versions.

How the source's numbers are modelled:
- JavaScript numbers are exact `real`s. `Math.floor` is `.Floor`, and
  `Math.ceil` is `-((-x).Floor)`.
- The pixel clock is a whole count of 0.001 MHz clock steps.
- Where the source divides by zero (step 6 when `H_PERIOD_EST` is 0, step 14
  when `TOTAL_PIXELS` is 0), it produces `Infinity` or `NaN`. `Calculate`
  returns `Failure(NonFinite)` instead.
- A required parameter that was never set is `null`, which JavaScript turns
  into 0 in the arithmetic. `Calculate` returns `Failure(MissingParameter)`
  instead.

**Step 5 as written.** Step 5 compares `input.V_BLANK` against the minimum
blank time. The input record has no such property (the parameter is
`I_VBLANK`), so the comparison with `undefined` is always false. The code
therefore always takes the requested blank time unchanged.
- `BlankTime` models this as written: `InputVBlankProperty` is the absent
  property, and `LessThanOrUndefined` is the JavaScript comparison.
- `IntendedBlankTime` is the formula the comment states.
- `IntendedBlankTimeAgrees` shows the two coincide for every request of at
  least 460 us.
- `BlankTimeBelowMinimum` shows they differ for every request below 460 us.

**RB v3 against RB v2.** RB v3 raises the field rate by 350 ppm and rounds the
clock up, so one might expect its pixel clock never to be below RB v2's. That
holds when the width is a whole number of 8-pixel cells, the additional
hblank is non-negative and the line period is positive (`V3ClockAtLeastV2`).
It does not hold in general. RB v3 rounds the width down to whole cells,
which RB v2 does not. At 1927 x 1080 and 60 Hz, RB v2 has 2007 total pixels
and 133786 clock steps, and RB v3 has 2000 and 133367 (`V3ClockBelowV2Off8`).

**The 1080p example.** The often-quoted 173 MHz pixel clock for 1920 x 1080
at 60 Hz belongs to the standard-blanking CVT timing. The RB v2 formula as
coded gives 2000 x 1111 total at 133.320 MHz (`Example1080p60V2`).

## Model

| member | source | states |
|---|---|---|
| CvtConstants.ConstantsFor | CvtCalculator.js:173-272 | The table for each version: clock step 1/1000; cell granularity 1 exactly for v2 (8 for v3); ppm adjustment 0 exactly for v2 (350 for v3); every table is well formed (positive step, granularity and minimum blank) |
| CvtInputs.Inputs.constructor | CvtCalculator.js:33-170 | Initial values: version 2; pixels, lines and refresh unset (`null`); video-opt false; additional hblank 0; vblank 460 us; early vsync false |
| CvtInputs.Inputs.SetRedBlankVer | CvtCalculator.js:40-45 | Succeeds exactly when the value is 2 or 3; then stores it, otherwise the old value stays; no other field changes |
| CvtInputs.Inputs.SetHPixels | CvtCalculator.js:59-67 | Succeeds exactly when the value is > 0; then stores it, otherwise the old value stays |
| CvtInputs.Inputs.SetVLines | CvtCalculator.js:80-88 | Succeeds exactly when the value is > 0; then stores it, otherwise the old value stays |
| CvtInputs.Inputs.SetIpFreqRqd | CvtCalculator.js:101-109 | Succeeds exactly when the rate is > 0; then stores it, otherwise the old value stays |
| CvtInputs.Inputs.SetVideoOpt | CvtCalculator.js:127-132 | Every boolean is stored |
| CvtInputs.Inputs.Snapshot | CvtCalculator.js:54-110 | A parameter set exists exactly when pixels, lines and refresh have all been set; it carries the stored values and is valid whenever the record is |
| RealArith.Floor | CvtCalculator.js:402-404 | `floor(x) <= x < floor(x) + 1` |
| RealArith.Ceil | CvtCalculator.js:435-436 | `x <= ceil(x) < x + 1` |
| CvtCalculator.FieldRate | CvtCalculator.js:394-395 | The ppm-adjusted field rate of a positive refresh rate is positive |
| CvtCalculator.ActivePixels | CvtCalculator.js:402-404 | The active width is a multiple of the cell granularity, at most the request, and more than the request minus one cell |
| CvtCalculator.RoundedLines | CvtCalculator.js:410 | Rounding down an integer line count returns it |
| CvtCalculator.EstimatedHPeriod | CvtCalculator.js:417-418 | The estimated line period is zero exactly when `rate * 460 = 1e6`, and positive exactly when `rate * 460 < 1e6` |
| CvtCalculator.BlankTime | CvtCalculator.js:425-429 | As written, the blank time is always the requested `I_VBLANK` |
| CvtCalculator.IntendedBlankTime | CvtCalculator.js:421-423 | The commented formula: at least the minimum and at least the request, and equal to one of them |
| CvtCalculator.MinVbi | CvtCalculator.js:444-445 | `RB_MIN_VBI` leaves exactly the minimum front porch after the sync and the minimum back porch; both tables give 15 |
| CvtCalculator.IdealVbiLines | CvtCalculator.js:435-436 | The blank line count is the blank time over the line period, rounded up (within one) |
| CvtCalculator.ClampedVBlank | CvtCalculator.js:446-450 | The blank is at least the ideal count and at least the minimum, and equals one of them |
| CvtCalculator.VBackPorchLines | CvtCalculator.js:462-466 | For v3 with early vsync, twice the porch is within 2 below the unclamped line count; otherwise the porch is the 6-line minimum |
| CvtCalculator.ExtraHBlank | CvtCalculator.js:480-482 | The additional hblank counts only for v3; v2 uses 0 |
| CvtCalculator.LinePixels | CvtCalculator.js:480-482 | `TOTAL_PIXELS` is the active width plus front porch, sync and back porch (step 12's value) |
| CvtCalculator.HBackPorchPixels | CvtCalculator.js:489-491 | Front porch, sync and back porch together are the table's hblank plus the additional hblank |
| CvtCalculator.Multiplier | CvtCalculator.js:503-507 | The multiplier is 1000/1001 exactly for a video-optimized v2 timing, and 1 otherwise |
| CvtCalculator.ClockSteps | CvtCalculator.js:509-519 | v2 rounds the raw clock down to whole steps (`raw - step < steps * step <= raw`); v3 rounds it up (`raw <= steps * step < raw + step`) |
| CvtCalculator.HFrequency | CvtCalculator.js:525-526 | `hFreq * totalPixels = 1000 * pixelFreq` |
| CvtCalculator.FrameRate | CvtCalculator.js:532-533 | `frameRate * totalLines = 1000 * hFreq` |
| CvtCalculator.Compute | CvtCalculator.js:394-533 | When both divisors are nonzero, the fifteen steps give a positive line count, a nonzero line length and a nonzero line period |
| CvtCalculator.FieldIndex | CvtCalculator.js:274-383 | Every output field has a position in `FieldOrder`, the template's declaration order |
| CvtCalculator.AllFieldsListed | CvtCalculator.js:274-383 | The template's field order lists all twenty output fields |
| CvtCalculator.Template | CvtCalculator.js:387 | The fresh output record holds every field, each `null` |
| CvtCalculator.ConstantNamed | CvtCalculator.js:537 | A field has a same-named table entry exactly when it is `C_H_FRONT_PORCH`, `C_RB_H_SYNC` or `C_V_SYNC_RND` |
| CvtCalculator.Fallback | CvtCalculator.js:535-539 | Keeps every key; a non-null field keeps its value; a null field takes its same-named table entry |
| CvtCalculator.FillNulls | CvtCalculator.js:535-539 | The loop over the fields computes exactly the fallback map |
| CvtCalculator.RecordOf | CvtCalculator.js:385-542 | A finished record holds a number in every field: the timing's value of that quantity |
| CvtCalculator.Computed | CvtCalculator.js:394-533 | The record after step 15, written in the source's assignment order, still has every key of the template |
| CvtCalculator.ComputedAt | CvtCalculator.js:394-533 | After step 15 the three table-named fields are still `null`, and every other field holds its step's value |
| CvtCalculator.FallbackCompletes | CvtCalculator.js:535-539 | The fallback loop turns the record after step 15 into the complete record of the timing |
| CvtCalculator.Calculate | CvtCalculator.js:385-542 | An unset required parameter fails; a zero divisor in step 6 or 14 fails; otherwise the result is exactly the complete record of `Compute` on the stored parameters |
| CvtProperties.ActivePixelsRounding | CvtCalculator.js:402-404 | `TOTAL_ACTIVE_PIXELS` is a multiple of the cell granularity, at most `I_H_PIXELS` and within one cell of it; it equals `I_H_PIXELS` for v2 and is a multiple of 8 for v3 |
| CvtProperties.VBlankIsClampedVbi | CvtCalculator.js:444-450 | `RB_MIN_VBI = 15` and `V_BLANK = max(VBI_LINES, 15)`, so `V_BLANK >= 15` and `V_BLANK >= VBI_LINES`; `V_LINES_RND = I_V_LINES` |
| CvtProperties.VerticalDecomposition | CvtCalculator.js:456-473 | Front porch + 8-line sync + back porch = `V_BLANK`, and `TOTAL_V_LINES = V_BLANK + V_LINES_RND` |
| CvtProperties.LateVsyncPorches | CvtCalculator.js:462-473 | Without v3 early vsync: back porch 6, front porch `V_BLANK - 14 >= 1` |
| CvtProperties.EarlyVsyncPorches | CvtCalculator.js:462-473 | With v3 early vsync: back porch `floor(VBI_LINES / 2)` of the unclamped count, and front porch `>= 0` |
| CvtProperties.HorizontalDecomposition | CvtCalculator.js:480-491 | `TOTAL_PIXELS` = active + front porch 8 + sync 32 + back porch; v2: back porch 40 and total = active + 80; v3: the additional hblank adds to both |
| CvtProperties.RefreshMultiplierCases | CvtCalculator.js:503-507 | `REFRESH_MULTIPLIER` is 1000/1001 when v2 and video-opt, else 1 |
| CvtProperties.PixelClockRounding | CvtCalculator.js:509-519 | `ACT_PIXEL_FREQ` is a whole number of 1/1000 MHz steps, at most `raw` and above `raw - step` for v2, at least `raw` and below `raw + step` for v3 |
| CvtProperties.PixelClockNonNegative | CvtCalculator.js:509-519 | The pixel clock is a non-negative number of steps for v2, and for v3 with a non-negative additional hblank |
| CvtProperties.NegativeHBlankGivesNegativeClock | CvtCalculator.js:141-145 | The unchecked `I_ADDITIONAL_HBLANK` = -4000 on v3 1920 x 1080 at 60 Hz gives a -2000-pixel line and -133366 clock steps |
| CvtProperties.FrequencyIdentities | CvtCalculator.js:525-533 | `ACT_H_FREQ * TOTAL_PIXELS = 1000 * ACT_PIXEL_FREQ` and `ACT_FRAME_RATE * TOTAL_V_LINES = 1000 * ACT_H_FREQ` |
| CvtProperties.RawPixelClockSign | CvtCalculator.js:510-513 | For a positive rate and line count, the unrounded clock `RawPixelClock` is positive for a positive line length and a positive multiplier (non-negative for a zero multiplier), negative for a negative line length and a positive multiplier, and 0 for a zero line length |
| CvtProperties.RawPixelClockMonotone | CvtCalculator.js:511-513 | With positive rates, line counts and line lengths and non-negative multipliers, the raw clock never shrinks when any of the four grows |
| CvtProperties.V2ClockStepsMonotone | CvtCalculator.js:510-513 | v2 rounding to clock steps is monotone in the raw clock |
| CvtProperties.VideoOptNeverRaisesClock | CvtCalculator.js:503-513 | For v2 with every other input fixed, turning video-opt on never increases the pixel clock |
| CvtProperties.HPeriodPositive | CvtCalculator.js:417-418 | `H_PERIOD_EST > 0` exactly when `V_FIELD_RATE_RQD * 460 < 1e6` |
| CvtProperties.V2LineAlwaysPositive | CvtCalculator.js:480-482 | For v2 the line length is `I_H_PIXELS + 80`, so only the step 4 divisor can make the result non-finite |
| CvtProperties.AdditionalHBlankIgnoredForV2 | CvtCalculator.js:480-491 | For RB v2, changing `I_ADDITIONAL_HBLANK` to any value changes no output: the whole timing is the same as with the stored value |
| CvtProperties.RedBlankVerIgnored | CvtCalculator.js:385-542 | Changing `I_RED_BLANK_VER` never changes the result; only the version argument selects the formula |
| CvtProperties.BlankTimeAsWritten | CvtCalculator.js:425-429 | `ACT_V_BLANK_TIME` is always the requested `I_VBLANK`, even below the minimum |
| CvtProperties.IntendedBlankTimeAgrees | CvtCalculator.js:421-429 | For `I_VBLANK >= 460` the code and the commented formula agree |
| CvtProperties.BlankTimeBelowMinimum | CvtCalculator.js:421-429 | For every request below 460 us, on either version, the code keeps a blank time below the commented formula's, which is 460 |
| CvtProperties.HPeriodAntitone | CvtCalculator.js:417-418 | A higher field rate never gives a longer `H_PERIOD_EST` for the same line count |
| CvtProperties.VBlankAntitone | CvtCalculator.js:435-450 | A shorter positive line period never gives fewer `V_BLANK` lines, for any blank time and a non-negative minimum |
| CvtProperties.V3ClockAtLeastV2 | CvtCalculator.js:394-519 | For a width of whole 8-pixel cells, a non-negative additional hblank and a positive v3 line period, both versions are computable and v3 has at least as many clock steps as v2 |
| CvtProperties.V3ClockBelowV2Off8 | CvtCalculator.js:402-519 | At 1927 x 1080 and 60 Hz, v2 has 2007 total pixels and 133786 clock steps, and v3 has 2000 and 133367: fewer than v2 |
| CvtProperties.Example1080p60V2 | CvtCalculator.js:544-552 | v2, 1920 x 1080 at 60 Hz: active 1920 x 1080, 31 blank lines, 2000 x 1111 total, 133320 clock steps (133.320 MHz) |
| CvtProperties.Example1080p60V3 | CvtCalculator.js:385-542 | v3 on the same inputs: 31 blank lines, 2000 x 1111 total, 133367 clock steps (133.367 MHz) |
| CvtProperties.RecordHoldsTiming | CvtCalculator.js:535-539 | Every field of the finished record holds the timing's value; the copied `C_H_FRONT_PORCH`, `C_RB_H_SYNC` and `C_V_SYNC_RND` are 8, 32 and 8 |

## Left out

- The demo at the end of the file (`structuredClone` and `console.log`) is I/O. Only its inputs are used, in `Example1080p60`.
- The deep copy of the output template through JSON is a fresh map value, `Template`. Nothing is shared with it.
- IEEE-754 rounding is not modelled: arithmetic is on exact reals, so `floor` and `ceil` never misround near an integer. The clock step 0.001 is exactly 1/1000.
- The JavaScript type checks (`Number.isInteger`, `Number.isFinite`, `typeof ... == 'boolean'`) are enforced by the Dafny types `int`, `real` and `bool`. Only the range checks are modelled.
- The per-version `default` maps inside the input objects are not modelled, because `calculate` never reads them.
- An unknown version string is not modelled. The source then fails with a `TypeError` at step 1; `Version` has only the two table keys.
- The thrown message strings are not modelled. A setter returns `false` instead of throwing.
- The three unchecked inputs (`I_ADDITIONAL_HBLANK`, `I_VBLANK`, `I_EARLY_VSYNC_RQD`) are plain fields. Their documented ranges (multiples of 8 up to 120; at least 460 us for v3) are not checked, because the source does not check them. A non-integer additional hblank is not modelled. A non-boolean `I_EARLY_VSYNC_RQD` is not modelled either: its documented values are `"Y"` and `"N"`, and the source treats any truthy value, including `"N"`, as early vsync.
- V3ClockAtLeastV2: does not claim that RB v3's clock is never below RB v2's, because that fails for a width that is not a multiple of 8 (`V3ClockBelowV2Off8`). A negative additional hblank or a non-positive line period is also excluded.
- Calculate: does not compute with unset inputs or with `Infinity` and `NaN`. It returns `MissingParameter` where the source computes with 0 in place of the unset value (an unset `I_H_PIXELS` then gives a finite record, an unset `I_V_LINES` or `I_IP_FREQ_RQD` an infinite `H_PERIOD_EST`), and `NonFinite` where a divisor is zero.
- PixelClockNonNegative: promises a non-negative clock for v3 only when `I_ADDITIONAL_HBLANK >= 0`, because the source never checks that input and a large negative value makes the clock negative (`NegativeHBlankGivesNegativeClock`).
- The loop writes `undefined` into a field that has no same-named constant, and the model keeps this distinction out. No such field is `null` after step 15 (`ComputedAt`), so this never happens.
- Compute: requires only nonzero divisors. A negative `H_PERIOD_EST` (refresh rate above about 2174 Hz) is computed as the source computes it, giving, for a requested blank of at least 460 us, a negative `VBI_LINES` that step 7 then clamps to 15 (a negative request can instead give a large positive `VBI_LINES`, which is kept).
