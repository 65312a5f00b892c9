/**
 * The RB v2 / RB v3 timing calculation: fifteen ordered derivation steps
 * over the selected constant table and the input parameters, written into
 * a fresh output record whose remaining empty fields are then filled from
 * the same-named constants.
 */
module CvtCalculator {
  import opened Wrappers
  import opened CvtConstants
  import opened CvtInputs
  import opened RealArith

  // ---------------------------------------------------------------------
  // The derivation steps, one function per formula.
  // ---------------------------------------------------------------------

  /** Step 1: the requested refresh rate adjusted by the table's ppm offset (Hz). */
  function FieldRate(c: Constants, ipFreqRqd: real): (r: real)
    requires WellFormed(c)
    requires IsPositiveRate(ipFreqRqd)
    ensures r > 0.0
  {
    ipFreqRqd * (1.0 + c.vFieldRatePpmAdj as real / 1000000.0)
  }

  /** Step 2: the requested width rounded down to a whole number of character cells. */
  function ActivePixels(c: Constants, hPixels: int): (r: int)
    requires WellFormed(c)
    ensures r % c.cellGran == 0
    ensures r <= hPixels < r + c.cellGran
  {
    var k := Floor(hPixels as real / c.cellGran as real);
    FloorTimesBounds(hPixels, c.cellGran);
    MulMod(k, c.cellGran);
    k * c.cellGran
  }

  /** Step 3: the requested line count rounded down, a no-op on an integer. */
  function RoundedLines(vLines: int): (r: int)
    ensures r == vLines
  {
    Floor(vLines as real)
  }

  /** Step 4: the estimated horizontal period; positive exactly when one frame outlasts the minimum blank. */
  function EstimatedHPeriod(c: Constants, rate: real, lines: int): (r: real)
    requires rate > 0.0 && lines > 0
    ensures r == 0.0 <==> rate * c.rbMinVBlank as real == 1000000.0
    ensures r > 0.0 <==> rate * c.rbMinVBlank as real < 1000000.0
  {
    var frame := 1000000.0 / rate;
    MulLessCancel(c.rbMinVBlank as real, frame, rate);
    DivSign(frame - c.rbMinVBlank as real, lines as real);
    (frame - c.rbMinVBlank as real) / lines as real
  }

  /**
   * `a < b` on the source's numbers, where the left operand may be a
   * property the input record does not have (`undefined`): such a
   * comparison is false.
   */
  predicate LessThanOrUndefined(a: Option<real>, b: real) {
    a.Some? && a.value < b
  }

  /**
   * The input record's `V_BLANK` property, which step 5 reads: the record
   * has no such property (the requested blank time is `I_VBLANK`).
   */
  function InputVBlankProperty(): Option<real> {
    None
  }

  /**
   * Step 5 as written: the guard reads the absent `V_BLANK` property, so it
   * is always false and the requested blank time is taken unchanged.
   */
  function BlankTime(c: Constants, p: Params): (r: real)
    ensures r == p.vBlankTime
  {
    if LessThanOrUndefined(InputVBlankProperty(), c.rbMinVBlank as real) then c.rbMinVBlank as real
    else p.vBlankTime
  }

  /** Step 5 as its formula reads: the requested blank time, raised to the table's minimum. */
  function IntendedBlankTime(c: Constants, p: Params): (r: real)
    ensures r >= c.rbMinVBlank as real && r >= p.vBlankTime
    ensures r == p.vBlankTime || r == c.rbMinVBlank as real
  {
    if p.vBlankTime < c.rbMinVBlank as real then c.rbMinVBlank as real else p.vBlankTime
  }

  /** Step 6: the idealized number of blank lines, rounded up. */
  function IdealVbiLines(blankTime: real, hPeriod: real): (r: int)
    requires hPeriod != 0.0
    ensures blankTime / hPeriod <= r as real < blankTime / hPeriod + 1.0
  {
    Ceil(blankTime / hPeriod)
  }

  /** Step 7, first half: the fewest blank lines that hold front porch, sync and back porch. */
  function MinVbi(c: Constants): (r: int)
    ensures r - c.vSyncRnd - c.minVBPorch == c.rbVFPorch
    ensures c == ConstantsFor(V2) || c == ConstantsFor(V3) ==> r == 15
  {
    c.rbVFPorch + c.vSyncRnd + c.minVBPorch
  }

  /** Step 7, second half: the idealized blank line count, raised to the minimum. */
  function ClampedVBlank(vbi: int, minVbi: int): (r: int)
    ensures r >= vbi && r >= minVbi
    ensures r == vbi || r == minVbi
  {
    if vbi < minVbi then minVbi else vbi
  }

  /** Step 9: half the idealized (unclamped) blank for early vsync in RB v3, else the minimum. */
  function VBackPorchLines(v: Version, c: Constants, earlyVsync: bool, vbi: int): (r: int)
    ensures v == V3 && earlyVsync ==> 2 * r <= vbi < 2 * r + 2
    ensures !(v == V3 && earlyVsync) ==> r == c.minVBPorch
  {
    if v == V3 && earlyVsync then Floor(vbi as real / 2.0) else c.minVBPorch
  }

  /** Steps 11 and 12: the additional horizontal blank, which only RB v3 honours. */
  function ExtraHBlank(v: Version, p: Params): (r: int)
    ensures v == V2 ==> r == 0
    ensures v == V3 ==> r == p.additionalHBlank
  {
    if v == V3 then p.additionalHBlank else 0
  }

  /** Step 11: the total pixels per line. */
  function LinePixels(c: Constants, activePixels: int, extra: int): (r: int)
    ensures r == activePixels + c.hFrontPorch + c.rbHSync + HBackPorchPixels(c, extra)
  {
    activePixels + c.rbHBlank + extra
  }

  /** Step 12: the horizontal back porch, the blank left after front porch and sync. */
  function HBackPorchPixels(c: Constants, extra: int): (r: int)
    ensures c.hFrontPorch + c.rbHSync + r == c.rbHBlank + extra
  {
    c.rbHBlank + extra - c.hFrontPorch - c.rbHSync
  }

  /** Step 13, first half: 1000/1001 for a video-optimized RB v2 timing, else 1. */
  function Multiplier(v: Version, videoOpt: bool): (r: real)
    ensures r == 1000.0 / 1001.0 <==> v == V2 && videoOpt
    ensures r != 1000.0 / 1001.0 ==> r == 1.0
  {
    if v == V2 && videoOpt then 1000.0 / 1001.0 else 1.0
  }

  /** Step 13: the unrounded pixel clock (MHz). */
  function RawPixelClock(rate: real, totalLines: int, totalPixels: int, multiplier: real): real {
    rate * totalLines as real * totalPixels as real / 1000000.0 * multiplier
  }

  /**
   * Step 13, second half: the pixel clock as a whole number of clock steps,
   * rounding down for RB v2 and up for RB v3.
   */
  function ClockSteps(v: Version, c: Constants, raw: real): (r: int)
    requires WellFormed(c)
    ensures v == V2 ==> raw - c.clockStep < r as real * c.clockStep <= raw
    ensures v == V3 ==> raw <= r as real * c.clockStep < raw + c.clockStep
  {
    var q := raw / c.clockStep;
    if v == V2 then
      RoundDownScaled(Floor(q) as real, q, c.clockStep, raw);
      Floor(q)
    else
      RoundUpScaled(Ceil(q) as real, q, c.clockStep, raw);
      Ceil(q)
  }

  /** Step 14: the actual horizontal frequency (kHz). */
  function HFrequency(pixelFreq: real, totalPixels: int): (r: real)
    requires totalPixels != 0
    ensures r * totalPixels as real == 1000.0 * pixelFreq
  {
    1000.0 * pixelFreq / totalPixels as real
  }

  /** Step 15: the actual frame rate (Hz); the same division as step 14, one level up (lines instead of pixels). */
  function FrameRate(hFreq: real, totalLines: int): (r: real)
    requires totalLines != 0
    ensures r * totalLines as real == 1000.0 * hFreq
  {
    1000.0 * hFreq / totalLines as real
  }

  // ---------------------------------------------------------------------
  // The whole calculation as a value.
  // ---------------------------------------------------------------------

  /** The output record, one field per output variable; the pixel clock as a count of clock steps. */
  datatype Timing = Timing(
    actHFreq: real,          // ACT_H_FREQ (kHz)
    actVBlankTime: real,     // ACT_V_BLANK_TIME (us)
    vbiLines: int,           // VBI_LINES
    vBlank: int,             // V_BLANK
    hPeriodEst: real,        // H_PERIOD_EST
    rbMinVbi: int,           // RB_MIN_VBI
    refreshMultiplier: real, // REFRESH_MULTIPLIER
    totalPixels: int,        // TOTAL_PIXELS
    totalVLines: int,        // TOTAL_V_LINES
    vFieldRateRqd: real,     // V_FIELD_RATE_RQD (Hz)
    pixelFreqSteps: int,     // ACT_PIXEL_FREQ / C_CLOCK_STEP
    totalActivePixels: int,  // TOTAL_ACTIVE_PIXELS
    vLinesRnd: int,          // V_LINES_RND
    hFrontPorch: int,        // C_H_FRONT_PORCH (copied from the table)
    rbHSync: int,            // C_RB_H_SYNC (copied from the table)
    hBackPorch: int,         // H_BACK_PORCH
    vFrontPorch: int,        // V_FRONT_PORCH
    vSyncRnd: int,           // C_V_SYNC_RND (copied from the table)
    vBackPorch: int,         // V_BACK_PORCH
    actFrameRate: real       // ACT_FRAME_RATE (Hz)
  )
  {
    /** ACT_PIXEL_FREQ (MHz), a whole number of clock steps. */
    function ActPixelFreq(c: Constants): real {
      c.clockStep * pixelFreqSteps as real
    }
  }

  /** Neither step 6 nor step 14 divides by zero (the source yields a non-finite number there). */
  predicate Computable(v: Version, p: Params)
    requires p.Valid()
  {
    var c := ConstantsFor(v);
    FieldRate(c, p.ipFreqRqd) * c.rbMinVBlank as real != 1000000.0 &&
    LinePixels(c, ActivePixels(c, p.hPixels), ExtraHBlank(v, p)) != 0
  }

  /** The fifteen steps in order, as one value. */
  function Compute(v: Version, p: Params): (t: Timing)
    requires p.Valid() && Computable(v, p)
    ensures t.totalVLines > 0 && t.totalPixels != 0 && t.hPeriodEst != 0.0
  {
    var c := ConstantsFor(v);
    var rate := FieldRate(c, p.ipFreqRqd);
    var activePixels := ActivePixels(c, p.hPixels);
    var lines := RoundedLines(p.vLines);
    var hPeriod := EstimatedHPeriod(c, rate, lines);
    var blankTime := BlankTime(c, p);
    var vbi := IdealVbiLines(blankTime, hPeriod);
    var minVbi := MinVbi(c);
    var vBlank := ClampedVBlank(vbi, minVbi);
    var totalLines := vBlank + lines;
    var vBack := VBackPorchLines(v, c, p.earlyVsyncRqd, vbi);
    var vFront := vBlank - vBack - c.vSyncRnd;
    var extra := ExtraHBlank(v, p);
    var totalPixels := LinePixels(c, activePixels, extra);
    var hBack := HBackPorchPixels(c, extra);
    var multiplier := Multiplier(v, p.videoOpt);
    var steps := ClockSteps(v, c, RawPixelClock(rate, totalLines, totalPixels, multiplier));
    var hFreq := HFrequency(c.clockStep * steps as real, totalPixels);
    var frameRate := FrameRate(hFreq, totalLines);
    Timing(hFreq, blankTime, vbi, vBlank, hPeriod, minVbi, multiplier, totalPixels, totalLines,
           rate, steps, activePixels, lines, c.hFrontPorch, c.rbHSync, hBack, vFront,
           c.vSyncRnd, vBack, frameRate)
  }

  // ---------------------------------------------------------------------
  // The output record as the source builds it: a dictionary of named
  // numbers, every one `null` at first.
  // ---------------------------------------------------------------------

  /** The names of the output record's fields. */
  datatype Field =
    | ActHFreq | ActVBlankTime | VbiLines | VBlank | HPeriodEst | RbMinVbi
    | RefreshMultiplier | TotalPixels | TotalVLines | VFieldRateRqd | ActPixelFreq
    | TotalActivePixels | VLinesRnd | CHFrontPorch | CRbHSync | HBackPorch
    | VFrontPorch | CVSyncRnd | VBackPorch | ActFrameRate

  /** The position of a field in the output template. */
  function FieldIndex(f: Field): (i: int)
    ensures 0 <= i < |FieldOrder| && FieldOrder[i] == f
  {
    match f
    case ActHFreq => 0
    case ActVBlankTime => 1
    case VbiLines => 2
    case VBlank => 3
    case HPeriodEst => 4
    case RbMinVbi => 5
    case RefreshMultiplier => 6
    case TotalPixels => 7
    case TotalVLines => 8
    case VFieldRateRqd => 9
    case ActPixelFreq => 10
    case TotalActivePixels => 11
    case VLinesRnd => 12
    case CHFrontPorch => 13
    case CRbHSync => 14
    case HBackPorch => 15
    case VFrontPorch => 16
    case CVSyncRnd => 17
    case VBackPorch => 18
    case ActFrameRate => 19
  }

  /** The fields in the order the output template declares them. */
  const FieldOrder: seq<Field> := [
    ActHFreq, ActVBlankTime, VbiLines, VBlank, HPeriodEst, RbMinVbi,
    RefreshMultiplier, TotalPixels, TotalVLines, VFieldRateRqd, ActPixelFreq,
    TotalActivePixels, VLinesRnd, CHFrontPorch, CRbHSync, HBackPorch,
    VFrontPorch, CVSyncRnd, VBackPorch, ActFrameRate]

  /** The record under construction; `None` is `null` (or `undefined`). */
  type Record = map<Field, Option<real>>

  /** Every field name is in the template's order list. */
  lemma AllFieldsListed()
    ensures forall f: Field :: f in FieldOrder
  {
    forall f: Field ensures f in FieldOrder {
      assert FieldOrder[FieldIndex(f)] == f;
    }
  }

  /** The fresh output template: every field present and `null`. */
  function Template(): (r: Record)
    ensures forall f: Field :: f in r && r[f] == None
  {
    AllFieldsListed();
    map f | f in FieldOrder :: None
  }

  /** The output fields that share their name with a table entry. */
  predicate CopiedFromTable(f: Field) {
    f == CHFrontPorch || f == CRbHSync || f == CVSyncRnd
  }

  /** The table entry with the same name as an output field; `None` where the table has none. */
  function ConstantNamed(c: Constants, f: Field): (r: Option<real>)
    ensures r.Some? <==> CopiedFromTable(f)
  {
    match f
    case CHFrontPorch => Some(c.hFrontPorch as real)
    case CRbHSync => Some(c.rbHSync as real)
    case CVSyncRnd => Some(c.vSyncRnd as real)
    case _ => None
  }

  /** The record after the fallback: each `null` field replaced by the same-named constant. */
  function Fallback(vars: Record, c: Constants): (r: Record)
    ensures r.Keys == vars.Keys
    ensures forall f :: f in vars && vars[f].Some? ==> r[f] == vars[f]
    ensures forall f :: f in vars && vars[f].None? ==> r[f] == ConstantNamed(c, f)
  {
    map f | f in vars :: if vars[f].None? then ConstantNamed(c, f) else vars[f]
  }

  /** The fallback loop: visits the fields in order and fills each `null` one from the table. */
  method FillNulls(vars: Record, c: Constants) returns (r: Record)
    ensures r == Fallback(vars, c)
  {
    r := vars;
    for i := 0 to |FieldOrder|
      invariant r.Keys == vars.Keys
      invariant forall f :: f in r ==> r[f] == if f in FieldOrder[..i] then Fallback(vars, c)[f] else vars[f]
    {
      var key := FieldOrder[i];
      if key in r && r[key] == None {
        r := r[key := ConstantNamed(c, key)];
      }
      assert FieldOrder[..i + 1] == FieldOrder[..i] + [key];
    }
    AllFieldsListed();
    assert FieldOrder[..|FieldOrder|] == FieldOrder;
  }

  /** The number a finished timing holds under one field name. */
  function ValueOf(v: Version, t: Timing, f: Field): real {
    match f
    case ActHFreq => t.actHFreq
    case ActVBlankTime => t.actVBlankTime
    case VbiLines => t.vbiLines as real
    case VBlank => t.vBlank as real
    case HPeriodEst => t.hPeriodEst
    case RbMinVbi => t.rbMinVbi as real
    case RefreshMultiplier => t.refreshMultiplier
    case TotalPixels => t.totalPixels as real
    case TotalVLines => t.totalVLines as real
    case VFieldRateRqd => t.vFieldRateRqd
    case ActPixelFreq => t.ActPixelFreq(ConstantsFor(v))
    case TotalActivePixels => t.totalActivePixels as real
    case VLinesRnd => t.vLinesRnd as real
    case CHFrontPorch => t.hFrontPorch as real
    case CRbHSync => t.rbHSync as real
    case HBackPorch => t.hBackPorch as real
    case VFrontPorch => t.vFrontPorch as real
    case CVSyncRnd => t.vSyncRnd as real
    case VBackPorch => t.vBackPorch as real
    case ActFrameRate => t.actFrameRate
  }

  /** The finished output record of a timing: every field holds a number. */
  function RecordOf(v: Version, t: Timing): (r: Record)
    ensures forall f: Field :: f in r && r[f] == Some(ValueOf(v, t, f))
  {
    AllFieldsListed();
    map f | f in FieldOrder :: Some(ValueOf(v, t, f))
  }

  /** The record as the fifteen steps leave it, assigned in the source's order, before the fallback. */
  function Computed(v: Version, t: Timing): (r: Record)
    ensures forall f: Field :: f in r
  {
    Template()
      [VFieldRateRqd := Some(t.vFieldRateRqd)]
      [TotalActivePixels := Some(t.totalActivePixels as real)]
      [VLinesRnd := Some(t.vLinesRnd as real)]
      [HPeriodEst := Some(t.hPeriodEst)]
      [ActVBlankTime := Some(t.actVBlankTime)]
      [VbiLines := Some(t.vbiLines as real)]
      [RbMinVbi := Some(t.rbMinVbi as real)]
      [VBlank := Some(t.vBlank as real)]
      [TotalVLines := Some(t.totalVLines as real)]
      [VBackPorch := Some(t.vBackPorch as real)]
      [VFrontPorch := Some(t.vFrontPorch as real)]
      [TotalPixels := Some(t.totalPixels as real)]
      [HBackPorch := Some(t.hBackPorch as real)]
      [RefreshMultiplier := Some(t.refreshMultiplier)]
      [ActPixelFreq := Some(t.ActPixelFreq(ConstantsFor(v)))]
      [ActHFreq := Some(t.actHFreq)]
      [ActFrameRate := Some(t.actFrameRate)]
  }

  /**
   * `ComputedAt` for four of the twenty fields. The twenty lookups are split
   * into groups of four only to keep each proof small for the solver.
   */
  lemma ComputedAtTiming(v: Version, t: Timing, f: Field)
    requires f == ActHFreq || f == ActVBlankTime || f == HPeriodEst || f == ActFrameRate
    ensures f in Computed(v, t)
    ensures Computed(v, t)[f] == if CopiedFromTable(f) then None else Some(ValueOf(v, t, f))
  {
    match f
    case ActHFreq => assert Computed(v, t)[ActHFreq] == Some(t.actHFreq);
    case ActVBlankTime => assert Computed(v, t)[ActVBlankTime] == Some(t.actVBlankTime);
    case HPeriodEst => assert Computed(v, t)[HPeriodEst] == Some(t.hPeriodEst);
    case ActFrameRate => assert Computed(v, t)[ActFrameRate] == Some(t.actFrameRate);
  }

  /**
   * `ComputedAt` for four of the twenty fields. The twenty lookups are split
   * into groups of four only to keep each proof small for the solver.
   */
  lemma ComputedAtBlank(v: Version, t: Timing, f: Field)
    requires f == VbiLines || f == VBlank || f == RbMinVbi || f == VBackPorch
    ensures f in Computed(v, t)
    ensures Computed(v, t)[f] == if CopiedFromTable(f) then None else Some(ValueOf(v, t, f))
  {
    match f
    case VbiLines => assert Computed(v, t)[VbiLines] == Some(t.vbiLines as real);
    case VBlank => assert Computed(v, t)[VBlank] == Some(t.vBlank as real);
    case RbMinVbi => assert Computed(v, t)[RbMinVbi] == Some(t.rbMinVbi as real);
    case VBackPorch => assert Computed(v, t)[VBackPorch] == Some(t.vBackPorch as real);
  }

  /**
   * `ComputedAt` for four of the twenty fields. The twenty lookups are split
   * into groups of four only to keep each proof small for the solver.
   */
  lemma ComputedAtTotals(v: Version, t: Timing, f: Field)
    requires f == RefreshMultiplier || f == TotalPixels || f == TotalVLines || f == VFieldRateRqd
    ensures f in Computed(v, t)
    ensures Computed(v, t)[f] == if CopiedFromTable(f) then None else Some(ValueOf(v, t, f))
  {
    match f
    case RefreshMultiplier => assert Computed(v, t)[RefreshMultiplier] == Some(t.refreshMultiplier);
    case TotalPixels => assert Computed(v, t)[TotalPixels] == Some(t.totalPixels as real);
    case TotalVLines => assert Computed(v, t)[TotalVLines] == Some(t.totalVLines as real);
    case VFieldRateRqd => assert Computed(v, t)[VFieldRateRqd] == Some(t.vFieldRateRqd);
  }

  /**
   * `ComputedAt` for four of the twenty fields. The twenty lookups are split
   * into groups of four only to keep each proof small for the solver.
   */
  lemma ComputedAtActive(v: Version, t: Timing, f: Field)
    requires f == ActPixelFreq || f == TotalActivePixels || f == VLinesRnd || f == VFrontPorch
    ensures f in Computed(v, t)
    ensures Computed(v, t)[f] == if CopiedFromTable(f) then None else Some(ValueOf(v, t, f))
  {
    match f
    case ActPixelFreq => assert Computed(v, t)[ActPixelFreq] == Some(t.ActPixelFreq(ConstantsFor(v)));
    case TotalActivePixels => assert Computed(v, t)[TotalActivePixels] == Some(t.totalActivePixels as real);
    case VLinesRnd => assert Computed(v, t)[VLinesRnd] == Some(t.vLinesRnd as real);
    case VFrontPorch => assert Computed(v, t)[VFrontPorch] == Some(t.vFrontPorch as real);
  }

  /**
   * `ComputedAt` for four of the twenty fields. The twenty lookups are split
   * into groups of four only to keep each proof small for the solver.
   */
  lemma ComputedAtCopied(v: Version, t: Timing, f: Field)
    requires f == CHFrontPorch || f == CRbHSync || f == CVSyncRnd || f == HBackPorch
    ensures f in Computed(v, t)
    ensures Computed(v, t)[f] == if CopiedFromTable(f) then None else Some(ValueOf(v, t, f))
  {
    match f
    case CHFrontPorch => assert Computed(v, t)[CHFrontPorch] == None;
    case CRbHSync => assert Computed(v, t)[CRbHSync] == None;
    case CVSyncRnd => assert Computed(v, t)[CVSyncRnd] == None;
    case HBackPorch => assert Computed(v, t)[HBackPorch] == Some(t.hBackPorch as real);
  }

  /** What each field of the record holds once the fifteen steps are done. */
  lemma ComputedAt(v: Version, t: Timing, f: Field)
    ensures f in Computed(v, t)
    ensures Computed(v, t)[f] == if CopiedFromTable(f) then None else Some(ValueOf(v, t, f))
  {
    if f == ActHFreq || f == ActVBlankTime || f == HPeriodEst || f == ActFrameRate {
      ComputedAtTiming(v, t, f);
    } else if f == VbiLines || f == VBlank || f == RbMinVbi || f == VBackPorch {
      ComputedAtBlank(v, t, f);
    } else if f == RefreshMultiplier || f == TotalPixels || f == TotalVLines || f == VFieldRateRqd {
      ComputedAtTotals(v, t, f);
    } else if f == ActPixelFreq || f == TotalActivePixels || f == VLinesRnd || f == VFrontPorch {
      ComputedAtActive(v, t, f);
    } else {
      ComputedAtCopied(v, t, f);
    }
  }

  /** The fallback fills exactly the fields the steps leave `null`, with the values the timing holds. */
  lemma FallbackCompletes(v: Version, t: Timing)
    requires t.hFrontPorch == ConstantsFor(v).hFrontPorch && t.rbHSync == ConstantsFor(v).rbHSync
    requires t.vSyncRnd == ConstantsFor(v).vSyncRnd
    ensures Fallback(Computed(v, t), ConstantsFor(v)) == RecordOf(v, t)
  {
    var c := ConstantsFor(v);
    var filled := Fallback(Computed(v, t), c);
    forall f: Field ensures f in filled && filled[f] == RecordOf(v, t)[f] {
      ComputedAt(v, t, f);
      if CopiedFromTable(f) {
        assert filled[f] == ConstantNamed(c, f);
        assert ConstantNamed(c, f) == Some(ValueOf(v, t, f)) by {
          match f
          case CHFrontPorch =>
          case CRbHSync =>
          case CVSyncRnd =>
        }
      }
    }
    assert filled.Keys == RecordOf(v, t).Keys;
  }

  /** Why a calculation produced no record. */
  datatype CalcError =
    | MissingParameter  // a parameter without an initial value was never set
    | NonFinite         // step 6 or step 14 would divide by zero

  /**
   * calculate(cvtRbVersion, input): fills a fresh output record step by
   * step, then fills the remaining `null` fields from the constant table.
   */
  method Calculate(v: Version, input: Inputs) returns (r: Result<Record, CalcError>)
    requires input.Valid()
    ensures input.Snapshot().None? ==> r == Failure(MissingParameter)
    ensures input.Snapshot().Some? && !Computable(v, input.Snapshot().value) ==> r == Failure(NonFinite)
    ensures input.Snapshot().Some? && Computable(v, input.Snapshot().value) ==>
              r == Success(RecordOf(v, Compute(v, input.Snapshot().value)))
  {
    var snapshot := input.Snapshot();
    if snapshot.None? {
      return Failure(MissingParameter);
    }
    var p := snapshot.value;
    if !Computable(v, p) {
      return Failure(NonFinite);
    }
    var c := ConstantsFor(v);
    ghost var t := Compute(v, p);
    var vars := Template();
    // 1.
    var rate := FieldRate(c, p.ipFreqRqd);
    vars := vars[VFieldRateRqd := Some(rate)];
    // 2.
    var activePixels := ActivePixels(c, p.hPixels);
    vars := vars[TotalActivePixels := Some(activePixels as real)];
    // 3.
    var lines := RoundedLines(p.vLines);
    vars := vars[VLinesRnd := Some(lines as real)];
    // 4.
    var hPeriod := EstimatedHPeriod(c, rate, lines);
    vars := vars[HPeriodEst := Some(hPeriod)];
    // 5.
    var blankTime := BlankTime(c, p);
    vars := vars[ActVBlankTime := Some(blankTime)];
    // 6.
    var vbi := IdealVbiLines(blankTime, hPeriod);
    vars := vars[VbiLines := Some(vbi as real)];
    // 7.
    var minVbi := MinVbi(c);
    vars := vars[RbMinVbi := Some(minVbi as real)];
    var vBlank := ClampedVBlank(vbi, minVbi);
    vars := vars[VBlank := Some(vBlank as real)];
    // 8.
    var totalLines := vBlank + lines;
    vars := vars[TotalVLines := Some(totalLines as real)];
    // 9.
    var vBack := VBackPorchLines(v, c, p.earlyVsyncRqd, vbi);
    vars := vars[VBackPorch := Some(vBack as real)];
    // 10.
    var vFront := vBlank - vBack - c.vSyncRnd;
    vars := vars[VFrontPorch := Some(vFront as real)];
    // 11.
    var extra := ExtraHBlank(v, p);
    var totalPixels := LinePixels(c, activePixels, extra);
    vars := vars[TotalPixels := Some(totalPixels as real)];
    // 12.
    var hBack := HBackPorchPixels(c, extra);
    vars := vars[HBackPorch := Some(hBack as real)];
    // 13.
    var multiplier := Multiplier(v, p.videoOpt);
    vars := vars[RefreshMultiplier := Some(multiplier)];
    var steps := ClockSteps(v, c, RawPixelClock(rate, totalLines, totalPixels, multiplier));
    var pixelFreq := c.clockStep * steps as real;
    vars := vars[ActPixelFreq := Some(pixelFreq)];
    // 14.
    var hFreq := HFrequency(pixelFreq, totalPixels);
    vars := vars[ActHFreq := Some(hFreq)];
    // 15.
    var frameRate := FrameRate(hFreq, totalLines);
    vars := vars[ActFrameRate := Some(frameRate)];

    assert t == Timing(hFreq, blankTime, vbi, vBlank, hPeriod, minVbi, multiplier, totalPixels,
                       totalLines, rate, steps, activePixels, lines, c.hFrontPorch, c.rbHSync, hBack,
                       vFront, c.vSyncRnd, vBack, frameRate);
    assert vars == Computed(v, t);
    vars := FillNulls(vars, c);
    FallbackCompletes(v, t);
    r := Success(vars);
  }
}
