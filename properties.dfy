/**
 * Properties of the whole RB calculation: rounding bounds, the
 * decompositions of the horizontal and vertical blanks, the pixel clock's
 * rounding direction, the frequency identities, and the quirks of the
 * formula as written.
 */
module CvtProperties {
  import opened Wrappers
  import opened CvtConstants
  import opened CvtInputs
  import opened RealArith
  import opened CvtCalculator

  /** Step 2: the active width is whole character cells, at most the request and within one cell of it. */
  lemma ActivePixelsRounding(v: Version, p: Params)
    requires p.Valid() && Computable(v, p)
    ensures var t, g := Compute(v, p), ConstantsFor(v).cellGran;
      t.totalActivePixels % g == 0 && t.totalActivePixels <= p.hPixels < t.totalActivePixels + g
    ensures v == V2 ==> Compute(v, p).totalActivePixels == p.hPixels
    ensures v == V3 ==> Compute(v, p).totalActivePixels % 8 == 0
  {
  }

  /** Steps 3 and 7: the blank is the idealized line count raised to 1 + 8 + 6 = 15 lines. */
  lemma VBlankIsClampedVbi(v: Version, p: Params)
    requires p.Valid() && Computable(v, p)
    ensures var t := Compute(v, p);
      t.vLinesRnd == p.vLines && t.rbMinVbi == 15 &&
      t.vBlank == (if t.vbiLines < 15 then 15 else t.vbiLines) &&
      t.vBlank >= 15 && t.vBlank >= t.vbiLines
  {
  }

  /** Steps 8 and 10: front porch, sync and back porch fill the blank, and blank plus active lines make the frame. */
  lemma VerticalDecomposition(v: Version, p: Params)
    requires p.Valid() && Computable(v, p)
    ensures var t := Compute(v, p);
      t.vFrontPorch + t.vSyncRnd + t.vBackPorch == t.vBlank &&
      t.totalVLines == t.vBlank + t.vLinesRnd && t.vSyncRnd == 8
  {
  }

  /** Step 9 without early vsync: the back porch is the 6-line minimum and the front porch is at least one line. */
  lemma LateVsyncPorches(v: Version, p: Params)
    requires p.Valid() && Computable(v, p)
    requires !(v == V3 && p.earlyVsyncRqd)
    ensures var t := Compute(v, p);
      t.vBackPorch == 6 && t.vFrontPorch == t.vBlank - 14 && t.vFrontPorch >= 1
  {
    VBlankIsClampedVbi(v, p);
  }

  /** Step 9 with RB v3 early vsync: the back porch is half the unclamped line count, and the front porch is never negative. */
  lemma EarlyVsyncPorches(p: Params)
    requires p.Valid() && Computable(V3, p)
    requires p.earlyVsyncRqd
    ensures var t := Compute(V3, p);
      2 * t.vBackPorch <= t.vbiLines < 2 * t.vBackPorch + 2 && t.vFrontPorch >= 0
  {
    var t := Compute(V3, p);
    VBlankIsClampedVbi(V3, p);
    VerticalDecomposition(V3, p);
    assert 2 * t.vBackPorch <= t.vbiLines;
    if t.vbiLines < 15 {
      assert t.vBlank == 15;
      assert t.vBackPorch <= 7;
    } else {
      assert t.vBlank == t.vbiLines;
      assert 2 * t.vFrontPorch == 2 * t.vbiLines - 2 * t.vBackPorch - 16;
    }
  }

  /** Steps 11 and 12: active pixels, front porch, sync and back porch make the line; only RB v3 adds the extra blank. */
  lemma HorizontalDecomposition(v: Version, p: Params)
    requires p.Valid() && Computable(v, p)
    ensures var t := Compute(v, p);
      t.totalPixels == t.totalActivePixels + t.hFrontPorch + t.rbHSync + t.hBackPorch &&
      t.hFrontPorch == 8 && t.rbHSync == 32
    ensures v == V2 ==>
      Compute(v, p).hBackPorch == 40 && Compute(v, p).totalPixels == Compute(v, p).totalActivePixels + 80
    ensures v == V3 ==>
      Compute(v, p).hBackPorch == 40 + p.additionalHBlank &&
      Compute(v, p).totalPixels == Compute(v, p).totalActivePixels + 80 + p.additionalHBlank
  {
  }

  /** Step 13: the multiplier is 1000/1001 exactly for a video-optimized RB v2 timing, and 1 otherwise. */
  lemma RefreshMultiplierCases(v: Version, p: Params)
    requires p.Valid() && Computable(v, p)
    ensures Compute(v, p).refreshMultiplier == if v == V2 && p.videoOpt then 1000.0 / 1001.0 else 1.0
  {
  }

  /** The unrounded pixel clock of a computed timing (MHz). */
  function RawFreq(t: Timing): real {
    RawPixelClock(t.vFieldRateRqd, t.totalVLines, t.totalPixels, t.refreshMultiplier)
  }

  /** Step 13: the pixel clock is a whole number of 0.001 MHz steps, below the raw value for RB v2 and above it for RB v3. */
  lemma PixelClockRounding(v: Version, p: Params)
    requires p.Valid() && Computable(v, p)
    ensures var t, c := Compute(v, p), ConstantsFor(v);
      t.ActPixelFreq(c) == t.pixelFreqSteps as real * (1.0 / 1000.0)
    ensures var t, c := Compute(v, p), ConstantsFor(v);
      v == V2 ==> RawFreq(t) - 1.0 / 1000.0 < t.ActPixelFreq(c) <= RawFreq(t)
    ensures var t, c := Compute(v, p), ConstantsFor(v);
      v == V3 ==> RawFreq(t) <= t.ActPixelFreq(c) < RawFreq(t) + 1.0 / 1000.0
  {
  }

  /** Step 13: the pixel clock is never negative for RB v2, nor for RB v3 with a non-negative additional blank. */
  lemma PixelClockNonNegative(v: Version, p: Params)
    requires p.Valid() && Computable(v, p)
    requires v == V3 ==> p.additionalHBlank >= 0
    ensures Compute(v, p).pixelFreqSteps >= 0
  {
    var t := Compute(v, p);
    ActivePixelsRounding(v, p);
    HorizontalDecomposition(v, p);
    assert t.totalActivePixels >= 0;
    assert t.totalPixels > 0;
    RawPixelClockSign(t.vFieldRateRqd, t.totalVLines, t.totalPixels, t.refreshMultiplier);
    assert RawFreq(t) >= 0.0;
    PixelClockRounding(v, p);
  }

  /** I_ADDITIONAL_HBLANK is unchecked: far below its documented range it makes the RB v3 line, and so the pixel clock, negative. */
  lemma NegativeHBlankGivesNegativeClock()
    ensures Params(3, 1920, 1080, 60.0, false, -4000, 460.0, false).Valid()
    ensures Computable(V3, Params(3, 1920, 1080, 60.0, false, -4000, 460.0, false))
    ensures Compute(V3, Params(3, 1920, 1080, 60.0, false, -4000, 460.0, false)).totalPixels == -2000
    ensures Compute(V3, Params(3, 1920, 1080, 60.0, false, -4000, 460.0, false)).pixelFreqSteps == -133366
  {
    var c := ConstantsFor(V3);
    assert FieldRate(c, 60.0) == 60.021;
    assert ActivePixels(c, 1920) == 1920 by {
      FloorTimesBounds(1920, 8);
    }
    var h := EstimatedHPeriod(c, 60.021, 1080);
    assert h == (1000000.0 / 60.021 - 460.0) / 1080.0;
    assert 30.0 < 460.0 / h < 31.0;
    assert IdealVbiLines(460.0, h) == 31;
    assert RawPixelClock(60.021, 1111, -2000, 1.0) == -133.366662;
    assert ClockSteps(V3, c, -133.366662) == -133366;
  }

  /** Steps 14 and 15: the frequencies are the pixel clock divided down by the line and frame lengths. */
  lemma FrequencyIdentities(v: Version, p: Params)
    requires p.Valid() && Computable(v, p)
    ensures var t, c := Compute(v, p), ConstantsFor(v);
      t.actHFreq * t.totalPixels as real == 1000.0 * t.ActPixelFreq(c) &&
      t.actFrameRate * t.totalVLines as real == 1000.0 * t.actHFreq
  {
    FrequencySteps(v, p);
    StepFrequencies(Compute(v, p), ConstantsFor(v));
  }

  /** A timing whose steps 14 and 15 are `HFrequency` and `FrameRate` satisfies both identities. */
  lemma StepFrequencies(t: Timing, c: Constants)
    requires t.totalPixels != 0 && t.totalVLines != 0
    requires t.actHFreq == HFrequency(t.ActPixelFreq(c), t.totalPixels)
    requires t.actFrameRate == FrameRate(t.actHFreq, t.totalVLines)
    ensures t.actHFreq * t.totalPixels as real == 1000.0 * t.ActPixelFreq(c)
    ensures t.actFrameRate * t.totalVLines as real == 1000.0 * t.actHFreq
  {
  }

  /** Steps 14 and 15 of `Compute`, as calls of `HFrequency` and `FrameRate`. */
  lemma FrequencySteps(v: Version, p: Params)
    requires p.Valid() && Computable(v, p)
    ensures var t := Compute(v, p);
      t.actHFreq == HFrequency(t.ActPixelFreq(ConstantsFor(v)), t.totalPixels) &&
      t.actFrameRate == FrameRate(t.actHFreq, t.totalVLines)
  {
  }


  /** The unrounded clock has the sign of the line length, for a positive rate and line count and a positive multiplier. */
  lemma RawPixelClockSign(rate: real, lines: int, pixels: int, m: real)
    requires rate > 0.0 && lines > 0
    ensures pixels > 0 && m >= 0.0 ==> RawPixelClock(rate, lines, pixels, m) >= 0.0
    ensures pixels > 0 && m > 0.0 ==> RawPixelClock(rate, lines, pixels, m) > 0.0
    ensures pixels == 0 ==> RawPixelClock(rate, lines, pixels, m) == 0.0
    ensures pixels < 0 && m > 0.0 ==> RawPixelClock(rate, lines, pixels, m) < 0.0
  {
    ProductSign(rate, lines as real, pixels as real, m);
  }

  /** The unrounded clock grows with the rate, the line count, the line length and the multiplier. */
  lemma RawPixelClockMonotone(rate1: real, lines1: int, pixels1: int, m1: real,
                              rate2: real, lines2: int, pixels2: int, m2: real)
    requires 0.0 < rate1 <= rate2 && 0 < lines1 <= lines2 && 0 < pixels1 <= pixels2 && 0.0 <= m1 <= m2
    ensures RawPixelClock(rate1, lines1, pixels1, m1) <= RawPixelClock(rate2, lines2, pixels2, m2)
  {
    MulMonotone(rate1, rate2, lines1 as real, lines2 as real);
    var x1, x2 := rate1 * lines1 as real, rate2 * lines2 as real;
    MulSign(rate1, lines1 as real);
    MulMonotone(x1, x2, pixels1 as real, pixels2 as real);
    var y1, y2 := x1 * pixels1 as real, x2 * pixels2 as real;
    MulSign(x1, pixels1 as real);
    assert 0.0 <= y1 / 1000000.0 <= y2 / 1000000.0;
    MulMonotone(y1 / 1000000.0, y2 / 1000000.0, m1, m2);
  }

  /** Rounding down to whole RB v2 clock steps is monotone. */
  lemma V2ClockStepsMonotone(raw1: real, raw2: real)
    requires raw1 <= raw2
    ensures ClockSteps(V2, ConstantsFor(V2), raw1) <= ClockSteps(V2, ConstantsFor(V2), raw2)
  {
  }

  /** For RB v2, asking for the video-optimized variant never raises the pixel clock. */
  lemma VideoOptNeverRaisesClock(p: Params)
    requires p.Valid() && Computable(V2, p)
    ensures Computable(V2, p.(videoOpt := true)) && Computable(V2, p.(videoOpt := false))
    ensures Compute(V2, p.(videoOpt := true)).pixelFreqSteps <= Compute(V2, p.(videoOpt := false)).pixelFreqSteps
  {
    var on, off, c := p.(videoOpt := true), p.(videoOpt := false), ConstantsFor(V2);
    assert ExtraHBlank(V2, on) == ExtraHBlank(V2, off) && BlankTime(c, on) == BlankTime(c, off);
    var tOn, tOff := Compute(V2, on), Compute(V2, off);
    var rate, lines, pixels := tOff.vFieldRateRqd, tOff.totalVLines, tOff.totalPixels;
    assert tOn.vFieldRateRqd == rate && tOn.totalVLines == lines && tOn.totalPixels == pixels;
    assert tOn.pixelFreqSteps == ClockSteps(V2, c, RawPixelClock(rate, lines, pixels, 1000.0 / 1001.0));
    assert tOff.pixelFreqSteps == ClockSteps(V2, c, RawPixelClock(rate, lines, pixels, 1.0));
    RawPixelClockMonotone(rate, lines, pixels, 1000.0 / 1001.0, rate, lines, pixels, 1.0);
    V2ClockStepsMonotone(RawPixelClock(rate, lines, pixels, 1000.0 / 1001.0), RawPixelClock(rate, lines, pixels, 1.0));
  }

  /** Step 4: the estimated line period is positive exactly when one frame outlasts the 460 us minimum blank. */
  lemma HPeriodPositive(v: Version, p: Params)
    requires p.Valid() && Computable(v, p)
    ensures var t := Compute(v, p);
      t.hPeriodEst > 0.0 <==> t.vFieldRateRqd * 460.0 < 1000000.0
  {
  }

  /** For RB v2 the line length is always positive, so only the step 4 divisor can make the calculation undefined. */
  lemma V2LineAlwaysPositive(p: Params)
    requires p.Valid()
    ensures var c := ConstantsFor(V2);
      LinePixels(c, ActivePixels(c, p.hPixels), ExtraHBlank(V2, p)) == p.hPixels + 80
    ensures Computable(V2, p) <==> p.ipFreqRqd * 460.0 != 1000000.0
  {
  }

  /** RB v2 treats any additional hblank as 0: changing it changes nothing in the result. */
  lemma AdditionalHBlankIgnoredForV2(p: Params, x: int)
    requires p.Valid() && Computable(V2, p)
    ensures p.(additionalHBlank := x).Valid() && Computable(V2, p.(additionalHBlank := x))
    ensures Compute(V2, p.(additionalHBlank := x)) == Compute(V2, p)
  {
    var q, c := p.(additionalHBlank := x), ConstantsFor(V2);
    assert ExtraHBlank(V2, q) == ExtraHBlank(V2, p);
    assert BlankTime(c, q) == BlankTime(c, p);
  }

  /** The calculation never reads I_RED_BLANK_VER: the version comes only from the version token. */
  lemma RedBlankVerIgnored(v: Version, p: Params, w: int)
    requires p.Valid() && Computable(v, p) && IsRbVersion(w)
    ensures p.(redBlankVer := w).Valid() && Computable(v, p.(redBlankVer := w))
    ensures Compute(v, p.(redBlankVer := w)) == Compute(v, p)
  {
    var q, c := p.(redBlankVer := w), ConstantsFor(v);
    assert q.hPixels == p.hPixels && q.vLines == p.vLines && q.ipFreqRqd == p.ipFreqRqd;
    assert q.videoOpt == p.videoOpt && q.earlyVsyncRqd == p.earlyVsyncRqd;
    assert ExtraHBlank(v, q) == ExtraHBlank(v, p);
    assert BlankTime(c, q) == BlankTime(c, p);
  }

  /** Step 5 as written takes the requested blank time even below the minimum. */
  lemma BlankTimeAsWritten(v: Version, p: Params)
    requires p.Valid() && Computable(v, p)
    ensures Compute(v, p).actVBlankTime == p.vBlankTime
  {
  }

  /** The minimum-raising form of step 5 agrees with the code for every request of at least 460 us. */
  lemma IntendedBlankTimeAgrees(v: Version, p: Params)
    requires p.vBlankTime >= 460.0
    ensures IntendedBlankTime(ConstantsFor(v), p) == BlankTime(ConstantsFor(v), p)
  {
  }

  /** Below 460 us the code keeps the short request, which the commented formula raises to the minimum. */
  lemma BlankTimeBelowMinimum(v: Version, p: Params)
    requires p.vBlankTime < 460.0
    ensures BlankTime(ConstantsFor(v), p) < IntendedBlankTime(ConstantsFor(v), p) == 460.0
  {
  }

  /** 1920 x 1080 at 60 Hz with the default optional inputs. */
  function Example1080p60(): (p: Params)
    ensures p.Valid()
  {
    Params(2, 1920, 1080, 60.0, false, 0, 460.0, false)
  }

  /** RB v2 gives 2000 x 1111 total at 133.320 MHz. */
  lemma Example1080p60V2()
    ensures Computable(V2, Example1080p60())
    ensures var t := Compute(V2, Example1080p60());
      t.totalActivePixels == 1920 && t.vLinesRnd == 1080 && t.vbiLines == 31 &&
      t.totalPixels == 2000 && t.totalVLines == 1111 && t.pixelFreqSteps == 133320
  {
    var p, c := Example1080p60(), ConstantsFor(V2);
    assert FieldRate(c, 60.0) == 60.0;
    assert ActivePixels(c, 1920) == 1920;
    assert EstimatedHPeriod(c, 60.0, 1080) == 2431.0 / 162.0;
    assert IdealVbiLines(460.0, 2431.0 / 162.0) == 31;
    assert RawPixelClock(60.0, 1111, 2000, 1.0) == 133.32;
    assert ClockSteps(V2, c, 133.32) == 133320;
  }

  /** RB v3 rounds the 350 ppm faster clock up to 133.367 MHz on the same 2000 x 1111 raster. */
  lemma Example1080p60V3()
    ensures Computable(V3, Example1080p60())
    ensures var t := Compute(V3, Example1080p60());
      t.totalActivePixels == 1920 && t.vLinesRnd == 1080 && t.vbiLines == 31 &&
      t.totalPixels == 2000 && t.totalVLines == 1111 && t.pixelFreqSteps == 133367
  {
    var p, c := Example1080p60(), ConstantsFor(V3);
    assert FieldRate(c, 60.0) == 60.021;
    assert ActivePixels(c, 1920) == 1920 by {
      FloorTimesBounds(1920, 8);
    }
    var h := EstimatedHPeriod(c, 60.021, 1080);
    assert h == (1000000.0 / 60.021 - 460.0) / 1080.0;
    assert 30.0 < 460.0 / h < 31.0;
    assert IdealVbiLines(460.0, h) == 31;
    assert RawPixelClock(60.021, 1111, 2000, 1.0) == 133.366662;
    assert ClockSteps(V3, c, 133.366662) == 133367;
  }

  /** A higher field rate leaves a shorter estimated line period. */
  lemma HPeriodAntitone(c: Constants, rate1: real, rate2: real, lines: int)
    requires 0.0 < rate1 <= rate2 && lines > 0
    ensures EstimatedHPeriod(c, rate2, lines) <= EstimatedHPeriod(c, rate1, lines)
  {
    DivAntitone(1000000.0, rate1, rate2);
    DivMonotone(1000000.0 / rate2 - c.rbMinVBlank as real, 1000000.0 / rate1 - c.rbMinVBlank as real, lines as real);
  }

  /** A shorter line period never gives fewer blanking lines. */
  lemma VBlankAntitone(blankTime: real, h1: real, h2: real, minVbi: int)
    requires 0.0 < h1 <= h2 && minVbi >= 0
    ensures ClampedVBlank(IdealVbiLines(blankTime, h2), minVbi) <= ClampedVBlank(IdealVbiLines(blankTime, h1), minVbi)
  {
    var vbi1, vbi2 := IdealVbiLines(blankTime, h1), IdealVbiLines(blankTime, h2);
    if blankTime > 0.0 {
      DivAntitone(blankTime, h1, h2);
      CeilMonotone(blankTime / h2, blankTime / h1);
      assert vbi2 <= vbi1;
    } else {
      DivMonotone(blankTime, 0.0, h1);
      DivMonotone(blankTime, 0.0, h2);
      assert vbi1 <= 0 && vbi2 <= 0;
    }
  }

  /** A cell-aligned width and a non-negative additional blank: the RB v3 clock is at least the RB v2 clock. */
  lemma V3ClockAtLeastV2(p: Params)
    requires p.Valid() && p.hPixels % 8 == 0 && p.additionalHBlank >= 0
    requires FieldRate(ConstantsFor(V3), p.ipFreqRqd) * 460.0 < 1000000.0
    ensures Computable(V2, p) && Computable(V3, p)
    ensures Compute(V3, p).pixelFreqSteps >= Compute(V2, p).pixelFreqSteps
  {
    var c2, c3 := ConstantsFor(V2), ConstantsFor(V3);
    var r2, r3 := FieldRate(c2, p.ipFreqRqd), FieldRate(c3, p.ipFreqRqd);
    assert r2 == p.ipFreqRqd && r3 == p.ipFreqRqd * 1.00035 && r2 < r3;
    assert ActivePixels(c2, p.hPixels) == p.hPixels && ActivePixels(c3, p.hPixels) == p.hPixels;
    var t2, t3 := Compute(V2, p), Compute(V3, p);
    HPeriodAntitone(c2, r2, r3, p.vLines);
    assert 0.0 < t3.hPeriodEst <= t2.hPeriodEst;
    VBlankAntitone(p.vBlankTime, t3.hPeriodEst, t2.hPeriodEst, 15);
    assert t2.vBlank <= t3.vBlank;
    assert 0 < t2.totalVLines <= t3.totalVLines;
    assert 0 < t2.totalPixels <= t3.totalPixels;
    assert 0.0 <= t2.refreshMultiplier <= t3.refreshMultiplier == 1.0;
    RawPixelClockMonotone(r2, t2.totalVLines, t2.totalPixels, t2.refreshMultiplier,
                          r3, t3.totalVLines, t3.totalPixels, t3.refreshMultiplier);
    assert RawFreq(t2) <= RawFreq(t3);
    assert t2.pixelFreqSteps as real * c2.clockStep <= RawFreq(t2);
    assert RawFreq(t3) <= t3.pixelFreqSteps as real * c3.clockStep;
  }

  /** A width that is not whole cells loses pixels under RB v3, whose clock can then fall below RB v2's. */
  lemma V3ClockBelowV2Off8()
    ensures Params(2, 1927, 1080, 60.0, false, 0, 460.0, false).Valid()
    ensures Computable(V2, Params(2, 1927, 1080, 60.0, false, 0, 460.0, false))
    ensures Computable(V3, Params(2, 1927, 1080, 60.0, false, 0, 460.0, false))
    ensures var t := Compute(V2, Params(2, 1927, 1080, 60.0, false, 0, 460.0, false));
      t.totalPixels == 2007 && t.pixelFreqSteps == 133786
    ensures var t := Compute(V3, Params(2, 1927, 1080, 60.0, false, 0, 460.0, false));
      t.totalPixels == 2000 && t.pixelFreqSteps == 133367
  {
    var c2, c3 := ConstantsFor(V2), ConstantsFor(V3);
    assert FieldRate(c2, 60.0) == 60.0;
    assert ActivePixels(c2, 1927) == 1927;
    assert EstimatedHPeriod(c2, 60.0, 1080) == 2431.0 / 162.0;
    assert IdealVbiLines(460.0, 2431.0 / 162.0) == 31;
    assert RawPixelClock(60.0, 1111, 2007, 1.0) == 133.78662;
    assert ClockSteps(V2, c2, 133.78662) == 133786;
    assert FieldRate(c3, 60.0) == 60.021;
    assert ActivePixels(c3, 1927) == 1920 by {
      FloorTimesBounds(1927, 8);
    }
    var h := EstimatedHPeriod(c3, 60.021, 1080);
    assert h == (1000000.0 / 60.021 - 460.0) / 1080.0;
    assert 30.0 < 460.0 / h < 31.0;
    assert IdealVbiLines(460.0, h) == 31;
    assert RawPixelClock(60.021, 1111, 2000, 1.0) == 133.366662;
    assert ClockSteps(V3, c3, 133.366662) == 133367;
  }

  /** A finished calculation reports every output field, each with the value of the same-named quantity. */
  lemma RecordHoldsTiming(v: Version, p: Params, f: Field)
    requires p.Valid() && Computable(v, p)
    ensures var r := RecordOf(v, Compute(v, p));
      f in r && r[f] == Some(ValueOf(v, Compute(v, p), f))
    ensures var r := RecordOf(v, Compute(v, p));
      r[CHFrontPorch] == Some(8.0) && r[CRbHSync] == Some(32.0) && r[CVSyncRnd] == Some(8.0)
  {
    var t := Compute(v, p);
    assert t.hFrontPorch == 8 && t.rbHSync == 32 && t.vSyncRnd == 8;
    assert ValueOf(v, t, CHFrontPorch) == 8.0 && ValueOf(v, t, CRbHSync) == 32.0;
    assert ValueOf(v, t, CVSyncRnd) == 8.0;
  }
}
