/**
 * The calculator's validated input parameters. Five parameters have
 * setters that check the value and refuse it before storing; three are
 * plain data that any value may be written to.
 */
module CvtInputs {
  import opened Wrappers

  /** Legal values of I_RED_BLANK_VER. */
  predicate IsRbVersion(v: int) {
    v == 2 || v == 3
  }

  /** Legal values of I_H_PIXELS and I_V_LINES: positive integers. */
  predicate IsPositiveCount(n: int) {
    n > 0
  }

  /** Legal values of I_IP_FREQ_RQD: positive (finite) reals. */
  predicate IsPositiveRate(f: real) {
    f > 0.0
  }

  /** A snapshot of all eight parameters once every one of them holds a value. */
  datatype Params = Params(
    redBlankVer: int,      // I_RED_BLANK_VER
    hPixels: int,          // I_H_PIXELS
    vLines: int,           // I_V_LINES
    ipFreqRqd: real,       // I_IP_FREQ_RQD (Hz)
    videoOpt: bool,        // I_VIDEO_OPT
    additionalHBlank: int, // I_ADDITIONAL_HBLANK (pixels)
    vBlankTime: real,      // I_VBLANK (us)
    earlyVsyncRqd: bool    // I_EARLY_VSYNC_RQD
  )
  {
    /** What the validating setters guarantee about the stored values. */
    predicate Valid() {
      IsRbVersion(redBlankVer) && IsPositiveCount(hPixels) && IsPositiveCount(vLines) &&
      IsPositiveRate(ipFreqRqd)
    }
  }

  /** The mutable input record; `None` stands for the source's initial `null`. */
  class Inputs {
    var redBlankVer: int
    var hPixels: Option<int>
    var vLines: Option<int>
    var ipFreqRqd: Option<real>
    var videoOpt: bool
    var additionalHBlank: int
    var vBlankTime: real
    var earlyVsyncRqd: bool

    /** Every value held by a validated parameter passed its setter's check. */
    predicate Valid()
      reads this
    {
      IsRbVersion(redBlankVer) &&
      (hPixels.Some? ==> IsPositiveCount(hPixels.value)) &&
      (vLines.Some? ==> IsPositiveCount(vLines.value)) &&
      (ipFreqRqd.Some? ==> IsPositiveRate(ipFreqRqd.value))
    }

    /** The record with its initial values. */
    constructor ()
      ensures Valid()
      ensures redBlankVer == 2 && hPixels == None && vLines == None && ipFreqRqd == None
      ensures !videoOpt && additionalHBlank == 0 && vBlankTime == 460.0 && !earlyVsyncRqd
    {
      redBlankVer := 2;
      hPixels, vLines, ipFreqRqd := None, None, None;
      videoOpt := false;
      additionalHBlank := 0;
      vBlankTime := 460.0;
      earlyVsyncRqd := false;
    }

    /** Setter of I_RED_BLANK_VER: accepts 2 or 3, otherwise fails and keeps the old value. */
    method SetRedBlankVer(v: int) returns (ok: bool)
      requires Valid()
      modifies this`redBlankVer
      ensures Valid()
      ensures ok <==> IsRbVersion(v)
      ensures redBlankVer == if ok then v else old(redBlankVer)
    {
      if !IsRbVersion(v) {
        return false;
      }
      redBlankVer := v;
      ok := true;
    }

    /** Setter of I_H_PIXELS: accepts a positive integer, otherwise fails and keeps the old value. */
    method SetHPixels(v: int) returns (ok: bool)
      requires Valid()
      modifies this`hPixels
      ensures Valid()
      ensures ok <==> IsPositiveCount(v)
      ensures hPixels == if ok then Some(v) else old(hPixels)
    {
      if v <= 0 {
        return false;
      }
      hPixels := Some(v);
      ok := true;
    }

    /** Setter of I_V_LINES: accepts a positive integer, otherwise fails and keeps the old value. */
    method SetVLines(v: int) returns (ok: bool)
      requires Valid()
      modifies this`vLines
      ensures Valid()
      ensures ok <==> IsPositiveCount(v)
      ensures vLines == if ok then Some(v) else old(vLines)
    {
      if v <= 0 {
        return false;
      }
      vLines := Some(v);
      ok := true;
    }

    /** Setter of I_IP_FREQ_RQD: accepts a positive real, otherwise fails and keeps the old value. */
    method SetIpFreqRqd(v: real) returns (ok: bool)
      requires Valid()
      modifies this`ipFreqRqd
      ensures Valid()
      ensures ok <==> IsPositiveRate(v)
      ensures ipFreqRqd == if ok then Some(v) else old(ipFreqRqd)
    {
      if v <= 0.0 {
        return false;
      }
      ipFreqRqd := Some(v);
      ok := true;
    }

    /** Setter of I_VIDEO_OPT: every boolean is legal, so it always stores. */
    method SetVideoOpt(v: bool)
      requires Valid()
      modifies this`videoOpt
      ensures Valid()
      ensures videoOpt == v
    {
      videoOpt := v;
    }

    /** The parameters as a value, once the three parameters without an initial value are set. */
    function Snapshot(): (r: Option<Params>)
      reads this
      ensures r.Some? <==> hPixels.Some? && vLines.Some? && ipFreqRqd.Some?
      ensures r.Some? ==> r.value.redBlankVer == redBlankVer && r.value.videoOpt == videoOpt
      ensures r.Some? ==> Some(r.value.hPixels) == hPixels && Some(r.value.vLines) == vLines
      ensures r.Some? ==> Some(r.value.ipFreqRqd) == ipFreqRqd
      ensures r.Some? ==> r.value.additionalHBlank == additionalHBlank
      ensures r.Some? ==> r.value.vBlankTime == vBlankTime && r.value.earlyVsyncRqd == earlyVsyncRqd
      ensures Valid() && r.Some? ==> r.value.Valid()
    {
      if hPixels.Some? && vLines.Some? && ipFreqRqd.Some? then
        Some(Params(redBlankVer, hPixels.value, vLines.value, ipFreqRqd.value, videoOpt,
                    additionalHBlank, vBlankTime, earlyVsyncRqd))
      else
        None
    }
  }
}
