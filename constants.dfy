/**
 * The per-version constant tables of the reduced-blanking (RB) timing
 * formula of the VESA Coordinated Video Timings standard, version 2.0.
 */
module CvtConstants {

  /** The RB formula revision the calculation is asked for ('v2' or 'v3'). */
  datatype Version = V2 | V3

  /** One constant table; each field is named after its C_ entry. */
  datatype Constants = Constants(
    clockStep: real,       // C_CLOCK_STEP: pixel clock precision (MHz)
    cellGran: int,         // C_CELL_GRAN_RND: character cell width (pixels)
    hFrontPorch: int,      // C_H_FRONT_PORCH: horizontal front porch (pixels)
    rbHBlank: int,         // C_RB_H_BLANK: minimum RB horizontal blank (pixels)
    rbHSync: int,          // C_RB_H_SYNC: RB horizontal sync width (pixels)
    rbMinVBlank: int,      // C_RB_MIN_V_BLANK: minimum RB vertical blank (us)
    rbVFPorch: int,        // C_RB_V_FPORCH: minimum vertical front porch (lines)
    vSyncRnd: int,         // C_V_SYNC_RND: vertical sync width (lines)
    minVBPorch: int,       // C_MIN_V_BPORCH: minimum vertical back porch (lines)
    vFieldRatePpmAdj: int  // C_V_FIELD_RATE_PPM_ADJ: refresh-rate offset (ppm)
  )

  /** The divisors and offsets the calculation relies on are in range. */
  predicate WellFormed(c: Constants) {
    c.clockStep > 0.0 && c.cellGran > 0 && c.rbMinVBlank > 0 && c.vFieldRatePpmAdj > -1000000
  }

  /** The table selected by the version token. */
  function ConstantsFor(v: Version): (c: Constants)
    ensures WellFormed(c)
    ensures c.clockStep == 1.0 / 1000.0
    ensures (c.cellGran == 1) <==> (v == V2)
    ensures (c.vFieldRatePpmAdj == 0) <==> (v == V2)
    ensures v == V3 ==> c.cellGran == 8 && c.vFieldRatePpmAdj == 350
  {
    match v
    case V2 => Constants(0.001, 1, 8, 80, 32, 460, 1, 8, 6, 0)
    case V3 => Constants(0.001, 8, 8, 80, 32, 460, 1, 8, 6, 350)
  }
}
