/** The timestamp-rewrite rule both pad probes apply to every buffer: a PTS
    above the shared baseline is pushed forward by 20000 s, and a DTS not
    later than the original PTS is pushed forward by 19999 s. */
module TimestampRewrite {
  import opened Wrappers
  import opened ClockTime

  /** Shift applied to a PTS that exceeds the baseline. */
  const OFFSET_PTS: nat := FromSeconds(20000)

  /** Shift applied to a DTS that does not exceed the original PTS. */
  const OFFSET_DTS: nat := FromSeconds(19999)

  /** The pair of timestamps written back into a buffer. */
  datatype Timing = Timing(pts: nat, dts: nat)

  /** The new PTS: shifted by exactly `OFFSET_PTS` when, and only when, the
      PTS exceeds the baseline. The rewrite never moves a PTS across the
      baseline, and never makes it smaller. */
  function NewPts(baseline: nat, pts: nat): (r: nat)
    ensures r == pts + OFFSET_PTS <==> pts > baseline
    ensures r == pts <==> pts <= baseline
    ensures r > baseline <==> pts > baseline
  {
    if pts > baseline then pts + OFFSET_PTS else pts
  }

  /** The new DTS: shifted by exactly `OFFSET_DTS` when, and only when, the
      DTS is not later than the ORIGINAL PTS. The baseline plays no part.
      A shifted DTS stays below the original PTS moved by `OFFSET_PTS`. */
  function NewDts(pts: nat, dts: nat): (r: nat)
    ensures r == dts + OFFSET_DTS <==> dts <= pts
    ensures r == dts <==> dts > pts
    ensures dts <= pts ==> r + NS <= pts + OFFSET_PTS
  {
    if dts <= pts then dts + OFFSET_DTS else dts
  }

  /** The whole rule on the buffer's optional timestamps: absent values are
      read as zero first, both results are always defined, the PTS decision
      depends on the baseline and the PTS only, and the DTS decision on the
      original PTS and DTS only. */
  function Rewrite(baseline: nat, pts: Option<nat>, dts: Option<nat>): (r: Timing)
    ensures r.pts >= OrZero(pts) && r.dts >= OrZero(dts)
    ensures r.pts == NewPts(baseline, OrZero(pts))
    ensures r.dts == NewDts(OrZero(pts), OrZero(dts))
  {
    var p := OrZero(pts);
    var d := OrZero(dts);
    Timing(NewPts(baseline, p), NewDts(p, d))
  }

  /** Absence is indistinguishable from an explicit zero, for either field. */
  lemma AbsentReadsAsZero(baseline: nat, pts: Option<nat>, dts: Option<nat>)
    ensures Rewrite(baseline, None, dts) == Rewrite(baseline, Some(0), dts)
    ensures Rewrite(baseline, pts, None) == Rewrite(baseline, pts, Some(0))
  {
  }

  /** For a fixed baseline the new PTS is strictly increasing in the PTS,
      so the rewrite keeps the presentation order of buffers. */
  lemma NewPtsStrictlyIncreasing(baseline: nat, pts1: nat, pts2: nat)
    requires pts1 < pts2
    ensures NewPts(baseline, pts1) < NewPts(baseline, pts2)
  {
  }

  /** When the PTS is above the baseline and the DTS is not after the PTS,
      the rewritten DTS precedes the rewritten PTS by at least one second. */
  lemma OrderedWhenPtsShifted(baseline: nat, pts: nat, dts: nat)
    requires pts > baseline && dts <= pts
    ensures var t := Rewrite(baseline, Some(pts), Some(dts));
            t.dts + NS <= t.pts
  {
  }

  /** Exactly when the rewritten DTS is not after the rewritten PTS: either
      the PTS was shifted and the DTS lies within `OFFSET_PTS` of it, or the
      DTS sits at least `OFFSET_DTS` before the PTS. */
  lemma OrderedIff(baseline: nat, pts: nat, dts: nat)
    ensures var t := Rewrite(baseline, Some(pts), Some(dts));
            t.dts <= t.pts
            <==> (pts > baseline && dts <= pts + OFFSET_PTS) || dts + OFFSET_DTS <= pts
  {
  }

  /** The ordering "DTS <= PTS" is not an invariant of the rule: with the
      initial baseline of zero, a buffer with PTS = DTS = 0 comes out with
      its DTS 19999 s after its PTS. */
  lemma OrderingNotInvariant()
    ensures exists pts: nat, dts: nat ::
              Rewrite(FromSeconds(0), Some(pts), Some(dts)).dts > Rewrite(FromSeconds(0), Some(pts), Some(dts)).pts
  {
    var t := Rewrite(FromSeconds(0), Some(0), Some(0));
    assert t == Timing(0, FromSeconds(19999));
  }

  /** Baseline 0, PTS 10 s, DTS 9 s: the rewrite gives PTS 20010 s, DTS 20008 s. */
  lemma ScenarioPtsTenDtsNine()
    ensures Rewrite(FromSeconds(0), Some(FromSeconds(10)), Some(FromSeconds(9)))
            == Timing(FromSeconds(20010), FromSeconds(20008))
  {
  }

  /** Both timestamps absent, baseline 0: PTS stays 0, DTS becomes 19999 s. */
  lemma ScenarioBothAbsent()
    ensures Rewrite(FromSeconds(0), None, None) == Timing(0, FromSeconds(19999))
  {
  }
}
