/** The acceptance rules for the bar series before the engine runs (src/preprocess/validate.rs). */
module PreprocessValidate {

  import opened Wrappers
  import opened Types
  import opened Config
  import opened Errors

  const EmptyMessage := "No bars remain after reading CSV"

  /** The number of rows the configured windows need: the largest of the four minimums. */
  function RequiredRows(preprocess: PreprocessConfig, windows: WindowsConfig): (r: nat)
    ensures r >= preprocess.minRows && r >= windows.robustScaleN
    ensures r >= windows.memoryK && r >= windows.capacityL
    ensures r == preprocess.minRows || r == windows.robustScaleN
            || r == windows.memoryK || r == windows.capacityL
  {
    var a := if preprocess.minRows >= windows.robustScaleN then preprocess.minRows else windows.robustScaleN;
    var b := if a >= windows.memoryK then a else windows.memoryK;
    if b >= windows.capacityL then b else windows.capacityL
  }

  predicate NonPositiveCloseBar(b: Bar)
  {
    b.close <= 0.0
  }

  predicate NonPositiveVolumeBar(b: Bar)
  {
    b.volume <= 0.0
  }

  /** The index of the first element at or after `from` that `bad` flags, as an enumerating scan finds it. */
  function FirstFlagged<T>(s: seq<T>, bad: T -> bool, from: nat): (r: Option<nat>)
    requires from <= |s|
    ensures r.Some? ==> from <= r.value < |s| && bad(s[r.value])
    ensures r.Some? ==> forall j :: from <= j < r.value ==> !bad(s[j])
    ensures r.None? <==> forall j :: from <= j < |s| ==> !bad(s[j])
    decreases |s| - from
  {
    if from == |s| then None
    else if bad(s[from]) then Some(from)
    else FirstFlagged(s, bad, from + 1)
  }

  /**
   * The checks in the order the source runs them, each returning on its first
   * failure: emptiness, the row count, positive closes (when required) and
   * positive volumes (unless zero volume is allowed). The NaN scan that follows
   * them cannot fire over the reals and is not modelled.
   */
  function ValidateBars(bars: seq<Bar>, preprocess: PreprocessConfig, windows: WindowsConfig)
    : (r: Result<(), RuptureError>)
    ensures r.Err? ==> r.error.EmptyData? || r.error.Validation?
  {
    var required := RequiredRows(preprocess, windows);
    if |bars| == 0 then Err(EmptyData(EmptyMessage))
    else if |bars| < required then Err(Validation(TooFewRows(required, |bars|)))
    else
      var badClose := FirstFlagged(bars, NonPositiveCloseBar, 0);
      var badVolume := FirstFlagged(bars, NonPositiveVolumeBar, 0);
      if preprocess.requirePositiveClose && badClose.Some? then
        Err(Validation(NonPositiveClose(badClose.value, bars[badClose.value].close)))
      else if !preprocess.allowZeroVolume && badVolume.Some? then
        Err(Validation(NonPositiveVolume(badVolume.value, bars[badVolume.value].volume)))
      else Ok(())
  }

  /** Every close is positive. */
  predicate PositiveCloses(bars: seq<Bar>)
  {
    forall i :: 0 <= i < |bars| ==> bars[i].close > 0.0
  }

  /** Every volume is positive. */
  predicate PositiveVolumes(bars: seq<Bar>)
  {
    forall i :: 0 <= i < |bars| ==> bars[i].volume > 0.0
  }

  /** The series is accepted exactly when no check fires. */
  lemma ValidateOkIff(bars: seq<Bar>, preprocess: PreprocessConfig, windows: WindowsConfig)
    ensures ValidateBars(bars, preprocess, windows).Ok? <==>
              && |bars| > 0
              && |bars| >= RequiredRows(preprocess, windows)
              && (preprocess.requirePositiveClose ==> PositiveCloses(bars))
              && (!preprocess.allowZeroVolume ==> PositiveVolumes(bars))
  {
    var r := ValidateBars(bars, preprocess, windows);
    var badClose := FirstFlagged(bars, NonPositiveCloseBar, 0);
    var badVolume := FirstFlagged(bars, NonPositiveVolumeBar, 0);
    assert badClose.None? <==> PositiveCloses(bars) by {
      assert badClose.None? <==> forall j :: 0 <= j < |bars| ==> !NonPositiveCloseBar(bars[j]);
    }
    assert badVolume.None? <==> PositiveVolumes(bars) by {
      assert badVolume.None? <==> forall j :: 0 <= j < |bars| ==> !NonPositiveVolumeBar(bars[j]);
    }
  }

  /** An empty series is reported as missing data before anything else is looked at. */
  lemma ValidateEmptyFirst(bars: seq<Bar>, preprocess: PreprocessConfig, windows: WindowsConfig)
    requires |bars| == 0
    ensures ValidateBars(bars, preprocess, windows) == Err(EmptyData(EmptyMessage))
  {
  }

  /** A non-empty series shorter than the largest window is too short, whatever its values. */
  lemma ValidateTooFewRows(bars: seq<Bar>, preprocess: PreprocessConfig, windows: WindowsConfig)
    requires 0 < |bars| < RequiredRows(preprocess, windows)
    ensures ValidateBars(bars, preprocess, windows)
            == Err(Validation(TooFewRows(RequiredRows(preprocess, windows), |bars|)))
  {
  }

  /** With positive closes required, the first non-positive close is the one reported. */
  lemma ValidateReportsFirstBadClose(bars: seq<Bar>, preprocess: PreprocessConfig, windows: WindowsConfig,
                                     i: nat)
    requires |bars| > 0 && |bars| >= RequiredRows(preprocess, windows)
    requires preprocess.requirePositiveClose
    requires i < |bars| && bars[i].close <= 0.0
    requires forall j :: 0 <= j < i ==> bars[j].close > 0.0
    ensures ValidateBars(bars, preprocess, windows) == Err(Validation(NonPositiveClose(i, bars[i].close)))
  {
    FirstFlaggedIs(bars, NonPositiveCloseBar, i);
  }

  /**
   * With zero volume not allowed and the close check passed, the first
   * non-positive volume is the one reported.
   */
  lemma ValidateReportsFirstBadVolume(bars: seq<Bar>, preprocess: PreprocessConfig, windows: WindowsConfig,
                                      i: nat)
    requires |bars| > 0 && |bars| >= RequiredRows(preprocess, windows)
    requires preprocess.requirePositiveClose ==> PositiveCloses(bars)
    requires !preprocess.allowZeroVolume
    requires i < |bars| && bars[i].volume <= 0.0
    requires forall j :: 0 <= j < i ==> bars[j].volume > 0.0
    ensures ValidateBars(bars, preprocess, windows) == Err(Validation(NonPositiveVolume(i, bars[i].volume)))
  {
    FirstFlaggedIs(bars, NonPositiveVolumeBar, i);
    var badClose := FirstFlagged(bars, NonPositiveCloseBar, 0);
    if preprocess.requirePositiveClose {
      assert badClose.None? by {
        forall j | 0 <= j < |bars| ensures !NonPositiveCloseBar(bars[j]) {
          assert bars[j].close > 0.0;
        }
      }
    }
  }

  /** The first flagged index is the one before which nothing is flagged. */
  lemma FirstFlaggedIs<T>(s: seq<T>, bad: T -> bool, i: nat)
    requires i < |s| && bad(s[i])
    requires forall j :: 0 <= j < i ==> !bad(s[j])
    ensures FirstFlagged(s, bad, 0) == Some(i)
  {
    assert FirstFlagged(s, bad, 0).Some?;
  }

  /**
   * When zero volume is allowed the volumes are never looked at: negative
   * volumes pass, and two series with the same closes get the same verdict.
   */
  lemma ValidateIgnoresVolumesWhenAllowed(bars: seq<Bar>, other: seq<Bar>, preprocess: PreprocessConfig,
                                          windows: WindowsConfig)
    requires preprocess.allowZeroVolume
    requires |bars| == |other|
    requires forall i :: 0 <= i < |bars| ==> bars[i].close == other[i].close
    ensures ValidateBars(bars, preprocess, windows) == ValidateBars(other, preprocess, windows)
  {
    if |bars| > 0 && preprocess.requirePositiveClose {
      FirstFlaggedSameFlags(bars, other, NonPositiveCloseBar, NonPositiveCloseBar, 0);
    }
  }

  /** Two sequences flagged at the same positions have the same first flagged index. */
  lemma {:induction false} FirstFlaggedSameFlags<T>(s: seq<T>, t: seq<T>, p: T -> bool, q: T -> bool, from: nat)
    requires from <= |s| == |t|
    requires forall i :: from <= i < |s| ==> p(s[i]) == q(t[i])
    ensures FirstFlagged(s, p, from) == FirstFlagged(t, q, from)
    decreases |s| - from
  {
    if from < |s| && !p(s[from]) {
      FirstFlaggedSameFlags(s, t, p, q, from + 1);
    }
  }

  /** The examples of the rules: an empty series, a short one, a zero close and a zero volume. */
  lemma ValidateExamples(b: Bar, z: Bar)
    requires b.close == 1.0 && b.volume == 1.0
    requires z.close == 0.0 && z.volume == 0.0
    ensures var p := PreprocessConfig(true, false, 2);
            var w := WindowsConfig(1, 1, 3);
            && ValidateBars([], p, w) == Err(EmptyData(EmptyMessage))
            && ValidateBars([b, b], p, w) == Err(Validation(TooFewRows(3, 2)))
            && ValidateBars([b, z, z], p, w) == Err(Validation(NonPositiveClose(1, 0.0)))
            && ValidateBars([b, b, b], p, w) == Ok(())
            && ValidateBars([b, z, z], PreprocessConfig(false, false, 2), w)
               == Err(Validation(NonPositiveVolume(1, 0.0)))
            && ValidateBars([b, z, b], PreprocessConfig(false, true, 2), w) == Ok(())
  {
    var p := PreprocessConfig(true, false, 2);
    var w := WindowsConfig(1, 1, 3);
    assert RequiredRows(p, w) == 3;
    FirstFlaggedIs([b, z, z], NonPositiveCloseBar, 1);
    FirstFlaggedIs([b, z, z], NonPositiveVolumeBar, 1);
  }
}
