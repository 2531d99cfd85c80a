/**
 * The text `UIManager` derives from numbers: the `H:MM:SS` / `M:SS` total
 * duration of the summary panel, and the `Processing... N%` line that
 * follows the analyser's progress reports.
 */
module Ui {
  import opened Wrappers
  import opened JsNumber
  import opened Decimal
  import opened Renderer
  import opened Analyzer

  // ---------------------------------------------------------------------
  // formatDuration

  /** `formatDuration`: the hours, minutes and seconds fields of a duration, laid out by `DurationLabel`. */
  function FormatDuration(seconds: real): string {
    var hours := Floor(seconds / 3600.0);
    var minutes := Floor(Remainder(seconds, 3600.0) / 60.0);
    var secs := Floor(Remainder(seconds, 60.0));
    DurationLabel(hours, minutes, secs)
  }

  /**
   * `H:MM:SS` when the hours are positive, otherwise `M:SS`: the hours and
   * their colon are written only for at least one whole hour.
   */
  function DurationLabel(hours: int, minutes: int, secs: int): string {
    if hours > 0 then
      IntToString(hours) + ":" + PadStart(IntToString(minutes), 2) + ":" + PadStart(IntToString(secs), 2)
    else
      IntToString(minutes) + ":" + PadStart(IntToString(secs), 2)
  }

  /**
   * For a non-negative duration the hours are non-negative, the minutes and
   * seconds fields lie in 0..59, together they count the whole seconds, and
   * the hours are positive exactly when that count reaches an hour.
   */
  lemma DurationFields(seconds: real)
    requires 0.0 <= seconds
    ensures var hours := Floor(seconds / 3600.0);
      var minutes := Floor(Remainder(seconds, 3600.0) / 60.0);
      var secs := Floor(Remainder(seconds, 60.0));
      && 0 <= hours && 0 <= minutes < 60 && 0 <= secs < 60
      && 3600 * hours + 60 * minutes + secs == Floor(seconds)
      && (hours > 0 <==> Floor(seconds) >= 3600)
  {
    var hours := Floor(seconds / 3600.0);
    var rest := Remainder(seconds, 3600.0);
    RemainderOfNonNegative(seconds, 3600.0);
    assert 0.0 <= rest / 60.0 < 60.0;
    FloorDecomposition(seconds, 60);
    assert seconds / 60.0 - (60 * hours) as real == rest / 60.0;
    FloorShift(seconds / 60.0, 60 * hours);
  }

  /**
   * Reads a duration label back into whole seconds: `M:SS` as minutes and
   * seconds, otherwise `H:MM:SS` as hours, minutes and seconds.
   */
  function ReadDuration(r: string): Option<nat> {
    match ReadClock(r)
    case Some((minutes, secs)) => Some(60 * minutes + secs)
    case None =>
      if |r| >= 3 && r[|r| - 3] == ':' && IsDigits(r[|r| - 2..]) && ReadClock(r[..|r| - 3]).Some? then
        var (hours, minutes) := ReadClock(r[..|r| - 3]).value;
        Some(3600 * hours + 60 * minutes + DigitsValue(r[|r| - 2..]))
      else
        None
  }

  /**
   * The label of a non-negative duration reads back as its whole seconds,
   * and it has the short `M:SS` form exactly when that is under an hour.
   */
  lemma FormatDurationReadsBack(seconds: real)
    requires 0.0 <= seconds
    ensures ReadDuration(FormatDuration(seconds)).Some?
    ensures ReadDuration(FormatDuration(seconds)).value == Floor(seconds)
    ensures ReadClock(FormatDuration(seconds)).Some? <==> Floor(seconds) < 3600
  {
    DurationFields(seconds);
    var hours := Floor(seconds / 3600.0);
    var minutes := Floor(Remainder(seconds, 3600.0) / 60.0);
    var secs := Floor(Remainder(seconds, 60.0));
    DurationLabelReadsBack(hours, minutes, secs);
  }

  /**
   * Fields with minutes and seconds below 60 are laid out so that they read
   * back as the seconds they count, in the short form exactly when there are
   * no hours.
   */
  lemma DurationLabelReadsBack(hours: nat, minutes: nat, secs: nat)
    requires minutes < 60 && secs < 60
    ensures var r := DurationLabel(hours, minutes, secs);
      && ReadDuration(r).Some? && ReadDuration(r).value == 3600 * hours + 60 * minutes + secs
      && (ReadClock(r).Some? <==> hours == 0)
  {
    if hours > 0 {
      assert DurationLabel(hours, minutes, secs) == Clock(hours, minutes) + ":" + PadStart(NatToString(secs), 2);
      LongDurationReadsBack(hours, minutes, secs);
    } else {
      assert DurationLabel(hours, minutes, secs) == Clock(minutes, secs);
      ClockReadsBack(minutes, secs);
    }
  }

  /** `H:MM:SS` is not an `M:SS` label, and reads back as its three fields. */
  lemma LongDurationReadsBack(hours: nat, minutes: nat, secs: nat)
    requires minutes < 60 && secs < 60
    ensures var r := Clock(hours, minutes) + ":" + PadStart(NatToString(secs), 2);
      && ReadClock(r).None?
      && ReadDuration(r).Some? && ReadDuration(r).value == 3600 * hours + 60 * minutes + secs
  {
    var head := Clock(hours, minutes);
    var tail := PadStart(NatToString(secs), 2);
    ClockReadsBack(hours, minutes);
    TwoDigits(secs);
    AppendSeconds(head, tail, hours, minutes);
  }

  /** A clock label followed by `:SS` is read as hours, minutes and seconds. */
  lemma AppendSeconds(head: string, tail: string, hours: nat, minutes: nat)
    requires ReadClock(head) == Some((hours, minutes)) && |tail| == 2 && IsDigits(tail)
    ensures var r := head + ":" + tail;
      && ReadClock(r).None?
      && ReadDuration(r).Some?
      && ReadDuration(r).value == 3600 * hours + 60 * minutes + DigitsValue(tail)
  {
    var r := head + ":" + tail;
    SplitAtColon(head, tail);
    assert r[..|r| - 3] == head;
    assert !IsDigit(head[|head| - 3]);
    assert !IsDigits(r[..|r| - 3]);
    assert ReadClock(r).None?;
    assert r[|r| - 2..] == tail;
    assert ReadClock(r[..|r| - 3]) == Some((hours, minutes));
  }

  // ---------------------------------------------------------------------
  // updateProgress

  /** The text `updateProgress` shows: the percentage rounded to a whole number. */
  function ProgressText(percentage: real): string {
    "Processing... " + IntToString(Round(percentage)) + "%"
  }

  /**
   * A percentage between 0 and 100 is shown as the digits of its rounding,
   * which lies between 0 and 100 too.
   */
  lemma ProgressTextDigits(percentage: real)
    requires 0.0 <= percentage <= 100.0
    ensures 0 <= Round(percentage) <= 100
    ensures ProgressText(percentage) == "Processing... " + NatToString(Round(percentage)) + "%"
  {
  }

  /**
   * For a batch of `n` files every shown percentage lies in 0..100, they
   * never go down, and the one after the last file reads `Processing... 100%`.
   */
  lemma BatchProgressTexts(n: nat, i: nat, j: nat)
    requires 0 < n && i <= j < n
    ensures var reports := ProgressReports(ProgressShare(n), n);
      && 0 <= Round(reports[i]) <= Round(reports[j]) <= 100
      && ProgressText(reports[n - 1]) == "Processing... 100%"
  {
    var reports := ProgressReports(ProgressShare(n), n);
    ProgressReportsAt(n, n, i);
    ProgressReportsAt(n, n, j);
    ProgressReportsAt(n, n, n - 1);
    ProgressMonotone(n, i + 1, j + 1);
    ProgressMonotone(n, j + 1, n);
    RoundMonotone(reports[i], reports[j]);
    ProgressTextDigits(reports[i]);
    ProgressTextDigits(reports[j]);
    assert Round(100.0) == 100;
    assert NatToString(100) == "100";
  }

  /** `showProgress` starts the line at `Processing... 0%`. */
  lemma ShownProgressStartsAtZero()
    ensures ProgressText(0.0) == "Processing... 0%"
  {
    assert Round(0.0) == 0;
    assert NatToString(0) == "0";
  }
}
