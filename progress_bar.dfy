/**
 * progress_bar.py: a terminal progress bar. The bar is `n_completed *
 * bar_width // n_jobs` filled cells followed by dashes; each `print`
 * rewrites the line in place (a leading carriage return), padding it with
 * spaces so that a shorter line hides the end of the previous one.
 *
 * Writing to the terminal is modelled by returning the text written. The
 * percentage is a float rendered with two decimals; it is passed in as the
 * text `percentText` that stands for that rendering.
 */
module Progress {
  import opened Strings

  /** The filled cell, U+2588 FULL BLOCK. */
  const FilledCell: char := '█'
  const EmptyCell: char := '-'
  const DefaultBarWidth: int := 40

  /** Python's `a // b`: the quotient rounded towards minus infinity. */
  function FloorDiv(a: int, b: int): int
    requires b != 0
  {
    if b > 0 then a / b else (-a) / (-b)
  }

  /** The quotient is the largest `q` with `b * q <= a` for a positive divisor, and the mirror image for a negative one. */
  lemma FloorDivBounds(a: int, b: int)
    requires b != 0
    ensures var q := FloorDiv(a, b);
      && (b > 0 ==> b * q <= a < b * q + b)
      && (b < 0 ==> b * q >= a > b * q + b)
  {
    if b < 0 {
      var q := (-a) / (-b);
      assert (-b) * q <= -a < (-b) * q + (-b);
      assert (-b) * q == -(b * q);
    }
  }

  /** The number of filled cells. */
  function Filled(nCompleted: int, barWidth: int, nJobs: int): int
    requires nJobs != 0
  {
    FloorDiv(nCompleted * barWidth, nJobs)
  }

  /** `"█" * filled` followed by `"-" * (bar_width - filled)`. */
  function Bar(nCompleted: int, barWidth: int, nJobs: int): string
    requires nJobs != 0
  {
    var filled := Filled(nCompleted, barWidth, nJobs);
    Repeat(FilledCell, filled) + Repeat(EmptyCell, barWidth - filled)
  }

  /** The line `print` writes, before padding. */
  function StatusLine(nCompleted: int, barWidth: int, nJobs: int, percentText: string, message: string): string
    requires nJobs != 0
  {
    "\rProgress: |" + Bar(nCompleted, barWidth, nJobs) + "| " + percentText + "% (" + IntToString(nCompleted)
    + "/" + IntToString(nJobs) + ") " + message
  }

  /** The line padded with spaces up to `width` when it is shorter. */
  function PadTo(s: string, width: int): string {
    if |s| < width then s + Repeat(' ', width - |s|) else s
  }

  /**
   * The line `print` builds while the bar is not completed, padded to the
   * previous line's length, and its unpadded length.
   */
  method PaddedLine(nCompleted: int, barWidth: int, nJobs: int, percentText: string, message: string, prevBarLen: int)
    returns (completeBar: string, barLen: int)
    requires nJobs != 0
    ensures var line := StatusLine(nCompleted, barWidth, nJobs, percentText, message);
      completeBar == PadTo(line, prevBarLen) && barLen == |line|
  {
    var filled := FloorDiv(nCompleted * barWidth, nJobs);
    var bar := Repeat(FilledCell, filled);
    bar := bar + Repeat(EmptyCell, barWidth - filled);
    assert bar == Bar(nCompleted, barWidth, nJobs);
    completeBar := "\rProgress: |" + bar + "| " + percentText + "% (" + IntToString(nCompleted) + "/"
                   + IntToString(nJobs) + ") " + message;
    ghost var line := StatusLine(nCompleted, barWidth, nJobs, percentText, message);
    assert completeBar == line;
    barLen := |completeBar|;
    if |completeBar| < prevBarLen {
      completeBar := completeBar + Repeat(' ', prevBarLen - barLen);
      assert completeBar == PadTo(line, prevBarLen);
    } else {
      assert completeBar == PadTo(line, prevBarLen);
    }
  }

  /** What one call of `print` did: the text it wrote, or the division by zero that `n_jobs == 0` raises. */
  datatype Printed = Wrote(text: string) | ZeroDivisionError

  class ProgressBar {
    var nJobs: int
    var barWidth: int
    var nCompleted: int
    var completed: bool
    var prevBarLen: int

    /** A new bar: nothing done, not completed, no previous line. */
    constructor (nJobs: int, barWidth: int := DefaultBarWidth)
      ensures this.nJobs == nJobs && this.barWidth == barWidth
      ensures nCompleted == 0 && !completed && prevBarLen == 0
    {
      this.nJobs := nJobs;
      this.barWidth := barWidth;
      nCompleted := 0;
      completed := false;
      prevBarLen := 0;
    }

    /**
     * `print`: once completed, writes nothing and changes nothing. Otherwise
     * the percentage divides by `n_jobs`, so `n_jobs == 0` raises before any
     * field changes; else the status line is written, padded to the previous
     * line's length, `prev_bar_len` becomes the unpadded length, and when
     * every job is done a newline follows and the bar is completed.
     */
    method Print(percentText: string, message: string := "") returns (out: Printed)
      modifies this
      ensures nJobs == old(nJobs) && barWidth == old(barWidth) && nCompleted == old(nCompleted)
      ensures old(completed) ==> out == Wrote("") && completed && prevBarLen == old(prevBarLen)
      ensures !old(completed) && nJobs == 0 ==> out == ZeroDivisionError && !completed && prevBarLen == old(prevBarLen)
      ensures !old(completed) && nJobs != 0 ==>
                var line := StatusLine(nCompleted, barWidth, nJobs, percentText, message);
                && out == Wrote(PadTo(line, old(prevBarLen)) + (if nJobs == nCompleted then "\n" else ""))
                && prevBarLen == |line|
                && completed == (nJobs == nCompleted)
    {
      if completed {
        return Wrote("");
      }
      if nJobs == 0 {
        return ZeroDivisionError;
      }
      var completeBar, barLen := PaddedLine(nCompleted, barWidth, nJobs, percentText, message, prevBarLen);
      prevBarLen := barLen;
      var text := completeBar;
      if nJobs == nCompleted {
        completed := true;
        text := text + "\n";
      }
      out := Wrote(text);
    }

    /** `increment`: one more job done; nothing else changes. */
    method Increment()
      modifies this
      ensures nCompleted == old(nCompleted) + 1
      ensures nJobs == old(nJobs) && barWidth == old(barWidth) && completed == old(completed)
      ensures prevBarLen == old(prevBarLen)
    {
      nCompleted := nCompleted + 1;
    }
  }

  // ---------------------------------------------------------------------------
  // Properties of the bar

  /** While `0 <= n_completed <= n_jobs`, between none and all of the cells are filled. */
  lemma FilledBounds(nCompleted: int, barWidth: int, nJobs: int)
    requires 0 <= nCompleted <= nJobs && nJobs > 0 && barWidth >= 0
    ensures 0 <= Filled(nCompleted, barWidth, nJobs) <= barWidth
  {
    FloorDivBounds(nCompleted * barWidth, nJobs);
    QuotientBounds(nJobs, Filled(nCompleted, barWidth, nJobs), nCompleted, barWidth);
  }

  /** A quotient of `c * w` by `n`, for `0 <= c <= n`, lies between 0 and `w`. */
  lemma QuotientBounds(n: int, q: int, c: int, w: int)
    requires n > 0 && 0 <= c <= n && w >= 0
    requires n * q <= c * w < n * q + n
    ensures 0 <= q <= w
  {
    MulMonotone(w, 0, c);
    MulMonotone(w, c, n);
    if q < 0 {
      MulStep(n, q, 0);
      assert false;
    }
    if q > w {
      MulStep(n, w, q);
      assert false;
    }
  }

  /** The bar is exactly `bar_width` cells: the filled ones first, then dashes. */
  lemma BarShape(nCompleted: int, barWidth: int, nJobs: int)
    requires 0 <= nCompleted <= nJobs && nJobs > 0 && barWidth >= 0
    ensures var b := Bar(nCompleted, barWidth, nJobs);
      var f := Filled(nCompleted, barWidth, nJobs);
      && |b| == barWidth
      && (forall i :: 0 <= i < f ==> b[i] == FilledCell)
      && (forall i :: f <= i < barWidth ==> b[i] == EmptyCell)
  {
    FilledBounds(nCompleted, barWidth, nJobs);
    var f := Filled(nCompleted, barWidth, nJobs);
    var b := Bar(nCompleted, barWidth, nJobs);
    var full, empty := Repeat(FilledCell, f), Repeat(EmptyCell, barWidth - f);
    assert b == full + empty;
    forall i | f <= i < barWidth
      ensures b[i] == EmptyCell
    {
      assert b[i] == empty[i - f];
    }
  }

  /** Finishing more jobs never empties a cell. */
  lemma FilledMonotone(c1: int, c2: int, barWidth: int, nJobs: int)
    requires nJobs > 0 && barWidth >= 0 && c1 <= c2
    ensures Filled(c1, barWidth, nJobs) <= Filled(c2, barWidth, nJobs)
  {
    FloorDivBounds(c1 * barWidth, nJobs);
    FloorDivBounds(c2 * barWidth, nJobs);
    MulMonotone(barWidth, c1, c2);
    QuotientMonotone(nJobs, Filled(c1, barWidth, nJobs), Filled(c2, barWidth, nJobs), c1 * barWidth, c2 * barWidth);
  }

  /** Floor quotients by the same positive divisor follow the order of the dividends. */
  lemma QuotientMonotone(n: int, q1: int, q2: int, a1: int, a2: int)
    requires n > 0 && a1 <= a2
    requires n * q1 <= a1 && a2 < n * q2 + n
    ensures q1 <= q2
  {
    if q1 > q2 {
      MulStep(n, q2, q1);
      assert false;
    }
  }

  /** With every job done the bar is full. */
  lemma FilledFull(barWidth: int, nJobs: int)
    requires nJobs != 0
    ensures Filled(nJobs, barWidth, nJobs) == barWidth
  {
    if nJobs > 0 {
      DivExact(nJobs, barWidth);
    } else {
      assert -(nJobs * barWidth) == (-nJobs) * barWidth;
      DivExact(-nJobs, barWidth);
    }
  }

  /** `n * x <= n * y` for a positive `n` and `x <= y`. */
  lemma MulMonotone(n: int, x: int, y: int)
    requires n >= 0 && x <= y
    ensures n * x <= n * y
  {
    assert n * y - n * x == n * (y - x);
  }

  /** `n * x + n <= n * y` for a positive `n` and `x < y`. */
  lemma MulStep(n: int, x: int, y: int)
    requires n > 0 && x < y
    ensures n * x + n <= n * y
  {
    MulMonotone(n, x + 1, y);
    assert n * (x + 1) == n * x + n;
  }

  /** Dividing an exact multiple gives back the factor. */
  lemma DivExact(b: int, w: int)
    requires b > 0
    ensures (b * w) / b == w
  {
    var q, r := (b * w) / b, (b * w) % b;
    assert b * w == b * q + r && 0 <= r < b;
    if q < w {
      MulMonotone(b, q + 1, w);
      assert false;
    }
    if q > w {
      MulMonotone(b, w + 1, q);
      assert false;
    }
  }

  /** Padding keeps the line as its prefix, adds only spaces, and reaches at least `width`. */
  lemma PadToShape(s: string, width: int)
    ensures var r := PadTo(s, width);
      && |r| == (if |s| < width then width else |s|)
      && r[..|s|] == s
      && (forall i :: |s| <= i < |r| ==> r[i] == ' ')
  {
    var r := PadTo(s, width);
    if |s| < width {
      var pad := Repeat(' ', width - |s|);
      assert r == s + pad;
      forall i | |s| <= i < |r|
        ensures r[i] == ' '
      {
        assert r[i] == pad[i - |s|];
      }
    }
  }
}
