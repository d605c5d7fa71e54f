/** Which steps of the export script are logging steps. */
module LogSchedule {
  import opened Results

  /** Python's `a // b`, rounding toward negative infinity. */
  function PyDiv(a: int, b: int): int
    requires b != 0
  {
    if b < 0 && a % b != 0 then a / b - 1 else a / b
  }

  /** Python's `a % b`: the remainder takes the sign of the divisor. */
  function PyMod(a: int, b: int): (r: int)
    requires b != 0
    ensures b > 0 ==> 0 <= r < b
    ensures b < 0 ==> b < r <= 0
    ensures a == b * PyDiv(a, b) + r
  {
    var m := a % b;
    var q := a / b;
    assert a == b * q + m;
    if b < 0 && m != 0 then
      assert b * (q - 1) == b * q - b;
      m + b
    else m
  }

  /** `step % log_freq == log_freq - 1`; None where Python raises ZeroDivisionError. */
  function LogsAt(step: nat, logFreq: int): Option<bool> {
    if logFreq == 0 then None else Some(PyMod(step, logFreq) == logFreq - 1)
  }

  /** A positive multiple of a positive number is at least that number. */
  lemma {:induction false} MultipleAtLeast(k: int, f: int)
    requires k >= 1 && f > 0
    ensures k * f >= f
  {
    if k > 1 {
      MultipleAtLeast(k - 1, f);
      assert k * f == (k - 1) * f + f;
    }
  }

  /** The remainder is determined by any quotient-remainder split. */
  lemma ModOfSplit(a: int, f: int, q: int, r: int)
    requires f > 0 && 0 <= r < f && a == q * f + r
    ensures a % f == r
  {
    var q', r' := a / f, a % f;
    assert a == q' * f + r';
    if q > q' {
      assert (q - q') * f == q * f - q' * f;
      MultipleAtLeast(q - q', f);
    } else if q < q' {
      assert (q' - q) * f == q' * f - q * f;
      MultipleAtLeast(q' - q, f);
    }
  }

  /** With a positive frequency, every logFreq-th step is a logging step, and no other. */
  lemma LogsEveryFreqSteps(step: nat, logFreq: int)
    requires logFreq > 0
    ensures LogsAt(step, logFreq) == Some((step + 1) % logFreq == 0)
  {
    var r := step % logFreq;
    var q := step / logFreq;
    assert step == q * logFreq + r;
    if r == logFreq - 1 {
      assert step + 1 == (q + 1) * logFreq + 0;
      ModOfSplit(step + 1, logFreq, q + 1, 0);
    } else {
      ModOfSplit(step + 1, logFreq, q, r + 1);
    }
  }

  /** With a negative frequency no step is a logging step, because the remainder is never below it. */
  lemma NeverLogsWithNegativeFreq(step: nat, logFreq: int)
    requires logFreq < 0
    ensures LogsAt(step, logFreq) == Some(false)
  {
  }
}
