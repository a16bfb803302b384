/** The cycle stepper (gw_system_run): adds a clock-divided instruction
    budget to the CPU's instruction counter, lets the CPU core run and reports
    how many clock cycles that amounts to. */

module Stepper {
  import opened Common

  /** C's `/` on int: the quotient truncated toward zero (Dafny's `/` is Euclidean). */
  function TruncDiv(a: int, d: int): (q: int)
    requires d > 0
    ensures a >= 0 ==> 0 <= q && q * d <= a < (q + 1) * d
    ensures a < 0 ==> q <= 0 && (q - 1) * d < a <= q * d
  {
    if a >= 0 then a / d else -((-a) / d)
  }

  /** Truncation is symmetric about zero. */
  lemma TruncDivOdd(a: int, d: int)
    requires d > 0
    ensures TruncDiv(-a, d) == -TruncDiv(a, d)
  {
  }

  /** Truncation and Euclidean division part on negative odd operands. */
  lemma TruncDivNotEuclidean()
    ensures TruncDiv(-255, 2) == -127
    ensures -255 / 2 == -128
  {
  }

  /** The instructions gw_system_run grants for `cycles` clock cycles: one per
      2 clock cycles when the divider is 2, one per 4 when it is 4, none for
      any other divider. The two tests are independent, as in the source.
      Fewer than a divider's worth of clock cycles is lost to truncation. */
  function Budget(clkDiv: int, cycles: int): (b: int)
    ensures clkDiv != 2 && clkDiv != 4 ==> b == 0
    ensures (clkDiv == 2 || clkDiv == 4) && cycles >= 0 ==>
              0 <= b * clkDiv <= cycles < b * clkDiv + clkDiv
    ensures (clkDiv == 2 || clkDiv == 4) && cycles < 0 ==>
              b * clkDiv - clkDiv < cycles <= b * clkDiv <= 0
  {
    var half := if clkDiv == 2 then TruncDiv(cycles, 2) else 0;
    var quarter := if clkDiv == 4 then TruncDiv(cycles, 4) else 0;
    half + quarter
  }

  /** An odd cycle count loses its last cycle to the divider. */
  lemma BudgetTruncates()
    ensures Budget(2, 255) == 127
    ensures Budget(4, 255) == 63
    ensures Budget(2, -255) == -127
    ensures Budget(1, 255) == 0 && Budget(3, 255) == 0
  {
  }

  /** A budget is monotone in the clock cycles offered. */
  lemma BudgetMonotone(clkDiv: int, c1: int, c2: int)
    requires c1 <= c2
    ensures Budget(clkDiv, c1) <= Budget(clkDiv, c2)
  {
  }

  /** The CPU core's counters that gw_system_run touches. */
  class Cpu {
    var icount: int
    var kActive: bool
    var clkDiv: int

    constructor (clkDiv: int)
      ensures this.clkDiv == clkDiv && icount == 0 && !kActive
    {
      this.clkDiv := clkDiv;
      icount := 0;
      kActive := false;
    }

    /** gw_system_run: `buttons` is what the host reports, `deviceRun` the
        CPU core's execute function, seen only through the counter it leaves. */
    method Run(clockCycles: int, buttons: Word, deviceRun: int -> int) returns (cycles: int)
      modifies this
      ensures kActive == (buttons != 0)
      ensures icount == deviceRun(old(icount) + Budget(old(clkDiv), clockCycles))
      ensures clkDiv == old(clkDiv)
      ensures cycles == icount * clkDiv
    {
      // a pressed key wakes the system up
      kActive := buttons != 0;

      if clkDiv == 2 {
        icount := icount + TruncDiv(clockCycles, 2);
      }
      if clkDiv == 4 {
        icount := icount + TruncDiv(clockCycles, 4);
      }

      icount := deviceRun(icount);

      cycles := icount * clkDiv;
    }
  }
}
