/** The frequency sweep of `run_rx` (fsk_probe/src/main.c), in the 32-bit arithmetic of the code. */
module Sweep {
  import opened CInts

  /** The configured offsets: the step has a range, the others do not; their difference is an
      `int32_t` of the code. */
  datatype Grid = Grid(start: int32, stop: int32, step: int32)

  predicate Configured(g: Grid) {
    1 <= g.step <= 1_000_000 && -0x8000_0000 <= g.stop - g.start < 0x8000_0000
  }

  function FreqSteps(g: Grid): uint32
    requires Configured(g)
  {
    ToUint32(ToUint32(Quotient(g.stop - g.start, g.step)) + 1)
  }

  /** The place on the grid of a window; the first window is 1. */
  function Place(window: uint32, steps: uint32): nat
    requires steps > 0
  {
    ToUint32(window - 1) % steps
  }

  function FreqOffset(window: uint32, g: Grid): int
    requires Configured(g) && FreqSteps(g) > 0
  {
    g.start + ToInt32(ToUint32(Place(window, FreqSteps(g)) * g.step))
  }

  // ---------------------------------------------------------------- one window

  /** The step count is zero, and the sweep divides by it, exactly for a stop that lies between
      one and two steps below the start. */
  lemma NoStepsExactly(g: Grid)
    requires Configured(g)
    ensures FreqSteps(g) == 0 <==> -2 * g.step < g.stop - g.start <= -g.step
  {
    QuotientSize(g.stop - g.start, g.step);
    WrapsToZero(Quotient(g.stop - g.start, g.step));
    MinusOneExactly(g.stop - g.start, g.step);
    hide Quotient, ToUint32;
  }

  lemma WrapsToZero(q: int32)
    ensures ToUint32(ToUint32(q) + 1) == 0 <==> q == -1
  {
  }

  lemma MinusOneExactly(a: int, b: int)
    requires b > 0
    ensures Quotient(a, b) == -1 <==> -2 * b < a <= -b
  {
    if -2 * b < a <= -b {
      ModUnique(-a, b, 1, -a - b);
    }
  }

  /** A quotient of 32-bit numbers is one. */
  lemma QuotientSize(a: int32, b: int32)
    requires b > 0
    ensures a >= 0 ==> 0 <= Quotient(a, b) <= a
    ensures a < 0 ==> a <= Quotient(a, b) <= 0
  {
    var magnitude: nat := if a >= 0 then a else 0 - a;
    QuotientAtMost(magnitude, b);
  }

  lemma QuotientAtMost(a: nat, b: int)
    requires b > 0
    ensures 0 <= a / b <= a
  {
    MulBetween(a / b, 0, 0, b);
    MulMonotone(1, b, if a / b > 0 then a / b else 1);
  }

  /** With the start not above the stop, every window tunes to a grid offset between them, without
      overflow. */
  lemma OffsetOnGrid(window: uint32, g: Grid)
    requires Configured(g) && g.start <= g.stop
    ensures FreqSteps(g) == (g.stop - g.start) / g.step + 1
    ensures FreqOffset(window, g) == g.start + Place(window, FreqSteps(g)) * g.step
    ensures g.start <= FreqOffset(window, g) <= g.stop
  {
    var span := g.stop - g.start;
    QuotientSize(span, g.step);
    var place := Place(window, FreqSteps(g));
    hide Place;
    MulMonotone(0, place + 1, g.step);
    MulMonotone(place, span / g.step, g.step);
    assert span / g.step * g.step <= span;
    ModUnique(place * g.step, 0x1_0000_0000, 0, place * g.step);
  }

  /** The sweep starts at the start and goes up step by step: the window after one tunes a step higher,
      and back to the start where that would pass the stop. */
  lemma SweepsUpward(window: uint32, g: Grid)
    requires Configured(g) && g.start <= g.stop && 1 <= window < UINT32_MAX
    ensures FreqSteps(g) > 0 && FreqOffset(1, g) == g.start
    ensures var here, up := FreqOffset(window, g), FreqOffset(window, g) + g.step;
            FreqOffset(window + 1, g) == if up <= g.stop then up else g.start
  {
    OffsetOnGrid(1, g);
    OffsetOnGrid(window, g);
    OffsetOnGrid(window + 1, g);
    var steps, span := FreqSteps(g), g.stop - g.start;
    NextPlace(window, steps);
    var place := Place(window, steps);
    hide FreqSteps, FreqOffset, Place, ToUint32, ToInt32, Quotient, Configured;
    FitsSpan(place + 1, g.step, span);
    OneMore(place, g.step);
  }

  lemma NextPlace(window: uint32, steps: uint32)
    requires steps > 0 && 1 <= window < UINT32_MAX
    ensures Place(1, steps) == 0
    ensures Place(window + 1, steps) == if Place(window, steps) + 1 < steps then Place(window, steps) + 1 else 0
  {
    ModUnique(0, steps, 0, 0);
    NextModulo(window - 1, steps);
  }

  lemma NextModulo(x: nat, m: nat)
    requires m > 0
    ensures (x + 1) % m == if x % m + 1 < m then x % m + 1 else 0
  {
    var p, q := x % m, x / m;
    if p + 1 < m {
      ModUnique(x + 1, m, q, p + 1);
    } else {
      OneMore(q, m);
      ModUnique(x + 1, m, q + 1, 0);
    }
  }

  lemma OneMore(q: int, m: int)
    ensures (q + 1) * m == q * m + m
  {
  }

  lemma FitsSpan(k: nat, step: int, span: nat)
    requires step > 0
    ensures k * step <= span <==> k <= span / step
  {
    if k * step <= span {
      MulBetween(k, 0, span / step, step);
    } else if k <= span / step {
      MulMonotone(k, span / step, step);
    }
  }

  // ---------------------------------------------------------------- whole sweeps

  /** The places after this many windows, the counter wrapping at 32 bits. */
  function PlaceAfter(window: uint32, i: nat, steps: uint32): nat
    requires steps > 0
  {
    Place(ToUint32(window + i), steps)
  }

  /** A sweep from the window on takes every place exactly once. */
  ghost predicate EachOnce(window: uint32, steps: uint32)
    requires steps > 0
  {
    && (forall i, k :: 0 <= i < k < steps ==> PlaceAfter(window, i, steps) != PlaceAfter(window, k, steps))
    && (forall place: nat :: place < steps ==> Reached(window, steps, place))
  }

  ghost predicate Reached(window: uint32, steps: uint32, place: nat)
    requires steps > 0
  {
    exists i: nat :: i < steps && PlaceAfter(window, i, steps) == place
  }

  function Residue(c: nat, steps: uint32): nat
    requires steps > 0
  {
    c % steps
  }

  lemma ResidueAdds(c: nat, i: nat, steps: uint32)
    requires i < steps
    ensures Residue(c + i, steps) ==
              if Residue(c, steps) + i < steps then Residue(c, steps) + i else Residue(c, steps) + i - steps
    ensures Residue(c, steps) < steps
  {
    var q, r := c / steps, c % steps;
    assert c == q * steps + r;
    if r + i < steps {
      ModUnique(c + i, steps, q, r + i);
    } else {
      assert (q + 1) * steps == q * steps + steps;
      ModUnique(c + i, steps, q + 1, r + i - steps);
    }
  }

  /** Counting on without a gap takes every place once. */
  lemma UnbrokenSweep(window: uint32, c: nat, steps: uint32)
    requires steps > 0
    requires forall i: nat :: i < steps ==> PlaceAfter(window, i, steps) == Residue(c + i, steps)
    ensures EachOnce(window, steps)
  {
    hide PlaceAfter, Residue;
    forall i, k | 0 <= i < k < steps
      ensures PlaceAfter(window, i, steps) != PlaceAfter(window, k, steps)
    {
      ResidueAdds(c, i, steps);
      ResidueAdds(c, k, steps);
    }
    forall place: nat | place < steps
      ensures Reached(window, steps, place)
    {
      ResidueAdds(c, 0, steps);
      var r := Residue(c, steps);
      var i: nat := if place >= r then place - r else place - r + steps;
      ResidueAdds(c, i, steps);
      assert PlaceAfter(window, i, steps) == place;
    }
  }

  lemma PlaceBeforeWrap(window: uint32, i: nat, steps: uint32)
    requires i < steps && 1 <= window && window + i <= UINT32_MAX
    ensures PlaceAfter(window, i, steps) == Residue(window - 1 + i, steps)
  {
    ModUnique(window + i, 0x1_0000_0000, 0, window + i);
    ModUnique(window + i - 1, 0x1_0000_0000, 0, window + i - 1);
  }

  /** Without a wrap of the window counter, any sweep takes every place exactly once. */
  lemma SweepWithoutWrap(window: uint32, steps: uint32)
    requires steps > 0 && 1 <= window && window + steps - 1 <= UINT32_MAX
    ensures EachOnce(window, steps)
  {
    hide PlaceAfter, Residue, EachOnce;
    forall i: nat | i < steps
      ensures PlaceAfter(window, i, steps) == Residue(window - 1 + i, steps)
    {
      PlaceBeforeWrap(window, i, steps);
    }
    UnbrokenSweep(window, window - 1, steps);
  }

  /** Sweeps across the wrap take every place once as well exactly when the number of places
      divides the range of the counter. */
  lemma WrapExactly(steps: uint32)
    requires steps > 0
    ensures (forall window: uint32 :: EachOnce(window, steps)) <==> 0x1_0000_0000 % steps == 0
  {
    if 0x1_0000_0000 % steps == 0 {
      forall window: uint32
        ensures EachOnce(window, steps)
      {
        hide PlaceAfter, Residue, EachOnce, ToUint32;
        forall i: nat | i < steps
          ensures PlaceAfter(window, i, steps) == Residue(ToUint32(window - 1) + i, steps)
        {
          WrapKeepsPlace(window, i, steps);
        }
        UnbrokenSweep(window, ToUint32(window - 1), steps);
      }
    } else {
      WrapRepeats(steps);
    }
  }

  lemma WrapKeepsPlace(window: uint32, i: nat, steps: uint32)
    requires i < steps && 0x1_0000_0000 % steps == 0
    ensures PlaceAfter(window, i, steps) == Residue(ToUint32(window - 1) + i, steps)
  {
    CounterAfter(window, i);
    var c := ToUint32(window - 1) + i;
    if c > UINT32_MAX {
      ResidueWraps(c, steps);
    }
    hide ToUint32;
  }

  lemma CounterAfter(window: uint32, i: uint32)
    ensures var c := ToUint32(window - 1) + i;
            ToUint32(ToUint32(window + i) - 1) == if c <= UINT32_MAX then c else c - 0x1_0000_0000
  {
  }

  lemma ResidueWraps(c: nat, steps: uint32)
    requires steps > 0 && 0x1_0000_0000 % steps == 0 && c >= 0x1_0000_0000
    ensures Residue(c - 0x1_0000_0000, steps) == Residue(c, steps)
  {
    var d := c - 0x1_0000_0000;
    var t, q := 0x1_0000_0000 / steps, d / steps;
    assert (q + t) * steps == q * steps + t * steps;
    ModUnique(c, steps, q + t, d % steps);
  }

  /** The last window before the wrap and a window soon after it share their place. */
  lemma WrapRepeats(steps: uint32)
    requires steps > 0 && 0x1_0000_0000 % steps != 0
    ensures !EachOnce(0, steps)
  {
    var r := 0x1_0000_0000 % steps;
    ModUnique(0xFFFF_FFFF, steps, 0x1_0000_0000 / steps, r - 1);
    assert PlaceAfter(0, 0, steps) == r - 1;
    ModUnique(r - 1, steps, 0, r - 1);
    assert PlaceAfter(0, r, steps) == r - 1;
  }

  // ---------------------------------------------------------------- the loop

  /** The stretch of windows from the place k of the list on tunes to the whole grid, each offset
      once. */
  ghost predicate CoversGrid(offsets: seq<int>, k: nat, g: Grid)
    requires Configured(g) && k + FreqSteps(g) <= |offsets|
  {
    && (forall i, j :: k <= i < j < k + FreqSteps(g) ==> offsets[i] != offsets[j])
    && (forall place: nat :: place < FreqSteps(g) ==> GridOffset(g, place) in offsets[k..k + FreqSteps(g)])
  }

  function GridOffset(g: Grid, place: nat): int {
    g.start + place * g.step
  }

  lemma WrapAdds(a: nat, b: nat)
    ensures ToUint32(ToUint32(a) + b) == ToUint32(a + b)
  {
  }

  /** Every place is taken once by the windows after the first k. */
  ghost predicate Regular(k: nat, g: Grid)
    requires Configured(g)
  {
    k + FreqSteps(g) <= UINT32_MAX || (FreqSteps(g) > 0 && 0x1_0000_0000 % FreqSteps(g) == 0)
  }

  /** The first n windows of `run_rx`: every stretch of as many windows as there are grid offsets
      covers the grid, before the counter wraps, and if the wrap is regular also across it. */
  method RunWindows(n: nat, g: Grid) returns (offsets: seq<int>)
    requires Configured(g) && g.start <= g.stop
    ensures |offsets| == n
    ensures forall i :: 0 <= i < n ==> g.start <= offsets[i] <= g.stop
    ensures forall k: nat | k + FreqSteps(g) <= n && Regular(k, g) :: CoversGrid(offsets, k, g)
  {
    var windows: uint32 := 0;
    offsets := [];
    OffsetOnGrid(0, g);
    WrapAdds(0, 0);
    hide FreqOffset, FreqSteps, CoversGrid, Regular, ToUint32;
    while |offsets| < n
      invariant windows == ToUint32(|offsets|) && |offsets| <= n
      invariant forall i :: 0 <= i < |offsets| ==> offsets[i] == FreqOffset(ToUint32(i + 1), g)
    {
      WrapAdds(|offsets|, 1);
      windows := ToUint32(windows + 1);
      offsets := offsets + [FreqOffset(windows, g)];
    }
    WindowsCover(offsets, g);
  }

  lemma WindowsCover(offsets: seq<int>, g: Grid)
    requires Configured(g) && g.start <= g.stop && FreqSteps(g) > 0
    requires forall i :: 0 <= i < |offsets| ==> offsets[i] == FreqOffset(ToUint32(i + 1), g)
    ensures forall i :: 0 <= i < |offsets| ==> g.start <= offsets[i] <= g.stop
    ensures forall k: nat | k + FreqSteps(g) <= |offsets| && Regular(k, g) :: CoversGrid(offsets, k, g)
  {
    hide FreqOffset, FreqSteps, CoversGrid, EachOnce;
    forall i | 0 <= i < |offsets|
      ensures g.start <= offsets[i] <= g.stop
    {
      OffsetOnGrid(ToUint32(i + 1), g);
    }
    forall k: nat | k + FreqSteps(g) <= |offsets| && Regular(k, g)
      ensures CoversGrid(offsets, k, g)
    {
      if k + FreqSteps(g) <= UINT32_MAX {
        SweepWithoutWrap(k + 1, FreqSteps(g));
      } else {
        WrapExactly(FreqSteps(g));
      }
      Stretch(offsets, k, g);
    }
  }

  lemma OffsetIsPlace(k: nat, i: nat, g: Grid)
    requires Configured(g) && g.start <= g.stop
    ensures FreqSteps(g) > 0
    ensures FreqOffset(ToUint32(k + i), g) == GridOffset(g, PlaceAfter(ToUint32(k), i, FreqSteps(g)))
  {
    WrapAdds(k, i);
    OffsetOnGrid(ToUint32(k + i), g);
    hide ToUint32;
  }

  lemma Stretch(offsets: seq<int>, k: nat, g: Grid)
    requires Configured(g) && g.start <= g.stop && FreqSteps(g) > 0
    requires k + FreqSteps(g) <= |offsets| && EachOnce(ToUint32(k + 1), FreqSteps(g))
    requires forall i :: 0 <= i < |offsets| ==> offsets[i] == FreqOffset(ToUint32(i + 1), g)
    ensures CoversGrid(offsets, k, g)
  {
    hide FreqSteps, FreqOffset, PlaceAfter, GridOffset, ToUint32;
    var steps, w := FreqSteps(g), ToUint32(k + 1);
    forall i | k <= i < k + steps
      ensures offsets[i] == GridOffset(g, PlaceAfter(w, i - k, steps))
    {
      OffsetIsPlace(k + 1, i - k, g);
    }
    forall i, j | k <= i < j < k + steps
      ensures offsets[i] != offsets[j]
    {
      GridInjective(g, PlaceAfter(w, i - k, steps), PlaceAfter(w, j - k, steps));
    }
    forall place: nat | place < steps
      ensures GridOffset(g, place) in offsets[k..k + steps]
    {
      assert Reached(w, steps, place);
      var i: nat :| i < steps && PlaceAfter(w, i, steps) == place;
      assert offsets[k..k + steps][i] == offsets[k + i];
    }
  }

  lemma GridInjective(g: Grid, a: nat, b: nat)
    requires g.step > 0 && a != b
    ensures GridOffset(g, a) != GridOffset(g, b)
  {
    MulBetween(a, b, b, g.step);
  }
}
