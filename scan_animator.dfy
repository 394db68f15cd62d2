/** The scan animation of ThunderLoadingView (`AnimRunnable.run`) as a pure
    transition function, with the properties of the cycle it drives. */
module ScanAnimator {
  import opened JavaCasts

  /** The reveal window: `mScanTop`, `mScanBottom` and `flag`
      (false while the window grows downwards, true while it shrinks). */
  datatype Window = Window(top: int, bottom: int, flag: bool)

  /** How the tick asks the host to run the next one: `post` or `postDelayed`. */
  datatype Schedule = Immediate | Delayed(millis: nat)

  /** What one tick leaves behind: the new window, whether it asked for a redraw
      (`postInvalidate`), and the next schedule. */
  datatype TickOutcome = TickOutcome(window: Window, redraw: bool, next: Schedule)

  /** The state of a freshly created view. */
  const Init: Window := Window(0, 0, false)

  /** The pause between two cycles. */
  const IdleDelay: nat := 700

  /** One tick with step `gap` against bolt height `height`. */
  function Step(w: Window, gap: int, height: real): (r: TickOutcome)
    ensures r.redraw
    ensures r.next != Immediate <==> w.flag && (w.top + gap) as real >= height
    ensures r.next != Immediate ==> r.next == Delayed(IdleDelay) && r.window == Init
    ensures !w.flag ==> r.window.top == w.top
    ensures w.flag && r.next == Immediate ==> r.window.bottom == w.bottom && r.window.flag
  {
    if !w.flag then
      var bottom := w.bottom + gap;
      if bottom as real >= height then TickOutcome(Window(w.top, Trunc(height), true), true, Immediate)
      else TickOutcome(Window(w.top, bottom, false), true, Immediate)
    else
      var top := w.top + gap;
      if top as real >= height then TickOutcome(Init, true, Delayed(IdleDelay))
      else TickOutcome(Window(top, w.bottom, true), true, Immediate)
  }

  /** A growing tick adds the step to the bottom edge; once it reaches the height, the
      edge is clamped to the truncated height and the window starts to shrink. */
  lemma GrowingTick(w: Window, gap: int, height: real)
    requires !w.flag
    ensures var r := Step(w, gap, height);
      r.next == Immediate && r.window.top == w.top &&
      ((w.bottom + gap) as real >= height ==> r.window == Window(w.top, Trunc(height), true)) &&
      ((w.bottom + gap) as real < height ==> r.window == Window(w.top, w.bottom + gap, false))
  {
  }

  /** A shrinking tick adds the step to the top edge; once it reaches the height the
      window resets and the next tick is the only one scheduled with a delay. */
  lemma ShrinkingTick(w: Window, gap: int, height: real)
    requires w.flag
    ensures var r := Step(w, gap, height);
      ((w.top + gap) as real >= height ==> r.window == Init && r.next == Delayed(IdleDelay)) &&
      ((w.top + gap) as real < height ==> r.window == Window(w.top + gap, w.bottom, true) && r.next == Immediate)
  {
  }

  /** `n` consecutive ticks with a fixed step and height: the final window and the
      schedule each tick requested, in order. */
  function Run(w: Window, gap: int, height: real, n: nat): (r: (Window, seq<Schedule>))
    ensures |r.1| == n
    decreases n
  {
    if n == 0 then (w, [])
    else
      var o := Step(w, gap, height);
      var rest := Run(o.window, gap, height, n - 1);
      (rest.0, [o.next] + rest.1)
  }

  /** Running `m` ticks and then `n` more is running `m + n` ticks. */
  lemma {:induction false} RunAppend(w: Window, gap: int, height: real, m: nat, n: nat)
    ensures Run(w, gap, height, m + n).0 == Run(Run(w, gap, height, m).0, gap, height, n).0
    ensures Run(w, gap, height, m + n).1
         == Run(w, gap, height, m).1 + Run(Run(w, gap, height, m).0, gap, height, n).1
    decreases m
  {
    if m == 0 {
      assert Run(w, gap, height, 0) == (w, []);
      assert [] + Run(w, gap, height, n).1 == Run(w, gap, height, n).1;
    } else {
      var o := Step(w, gap, height);
      RunAppend(o.window, gap, height, m - 1, n);
      var first := Run(o.window, gap, height, m - 1);
      var second := Run(first.0, gap, height, n);
      var whole := Run(o.window, gap, height, m - 1 + n);
      assert whole == (second.0, first.1 + second.1);
      assert Run(w, gap, height, m + n) == (whole.0, [o.next] + whole.1);
      assert Run(w, gap, height, m) == (first.0, [o.next] + first.1);
      assert [o.next] + (first.1 + second.1) == ([o.next] + first.1) + second.1;
    }
  }

  /** `n` immediate reschedules. */
  function Immediates(n: nat): (r: seq<Schedule>)
    ensures |r| == n && forall i :: 0 <= i < n ==> r[i] == Immediate
  {
    seq(n, _ => Immediate)
  }

  /** The number of ticks after which an edge at `x`, advanced by `gap` on every
      tick, first reaches `height` (at least one: a tick always advances first). */
  function TicksToReach(x: int, gap: int, height: real): (n: nat)
    requires gap > 0
    ensures n >= 1
    ensures (x + n * gap) as real >= height
    ensures n > 1 ==> (x + (n - 1) * gap) as real < height
    decreases height.Floor - x
  {
    if (x + gap) as real >= height then 1
    else
      AtMostFloor(x, height);
      var k := TicksToReach(x + gap, gap, height);
      assert x + gap + k * gap == x + (k + 1) * gap;
      assert x + gap + (k - 1) * gap == x + k * gap;
      k + 1
  }

  /** Being reached after exactly `n` ticks pins `n` down: the count is the ceiling. */
  lemma {:induction false} TicksToReachUnique(x: int, gap: int, height: real, n: nat)
    requires gap > 0 && n >= 1
    requires (x + n * gap) as real >= height
    requires n > 1 ==> (x + (n - 1) * gap) as real < height
    ensures TicksToReach(x, gap, height) == n
  {
    var k := TicksToReach(x, gap, height);
    if k < n {
      MulMonotone(k, n - 1, gap);
      assert false;
    } else if k > n {
      MulMonotone(n, k - 1, gap);
      assert false;
    }
  }

  lemma MulMonotone(a: int, b: int, gap: int)
    requires a <= b && gap > 0
    ensures a * gap <= b * gap
  {
    assert b * gap - a * gap == (b - a) * gap;
  }

  /** An integer not above a real is not above its floor. */
  lemma AtMostFloor(x: int, height: real)
    requires x as real <= height
    ensures x <= height.Floor
  {
    assert height < height.Floor as real + 1.0;
  }

  /** The growing phase: from any growing window, the ticks until the bottom edge
      reaches the height all reschedule immediately and end in the shrinking phase
      with the bottom clamped to the truncated height and the top untouched. */
  lemma {:induction false} GrowingPhase(w: Window, gap: int, height: real)
    requires !w.flag && gap > 0
    ensures var n := TicksToReach(w.bottom, gap, height);
      Run(w, gap, height, n) == (Window(w.top, Trunc(height), true), Immediates(n))
    decreases height.Floor - w.bottom
  {
    var n := TicksToReach(w.bottom, gap, height);
    var o := Step(w, gap, height);
    if (w.bottom + gap) as real < height {
      AtMostFloor(w.bottom, height);
      assert o.window == Window(w.top, w.bottom + gap, false) && o.next == Immediate;
      assert TicksToReach(o.window.bottom, gap, height) == n - 1;
      GrowingPhase(o.window, gap, height);
      var rest := Run(o.window, gap, height, n - 1);
      assert Run(w, gap, height, n) == (rest.0, [Immediate] + rest.1);
      assert Immediates(n) == [Immediate] + Immediates(n - 1);
    } else {
      assert o.window == Window(w.top, Trunc(height), true) && o.next == Immediate;
      assert Run(o.window, gap, height, 0) == (o.window, []);
      assert [Immediate] + [] == [Immediate] == Immediates(1);
    }
  }

  /** The shrinking phase: from any shrinking window, the ticks until the top edge
      reaches the height reschedule immediately, and the last one resets the window
      and is the one delayed by IdleDelay. */
  lemma {:induction false} ShrinkingPhase(w: Window, gap: int, height: real)
    requires w.flag && gap > 0
    ensures var n := TicksToReach(w.top, gap, height);
      Run(w, gap, height, n) == (Init, Immediates(n - 1) + [Delayed(IdleDelay)])
    decreases height.Floor - w.top
  {
    var n := TicksToReach(w.top, gap, height);
    var o := Step(w, gap, height);
    if (w.top + gap) as real < height {
      AtMostFloor(w.top, height);
      assert o.window == Window(w.top + gap, w.bottom, true) && o.next == Immediate;
      assert TicksToReach(o.window.top, gap, height) == n - 1;
      ShrinkingPhase(o.window, gap, height);
      var rest := Run(o.window, gap, height, n - 1);
      assert Run(w, gap, height, n) == (rest.0, [Immediate] + rest.1);
      assert Immediates(n - 1) == [Immediate] + Immediates(n - 2);
      assert [Immediate] + (Immediates(n - 2) + [Delayed(IdleDelay)])
          == Immediates(n - 1) + [Delayed(IdleDelay)];
    } else {
      assert o.window == Init && o.next == Delayed(IdleDelay);
      assert Run(o.window, gap, height, 0) == (o.window, []);
      assert [Delayed(IdleDelay)] + [] == [Delayed(IdleDelay)];
      assert Immediates(0) + [Delayed(IdleDelay)] == [Delayed(IdleDelay)];
    }
  }

  /** The number of ticks in one full cycle from the initial window. */
  function CycleLength(gap: int, height: real): (n: nat)
    requires gap > 0
    ensures n >= 2 && n % 2 == 0
  {
    2 * TicksToReach(0, gap, height)
  }

  /** A full cycle from the initial window comes back to it: every tick but the last
      reschedules immediately, the last one after IdleDelay. */
  lemma FullCycle(gap: int, height: real)
    requires gap > 0
    ensures var n := CycleLength(gap, height);
      Run(Init, gap, height, n) == (Init, Immediates(n - 1) + [Delayed(IdleDelay)])
  {
    var k := TicksToReach(0, gap, height);
    GrowingPhase(Init, gap, height);
    var mid := Window(0, Trunc(height), true);
    ShrinkingPhase(mid, gap, height);
    RunAppend(Init, gap, height, k, k);
    assert Immediates(k) + (Immediates(k - 1) + [Delayed(IdleDelay)])
        == Immediates(2 * k - 1) + [Delayed(IdleDelay)];
  }

  /** The ticks after which the machine is back at the initial window from `w`. */
  function TicksToReset(w: Window, gap: int, height: real): (n: nat)
    requires gap > 0
    ensures n >= 1
  {
    if w.flag then TicksToReach(w.top, gap, height)
    else TicksToReach(w.bottom, gap, height) + TicksToReach(w.top, gap, height)
  }

  /** Whatever window the machine is in (for instance one left out of order by a
      change of size in mid-cycle), it is back at the initial window, after the idle
      delay, within a bounded number of ticks. */
  lemma Recovers(w: Window, gap: int, height: real)
    requires gap > 0
    ensures var n := TicksToReset(w, gap, height);
      Run(w, gap, height, n) == (Init, Immediates(n - 1) + [Delayed(IdleDelay)])
  {
    if w.flag {
      ShrinkingPhase(w, gap, height);
    } else {
      var g := TicksToReach(w.bottom, gap, height);
      var s := TicksToReach(w.top, gap, height);
      GrowingPhase(w, gap, height);
      var mid := Window(w.top, Trunc(height), true);
      ShrinkingPhase(mid, gap, height);
      RunAppend(w, gap, height, g, s);
      assert Immediates(g) + (Immediates(s - 1) + [Delayed(IdleDelay)])
          == Immediates(g + s - 1) + [Delayed(IdleDelay)];
    }
  }

  /** The order the window keeps while step and height stay fixed:
      0 <= top <= bottom <= (int) height, the top at 0 while growing and the bottom
      at the clamp while shrinking. */
  predicate Ordered(w: Window, height: real)
  {
    0 <= w.top <= w.bottom <= Trunc(height) &&
    (!w.flag ==> w.top == 0) &&
    (w.flag ==> w.bottom == Trunc(height))
  }

  /** One tick keeps the order. */
  lemma StepKeepsOrder(w: Window, gap: int, height: real)
    requires gap >= 0 && height >= 0.0
    requires Ordered(w, height)
    ensures Ordered(Step(w, gap, height).window, height)
  {
    if !w.flag {
      TruncIsGreatestBelow(height, w.bottom + gap);
    } else {
      TruncIsGreatestBelow(height, w.top + gap);
    }
  }

  /** Any number of ticks keeps the order. */
  lemma {:induction false} RunKeepsOrder(w: Window, gap: int, height: real, n: nat)
    requires gap >= 0 && height >= 0.0
    requires Ordered(w, height)
    ensures Ordered(Run(w, gap, height, n).0, height)
    decreases n
  {
    if n > 0 {
      StepKeepsOrder(w, gap, height);
      RunKeepsOrder(Step(w, gap, height).window, gap, height, n - 1);
    }
  }

  /** After every tick from the initial window, 0 <= top <= bottom <= height. */
  lemma ReachableBounded(gap: int, height: real, n: nat)
    requires gap >= 0 && height >= 0.0
    ensures var w := Run(Init, gap, height, n).0;
      0 <= w.top <= w.bottom && w.bottom as real <= height
  {
    RunKeepsOrder(Init, gap, height, n);
  }

  /** Raising the height in mid-shrink (Small to Large at density 1: step 3, height
      30 becomes step 7, height 60) lets the top edge pass the bottom edge. */
  lemma ResizeMidShrinkUnorders()
    ensures Ordered(Window(27, 30, true), 30.0)
    ensures var w := Step(Window(27, 30, true), 7, 60.0).window;
      w == Window(34, 30, true) && w.top > w.bottom
  {
  }
}
