/** One cell of the animated pixel grid: the `Pixel` class of
    src/app/components/PixelCard.tsx. The cell's step rules are stated once as
    functions on values (`Appeared`, `Disappeared`, `Shimmered`); the class's
    methods update its fields in place and are proved to follow them. Sizes,
    speeds and counters are `real`, so there is no floating-point rounding. */
module Pixels {

  /** The four `Math.random()` draws the constructor makes, in call order. */
  datatype PixelDraws = PixelDraws(speed: real, sizeStep: real, maxSize: real, counterStep: real)

  /** A `Math.random()` result lies in [0, 1). */
  predicate UnitDraw(r: real) {
    0.0 <= r < 1.0
  }

  predicate ValidDraws(d: PixelDraws) {
    UnitDraw(d.speed) && UnitDraw(d.sizeStep) && UnitDraw(d.maxSize) && UnitDraw(d.counterStep)
  }

  const MinSize: real := 0.5
  const MaxSizeInteger: real := 2.0
  /** How much `disappear` shrinks a cell per call. */
  const ShrinkStep: real := 0.1

  lemma MulStrict(a: real, b: real, c: real)
    requires a < b && 0.0 < c
    ensures a * c < b * c
  {
    assert (b - a) * c > 0.0;
  }

  lemma MulMonotone(a: real, b: real, c: real)
    requires a <= b && 0.0 <= c
    ensures a * c <= b * c
  {
    assert (b - a) * c >= 0.0;
  }

  /** `getRandomValue(0.1, 0.9) * speed`: a speed in [0, 0.1] becomes one in [0, 0.09). */
  function ScaledSpeed(draw: real, speed: real): (r: real)
    requires UnitDraw(draw)
    ensures 0.0 <= speed ==> 0.1 * speed <= r <= 0.9 * speed
    ensures 0.0 < speed ==> r < 0.9 * speed
    ensures 0.0 <= speed <= 0.1 ==> 0.0 <= r < 0.09
  {
    var factor := RandomValue(draw, 0.1, 0.9);
    SpeedBounds(factor, speed);
    Product(factor, speed)
  }

  function Product(a: real, b: real): real {
    a * b
  }

  lemma SpeedBounds(factor: real, speed: real)
    requires 0.1 <= factor < 0.9
    ensures 0.0 <= speed ==> 0.1 * speed <= Product(factor, speed) <= 0.9 * speed
    ensures 0.0 < speed ==> Product(factor, speed) < 0.9 * speed
    ensures 0.0 <= speed <= 0.1 ==> 0.0 <= Product(factor, speed) < 0.09
  {
    assert Product(factor, speed) == factor * speed;
    if 0.0 <= speed {
      MulMonotone(0.1, factor, speed);
      MulMonotone(factor, 0.9, speed);
      assert 0.1 * speed <= factor * speed <= 0.9 * speed;
      if 0.0 < speed {
        MulStrict(factor, 0.9, speed);
      }
      if speed <= 0.1 {
        SmallSpeed(factor, speed);
      }
    }
  }

  lemma SmallSpeed(factor: real, speed: real)
    requires 0.1 <= factor < 0.9 && 0.0 <= speed <= 0.1
    ensures factor * speed < 0.09
  {
    MulMonotone(speed, 0.1, factor);
    assert speed * factor == factor * speed;
  }

  /** `(k + 1) * c` unfolds into `k * c + c`. */
  lemma MulSucc(k: int, c: real)
    ensures (k + 1) as real * c == k as real * c + c
  {
  }

  /** `getRandomValue(min, max)`: a draw scaled into [min, max). */
  function RandomValue(r: real, min: real, max: real): (v: real)
    requires UnitDraw(r) && min < max
    ensures min <= v < max
  {
    Scale(r, max - min) + min
  }

  /** A draw scaled onto [0, width). */
  function Scale(r: real, width: real): (s: real)
    requires UnitDraw(r) && 0.0 < width
    ensures 0.0 <= s < width
  {
    ScaleBounds(r, width);
    r * width
  }

  lemma ScaleBounds(r: real, width: real)
    requires UnitDraw(r) && 0.0 < width
    ensures 0.0 <= r * width < width
  {
    MulStrict(r, 1.0, width);
    MulMonotone(0.0, r, width);
  }

  /** The fields a pixel never changes after construction. */
  datatype PixelParams = PixelParams(
    width: nat, height: nat, x: int, y: int, color: string,
    speed: real, sizeStep: real, minSize: real, maxSizeInteger: real, maxSize: real,
    delay: real, counterStep: real)

  /** The fields `appear`, `disappear` and `shimmer` update. */
  datatype PixelState = PixelState(size: real, counter: real, isIdle: bool, isReverse: bool, isShimmer: bool)

  /** A freshly constructed pixel: nothing drawn, no delay counted, all flags clear. */
  const Initial: PixelState := PixelState(0.0, 0.0, false, false, false)

  /** The constructor's derived fields. `speed` is the effective speed the
      grid passes in and `delay` the cell's distance from the canvas centre. */
  function NewParams(width: nat, height: nat, x: int, y: int, color: string,
                     speed: real, delay: real, d: PixelDraws): (p: PixelParams)
    requires ValidDraws(d)
    ensures p.width == width && p.height == height && p.x == x && p.y == y && p.color == color
    ensures p.minSize == MinSize && p.maxSizeInteger == MaxSizeInteger
    ensures MinSize <= p.maxSize < MaxSizeInteger
    ensures 0.0 <= p.sizeStep < 0.4
    ensures 0.0 <= speed ==> 0.1 * speed <= p.speed <= 0.9 * speed
    ensures 0.0 < speed ==> p.speed < 0.9 * speed
    ensures p.delay == delay
    ensures p.counterStep >= (width + height) as real * 0.01
    ensures 0.0 <= speed <= 0.1 && 0.0 <= delay ==> WellFormed(p)
  {
    PixelParams(width, height, x, y, color,
                ScaledSpeed(d.speed, speed),
                d.sizeStep * 0.4,
                MinSize, MaxSizeInteger,
                RandomValue(d.maxSize, MinSize, MaxSizeInteger),
                delay,
                d.counterStep * 4.0 + (width + height) as real * 0.01)
  }

  /** What construction guarantees when the grid passes an effective speed in
      [0, 0.1] and a non-negative delay. */
  predicate WellFormed(p: PixelParams) {
    && p.minSize == MinSize && p.maxSizeInteger == MaxSizeInteger
    && MinSize <= p.maxSize < MaxSizeInteger
    && 0.0 <= p.sizeStep < 0.4
    && 0.0 <= p.speed < 0.09
    && 0.0 <= p.delay
    && 0.0 <= p.counterStep
  }

  /** `draw`: the square of edge `size` is drawn at (x + offset, y + offset). */
  function CenterOffset(p: PixelParams, s: PixelState): (offset: real)
    ensures offset + s.size / 2.0 == p.maxSizeInteger / 2.0
  {
    p.maxSizeInteger * 0.5 - s.size * 0.5
  }

  /** `shimmer`: bounce the size between `minSize` and `maxSize`. */
  function Shimmered(p: PixelParams, s: PixelState): (r: PixelState)
    ensures s.size >= p.maxSize ==> r.isReverse
    ensures p.minSize >= s.size && s.size < p.maxSize ==> !r.isReverse
    ensures p.minSize < s.size < p.maxSize ==> r.isReverse == s.isReverse
    ensures r.size == if r.isReverse then s.size - p.speed else s.size + p.speed
    ensures r.counter == s.counter && r.isIdle == s.isIdle && r.isShimmer == s.isShimmer
  {
    var reverse :=
      if s.size >= p.maxSize then true
      else if s.size <= p.minSize then false
      else s.isReverse;
    s.(isReverse := reverse, size := if reverse then s.size - p.speed else s.size + p.speed)
  }

  /** `appear`: count down the delay, then grow, then shimmer once full size was reached. */
  function Appeared(p: PixelParams, s: PixelState): (r: PixelState)
    ensures !r.isIdle
    ensures s.counter <= p.delay ==> r == s.(isIdle := false, counter := s.counter + p.counterStep)
    ensures s.isShimmer ==> r.isShimmer
    ensures s.counter > p.delay ==> r.counter == s.counter && (r.isShimmer <==> s.isShimmer || s.size >= p.maxSize)
    ensures s.counter > p.delay && !r.isShimmer ==> r == s.(isIdle := false, size := s.size + p.sizeStep)
    ensures s.counter > p.delay && r.isShimmer ==> r == Shimmered(p, s.(isIdle := false, isShimmer := true))
  {
    var s1 := s.(isIdle := false);
    if s1.counter <= p.delay then
      s1.(counter := s1.counter + p.counterStep)
    else
      var s2 := if s1.size >= p.maxSize then s1.(isShimmer := true) else s1;
      if s2.isShimmer then Shimmered(p, s2) else s2.(size := s2.size + p.sizeStep)
  }

  /** `disappear`: reset the shimmer and the delay, then shrink by 0.1 or go idle. */
  function Disappeared(s: PixelState): (r: PixelState)
    ensures !r.isShimmer && r.counter == 0.0 && r.isReverse == s.isReverse
    ensures s.size <= 0.0 ==> r.isIdle && r.size == s.size
    ensures s.size > 0.0 ==> r.isIdle == s.isIdle && r.size == s.size - ShrinkStep
  {
    var s1 := s.(isShimmer := false, counter := 0.0);
    if s1.size <= 0.0 then s1.(isIdle := true) else s1.(size := s1.size - ShrinkStep)
  }

  /** The two methods the animation loop can invoke on every pixel. */
  datatype Direction = Appearing | Disappearing

  /** `pixel[fnName]()`: the frame loop runs the method its direction names. */
  function Step(d: Direction, p: PixelParams, s: PixelState): (r: PixelState)
    ensures d == Appearing ==> r == Appeared(p, s) && !r.isIdle
    ensures d == Disappearing ==> r == Disappeared(s) && !r.isShimmer
  {
    match d
    case Appearing => Appeared(p, s)
    case Disappearing => Disappeared(s)
  }

  function Max(a: real, b: real): real {
    if a < b then b else a
  }

  /** What every tick keeps: the size stays strictly above -0.1 and overshoots
      `maxSize` by less than one growth or shimmer step, and a shimmering cell
      has its delay behind it. */
  predicate Inv(p: PixelParams, s: PixelState) {
    && -ShrinkStep < s.size < p.maxSize + Max(p.sizeStep, p.speed)
    && (s.isShimmer ==> s.counter > p.delay)
  }

  lemma InitialInv(p: PixelParams)
    requires WellFormed(p)
    ensures Inv(p, Initial)
  {
  }

  lemma StepPreservesInv(d: Direction, p: PixelParams, s: PixelState)
    requires WellFormed(p) && Inv(p, s)
    ensures Inv(p, Step(d, p, s))
  {
  }

  /** A shimmering size that lies within one `speed` of [minSize, maxSize] stays there. */
  lemma ShimmerStaysInBand(p: PixelParams, s: PixelState)
    requires WellFormed(p)
    requires p.minSize - p.speed <= s.size <= p.maxSize + p.speed
    ensures p.minSize - p.speed <= Shimmered(p, s).size <= p.maxSize + p.speed
  {
  }

  /** The state after `n` calls of `appear`. */
  function AppearN(p: PixelParams, s: PixelState, n: nat): PixelState {
    if n == 0 then s else Appeared(p, AppearN(p, s, n - 1))
  }

  /** The state after `n` calls of `disappear`. */
  function DisappearN(s: PixelState, n: nat): PixelState {
    if n == 0 then s else Disappeared(DisappearN(s, n - 1))
  }

  /** How many 0.1 decrements bring `size` to zero or below: its ceiling in tenths. */
  function Decrements(size: real): (n: nat)
    ensures size <= 0.0 ==> n == 0
    ensures size > 0.0 ==> (n - 1) as real * ShrinkStep < size <= n as real * ShrinkStep
    decreases if size <= 0.0 then 0 else (size * 10.0).Floor + 1
  {
    if size <= 0.0 then 0 else 1 + Decrements(size - ShrinkStep)
  }

  /** While size is positive, each `disappear` takes exactly 0.1 off and leaves `isIdle` alone. */
  lemma {:induction false} DisappearCountsDown(s: PixelState, k: nat)
    requires k <= Decrements(s.size)
    ensures DisappearN(s, k).size == s.size - k as real * ShrinkStep
    ensures DisappearN(s, k).isIdle == s.isIdle
  {
    if k > 0 {
      DisappearCountsDown(s, k - 1);
    }
  }

  /** A cell that is not idle becomes idle on exactly the call after its size
      first reaches zero or below, i.e. after ceil(size / 0.1) + 1 calls, and its
      final size lies in (-0.1, 0]. */
  lemma DisappearReachesIdle(s: PixelState)
    requires -ShrinkStep < s.size
    ensures DisappearN(s, Decrements(s.size) + 1).isIdle
    ensures -ShrinkStep < DisappearN(s, Decrements(s.size) + 1).size <= 0.0
    ensures !s.isIdle ==> forall k | 0 <= k <= Decrements(s.size) :: !DisappearN(s, k).isIdle
  {
    var n := Decrements(s.size);
    DisappearCountsDown(s, n);
    forall k | 0 <= k <= n
      ensures DisappearN(s, k).isIdle == s.isIdle
    {
      DisappearCountsDown(s, k);
    }
  }

  /** Once idle, further `disappear` calls keep the cell idle and its size put. */
  lemma {:induction false} DisappearStaysIdle(s: PixelState, m: nat)
    requires -ShrinkStep < s.size && m >= Decrements(s.size) + 1
    ensures DisappearN(s, m).isIdle && DisappearN(s, m).size == DisappearN(s, Decrements(s.size) + 1).size
  {
    if m == Decrements(s.size) + 1 {
      DisappearReachesIdle(s);
    } else {
      DisappearStaysIdle(s, m - 1);
      DisappearReachesIdle(s);
    }
  }

  /** `start` advanced `n` times by `step`: a counter or size after `n` equal steps. */
  function Ramp(start: real, step: real, n: nat): real {
    if n == 0 then start else Ramp(start, step, n - 1) + step
  }

  lemma {:induction false} RampIsLinear(start: real, step: real, n: nat)
    ensures Ramp(start, step, n) == start + n as real * step
  {
    if n > 0 {
      RampIsLinear(start, step, n - 1);
      MulSucc(n - 1, step);
    }
  }

  /** The first `n` with `Ramp(start, step, n) > limit`: how many calls `appear`
      spends counting through a delay of `limit`. */
  function StepsBeyond(start: real, step: real, limit: real): (n: nat)
    requires step > 0.0
    ensures n > 0 ==> Ramp(start, step, n - 1) <= limit
    ensures limit < Ramp(start, step, n)
  {
    if start > limit then 0
    else
      var f := FloorSteps(start, step, limit);
      RampIsLinear(start, step, f);
      RampIsLinear(start, step, f + 1);
      f + 1
  }

  lemma FloorBracket(start: real, step: real, limit: real)
    requires step > 0.0 && start <= limit
    ensures var f := ((limit - start) / step).Floor;
            0 <= f && start + f as real * step <= limit < start + (f + 1) as real * step
  {
    var q := (limit - start) / step;
    var f := q.Floor;
    var g := (f + 1) as real;
    MulMonotone(f as real, q, step);
    MulStrict(q, g, step);
    assert q * step == limit - start;
  }

  /** The whole number of steps that fit between `start` and `limit`. */
  function FloorSteps(start: real, step: real, limit: real): (f: nat)
    requires step > 0.0 && start <= limit
    ensures start + f as real * step <= limit < start + (f + 1) as real * step
  {
    var q := (limit - start) / step;
    FloorBracket(start, step, limit);
    q.Floor
  }

  /** The first `n` with `Ramp(start, step, n) >= limit`: how many growth calls
      bring a size from `start` to `limit`. */
  function StepsToReach(start: real, step: real, limit: real): (n: nat)
    requires step > 0.0
    ensures n > 0 ==> Ramp(start, step, n - 1) < limit
    ensures limit <= Ramp(start, step, n)
  {
    if start >= limit then 0
    else
      var f := FloorSteps(start, step, limit);
      var n := if start + f as real * step == limit then f else f + 1;
      RampIsLinear(start, step, n);
      RampIsLinear(start, step, n - 1);
      n
  }

  lemma {:induction false} AppearNAdd(p: PixelParams, s: PixelState, a: nat, b: nat)
    ensures AppearN(p, s, a + b) == AppearN(p, AppearN(p, s, a), b)
  {
    if b > 0 {
      AppearNAdd(p, s, a, b - 1);
    }
  }

  /** While the counter has not passed the delay, `appear` only advances the
      counter: the size does not change. */
  lemma {:induction false} AppearDelayPhase(p: PixelParams, s: PixelState, n: nat)
    requires WellFormed(p)
    requires n > 0 ==> Ramp(s.counter, p.counterStep, n - 1) <= p.delay
    ensures AppearN(p, s, n) ==
      if n == 0 then s else s.(isIdle := false, counter := Ramp(s.counter, p.counterStep, n))
  {
    if n > 1 {
      AppearDelayPhase(p, s, n - 1);
    }
  }

  /** After the delay and before full size, each `appear` grows the cell by exactly `sizeStep`. */
  lemma {:induction false} AppearGrowPhase(p: PixelParams, s: PixelState, n: nat)
    requires WellFormed(p)
    requires s.counter > p.delay && !s.isShimmer
    requires n > 0 ==> Ramp(s.size, p.sizeStep, n - 1) < p.maxSize
    ensures AppearN(p, s, n) ==
      if n == 0 then s else s.(isIdle := false, size := Ramp(s.size, p.sizeStep, n))
  {
    if n > 1 {
      AppearGrowPhase(p, s, n - 1);
    }
  }

  /** From a fresh pixel, with positive counting and growth rates, `appear`
      spends `d` calls on the delay with the size held at 0, `g` calls growing
      to `maxSize`, and latches the shimmer on the call after that. */
  lemma AppearReachesShimmer(p: PixelParams)
    requires WellFormed(p) && p.counterStep > 0.0 && p.sizeStep > 0.0
    ensures var d := StepsBeyond(0.0, p.counterStep, p.delay);
            var g := StepsToReach(0.0, p.sizeStep, p.maxSize);
            && d > 0
            && AppearN(p, Initial, d).size == 0.0
            && !AppearN(p, Initial, d + g).isShimmer
            && AppearN(p, Initial, d + g).size >= p.maxSize
            && AppearN(p, Initial, d + g + 1).isShimmer
  {
    var d := StepsBeyond(0.0, p.counterStep, p.delay);
    var g := StepsToReach(0.0, p.sizeStep, p.maxSize);
    AppearDelayPhase(p, Initial, d);
    var s := AppearN(p, Initial, d);
    AppearGrowPhase(p, s, g);
    AppearNAdd(p, Initial, d, g);
  }

  class Pixel {
    const width: nat
    const height: nat
    const x: int
    const y: int
    const color: string
    const speed: real
    const sizeStep: real
    const minSize: real
    const maxSizeInteger: real
    const maxSize: real
    const delay: real
    const counterStep: real

    var size: real
    var counter: real
    var isIdle: bool
    var isReverse: bool
    var isShimmer: bool

    function Params(): PixelParams {
      PixelParams(width, height, x, y, color, speed, sizeStep, minSize, maxSizeInteger, maxSize, delay, counterStep)
    }

    function State(): PixelState
      reads this
    {
      PixelState(size, counter, isIdle, isReverse, isShimmer)
    }

    /** `width` and `height` are the canvas's; `draws` the constructor's random draws. */
    constructor (width: nat, height: nat, x: int, y: int, color: string,
                 speed: real, delay: real, draws: PixelDraws)
      requires ValidDraws(draws)
      ensures Params() == NewParams(width, height, x, y, color, speed, delay, draws)
      ensures State() == Initial
    {
      var p := NewParams(width, height, x, y, color, speed, delay, draws);
      this.width, this.height, this.x, this.y, this.color := width, height, x, y, color;
      this.speed := p.speed;
      this.size := 0.0;
      this.sizeStep := p.sizeStep;
      this.minSize := MinSize;
      this.maxSizeInteger := MaxSizeInteger;
      this.maxSize := p.maxSize;
      this.delay := delay;
      this.counter := 0.0;
      this.counterStep := p.counterStep;
      this.isIdle, this.isReverse, this.isShimmer := false, false, false;
    }

    method Appear()
      modifies this
      ensures State() == Appeared(Params(), old(State()))
    {
      isIdle := false;
      if counter <= delay {
        counter := counter + counterStep;
        return;
      }
      if size >= maxSize {
        isShimmer := true;
      }
      if isShimmer {
        Shimmer();
      } else {
        size := size + sizeStep;
      }
    }

    method Disappear()
      modifies this
      ensures State() == Disappeared(old(State()))
    {
      isShimmer := false;
      counter := 0.0;
      if size <= 0.0 {
        isIdle := true;
        return;
      } else {
        size := size - ShrinkStep;
      }
    }

    method Shimmer()
      modifies this
      ensures State() == Shimmered(Params(), old(State()))
    {
      if size >= maxSize {
        isReverse := true;
      } else if size <= minSize {
        isReverse := false;
      }
      if isReverse {
        size := size - speed;
      } else {
        size := size + speed;
      }
    }
  }
}
