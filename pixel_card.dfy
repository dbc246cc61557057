/** The `PixelCard` component of src/app/components/PixelCard.tsx: the speed
    clamp, the variant table with its per-instance overrides, the grid of
    pixels rebuilt on every layout change, and the frame-capped animation loop
    that steps every pixel once per tick and stops when all are idle.

    The browser is outside the model: the bounding box, the random draws and
    the square roots arrive as parameters, the pending `requestAnimationFrame`
    callback is the field `frame`, and `performance.now()` is the `now`
    argument of `RunFrame`. */
module PixelCard {
  import opened Wrappers
  import opened Pixels
  import opened Arithmetic

  // ---------------------------------------------------------------------------
  // getEffectiveSpeed

  /** `parseInt(value.toString(), 10)` for a number printed without an
      exponent: the integer part, truncated toward zero. */
  function ParseInt(v: real): (n: int)
    ensures 0.0 <= v ==> 0 <= n && n as real <= v < n as real + 1.0
    ensures v < 0.0 ==> n <= 0 && n as real - 1.0 < v <= n as real
  {
    if v >= 0.0 then v.Floor else -((-v).Floor)
  }

  lemma ParseIntMonotone(a: real, b: real)
    requires a <= b
    ensures ParseInt(a) <= ParseInt(b)
  {
  }

  const SpeedMin: int := 0
  const SpeedMax: int := 100
  const Throttle: real := 0.001

  /** The 0..100 speed dial mapped to a per-tick shimmer unit in [0, 0.1]. */
  function GetEffectiveSpeed(value: real, reducedMotion: bool): (r: real)
    ensures 0.0 <= r <= SpeedMax as real * Throttle
    ensures r == 0.0 <==> reducedMotion || ParseInt(value) <= SpeedMin
    ensures !reducedMotion && ParseInt(value) >= SpeedMax ==> r == SpeedMax as real * Throttle
    ensures !reducedMotion && SpeedMin < ParseInt(value) < SpeedMax ==> r == ParseInt(value) as real * Throttle
  {
    var parsed := ParseInt(value);
    if parsed <= SpeedMin || reducedMotion then SpeedMin as real
    else if parsed >= SpeedMax then SpeedMax as real * Throttle
    else parsed as real * Throttle
  }

  /** Turning the dial up never slows the shimmer down. */
  lemma EffectiveSpeedMonotone(a: real, b: real, reducedMotion: bool)
    requires a <= b
    ensures GetEffectiveSpeed(a, reducedMotion) <= GetEffectiveSpeed(b, reducedMotion)
  {
    ParseIntMonotone(a, b);
  }

  // ---------------------------------------------------------------------------
  // VARIANTS and the per-instance overrides

  datatype VariantConfig = VariantConfig(activeColor: Option<string>, gap: int, speed: real, colors: string, noFocus: bool)

  const DefaultVariant: VariantConfig := VariantConfig(None, 5, 35.0, "#f8fafc,#f1f5f9,#cbd5e1", false)
  const BlueVariant: VariantConfig := VariantConfig(Some("#e0f2fe"), 10, 25.0, "#e0f2fe,#7dd3fc,#0ea5e9", false)
  const YellowVariant: VariantConfig := VariantConfig(Some("#fef08a"), 3, 20.0, "#fef08a,#fde047,#eab308", false)
  const PinkVariant: VariantConfig := VariantConfig(Some("#fecdd3"), 6, 80.0, "#fecdd3,#fda4af,#e11d48", true)

  /** `VARIANTS[variant] || VARIANTS.default`: a name outside the table falls back to the default. */
  function VariantNamed(name: string): (v: VariantConfig)
    ensures name != "blue" && name != "yellow" && name != "pink" ==> v == DefaultVariant
    ensures v.gap > 0 && 0.0 < v.speed < SpeedMax as real
    ensures v.noFocus <==> name == "pink"
  {
    if name == "blue" then BlueVariant
    else if name == "yellow" then YellowVariant
    else if name == "pink" then PinkVariant
    else DefaultVariant
  }

  /** The component's props; `None` is a prop left undefined (or null). */
  datatype Props = Props(variant: Option<string>, gap: Option<int>, speed: Option<real>,
                         colors: Option<string>, noFocus: Option<bool>)

  datatype Config = Config(gap: int, speed: real, colors: string, noFocus: bool)

  /** `finalGap`, `finalSpeed`, `finalColors`, `finalNoFocus`: each prop that
      is given wins, each one left out comes from the variant, and the variant
      itself defaults to "default". */
  function Resolve(props: Props): (c: Config)
    ensures var v := VariantNamed(props.variant.GetOr("default"));
      && (props.gap.Some? ==> c.gap == props.gap.value)
      && (props.gap.None? ==> c.gap == v.gap && c.gap > 0)
      && (props.speed.Some? ==> c.speed == props.speed.value)
      && (props.speed.None? ==> c.speed == v.speed)
      && (props.colors.Some? ==> c.colors == props.colors.value)
      && (props.colors.None? ==> c.colors == v.colors)
      && (props.noFocus.Some? ==> c.noFocus == props.noFocus.value)
      && (props.noFocus.None? ==> c.noFocus == v.noFocus)
  {
    var v := VariantNamed(props.variant.GetOr("default"));
    Config(props.gap.GetOr(v.gap), props.speed.GetOr(v.speed),
           props.colors.GetOr(v.colors), props.noFocus.GetOr(v.noFocus))
  }

  /** A quiz answer card passes only `variant`: "blue" for the right answer
      and "pink" for a wrong pick once the round is closed, "default"
      otherwise. The three resolve to different settings, so every switch
      re-runs the card's effect, and only pink switches focus off. */
  lemma AnswerCardSettings()
    ensures var plain := Resolve(Props(Some("default"), None, None, None, None));
            var right := Resolve(Props(Some("blue"), None, None, None, None));
            var wrong := Resolve(Props(Some("pink"), None, None, None, None));
            && plain != right && plain != wrong && right != wrong
            && !plain.noFocus && !right.noFocus && wrong.noFocus
            && plain.gap == 5 && right.gap == 10 && wrong.gap == 6
  {
  }

  // ---------------------------------------------------------------------------
  // The palette: `finalColors.split(",")` and the random pick from it

  /** `s.split(sep)`: the pieces between separators, empty ones included. */
  function Split(s: string, sep: char): (parts: seq<string>)
    ensures |parts| >= 1
    ensures forall i | 0 <= i < |parts| :: sep !in parts[i]
  {
    if s == [] then [[]]
    else
      var rest := Split(s[1..], sep);
      if s[0] == sep then [[]] + rest
      else [[s[0]] + rest[0]] + rest[1..]
  }

  /** `parts.join(sep)`. */
  function Join(parts: seq<string>, sep: char): string
    requires |parts| >= 1
  {
    if |parts| == 1 then parts[0] else parts[0] + [sep] + Join(parts[1..], sep)
  }

  /** Joining the pieces back gives the palette string again. */
  lemma {:induction false} JoinSplit(s: string, sep: char)
    ensures Join(Split(s, sep), sep) == s
  {
    if s != [] {
      JoinSplit(s[1..], sep);
      var rest := Split(s[1..], sep);
      if s[0] != sep {
        if |rest| > 1 {
          assert ([[s[0]] + rest[0]] + rest[1..])[1..] == rest[1..];
        }
      } else {
        assert ([[]] + rest)[1..] == rest;
      }
    }
  }

  lemma {:induction false} SplitPrefix(a: string, rest: string, sep: char)
    requires sep !in a
    ensures Split(a + rest, sep) ==
      [a + Split(rest, sep)[0]] + Split(rest, sep)[1..]
  {
    var tail := Split(rest, sep);
    if a == [] {
      assert a + rest == rest && a + tail[0] == tail[0];
      assert tail == [tail[0]] + tail[1..];
    } else {
      assert (a + rest)[0] == a[0] && (a + rest)[1..] == a[1..] + rest;
      SplitPrefix(a[1..], rest, sep);
      var inner := Split(a[1..] + rest, sep);
      assert inner[0] == a[1..] + tail[0] && inner[1..] == tail[1..];
      assert [a[0]] + (a[1..] + tail[0]) == a + tail[0];
    }
  }

  /** Splitting a join of separator-free pieces gives the pieces back. */
  lemma {:induction false} SplitJoin(parts: seq<string>, sep: char)
    requires |parts| >= 1
    requires forall i | 0 <= i < |parts| :: sep !in parts[i]
    ensures Split(Join(parts, sep), sep) == parts
  {
    if |parts| == 1 {
      SplitPrefix(parts[0], [], sep);
      assert parts[0] + [] == parts[0];
    } else {
      SplitJoin(parts[1..], sep);
      var tail := Join(parts[1..], sep);
      assert parts[0] + [sep] + tail == parts[0] + ([sep] + tail);
      SplitPrefix(parts[0], [sep] + tail, sep);
      assert ([sep] + tail)[0] == sep && ([sep] + tail)[1..] == tail;
      assert Split([sep] + tail, sep) == [[]] + parts[1..];
      assert parts[0] + [] == parts[0];
      assert parts == [parts[0]] + parts[1..];
    }
  }

  /** `Math.floor(Math.random() * colorsArray.length)`: always a valid index. */
  function ColorIndex(r: real, n: nat): (i: nat)
    requires UnitDraw(r) && n > 0
    ensures i < n
    ensures i as real <= r * n as real < i as real + 1.0
  {
    MulStrict(r, 1.0, n as real);
    (r * n as real).Floor
  }

  // ---------------------------------------------------------------------------
  // The grid of pixel origins

  /** The coordinates `for (let c = from; c < extent; c += gap)` visits. */
  function Axis(from: int, extent: int, gap: int): seq<int>
    requires gap > 0
    decreases extent - from
  {
    if from >= extent then [] else [from] + Axis(from + gap, extent, gap)
  }

  /** The column of points `(x, y)` for each `y` in `ys`, in order. */
  function Column(x: int, ys: seq<int>): seq<(int, int)> {
    if ys == [] then [] else Column(x, ys[..|ys| - 1]) + [(x, ys[|ys| - 1])]
  }

  /** The points the two nested loops visit: x-major, y inside. */
  function Points(xs: seq<int>, ys: seq<int>): seq<(int, int)> {
    if xs == [] then [] else Points(xs[..|xs| - 1], ys) + Column(xs[|xs| - 1], ys)
  }

  /** Every pixel origin of a `width` by `height` canvas at stride `gap`. */
  function Grid(width: int, height: int, gap: int): seq<(int, int)>
    requires gap > 0
  {
    Points(Axis(0, width, gap), Axis(0, height, gap))
  }

  predicate OnGrid(x: int, y: int, width: int, height: int, gap: int)
    requires gap > 0
  {
    0 <= x < width && 0 <= y < height && x % gap == 0 && y % gap == 0
  }

  /** Lexicographic order on points: by `x`, then by `y`. */
  predicate Before(a: (int, int), b: (int, int)) {
    a.0 < b.0 || (a.0 == b.0 && a.1 < b.1)
  }

  predicate Increasing(s: seq<int>) {
    forall i, j | 0 <= i < j < |s| :: s[i] < s[j]
  }

  predicate Ordered(s: seq<(int, int)>) {
    forall i, j | 0 <= i < j < |s| :: Before(s[i], s[j])
  }

  lemma MultipleOf(k: int, gap: int)
    requires gap > 0
    ensures (k * gap) % gap == 0
  {
    var q, r := (k * gap) / gap, (k * gap) % gap;
    assert k * gap == q * gap + r && 0 <= r < gap;
    if q < k {
      MulLe(q + 1, k, gap);
    } else if k < q {
      MulLe(k + 1, q, gap);
    }
  }

  /** A multiple of `gap` above another is at least one `gap` above it. */
  lemma NextMultiple(a: int, c: int, gap: int)
    requires gap > 0 && a % gap == 0 && c % gap == 0 && a < c
    ensures a + gap <= c
  {
    var qa, qc := a / gap, c / gap;
    assert a == qa * gap && c == qc * gap;
    if qc <= qa {
      MulLe(qc, qa, gap);
    } else {
      MulLe(qa + 1, qc, gap);
      assert (qa + 1) * gap == qa * gap + gap;
    }
  }

  lemma {:induction false} AxisExact(from: int, extent: int, gap: int)
    requires gap > 0 && from % gap == 0
    ensures forall c :: c in Axis(from, extent, gap) <==> from <= c < extent && c % gap == 0
    ensures Increasing(Axis(from, extent, gap))
    ensures forall i | 0 <= i < |Axis(from, extent, gap)| :: from <= Axis(from, extent, gap)[i]
    decreases extent - from
  {
    if from < extent {
      assert (from + gap) % gap == 0 by {
        MultipleOf(from / gap + 1, gap);
        assert from + gap == (from / gap + 1) * gap;
      }
      AxisExact(from + gap, extent, gap);
      forall c | from <= c < extent && c % gap == 0
        ensures c in Axis(from, extent, gap)
      {
        if c != from {
          NextMultiple(from, c, gap);
        }
      }
    }
  }

  lemma {:induction false} ColumnFacts(x: int, ys: seq<int>)
    ensures |Column(x, ys)| == |ys|
    ensures forall k | 0 <= k < |ys| :: Column(x, ys)[k] == (x, ys[k])
  {
    if ys != [] {
      ColumnFacts(x, ys[..|ys| - 1]);
    }
  }

  lemma {:induction false} PointsLength(xs: seq<int>, ys: seq<int>)
    ensures |Points(xs, ys)| == |xs| * |ys|
  {
    if xs != [] {
      PointsLength(xs[..|xs| - 1], ys);
      ColumnFacts(xs[|xs| - 1], ys);
      assert (|xs| - 1) * |ys| + |ys| == |xs| * |ys|;
    }
  }

  lemma {:induction false} PointsMembers(xs: seq<int>, ys: seq<int>)
    ensures forall p :: p in Points(xs, ys) <==> p.0 in xs && p.1 in ys
  {
    if xs != [] {
      var init, last := xs[..|xs| - 1], xs[|xs| - 1];
      PointsMembers(init, ys);
      ColumnFacts(last, ys);
      assert xs == init + [last];
      forall p
        ensures p in Points(xs, ys) <==> p.0 in xs && p.1 in ys
      {
        if p.1 in ys {
          var k :| 0 <= k < |ys| && ys[k] == p.1;
          assert Column(last, ys)[k] == (last, p.1);
        }
      }
    }
  }

  lemma {:induction false} PointsOrdered(xs: seq<int>, ys: seq<int>)
    requires Increasing(xs) && Increasing(ys)
    ensures Ordered(Points(xs, ys))
  {
    if xs != [] {
      var init, last := xs[..|xs| - 1], xs[|xs| - 1];
      PointsOrdered(init, ys);
      PointsMembers(init, ys);
      ColumnFacts(last, ys);
      var front, col := Points(init, ys), Column(last, ys);
      forall i, j | 0 <= i < j < |front + col|
        ensures Before((front + col)[i], (front + col)[j])
      {
        if i < |front| && j >= |front| {
          var a := front[i];
          assert a in Points(init, ys);
          var idx :| 0 <= idx < |init| && init[idx] == a.0;
          assert xs[idx] == a.0 && idx < |xs| - 1;
        }
      }
    }
  }

  /** The grid holds exactly the points on a `gap` lattice inside the canvas,
      each once, x-major, and there are cols x rows of them. */
  lemma GridExact(width: int, height: int, gap: int)
    requires gap > 0
    ensures forall x, y :: (x, y) in Grid(width, height, gap) <==> OnGrid(x, y, width, height, gap)
    ensures Ordered(Grid(width, height, gap))
    ensures |Grid(width, height, gap)| == |Axis(0, width, gap)| * |Axis(0, height, gap)|
  {
    AxisExact(0, width, gap);
    AxisExact(0, height, gap);
    PointsMembers(Axis(0, width, gap), Axis(0, height, gap));
    PointsOrdered(Axis(0, width, gap), Axis(0, height, gap));
    PointsLength(Axis(0, width, gap), Axis(0, height, gap));
  }

  /** The square of a point's distance from the canvas centre. */
  function SquaredCentreDistance(pt: (int, int), width: int, height: int): real {
    var dx := pt.0 as real - width as real / 2.0;
    var dy := pt.1 as real - height as real / 2.0;
    dx * dx + dy * dy
  }

  /** What one cell of `initPixels` draws from the environment: the colour
      draw, `Math.sqrt(dx * dx + dy * dy)`, and the constructor's four draws. */
  datatype CellInput = CellInput(colorDraw: real, distance: real, draws: PixelDraws)

  /** A cell whose draws are genuine `Math.random()` results and whose distance is a square root. */
  predicate CellOk(cell: CellInput) {
    UnitDraw(cell.colorDraw) && ValidDraws(cell.draws) && 0.0 <= cell.distance
  }

  /** One input per grid point, in grid order, with genuine draws and square roots. */
  predicate CellsFit(width: int, height: int, gap: int, cells: seq<CellInput>)
    requires gap > 0
  {
    var grid := Grid(width, height, gap);
    && |cells| == |grid|
    && forall k | 0 <= k < |cells| ::
         && CellOk(cells[k])
         && cells[k].distance * cells[k].distance == SquaredCentreDistance(grid[k], width, height)
  }

  // ---------------------------------------------------------------------------
  // The frame-rate cap

  /** `1000 / 60` milliseconds: about 60 ticks a second. */
  const FrameInterval: real := 1000.0 / 60.0

  /** JavaScript's `%` on a non-negative dividend. */
  function Remainder(a: real, b: real): (r: real)
    requires 0.0 <= a && 0.0 < b
    ensures 0.0 <= r < b
    ensures var k := (a / b).Floor; k >= 0 && a == k as real * b + r
  {
    FloorBracket(0.0, b, a);
    a - ((a / b).Floor as real) * b
  }

  /** `timeNow - (timePassed % timeInterval)`. */
  function NextTimePrevious(previous: real, now: real): (r: real)
    requires now - previous >= FrameInterval
    ensures now - FrameInterval < r <= now
    ensures previous + FrameInterval <= r
  {
    var rem := Remainder(now - previous, FrameInterval);
    FloorBracket(0.0, FrameInterval, now - previous);
    now - rem
  }

  /** The cap carries the remainder over: the reference time moves forward by
      a whole number (at least one) of frame intervals and ends less than one
      interval behind `now`, so no drift accumulates. */
  lemma CarryOver(previous: real, now: real)
    requires now - previous >= FrameInterval
    ensures var k := ((now - previous) / FrameInterval).Floor;
            && k >= 1
            && NextTimePrevious(previous, now) == previous + k as real * FrameInterval
            && now - FrameInterval < NextTimePrevious(previous, now) <= now
  {
    FloorBracket(0.0, FrameInterval, now - previous);
  }

  // ---------------------------------------------------------------------------
  // The component

  class PixelCard {
    /** `finalGap`, `finalSpeed`, `finalColors` and `finalNoFocus` of the latest render. */
    var gap: int
    var speed: real
    var colors: string
    var noFocus: bool
    /** The `prefers-reduced-motion` query, read once when the component is created. */
    const reducedMotion: bool

    /** `pixelsRef.current`. */
    var pixels: seq<Pixel>
    /** The pending `requestAnimationFrame` callback, with the method it will
        run on every pixel; `None` when no frame is scheduled. */
    var frame: Option<Direction>
    /** `timePreviousRef.current`. */
    var timePrevious: real

    /** The pixels are distinct objects, each built by the constructor from
        an effective speed and a distance, and each inside the tick invariant. */
    ghost predicate Valid()
      reads this, pixels
    {
      && (forall i, j | 0 <= i < j < |pixels| :: pixels[i] != pixels[j])
      && (forall i | 0 <= i < |pixels| :: WellFormed(pixels[i].Params()) && Inv(pixels[i].Params(), pixels[i].State()))
    }

    /** The configuration the effect depends on. */
    function Settings(): Config
      reads this
    {
      Config(gap, speed, colors, noFocus)
    }

    /** The pixel `initPixels` builds at `pt` from `cell`. */
    function PixelAt(width: nat, height: nat, pt: (int, int), cell: CellInput): (p: PixelParams)
      requires CellOk(cell)
      reads this
      ensures WellFormed(p)
      ensures p.x == pt.0 && p.y == pt.1 && p.width == width && p.height == height
      ensures p.color in Split(colors, ',')
      ensures p.delay == if reducedMotion then 0.0 else cell.distance
      ensures reducedMotion ==> p.speed == 0.0
    {
      var palette := Split(colors, ',');
      NewParams(width, height, pt.0, pt.1,
                palette[ColorIndex(cell.colorDraw, |palette|)],
                GetEffectiveSpeed(speed, reducedMotion),
                if reducedMotion then 0.0 else cell.distance,
                cell.draws)
    }

    /** The first render: resolve the props, start with no pixels and no frame. */
    constructor (props: Props, reducedMotion: bool, now: real)
      ensures Settings() == Resolve(props)
      ensures this.reducedMotion == reducedMotion
      ensures pixels == [] && frame == None && timePrevious == now
      ensures Valid()
    {
      var c := Resolve(props);
      gap, speed, colors, noFocus := c.gap, c.speed, c.colors, c.noFocus;
      this.reducedMotion := reducedMotion;
      pixels, frame, timePrevious := [], None, now;
    }

    /** `initPixels`: with the container, canvas and 2D context all present,
        size the canvas to the floored bounding box and replace the pixel array
        wholesale by one fresh pixel per grid point, in grid order; otherwise
        change nothing. */
    method InitPixels(attached: bool, hasContext: bool, rectWidth: real, rectHeight: real,
                      cells: seq<CellInput>)
      requires Valid()
      requires gap > 0
      requires 0.0 <= rectWidth && 0.0 <= rectHeight
      requires CellsFit(rectWidth.Floor, rectHeight.Floor, gap, cells)
      modifies this
      ensures Valid()
      ensures Settings() == old(Settings()) && frame == old(frame) && timePrevious == old(timePrevious)
      ensures !(attached && hasContext) ==> pixels == old(pixels)
      ensures attached && hasContext ==>
        var grid := Grid(rectWidth.Floor, rectHeight.Floor, gap);
        && |pixels| == |grid|
        && (forall k | 0 <= k < |pixels| :: fresh(pixels[k]))
        && Built(pixels, rectWidth.Floor, rectHeight.Floor, grid, cells)
    {
      if !attached {
        return;
      }
      var width: nat, height: nat := rectWidth.Floor, rectHeight.Floor;
      if !hasContext {
        return;
      }
      var palette := Split(colors, ',');
      var effective := GetEffectiveSpeed(speed, reducedMotion);
      ghost var xs, ys := Axis(0, width, gap), Axis(0, height, gap);
      ghost var grid := Points(xs, ys);
      PointsLength(xs, ys);
      var pxs: seq<Pixel> := [];
      var x := 0;
      ghost var i := 0;
      while x < width
        invariant unchanged(this)
        invariant 0 <= i <= |xs| && xs[i..] == Axis(x, width, gap)
        invariant |pxs| == i * |ys|
        invariant forall k | 0 <= k < |pxs| :: fresh(pxs[k])
        invariant Built(pxs, width, height, grid, cells)
        decreases width - x
      {
        AxisStep(xs, i, x, width, gap);
        pxs := AddColumn(pxs, x, i, width, height, palette, effective, xs, ys, cells);
        assert (i + 1) * |ys| == i * |ys| + |ys|;
        x, i := x + gap, i + 1;
      }
      AxisDone(xs, i, x, width, gap);
      BuiltValid(pxs, width, height, grid, cells);
      pixels := pxs;
    }

    /** The inner loop of `initPixels`: one pixel for each `y` of column `x`, appended in order. */
    method AddColumn(pxs: seq<Pixel>, x: int, ghost i: nat, width: nat, height: nat,
                     palette: seq<string>, effective: real,
                     ghost xs: seq<int>, ghost ys: seq<int>, cells: seq<CellInput>)
      returns (column: seq<Pixel>)
      requires gap > 0 && palette == Split(colors, ',') && effective == GetEffectiveSpeed(speed, reducedMotion)
      requires ys == Axis(0, height, gap) && i < |xs| && xs[i] == x
      requires |pxs| == i * |ys| && Built(pxs, width, height, Points(xs, ys), cells)
      ensures |column| == |pxs| + |ys|
      ensures forall k | 0 <= k < |column| :: k < |pxs| ==> column[k] == pxs[k]
      ensures forall k | |pxs| <= k < |column| :: fresh(column[k])
      ensures Built(column, width, height, Points(xs, ys), cells)
    {
      ghost var grid := Points(xs, ys);
      column := pxs;
      var y := 0;
      ghost var j := 0;
      while y < height
        invariant 0 <= j <= |ys| && ys[j..] == Axis(y, height, gap)
        invariant |column| == |pxs| + j
        invariant forall k | 0 <= k < |column| :: k < |pxs| ==> column[k] == pxs[k]
        invariant forall k | |pxs| <= k < |column| :: fresh(column[k])
        invariant Built(column, width, height, grid, cells)
        decreases height - y
      {
        AxisStep(ys, j, y, height, gap);
        PointAt(xs, ys, i, j);
        GridIndexBound(i, j, |xs|, |ys|);
        var cell := cells[|column|];
        var px := new Pixel(width, height, x, y, palette[ColorIndex(cell.colorDraw, |palette|)],
                            effective, if reducedMotion then 0.0 else cell.distance, cell.draws);
        BuiltAppend(column, px, width, height, grid, cells);
        column := column + [px];
        y, j := y + gap, j + 1;
      }
      AxisDone(ys, j, y, height, gap);
    }

    /** The first `|pxs|` grid points have their pixels, distinct and as the constructor made them. */
    ghost predicate Built(pxs: seq<Pixel>, width: nat, height: nat, grid: seq<(int, int)>, cells: seq<CellInput>)
      reads this, pxs
    {
      && |pxs| <= |grid| == |cells|
      && (forall k | 0 <= k < |cells| :: CellOk(cells[k]))
      && (forall a, b | 0 <= a < b < |pxs| :: pxs[a] != pxs[b])
      && forall k | 0 <= k < |pxs| ::
           pxs[k].State() == Initial && pxs[k].Params() == PixelAt(width, height, grid[k], cells[k])
    }

    lemma BuiltAppend(pxs: seq<Pixel>, px: Pixel, width: nat, height: nat, grid: seq<(int, int)>, cells: seq<CellInput>)
      requires Built(pxs, width, height, grid, cells) && |pxs| < |grid|
      requires px !in pxs && px.State() == Initial
      requires px.Params() == PixelAt(width, height, grid[|pxs|], cells[|pxs|])
      ensures Built(pxs + [px], width, height, grid, cells)
    {
    }

    lemma BuiltValid(pxs: seq<Pixel>, width: nat, height: nat, grid: seq<(int, int)>, cells: seq<CellInput>)
      requires Built(pxs, width, height, grid, cells)
      ensures forall a, b | 0 <= a < b < |pxs| :: pxs[a] != pxs[b]
      ensures forall k | 0 <= k < |pxs| :: WellFormed(pxs[k].Params()) && Inv(pxs[k].Params(), pxs[k].State())
    {
      forall k | 0 <= k < |pxs|
        ensures WellFormed(pxs[k].Params()) && Inv(pxs[k].Params(), pxs[k].State())
      {
        InitialInv(pxs[k].Params());
      }
    }

    /** `handleAnimation`: cancel any pending frame and schedule one for `d`,
        so at most one loop is ever pending. */
    method HandleAnimation(d: Direction)
      modifies this
      ensures frame == Some(d)
      ensures Settings() == old(Settings()) && pixels == old(pixels) && timePrevious == old(timePrevious)
    {
      frame := Some(d);
    }

    /** `onFocus` / `onBlur`, attached only when focus is not switched off:
        a focus move whose other end is inside the card is ignored. */
    method FocusChange(d: Direction, relatedInside: bool)
      modifies this
      ensures frame == if noFocus || relatedInside then old(frame) else Some(d)
      ensures Settings() == old(Settings()) && pixels == old(pixels) && timePrevious == old(timePrevious)
    {
      if noFocus || relatedInside {
        return;
      }
      HandleAnimation(d);
    }

    /** The effect's cleanup on unmount or on a change of gap, speed, colours
        or focus setting: cancel the pending frame. */
    method Teardown()
      modifies this
      ensures frame == None
      ensures Settings() == old(Settings()) && pixels == old(pixels) && timePrevious == old(timePrevious)
    {
      frame := None;
    }

    /** A render with new props. The effect depends on the resolved gap,
        speed, colours and focus setting only: when none of them changed
        nothing happens; otherwise the old effect's cleanup cancels the
        pending frame and the new one rebuilds the grid with the new
        configuration. This is how a quiz answer card turns blue or pink. */
    method Rerender(props: Props, attached: bool, hasContext: bool, rectWidth: real, rectHeight: real,
                    cells: seq<CellInput>)
      requires Valid()
      requires Resolve(props) != Settings() ==>
        && Resolve(props).gap > 0
        && 0.0 <= rectWidth && 0.0 <= rectHeight
        && CellsFit(rectWidth.Floor, rectHeight.Floor, Resolve(props).gap, cells)
      modifies this
      ensures Valid() && Settings() == Resolve(props) && timePrevious == old(timePrevious)
      ensures Resolve(props) == old(Settings()) ==> pixels == old(pixels) && frame == old(frame)
      ensures Resolve(props) != old(Settings()) ==>
        && frame == None
        && (!(attached && hasContext) ==> pixels == old(pixels))
        && (attached && hasContext ==>
              var grid := Grid(rectWidth.Floor, rectHeight.Floor, gap);
              && |pixels| == |grid|
              && (forall k | 0 <= k < |pixels| :: fresh(pixels[k]))
              && Built(pixels, rectWidth.Floor, rectHeight.Floor, grid, cells))
    {
      var c := Resolve(props);
      if c == Settings() {
        return;
      }
      Teardown();
      gap, speed, colors, noFocus := c.gap, c.speed, c.colors, c.noFocus;
      InitPixels(attached, hasContext, rectWidth, rectHeight, cells);
    }

    /** `doAnimate`, run when the pending frame fires at time `now`: schedule
        the next frame first; below the frame interval do nothing more;
        otherwise carry the remainder into `timePrevious` and, when the canvas
        has a context, invoke the direction's method on every pixel once, in
        array order, cancelling the loop when all pixels are then idle. */
    method RunFrame(now: real, hasContext: bool)
      requires Valid() && frame.Some?
      modifies this, pixels
      ensures Valid() && Settings() == old(Settings()) && pixels == old(pixels)
      ensures var passed := now - old(timePrevious);
        && (passed < FrameInterval ==> timePrevious == old(timePrevious))
        && (passed >= FrameInterval ==> timePrevious == NextTimePrevious(old(timePrevious), now))
      ensures var stepped := now - old(timePrevious) >= FrameInterval && hasContext;
        && (forall i | 0 <= i < |pixels| ::
              pixels[i].State() ==
                if stepped then Step(old(frame).value, pixels[i].Params(), old(pixels[i].State()))
                else old(pixels[i].State()))
        && frame == if stepped && (forall i | 0 <= i < |pixels| :: pixels[i].isIdle) then None else old(frame)
    {
      var d := frame.value;
      frame := Some(d);
      var passed := now - timePrevious;
      if passed < FrameInterval {
        return;
      }
      timePrevious := now - Remainder(passed, FrameInterval);
      if !hasContext {
        return;
      }
      var ps := pixels;
      var allIdle := StepAll(ps, d);
      if allIdle {
        frame := None;
      }
    }
  }

  /** The loop of `doAnimate`: invoke the direction's method on every pixel
      once, in order, and report whether all of them are idle afterwards. */
  method StepAll(ps: seq<Pixel>, d: Direction) returns (allIdle: bool)
    requires forall a, b | 0 <= a < b < |ps| :: ps[a] != ps[b]
    requires forall i | 0 <= i < |ps| :: WellFormed(ps[i].Params()) && Inv(ps[i].Params(), ps[i].State())
    modifies ps
    ensures forall i | 0 <= i < |ps| :: ps[i].State() == Step(d, ps[i].Params(), old(ps[i].State()))
    ensures forall i | 0 <= i < |ps| :: Inv(ps[i].Params(), ps[i].State())
    ensures allIdle <==> forall i | 0 <= i < |ps| :: ps[i].isIdle
  {
    allIdle := true;
    var i := 0;
    while i < |ps|
      invariant 0 <= i <= |ps|
      invariant forall j | 0 <= j < i :: ps[j].State() == Step(d, ps[j].Params(), old(ps[j].State()))
      invariant forall j | i <= j < |ps| :: ps[j].State() == old(ps[j].State())
      invariant forall j | 0 <= j < |ps| :: Inv(ps[j].Params(), ps[j].State())
      invariant allIdle <==> forall j | 0 <= j < i :: ps[j].isIdle
    {
      var pixel := ps[i];
      StepPreservesInv(d, pixel.Params(), pixel.State());
      if d == Appearing {
        pixel.Appear();
      } else {
        pixel.Disappear();
      }
      if !pixel.isIdle {
        allIdle := false;
      }
      i := i + 1;
    }
  }

  /** One more turn of a `c += gap` loop walks one more coordinate of its axis. */
  lemma AxisStep(cs: seq<int>, i: nat, c: int, extent: int, gap: int)
    requires gap > 0 && i <= |cs| && cs[i..] == Axis(c, extent, gap) && c < extent
    ensures i < |cs| && cs[i] == c && cs[i + 1..] == Axis(c + gap, extent, gap)
  {
    assert cs[i..][0] == c && cs[i + 1..] == cs[i..][1..];
  }

  lemma AxisDone(cs: seq<int>, i: nat, c: int, extent: int, gap: int)
    requires gap > 0 && i <= |cs| && cs[i..] == Axis(c, extent, gap) && c >= extent
    ensures i == |cs|
  {
  }

  lemma GridIndexBound(i: nat, j: nat, n: nat, m: nat)
    requires i < n && j < m
    ensures i * m + j < n * m
  {
    MulLe(i + 1, n, m);
    assert (i + 1) * m == i * m + m;
  }

  /** The point the inner loop visits at (i, j) is grid point number i * |ys| + j. */
  lemma {:induction false} PointAt(xs: seq<int>, ys: seq<int>, i: nat, j: nat)
    requires i < |xs| && j < |ys|
    ensures |Points(xs, ys)| == |xs| * |ys|
    ensures Points(xs, ys)[i * |ys| + j] == (xs[i], ys[j])
  {
    PointsLength(xs, ys);
    var init := xs[..|xs| - 1];
    PointsLength(init, ys);
    ColumnFacts(xs[|xs| - 1], ys);
    if i < |xs| - 1 {
      GridIndexBound(i, j, |init|, |ys|);
      PointAt(init, ys, i, j);
    } else {
      assert i * |ys| == |init| * |ys|;
    }
  }

  /** The number of `disappear` frames after which every one of the cells is idle. */
  function FramesToIdle(ss: seq<PixelState>): (n: nat)
    requires forall i | 0 <= i < |ss| :: -ShrinkStep < ss[i].size
    ensures forall i | 0 <= i < |ss| :: Decrements(ss[i].size) + 1 <= n
    ensures ss != [] ==> exists i | 0 <= i < |ss| :: n == Decrements(ss[i].size) + 1
  {
    if ss == [] then 0
    else
      var rest := FramesToIdle(ss[1..]);
      var first := Decrements(ss[0].size) + 1;
      assert forall i | 1 <= i < |ss| :: ss[i] == ss[1..][i - 1];
      if first <= rest then rest else first
  }

  /** A hover-out always ends: after `FramesToIdle` stepped frames every pixel
      is idle, so that frame cancels the loop. */
  lemma DisappearEndsLoop(ss: seq<PixelState>)
    requires forall i | 0 <= i < |ss| :: -ShrinkStep < ss[i].size
    ensures forall i | 0 <= i < |ss| :: DisappearN(ss[i], FramesToIdle(ss)).isIdle
  {
    var n := FramesToIdle(ss);
    forall i | 0 <= i < |ss|
      ensures DisappearN(ss[i], n).isIdle
    {
      DisappearStaysIdle(ss[i], n);
    }
  }

  /** Under `appear` a frame never ends the loop while there is a pixel at all:
      every stepped pixel has just been made non-idle. */
  lemma AppearKeepsLoopRunning(ps: seq<PixelParams>, ss: seq<PixelState>)
    requires |ps| == |ss| && |ss| > 0
    ensures !(forall i | 0 <= i < |ss| :: Step(Appearing, ps[i], ss[i]).isIdle)
  {
    assert !Step(Appearing, ps[0], ss[0]).isIdle;
  }
}
