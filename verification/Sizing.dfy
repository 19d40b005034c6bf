/** gateway/src/domain/sizing.ts: the frame a job is rendered at. Reals are exact; `root` stands for
    Math.sqrt(budget / (w * h)), described by Area(w, h, root) == budget. */
module Sizing {
  import opened Types

  datatype Resolution = P480 | P720

  function Budget(r: Resolution): nat {
    match r case P480 => 480 * 832 case P720 => 720 * 1280
  }

  function MaxSide(r: Resolution): nat {
    match r case P480 => 832 case P720 => 1280
  }

  datatype Size = Size(width: nat, height: nat)

  /** Math.round: halves go up. */
  function Round(x: real): int { (x + 0.5).Floor }

  function Align16(x: real): (a: int)
    ensures a % 16 == 0 && a >= 16
  {
    var down := Round(x) / 16 * 16;
    if down > 16 then down else 16
  }

  function Area(w: real, h: real, root: real): real {
    root * root * w * h
  }

  predicate ScaleFor(w: real, h: real, r: Resolution, root: real) {
    root > 0.0 && Area(w, h, root) == Budget(r) as real
  }

  function Longer(a: real, b: real): real { if a > b then a else b }

  /** The scale after the pull-back to the longest side the model can render. */
  function Scale(w: real, h: real, r: Resolution, root: real): real
    requires w > 0.0 && h > 0.0 && root > 0.0
  {
    var longest := Longer(w, h) * root;
    if longest > MaxSide(r) as real
    then (assert longest > 0.0; root * (MaxSide(r) as real / longest))
    else root
  }

  /** The sides before alignment. */
  function Wide(w: real, h: real, r: Resolution, root: real): real
    requires w > 0.0 && h > 0.0 && root > 0.0
  {
    w * Scale(w, h, r, root)
  }

  function High(w: real, h: real, r: Resolution, root: real): real
    requires w > 0.0 && h > 0.0 && root > 0.0
  {
    h * Scale(w, h, r, root)
  }

  /** `None` is the thrown error. */
  function FitSize(w: real, h: real, r: Resolution, root: real): Option<Size>
    requires w > 0.0 && h > 0.0 ==> ScaleFor(w, h, r, root)
  {
    if !(w > 0.0) || !(h > 0.0) then None
    else Some(Size(Align16(Wide(w, h, r, root)), Align16(High(w, h, r, root))))
  }

  // ------------------------------------------------------------ the bound

  /** Rounding to the nearest whole pixel and down to a macroblock gains at most half a pixel. */
  lemma {:induction false} AlignGains(x: real)
    requires x > 0.0
    ensures Align16(x) == 16 || Align16(x) as real <= x + 0.5
  {
    var q := Round(x) / 16 * 16;
    assert q <= Round(x);
    assert Round(x) as real <= x + 0.5;
  }

  lemma {:induction false} AlignFits(x: real, n: int)
    requires n % 16 == 0 && n >= 16 && x <= n as real
    ensures Align16(x) <= n
  {
    assert Round(x) <= n;
  }

  lemma {:induction false} AlignReaches(x: real, n: int)
    requires n % 16 == 0 && n as real <= x
    ensures n <= Align16(x)
  {
    assert n <= Round(x);
  }

  lemma {:induction false} AlignLoses(x: real)
    ensures Align16(x) as real >= x - 15.5
  {
    assert Round(x) as real > x - 0.5;
  }

  /** What the scale does to the two sides. */
  ghost predicate Fitting(w: real, h: real, r: Resolution, root: real, s: real) {
    && s > 0.0 && 0.0 < w * s <= MaxSide(r) as real && 0.0 < h * s <= MaxSide(r) as real
    && (w * s) * (h * s) <= Budget(r) as real
    && (s == root ==> (w * s) * (h * s) == Budget(r) as real)
    && (s != root ==> Longer(w * s, h * s) == MaxSide(r) as real)
  }

  lemma {:induction false} GrowStrict(a: real, x: real, y: real)
    requires a > 0.0 && x < y
    ensures a * x < a * y
  {
  }

  lemma {:induction false} LongestIsPositive(w: real, h: real, root: real)
    requires w > 0.0 && h > 0.0 && root > 0.0
    ensures Longer(w, h) * root > 0.0
  {
    GrowStrict(root, 0.0, Longer(w, h));
  }

  lemma {:induction false} Grow(a: real, x: real, y: real)
    requires a >= 0.0 && x <= y
    ensures a * x <= a * y
  {
  }

  lemma {:induction false} Ordered(w: real, h: real, s: real)
    requires w > 0.0 && h > 0.0 && s > 0.0
    ensures w * s > 0.0 && h * s > 0.0
    ensures Longer(w, h) * s == Longer(w * s, h * s)
  {
    GrowStrict(w, 0.0, s);
    GrowStrict(h, 0.0, s);
    if w > h { GrowStrict(s, h, w); } else { Grow(s, w, h); }
  }

  lemma {:induction false} AsIs(w: real, h: real, r: Resolution, root: real)
    requires w > 0.0 && h > 0.0 && root > 0.0 && (w * root) * (h * root) == Budget(r) as real
    requires Longer(w, h) * root <= MaxSide(r) as real
    ensures Fitting(w, h, r, root, Scale(w, h, r, root))
  {
    hide MaxSide, Budget;
    Ordered(w, h, root);
  }

  lemma {:induction false} ScaleIs(w: real, h: real, r: Resolution, root: real)
    requires w > 0.0 && h > 0.0 && root > 0.0 && Longer(w, h) * root > MaxSide(r) as real
    ensures Longer(w, h) * root > 0.0
    ensures Scale(w, h, r, root) == root * (MaxSide(r) as real / (Longer(w, h) * root))
  {
    LongestIsPositive(w, h, root);
  }

  lemma {:induction false} LongerOf(x: real, y: real)
    ensures x <= Longer(x, y) && y <= Longer(x, y) && (Longer(x, y) == x || Longer(x, y) == y)
  {
  }

  lemma {:induction false} PulledFits(w: real, h: real, r: Resolution, root: real, s: real)
    requires s > 0.0 && s != root && w * s > 0.0 && h * s > 0.0
    requires (w * s) * (h * s) <= Budget(r) as real && Longer(w * s, h * s) == MaxSide(r) as real
    ensures Fitting(w, h, r, root, s)
  {
    hide Budget, MaxSide, Longer;
    LongerOf(w * s, h * s);
  }

  lemma {:induction false} Assoc(a: real, b: real, k: real)
    ensures a * (b * k) == (a * b) * k
  {
  }

  lemma {:induction false} PullBack(root: real, longest: real, limit: real)
    requires root > 0.0 && longest > limit > 0.0
    ensures 0.0 < limit / longest < 1.0 && longest * (limit / longest) == limit
    ensures 0.0 < root * (limit / longest) < root
  {
    var k := limit / longest;
    assert longest * k == limit;
    if k >= 1.0 { Grow(longest, 1.0, k); }
    if k <= 0.0 { Grow(longest, k, 0.0); }
    assert 0.0 < k < 1.0;
    assert root * k < root * 1.0 by { GrowStrict(root, k, 1.0); }
    assert root * 0.0 < root * k by { GrowStrict(root, 0.0, k); }
  }

  lemma {:induction false} Shrinks(w: real, h: real, root: real, s: real)
    requires w > 0.0 && h > 0.0 && 0.0 < s < root
    ensures (w * s) * (h * s) <= (w * root) * (h * root)
  {
    Grow(w, s, root);
    Grow(h, s, root);
    GrowStrict(w, 0.0, s);
    GrowStrict(h, 0.0, s);
    Grow(h * s, w * s, w * root);
    Grow(w * root, h * s, h * root);
  }

  lemma {:induction false} PulledBack(w: real, h: real, r: Resolution, root: real)
    requires w > 0.0 && h > 0.0 && root > 0.0 && (w * root) * (h * root) == Budget(r) as real
    requires Longer(w, h) * root > MaxSide(r) as real
    ensures Fitting(w, h, r, root, Scale(w, h, r, root))
  {
    hide Budget, Longer, Scale, Fitting;
    ScaleIs(w, h, r, root);
    var limit, longest, s := MaxSide(r) as real, Longer(w, h) * root, Scale(w, h, r, root);
    PullBack(root, longest, limit);
    Assoc(Longer(w, h), root, limit / longest);
    Shrinks(w, h, root, s);
    Ordered(w, h, s);
    PulledFits(w, h, r, root, s);
  }

  lemma {:induction false} Product(w: real, h: real, root: real)
    ensures (w * root) * (h * root) == Area(w, h, root)
  {
  }

  /** The scaled sides keep within the budget and the limit, and the scale is as large as they allow. */
  lemma {:induction false} ScaledSides(w: real, h: real, r: Resolution, root: real)
    requires w > 0.0 && h > 0.0 && ScaleFor(w, h, r, root)
    ensures Fitting(w, h, r, root, Scale(w, h, r, root))
  {
    hide Fitting, Scale, Longer, MaxSide, Budget, Area;
    Product(w, h, root);
    LongestIsPositive(w, h, root);
    if Longer(w, h) * root > MaxSide(r) as real { PulledBack(w, h, r, root); } else { AsIs(w, h, r, root); }
  }

  /** No pair of sides 16a x 16b within the limits lies just above the budget: the few products that
      rounding could reach have no such factors. */
  lemma {:induction false} NoSuchFactors(a: nat, b: nat)
    ensures a <= 52 && b <= 52 ==> a * b != 1561 && a * b != 1562
    ensures a <= 80 && b <= 80 ==> a * b != 3601 && a * b != 3602 && a * b != 3603
  {
  }

  /** With both sides within the limit, their sum is at most that of the budget's own frame. */
  lemma {:induction false} SumBound(x: real, y: real, limit: real, short: real)
    requires 0.0 < x <= limit && 0.0 < y <= limit && limit > 0.0 && x * y <= limit * short
    ensures x + y <= limit + short
  {
    var gap := limit - x;
    Grow(gap, 0.0, limit - y);
    assert gap * (limit - y) == limit * limit - limit * (x + y) + x * y by {
      assert gap * (limit - y) == limit * (limit - y) - x * (limit - y);
    }
    assert limit * (x + y) <= limit * (limit + short) by { assert limit * (limit + short) == limit * limit + limit * short; }
    if x + y > limit + short { GrowStrict(limit, limit + short, x + y); }
  }

  /** Two sides rounded up by at most half a pixel each overshoot by at most half their sum. */
  lemma {:induction false} Overshoot(x: real, y: real, p: real, q: real)
    requires 0.0 < x && 0.0 < y && 0.0 <= p <= x + 0.5 && 0.0 <= q <= y + 0.5
    ensures p * q <= x * y + (x + y) / 2.0 + 0.25
  {
    Grow(p, q, y + 0.5);
    Grow(y + 0.5, p, x + 0.5);
    assert (y + 0.5) * (x + 0.5) == x * y + (x + y) / 2.0 + 0.25;
  }

  function ShortSide(r: Resolution): nat {
    match r case P480 => 480 case P720 => 720
  }

  lemma {:induction false} Macroblocks(a: int, b: int)
    ensures (16 * a) * (16 * b) == 256 * (a * b)
  {
  }

  lemma {:induction false} AsReal(p: int, q: int)
    ensures p as real * q as real == (p * q) as real
  {
  }

  /** Whole macroblocks that overshoot the budget by less than half the side sum do not overshoot at all. */
  lemma {:induction false} BlocksWithinBudget(p: int, q: int, r: Resolution, area: real, sum: real)
    requires p % 16 == 0 && q % 16 == 0 && 16 <= p <= MaxSide(r) && 16 <= q <= MaxSide(r)
    requires area <= Budget(r) as real && sum <= MaxSide(r) as real + ShortSide(r) as real
    requires p as real * q as real <= area + sum / 2.0 + 0.25
    ensures p * q <= Budget(r)
  {
    var a, b := p / 16, q / 16;
    assert p == 16 * a && q == 16 * b;
    AsReal(p, q);
    Macroblocks(a, b);
    NoSuchFactors(a, b);
    assert 256 * (a * b) <= Budget(r) + (MaxSide(r) + ShortSide(r)) / 2 + 1;
  }

  lemma {:induction false} ThinFrame(q: int, r: Resolution)
    requires 16 <= q <= MaxSide(r)
    ensures 16 * q <= Budget(r) && q * 16 <= Budget(r)
  {
  }

  lemma {:induction false} SidesAligned(r: Resolution)
    ensures MaxSide(r) % 16 == 0 && MaxSide(r) >= 16
    ensures Budget(r) as real == MaxSide(r) as real * ShortSide(r) as real
  {
  }

  /** Aligned sides of an acceptable scaled frame are within the pixel budget, although alignment may
      round up. */
  lemma {:induction false} AlignedWithinBudget(x: real, y: real, r: Resolution)
    requires 0.0 < x <= MaxSide(r) as real && 0.0 < y <= MaxSide(r) as real && x * y <= Budget(r) as real
    ensures Align16(x) <= MaxSide(r) && Align16(y) <= MaxSide(r)
    ensures Align16(x) * Align16(y) <= Budget(r)
  {
    hide Align16, Round;
    AlignGains(x);
    AlignGains(y);
    SidesAligned(r);
    AlignFits(x, MaxSide(r));
    AlignFits(y, MaxSide(r));
    var p, q := Align16(x), Align16(y);
    if p == 16 {
      ThinFrame(q, r);
    } else if q == 16 {
      ThinFrame(p, r);
    } else {
      SumBound(x, y, MaxSide(r) as real, ShortSide(r) as real);
      Overshoot(x, y, p as real, q as real);
      BlocksWithinBudget(p, q, r, x * y, x + y);
    }
  }

  lemma {:induction false} Means(w: real, h: real, r: Resolution, root: real, s: real, x: real, y: real)
    requires Fitting(w, h, r, root, s) && x == w * s && y == h * s
    ensures x * y <= Budget(r) as real && (x * y == Budget(r) as real || Longer(x, y) == MaxSide(r) as real)
  {
    hide Budget, MaxSide, Longer;
    assert x * y == (w * s) * (h * s);
  }

  lemma {:induction false} Ratio(w: real, h: real, s: real)
    ensures (w * s) * h == (h * s) * w
  {
  }

  /** The sides before alignment keep the image's proportions, fill the budget or the limit, and exceed
      neither. */
  lemma {:induction false} SidesFit(w: real, h: real, r: Resolution, root: real)
    requires w > 0.0 && h > 0.0 && ScaleFor(w, h, r, root)
    ensures var x, y := Wide(w, h, r, root), High(w, h, r, root);
      && 0.0 < x <= MaxSide(r) as real && 0.0 < y <= MaxSide(r) as real && x * y <= Budget(r) as real
      && (x * y == Budget(r) as real || Longer(x, y) == MaxSide(r) as real)
      && x * h == y * w
  {
    hide Area, Scale, Budget, MaxSide, Longer;
    Ratio(w, h, Scale(w, h, r, root));
    ScaledSides(w, h, r, root);
    Means(w, h, r, root, Scale(w, h, r, root), Wide(w, h, r, root), High(w, h, r, root));
  }

  /** For every positive image the frame is 16-aligned, at least one macroblock, within the longest side
      and the pixel budget, and no side is more than 15.5 pixels short of the scaled image. */
  lemma {:induction false} FitIsRenderable(w: real, h: real, r: Resolution, root: real)
    requires w > 0.0 && h > 0.0 && ScaleFor(w, h, r, root)
    ensures FitSize(w, h, r, root).Some?
    ensures var z := FitSize(w, h, r, root).value;
      && z.width % 16 == 0 && z.height % 16 == 0
      && 16 <= z.width <= MaxSide(r) && 16 <= z.height <= MaxSide(r)
      && z.width * z.height <= Budget(r)
      && z.width as real >= Wide(w, h, r, root) - 15.5
      && z.height as real >= High(w, h, r, root) - 15.5
  {
    hide Area, Wide, High, Align16, Round, Budget, MaxSide;
    SidesFit(w, h, r, root);
    var x, y := Wide(w, h, r, root), High(w, h, r, root);
    AlignedWithinBudget(x, y, r);
    AlignLoses(x);
    AlignLoses(y);
  }

  lemma {:induction false} LongSide(x: real, y: real)
    requires x > 0.0 && y > 0.0 && x * y >= 960.0 * 960.0
    ensures x >= 960.0 || y >= 960.0
  {
    if x < 960.0 && y < 960.0 {
      GrowStrict(x, y, 960.0);
      GrowStrict(960.0, x, 960.0);
    }
  }

  /** A 720p fit is too long for the 480p bucket. */
  lemma {:induction false} FitIsLong(w: real, h: real, root: real)
    requires w > 0.0 && h > 0.0 && ScaleFor(w, h, P720, root)
    ensures var z := FitSize(w, h, P720, root).value; z.width >= 960 || z.height >= 960
  {
    hide Area, Wide, High, Align16, Round;
    SidesFit(w, h, P720, root);
    var x, y := Wide(w, h, P720, root), High(w, h, P720, root);
    if Longer(x, y) == 1280.0 { LongerOf(x, y); } else { LongSide(x, y); }
    if x >= 960.0 { AlignReaches(x, 960); } else { AlignReaches(y, 960); }
  }
}
