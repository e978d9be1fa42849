/**
 Image token arithmetic. Patch-based models count 32-pixel patches up to 1536; an image over that cap is scaled so
 that its area matches the cap and then shrunk to whole patches along one side. The square root is an argument
 tied to its defining equation, and the arithmetic is over exact reals.
 */
module ImageTokens {
  import opened Numbers

  const PATCH_CAP := 1536
  const SCALED_AREA := 32.0 * 32.0 * 1536.0

  function CeilDiv(a: nat, b: nat): (q: nat)
    requires b > 0
    ensures LeastCover(q, a, b)
  {
    CoverByDivision(a, b);
    (a + b - 1) / b
  }

  function Min(a: real, b: real): real
  {
    if a <= b then a else b
  }

  function Max(a: real, b: real): real
  {
    if a <= b then b else a
  }

  lemma CoverByDivision(a: nat, b: nat)
    requires b > 0
    ensures LeastCover((a + b - 1) / b, a, b) && (a + b - 1) / b >= 0
  {
    var q := (a + b - 1) / b;
    assert a + b - 1 == q * b + (a + b - 1) % b;
    assert (q - 1) * b == q * b - b;
  }

  /** `root` is the factor that scales an image of this size to the capped area. */
  ghost predicate IsScale(width: nat, height: nat, root: real)
  {
    root > 0.0 && root * root * (width as real * height as real) == SCALED_AREA
  }

  /** An image so elongated that, scaled to the capped area, its short side is less than one patch. */
  predicate Sliver(width: nat, height: nat)
  {
    PATCH_CAP * width < height || PATCH_CAP * height < width
  }

  /** A side in patches after scaling by `r`. */
  function InPatches(side: nat, r: real): real
  {
    side as real * r / 32.0
  }

  /** The share of a side that is whole patches. */
  function WholeShare(w: real): real
    requires w > 0.0
  {
    w.Floor as real / w
  }

  // ---- the counts in whole numbers ----

  /** `q` parts of size `d` cover `n`, and fewer do not. */
  predicate LeastCover(q: int, n: int, d: int)
  {
    (q - 1) * d < n <= q * d
  }

  /** The whole patches along a side once the image is scaled to the area of 1536 patches. */
  predicate WholeSide(q: int, side: nat, other: nat)
  {
    q >= 0 && q * q * other <= 1536 * side < (q + 1) * (q + 1) * other
  }

  /** The patches it takes to cover that side. */
  predicate CoveredSide(q: int, side: nat, other: nat)
  {
    q >= 1 && (q - 1) * (q - 1) * other < 1536 * side <= q * q * other
  }

  /**
   The patches of an image over the cap, from the whole patches along its scaled sides: the side that loses the larger
   share to rounding keeps its whole patches, and the other is shrunk in proportion and covered. An image with a side
   under one patch is not shrunk.
   */
  predicate ScaledTo(width: nat, height: nat, wholeW: int, wholeH: int, patchesW: int, patchesH: int)
  {
    && WholeSide(wholeW, width, height) && WholeSide(wholeH, height, width)
    && (if wholeW == 0 || wholeH == 0 then CoveredSide(patchesW, width, height) && CoveredSide(patchesH, height, width)
        else if wholeW * height <= wholeH * width then patchesW == wholeW && LeastCover(patchesH, wholeW * height, width)
        else patchesH == wholeH && LeastCover(patchesW, wholeH * width, height))
  }

  /** The patch count of an image over the cap, before the explicit limit is applied. */
  method ScaledPatches(width: nat, height: nat, root: real)
    returns (imageTokens: int, patchesW: int, patchesH: int, ghost wholeW: int, ghost wholeH: int)
    requires width > 0 && height > 0
    requires IsScale(width, height, root)
    ensures imageTokens == patchesW * patchesH && imageTokens >= 1
    ensures ScaledTo(width, height, wholeW, wholeH, patchesW, patchesH)
    ensures imageTokens > PATCH_CAP <==> Sliver(width, height)
  {
    var r := root;
    PositiveSide(width, r);
    PositiveSide(height, r);
    var adjW := WholeShare(InPatches(width, r));
    var adjH := WholeShare(InPatches(height, r));
    var adj := Min(adjW, adjH);
    if adj > 0.0 {
      r := r * adj;
    }
    patchesW := Ceil(InPatches(width, r));
    patchesH := Ceil(InPatches(height, r));
    imageTokens := patchesW * patchesH;
    wholeW, wholeH := InPatches(width, root).Floor, InPatches(height, root).Floor;
    ScaledCount(width, height, root, adj, patchesW, patchesH);
    AdjustedCount(width, height, root, adj, patchesW, patchesH);
    CountInIntegers(width, height, root, patchesW, patchesH);
  }

  /** Patches priced with a model's multiplier. */
  function Priced(patches: int, multiplier: real): int
  {
    Round(patches as real * multiplier)
  }

  /** `tokens` is the price of so many patches, rounded to the nearest integer. */
  predicate PriceOf(tokens: int, patches: int, multiplier: real)
  {
    tokens as real - 0.5 <= patches as real * multiplier < tokens as real + 0.5
  }

  /**
   The token count of a patch-based model. `scaled` says whether the image was over the cap and `clamped`
   whether the final explicit limit changed the count.
   */
  method PatchTokens(width: nat, height: nat, multiplier: real, root: real)
    returns (tokens: int, scaled: bool, clamped: bool, patchesW: int, patchesH: int, ghost wholeW: int, ghost wholeH: int)
    requires width > 0 && height > 0 && multiplier >= 0.0
    requires IsScale(width, height, root)
    ensures forall m, n :: LeastCover(m, width, 32) && LeastCover(n, height, 32) ==> (scaled <==> m * n > 1536)
    ensures !scaled ==> LeastCover(patchesW, width, 32) && LeastCover(patchesH, height, 32)
    ensures scaled ==> ScaledTo(width, height, wholeW, wholeH, patchesW, patchesH)
    ensures clamped <==> scaled && Sliver(width, height)
    ensures PriceOf(tokens, if clamped then 1536 else patchesW * patchesH, multiplier)
    ensures 0 <= tokens && tokens as real <= 1536.0 * multiplier + 0.5
  {
    patchesW, patchesH := CeilDiv(width, 32), CeilDiv(height, 32);
    var rawPatches := patchesW * patchesH;
    RawUnique(width, height, patchesW, patchesH);
    scaled, clamped, wholeW, wholeH := rawPatches > PATCH_CAP, false, 0, 0;
    var imageTokens := rawPatches;
    if scaled {
      imageTokens, patchesW, patchesH, wholeW, wholeH := ScaledPatches(width, height, root);
      clamped := imageTokens > PATCH_CAP;
      if clamped {
        imageTokens := PATCH_CAP;
      }
    }
    tokens := Priced(imageTokens, multiplier);
    PriceWithin(imageTokens, multiplier);
  }

  lemma RawUnique(width: nat, height: nat, m: int, n: int)
    requires LeastCover(m, width, 32) && LeastCover(n, height, 32)
    ensures forall p, q :: LeastCover(p, width, 32) && LeastCover(q, height, 32) ==> p == m && q == n
  {
  }

  lemma PriceWithin(patches: int, multiplier: real)
    requires 0 <= patches <= 1536 && multiplier >= 0.0
    ensures var tokens := Priced(patches, multiplier);
            0 <= tokens && PriceOf(tokens, patches, multiplier) && tokens as real <= 1536.0 * multiplier + 0.5
  {
    MulOrder(patches as real, 1536.0, multiplier);
  }

  // ---- the conditions leave no choice ----

  lemma SquareOrder(a: int, b: int, d: int)
    requires 0 <= a <= b && d >= 0
    ensures a * a * d <= b * b * d
  {
    IntMonotone(a, b, a);
    IntMonotone(a, b, b);
    IntMonotone(a * a, b * b, d);
  }

  lemma WholeSideUnique(p: int, q: int, side: nat, other: nat)
    requires WholeSide(p, side, other) && WholeSide(q, side, other)
    ensures p == q
  {
    if p < q {
      SquareOrder(p + 1, q, other);
    } else if q < p {
      SquareOrder(q + 1, p, other);
    }
  }

  lemma CoveredSideUnique(p: int, q: int, side: nat, other: nat)
    requires CoveredSide(p, side, other) && CoveredSide(q, side, other)
    ensures p == q
  {
    if p < q {
      SquareOrder(p, q - 1, other);
    } else if q < p {
      SquareOrder(q, p - 1, other);
    }
  }

  lemma LeastCoverUnique(p: int, q: int, n: int, d: nat)
    requires LeastCover(p, n, d) && LeastCover(q, n, d)
    ensures p == q
  {
    if p < q {
      IntMonotone(p, q - 1, d);
    } else if q < p {
      IntMonotone(q, p - 1, d);
    }
  }

  /** An image over the cap has one pair of patch counts. */
  lemma ScaledToUnique(width: nat, height: nat, a: int, c: int, x: int, y: int, a': int, c': int, x': int, y': int)
    requires ScaledTo(width, height, a, c, x, y) && ScaledTo(width, height, a', c', x', y')
    ensures x == x' && y == y'
  {
    WholeSideUnique(a, a', width, height);
    WholeSideUnique(c, c', height, width);
    if a == 0 || c == 0 {
      CoveredSideUnique(x, x', width, height);
      CoveredSideUnique(y, y', height, width);
    } else if a * height <= c * width {
      LeastCoverUnique(y, y', a * height, width);
    } else {
      LeastCoverUnique(x, x', c * width, height);
    }
  }

  // ---- from real sides to whole numbers ----

  lemma SquareOfSide(width: nat, height: nat, root: real)
    requires width > 0 && height > 0 && IsScale(width, height, root)
    ensures var w := InPatches(width, root); w > 0.0 && (w * w) * height as real == 1536.0 * width as real
  {
    var x, y := width as real, height as real;
    var w, h := InPatches(width, root), InPatches(height, root);
    PositiveSide(width, root);
    AreaInPatches(x, y, root);
    Proportion(x, y, root);
    assert (w * w) * y == w * (w * y);
    assert w * (h * x) == (w * h) * x;
  }

  lemma SquareLess(a: real, b: real, d: real)
    requires 0.0 <= a < b && d > 0.0
    ensures (a * a) * d < (b * b) * d
  {
    SquareGrows(a, b);
    MulStrict(a * a, b * b, d);
  }

  lemma SquareGrows(a: real, b: real)
    requires 0.0 <= a < b
    ensures a * a < b * b
  {
    MulStrict(0.0, b - a, b + a);
    assert (b - a) * (b + a) == b * b - a * a;
  }

  lemma SquareAtMost(a: real, b: real, d: real)
    requires 0.0 <= a <= b && d > 0.0
    ensures (a * a) * d <= (b * b) * d
  {
    if a < b {
      SquareLess(a, b, d);
    }
  }

  lemma SquareAsInteger(q: int, other: nat, e: real, d: real)
    requires e == q as real && d == other as real
    ensures (q * q * other) as real == (e * e) * d
  {
    assert (q * q) as real == e * e;
    assert ((q * q) * other) as real == (q * q) as real * d;
  }

  /** Three integers in the order of the reals they are. */
  lemma SameOrder(a: int, n: int, b: int, x: real, y: real, z: real)
    requires a as real == x && n as real == y && b as real == z
    ensures x < y <= z ==> a < n <= b
    ensures x <= y < z ==> a <= n < b
  {
  }

  lemma WholeFromReals(q: int, side: nat, other: nat, lo: real, hi: real, d: real, n: real)
    requires q >= 0 && lo == q as real && hi == (q + 1) as real && d == other as real && n == 1536.0 * side as real
    requires (lo * lo) * d <= n < (hi * hi) * d
    ensures WholeSide(q, side, other)
  {
    SquareAsInteger(q, other, lo, d);
    SquareAsInteger(q + 1, other, hi, d);
    SameOrder(q * q * other, 1536 * side, (q + 1) * (q + 1) * other, (lo * lo) * d, n, (hi * hi) * d);
  }

  lemma CoveredFromReals(q: int, side: nat, other: nat, lo: real, hi: real, d: real, n: real)
    requires q >= 1 && lo == (q - 1) as real && hi == q as real && d == other as real && n == 1536.0 * side as real
    requires (lo * lo) * d < n <= (hi * hi) * d
    ensures CoveredSide(q, side, other)
  {
    SquareAsInteger(q - 1, other, lo, d);
    SquareAsInteger(q, other, hi, d);
    SameOrder((q - 1) * (q - 1) * other, 1536 * side, q * q * other, (lo * lo) * d, n, (hi * hi) * d);
  }

  lemma WholeBounds(w: real, lo: real, hi: real, d: real, n: real)
    requires 0.0 <= lo <= w < hi && d > 0.0 && (w * w) * d == n
    ensures (lo * lo) * d <= n < (hi * hi) * d
  {
    SquareAtMost(lo, w, d);
    SquareLess(w, hi, d);
  }

  lemma CoveredBounds(w: real, lo: real, hi: real, d: real, n: real)
    requires 0.0 <= lo < w <= hi && d > 0.0 && (w * w) * d == n
    ensures (lo * lo) * d < n <= (hi * hi) * d
  {
    SquareLess(lo, w, d);
    SquareAtMost(w, hi, d);
  }

  /** A real side whose square is known, rounded down. */
  lemma WholeFromSquare(w: real, side: nat, other: nat)
    requires w > 0.0 && other > 0 && (w * w) * other as real == 1536.0 * side as real
    ensures WholeSide(w.Floor, side, other)
  {
    var q, n := w.Floor, 1536.0 * side as real;
    WholeBounds(w, q as real, (q + 1) as real, other as real, n);
    WholeFromReals(q, side, other, q as real, (q + 1) as real, other as real, n);
  }

  /** And rounded up. */
  lemma CoveredFromSquare(w: real, side: nat, other: nat)
    requires w > 0.0 && other > 0 && (w * w) * other as real == 1536.0 * side as real
    ensures CoveredSide(Ceil(w), side, other)
  {
    var q, n := Ceil(w), 1536.0 * side as real;
    CoveredBounds(w, (q - 1) as real, q as real, other as real, n);
    CoveredFromReals(q, side, other, (q - 1) as real, q as real, other as real, n);
  }

  lemma IntegerProduct(a: int, b: nat)
    ensures (a * b) as real == a as real * b as real
  {
  }

  /** Two shares compare as the whole patches of the sides do with the sides crossed over. */
  lemma SharesCompare(width: nat, height: nat, w: real, h: real, k: real)
    requires w > 0.0 && h > 0.0 && k > 0.0 && w == width as real * k && h == height as real * k
    ensures WholeShare(w) <= WholeShare(h) <==> w.Floor * height <= h.Floor * width
  {
    RealSharesCompare(w.Floor as real, h.Floor as real, width as real, height as real, w, h, k);
    ProductsCompare(w.Floor, height, h.Floor, width);
  }

  lemma RealSharesCompare(a: real, c: real, x: real, y: real, w: real, h: real, k: real)
    requires w > 0.0 && h > 0.0 && k > 0.0 && w == x * k && h == y * k
    ensures a / w <= c / h <==> a * y <= c * x
  {
    QuotientsCompare(a, w, c, h);
    CancelScale(a, y, c, x, k);
    Reassociate(a, y, k);
    Reassociate(c, x, k);
  }

  lemma ProductsCompare(a: int, y: nat, c: int, x: nat)
    ensures a as real * y as real <= c as real * x as real <==> a * y <= c * x
  {
    IntegerProduct(a, y);
    IntegerProduct(c, x);
  }

  lemma Reassociate(a: real, b: real, c: real)
    ensures a * (b * c) == (a * b) * c
  {
  }

  lemma QuotientsCompare(a: real, w: real, c: real, h: real)
    requires w > 0.0 && h > 0.0
    ensures a / w <= c / h <==> a * h <= c * w
  {
    var p, q := a / w, c / h;
    DivTimes(a, w);
    DivTimes(c, h);
    var d := w * h;
    MulStrict(0.0, w, h);
    assert a * h == p * d && c * w == q * d;
    if p <= q {
      MulMonotone(p, q, d);
    } else {
      MulStrict(q, p, d);
    }
  }

  lemma CancelScale(a: real, y: real, c: real, x: real, k: real)
    requires k > 0.0
    ensures (a * y) * k <= (c * x) * k <==> a * y <= c * x
  {
    if a * y <= c * x {
      MulMonotone(a * y, c * x, k);
    } else {
      MulStrict(c * x, a * y, k);
    }
  }

  /** A side shrunk by its own share is its whole patches. */
  lemma WholeAfterShare(w: real)
    requires w > 0.0
    ensures w * WholeShare(w) == w.Floor as real && Ceil(w * WholeShare(w)) == w.Floor
  {
    DivTimes(w.Floor as real, w);
    MulCommutes(WholeShare(w), w);
  }

  /** The other side, shrunk by that share, covered with patches. */
  lemma ShrunkSide(side: nat, other: nat, w: real, h: real, k: real)
    requires w > 0.0 && k > 0.0 && side > 0 && w == side as real * k && h == other as real * k
    ensures LeastCover(Ceil(h * WholeShare(w)), w.Floor * other, side)
  {
    WholeAfterShare(w);
    CrossShare(w, h, WholeShare(w), w.Floor as real, side as real, other as real, k);
    CoverOf(h * WholeShare(w), w.Floor, other, side);
  }

  lemma SideScale(side: nat, root: real)
    ensures InPatches(side, root) == side as real * (root / 32.0)
  {
  }

  lemma CoverOf(x: real, q: int, other: nat, side: nat)
    requires side > 0 && x * side as real == q as real * other as real
    ensures LeastCover(Ceil(x), q * other, side)
  {
    var b := Ceil(x);
    CoverBounds(x, (b - 1) as real, b as real, side as real, q as real * other as real);
    CoverFromReals(b, q, other, side, (b - 1) as real, b as real, side as real, q as real * other as real);
  }

  lemma CoverBounds(x: real, lo: real, hi: real, d: real, n: real)
    requires lo < x <= hi && d > 0.0 && x * d == n
    ensures lo * d < n <= hi * d
  {
    MulStrict(lo, x, d);
    MulMonotone(x, hi, d);
  }

  lemma CoverFromReals(b: int, q: int, other: nat, side: nat, lo: real, hi: real, d: real, n: real)
    requires lo == (b - 1) as real && hi == b as real && d == side as real && n == q as real * other as real
    requires lo * d < n <= hi * d
    ensures LeastCover(b, q * other, side)
  {
    assert ((b - 1) * side) as real == lo * d;
    assert (b * side) as real == hi * d;
    IntegerProduct(q, other);
    SameOrder((b - 1) * side, q * other, b * side, lo * d, n, hi * d);
  }

  lemma CrossShare(w: real, h: real, share: real, q: real, x: real, y: real, k: real)
    requires k > 0.0 && w == x * k && h == y * k && w * share == q
    ensures (h * share) * x == q * y
  {
    assert (h * share) * x == y * (k * share * x);
    assert w * share == k * share * x;
  }

  /** The count along the real sides, in whole numbers. */
  lemma CountInIntegers(width: nat, height: nat, root: real, patchesW: int, patchesH: int)
    requires width > 0 && height > 0 && IsScale(width, height, root)
    requires InPatches(width, root) > 0.0 && InPatches(height, root) > 0.0
    requires CountedAlong(InPatches(width, root), InPatches(height, root), patchesW, patchesH)
    ensures ScaledTo(width, height, InPatches(width, root).Floor, InPatches(height, root).Floor, patchesW, patchesH)
  {
    ScaledSquares(width, height, root);
    CountFromSides(width, height, InPatches(width, root), InPatches(height, root), patchesW, patchesH);
  }

  /** Sides in patches: in the proportion of the image, and of the capped area. */
  ghost predicate SidesOf(width: nat, height: nat, w: real, h: real)
  {
    && w > 0.0 && h > 0.0
    && (w * w) * height as real == 1536.0 * width as real && (h * h) * width as real == 1536.0 * height as real
    && exists k :: InProportion(width, height, w, h, k)
  }

  ghost predicate InProportion(width: nat, height: nat, w: real, h: real, k: real)
  {
    k > 0.0 && w == width as real * k && h == height as real * k
  }

  lemma ScaledSquares(width: nat, height: nat, root: real)
    requires width > 0 && height > 0 && IsScale(width, height, root)
    ensures SidesOf(width, height, InPatches(width, root), InPatches(height, root))
  {
    SquareOfSide(width, height, root);
    ScaleSymmetric(width, height, root);
    SquareOfSide(height, width, root);
    SideScale(width, root);
    SideScale(height, root);
    assert InProportion(width, height, InPatches(width, root), InPatches(height, root), root / 32.0);
  }

  lemma CountFromSides(width: nat, height: nat, w: real, h: real, a: int, b: int)
    requires width > 0 && height > 0 && w > 0.0 && h > 0.0 && SidesOf(width, height, w, h) && CountedAlong(w, h, a, b)
    ensures ScaledTo(width, height, w.Floor, h.Floor, a, b)
  {
    var k :| InProportion(width, height, w, h, k);
    WholeFromSquare(w, width, height);
    WholeFromSquare(h, height, width);
    CoveredFromSquare(w, width, height);
    CoveredFromSquare(h, height, width);
    SharesCompare(width, height, w, h, k);
    ShrunkSide(width, height, w, h, k);
    ShrunkSide(height, width, h, w, k);
    CountedCases(w, h, a, b);
    Assemble(width, height, w.Floor, h.Floor, a, b, WholeShare(w) <= WholeShare(h),
             Ceil(w), Ceil(h), Ceil(h * WholeShare(w)), Ceil(w * WholeShare(h)));
  }

  lemma Assemble(width: nat, height: nat, wholeW: int, wholeH: int, a: int, b: int, byWidth: bool,
                 coveredW: int, coveredH: int, shrunkH: int, shrunkW: int)
    requires WholeSide(wholeW, width, height) && WholeSide(wholeH, height, width)
    requires CoveredSide(coveredW, width, height) && CoveredSide(coveredH, height, width)
    requires LeastCover(shrunkH, wholeW * height, width) && LeastCover(shrunkW, wholeH * width, height)
    requires byWidth <==> wholeW * height <= wholeH * width
    requires if wholeW == 0 || wholeH == 0 then a == coveredW && b == coveredH
             else if byWidth then a == wholeW && b == shrunkH
             else b == wholeH && a == shrunkW
    ensures ScaledTo(width, height, wholeW, wholeH, a, b)
  {
  }

  /** Which side decides the count. */
  lemma CountedCases(w: real, h: real, a: int, b: int)
    requires w > 0.0 && h > 0.0 && CountedAlong(w, h, a, b)
    ensures if w.Floor == 0 || h.Floor == 0 then a == Ceil(w) && b == Ceil(h)
            else if WholeShare(w) <= WholeShare(h) then a == w.Floor && b == Ceil(h * WholeShare(w))
            else b == h.Floor && a == Ceil(w * WholeShare(h))
  {
    ShareNonNegative(w);
    ShareNonNegative(h);
    WholeAfterShare(w);
    WholeAfterShare(h);
  }

  lemma ScaleSymmetric(width: nat, height: nat, root: real)
    requires IsScale(width, height, root)
    ensures IsScale(height, width, root)
  {
    MulCommutes(width as real, height as real);
  }

  // ---- facts about products of reals ----

  lemma MulMonotone(a: real, b: real, c: real)
    requires a <= b && c >= 0.0
    ensures a * c <= b * c
  {
  }

  lemma MulStrict(a: real, b: real, c: real)
    requires a < b && c > 0.0
    ensures a * c < b * c
  {
  }

  lemma DivTimes(a: real, b: real)
    requires b != 0.0
    ensures a / b * b == a
  {
  }

  lemma MulCommutes(a: real, b: real)
    ensures a * b == b * a
  {
  }

  lemma MulOrder(a: real, b: real, c: real)
    requires 0.0 <= a <= b && c >= 0.0
    ensures 0.0 <= a * c <= b * c
  {
    MulMonotone(0.0, a, c);
    MulMonotone(a, b, c);
  }

  lemma AdjustedSide(side: nat, root: real, adj: real)
    ensures InPatches(side, root * adj) == InPatches(side, root) * adj
  {
    assert side as real * (root * adj) == (side as real * root) * adj;
  }

  // ---- the scaled sides ----

  lemma AreaInPatches(x: real, y: real, r: real)
    requires r * r * (x * y) == SCALED_AREA
    ensures (x * r / 32.0) * (y * r / 32.0) == 1536.0
  {
    assert (x * r) * (y * r) == r * r * (x * y) by {
      assert (x * r) * (y * r) == x * (r * (y * r));
      assert r * (y * r) == (r * r) * y;
      assert x * ((r * r) * y) == (r * r) * (x * y);
    }
  }

  /** In patches, the scaled sides multiply to the cap, and one is under a patch exactly for slivers. */
  lemma ScaledSides(width: nat, height: nat, root: real)
    requires width > 0 && height > 0 && IsScale(width, height, root)
    ensures var w, h := InPatches(width, root), InPatches(height, root);
            && w > 0.0 && h > 0.0 && w * h == 1536.0
            && (w < 1.0 <==> PATCH_CAP * width < height)
            && (h < 1.0 <==> PATCH_CAP * height < width)
  {
    var x, y := width as real, height as real;
    MulStrict(0.0, x, root);
    MulStrict(0.0, y, root);
    AreaInPatches(x, y, root);
    Proportion(x, y, root);
    UnderOnePatch(x, y, InPatches(width, root), InPatches(height, root));
    UnderOnePatch(y, x, InPatches(height, root), InPatches(width, root));
  }

  lemma Proportion(x: real, y: real, r: real)
    ensures (x * r / 32.0) * y == (y * r / 32.0) * x
  {
    assert (x * r) * y == (y * r) * x;
  }

  /** Sides keep their proportion, so with their product fixed the shorter is under one when the ratio is over the cap. */
  lemma UnderOnePatch(x: real, y: real, w: real, h: real)
    requires x > 0.0 && y > 0.0 && w > 0.0 && h > 0.0
    requires w * h == 1536.0 && w * y == h * x
    ensures w < 1.0 <==> 1536.0 * x < y
  {
    assert (w * w) * y == 1536.0 * x by {
      assert (w * w) * y == w * (w * y);
      assert w * (h * x) == (w * h) * x;
    }
    if w < 1.0 {
      MulStrict(w, 1.0, w);
      MulStrict(w * w, 1.0, y);
    } else {
      MulMonotone(1.0, w, w);
      MulMonotone(1.0, w * w, y);
    }
  }

  // ---- the final shrink to whole patches ----

  /** What the scaling computes along the two sides of `w` by `h` patches. */
  ghost predicate CountedAlong(w: real, h: real, a: int, b: int)
    requires w > 0.0 && h > 0.0
  {
    var adj := Min(WholeShare(w), WholeShare(h));
    if adj > 0.0 then a == Ceil(w * adj) && b == Ceil(h * adj) else a == Ceil(w) && b == Ceil(h)
  }

  /** Both sides hold a whole patch: the count stays within the whole parts of the sides. */
  lemma CountWhole(w: real, h: real, a: int, b: int)
    requires w >= 1.0 && h >= 1.0 && CountedAlong(w, h, a, b)
    ensures 1 <= a <= w.Floor && 1 <= b <= h.Floor
  {
    ShareNonNegative(w);
    ShareNonNegative(h);
    if WholeShare(w) <= WholeShare(h) {
      ShrinkTo(w, h);
    } else {
      ShrinkTo(h, w);
    }
  }

  lemma OneTimes(a: int, b: int)
    requires (a == 1 && b > PATCH_CAP) || (b == 1 && a > PATCH_CAP)
    ensures a * b > PATCH_CAP
  {
  }

  /** When some side holds no whole patch the shrink is disabled, and the count is over the cap. */
  lemma PatchCount(w: real, h: real, a: int, b: int)
    requires w > 0.0 && h > 0.0 && w * h == 1536.0 && CountedAlong(w, h, a, b)
    ensures Within(a, b, w >= 1.0 && h >= 1.0)
  {
    if w < 1.0 {
      ThinSide(w, h);
      OneTimes(a, b);
    } else if h < 1.0 {
      ThinSide(h, w);
      OneTimes(a, b);
    } else {
      CountWhole(w, h, a, b);
      WholeArea(w, h);
      ProductBound(a, b, w.Floor, h.Floor);
    }
  }

  lemma PositiveSide(side: nat, root: real)
    requires side > 0 && root > 0.0
    ensures InPatches(side, root) > 0.0
  {
    MulStrict(0.0, side as real, root);
  }

  /** The count the method computes, in terms of the sides in patches. */
  lemma ScaledCount(width: nat, height: nat, root: real, adj: real, a: int, b: int)
    requires width > 0 && height > 0 && IsScale(width, height, root)
    requires InPatches(width, root) > 0.0 && InPatches(height, root) > 0.0
    requires adj == Min(WholeShare(InPatches(width, root)), WholeShare(InPatches(height, root)))
    requires a == Ceil(InPatches(width, if adj > 0.0 then root * adj else root))
    requires b == Ceil(InPatches(height, if adj > 0.0 then root * adj else root))
    ensures Within(a, b, !Sliver(width, height))
  {
    AdjustedCount(width, height, root, adj, a, b);
    SidesDecide(width, height, root, a, b);
  }

  /** A count that is at least one and within the cap exactly when told so. */
  predicate Within(a: int, b: int, capped: bool)
  {
    1 <= a * b && (a * b <= PATCH_CAP <==> capped)
  }

  lemma SidesDecide(width: nat, height: nat, root: real, a: int, b: int)
    requires width > 0 && height > 0 && IsScale(width, height, root)
    requires InPatches(width, root) > 0.0 && InPatches(height, root) > 0.0
    requires CountedAlong(InPatches(width, root), InPatches(height, root), a, b)
    ensures Within(a, b, !Sliver(width, height))
  {
    ScaledSides(width, height, root);
    PatchCount(InPatches(width, root), InPatches(height, root), a, b);
  }

  lemma AdjustedCount(width: nat, height: nat, root: real, adj: real, a: int, b: int)
    requires InPatches(width, root) > 0.0 && InPatches(height, root) > 0.0
    requires adj == Min(WholeShare(InPatches(width, root)), WholeShare(InPatches(height, root)))
    requires a == Ceil(InPatches(width, if adj > 0.0 then root * adj else root))
    requires b == Ceil(InPatches(height, if adj > 0.0 then root * adj else root))
    ensures CountedAlong(InPatches(width, root), InPatches(height, root), a, b)
  {
    AdjustedSide(width, root, adj);
    AdjustedSide(height, root, adj);
  }

  lemma ShareNonNegative(w: real)
    requires w > 0.0
    ensures WholeShare(w) >= 0.0
    ensures w < 1.0 ==> WholeShare(w) == 0.0
    ensures w >= 1.0 ==> WholeShare(w) > 0.0
  {
    if w >= 1.0 {
      assert w.Floor >= 1;
    }
  }

  /** A side under one patch disables the shrink, and the other side alone exceeds the cap. */
  lemma ThinSide(w: real, h: real)
    requires 0.0 < w < 1.0 && h > 0.0 && w * h == 1536.0
    ensures WholeShare(w) == 0.0 && WholeShare(h) >= 0.0
    ensures Ceil(w) == 1 && Ceil(h) > PATCH_CAP
  {
    MulStrict(w, 1.0, h);
    ShareNonNegative(w);
    ShareNonNegative(h);
  }

  /** Shrinking by the smaller share makes one side whole and leaves the other within its own whole part. */
  lemma ShrinkTo(w: real, h: real)
    requires w >= 1.0 && h >= 1.0
    requires WholeShare(w) <= WholeShare(h)
    ensures 1 <= Ceil(w * WholeShare(w)) <= w.Floor
    ensures 1 <= Ceil(h * WholeShare(w)) <= h.Floor
  {
    ShareNonNegative(w);
    ShareTimes(w, WholeShare(w));
    ShareTimes(h, WholeShare(w));
    CeilWithin(w * WholeShare(w), w.Floor);
    CeilWithin(h * WholeShare(w), h.Floor);
  }

  lemma ShareTimes(h: real, share: real)
    requires h > 0.0 && 0.0 < share <= WholeShare(h)
    ensures 0.0 < h * share <= h.Floor as real
  {
    DivTimes(h.Floor as real, h);
    MulMonotone(share, WholeShare(h), h);
    MulStrict(0.0, share, h);
  }

  lemma CeilWithin(x: real, n: int)
    requires 0.0 < x <= n as real
    ensures 1 <= Ceil(x) <= n
  {
  }

  lemma WholeArea(w: real, h: real)
    requires w >= 1.0 && h >= 1.0 && w * h == 1536.0
    ensures w.Floor * h.Floor <= PATCH_CAP
  {
    var fw, fh := w.Floor, h.Floor;
    MulMonotone(fw as real, w, fh as real);
    MulMonotone(fh as real, h, w);
    assert (fw * fh) as real == fw as real * fh as real;
  }

  lemma ProductBound(a: int, b: int, c: int, d: int)
    requires 1 <= a <= c && 1 <= b <= d && c * d <= PATCH_CAP
    ensures 1 <= a * b <= PATCH_CAP
  {
    assert a * b <= c * b <= c * d;
  }

  // ---- tile-based models ----

  /** How much an image is divided by to fit into 2048 by 2048 pixels. */
  function FitScale(width: nat, height: nat): (scale: real)
    ensures scale >= 1.0
  {
    var maxSide := Max(width as real, height as real);
    if maxSide > 2048.0 then maxSide / 2048.0 else 1.0
  }

  /** `q` is the fraction `n / d` rounded to the nearest integer, in integer arithmetic. */
  predicate Nearest(q: int, n: int, d: int)
  {
    (2 * q - 1) * d <= 2 * n < (2 * q + 1) * d
  }

  /** One side once the image fits into 2048 by 2048: unchanged, or in proportion to a long side of 2048. */
  predicate Fits(side: nat, other: nat, fit: int)
  {
    var long := if side < other then other else side;
    if long <= 2048 then fit == side else Nearest(fit, 2048 * side, long)
  }

  /** How many 512-pixel tiles the long side takes when the short one is scaled to 768 pixels, by cross-multiplication. */
  predicate TilesOver(tiles: int, long: int, short: int)
  {
    (1024 * (tiles - 1) + 1) * short <= 1536 * long < (1024 * tiles + 1) * short
  }

  /** The sides in pixels once the image fits into 2048 by 2048. */
  method FittedSides(width: nat, height: nat) returns (fitW: nat, fitH: nat)
    requires width > 0 && height > 0
    ensures Fits(width, height, fitW) && Fits(height, width, fitH)
    // Exactly an image that is longer than 4096 times its breadth keeps no pixel along one side.
    ensures fitW == 0 || fitH == 0 <==> 4096 * width < height || 4096 * height < width
  {
    var fitScale := FitScale(width, height);
    FittedSide(width, height);
    FittedSide(height, width);
    fitW := Round(width as real / fitScale);
    fitH := Round(height as real / fitScale);
  }

  /** The number of 512-pixel tiles once the short side is scaled to 768 pixels: always two of them across. */
  method Tiles(fitW: nat, fitH: nat) returns (tilesW: nat, tilesH: nat)
    requires fitW > 0 && fitH > 0
    ensures if fitW <= fitH then tilesW == 2 && tilesH >= 2 && TilesOver(tilesH, fitH, fitW)
            else tilesW >= 2 && tilesH == 2 && TilesOver(tilesW, fitW, fitH)
  {
    var shortSide := Min(fitW as real, fitH as real);
    var shortScale := 768.0 / shortSide;
    DivTimes(768.0, shortSide);
    MulCommutes(shortScale, shortSide);
    ScaledSide(shortSide, fitW, shortScale);
    ScaledSide(shortSide, fitH, shortScale);
    var finalW := Round(fitW as real * shortScale);
    var finalH := Round(fitH as real * shortScale);
    TilesAlong(finalW);
    TilesAlong(finalH);
    tilesW := CeilDiv(finalW, 512);
    tilesH := CeilDiv(finalH, 512);
    if fitW <= fitH {
      TilesOfLongSide(fitH, fitW, shortScale);
    } else {
      TilesOfLongSide(fitW, fitH, shortScale);
    }
  }

  lemma ScaledRatio(long: nat, short: nat, s: real)
    requires short as real * s == 768.0
    ensures (long as real * s) * short as real == 768.0 * long as real
  {
    assert (long as real * s) * short as real == long as real * (short as real * s);
  }

  lemma TilesOfLongSide(long: nat, short: nat, s: real)
    requires 0 < short <= long && short as real * s == 768.0
    requires Round(long as real * s) >= 768
    ensures TilesOver(CeilDiv(Round(long as real * s), 512), long, short)
  {
    var side := Round(long as real * s);
    ScaledRatio(long, short, s);
    RoundIsNearest(long as real * s, 768 * long, short);
    var tiles := CeilDiv(side, 512);
    assert 512 * (tiles - 1) < side <= 512 * tiles;
    IntMonotone(1024 * (tiles - 1) + 1, 2 * side - 1, short);
    IntMonotone(2 * side + 1, 1024 * tiles + 1, short);
  }

  lemma IntMonotone(a: int, b: int, c: int)
    requires a <= b && c >= 0
    ensures a * c <= b * c
  {
  }

  /** Rounding a quotient, stated without fractions. */
  lemma RoundIsNearest(x: real, n: int, d: nat)
    requires d > 0 && x >= 0.0 && x * d as real == n as real
    ensures Nearest(Round(x), n, d)
  {
    var q, e := Round(x), d as real;
    var lo, hi := q as real - 0.5, q as real + 0.5;
    MulMonotone(lo, x, e);
    MulStrict(x, hi, e);
    assert x * e == n as real;
    AsInteger(q, n, d, lo, hi, e);
  }

  lemma AsInteger(q: int, n: int, d: nat, lo: real, hi: real, e: real)
    requires lo == q as real - 0.5 && hi == q as real + 0.5 && e == d as real
    requires lo * e <= n as real < hi * e
    ensures Nearest(q, n, d)
  {
    assert (q * d) as real == q as real * e;
    assert lo * e == q as real * e - 0.5 * e;
    assert hi * e == q as real * e + 0.5 * e;
    assert (2 * q - 1) * d == 2 * (q * d) - d && (2 * q + 1) * d == 2 * (q * d) + d;
  }

  lemma FittedExactly(side: nat, other: nat)
    requires side > 0 && other > 0
    ensures Fits(side, other, Round(side as real / FitScale(side, other)))
  {
    var scale := FitScale(side, other);
    var long := if side < other then other else side;
    var x := side as real / scale;
    DivTimes(side as real, scale);
    PositiveQuotient(side as real, scale);
    if long <= 2048 {
      assert x == side as real;
    } else {
      assert scale * 2048.0 == long as real;
      assert x * (scale * 2048.0) == (x * scale) * 2048.0;
      RoundIsNearest(x, 2048 * side, long);
    }
  }

  lemma TilesAlong(side: int)
    requires side >= 768
    ensures CeilDiv(side, 512) >= 2
    ensures side == 768 ==> CeilDiv(side, 512) == 2
  {
  }

  /** What the number of tile pairs is for an image that fits with these sides. */
  predicate PairsFor(fitW: nat, fitH: nat, pairs: nat)
  {
    if fitW == 0 || fitH == 0 then pairs == 0
    else pairs >= 2 && (if fitW <= fitH then TilesOver(pairs, fitH, fitW) else TilesOver(pairs, fitW, fitH))
  }

  /**
   The token count of a tile-based model: the base, plus a charge per tile. The tiles come in pairs, as many as the long
   side takes once the image has been fitted and its short side scaled; degenerate images have none.
   */
  method TileTokens(width: nat, height: nat, baseTokens: nat, tileTokens: nat)
    returns (tokens: nat, fitW: nat, fitH: nat, pairs: nat)
    requires width > 0 && height > 0
    ensures tokens == 2 * pairs * tileTokens + baseTokens
    ensures Fits(width, height, fitW) && Fits(height, width, fitH) && PairsFor(fitW, fitH, pairs)
    ensures pairs == 0 <==> 4096 * width < height || 4096 * height < width
  {
    fitW, fitH := FittedSides(width, height);
    if fitW == 0 || fitH == 0 {
      return baseTokens, fitW, fitH, 0;
    }
    var tilesW, tilesH := Tiles(fitW, fitH);
    var tiles := tilesW * tilesH;
    pairs := if fitW <= fitH then tilesH else tilesW;
    TilesInPairs(tilesW, tilesH, pairs, tileTokens);
    tokens := tiles * tileTokens + baseTokens;
  }

  /** The conditions leave no choice: an image has one pair of fitted sides and one number of tile pairs. */
  lemma NearestUnique(q: int, r: int, n: int, d: int)
    requires d > 0 && Nearest(q, n, d) && Nearest(r, n, d)
    ensures q == r
  {
    if q < r {
      IntMonotone(2 * q + 1, 2 * r - 1, d);
    } else if r < q {
      IntMonotone(2 * r + 1, 2 * q - 1, d);
    }
  }

  lemma TilesUnique(p: int, q: int, long: int, short: int)
    requires short > 0 && TilesOver(p, long, short) && TilesOver(q, long, short)
    ensures p == q
  {
    if p < q {
      IntMonotone(1024 * p + 1, 1024 * (q - 1) + 1, short);
    } else if q < p {
      IntMonotone(1024 * q + 1, 1024 * (p - 1) + 1, short);
    }
  }

  lemma TilesInPairs(tilesW: nat, tilesH: nat, pairs: nat, tileTokens: nat)
    requires (tilesW == 2 && pairs == tilesH) || (tilesH == 2 && pairs == tilesW)
    ensures tilesW * tilesH == 2 * pairs
    ensures tilesW * tilesH * tileTokens == 2 * pairs * tileTokens
  {
  }

  lemma FittedSide(side: nat, other: nat)
    requires side > 0 && other > 0
    ensures FitScale(side, other) == FitScale(other, side)
    ensures var fit := Round(side as real / FitScale(side, other));
            fit >= 0 && Fits(side, other, fit) && (fit == 0 <==> 4096 * side < other)
  {
    PositiveQuotient(side as real, FitScale(side, other));
    FittedExactly(side, other);
    NoPixelLeft(side, other, Round(side as real / FitScale(side, other)));
  }

  /** A side keeps no pixel exactly when the other is over 4096 times as long. */
  lemma NoPixelLeft(side: nat, other: nat, fit: nat)
    requires side > 0 && Fits(side, other, fit)
    ensures fit == 0 <==> 4096 * side < other
  {
    var long := if side < other then other else side;
    if long > 2048 && fit > 0 {
      IntMonotone(1, 2 * fit - 1, long);
    }
  }

  lemma PositiveQuotient(a: real, b: real)
    requires a > 0.0 && b > 0.0
    ensures a / b > 0.0
  {
  }

  /** Scaling by what takes the short side to 768 pixels leaves each side at least that long. */
  lemma ScaledSide(short: real, side: nat, s: real)
    requires 0.0 < short <= side as real && short * s == 768.0
    ensures Round(side as real * s) >= 768
    ensures side as real == short ==> Round(side as real * s) == 768
  {
    PositiveFactor(short, s);
    MulMonotone(short, side as real, s);
    RoundFrom768(side as real * s);
  }

  lemma PositiveFactor(a: real, b: real)
    requires a > 0.0 && a * b > 0.0
    ensures b > 0.0
  {
  }

  lemma RoundFrom768(x: real)
    requires x >= 768.0
    ensures Round(x) >= 768
    ensures x == 768.0 ==> Round(x) == 768
  {
  }
}
