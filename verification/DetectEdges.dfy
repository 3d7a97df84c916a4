/**
 Cropping an image to its opaque pixels
 (upstream-survev/client/atlas-builder/detectEdges.ts).
 */
module DetectEdges {
  import opened Wrappers

  datatype Rgba = Rgba(r: int, g: int, b: int, a: int)

  const TRANSPARENT_BLACK := Rgba(0, 0, 0, 0)

  /** A canvas, row by row. */
  datatype Canvas = Canvas(width: nat, rows: seq<seq<Rgba>>) {
    predicate Valid() {
      forall y | 0 <= y < |rows| :: |rows[y]| == width
    }

    function Height(): nat {
      |rows|
    }

    function Pixel(x: int, y: int): Rgba
      requires Valid()
    {
      if 0 <= y < |rows| && 0 <= x < width then rows[y][x] else TRANSPARENT_BLACK
    }
  }

  datatype Failure = IndexSizeError | CannotDetectEdges
  function Byte(p: Rgba, channel: int): int {
    if channel == 0 then p.r else if channel == 1 then p.g else if channel == 2 then p.b else p.a
  }

  /** The bytes of a rectangle, four per pixel, row by row; an empty rectangle is an error. */
  function GetImageData(c: Canvas, x: int, y: int, w: nat, h: nat): (r: Result<seq<int>, Failure>)
    requires c.Valid()
    ensures if w == 0 || h == 0 then r == Err(IndexSizeError) else r.Ok? && |r.value| == 4 * (w * h)
  {
    if w == 0 || h == 0 then Err(IndexSizeError)
    else Ok(seq(4 * (w * h), i requires 0 <= i < 4 * (w * h) => Byte(c.Pixel(x + i / 4 % w, y + i / 4 / w), i % 4)))
  }

  /** The pixel's alpha is above the tolerance; outside the canvas alpha is 0. */
  ghost predicate Opaque(c: Canvas, x: int, y: int, tolerance: real)
    requires c.Valid()
  {
    (if 0 <= y < |c.rows| && 0 <= x < c.width then c.rows[y][x].a else 0) as real > 255.0 * tolerance
  }

  /** Every fourth byte, starting at the third, is within the tolerance. */
  ghost predicate Clear(pixels: seq<int>, tolerance: real) {
    forall k | 0 <= k < |pixels| / 4 :: pixels[4 * k + 3] as real <= 255.0 * tolerance
  }

  ghost predicate ClearArea(c: Canvas, x: int, y: int, w: nat, h: nat, tolerance: real)
    requires c.Valid()
  {
    forall px, py | x <= px < x + w && y <= py < y + h :: !Opaque(c, px, py, tolerance)
  }

  lemma TimesGrows(a: int, b: int, w: nat)
    requires a <= b
    ensures a * w <= b * w
  {
  }

  lemma TimesReflects(a: int, b: int, w: nat)
    requires a * w < b * w
    ensures a < b
  {
  }

  lemma DivMod(q: int, w: int, r: int)
    requires w > 0 && 0 <= r < w
    ensures (q * w + r) / w == q && (q * w + r) % w == r
  {
    var n := q * w + r;
    var q' := n / w;
    assert n == q' * w + n % w;
    assert (q + 1) * w == q * w + w && (q' + 1) * w == q' * w + w;
    TimesReflects(q, q' + 1, w);
    TimesReflects(q', q + 1, w);
  }

  lemma IndexOf(dx: int, dy: int, w: nat, h: nat) returns (k: int)
    requires 0 <= dx < w && 0 <= dy < h
    ensures 0 <= k < w * h && k % w == dx && k / w == dy
  {
    k := dy * w + dx;
    TimesGrows(0, dy, w);
    TimesGrows(dy + 1, h, w);
    assert (dy + 1) * w == dy * w + w;
    DivMod(dy, w, dx);
  }

  lemma RowOfIndex(k: int, w: nat, h: nat)
    requires w > 0 && 0 <= k < w * h
    ensures 0 <= k % w < w && 0 <= k / w < h
  {
    assert k == k / w * w + k % w;
    TimesReflects(k / w, h, w);
  }

  lemma AlphaAt(c: Canvas, x: int, y: int, w: nat, h: nat, k: int)
    requires c.Valid() && w > 0 && h > 0 && 0 <= k < w * h
    ensures GetImageData(c, x, y, w, h).value[4 * k + 3] == c.Pixel(x + k % w, y + k / w).a
  {
    var i := 4 * k + 3;
    assert i / 4 == k && i % 4 == 3;
  }

  /** The bytes are clear exactly when the rectangle shows no opaque pixel. */
  lemma ClearIsClearArea(c: Canvas, x: int, y: int, w: nat, h: nat, tolerance: real)
    requires c.Valid() && w > 0 && h > 0
    ensures Clear(GetImageData(c, x, y, w, h).value, tolerance) <==> ClearArea(c, x, y, w, h, tolerance)
  {
    var pixels := GetImageData(c, x, y, w, h).value;
    assert |pixels| / 4 == w * h;
    if Clear(pixels, tolerance) {
      forall px, py | x <= px < x + w && y <= py < y + h
        ensures !Opaque(c, px, py, tolerance)
      {
        var k := IndexOf(px - x, py - y, w, h);
        AlphaAt(c, x, y, w, h, k);
        assert pixels[4 * k + 3] as real <= 255.0 * tolerance;
      }
    }
    if ClearArea(c, x, y, w, h, tolerance) {
      forall k | 0 <= k < |pixels| / 4
        ensures pixels[4 * k + 3] as real <= 255.0 * tolerance
      {
        AlphaAt(c, x, y, w, h, k);
        RowOfIndex(k, w, h);
        assert !Opaque(c, x + k % w, y + k / w, tolerance);
      }
    }
  }

  method IsTransparent(pixels: seq<int>, tolerance: real) returns (transparent: bool)
    requires |pixels| % 4 == 0
    ensures transparent <==> Clear(pixels, tolerance)
  {
    transparent := true;
    var i := 3;
    while i < |pixels| && transparent
      invariant i % 4 == 3 && 3 <= i <= |pixels| + 3
      invariant transparent <==> forall k | 0 <= k < (i - 3) / 4 :: pixels[4 * k + 3] as real <= 255.0 * tolerance
    {
      assert pixels[4 * ((i - 3) / 4) + 3] == pixels[i];
      transparent := transparent && pixels[i] as real <= 255.0 * tolerance;
      i := i + 4;
    }
  }

  /** One look at a rectangle. */
  method Looks(c: Canvas, x: int, y: int, w: nat, h: nat, tolerance: real) returns (transparent: Result<bool, Failure>)
    requires c.Valid()
    ensures transparent == if w == 0 || h == 0 then Err(IndexSizeError) else Ok(ClearArea(c, x, y, w, h, tolerance))
  {
    var pixels :- GetImageData(c, x, y, w, h);
    ClearIsClearArea(c, x, y, w, h, tolerance);
    var clear := IsTransparent(pixels, tolerance);
    return Ok(clear);
  }

  // --- what the edges are ---------------------------------------------------------------------

  datatype Edges = Edges(top: int, right: int, bottom: int, left: int)

  ghost predicate RowOpaque(c: Canvas, y: int, tolerance: real)
    requires c.Valid()
  {
    exists x | 0 <= x < c.width :: Opaque(c, x, y, tolerance)
  }

  ghost predicate ColumnOpaque(c: Canvas, x: int, tolerance: real)
    requires c.Valid()
  {
    exists y | 0 <= y < |c.rows| :: Opaque(c, x, y, tolerance)
  }

  ghost predicate Blank(c: Canvas, tolerance: real)
    requires c.Valid()
  {
    forall y | 0 <= y < |c.rows| :: !RowOpaque(c, y, tolerance)
  }

  ghost predicate Inside(e: Edges, c: Canvas, x: int, y: int) {
    e.left <= x < c.width - e.right && e.top <= y < |c.rows| - e.bottom
  }

  /** The smallest box around every opaque pixel: it holds them all, and each of its four
      sides touches one. */
  ghost predicate Tight(e: Edges, c: Canvas, tolerance: real)
    requires c.Valid()
  {
    && 0 <= e.top && 0 <= e.right && 0 <= e.bottom && 0 <= e.left
    && e.left + e.right < c.width && e.top + e.bottom < |c.rows|
    && (forall x, y | 0 <= x < c.width && 0 <= y < |c.rows| && Opaque(c, x, y, tolerance) :: Inside(e, c, x, y))
    && RowOpaque(c, e.top, tolerance) && RowOpaque(c, |c.rows| - 1 - e.bottom, tolerance)
    && ColumnOpaque(c, e.left, tolerance) && ColumnOpaque(c, c.width - 1 - e.right, tolerance)
  }

  /** No box around all opaque pixels has a wider margin than a tight one. */
  lemma NoneIsTighter(a: Edges, b: Edges, c: Canvas, tolerance: real)
    requires c.Valid() && Tight(a, c, tolerance) && Tight(b, c, tolerance)
    ensures a.top >= b.top && a.bottom >= b.bottom && a.left >= b.left && a.right >= b.right
  {
    var x1 :| 0 <= x1 < c.width && Opaque(c, x1, a.top, tolerance);
    assert Inside(b, c, x1, a.top);
    var x2 :| 0 <= x2 < c.width && Opaque(c, x2, c.Height() - 1 - a.bottom, tolerance);
    assert Inside(b, c, x2, c.Height() - 1 - a.bottom);
    var y1 :| 0 <= y1 < c.Height() && Opaque(c, a.left, y1, tolerance);
    assert Inside(b, c, a.left, y1);
    var y2 :| 0 <= y2 < c.Height() && Opaque(c, c.width - 1 - a.right, y2, tolerance);
    assert Inside(b, c, c.width - 1 - a.right, y2);
  }

  /** There is only one such box. */
  lemma TightIsUnique(e: Edges, e': Edges, c: Canvas, tolerance: real)
    requires c.Valid() && Tight(e, c, tolerance) && Tight(e', c, tolerance)
    ensures e == e'
  {
    NoneIsTighter(e, e', c, tolerance);
    NoneIsTighter(e', e, c, tolerance);
  }

  // Four scans of whole rows and columns, from each side inwards.

  ghost function FromTop(c: Canvas, tolerance: real, k: nat): int
    requires c.Valid()
    decreases c.Height() - k
  {
    if k >= c.Height() || RowOpaque(c, k, tolerance) then k else FromTop(c, tolerance, k + 1)
  }

  ghost function FromBottom(c: Canvas, tolerance: real, k: nat): int
    requires c.Valid()
    decreases c.Height() - k
  {
    if k >= c.Height() || RowOpaque(c, c.Height() - 1 - k, tolerance) then k else FromBottom(c, tolerance, k + 1)
  }

  ghost function FromLeft(c: Canvas, tolerance: real, k: nat): int
    requires c.Valid()
    decreases c.width - k
  {
    if k >= c.width || ColumnOpaque(c, k, tolerance) then k else FromLeft(c, tolerance, k + 1)
  }

  ghost function FromRight(c: Canvas, tolerance: real, k: nat): int
    requires c.Valid()
    decreases c.width - k
  {
    if k >= c.width || ColumnOpaque(c, c.width - 1 - k, tolerance) then k else FromRight(c, tolerance, k + 1)
  }

  ghost function FullScans(c: Canvas, tolerance: real): Edges
    requires c.Valid()
  {
    Edges(FromTop(c, tolerance, 0), FromRight(c, tolerance, 0), FromBottom(c, tolerance, 0), FromLeft(c, tolerance, 0))
  }

  lemma {:induction false} FromTopFinds(c: Canvas, tolerance: real, found: nat, k: nat)
    requires c.Valid() && k <= found < c.Height() && RowOpaque(c, found, tolerance)
    requires forall y | k <= y < found :: !RowOpaque(c, y, tolerance)
    ensures FromTop(c, tolerance, k) == found
    decreases found - k
  {
    if k < found {
      FromTopFinds(c, tolerance, found, k + 1);
    }
  }

  lemma {:induction false} FromBottomFinds(c: Canvas, tolerance: real, found: nat, k: nat)
    requires c.Valid() && k <= found < c.Height() && RowOpaque(c, c.Height() - 1 - found, tolerance)
    requires forall y | c.Height() - 1 - found < y <= c.Height() - 1 - k :: !RowOpaque(c, y, tolerance)
    ensures FromBottom(c, tolerance, k) == found
    decreases found - k
  {
    if k < found {
      FromBottomFinds(c, tolerance, found, k + 1);
    }
  }

  lemma {:induction false} FromLeftFinds(c: Canvas, tolerance: real, found: nat, k: nat)
    requires c.Valid() && k <= found < c.width && ColumnOpaque(c, found, tolerance)
    requires forall x | k <= x < found :: !ColumnOpaque(c, x, tolerance)
    ensures FromLeft(c, tolerance, k) == found
    decreases found - k
  {
    if k < found {
      FromLeftFinds(c, tolerance, found, k + 1);
    }
  }

  lemma {:induction false} FromRightFinds(c: Canvas, tolerance: real, found: nat, k: nat)
    requires c.Valid() && k <= found < c.width && ColumnOpaque(c, c.width - 1 - found, tolerance)
    requires forall x | c.width - 1 - found < x <= c.width - 1 - k :: !ColumnOpaque(c, x, tolerance)
    ensures FromRight(c, tolerance, k) == found
    decreases found - k
  {
    if k < found {
      FromRightFinds(c, tolerance, found, k + 1);
    }
  }

  lemma TightRows(e: Edges, c: Canvas, tolerance: real)
    requires c.Valid() && Tight(e, c, tolerance)
    ensures FromTop(c, tolerance, 0) == e.top && FromBottom(c, tolerance, 0) == e.bottom
  {
    forall y | 0 <= y < c.Height() && RowOpaque(c, y, tolerance)
      ensures e.top <= y < c.Height() - e.bottom
    {
      var x :| 0 <= x < c.width && Opaque(c, x, y, tolerance);
      assert Inside(e, c, x, y);
    }
    FromTopFinds(c, tolerance, e.top, 0);
    FromBottomFinds(c, tolerance, e.bottom, 0);
  }

  lemma TightColumns(e: Edges, c: Canvas, tolerance: real)
    requires c.Valid() && Tight(e, c, tolerance)
    ensures FromLeft(c, tolerance, 0) == e.left && FromRight(c, tolerance, 0) == e.right
  {
    forall x | 0 <= x < c.width && ColumnOpaque(c, x, tolerance)
      ensures e.left <= x < c.width - e.right
    {
      var y :| 0 <= y < |c.rows| && Opaque(c, x, y, tolerance);
      assert Inside(e, c, x, y);
    }
    FromLeftFinds(c, tolerance, e.left, 0);
    FromRightFinds(c, tolerance, e.right, 0);
  }

  /** The tight box is what four scans of the whole image find. */
  lemma TightIsFullScans(e: Edges, c: Canvas, tolerance: real)
    requires c.Valid() && Tight(e, c, tolerance)
    ensures e == FullScans(c, tolerance)
  {
    TightRows(e, c, tolerance);
    TightColumns(e, c, tolerance);
  }

  // --- the shrinking scans -----------------------------------------------------------------------

  /** No opaque pixel lies outside the edges found so far, those not yet looked for being zero. */
  ghost predicate Covers(e: Edges, c: Canvas, tolerance: real)
    requires c.Valid()
  {
    forall x, y | 0 <= x < c.width && 0 <= y < c.Height() && Opaque(c, x, y, tolerance) :: Inside(e, c, x, y)
  }

  method ScanTop(c: Canvas, tolerance: real) returns (r: Result<int, Failure>)
    requires c.Valid()
    ensures r.Err? <==> c.width == 0 || Blank(c, tolerance)
    ensures r.Err? ==> r.error == if c.width == 0 then IndexSizeError else CannotDetectEdges
    ensures r.Ok? ==> 0 <= r.value < c.Height() && RowOpaque(c, r.value, tolerance)
                      && Covers(Edges(r.value, 0, 0, 0), c, tolerance)
  {
    var top, transparent := -1, true;
    while transparent
      invariant -1 <= top && (transparent ==> top < c.Height())
      invariant transparent ==> forall y | 0 <= y <= top :: !RowOpaque(c, y, tolerance)
      invariant top >= 0 ==> c.width > 0
      invariant !transparent ==>
                  0 <= top < c.Height() && RowOpaque(c, top, tolerance)
                  && forall y | 0 <= y < top :: !RowOpaque(c, y, tolerance)
      decreases transparent, c.Height() - top
    {
      top := top + 1;
      transparent :- Looks(c, 0, top, c.width, 1, tolerance);
      if top >= c.Height() {
        return Err(CannotDetectEdges);
      }
      RowIsArea(c, top, tolerance);
    }
    forall x, y | 0 <= x < c.width && 0 <= y < c.Height() && Opaque(c, x, y, tolerance)
      ensures Inside(Edges(top, 0, 0, 0), c, x, y)
    {
      assert RowOpaque(c, y, tolerance);
    }
    return Ok(top);
  }

  lemma RowIsArea(c: Canvas, y: int, tolerance: real)
    requires c.Valid()
    ensures ClearArea(c, 0, y, c.width, 1, tolerance) <==> !RowOpaque(c, y, tolerance)
  {
  }

  /** Within the box found so far, a clear strip can be cut off its side. */
  lemma CutLeft(e: Edges, c: Canvas, tolerance: real)
    requires c.Valid() && Covers(e, c, tolerance) && 0 <= e.top && e.bottom == 0 == e.right
    requires e.top < c.Height() && ClearArea(c, e.left, e.top, 1, c.Height() - e.top, tolerance)
    ensures Covers(e.(left := e.left + 1), c, tolerance)
  {
    forall x, y | 0 <= x < c.width && 0 <= y < c.Height() && Opaque(c, x, y, tolerance)
      ensures Inside(e.(left := e.left + 1), c, x, y)
    {
      assert Inside(e, c, x, y);
    }
  }

  method ScanLeft(c: Canvas, top: int, tolerance: real) returns (left: int)
    requires c.Valid() && 0 <= top < c.Height() && RowOpaque(c, top, tolerance)
    requires Covers(Edges(top, 0, 0, 0), c, tolerance)
    ensures 0 <= left < c.width && ColumnOpaque(c, left, tolerance)
    ensures Covers(Edges(top, 0, 0, left), c, tolerance)
  {
    ghost var x :| 0 <= x < c.width && Opaque(c, x, top, tolerance);
    var transparent := true;
    left := -1;
    while transparent
      invariant -1 <= left
      invariant transparent ==> Covers(Edges(top, 0, 0, left + 1), c, tolerance)
      invariant !transparent ==> 0 <= left && Covers(Edges(top, 0, 0, left), c, tolerance)
                                 && !ClearArea(c, left, top, 1, c.Height() - top, tolerance)
      decreases transparent, c.width - left
    {
      assert Inside(Edges(top, 0, 0, left + 1), c, x, top);
      left := left + 1;
      var look := Looks(c, left, top, 1, c.Height() - top, tolerance);
      transparent := look.value;
      if transparent {
        CutLeft(Edges(top, 0, 0, left), c, tolerance);
      }
    }
    assert Inside(Edges(top, 0, 0, left), c, x, top);
  }

  lemma CutBottom(e: Edges, c: Canvas, tolerance: real)
    requires c.Valid() && Covers(e, c, tolerance) && 0 <= e.left < c.width && e.right == 0
    requires ClearArea(c, e.left, c.Height() - e.bottom - 1, c.width - e.left, 1, tolerance)
    ensures Covers(e.(bottom := e.bottom + 1), c, tolerance)
  {
    forall x, y | 0 <= x < c.width && 0 <= y < c.Height() && Opaque(c, x, y, tolerance)
      ensures Inside(e.(bottom := e.bottom + 1), c, x, y)
    {
      assert Inside(e, c, x, y);
    }
  }

  method ScanBottom(c: Canvas, top: int, left: int, tolerance: real) returns (bottom: int)
    requires c.Valid() && 0 <= top < c.Height() && 0 <= left < c.width && RowOpaque(c, top, tolerance)
    requires Covers(Edges(top, 0, 0, left), c, tolerance)
    ensures 0 <= bottom && top + bottom < c.Height() && RowOpaque(c, c.Height() - 1 - bottom, tolerance)
    ensures Covers(Edges(top, 0, bottom, left), c, tolerance)
  {
    ghost var x :| 0 <= x < c.width && Opaque(c, x, top, tolerance);
    var transparent := true;
    bottom := -1;
    while transparent
      invariant -1 <= bottom
      invariant transparent ==> Covers(Edges(top, 0, bottom + 1, left), c, tolerance)
      invariant !transparent ==> 0 <= bottom && Covers(Edges(top, 0, bottom, left), c, tolerance)
                                 && !ClearArea(c, left, c.Height() - bottom - 1, c.width - left, 1, tolerance)
      decreases transparent, c.Height() - bottom
    {
      assert Inside(Edges(top, 0, bottom + 1, left), c, x, top);
      bottom := bottom + 1;
      var look := Looks(c, left, c.Height() - bottom - 1, c.width - left, 1, tolerance);
      transparent := look.value;
      if transparent {
        CutBottom(Edges(top, 0, bottom, left), c, tolerance);
      }
    }
    assert Inside(Edges(top, 0, bottom, left), c, x, top);
  }

  lemma CutRight(e: Edges, c: Canvas, tolerance: real)
    requires c.Valid() && Covers(e, c, tolerance) && e.top + e.bottom < c.Height()
    requires ClearArea(c, c.width - e.right - 1, e.top, 1, c.Height() - (e.top + e.bottom), tolerance)
    ensures Covers(e.(right := e.right + 1), c, tolerance)
  {
    forall x, y | 0 <= x < c.width && 0 <= y < c.Height() && Opaque(c, x, y, tolerance)
      ensures Inside(e.(right := e.right + 1), c, x, y)
    {
      assert Inside(e, c, x, y);
    }
  }

  method ScanRight(c: Canvas, e: Edges, tolerance: real) returns (right: int)
    requires c.Valid() && 0 <= e.top && 0 <= e.bottom && e.top + e.bottom < c.Height()
    requires 0 <= e.left < c.width && e.right == 0 && RowOpaque(c, e.top, tolerance)
    requires Covers(e, c, tolerance)
    ensures 0 <= right && e.left + right < c.width && ColumnOpaque(c, c.width - 1 - right, tolerance)
    ensures Covers(e.(right := right), c, tolerance)
  {
    ghost var x :| 0 <= x < c.width && Opaque(c, x, e.top, tolerance);
    var transparent := true;
    right := -1;
    while transparent
      invariant -1 <= right
      invariant transparent ==> Covers(e.(right := right + 1), c, tolerance)
      invariant !transparent ==> 0 <= right && Covers(e.(right := right), c, tolerance)
                                 && !ClearArea(c, c.width - right - 1, e.top, 1, c.Height() - (e.top + e.bottom),
                                     tolerance)
      decreases transparent, c.width - right
    {
      assert Inside(e.(right := right + 1), c, x, e.top);
      right := right + 1;
      var look := Looks(c, c.width - right - 1, e.top, 1, c.Height() - (e.top + e.bottom), tolerance);
      transparent := look.value;
      if transparent {
        CutRight(e.(right := right), c, tolerance);
      }
    }
    assert Inside(e.(right := right), c, x, e.top);
  }

  /** Each scan only looks inside the box the earlier ones left. It fails exactly when the
      image shows nothing, and otherwise finds the tight box, as four scans of the whole
      image would. */
  method Detect(c: Canvas, tolerance: real) returns (r: Result<Edges, Failure>)
    requires c.Valid()
    ensures r.Err? <==> Blank(c, tolerance)
    ensures r.Err? ==> r.error == if c.width == 0 then IndexSizeError else CannotDetectEdges
    ensures r.Ok? ==> Tight(r.value, c, tolerance)
    ensures r.Ok? ==> r.value == FullScans(c, tolerance)
  {
    var top :- ScanTop(c, tolerance);
    var left := ScanLeft(c, top, tolerance);
    var bottom := ScanBottom(c, top, left, tolerance);
    var right := ScanRight(c, Edges(top, 0, bottom, left), tolerance);
    var edges := Edges(top, right, bottom, left);
    assert Edges(top, 0, bottom, left).(right := right) == edges;
    TightIsFullScans(edges, c, tolerance);
    return Ok(edges);
  }
}
