/** The logical rectangle of the screenshot portal (`Rect` in
    src/screenshot.rs): four edges in logical coordinates. It has a module
    of its own because src/app.rs and src/widget/rectangle_selection.rs
    use it while src/screenshot.rs uses them. */
module ScreenshotRect {
  import opened Wrappers

  const I32_MIN: int := -0x8000_0000
  const I32_MAX: int := 0x7fff_ffff

  datatype Rect = Rect(left: int, top: int, right: int, bottom: int)

  /** `Rect::default()`. */
  const ZERO: Rect := Rect(0, 0, 0, 0)

  function Min(a: int, b: int): int { if a <= b then a else b }

  function Max(a: int, b: int): int { if a >= b then a else b }

  function Abs(a: int): nat { if a < 0 then -a else a }

  /** `inner`'s edges lie within `outer`'s. */
  predicate Contains(outer: Rect, inner: Rect)
  {
    outer.left <= inner.left && outer.top <= inner.top
    && inner.right <= outer.right && inner.bottom <= outer.bottom
  }

  /** The point (x, y) lies in `r`, right and bottom edges excluded. */
  predicate HasPoint(r: Rect, x: int, y: int)
  {
    r.left <= x < r.right && r.top <= y < r.bottom
  }

  /** `intersect`: the overlap, when it is not empty. It lies in both
      rectangles and holds every rectangle that lies in both. */
  function Intersect(a: Rect, b: Rect): (r: Option<Rect>)
    ensures r.Some? <==>
      Max(a.left, b.left) < Min(a.right, b.right) && Max(a.top, b.top) < Min(a.bottom, b.bottom)
    ensures r.Some? ==> Contains(a, r.value) && Contains(b, r.value)
    ensures r.Some? ==> forall c :: Contains(a, c) && Contains(b, c) ==> Contains(r.value, c)
  {
    var left := Max(a.left, b.left);
    var top := Max(a.top, b.top);
    var right := Min(a.right, b.right);
    var bottom := Min(a.bottom, b.bottom);
    if left < right && top < bottom then Some(Rect(left, top, right, bottom)) else None
  }

  /** The overlap does not depend on the order of the operands. */
  lemma IntersectCommutes(a: Rect, b: Rect)
    ensures Intersect(a, b) == Intersect(b, a)
  {
  }

  /** A point is in the overlap exactly when it is in both rectangles, and
      when there is no overlap no point is in both. */
  lemma IntersectPoints(a: Rect, b: Rect, x: int, y: int)
    ensures Intersect(a, b).Some? ==>
      (HasPoint(Intersect(a, b).value, x, y) <==> HasPoint(a, x, y) && HasPoint(b, x, y))
    ensures Intersect(a, b).None? ==> !(HasPoint(a, x, y) && HasPoint(b, x, y))
  {
  }

  /** `translate`: every edge shifted by (x, y). */
  function Translate(r: Rect, x: int, y: int): (t: Rect)
    ensures Width(t) == Width(r) && Height(t) == Height(r)
    ensures t.left - r.left == x && t.top - r.top == y
  {
    Rect(r.left + x, r.top + y, r.right + x, r.bottom + y)
  }

  /** Translating back undoes a translation, and a point moves with the
      rectangle. */
  lemma TranslateInverse(r: Rect, x: int, y: int, px: int, py: int)
    ensures Translate(Translate(r, x, y), -x, -y) == r
    ensures HasPoint(Translate(r, x, y), px + x, py + y) <==> HasPoint(r, px, py)
  {
  }

  function Width(r: Rect): int { r.right - r.left }

  function Height(r: Rect): int { r.bottom - r.top }

  /** `dimensions`: the absolute width and height, both non-zero, or None
      when either is zero. */
  function Dimensions(r: Rect): (d: Option<(nat, nat)>)
    ensures d.None? <==> Width(r) == 0 || Height(r) == 0
    ensures d.Some? ==> d.value.0 > 0 && d.value.1 > 0
    ensures d.Some? ==> d.value.0 == Abs(r.right - r.left) && d.value.1 == Abs(r.bottom - r.top)
  {
    if Width(r) == 0 || Height(r) == 0 then None else Some((Abs(Width(r)), Abs(Height(r))))
  }

  /** A rectangle and the same rectangle flipped have the same dimensions. */
  lemma DimensionsIgnoreOrientation(r: Rect)
    ensures Dimensions(Rect(r.right, r.bottom, r.left, r.top)) == Dimensions(r)
  {
  }

  /** `i32::saturating_add`: the sum, clamped to the i32 range. */
  function SaturatingAdd(a: int, b: int): (s: int)
    ensures I32_MIN <= a + b <= I32_MAX ==> s == a + b
    ensures a + b > I32_MAX ==> s == I32_MAX
    ensures a + b < I32_MIN ==> s == I32_MIN
  {
    if a + b > I32_MAX then I32_MAX else if a + b < I32_MIN then I32_MIN else a + b
  }

  /** The smallest edges around both: the min of the left and top edges,
      the max of the right and bottom ones. */
  function Hull(a: Rect, b: Rect): (h: Rect)
    ensures Contains(h, a) && Contains(h, b)
    ensures forall c :: Contains(c, a) && Contains(c, b) ==> Contains(c, h)
  {
    Rect(Min(a.left, b.left), Min(a.top, b.top), Max(a.right, b.right), Max(a.bottom, b.bottom))
  }
}
