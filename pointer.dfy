/** Conversion of a pointer position in window pixels to normalised device coordinates,
  * the form the ray caster takes: x runs from -1 at the left edge to 1 at the right,
  * y from 1 at the top edge to -1 at the bottom. */
module Pointer {

  /** A pointer position in window pixels, measured from the top-left corner. */
  datatype ClientPoint = ClientPoint(x: real, y: real)

  /** A pointer position in normalised device coordinates. */
  datatype Ndc = Ndc(x: real, y: real)

  /** Pixels to device coordinates, for a window of the given size. */
  function ToNdc(c: ClientPoint, width: real, height: real): (p: Ndc)
    requires width > 0.0 && height > 0.0
    ensures 0.0 <= c.x <= width ==> -1.0 <= p.x <= 1.0
    ensures 0.0 <= c.y <= height ==> -1.0 <= p.y <= 1.0
  {
    Ndc((c.x / width) * 2.0 - 1.0, -(c.y / height) * 2.0 + 1.0)
  }

  /** Device coordinates back to pixels: the inverse of `ToNdc`. */
  function FromNdc(p: Ndc, width: real, height: real): (c: ClientPoint)
    ensures -1.0 <= p.x <= 1.0 && width >= 0.0 ==> 0.0 <= c.x <= width
    ensures -1.0 <= p.y <= 1.0 && height >= 0.0 ==> 0.0 <= c.y <= height
  {
    var fx, fy := (p.x + 1.0) / 2.0, (1.0 - p.y) / 2.0;  // fractions of the width and height
    FractionOf(fx, width);
    FractionOf(fy, height);
    ClientPoint(fx * width, fy * height)
  }

  lemma FractionOf(t: real, w: real)
    ensures 0.0 <= t <= 1.0 && w >= 0.0 ==> 0.0 <= t * w <= w
  {
    if 0.0 <= t <= 1.0 && w >= 0.0 {
      assert t * w <= 1.0 * w;
    }
  }

  /** No pointer information is lost by the conversion. */
  lemma NdcRoundTrip(c: ClientPoint, width: real, height: real)
    requires width > 0.0 && height > 0.0
    ensures FromNdc(ToNdc(c, width, height), width, height) == c
  {
    var p := ToNdc(c, width, height);
    assert (p.x + 1.0) / 2.0 == c.x / width;
    assert (1.0 - p.y) / 2.0 == c.y / height;
  }

  /** The window's corners: the top-left pixel is (-1, 1), the bottom-right one is (1, -1). */
  lemma NdcCorners(width: real, height: real)
    requires width > 0.0 && height > 0.0
    ensures ToNdc(ClientPoint(0.0, 0.0), width, height) == Ndc(-1.0, 1.0)
    ensures ToNdc(ClientPoint(width, height), width, height) == Ndc(1.0, -1.0)
  {
    assert width / width == 1.0 && height / height == 1.0;
  }

  /** Moving right increases x; moving down decreases y (the vertical axis is flipped). */
  lemma NdcOrientation(a: ClientPoint, b: ClientPoint, width: real, height: real)
    requires width > 0.0 && height > 0.0
    ensures a.x < b.x ==> ToNdc(a, width, height).x < ToNdc(b, width, height).x
    ensures a.y < b.y ==> ToNdc(a, width, height).y > ToNdc(b, width, height).y
  {
    if a.x < b.x {
      assert a.x / width < b.x / width;
    }
    if a.y < b.y {
      assert a.y / height < b.y / height;
    }
  }
}
