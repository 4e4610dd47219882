/** The edge bitset written by the focus/edge callback: one bit saying that
    the element intersects the reference region, and four side bits saying
    which edges of the element stick out past that region. */
module Edges {

  /** A rectangle as the host reports it (a root's bounds or an element's
      bounding client rectangle). Only comparisons are ever made on the
      coordinates, so they are exact reals here. */
  datatype Rect = Rect(top: real, right: real, bottom: real, left: real)

  /** The bit layout of the mask. The source combines these with the
      JavaScript `|` operator, which works on 32-bit integers. */
  const FOCUS: bv32 := 0x10
  const TOP: bv32 := 0x08
  const RIGHT: bv32 := 0x04
  const BOTTOM: bv32 := 0x02
  const LEFT: bv32 := 0x01

  /** The five flags a mask encodes, one per named bit. */
  datatype Sides = Sides(focus: bool, top: bool, right: bool, bottom: bool, left: bool)

  /** Whether bit `b` is set in `mask`. */
  predicate HasBit(mask: bv32, b: bv32) {
    mask & b != 0
  }

  /** The geometric meaning of each flag: the element intersects, and each
      of its edges lies beyond the corresponding edge of the root bounds. */
  function SidesOf(isIntersecting: bool, root: Rect, rect: Rect): Sides {
    Sides(isIntersecting,
          root.top > rect.top,
          root.right < rect.right,
          root.bottom < rect.bottom,
          root.left > rect.left)
  }

  /** Packs the flags into the raw integer a consumer sees. */
  function Encode(s: Sides): (mask: bv32)
    ensures mask < 32
  {
    (if s.focus then FOCUS else 0) | (if s.top then TOP else 0) |
    (if s.right then RIGHT else 0) | (if s.bottom then BOTTOM else 0) |
    (if s.left then LEFT else 0)
  }

  /** Reads the flags back from a raw mask through the named bit accessors. */
  function Decode(mask: bv32): Sides {
    Sides(HasBit(mask, FOCUS), HasBit(mask, TOP), HasBit(mask, RIGHT),
          HasBit(mask, BOTTOM), HasBit(mask, LEFT))
  }

  /** Every set of flags survives encoding. */
  lemma DecodeEncode(s: Sides)
    ensures Decode(Encode(s)) == s
  {
  }

  /** Every mask below 32 is the encoding of its own flags, so the five
      bits carry no more and no less than a `Sides` value. */
  lemma EncodeDecode(mask: bv32)
    requires mask < 32
    ensures Encode(Decode(mask)) == mask
  {
  }

  /** The mask for one report with root bounds: the flags of `SidesOf`,
      packed. */
  function EdgeMask(isIntersecting: bool, root: Rect, rect: Rect): (mask: bv32)
    ensures mask < 32
    ensures Decode(mask) == SidesOf(isIntersecting, root, rect)
  {
    var s := SidesOf(isIntersecting, root, rect);
    DecodeEncode(s);
    Encode(s)
  }

  /** The value stored in a record's `focus` field: the mask as a number. */
  function EdgeValue(isIntersecting: bool, root: Rect, rect: Rect): (v: int)
    ensures 0 <= v < 32
    ensures HasBit(v as bv32, FOCUS) <==> isIntersecting
    ensures HasBit(v as bv32, TOP) <==> root.top > rect.top
    ensures HasBit(v as bv32, RIGHT) <==> root.right < rect.right
    ensures HasBit(v as bv32, BOTTOM) <==> root.bottom < rect.bottom
    ensures HasBit(v as bv32, LEFT) <==> root.left > rect.left
  {
    var m := EdgeMask(isIntersecting, root, rect);
    assert (m as int) as bv32 == m;
    m as int
  }

  /** An element exactly filling the root region, and intersecting it, gets
      the focus bit alone. */
  lemma ExactFillIsFocusOnly(r: Rect)
    ensures EdgeValue(true, r, r) == 0x10
  {
  }

  /** An element whose right edge is at 310 against a root whose right edge
      is at 300 gets the right bit, whatever else holds. */
  lemma RightOverhangSetsRight(isIntersecting: bool, root: Rect, rect: Rect)
    requires root.right == 300.0 && rect.right == 310.0
    ensures HasBit(EdgeValue(isIntersecting, root, rect) as bv32, RIGHT)
  {
  }
}
