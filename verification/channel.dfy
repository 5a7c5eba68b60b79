/** The platform-channel form of a rectangle: the list
    [left, top, width, height]. The native code converts each coordinate
    of a 32-bit `RECT` to a double before subtracting; such values and
    their differences are exact in a double, so integers model them
    without loss. */
module Channel {
  import opened Wrappers
  import opened Win32

  function RectToList(rect: Rect): (l: seq<int>)
    ensures |l| == 4
    ensures l[0] == rect.left && l[1] == rect.top
    ensures l[0] + l[2] == rect.right && l[1] + l[3] == rect.bottom
  {
    [rect.left, rect.top, rect.right - rect.left, rect.bottom - rect.top]
  }

  /** The reading the host side makes of such a list: a rectangle from an
      origin and an extent, or None when the list is not four numbers. */
  function ListToRect(l: seq<int>): (r: Option<Rect>)
    ensures r.Some? <==> |l| == 4
  {
    if |l| == 4 then Some(Rect(l[0], l[1], l[0] + l[2], l[1] + l[3])) else None
  }

  lemma RectListRoundTrip(rect: Rect)
    ensures ListToRect(RectToList(rect)) == Some(rect)
  {
  }

  lemma ListRectRoundTrip(l: seq<int>, rect: Rect)
    requires ListToRect(l) == Some(rect)
    ensures RectToList(rect) == l
  {
  }
}
