/** Where a popup is placed next to its target, whether the target is already
    in view, and where the window scrolls to bring it into view. Rectangles
    are viewport coordinates as `getBoundingClientRect` reports them. */
module Placement {

  datatype Side = Top | Bottom | Left | Right | Center

  /** A measured box: `top`, `left`, `width`, `height`. */
  datatype Rect = Rect(top: real, left: real, width: real, height: real) {
    function Bottom(): real { top + height }
    function Right(): real { left + width }
  }

  /** `innerWidth`, `innerHeight` and the current vertical scroll offset. */
  datatype Viewport = Viewport(width: real, height: real, scrollTop: real)

  /** The `top` and `left` written into the popup's style. */
  datatype Point = Point(top: real, left: real)

  /** Gap between the popup and its target. */
  const Gap: real := 12.0

  /** Margin kept from the viewport edges by the clamping. */
  const Margin: real := 10.0

  function Max0(x: real): (r: real)
    ensures r >= 0.0 && r >= x
    ensures x >= 0.0 ==> r == x
    ensures x < 0.0 ==> r == 0.0
  {
    if x < 0.0 then 0.0 else x
  }

  /** The spot chosen for each side before clamping: `Gap` away from the
      target on that side and centred along it; `Center` centres the popup in
      the viewport. */
  function Anchor(side: Side, target: Rect, w: real, h: real, vp: Viewport): (p: Point)
    ensures side == Top ==> p.top + h + Gap == target.top
    ensures side == Bottom ==> p.top == target.Bottom() + Gap
    ensures side == Left ==> p.left + w + Gap == target.left
    ensures side == Right ==> p.left == target.Right() + Gap
    ensures (side == Top || side == Bottom) ==> p.left + w / 2.0 == target.left + target.width / 2.0
    ensures (side == Left || side == Right) ==> p.top + h / 2.0 == target.top + target.height / 2.0
    ensures side == Center ==> p.left + w / 2.0 == vp.width / 2.0 && p.top + h / 2.0 == vp.height / 2.0
  {
    match side
    case Top => Point(target.top - h - Gap, target.left + (target.width - w) / 2.0)
    case Bottom => Point(target.Bottom() + Gap, target.left + (target.width - w) / 2.0)
    case Left => Point(target.top + (target.height - h) / 2.0, target.left - w - Gap)
    case Right => Point(target.top + (target.height - h) / 2.0, target.Right() + Gap)
    case Center => Point(vp.height / 2.0 - h / 2.0, vp.width / 2.0 - w / 2.0)
  }

  /** One axis of the clamping: first up to the near margin, then back from
      the far margin, which wins when the popup is too large. */
  function ClampAxis(start: real, size: real, extent: real): real {
    var s1 := if start < Margin then Margin else start;
    if s1 + size > extent - Margin then extent - size - Margin else s1
  }

  /** The offsets `positionPopup` writes: the clamped anchor, never negative. */
  function Placed(side: Side, target: Rect, w: real, h: real, vp: Viewport): Point {
    var a := Anchor(side, target, w, h, vp);
    Point(Max0(ClampAxis(a.top, h, vp.height)), Max0(ClampAxis(a.left, w, vp.width)))
  }

  /** The placement is never at a negative offset; a popup that fits inside
      the margins lies between them; an anchor already inside them is kept;
      an anchor past the far margin is pulled back to it. */
  lemma PlacedBounds(side: Side, target: Rect, w: real, h: real, vp: Viewport)
    ensures var p := Placed(side, target, w, h, vp);
            var a := Anchor(side, target, w, h, vp);
            && p.top >= 0.0 && p.left >= 0.0
            && (w <= vp.width - 2.0 * Margin ==> Margin <= p.left <= vp.width - w - Margin)
            && (h <= vp.height - 2.0 * Margin ==> Margin <= p.top <= vp.height - h - Margin)
            && (Margin <= a.left <= vp.width - w - Margin ==> p.left == a.left)
            && (Margin <= a.top <= vp.height - h - Margin ==> p.top == a.top)
            && (a.left + w > vp.width - Margin ==> p.left == Max0(vp.width - w - Margin))
            && (a.top + h > vp.height - Margin ==> p.top == Max0(vp.height - h - Margin))
  {
  }

  /** `positionPopup`, reassigning `top` and `left` step by step. */
  method PositionPopup(side: Side, target: Rect, w: real, h: real, vp: Viewport) returns (p: Point)
    ensures p == Placed(side, target, w, h, vp)
  {
    var a := Anchor(side, target, w, h, vp);
    var top := a.top;
    var left := a.left;
    if left < Margin {
      left := Margin;
    }
    if left + w > vp.width - Margin {
      left := vp.width - w - Margin;
    }
    if top < Margin {
      top := Margin;
    }
    if top + h > vp.height - Margin {
      top := vp.height - h - Margin;
    }
    p := Point(Max0(top), Max0(left));
  }

  /** `isElementInViewport`. */
  predicate IsElementInViewport(r: Rect, vp: Viewport) {
    r.top >= 0.0 && r.Bottom() <= vp.height && r.left >= 0.0 && r.Right() <= vp.width
  }

  /** A popup that fits inside the margins is placed wholly in view. */
  lemma PlacedPopupIsInView(side: Side, target: Rect, w: real, h: real, vp: Viewport)
    requires 0.0 <= w <= vp.width - 2.0 * Margin && 0.0 <= h <= vp.height - 2.0 * Margin
    ensures var p := Placed(side, target, w, h, vp);
            IsElementInViewport(Rect(p.top, p.left, w, h), vp)
  {
    PlacedBounds(side, target, w, h, vp);
  }

  /** The scroll offset `scrollToTargetAndPositionPopup` aims for, before the
      `max(0, .)`: the target 150px below the top for a popup below it, 150px
      above the bottom for a popup above it, centred otherwise. */
  function UnclampedScrollTarget(side: Side, target: Rect, vp: Viewport): real {
    var targetTop := target.top + vp.scrollTop;
    if side == Bottom then targetTop - 150.0
    else if side == Top then targetTop + target.height - vp.height + 150.0
    else targetTop - vp.height / 2.0 + target.height / 2.0
  }

  /** The scroll offset aimed for: never negative. */
  function ScrollTarget(side: Side, target: Rect, vp: Viewport): (r: real)
    ensures r >= 0.0
  {
    Max0(UnclampedScrollTarget(side, target, vp))
  }

  /** Where the target sits in the viewport once the window has scrolled to
      `scrollTop` (the page itself does not move). */
  function TopAfterScroll(target: Rect, vp: Viewport, scrollTop: real): real {
    target.top + vp.scrollTop - scrollTop
  }

  /** When the aim needs no clamping, scrolling there puts the target where
      each side wants it. */
  lemma ScrollTargetPlacesTarget(side: Side, target: Rect, vp: Viewport)
    requires UnclampedScrollTarget(side, target, vp) >= 0.0
    ensures var t := TopAfterScroll(target, vp, ScrollTarget(side, target, vp));
            && (side == Bottom ==> t == 150.0)
            && (side == Top ==> t + target.height == vp.height - 150.0)
            && (side != Bottom && side != Top ==> t + target.height / 2.0 == vp.height / 2.0)
  {
  }

  /** `smoothScrollTo` only moves the window for a change of more than 10px
      (the horizontal offset is never changed). */
  predicate ScrollIsSignificant(targetTop: real, vp: Viewport) {
    targetTop - vp.scrollTop > 10.0 || vp.scrollTop - targetTop > 10.0
  }

  /** The check 100ms after placement: a popup below its target is placed
      again when its top is less than 50px below the target's bottom. */
  predicate NeedsRecheck(side: Side, popupTop: real, target: Rect) {
    side == Bottom && popupTop < target.Bottom() + 50.0
  }

  /** Whenever the bottom anchor needs no clamping, the check fires: the gap
      is 12px, so the popup is always less than 50px below the target, and
      placing it again for the same measurements yields the same spot. */
  lemma RecheckAlwaysFiresBelow(target: Rect, w: real, h: real, vp: Viewport)
    requires var a := Anchor(Bottom, target, w, h, vp);
             Margin <= a.left <= vp.width - w - Margin && Margin <= a.top <= vp.height - h - Margin
    ensures NeedsRecheck(Bottom, Placed(Bottom, target, w, h, vp).top, target)
  {
    PlacedBounds(Bottom, target, w, h, vp);
  }
}
