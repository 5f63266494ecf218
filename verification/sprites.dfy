/**
 The label sprite and its anchor placement. Pixels are opaque: an image is
 represented by what was drawn into it and the plan that sized it. Positions
 are exact reals, and the y axis points up, so the top edge of a sprite lies
 above its centre.
 */
module Sprites {
  import opened Basics
  import opened Layout

  /** The shrunk RGBA image of the text: what was drawn, with which font
      (identified by the file name it was loaded from, and the integer point
      size it was loaded at) and how it was sized. Its size is `plan.final`. */
  datatype Image = Image(text: string, color: Color, align: string,
                         font: Option<string>, pointSize: int, plan: Plan)

  /** A sprite, reduced to the fields `draw_text` reads or assigns. */
  datatype Sprite = Sprite(image: Image, textureName: string,
                           width: int, height: int,
                           centerX: real, centerY: real, angle: real)
  {
    function Left(): real { centerX - width as real / 2.0 }
    function Right(): real { centerX + width as real / 2.0 }
    function Bottom(): real { centerY - height as real / 2.0 }
    function Top(): real { centerY + height as real / 2.0 }
  }

  /** The two copies of the placement code: the cache-hit branch and the
      cache-miss branch. They differ for a "top" anchor. */
  datatype Path = CacheHit | CacheMiss

  predicate ValidAnchorX(anchor: string) {
    anchor == "left" || anchor == "center" || anchor == "right"
  }

  predicate ValidAnchorY(anchor: string) {
    anchor == "top" || anchor == "center" || anchor == "bottom" || anchor == "baseline"
  }

  /** The `ValueError` text; both checks use the anchor_x wording. */
  function AnchorMessage(value: string): string {
    "anchor_x should be 'left', 'center', or 'right'. Not '" + value + "'"
  }

  /** What a valid horizontal anchor promises about the placed sprite. */
  predicate XPlaced(anchor: string, x: real, s: Sprite) {
    && (anchor == "left" ==> s.Left() == x)
    && (anchor == "center" ==> s.centerX == x)
    && (anchor == "right" ==> s.Right() == x)
  }

  /** What a valid vertical anchor gives on each path: on the cache-miss path
      "top" puts the bottom edge, not the top edge, at `y`. */
  predicate YPlaced(path: Path, anchor: string, y: real, s: Sprite) {
    && (anchor == "center" ==> s.centerY == y)
    && (anchor == "bottom" || anchor == "baseline" ==> s.Bottom() == y)
    && (anchor == "top" && path == CacheHit ==> s.Top() == y)
    && (anchor == "top" && path == CacheMiss ==> s.Bottom() == y)
  }

  /** The anchor_x chain: sets `center_x`, or the right edge through the
      sprite's `right` setter, or fails. */
  function PlaceX(s: Sprite, anchor: string, x: real): (r: Option<Sprite>)
    ensures r.Some? <==> ValidAnchorX(anchor)
    ensures r.Some? ==> XPlaced(anchor, x, r.value)
    ensures r.Some? ==> r.value == s.(centerX := r.value.centerX)
  {
    if anchor == "left" then Some(s.(centerX := x + s.width as real / 2.0))
    else if anchor == "center" then Some(s.(centerX := x))
    else if anchor == "right" then Some(s.(centerX := x - s.width as real / 2.0))
    else None
  }

  /** The anchor_y chain of either path: sets `center_y`, or the bottom edge
      through the sprite's `bottom` setter, or fails. */
  function PlaceY(path: Path, s: Sprite, anchor: string, y: real): (r: Option<Sprite>)
    ensures r.Some? <==> ValidAnchorY(anchor)
    ensures r.Some? ==> YPlaced(path, anchor, y, r.value)
    ensures r.Some? ==> r.value == s.(centerY := r.value.centerY)
  {
    var half := s.height as real / 2.0;
    if anchor == "top" then
      (match path
       case CacheHit => Some(s.(centerY := y - half))
       case CacheMiss => Some(s.(centerY := y + half)))
    else if anchor == "center" then Some(s.(centerY := y))
    else if anchor == "bottom" || anchor == "baseline" then Some(s.(centerY := y + half))
    else None
  }

  /** The sprite after the placement statements that ran, and the
      `ValueError` message if one of them raised. */
  datatype Placement = Placement(sprite: Sprite, error: Option<string>)

  /**
   Anchor placement: anchor_x first, then anchor_y, then the angle. A raise
   stops the sequence, so assignments already made stay made.
   */
  function Place(path: Path, s: Sprite, anchorX: string, anchorY: string,
                 x: real, y: real, rotation: real): (r: Placement)
    ensures r.error.None? <==> ValidAnchorX(anchorX) && ValidAnchorY(anchorY)
    ensures !ValidAnchorX(anchorX) ==> r == Placement(s, Some(AnchorMessage(anchorX)))
    ensures ValidAnchorX(anchorX) && !ValidAnchorY(anchorY) ==>
              && r.error == Some(AnchorMessage(anchorY))
              && r.sprite == s.(centerX := r.sprite.centerX)
              && XPlaced(anchorX, x, r.sprite)
    ensures r.error.None? ==>
              && r.sprite == s.(centerX := r.sprite.centerX, centerY := r.sprite.centerY, angle := rotation)
              && XPlaced(anchorX, x, r.sprite)
              && YPlaced(path, anchorY, y, r.sprite)
  {
    match PlaceX(s, anchorX, x)
    case None => Placement(s, Some(AnchorMessage(anchorX)))
    case Some(sx) =>
      match PlaceY(path, sx, anchorY, y)
      case None => Placement(sx, Some(AnchorMessage(anchorY)))
      case Some(sy) => Placement(sy.(angle := rotation), None)
  }

  /** A successful placement forgets where the sprite was and how it was
      turned before: only its size and the request decide the result. */
  lemma PlacementForgetsOldPosition(path: Path, s: Sprite, t: Sprite, anchorX: string,
                                    anchorY: string, x: real, y: real, rotation: real)
    requires s == t.(centerX := s.centerX, centerY := s.centerY, angle := s.angle)
    requires ValidAnchorX(anchorX) && ValidAnchorY(anchorY)
    ensures Place(path, s, anchorX, anchorY, x, y, rotation).sprite
         == Place(path, t, anchorX, anchorY, x, y, rotation).sprite
  {
  }

  /** The two copies agree on every anchor pair except a "top" anchor_y. */
  lemma PathsAgreeOffTop(s: Sprite, anchorX: string, anchorY: string,
                         x: real, y: real, rotation: real)
    requires anchorY != "top"
    ensures Place(CacheHit, s, anchorX, anchorY, x, y, rotation)
         == Place(CacheMiss, s, anchorX, anchorY, x, y, rotation)
  {
  }

  /** For "top" the copies disagree by the full sprite height, and the
      cache-miss copy places the sprite exactly as "bottom" does. */
  lemma TopAnchorDiffers(s: Sprite, anchorX: string, x: real, y: real, rotation: real)
    requires ValidAnchorX(anchorX)
    ensures var hit := Place(CacheHit, s, anchorX, "top", x, y, rotation).sprite;
            var miss := Place(CacheMiss, s, anchorX, "top", x, y, rotation).sprite;
            && miss.centerY - hit.centerY == s.height as real
            && miss == Place(CacheMiss, s, anchorX, "bottom", x, y, rotation).sprite
            && hit.Top() == y
  {
  }
}
