/**
 `draw_text` as a transition over the label cache. The cache, a function
 attribute in the program, is explicit state here: each call takes the cache
 and returns the next one, with what was drawn or the `ValueError` raised,
 and with what the call asked of the font backend.
 */
module DrawText {
  import opened Basics
  import opened Layout
  import opened Sprites
  import opened Fonts
  import opened Requests

  /** The `Text` record: `size` is never assigned after construction, and
      its sprite list always holds exactly one sprite. */
  datatype Label = Label(size: Size, sprite: Sprite)

  type Cache = map<string, Label>

  /** A cache holding more entries than this is emptied at the next call. */
  const FlushLimit: int := 5000

  /** The backend oracles: font loading, multi-line text measurement with a
      font at a point size (or with the backend's default when no font is
      held), and the string forms used in the key. */
  datatype Env = Env(loads: Loader, measure: (string, Option<string>, int) -> Size,
                     fmt: Formatter)

  /** What a call asked of the backend: the font files it tried to load, in
      order, and whether it measured and rasterised the text. */
  datatype Effects = Effects(attempts: seq<string>, rasterized: bool)

  const NoEffects := Effects([], false)

  datatype Outcome = Drawn(sprite: Sprite) | ValueError(message: string)

  datatype Transition = Transition(cache: Cache, outcome: Outcome, effects: Effects)

  /** The size check at the start of every call. */
  function Flush(cache: Cache): (r: Cache)
    ensures |r| <= FlushLimit
    ensures r == cache || r == map[]
  {
    if |cache| > FlushLimit then map[] else cache
  }

  /** A request's sprite is placed as its anchors promise on `path`. */
  predicate Placed(path: Path, req: Request, s: Sprite) {
    && XPlaced(req.anchorX, req.startX, s)
    && YPlaced(path, req.anchorY, req.startY, s)
    && s.angle == req.rotation
  }

  /** The message of the anchor check that fails first. */
  function FirstBadAnchor(req: Request): string {
    if !ValidAnchorX(req.anchorX) then req.anchorX else req.anchorY
  }

  /** Every label's sprite is named after its key, and no label's size was
      ever set. */
  predicate WellFormed(cache: Cache) {
    forall k | k in cache :: cache[k].sprite.textureName == k && cache[k].size == Size(0, 0)
  }

  /**
   The cache-hit branch. It touches no font, measures nothing and draws no
   new image: only the stored sprite's position and angle change, in place,
   so a `ValueError` from anchor_y leaves the new `center_x` behind.
   */
  function Hit(cache: Cache, key: string, req: Request): (r: Transition)
    requires key in cache
    ensures r.effects == NoEffects
    ensures |r.cache| == |cache|
    ensures WellFormed(cache) ==> WellFormed(r.cache)
    ensures r.cache.Keys == cache.Keys
    ensures forall k | k in cache && k != key :: r.cache[k] == cache[k]
    ensures var before := cache[key].sprite; var after := r.cache[key].sprite;
            && r.cache[key].size == cache[key].size
            && after == before.(centerX := after.centerX, centerY := after.centerY, angle := after.angle)
    ensures r.outcome.ValueError? <==> !ValidAnchorX(req.anchorX) || !ValidAnchorY(req.anchorY)
    ensures r.outcome.ValueError? ==> r.outcome.message == AnchorMessage(FirstBadAnchor(req))
    ensures !ValidAnchorX(req.anchorX) ==> r.cache == cache
    ensures ValidAnchorX(req.anchorX) && !ValidAnchorY(req.anchorY) ==>
              && XPlaced(req.anchorX, req.startX, r.cache[key].sprite)
              && r.cache[key].sprite.centerY == cache[key].sprite.centerY
              && r.cache[key].sprite.angle == cache[key].sprite.angle
    ensures r.outcome.Drawn? ==>
              r.outcome.sprite == r.cache[key].sprite && Placed(CacheHit, req, r.outcome.sprite)
  {
    var entry := cache[key];
    var p := Place(CacheHit, entry.sprite, req.anchorX, req.anchorY,
                   req.startX, req.startY, req.rotation);
    var next := cache[key := entry.(sprite := p.sprite)];
    assert p.error.Some? && !ValidAnchorX(req.anchorX) ==> next == cache;
    assert next.Keys == cache.Keys;
    match p.error
    case Some(message) => Transition(next, ValueError(message), NoEffects)
    case None => Transition(next, Drawn(p.sprite), NoEffects)
  }

  /**
   The new, not yet placed sprite of the cache-miss branch: resolve the font,
   measure the text with it at the supersampled point size truncated toward
   zero, lay it out, rasterise and shrink. The sprite is named after the key
   and its image draws the request's text, colour and alignment with the
   font the search settled on: one that loaded, or none only when no
   fallback font loads. Its height
   is the measured height shrunk by 5; its width is the measured width
   shrunk by 5, the field width itself when centred in a field, and the
   field width shrunk by 5 otherwise.
   */
  function Render(env: Env, key: string, req: Request): (s: Sprite)
    ensures s.textureName == key
    ensures s.image.text == req.text && s.image.color == req.color && s.image.align == req.align
    ensures s.image.font == Resolve(env.loads, req.fontName).font
    ensures s.image.font.Some? ==> env.loads(s.image.font.value)
    ensures s.image.font.None? ==> forall i | 0 <= i < |DefaultFonts| :: !env.loads(DefaultFonts[i])
    ensures ScaledFontSize(req.fontSize) >= 0.0 ==>
              s.image.pointSize as real <= ScaledFontSize(req.fontSize) < s.image.pointSize as real + 1.0
    ensures ScaledFontSize(req.fontSize) < 0.0 ==>
              s.image.pointSize as real - 1.0 < ScaledFontSize(req.fontSize) <= s.image.pointSize as real
    ensures s.image.plan == PlanImage(env.measure(req.text, s.image.font, s.image.pointSize), req.width, req.align)
    ensures s.width == s.image.plan.final.w && s.height == s.image.plan.final.h
    ensures var m := env.measure(req.text, s.image.font, s.image.pointSize);
            && IsFloorDiv(s.height, m.h, ScaleDown)
            && (req.width == 0 ==> IsFloorDiv(s.width, m.w, ScaleDown))
            && (req.width != 0 && req.align == "center" ==> s.width == req.width)
            && (req.width != 0 && req.align != "center" ==> IsFloorDiv(s.width, req.width, ScaleDown))
  {
    var search := Resolve(env.loads, req.fontName);
    var font := search.font;
    var size := PointSize(req.fontSize);
    var plan := PlanImage(env.measure(req.text, font, size), req.width, req.align);
    var image := Image(req.text, req.color, req.align, font, size, plan);
    assert font.None? ==> forall i | 0 <= i < |DefaultFonts| ::
      DefaultFonts[i] == search.tried[|search.tried| - |DefaultFonts| + i];
    Sprite(image, key, plan.final.w, plan.final.h, 0.0, 0.0, 0.0)
  }

  /**
   The cache-miss branch. The font search, measurement and rasterisation all
   happen before the anchors are checked; an invalid anchor then raises and
   nothing is stored. Otherwise exactly one label is added, under `key`,
   holding the rendered sprite placed by the cache-miss anchor code.
   */
  function Miss(env: Env, cache: Cache, key: string, req: Request): (r: Transition)
    requires key !in cache
    ensures r.effects == Effects(Resolve(env.loads, req.fontName).tried, true)
    ensures |r.cache| <= |cache| + 1
    ensures forall k | k in cache :: k in r.cache && r.cache[k] == cache[k]
    ensures WellFormed(cache) ==> WellFormed(r.cache)
    ensures r.outcome.ValueError? <==> !ValidAnchorX(req.anchorX) || !ValidAnchorY(req.anchorY)
    ensures r.outcome.ValueError? ==>
              r.cache == cache && r.outcome.message == AnchorMessage(FirstBadAnchor(req))
    ensures r.outcome.Drawn? ==>
              && r.cache == cache[key := Label(Size(0, 0), r.outcome.sprite)]
              && |r.cache| == |cache| + 1
              && Placed(CacheMiss, req, r.outcome.sprite)
              && r.outcome.sprite == Render(env, key, req).(centerX := r.outcome.sprite.centerX,
                                                            centerY := r.outcome.sprite.centerY,
                                                            angle := req.rotation)
  {
    var effects := Effects(Resolve(env.loads, req.fontName).tried, true);
    var p := Place(CacheMiss, Render(env, key, req), req.anchorX, req.anchorY,
                   req.startX, req.startY, req.rotation);
    match p.error
    case Some(message) => Transition(cache, ValueError(message), effects)
    case None => Transition(cache[key := Label(Size(0, 0), p.sprite)], Drawn(p.sprite), effects)
  }

  /**
   One call of `draw_text`. Whatever the cache held, afterwards it holds at
   most 5001 labels. A cache over the limit is emptied first, on every call,
   hits included. Entries other than the request's key are never changed,
   and a new key enters only when the call draws.
   */
  function Step(env: Env, cache: Cache, req: Request): (r: Transition)
    ensures |r.cache| <= FlushLimit + 1
    ensures |cache| > FlushLimit ==> r.cache.Keys <= {Key(env.fmt, req)}
    ensures var key := Key(env.fmt, req);
            && (forall k | k in r.cache :: k in Flush(cache) || (k == key && r.outcome.Drawn?))
            && (forall k | k in Flush(cache) && k != key :: k in r.cache && r.cache[k] == Flush(cache)[k])
    ensures r.effects.rasterized <==> Key(env.fmt, req) !in Flush(cache)
    ensures var key := Key(env.fmt, req);
            key in Flush(cache) ==>
              && r.effects == NoEffects
              && r.cache.Keys == Flush(cache).Keys
              && r.cache[key].sprite.image == Flush(cache)[key].sprite.image
    ensures r.outcome.Drawn? ==>
              Key(env.fmt, req) in r.cache && r.cache[Key(env.fmt, req)].sprite == r.outcome.sprite
    ensures r.outcome.ValueError? <==> !ValidAnchorX(req.anchorX) || !ValidAnchorY(req.anchorY)
    ensures WellFormed(cache) ==> WellFormed(r.cache)
  {
    var current := Flush(cache);
    var key := Key(env.fmt, req);
    if key in current then Hit(current, key, req) else Miss(env, current, key, req)
  }

  datatype Trace = Trace(cache: Cache, outcomes: seq<Outcome>)

  /** A sequence of calls, each starting from the cache the previous one
      left. The bound and the well-formedness of the cache hold throughout. */
  function Run(env: Env, cache: Cache, reqs: seq<Request>): (r: Trace)
    ensures |r.outcomes| == |reqs|
    ensures |reqs| > 0 ==> |r.cache| <= FlushLimit + 1
    ensures WellFormed(cache) ==> WellFormed(r.cache)
    decreases |reqs|
  {
    if |reqs| == 0 then Trace(cache, [])
    else
      var t := Step(env, cache, reqs[0]);
      var rest := Run(env, t.cache, reqs[1..]);
      Trace(rest.cache, [t.outcome] + rest.outcomes)
  }

  /** Unless the cache held exactly 5000 labels, the cache any call leaves
      holds at most 5000 and so is not flushed by the next call. */
  lemma DrawnCacheSurvives(env: Env, cache: Cache, req: Request)
    requires |cache| != FlushLimit
    ensures var first := Step(env, cache, req);
            |first.cache| <= FlushLimit && Flush(first.cache) == first.cache
  {
    var first := Step(env, cache, req);
    var key := Key(env.fmt, req);
    if |cache| > FlushLimit {
      SubsetSize(first.cache.Keys, {key});
    } else {
      SubsetSize(first.cache.Keys, cache.Keys + {key});
    }
  }

  lemma SubsetSize<T>(a: set<T>, b: set<T>)
    requires a <= b
    ensures |a| <= |b|
  {
    assert b == a + (b - a);
  }

  /**
   When the cache does not hold exactly 5000 labels, a call with valid
   anchors draws, and the immediately next call with the same key, wherever
   it is anchored, reuses the stored image: it loads no font and rasterises
   nothing.
   */
  lemma RedrawReusesImage(env: Env, cache: Cache, req: Request, again: Request)
    requires |cache| != FlushLimit
    requires ValidAnchorX(req.anchorX) && ValidAnchorY(req.anchorY)
    requires Key(env.fmt, again) == Key(env.fmt, req)
    ensures var first := Step(env, cache, req);
            var second := Step(env, first.cache, again);
            && first.outcome.Drawn?
            && second.effects == NoEffects
            && second.cache.Keys == first.cache.Keys
            && second.cache[Key(env.fmt, req)].sprite.image == first.outcome.sprite.image
  {
    DrawnCacheSurvives(env, cache, req);
  }

  /**
   A miss followed by the identical call draws the sprite where the miss drew
   it, except for a "top" anchor: the cache-hit copy then puts the sprite a
   full sprite height lower than the first draw did.
   */
  lemma RedrawAfterMiss(env: Env, cache: Cache, req: Request)
    requires |cache| != FlushLimit
    requires Key(env.fmt, req) !in Flush(cache)
    requires ValidAnchorX(req.anchorX) && ValidAnchorY(req.anchorY)
    ensures var first := Step(env, cache, req);
            var second := Step(env, first.cache, req);
            && first.effects.rasterized && first.outcome.Drawn?
            && second.effects == NoEffects && second.outcome.Drawn?
            && (req.anchorY != "top" ==> second.outcome == first.outcome)
            && (req.anchorY == "top" ==>
                  second.outcome.sprite.centerY
                  == first.outcome.sprite.centerY - first.outcome.sprite.height as real)
  {
    var key := Key(env.fmt, req);
    DrawnCacheSurvives(env, cache, req);
    var unplaced := Render(env, key, req);
    var drawn := Place(CacheMiss, unplaced, req.anchorX, req.anchorY, req.startX, req.startY, req.rotation).sprite;
    PlacementForgetsOldPosition(CacheHit, drawn, unplaced, req.anchorX, req.anchorY,
                                req.startX, req.startY, req.rotation);
    if req.anchorY != "top" {
      PathsAgreeOffTop(unplaced, req.anchorX, req.anchorY, req.startX, req.startY, req.rotation);
    } else {
      TopAnchorDiffers(unplaced, req.anchorX, req.startX, req.startY, req.rotation);
    }
  }

  /**
   At exactly 5000 labels a new key takes the cache to 5001, so the next
   call flushes it: even the identical call misses and rasterises again, and
   leaves a cache holding its one label.
   */
  lemma FlushAtLimitRerenders(env: Env, cache: Cache, req: Request)
    requires |cache| == FlushLimit
    requires Key(env.fmt, req) !in cache
    requires ValidAnchorX(req.anchorX) && ValidAnchorY(req.anchorY)
    ensures var first := Step(env, cache, req);
            var second := Step(env, first.cache, req);
            && |first.cache| == FlushLimit + 1
            && second.effects.rasterized
            && second.cache.Keys == {Key(env.fmt, req)}
  {
  }

  /**
   Two styles whose keys alias share one image: after drawing width 10 with
   alignment "left", a call with width 1 and alignment "0left" hits, loads
   no font, rasterises nothing and draws the stored sprite, 2 pixels wide,
   although its own field is 1 wide. The second call never reaches the
   backend, so its alignment string is never handed to it.
   */
  lemma AliasedStylesShareImage(env: Env, base: Request)
    requires ValidAnchorX(base.anchorX) && ValidAnchorY(base.anchorY)
    ensures var a := base.(width := 1, align := "0left");
            var b := base.(width := 10, align := "left");
            var first := Step(env, map[], b);
            var second := Step(env, first.cache, a);
            && first.outcome.Drawn? && first.outcome.sprite.width == 2
            && second.effects == NoEffects
            && second.outcome.Drawn? && second.outcome.sprite.width == 2
            && second.outcome.sprite.image == first.outcome.sprite.image
  {
    var a := base.(width := 1, align := "0left");
    var b := base.(width := 10, align := "left");
    KeyAliases(env.fmt, base);
    RedrawReusesImage(env, map[], b, a);
  }

  /**
   A call that passes only the required arguments never raises, and the only
   font files it can try are a prefix of the fallback list: "Calibri" and
   "Arial" from the default `font_name` are never loaded.
   */
  lemma DefaultCallTriesOnlyFallbackFonts(env: Env, cache: Cache, text: string,
                                          x: real, y: real, color: Color)
    ensures var t := Step(env, cache, WithDefaults(text, x, y, color));
            && t.outcome.Drawn?
            && t.effects.attempts <= DefaultFonts
  {
    TupleSearchOrder(env.loads, ["Calibri", "Arial"], Tuple);
  }
}
