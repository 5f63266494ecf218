# Text labels of arcade's `draw_text`, modelled in Dafny

This project models the decision logic of `draw_text` in `arcade/text.py`.
That function renders a string into a label sprite and keeps the sprite in a
cache keyed by the text's style, so that repeated draws of the same text
reuse the bitmap. Pixels, font files and sprites are abstract oracles and
records; the decisions around them are modelled as follows:

- **the label cache** (`DrawText`): a map from key to `Label` (the source's
  `Text` record), threaded through `Step(env, cache, request)`. A step
  returns the next cache, the drawn sprite or the `ValueError` message, and
  the effects the call had on the backend: the font files it tried to load
  and whether it rasterised.
- **font resolution** (`Fonts`): a search over a deterministic loader oracle
  `loads(name)`. Every font is loaded at the same point size, `int` of the
  scaled font size, which the measurement and the image record. A failed load stands for the swallowed `OSError`. The
  search keeps the list of names tried, so the order of attempts can be
  stated.
- **field-width layout** (`Layout`): from an abstract measured size, the
  canvas size, the horizontal start of the text, and the size after the
  floor division by 5.
- **anchor placement** (`Sprites`): exact `real` arithmetic for both copies
  of the anchor code, the cache-hit one and the cache-miss one.
- **the key** (`Requests`): the concatenation of the style fields' string
  forms.

The model keeps the code's behaviour as written, defects included:

- A tuple or list `font_name` is never loaded. The list loop runs only when a font
  is already held. For a string name it iterates over the name's
  characters, so after the name loads it tries the name's first character
  once.
- A "top" anchor places the sprite differently on the two paths. On the
  cache-hit path `center_y = y - h/2`, so the top edge goes to `y`. On the
  cache-miss path `center_y = y + h/2`, so the bottom edge goes to `y`.
- With a field width and an alignment other than "center", the final width
  is the requested width divided by 5.
- The key is not injective. `KeyAliases` and `AliasedStylesShareImage` show
  two styles that share a key, and thus a stored image.
- `Text.size` is never assigned, so it stays (0, 0).

Two further facts about the code shape the model:

- The size check runs on every call, hits included, before the lookup.
- With a field width and a non-center alignment, the canvas keeps the
  measured size.

Coordinates have y pointing up. The sprite's `right` and `bottom` setters
are taken to set `center_x = x - w/2` and `center_y = y + h/2`. The `Sprite`
class is not part of this model.

## Model

| member | source | states |
|---|---|---|
| Layout.PlanImage | arcade/text.py:150-175 | final height is `th // 5`; with no width: measured canvas, start 0, final width `tw // 5`; with width W and "center": canvas `(5W, th)`, final width W, and left and right margins differ by at most one pixel (the start may be negative); with W and any other alignment: measured canvas, start 0, final width `W // 5` |
| Sprites.PlaceX | arcade/text.py:71-78 | anchor_x succeeds exactly for left/center/right: left puts the left edge at x, center the centre, right the right edge; only `center_x` changes (identical copy at lines 183-190) |
| Sprites.PlaceY | arcade/text.py:192-199 | anchor_y succeeds exactly for top/center/bottom/baseline; bottom and baseline put the bottom edge at y; top puts the top edge at y on the cache-hit path (lines 80-81) but the bottom edge at y on the cache-miss path; only `center_y` changes |
| Sprites.Place | arcade/text.py:71-89 | no error exactly when both anchors are valid; a bad anchor_x raises with its value and changes nothing; a bad anchor_y raises with its value after `center_x` was already placed; on success the angle is the rotation and only position and angle change |
| Sprites.PlacementForgetsOldPosition | arcade/text.py:71-89 | a successful placement does not depend on the sprite's previous position or angle |
| Sprites.PathsAgreeOffTop | arcade/text.py:183-201 | the two copies of the anchor code give the same result for every anchor_y except "top" |
| Sprites.TopAnchorDiffers | arcade/text.py:80-81 | for "top" the cache-miss copy (line 193) puts the sprite one full height above the cache-hit copy, exactly where "bottom" puts it; the hit copy puts the top edge at y |
| Fonts.ListLoop | arcade/text.py:112-126 | the names tried only grow; entered holding a font, the loop makes one attempt on its first item and stops, still holding a font |
| Fonts.DefaultLoop | arcade/text.py:128-138 | the fallback loop tries at most one name per entry of the list, and ends without a font only if it began without one |
| Fonts.DefaultLoopFirstLoadable | arcade/text.py:128-138 | entered with no font, exactly a prefix of the list is tried, in order; every tried name but the last failed; a held font is the last tried name and it loaded; if none loads, the whole list was tried and there is no font |
| Fonts.Resolve | arcade/text.py:95-138 | a held font loaded and was tried; with no font, nothing tried loaded and the whole fallback list was tried last, and no exception escapes |
| Fonts.StringNameOrder | arcade/text.py:99-109 | a string name is tried verbatim first, and with ".ttf" second exactly when the verbatim load failed |
| Fonts.StringNameFallsBack | arcade/text.py:105-138 | a string name that loads neither verbatim nor with ".ttf" skips the list loop and resolves as the fallback list after those two attempts; a prefix of that list is tried in order, every name but the last failing, and the last tried name is the font held, if any |
| Fonts.TupleSearchOrder | arcade/text.py:111-138 | for a tuple or list `font_name` only a prefix of the fallback list is tried, in order; every tried name but the last failed, and the font held is the last one tried, so the first name that loads wins |
| Fonts.NamedFontLoopRunsOnce | arcade/text.py:99-126 | when a string name loads (verbatim or with ".ttf") the fallback list is never reached and the list loop makes a single attempt, on the name's first character, which replaces the font only if it loads |
| Fonts.TupleNamesIgnored | arcade/text.py:111-113 | every tuple or list `font_name`, the default ("Calibri", "Arial") included, resolves exactly as the fallback list alone |
| Requests.Key | arcade/text.py:54-66 | the key starts with the text and ends with the bold and italic flags; between them come, by definition, the colour, the font size times 1.25 times 5, the width as passed, the alignment and the font name |
| Requests.Truncate | arcade/text.py:101-101 | Python's `int` of the scaled font size, as passed to every `truetype` call (also lines 107, 115, 121, 135): truncation toward zero, so a non-negative size is rounded down and a negative one up, by less than one |
| Requests.KeyIgnoresPlacement | arcade/text.py:66-66 | calls that agree on text, colour, size, width, align, font name, bold and italic get the same key whatever their position, anchors and rotation |
| Requests.KeyAliases | arcade/text.py:66-66 | the key is not injective: width 1 with align "0left" and width 10 with align "left" give the same key |
| DrawText.Flush | arcade/text.py:62-64 | the cache a call looks up holds at most 5000 labels and is either the cache as it was or empty |
| DrawText.Hit | arcade/text.py:67-91 | a hit loads no font and rasterises nothing; the key set and every other entry are unchanged; the stored sprite keeps its image, size and name and only moves and turns; a bad anchor_x leaves the cache as it was; a bad anchor_y leaves the new `center_x` in the stored sprite |
| DrawText.Render | arcade/text.py:95-181 | the new sprite is named by the key; its image draws the request's text, colour and alignment with exactly the font the search settles on, which loaded, or no font only when no fallback font loads; the point size is the scaled font size truncated toward zero (for negative sizes too); the image's canvas, start offset and final size are exactly what `PlanImage` lays out for the size measured with that font and point size, and the sprite takes that final size; its height is the measured height floor-divided by 5; its width is the measured width floor-divided by 5 with no field, the field width when centred, and the field width floor-divided by 5 otherwise |
| DrawText.Miss | arcade/text.py:92-207 | a miss tries exactly the names of the font search and rasterises, even when an anchor then raises; a raise stores nothing; a draw adds exactly one label under the key, sized by the layout of the measured text, named by the key, placed by the cache-miss anchors |
| DrawText.Step | arcade/text.py:62-209 | after any call the cache holds at most 5001 labels; a cache over 5000 is emptied first, hits included; other entries never change; a new key enters only on a draw; rasterisation happens exactly on a miss after the flush; a hit changes no key and keeps the image; a `ValueError` is raised exactly for an invalid anchor; a drawn sprite is the one stored under the key; well-formedness of the cache is kept |
| DrawText.Run | arcade/text.py:62-67 | over any sequence of calls the cache stays within 5001 labels and well formed, with one outcome per call |
| DrawText.DrawnCacheSurvives | arcade/text.py:62-64 | unless the cache held exactly 5000 labels, the cache after a call is not flushed by the next call |
| DrawText.RedrawReusesImage | arcade/text.py:62-91 | when the cache did not hold exactly 5000 labels, after a call with valid anchors draws, the immediately next call with the same key loads no font, rasterises nothing and reuses the stored image |
| DrawText.RedrawAfterMiss | arcade/text.py:67-201 | repeating a first draw redraws in the same place, except for a "top" anchor, where the repeat lands one full sprite height lower |
| DrawText.FlushAtLimitRerenders | arcade/text.py:62-64 | a new key at exactly 5000 labels grows the cache to 5001, so the identical next call flushes, rasterises again and leaves only its own label |
| DrawText.AliasedStylesShareImage | arcade/text.py:66-67 | after drawing width 10 / align "left" (2 pixels wide), a call with width 1 / align "0left" hits, loads and rasterises nothing, and draws the stored 2-pixel-wide image |
| DrawText.DefaultCallTriesOnlyFallbackFonts | arcade/text.py:17-29 | a call with only the required arguments never raises, and it tries only a prefix of the fallback font list; the default names "Calibri" and "Arial" are never loaded |

## Left out

- PIL image work is not modelled: `Image.new`, `ImageDraw`, `multiline_textsize`, `multiline_text` and the LANCZOS resize (lines 143-148, 172-175) are foreign pixel operations. Measurement is the `measure` oracle, and an image is a record of what was drawn and of its plan.
- PIL's own errors are not modelled: `Image.new` rejects negative sizes, and `resize` may reject a target that is not positive, depending on the Pillow version. A negative requested width, or any width or height below 5 after the shrink by 5 (which gives 0), can produce such sizes. The model computes the sizes and does not raise.
- DrawText.Step and DrawText.Miss: `multiline_text` (line 174) accepts only "left", "center" or "right" as `align` and raises for any other string, so in the program a miss with another alignment raises inside PIL. The model draws it, and the claim that a `ValueError` is raised exactly for an invalid anchor holds only for those three alignments. A hit never reaches PIL, which is why the "0left" call of `AliasedStylesShareImage` is a hit.
- Font loading is the `loads` oracle of the file name alone: whether `truetype(name, int(font_size))` succeeds is taken not to depend on the point size. The point size is modelled (`PointSize`) and is passed to the measurement and recorded in the image. `PIL.ImageFont.truetype` and its file system access are left out.
- The vertical nudge `image_start_y` (line 171) is left out: an empirical pixel offset passed only to the draw.
- `Sprite` and `SpriteList` are not part of this model. `update_positions`, `draw` and the GPU batch (lines 91, 203-209) become the `Drawn` outcome. A label's one-element sprite list is a single sprite field.
- The cache stored as a function attribute (line 212) becomes explicit state passed from call to call. The code is single-threaded, so concurrency is not a concern.
- Requests.ScaledFontSize: the font size is exact real arithmetic, so floating-point rounding of `font_size * 1.25 * 5` is not modelled.
- Sprites.Place: positions are exact reals, so Python's float rounding of `start_x + text_sprite.width / 2`, `start_y - text_sprite.height / 2` and the sprite setters is not modelled. This is why `TopAnchorDiffers` and `RedrawAfterMiss` can state a difference of exactly one sprite height.
- Requests.Key: its contract states only where the text and the flags sit; the order and forms of the middle fields are fixed by its definition, not by an ensures. The string forms of a colour, of the float font size and of a tuple or list of font names come from the `Formatter` oracle, because Python's `repr` is out of scope. The oracle is told whether a colour or a group of names is a tuple or a list, but the model does not promise that `(0, 0, 0)` and `[0, 0, 0]` format differently.

