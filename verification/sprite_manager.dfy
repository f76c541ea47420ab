/**
 The sprite manager: a book of loaded sprite sheets and, per sheet, named
 rectangles (left, bottom, width, height) that cut a sprite out of the
 sheet, plus a small interactive editor that nudges a registered rectangle
 by a step size which the editor itself can grow and shrink.

 Loading an image and cutting a texture out of it happen in the graphics
 library; here a loaded sheet is identified by the path it was loaded from
 and a texture by the sheet, rectangle and orientation it was cut with.
 */
module SpriteBook {
  import opened Numeric

  datatype SpriteRect = SpriteRect(left: int, bottom: int, width: int, height: int)

  /** The texture `SpriteSheet.get_texture(LBWH(rect), y_up)` would return. */
  datatype TextureRef = TextureRef(sheetPath: string, rect: SpriteRect, yUp: bool)

  /** An `arcade.Sprite` made by `create_sprite`. */
  datatype Sprite = Sprite(scale: real, texture: TextureRef)

  datatype SpriteManager = SpriteManager(
    sheets: map<string, string>,                       // sheet name -> path it was loaded from
    configs: map<string, map<string, SpriteRect>>,     // sheet name -> sprite name -> rectangle
    adjustmentStep: int)

  /** The rectangle registered for a sprite, if any. */
  function Config(m: SpriteManager, sheet: string, sprite: string): Option<SpriteRect> {
    if sheet in m.configs && sprite in m.configs[sheet] then Some(m.configs[sheet][sprite]) else None
  }

  /** `SpriteManager.__init__`: nothing loaded or registered, step 1. */
  function NewSpriteManager(): (r: SpriteManager)
    ensures forall sheet, sprite :: Config(r, sheet, sprite) == None
    ensures |r.sheets| == 0 && r.adjustmentStep == 1
  {
    SpriteManager(map[], map[], 1)
  }

  /** `load_sprite_sheet`: (re)load a sheet under a name. */
  function LoadSpriteSheet(m: SpriteManager, name: string, path: string): (r: SpriteManager)
    ensures name in r.sheets && r.sheets[name] == path
    ensures forall other :: other != name ==> (other in r.sheets <==> other in m.sheets)
    ensures forall other :: other != name && other in m.sheets ==> r.sheets[other] == m.sheets[other]
    ensures r.configs == m.configs && r.adjustmentStep == m.adjustmentStep
  {
    m.(sheets := m.sheets[name := path])
  }

  /** Store a rectangle for a sprite, creating the sheet's table on first use. */
  function WriteConfig(m: SpriteManager, sheet: string, sprite: string, rect: SpriteRect): (r: SpriteManager)
    ensures Config(r, sheet, sprite) == Some(rect)
    ensures forall s, n :: (s != sheet || n != sprite) ==> Config(r, s, n) == Config(m, s, n)
    ensures r.configs.Keys == m.configs.Keys + {sheet}
    ensures r.sheets == m.sheets && r.adjustmentStep == m.adjustmentStep
  {
    var table := if sheet in m.configs then m.configs[sheet] else map[];
    m.(configs := m.configs[sheet := table[sprite := rect]])
  }

  /** `register_sprite_config`: the sprite now maps to the given rectangle,
      replacing any earlier one; every other registration is kept. */
  function RegisterSpriteConfig(m: SpriteManager, sheet: string, sprite: string, left: int, bottom: int, width: int, height: int): (r: SpriteManager)
    ensures Config(r, sheet, sprite) == Some(SpriteRect(left, bottom, width, height))
    ensures forall s, n :: (s != sheet || n != sprite) ==> Config(r, s, n) == Config(m, s, n)
    ensures r.sheets == m.sheets && r.adjustmentStep == m.adjustmentStep
  {
    WriteConfig(m, sheet, sprite, SpriteRect(left, bottom, width, height))
  }

  /** `get_sprite_texture`: a texture only when the sheet is loaded and the
      sprite registered on it. */
  function GetSpriteTexture(m: SpriteManager, sheet: string, sprite: string, yUp: bool): (r: Option<TextureRef>)
    ensures r.Some? <==> sheet in m.sheets && Config(m, sheet, sprite).Some?
    ensures r.Some? ==> r.value.sheetPath == m.sheets[sheet] && Some(r.value.rect) == Config(m, sheet, sprite) && r.value.yUp == yUp
  {
    if sheet !in m.sheets || sheet !in m.configs then None
    else if sprite !in m.configs[sheet] then None
    else Some(TextureRef(m.sheets[sheet], m.configs[sheet][sprite], yUp))
  }

  /** `create_sprite`: a sprite at the given scale wearing the looked-up
      texture, or nothing when the lookup fails. */
  function CreateSprite(m: SpriteManager, sheet: string, sprite: string, scale: real, yUp: bool): (r: Option<Sprite>)
    ensures r.None? <==> GetSpriteTexture(m, sheet, sprite, yUp).None?
    ensures r.Some? ==> r.value.scale == scale && Some(r.value.texture) == GetSpriteTexture(m, sheet, sprite, yUp)
  {
    match GetSpriteTexture(m, sheet, sprite, yUp)
    case None => None
    case Some(t) => Some(Sprite(scale, t))
  }

  /** A registered sprite on a loaded sheet is found with exactly the
      rectangle it was registered with, whatever was loaded or registered
      before. */
  lemma RegisteredSpriteIsFound(m: SpriteManager, sheet: string, path: string, sprite: string, left: int, bottom: int, width: int, height: int, yUp: bool)
    ensures var m1 := LoadSpriteSheet(RegisterSpriteConfig(m, sheet, sprite, left, bottom, width, height), sheet, path);
            GetSpriteTexture(m1, sheet, sprite, yUp) == Some(TextureRef(path, SpriteRect(left, bottom, width, height), yUp))
  {
  }

  /** Python's `str.lower()` on ASCII letters. */
  function LowerChar(c: char): (r: char)
    ensures 'A' <= c <= 'Z' ==> r as int == c as int + 32
    ensures !('A' <= c <= 'Z') ==> r == c
  {
    if 'A' <= c <= 'Z' then (c as int + 32) as char else c
  }

  function Lower(s: string): (r: string)
    ensures |r| == |s|
    ensures forall i :: 0 <= i < |s| ==> r[i] == LowerChar(s[i])
  {
    if |s| == 0 then [] else [LowerChar(s[0])] + Lower(s[1..])
  }

  /** A direction names the lower-case letter `c` exactly when it is that
      letter in either case. */
  lemma DirectionMatches(direction: string, c: char)
    requires 'a' <= c <= 'z'
    ensures Lower(direction) == [c] <==> (direction == [c] || direction == [(c as int - 32) as char])
  {
    if Lower(direction) == [c] {
      assert |direction| == 1;
      assert LowerChar(direction[0]) == c;
    }
  }

  /** `step or self._adjustment_step`: a missing or zero step falls back to
      the manager's current step. */
  function EffectiveStep(step: Option<int>, current: int): (r: int)
    ensures step.None? ==> r == current
    ensures step.Some? && step.value == 0 ==> r == current
    ensures step.Some? && step.value != 0 ==> r == step.value
  {
    match step
    case None => current
    case Some(k) => if k != 0 then k else current
  }

  /** The direction letters the editor understands. */
  predicate KnownDirection(d: string) {
    d in {"w", "s", "a", "d", "q", "e", "f"}
  }

  /** `adjust_sprite_position`. On an unregistered sprite or an unknown
      direction it answers false and changes nothing. Otherwise "w"/"s" move
      the rectangle up/down and "a"/"d" left/right by the effective step,
      "q"/"e" grow/shrink the manager's step by one (with no lower bound),
      "f" only reports, and the (possibly unchanged) rectangle is written
      back. */
  function AdjustSpritePosition(m: SpriteManager, sheet: string, sprite: string, direction: string, step: Option<int>): (r: (SpriteManager, bool))
    ensures Config(m, sheet, sprite).None? ==> r == (m, false)
    ensures Config(m, sheet, sprite).Some? && !KnownDirection(Lower(direction)) ==> r == (m, false)
    ensures Config(m, sheet, sprite).Some? && KnownDirection(Lower(direction)) ==>
              var rect := Config(m, sheet, sprite).value;
              var st := EffectiveStep(step, m.adjustmentStep);
              var d := Lower(direction);
              && r.1
              && Config(r.0, sheet, sprite).Some?
              && var moved := Config(r.0, sheet, sprite).value;
              && moved.width == rect.width && moved.height == rect.height
              && moved.bottom == rect.bottom + (if d == "w" then st else if d == "s" then -st else 0)
              && moved.left == rect.left + (if d == "d" then st else if d == "a" then -st else 0)
              && r.0.adjustmentStep == m.adjustmentStep + (if d == "q" then 1 else if d == "e" then -1 else 0)
    ensures forall s, n :: (s != sheet || n != sprite) ==> Config(r.0, s, n) == Config(m, s, n)
    ensures r.0.sheets == m.sheets
  {
    match Config(m, sheet, sprite)
    case None => (m, false)
    case Some(rect) =>
      var st := EffectiveStep(step, m.adjustmentStep);
      var d := Lower(direction);
      if d == "w" then (WriteConfig(m, sheet, sprite, rect.(bottom := rect.bottom + st)), true)
      else if d == "s" then (WriteConfig(m, sheet, sprite, rect.(bottom := rect.bottom - st)), true)
      else if d == "a" then (WriteConfig(m, sheet, sprite, rect.(left := rect.left - st)), true)
      else if d == "d" then (WriteConfig(m, sheet, sprite, rect.(left := rect.left + st)), true)
      else if d == "q" then (WriteConfig(m.(adjustmentStep := m.adjustmentStep + 1), sheet, sprite, rect), true)
      else if d == "e" then (WriteConfig(m.(adjustmentStep := m.adjustmentStep - 1), sheet, sprite, rect), true)
      else if d == "f" then (WriteConfig(m, sheet, sprite, rect), true)
      else (m, false)
  }

  /** Every registration, read through `Config`, is the same in both managers. */
  ghost predicate SameConfigs(a: SpriteManager, b: SpriteManager) {
    forall s, n :: Config(a, s, n) == Config(b, s, n)
  }

  /** Moving up then down by the same explicit step puts the rectangle back
      and leaves every other registration alone. */
  lemma UpThenDownRestores(m: SpriteManager, sheet: string, sprite: string, step: int)
    requires Config(m, sheet, sprite).Some? && step != 0
    ensures var m1 := AdjustSpritePosition(m, sheet, sprite, "w", Some(step)).0;
            SameConfigs(AdjustSpritePosition(m1, sheet, sprite, "s", Some(step)).0, m)
  {
    DirectionMatches("w", 'w');
    DirectionMatches("s", 's');
  }

  /** Moving left then right by the manager's own step puts the rectangle
      back. */
  lemma LeftThenRightRestores(m: SpriteManager, sheet: string, sprite: string)
    requires Config(m, sheet, sprite).Some?
    ensures var m1 := AdjustSpritePosition(m, sheet, sprite, "A", None).0;
            SameConfigs(AdjustSpritePosition(m1, sheet, sprite, "D", None).0, m)
  {
    DirectionMatches("A", 'a');
    DirectionMatches("D", 'd');
  }

  /** Growing then shrinking the step restores it, and neither touches any
      rectangle. */
  lemma GrowThenShrinkStepRestores(m: SpriteManager, sheet: string, sprite: string, step: Option<int>)
    requires Config(m, sheet, sprite).Some?
    ensures var m1 := AdjustSpritePosition(m, sheet, sprite, "q", step).0;
            var m2 := AdjustSpritePosition(m1, sheet, sprite, "e", step).0;
            SameConfigs(m1, m) && SameConfigs(m2, m) && m2.adjustmentStep == m.adjustmentStep
  {
    DirectionMatches("q", 'q');
    DirectionMatches("e", 'e');
  }

  /** Shrinking the step from 1 makes it 0, after which a move without an
      explicit step leaves the rectangle where it was. */
  lemma ShrunkStepStallsMoves(m: SpriteManager, sheet: string, sprite: string)
    requires Config(m, sheet, sprite).Some? && m.adjustmentStep == 1
    ensures var m1 := AdjustSpritePosition(m, sheet, sprite, "e", None).0;
            && m1.adjustmentStep == 0
            && Config(AdjustSpritePosition(m1, sheet, sprite, "w", None).0, sheet, sprite) == Config(m, sheet, sprite)
  {
    DirectionMatches("e", 'e');
    DirectionMatches("w", 'w');
  }
}
