/**
 * The configurator's global state (`config`, the box group, `uploadedImages`,
 * `activeImageId`) as one object, with the script's handlers as methods. Each
 * method leaves the fields as the value-level functions of modules BoxGeometry
 * and DecalRegistry say, and keeps the object's invariant: the box matches the
 * settings, every decal's pose matches the box, ids are unique, positive and
 * never reused after a delete.
 */
module Scene {
  import opened Options
  import opened PatternTexture
  import opened BoxGeometry
  import opened DecalPlacement
  import opened DecalRegistry

  /** The three dimension inputs. */
  datatype Dimension = Width | Height | Length

  /** `parseFloat(v) || 10`: a parse that failed (NaN) or gave zero becomes 10;
      every other number, negative ones included, is kept. */
  function CoerceDimension(parsed: Option<real>): (v: real)
    ensures v != 0.0
    ensures parsed.Some? && parsed.value != 0.0 ==> v == parsed.value
    ensures parsed.None? || parsed == Some(0.0) ==> v == 10.0
  {
    match parsed
    case Some(x) => if x != 0.0 then x else 10.0
    case None => 10.0
  }

  /** A coerced value read back through the input is kept as it is. */
  lemma CoerceIsIdempotent(parsed: Option<real>)
    ensures CoerceDimension(Some(CoerceDimension(parsed))) == CoerceDimension(parsed)
  {
  }

  /** One event from the settings panel, with the value it carries. */
  datatype ConfigInput =
    | DimensionInput(dimension: Dimension, parsed: Option<real>)
    | BoxColorPick(color: string)
    | RibbonToggle(checked: bool)
    | RibbonColorPick(color: string)
    | PatternPick(name: string)
    | PatternColorPick(color: string)

  /** The assignment each settings handler makes to `config`. */
  function ChangeConfig(c: BoxConfig, input: ConfigInput): (r: BoxConfig)
    ensures c.width != 0.0 ==> r.width != 0.0
    ensures c.height != 0.0 ==> r.height != 0.0
    ensures c.length != 0.0 ==> r.length != 0.0
    ensures !input.PatternPick? ==> r.pattern == c.pattern
  {
    match input
    case DimensionInput(Width, p) => c.(width := CoerceDimension(p))
    case DimensionInput(Height, p) => c.(height := CoerceDimension(p))
    case DimensionInput(Length, p) => c.(length := CoerceDimension(p))
    case BoxColorPick(s) => c.(boxColor := s)
    case RibbonToggle(b) => c.(hasRibbon := b)
    case RibbonColorPick(s) => c.(ribbonColor := s)
    case PatternPick(s) => c.(pattern := ParsePattern(s))
    case PatternColorPick(s) => c.(patternColor := s)
  }

  /** Each handler sets its own setting and leaves every other one alone; a
      dimension never becomes zero. */
  lemma ChangeTouchesOneSetting(c: BoxConfig, input: ConfigInput)
    ensures var r := ChangeConfig(c, input);
      r.width == (if input.DimensionInput? && input.dimension == Width then CoerceDimension(input.parsed) else c.width) &&
      r.height == (if input.DimensionInput? && input.dimension == Height then CoerceDimension(input.parsed) else c.height) &&
      r.length == (if input.DimensionInput? && input.dimension == Length then CoerceDimension(input.parsed) else c.length) &&
      r.boxColor == (if input.BoxColorPick? then input.color else c.boxColor) &&
      r.hasRibbon == (if input.RibbonToggle? then input.checked else c.hasRibbon) &&
      r.ribbonColor == (if input.RibbonColorPick? then input.color else c.ribbonColor) &&
      r.pattern == (if input.PatternPick? then ParsePattern(input.name) else c.pattern) &&
      r.patternColor == (if input.PatternColorPick? then input.color else c.patternColor) &&
      (input.DimensionInput? && c.width != 0.0 && c.height != 0.0 && c.length != 0.0 ==>
         r.width != 0.0 && r.height != 0.0 && r.length != 0.0)
  {
  }

  /** The pose of a decal group that has just been created: at the origin,
      unrotated, unscaled. */
  const FreshPose: Placement := Placement(Origin, NoTurn, Origin, UnitScale, 0.0)

  class Configurator {
    var config: BoxConfig
    var box: BoxModel
    var images: seq<Decal>
    var activeId: Option<Id>
    /** Ids of decals whose resources were disposed. */
    ghost var released: set<Id>

    /** The registry fields as one value. */
    function State(): Registry
      reads this
    {
      Registry(images, activeId)
    }

    /** Ids are unique, positive (clock plus random fraction) and not reused. */
    ghost predicate IdsHealthy()
      reads this
    {
      UniqueIds(images) &&
      forall i :: 0 <= i < |images| ==> images[i].id > 0.0 && images[i].id !in released
    }

    ghost predicate Valid()
      reads this
    {
      IdsHealthy() && box == BuildBox(config) && Placed(images, config)
    }

    /** Page start-up: the initial settings, no decals, the first box built. */
    constructor ()
      ensures Valid()
      ensures config == InitialConfig && State() == EmptyRegistry && released == {}
    {
      config := InitialConfig;
      box := ComposeBox(InitialConfig, None);
      images := [];
      activeId := None;
      released := {};
      new;
      CreateGiftBox();
    }

    /** `createGiftBox`: paint the pattern texture when there is a pattern,
        rebuild the group, then re-place every decal for the new box. */
    method CreateGiftBox()
      requires IdsHealthy()
      modifies this`box, this`images
      ensures Valid()
      ensures box == BuildBox(config)
      ensures images == Replaced(old(images), config)
    {
      var texture: Option<Texture> := None;
      if config.pattern != NoPattern {
        var ops := CreatePatternTexture(config.pattern, Css(config.boxColor), Css(config.patternColor));
        texture := Some(CanvasTexture(CanvasSize, ops));
      }
      box := ComposeBox(config, texture);
      if |images| > 0 {
        UpdateAllImages();
      }
      ReplacedKeepsSettings(old(images), config);
    }

    /** `updateAllImages`: resolve every decal's pose again, in list order. */
    method UpdateAllImages()
      modifies this`images
      ensures images == Replaced(old(images), config)
    {
      var i := 0;
      while i < |images|
        invariant 0 <= i <= |images| == |old(images)|
        invariant forall j :: 0 <= j < i ==> images[j] == old(images)[j].(placement := Resolve(config, old(images)[j].config))
        invariant forall j :: i <= j < |images| ==> images[j] == old(images)[j]
      {
        var d := images[i];
        images := images[i := d.(placement := Resolve(config, d.config))];
        i := i + 1;
      }
    }

    /** `addImageToScene` for a decoded image of the given size and an id the
        clock supplies. */
    method AddImageToScene(id: Id, name: string, imageWidth: real, imageHeight: real)
      requires Valid()
      requires imageHeight > 0.0
      requires id > 0.0 && id !in Ids(images) && id !in released
      modifies this`images, this`activeId
      ensures Valid()
      ensures State() == Added(old(State()), id, name, imageWidth, imageHeight, config)
    {
      var d := Decal(id, name, BaseSize * (imageWidth / imageHeight), BaseSize, DefaultDecalConfig, FreshPose);
      images := images + [d];
      SetActiveImage(id);
      var last := |images| - 1;
      images := images[last := images[last].(placement := Resolve(config, images[last].config))];
      ghost var added := Added(old(State()), id, name, imageWidth, imageHeight, config);
      assert images == added.images;
      AddAppendsOne(old(State()), id, name, imageWidth, imageHeight, config);
      assert forall i :: 0 <= i < |images| ==> images[i].id > 0.0 && images[i].id !in released by {
        forall i | 0 <= i < |images| ensures images[i].id > 0.0 && images[i].id !in released {
          if i < last { assert images[i] == old(images)[i]; }
        }
      }
    }

    /** The state part of `setActiveImage`. */
    method SetActiveImage(id: Id)
      modifies this`activeId
      ensures old(Valid()) ==> Valid()
      ensures State() == Selected(old(State()), id)
    {
      activeId := Some(id);
    }

    /** The `updateActive` closure: edit one setting of the active decal and
        re-place it. */
    method UpdateActive(e: Edit)
      requires Valid()
      modifies this`images
      ensures Valid()
      ensures State() == Edited(old(State()), e, config)
    {
      if activeId.Some? {
        var k := FindIndex(images, activeId.value);
        if k.Some? {
          var i := k.value;
          var cfg := ApplyEdit(images[i].config, e);
          images := images[i := images[i].(config := cfg, placement := Resolve(config, cfg))];
        }
      }
      assert State() == Edited(old(State()), e, config);
      EditKeepsInvariants(old(State()), e, config);
      EditKeepsIds(old(State()), e, config);
    }

    /** The delete handler: splice out the active decal, dispose of it, clear
        the active id. */
    method DeleteActive()
      requires Valid()
      modifies this`images, this`activeId, this`released
      ensures Valid()
      ensures State() == Deleted(old(State()))
      ensures released == old(released) + (Ids(old(images)) - Ids(images))
    {
      if activeId == None || activeId == Some(0.0) {
        return;
      }
      var k := FindIndex(images, activeId.value);
      if k.Some? {
        var i := k.value;
        var before := images;
        DeleteRemovesActive(State());
        assert before[i].id in Ids(before);
        released := released + {before[i].id};
        images := before[..i] + before[i + 1..];
        activeId := None;
        forall j | 0 <= j < |images|
          ensures images[j].id > 0.0 && images[j].id !in released
          ensures images[j].placement == Resolve(config, images[j].config)
        {
          if j < i { assert images[j] == before[j]; } else { assert images[j] == before[j + 1]; }
        }
      }
    }

    /** A settings handler: update the setting, then rebuild the box. */
    method OnConfigInput(input: ConfigInput)
      requires Valid()
      modifies this`config, this`box, this`images
      ensures Valid()
      ensures config == ChangeConfig(old(config), input)
      ensures images == Replaced(old(images), config)
    {
      config := ChangeConfig(config, input);
      CreateGiftBox();
    }
  }
}
