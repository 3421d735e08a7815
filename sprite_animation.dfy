/** `SpriteAnimationLoader`: the frames of an animation laid out as a horizontal or vertical strip
    in one texture, each frame a padded subview of the texture's view. */
module SpriteAnimations {
  import opened Base
  import opened Textures
  import opened TextureViews

  /** `[f32; 4]` padding: top, right, bottom, left. */
  type Padding = a: seq<real> | |a| == 4 witness [0.0, 0.0, 0.0, 0.0]

  datatype SpriteAnimationLoader = SpriteAnimationLoader(padding: Padding, spriteSize: Option<(real, real)>)
  {
    /** `with_padding`: the same padding on all four sides. */
    function WithPadding(p: real): (l: SpriteAnimationLoader)
      ensures forall k :: 0 <= k < 4 ==> l.padding[k] == p
      ensures l.spriteSize == spriteSize
    {
      var a: seq<real> := [p, p, p, p];
      assert |a| == 4;
      SpriteAnimationLoader(a, spriteSize)
    }

    function WithSpriteSize(width: real, height: real): (l: SpriteAnimationLoader)
      ensures l.spriteSize == Some((width, height)) && l.padding == padding
    {
      SpriteAnimationLoader(padding, Some((width, height)))
    }
  }

  /** `new`: no padding, and frames as large as the texture's shorter side. */
  function NewLoader(): (l: SpriteAnimationLoader)
    ensures forall k :: 0 <= k < 4 ==> l.padding[k] == 0.0
    ensures l.spriteSize.None?
  {
    SpriteAnimationLoader([0.0, 0.0, 0.0, 0.0], None)
  }

  datatype AnimationSprite = AnimationSprite(texture: TextureInner, view: TextureView, uv0: Vec2, uv1: Vec2)

  /** The frame size: the configured one, or a square with the image's shorter side. */
  function FrameSize(loader: SpriteAnimationLoader, imageWidth: nat, imageHeight: nat): (s: (real, real))
    ensures loader.spriteSize.Some? ==> s == loader.spriteSize.value
    ensures loader.spriteSize.None? ==> s.0 == s.1 == Min(imageWidth, imageHeight) as real
  {
    if loader.spriteSize.Some? then loader.spriteSize.value
    else var size := Min(imageWidth, imageHeight) as real; (size, size)
  }

  /** How many frames the strip holds: `max(W div H, H div W)`. */
  function Elements(imageWidth: nat, imageHeight: nat): nat
    requires imageWidth > 0 && imageHeight > 0
  {
    Max(imageWidth / imageHeight, imageHeight / imageWidth)
  }

  /** The step between frames along each axis, in frame sizes: `min(W div H, 1)` and
      `min(H div W, 1)`. */
  function StrideX(imageWidth: nat, imageHeight: nat): nat
    requires imageHeight > 0
  {
    Min(imageWidth / imageHeight, 1)
  }

  function StrideY(imageWidth: nat, imageHeight: nat): nat
    requires imageWidth > 0
  {
    Min(imageHeight / imageWidth, 1)
  }

  /** A wide image is a horizontal strip and a tall one a vertical strip. */
  lemma StripDirection(imageWidth: nat, imageHeight: nat)
    requires imageWidth > 0 && imageHeight > 0
    ensures imageWidth > imageHeight ==> StrideX(imageWidth, imageHeight) == 1 && StrideY(imageWidth, imageHeight) == 0
    ensures imageWidth < imageHeight ==> StrideX(imageWidth, imageHeight) == 0 && StrideY(imageWidth, imageHeight) == 1
    ensures imageWidth >= imageHeight ==> Elements(imageWidth, imageHeight) == imageWidth / imageHeight
    ensures imageWidth <= imageHeight ==> Elements(imageWidth, imageHeight) == imageHeight / imageWidth
    ensures Elements(imageWidth, imageHeight) >= 1
  {
    if imageWidth >= imageHeight {
      assert imageHeight / imageWidth <= 1;
      assert imageWidth / imageHeight >= 1;
    } else {
      assert imageWidth / imageHeight == 0;
      assert imageHeight / imageWidth >= 1;
    }
  }

  /** Where frame `i` starts along one axis, in pixels: the near padding plus `i` strides. */
  function FrameStart(origin: real, i: nat, stride: nat, size: real): real
  {
    origin + i as real * stride as real * size
  }

  /** The relative corners of frame `i`: its pixel rectangle divided by the image size, shrunk by
      the padding on each side. */
  function FrameCorner0(loader: SpriteAnimationLoader, imageWidth: nat, imageHeight: nat, i: nat): Vec2
    requires imageWidth > 0 && imageHeight > 0
  {
    var (sw, sh) := FrameSize(loader, imageWidth, imageHeight);
    Vec2(FrameStart(loader.padding[3], i, StrideX(imageWidth, imageHeight), sw) / imageWidth as real,
         FrameStart(loader.padding[0], i, StrideY(imageWidth, imageHeight), sh) / imageHeight as real)
  }

  function FrameCorner1(loader: SpriteAnimationLoader, imageWidth: nat, imageHeight: nat, i: nat): Vec2
    requires imageWidth > 0 && imageHeight > 0
  {
    var (sw, sh) := FrameSize(loader, imageWidth, imageHeight);
    var paddedW := sw - loader.padding[1] - loader.padding[3];
    var paddedH := sh - loader.padding[0] - loader.padding[2];
    Vec2((FrameStart(loader.padding[3], i, StrideX(imageWidth, imageHeight), sw) + paddedW) / imageWidth as real,
         (FrameStart(loader.padding[0], i, StrideY(imageWidth, imageHeight), sh) + paddedH) / imageHeight as real)
  }

  function FrameAt(id: TextureInner, loader: SpriteAnimationLoader, view: TextureView, imageWidth: nat, imageHeight: nat, i: nat): AnimationSprite
    requires imageWidth > 0 && imageHeight > 0
  {
    var sub := view.Subview(Some(FrameCorner0(loader, imageWidth, imageHeight, i)),
                            Some(FrameCorner1(loader, imageWidth, imageHeight, i)));
    AnimationSprite(id, sub, sub.Uv0OrDefault(), sub.Uv1OrDefault())
  }

  /** `load_sprites_from_texture`: no frames when the view's texture has no id for the pipeline;
      otherwise one frame per strip element. The integer divisions panic on an empty memory
      image, so that is excluded. */
  function LoadSpritesFromTexture(loader: SpriteAnimationLoader, view: TextureView, ty: TypeTag): (r: Option<seq<AnimationSprite>>)
    reads view.texture
    requires view.texture.GetTextureId(ty).Some? ==>
      view.texture.memoryImage.width > 0 && view.texture.memoryImage.height > 0
    ensures r.None? <==> view.texture.GetTextureId(ty).None?
    ensures r.Some? ==>
      var img := view.texture.memoryImage;
      && |r.value| == Elements(img.width, img.height)
      && forall i :: 0 <= i < |r.value| ==>
           r.value[i] == FrameAt(view.texture.GetTextureId(ty).value, loader, view, img.width, img.height, i)
  {
    var id := view.texture.GetTextureId(ty);
    if id.None? then None
    else
      var img := view.texture.memoryImage;
      var n := Elements(img.width, img.height);
      Some(seq(n, i requires 0 <= i < n => FrameAt(id.value, loader, view, img.width, img.height, i)))
  }

  /** Each frame carries the pipeline's id and covers exactly its padded rectangle of the view. */
  lemma FrameCorners(id: TextureInner, loader: SpriteAnimationLoader, view: TextureView, imageWidth: nat, imageHeight: nat, i: nat)
    requires imageWidth > 0 && imageHeight > 0
    ensures var f := FrameAt(id, loader, view, imageWidth, imageHeight, i);
      && f.texture == id
      && f.uv0 == view.Absolute(FrameCorner0(loader, imageWidth, imageHeight, i))
      && f.uv1 == view.Absolute(FrameCorner1(loader, imageWidth, imageHeight, i))
  {
    SubviewCorners(view, FrameCorner0(loader, imageWidth, imageHeight, i), FrameCorner1(loader, imageWidth, imageHeight, i));
  }

  lemma StartStep(origin: real, i: nat, stride: nat, size: real)
    ensures FrameStart(origin, i + 1, stride, size) == FrameStart(origin, i, stride, size) + stride as real * size
  {
    assert (i + 1) as real * stride as real * size == i as real * stride as real * size + stride as real * size;
  }

  /** Successive frames of a wide strip are one frame width apart and share their top edge. */
  lemma WideStripSteps(loader: SpriteAnimationLoader, imageWidth: nat, imageHeight: nat, i: nat)
    requires imageWidth > imageHeight > 0
    ensures var sw := FrameSize(loader, imageWidth, imageHeight).0;
      FrameStart(loader.padding[3], i + 1, StrideX(imageWidth, imageHeight), sw)
        == FrameStart(loader.padding[3], i, StrideX(imageWidth, imageHeight), sw) + sw
    ensures FrameCorner0(loader, imageWidth, imageHeight, i + 1).y == FrameCorner0(loader, imageWidth, imageHeight, i).y
  {
    StripDirection(imageWidth, imageHeight);
    var (sw, sh) := FrameSize(loader, imageWidth, imageHeight);
    StartStep(loader.padding[3], i, 1, sw);
    StartStep(loader.padding[0], i, 0, sh);
  }

  lemma WholeFramesFit(i: nat, w: nat, h: nat)
    requires w >= h > 0 && i < w / h
    ensures (i + 1) * h <= w
  {
    assert (w / h) * h <= w;
    assert (i + 1) * h <= (w / h) * h;
  }

  lemma FractionAtMostOne(a: real, len: real)
    requires len > 0.0 && a <= len
    ensures a / len <= 1.0
  {
  }

  /** With the default square frames and no negative right padding, every frame of a wide strip
      ends inside the image. */
  lemma DefaultWideFramesInside(loader: SpriteAnimationLoader, imageWidth: nat, imageHeight: nat, i: nat)
    requires imageWidth > imageHeight > 0 && loader.spriteSize.None? && loader.padding[1] >= 0.0
    requires i < Elements(imageWidth, imageHeight)
    ensures FrameCorner1(loader, imageWidth, imageHeight, i).x <= 1.0
  {
    StripDirection(imageWidth, imageHeight);
    WholeFramesFit(i, imageWidth, imageHeight);
    var s := imageHeight as real;
    assert FrameSize(loader, imageWidth, imageHeight) == (s, s);
    var p1, p3 := loader.padding[1], loader.padding[3];
    var start := FrameStart(p3, i, 1, s);
    assert start == p3 + i as real * s;
    assert start + (s - p1 - p3) == (i + 1) as real * s - p1;
    assert ((i + 1) * imageHeight) as real == (i + 1) as real * s;
    FractionAtMostOne(start + (s - p1 - p3), imageWidth as real);
  }
}
