/** Loaded textures, views onto a rectangle of them in UV space, and the registry that finds a
    view again by a lookup key. Rust's `TypeId`-keyed `dyn Any` values are a type tag next to a
    key of one shared type `K`; two keys match only under the same tag. */
module TextureViews {
  import opened Base
  import opened Gpu
  import opened Textures

  /** `TypeId::of::<T>()`. */
  datatype TypeTag = TypeTag(id: nat)

  /** The decoded image kept in memory next to the device image. */
  datatype MemoryImage = MemoryImage(width: nat, height: nat)

  class Texture {
    const vulkanImage: Image
    const memoryImage: MemoryImage
    /** The egui texture handle's id, once one is attached. */
    var eguiTexture: Option<nat>
    var textureIds: seq<(TypeTag, TextureInner)>

    constructor (vulkanImage: Image, memoryImage: MemoryImage)
      ensures this.vulkanImage == vulkanImage && this.memoryImage == memoryImage
      ensures eguiTexture == None && textureIds == []
    {
      this.vulkanImage := vulkanImage;
      this.memoryImage := memoryImage;
      eguiTexture := None;
      textureIds := [];
    }

    /** `width()`, `height()`: the extent of the Vulkan image. */
    function Width(): (w: nat)
      ensures w == vulkanImage.width
    {
      vulkanImage.width
    }

    function Height(): (h: nat)
      ensures h == vulkanImage.height
    {
      vulkanImage.height
    }

    method SetEguiTexture(handle: Option<nat>)
      modifies this
      ensures eguiTexture == handle && textureIds == old(textureIds)
    {
      eguiTexture := handle;
    }

    /** `load_and_register_for_egui`: attaches the handle egui returned for this image. */
    method LoadAndRegisterForEgui(handle: nat)
      modifies this
      ensures eguiTexture == Some(handle) && textureIds == old(textureIds)
    {
      eguiTexture := Some(handle);
    }

    /** `get_texture_id::<T>()`: the first id registered for the type. */
    function GetTextureId(ty: TypeTag): (r: Option<TextureInner>)
      reads this
      ensures r.None? <==> forall i :: 0 <= i < |textureIds| ==> textureIds[i].0 != ty
      ensures r.Some? ==> exists i :: 0 <= i < |textureIds| && textureIds[i] == (ty, r.value)
                                   && forall j :: 0 <= j < i ==> textureIds[j].0 != ty
    {
      FirstIdOf(textureIds, ty)
    }

    method RegisterTextureId(ty: TypeTag, id: TextureInner)
      modifies this
      ensures textureIds == old(textureIds) + [(ty, id)] && eguiTexture == old(eguiTexture)
    {
      textureIds := textureIds + [(ty, id)];
    }

    /** `load_and_register_for`: the pipeline (its texture manager and the descriptors it adds)
        prepares a texture id for this image, which is then registered under the pipeline's type. */
    method LoadAndRegisterFor(ty: TypeTag, manager: TextureManager, descriptors: seq<WriteDescriptor>, created: bool)
      returns (r: Result<TextureInner, VulkanError>)
      modifies this
      ensures r.Ok? <==> created
      ensures r.Ok? ==> fresh(r.value) && manager.IsOriginOf(r.value) && r.value.image == vulkanImage
                        && textureIds == old(textureIds) + [(ty, r.value)]
      ensures r.Err? ==> textureIds == old(textureIds)
      ensures eguiTexture == old(eguiTexture)
    {
      r := manager.PrepareTexture(vulkanImage, descriptors, created);
      if r.Ok? {
        RegisterTextureId(ty, r.value);
      }
    }

    function CreateView(uv0: Option<Vec2>, uv1: Option<Vec2>): (v: TextureView)
      ensures v.texture == this && v.uv0 == uv0 && v.uv1 == uv1
    {
      TextureView(this, uv0, uv1)
    }

    /** `finalize`: the view of the whole texture. */
    function Finalize(): (v: TextureView)
      ensures v.texture == this && v.Uv0OrDefault() == Vec2(0.0, 0.0) && v.Uv1OrDefault() == Vec2(1.0, 1.0)
      ensures v.Width() == Width() as real && v.Height() == Height() as real
    {
      CreateView(None, None)
    }
  }

  function FirstIdOf(ids: seq<(TypeTag, TextureInner)>, ty: TypeTag): (r: Option<TextureInner>)
    ensures r.None? <==> forall i :: 0 <= i < |ids| ==> ids[i].0 != ty
    ensures r.Some? ==> exists i :: 0 <= i < |ids| && ids[i] == (ty, r.value)
                                 && forall j :: 0 <= j < i ==> ids[j].0 != ty
  {
    if ids == [] then None
    else if ids[0].0 == ty then Some(ids[0].1)
    else
      var r := FirstIdOf(ids[1..], ty);
      assert r.Some? ==> exists i :: 0 <= i < |ids[1..]| && ids[1..][i] == (ty, r.value)
                                  && forall j :: 0 <= j < i ==> ids[1..][j].0 != ty;
      assert r.Some? ==> exists i :: 0 < i < |ids| && ids[i] == (ty, r.value)
                                  && forall j :: 0 <= j < i ==> ids[j].0 != ty by {
        if r.Some? {
          var i :| 0 <= i < |ids[1..]| && ids[1..][i] == (ty, r.value) && forall j :: 0 <= j < i ==> ids[1..][j].0 != ty;
          assert ids[i + 1] == (ty, r.value);
          assert forall j :: 0 <= j < i + 1 ==> ids[j].0 != ty by {
            forall j | 0 <= j < i + 1 ensures ids[j].0 != ty {
              if j > 0 { assert ids[j] == ids[1..][j - 1]; }
            }
          }
        }
      }
      r
  }

  /** `size` pixels scaled by the UV span from `a` to `b`: all of them for the span 0 to 1,
      and never negative for an ordered span. */
  function ScaledSpan(size: nat, a: real, b: real): (r: real)
    ensures a == 0.0 && b == 1.0 ==> r == size as real
    ensures a <= b ==> r >= 0.0
  {
    size as real * (b - a)
  }

  /** A rectangle `[uv0, uv1]` of a texture; a missing corner means the texture's own corner. */
  datatype TextureView = TextureView(texture: Texture, uv0: Option<Vec2>, uv1: Option<Vec2>)
  {
    /** `uv0_or_default`: the given top-left corner, or the texture's own (0, 0). */
    function Uv0OrDefault(): (p: Vec2)
      ensures uv0.Some? ==> p == uv0.value
      ensures uv0.None? ==> p == Vec2(0.0, 0.0)
    {
      if uv0.Some? then uv0.value else Vec2(0.0, 0.0)
    }

    /** `uv1_or_default`: the given bottom-right corner, or the texture's own (1, 1). */
    function Uv1OrDefault(): (p: Vec2)
      ensures uv1.Some? ==> p == uv1.value
      ensures uv1.None? ==> p == Vec2(1.0, 1.0)
    {
      if uv1.Some? then uv1.value else Vec2(1.0, 1.0)
    }

    /** The UV extent of the view. */
    function UvSize(): Vec2 { Uv1OrDefault().Minus(Uv0OrDefault()) }

    /** The pixel width of the rectangle the view covers. */
    function Width(): (w: real)
      ensures uv0.None? && uv1.None? ==> w == texture.Width() as real
      ensures Uv0OrDefault().x <= Uv1OrDefault().x ==> w >= 0.0
    {
      ScaledSpan(texture.Width(), Uv0OrDefault().x, Uv1OrDefault().x)
    }

    /** The pixel height of the rectangle the view covers. */
    function Height(): (h: real)
      ensures uv0.None? && uv1.None? ==> h == texture.Height() as real
      ensures Uv0OrDefault().y <= Uv1OrDefault().y ==> h >= 0.0
    {
      ScaledSpan(texture.Height(), Uv0OrDefault().y, Uv1OrDefault().y)
    }

    /** The texture coordinate of a point given relative to the view (0 at uv0, 1 at uv1). */
    function Absolute(p: Vec2): Vec2
    {
      Vec2(Uv0OrDefault().x + p.x * UvSize().x, Uv0OrDefault().y + p.y * UvSize().y)
    }

    /** `subview`: a rectangle given in coordinates relative to this view; a missing corner
        keeps this view's own (possibly missing) corner. */
    function Subview(rel0: Option<Vec2>, rel1: Option<Vec2>): (v: TextureView)
      ensures v.texture == texture
      ensures rel0.None? ==> v.uv0 == uv0
      ensures rel1.None? ==> v.uv1 == uv1
    {
      var this0 := Uv0OrDefault();
      var this1 := Uv1OrDefault();
      var width := this1.x - this0.x;
      var height := this1.y - this0.y;
      TextureView(
        texture,
        if rel0.Some? then Some(Vec2(this0.x + rel0.value.x * width, this0.y + rel0.value.y * height)) else uv0,
        if rel1.Some? then Some(Vec2(this1.x - (width - rel1.value.x * width), this1.y - (height - rel1.value.y * height))) else uv1)
    }
  }

  /** Both corners of a subview are the relative corners mapped into this view. */
  lemma SubviewCorners(v: TextureView, a: Vec2, b: Vec2)
    ensures v.Subview(Some(a), Some(b)).Uv0OrDefault() == v.Absolute(a)
    ensures v.Subview(Some(a), Some(b)).Uv1OrDefault() == v.Absolute(b)
  {
    var s := v.Subview(Some(a), Some(b));
    var t0, t1 := v.Uv0OrDefault(), v.Uv1OrDefault();
    var w, h := t1.x - t0.x, t1.y - t0.y;
    assert s.Uv0OrDefault() == Vec2(t0.x + a.x * w, t0.y + a.y * h);
    assert s.Uv1OrDefault() == Vec2(FarCorner(t0.x, t1.x, b.x), FarCorner(t0.y, t1.y, b.y));
  }

  /** Stepping back from the far edge by the part of the extent not covered lands where the
      relative coordinate maps from the near edge. */
  function FarCorner(t0: real, t1: real, p: real): (r: real)
    ensures r == t0 + p * (t1 - t0)
  {
    t1 - ((t1 - t0) - p * (t1 - t0))
  }

  lemma ExtentScales(t0: real, t1: real, a: real, b: real)
    ensures (t1 - ((t1 - t0) - b * (t1 - t0))) - (t0 + a * (t1 - t0)) == (b - a) * (t1 - t0)
  {
  }

  /** A subview's UV extent is the relative extent scaled by this view's extent, the distance
      between its default-filled corners. */
  lemma SubviewExtent(v: TextureView, a: Vec2, b: Vec2)
    ensures v.Subview(Some(a), Some(b)).UvSize()
         == Vec2((b.x - a.x) * (v.Uv1OrDefault().x - v.Uv0OrDefault().x), (b.y - a.y) * (v.Uv1OrDefault().y - v.Uv0OrDefault().y))
  {
    var t0, t1 := v.Uv0OrDefault(), v.Uv1OrDefault();
    ExtentScales(t0.x, t1.x, a.x, b.x);
    ExtentScales(t0.y, t1.y, a.y, b.y);
  }

  /** The subview spanning the whole view covers the same rectangle, and one that keeps both
      corners is the view itself. */
  lemma SubviewIdentity(v: TextureView)
    ensures v.Subview(Some(Vec2(0.0, 0.0)), Some(Vec2(1.0, 1.0))).Uv0OrDefault() == v.Uv0OrDefault()
    ensures v.Subview(Some(Vec2(0.0, 0.0)), Some(Vec2(1.0, 1.0))).Uv1OrDefault() == v.Uv1OrDefault()
    ensures v.Subview(None, None) == v
  {
  }

  /** The first entry whose lookup equals the key. */
  function FindLookup<K(==)>(entries: seq<(K, TextureView)>, key: K): (r: Option<TextureView>)
    ensures r.None? <==> forall i :: 0 <= i < |entries| ==> entries[i].0 != key
    ensures r.Some? ==> exists i :: 0 <= i < |entries| && entries[i] == (key, r.value)
                                 && forall j :: 0 <= j < i ==> entries[j].0 != key
  {
    if entries == [] then None
    else if entries[0].0 == key then Some(entries[0].1)
    else
      var r := FindLookup(entries[1..], key);
      assert r.Some? ==> exists i :: 0 < i < |entries| && entries[i] == (key, r.value)
                                  && forall j :: 0 <= j < i ==> entries[j].0 != key by {
        if r.Some? {
          var i :| 0 <= i < |entries[1..]| && entries[1..][i] == (key, r.value)
                   && forall j :: 0 <= j < i ==> entries[1..][j].0 != key;
          assert entries[i + 1] == (key, r.value);
          forall j | 0 <= j < i + 1 ensures entries[j].0 != key {
            if j > 0 { assert entries[j] == entries[1..][j - 1]; }
          }
        }
      }
      r
  }

  /** Appending never changes what an earlier entry answers, and answers for a new key. */
  lemma {:induction false} FindLookupAppend<K>(entries: seq<(K, TextureView)>, key: K, view: TextureView, q: K)
    ensures FindLookup(entries + [(key, view)], q) ==
      if FindLookup(entries, q).Some? then FindLookup(entries, q)
      else if q == key then Some(view) else None
    decreases |entries|
  {
    if entries == [] {
      assert entries + [(key, view)] == [(key, view)];
    } else {
      assert (entries + [(key, view)])[1..] == entries[1..] + [(key, view)];
      FindLookupAppend(entries[1..], key, view, q);
    }
  }

  /** What `get` answers for a registry state. */
  function Lookup<K(==)>(register: map<TypeTag, seq<(K, TextureView)>>, ty: TypeTag, key: K): Option<TextureView>
  {
    if ty in register then FindLookup(register[ty], key) else None
  }

  /** The registry state after `register_lookup`. */
  function Registered<K(==)>(register: map<TypeTag, seq<(K, TextureView)>>, ty: TypeTag, key: K, view: TextureView)
    : map<TypeTag, seq<(K, TextureView)>>
  {
    register[ty := (if ty in register then register[ty] else []) + [(key, view)]]
  }

  /** Registering answers for the new key of that type, keeps every earlier answer (no
      shadowing), and leaves other types alone. */
  lemma RegisterThenLookup<K>(register: map<TypeTag, seq<(K, TextureView)>>, ty: TypeTag, key: K,
                                    view: TextureView, qty: TypeTag, q: K)
    ensures Lookup(Registered(register, ty, key, view), qty, q) ==
      if Lookup(register, qty, q).Some? then Lookup(register, qty, q)
      else if qty == ty && q == key then Some(view) else None
  {
    if qty == ty {
      FindLookupAppend(if ty in register then register[ty] else [], key, view, q);
    }
  }

  class TextureRegistry<K(==)> {
    var register: map<TypeTag, seq<(K, TextureView)>>

    constructor ()
      ensures register == map[]
    {
      register := map[];
    }

    method RegisterLookup(ty: TypeTag, lookup: K, view: TextureView)
      modifies this
      ensures register == Registered(old(register), ty, lookup, view)
    {
      if ty in register {
        register := register[ty := register[ty] + [(lookup, view)]];
      } else {
        assert [] + [(lookup, view)] == [(lookup, view)];
        register := register[ty := [(lookup, view)]];
      }
    }

    function Get(ty: TypeTag, lookup: K): (r: Option<TextureView>)
      reads this
      ensures r.None? <==> ty !in register || forall i :: 0 <= i < |register[ty]| ==> register[ty][i].0 != lookup
    {
      Lookup(register, ty, lookup)
    }
  }
}
