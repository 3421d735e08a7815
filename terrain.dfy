/** `World2dTerrainPipeline`: a 2D world's terrain, every tile one instance of the unit quad
    sampling the terrain's shared tile rectangle of a texture this pipeline created. */
module Terrain {
  import opened Base
  import opened Gpu
  import opened Quads
  import opened Textures
  import opened ImageUploads
  import WriteDescriptors

  /** `World2dTerrain`: the texture, the UV rectangle every tile samples, the tile size and the
      tiles as (position, shading) pairs. */
  datatype World2dTerrain = World2dTerrain(texture: TextureInner, tileUv: (Vec2, Vec2), tileSize: Vec2, tiles: seq<(Vec2, real)>)

  /** The `InstanceData` of one tile. */
  function TileInstance(terrain: World2dTerrain, tile: (Vec2, real)): Vertex
  {
    TerrainInstance(tile.0, terrain.tileUv.0, terrain.tileUv.1, tile.1)
  }

  /** The instance buffer: one record per tile, in tile order. */
  function Instances(terrain: World2dTerrain): (vs: seq<Vertex>)
    ensures |vs| == |terrain.tiles|
    ensures forall i :: 0 <= i < |vs| ==> vs[i] == TileInstance(terrain, terrain.tiles[i])
  {
    seq(|terrain.tiles|, i requires 0 <= i < |terrain.tiles| => TileInstance(terrain, terrain.tiles[i]))
  }

  /** Every instance samples the shared tile rectangle, and the tiles can be read back from the
      instance buffer unchanged. */
  lemma InstancesRoundTrip(terrain: World2dTerrain)
    ensures forall i :: 0 <= i < |Instances(terrain)| ==>
      Instances(terrain)[i].TerrainInstance?
      && Instances(terrain)[i].uv0 == terrain.tileUv.0 && Instances(terrain)[i].uv1 == terrain.tileUv.1
    ensures var vs := Instances(terrain);
      seq(|vs|, i requires 0 <= i < |vs| && vs[i].TerrainInstance? => (vs[i].tilePos, vs[i].shading)) == terrain.tiles
  {
  }

  /** The commands `draw` records for a terrain of this pipeline. */
  function DrawLog(terrain: World2dTerrain): seq<Cmd>
  {
    InstancedQuadLog(TerrainPipeline, terrain.texture.descriptor, Instances(terrain))
  }

  /** The drawn commands do not depend on the terrain's tile size. */
  lemma DrawIgnoresTileSize(terrain: World2dTerrain, tileSize: Vec2)
    ensures DrawLog(terrain.(tileSize := tileSize)) == DrawLog(terrain)
  {
    var other := terrain.(tileSize := tileSize);
    assert Instances(other) == Instances(terrain);
  }

  /** One draw for the whole terrain, with the texture's own descriptor bound: one instance
      per tile, instance i being tile i. */
  lemma DrawLogDrawsEveryTile(terrain: World2dTerrain)
    ensures var log := DrawLog(terrain);
      && DrawCount(log) == 1 && log[1] == BindDescriptorSet(terrain.texture.descriptor)
      && log[4] == DrawIndexed(6, |terrain.tiles|, 0, 0, 0)
      && forall i :: 0 <= i < |terrain.tiles| ==> log[3].buffers[1][i] == TileInstance(terrain, terrain.tiles[i])
  {
    InstancedQuadLogDraws(TerrainPipeline, terrain.texture.descriptor, Instances(terrain));
  }

  class World2dTerrainPipeline {
    const quadIndexBuffer: seq<nat>
    const quadVertexBuffer: seq<Vertex>
    const textureSampler: Sampler
    const originMarker: OriginMarker
    /** The pipeline's first descriptor set layout. */
    const layout: SetLayout
    /** The `WriteDescriptorSetCollection` the pipeline was created with. */
    const writeDescriptors: map<nat, WriteDescriptor>

    /** `new`: the quad buffers, a nearest-filtering sampler and an origin marker of its own. */
    constructor (layout: SetLayout, writeDescriptors: map<nat, WriteDescriptor>)
      ensures quadIndexBuffer == QUAD_INDICES && quadVertexBuffer == QuadVertices()
      ensures textureSampler == Sampler(Filter.Nearest, Filter.Nearest, MipmapNearest)
      ensures fresh(originMarker)
      ensures this.layout == layout && this.writeDescriptors == writeDescriptors
    {
      quadIndexBuffer := QUAD_INDICES;
      quadVertexBuffer := QuadVertices();
      textureSampler := Sampler(Filter.Nearest, Filter.Nearest, MipmapNearest);
      originMarker := new OriginMarker();
      this.layout := layout;
      this.writeDescriptors := writeDescriptors;
    }

    /** Whether a texture id carries this pipeline's origin marker. */
    predicate Accepts(id: TextureInner)
    {
      id.origin == originMarker
    }

    /** `draw`: a terrain whose texture is not of this pipeline reaches `todo!()`; otherwise a
        failed instance buffer allocation returns before anything is recorded. */
    method Draw(builder: CommandBuffer, terrain: World2dTerrain, bufferOk: bool) returns (r: Outcome<Result<(), DrawError>>)
      modifies builder
      ensures r.Panicked? <==> !Accepts(terrain.texture)
      ensures r == Returned(Ok(())) <==> Accepts(terrain.texture) && bufferOk
      ensures r == Returned(Ok(())) ==> builder.log == old(builder.log) + DrawLog(terrain)
      ensures r != Returned(Ok(())) ==> builder.log == old(builder.log)
      ensures r.Returned? && r.value.Err? ==> r.value.error == BufferAllocateError
    {
      if terrain.texture.origin != originMarker {
        return Panicked;
      }
      if !bufferOk {
        return Returned(Err(BufferAllocateError));
      }
      var instances := Instances(terrain);
      builder.Record(BindPipeline(TerrainPipeline));
      builder.Record(BindDescriptorSet(terrain.texture.descriptor));
      builder.Record(BindIndexBuffer(QUAD_INDICES));
      builder.Record(BindVertexBuffers([QuadVertices(), instances]));
      builder.Record(DrawIndexed(6, |terrain.tiles|, 0, 0, 0));
      r := Returned(Ok(()));
    }

    /** The descriptor set `create_image_desc` builds: the image sampler at binding 0, then
        the collection's descriptors for the layout's bindings. */
    function TextureDescriptor(image: Image): (d: DescriptorSet)
      ensures d.layout == layout && |d.writes| > 0 && d.writes[0] == ImageViewSampler(0, image, textureSampler)
      ensures d.writes[1..] == WriteDescriptors.RequiredDescriptors(writeDescriptors, layout.bindings)
    {
      DescriptorSet(layout, [ImageViewSampler(0, image, textureSampler)]
                            + WriteDescriptors.RequiredDescriptors(writeDescriptors, layout.bindings))
    }

    /** `create_texture`: allocate the image, build its descriptor set, record the copy of the
        pixels into it, and hand out an id carrying this pipeline's marker. Each step that
        fails returns its error before the later steps, and only the last one records. */
    method CreateTexture(builder: CommandBuffer, rgba: seq<nat>, width: nat, height: nat,
                         imageOk: bool, descriptorOk: bool, stagingOk: bool)
      returns (r: Result<TextureInner, UploadError>)
      modifies builder
      ensures r.Ok? <==> imageOk && descriptorOk && stagingOk
      ensures r.Ok? ==> fresh(r.value) && fresh(r.value.image) && Accepts(r.value)
                        && r.value.image.width == width && r.value.image.height == height
                        && r.value.descriptor == TextureDescriptor(r.value.image)
                        && builder.log == old(builder.log) + [CopyBufferToImage(WholeImageCopy(rgba, r.value.image))]
      ensures !imageOk ==> r == Err(ImageAllocationFailed)
      ensures imageOk && !descriptorOk ==> r == Err(VulkanFailed)
      ensures imageOk && descriptorOk && !stagingOk ==> r == Err(BufferAllocationFailed)
      ensures r.Err? ==> builder.log == old(builder.log)
    {
      if !imageOk {
        return Err(ImageAllocationFailed);
      }
      var image := new Image(width, height);
      if !descriptorOk {
        return Err(VulkanFailed);
      }
      var descriptor := TextureDescriptor(image);
      if !stagingOk {
        return Err(BufferAllocationFailed);
      }
      builder.Record(CopyBufferToImage(WholeImageCopy(rgba, image)));
      var inner := new TextureInner(originMarker, image, descriptor);
      r := Ok(inner);
    }
  }
}
