/** `ImageSystem`: creates device images and queues the buffer-to-image copies that fill them;
    the renderer drains the queue in the order the copies were enqueued. */
module ImageUploads {
  import opened Base
  import opened Gpu

  /** `UploadError`: a failed vulkano call, image allocation or staging buffer allocation. */
  datatype UploadError = VulkanFailed | ImageAllocationFailed | BufferAllocationFailed

  /** A copy rectangle `([x, y], [width, height])`. */
  type Region = ((nat, nat), (nat, nat))

  /** The first region of a copy moved to the given rectangle; the other regions untouched. */
  function WithRegion(c: CopyInfo, region: Option<Region>): (r: CopyInfo)
    requires |c.regions| > 0
    ensures r.data == c.data && r.image == c.image && |r.regions| == |c.regions|
    ensures r.regions[1..] == c.regions[1..]
    ensures region.None? ==> r == c
    ensures region.Some? ==> r.regions[0] == CopyRegion(region.value.0, region.value.1)
  {
    match region
    case None => c
    case Some((offset, extent)) => c.(regions := [CopyRegion(offset, extent)] + c.regions[1..])
  }

  class ImageSystem {
    const memoAllocator: Allocator
    var uploadQueue: seq<CopyInfo>

    constructor (memoAllocator: Allocator)
      ensures this.memoAllocator == memoAllocator && uploadQueue == []
    {
      this.memoAllocator := memoAllocator;
      uploadQueue := [];
    }

    function HasUploadInfoEnqueued(): (b: bool)
      reads this
      ensures b <==> |uploadQueue| > 0
    {
      uploadQueue != []
    }

    /** `next_upload_info`: the oldest enqueued copy, taken off the queue. */
    method NextUploadInfo() returns (r: Option<CopyInfo>)
      modifies this
      ensures old(uploadQueue) == [] ==> r == None && uploadQueue == []
      ensures old(uploadQueue) != [] ==> r == Some(old(uploadQueue)[0]) && uploadQueue == old(uploadQueue)[1..]
    {
      if uploadQueue == [] {
        return None;
      }
      r := Some(uploadQueue[0]);
      uploadQueue := uploadQueue[1..];
    }

    /** `create_image`: a new RGBA image of the given extent. */
    method CreateImage(width: nat, height: nat, created: bool) returns (r: Result<Image, UploadError>)
      ensures r.Ok? <==> created
      ensures r.Ok? ==> fresh(r.value) && r.value.width == width && r.value.height == height
      ensures r.Err? ==> r.error == ImageAllocationFailed
    {
      if !created {
        return Err(ImageAllocationFailed);
      }
      var image := new Image(width, height);
      r := Ok(image);
    }

    /** `create_copy_buffer_to_image_image`: stages the bytes and copies them over the whole image. */
    function CreateCopy(image: Image, rgba: seq<nat>, staged: bool): (r: Result<CopyInfo, UploadError>)
      ensures r.Ok? <==> staged
      ensures r.Ok? ==> r.value == WholeImageCopy(rgba, image)
      ensures r.Err? ==> r.error == BufferAllocationFailed
    {
      if staged then Ok(WholeImageCopy(rgba, image)) else Err(BufferAllocationFailed)
    }

    /** `enqueue_image_upload`: queues a whole-image copy; nothing is queued if staging fails. */
    method EnqueueImageUpload(image: Image, rgba: seq<nat>, staged: bool) returns (r: Result<(), UploadError>)
      modifies this
      ensures r.Ok? <==> staged
      ensures r.Err? ==> r.error == BufferAllocationFailed
      ensures uploadQueue == if staged then old(uploadQueue) + [WholeImageCopy(rgba, image)] else old(uploadQueue)
    {
      var copy := CreateCopy(image, rgba, staged);
      if copy.Err? {
        return Err(copy.error);
      }
      uploadQueue := uploadQueue + [copy.value];
      r := Ok(());
    }

    /** `create_and_upload_image`: a new image with its upload queued behind everything already
        queued. */
    method CreateAndUploadImage(rgba: seq<nat>, width: nat, height: nat, created: bool, staged: bool)
      returns (r: Result<Image, UploadError>)
      modifies this
      ensures r.Ok? <==> created && staged
      ensures !created ==> r == Err(ImageAllocationFailed) && uploadQueue == old(uploadQueue)
      ensures created && !staged ==> r == Err(BufferAllocationFailed) && uploadQueue == old(uploadQueue)
      ensures r.Ok? ==> fresh(r.value) && r.value.width == width && r.value.height == height
                        && uploadQueue == old(uploadQueue) + [WholeImageCopy(rgba, r.value)]
    {
      var image := CreateImage(width, height, created);
      if image.Err? {
        return Err(image.error);
      }
      var queued := EnqueueImageUpload(image.value, rgba, staged);
      if queued.Err? {
        return Err(queued.error);
      }
      r := Ok(image.value);
    }

    /** `enqueue_image_update`: queues a copy of the bytes into the given rectangle of the image,
        or over the whole image when no rectangle is given. */
    method EnqueueImageUpdate(image: Image, region: Option<Region>, rgba: seq<nat>, staged: bool)
      returns (r: Result<(), UploadError>)
      modifies this
      ensures r.Ok? <==> staged
      ensures uploadQueue == if staged then old(uploadQueue) + [WithRegion(WholeImageCopy(rgba, image), region)]
                             else old(uploadQueue)
    {
      var copy := CreateCopy(image, rgba, staged);
      if copy.Err? {
        return Err(copy.error);
      }
      var info := copy.value;
      if region.Some? {
        var ((x, y), (width, height)) := region.value;
        info := info.(regions := [CopyRegion((x, y), (width, height))] + info.regions[1..]);
      }
      uploadQueue := uploadQueue + [info];
      r := Ok(());
    }
  }

  /** A rectangle update copies exactly that rectangle of the image, one region only. */
  lemma UpdateCopiesRegion(image: Image, rgba: seq<nat>, region: Region)
    ensures WithRegion(WholeImageCopy(rgba, image), Some(region)).regions == [CopyRegion(region.0, region.1)]
  {
  }
}
