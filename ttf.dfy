/** `FontRenderer`: texts rendered by a font thread, cached by text with a last-used counter.
    A text not yet cached is requested from the thread and drawn with a shared 1×1 dummy
    texture until its rendering arrives; an entry unused for 256 frames is evicted. */
module Ttf {
  import opened Base
  import opened Gpu
  import opened Textures
  import opened ImageUploads
  import Textured

  /** The `u8` last-used counter. */
  type Counter = Byte

  const DUMMY_TEXTURE_WIDTH: nat := 1
  const DUMMY_TEXTURE_HEIGHT: nat := 1
  const DUMMY_TEXTURE_RGBA: seq<nat> := [0, 0, 0, 0]
  const DEFAULT_LAST_USED_COUNTER: Counter := 0

  /** A cached text: its texture, its size in pixels and the frames since it was last used. */
  datatype CacheEntry = CacheEntry(texture: TextureInner, width: real, height: real, counter: Counter)

  datatype FontRenderRequest = FontRenderRequest(size: nat, color: (nat, nat, nat, nat), text: string)

  /** A finished rendering: the text, its RGBA pixels and their extent. */
  datatype CacheUpdate = CacheUpdate(text: string, data: seq<nat>, width: nat, height: nat)

  /** Whether the image, its staging buffer and its texture can be created; every `unwrap` of
      theirs panics when one cannot. */
  datatype Allocation = Allocation(imageCreated: bool, staged: bool, prepared: bool)
  {
    predicate AllOk() { imageCreated && staged && prepared }
  }

  type Cache = map<string, CacheEntry>

  // ----- Aging -----

  /** One `on_frame_completed`: an entry past 254 is dropped, every other one ages by a frame. */
  function Aged(cache: Cache): Cache
  {
    map t | t in cache && cache[t].counter <= 254 :: cache[t].(counter := cache[t].counter + 1)
  }

  /** One entry's step in `on_frame_completed`, before the entries past 254 are removed. */
  function Advanced(e: CacheEntry): CacheEntry
  {
    if e.counter > 254 then e else e.(counter := e.counter + 1)
  }

  /** The cache after `n` completed frames without a use. */
  function AgedFor(cache: Cache, n: nat): Cache
  {
    if n == 0 then cache else Aged(AgedFor(cache, n - 1))
  }

  /** An entry with counter `c` survives exactly `255 - c` unused frames, aging one step each,
      with its texture and size untouched; so a fresh entry lives through 255 frames and is gone
      after the 256th. Counters never pass 255. */
  lemma {:induction false} EntryLifetime(cache: Cache, t: string, n: nat)
    requires t in cache
    ensures t in AgedFor(cache, n) <==> cache[t].counter + n <= 255
    ensures t in AgedFor(cache, n) ==> AgedFor(cache, n)[t] == cache[t].(counter := cache[t].counter + n)
  {
    if n > 0 {
      EntryLifetime(cache, t, n - 1);
    }
  }

  /** Aging never adds an entry. */
  lemma {:induction false} AgingOnlyEvicts(cache: Cache, n: nat)
    ensures AgedFor(cache, n).Keys <= cache.Keys
  {
    if n > 0 {
      AgingOnlyEvicts(cache, n - 1);
    }
  }

  // ----- Draining the result queue -----

  /** The texts that have a rendering among `updates`. */
  function Texts(updates: seq<CacheUpdate>): set<string>
  {
    set j | 0 <= j < |updates| :: updates[j].text
  }

  /** The last rendering of `t` among `updates`. */
  function Latest(updates: seq<CacheUpdate>, t: string): (u: CacheUpdate)
    requires t in Texts(updates)
    ensures u.text == t
  {
    var last := updates[|updates| - 1];
    if last.text == t then last
    else
      assert forall j :: 0 <= j < |updates| - 1 ==> updates[..|updates| - 1][j] == updates[j];
      assert t in Texts(updates[..|updates| - 1]);
      Latest(updates[..|updates| - 1], t)
  }

  /** `Latest` is a rendering of that text that no later one replaces. */
  lemma {:induction false} LatestIsLast(updates: seq<CacheUpdate>, t: string)
    requires t in Texts(updates)
    ensures exists j :: 0 <= j < |updates| && updates[j] == Latest(updates, t)
                        && forall k :: j < k < |updates| ==> updates[k].text != t
  {
    var n := |updates| - 1;
    if updates[n].text == t {
      assert updates[n] == Latest(updates, t);
    } else {
      var init := updates[..|updates| - 1];
      assert forall j :: 0 <= j < n ==> init[j] == updates[j];
      assert t in Texts(init);
      assert Latest(updates, t) == Latest(init, t);
      LatestIsLast(init, t);
      var j :| 0 <= j < n && init[j] == Latest(init, t) && forall k :: j < k < n ==> init[k].text != t;
      assert updates[j] == Latest(updates, t);
      assert forall k :: j < k < |updates| ==> updates[k].text != t by {
        forall k | j < k < |updates|
          ensures updates[k].text != t
        {
          if k < n {
            assert init[k] == updates[k];
          }
        }
      }
    }
  }

  /** `e` caches the rendering `u` with a texture of `pipeline`: its own size, counter 0. */
  predicate EntryFor(pipeline: Textured.TexturedPipeline, e: CacheEntry, u: CacheUpdate)
  {
    && e.counter == 0 && e.width == u.width as real && e.height == u.height as real
    && e.texture.image.width == u.width && e.texture.image.height == u.height
    && pipeline.textureManager.IsOriginOf(e.texture)
  }

  /** `c1` is `c0` with every rendering of `updates` stored over its text, later ones winning. */
  ghost predicate RetrievedInto(pipeline: Textured.TexturedPipeline, c0: Cache, c1: Cache, updates: seq<CacheUpdate>)
  {
    && c1.Keys == c0.Keys + Texts(updates)
    && (forall t :: t in c0 && t !in Texts(updates) ==> c1[t] == c0[t])
    && (forall t :: t in Texts(updates) ==> EntryFor(pipeline, c1[t], Latest(updates, t)))
  }

  /** `queue` is `q0` with one whole-image upload per rendering, in order. */
  ghost predicate UploadsQueued(q0: seq<CopyInfo>, queue: seq<CopyInfo>, updates: seq<CacheUpdate>)
  {
    && |queue| == |q0| + |updates| && queue[..|q0|] == q0
    && forall j :: 0 <= j < |updates| ==>
         && queue[|q0| + j].data == updates[j].data
         && queue[|q0| + j].image.width == updates[j].width && queue[|q0| + j].image.height == updates[j].height
  }

  lemma RetrievedNone(pipeline: Textured.TexturedPipeline, c0: Cache, q0: seq<CopyInfo>, updates: seq<CacheUpdate>)
    ensures RetrievedInto(pipeline, c0, c0, updates[..0]) && UploadsQueued(q0, q0, updates[..0])
  {
    assert updates[..0] == [];
    assert Texts([]) == {};
  }

  lemma TextsSnoc(updates: seq<CacheUpdate>, u: CacheUpdate)
    ensures Texts(updates + [u]) == Texts(updates) + {u.text}
  {
    var after := updates + [u];
    assert after[|updates|] == u;
    forall t | t in Texts(after) ensures t in Texts(updates) + {u.text} {
      var j :| 0 <= j < |after| && after[j].text == t;
      if j < |updates| { assert updates[j] == after[j]; }
    }
    forall t | t in Texts(updates) ensures t in Texts(after) {
      var j :| 0 <= j < |updates| && updates[j].text == t;
      assert after[j] == updates[j];
    }
  }

  lemma LatestSnoc(updates: seq<CacheUpdate>, u: CacheUpdate, t: string)
    requires t in Texts(updates) && t != u.text
    ensures t in Texts(updates + [u]) && Latest(updates + [u], t) == Latest(updates, t)
  {
    TextsSnoc(updates, u);
    assert (updates + [u])[..|updates|] == updates;
  }

  lemma UploadsSnoc(q0: seq<CopyInfo>, queue: seq<CopyInfo>, updates: seq<CacheUpdate>, u: CacheUpdate, copy: CopyInfo)
    requires UploadsQueued(q0, queue, updates)
    requires copy.data == u.data && copy.image.width == u.width && copy.image.height == u.height
    ensures UploadsQueued(q0, queue + [copy], updates + [u])
  {
    var next, after := queue + [copy], updates + [u];
    assert next[..|q0|] == q0;
    forall j | 0 <= j < |after|
      ensures next[|q0| + j].data == after[j].data
      ensures next[|q0| + j].image.width == after[j].width && next[|q0| + j].image.height == after[j].height
    {
      if j < |updates| {
        assert next[|q0| + j] == queue[|q0| + j] && after[j] == updates[j];
      }
    }
  }

  /** Storing one more rendering over its text keeps the cache and the upload queue in step
      with the renderings taken so far. */
  lemma RetrievedStep(pipeline: Textured.TexturedPipeline, c0: Cache, c: Cache, q0: seq<CopyInfo>, queue: seq<CopyInfo>,
                      updates: seq<CacheUpdate>, k: nat, e: CacheEntry, copy: CopyInfo)
    requires k < |updates|
    requires RetrievedInto(pipeline, c0, c, updates[..k]) && UploadsQueued(q0, queue, updates[..k])
    requires EntryFor(pipeline, e, updates[k])
    requires copy.data == updates[k].data && copy.image.width == updates[k].width && copy.image.height == updates[k].height
    ensures RetrievedInto(pipeline, c0, c[updates[k].text := e], updates[..k + 1])
    ensures UploadsQueued(q0, queue + [copy], updates[..k + 1])
  {
    var u, before := updates[k], updates[..k];
    var after, c1 := before + [u], c[u.text := e];
    assert updates[..k + 1] == after;
    TextsSnoc(before, u);
    assert c1.Keys == c0.Keys + Texts(after);
    assert Latest(after, u.text) == u;
    forall t | t in Texts(after) ensures EntryFor(pipeline, c1[t], Latest(after, t)) {
      if t != u.text {
        LatestSnoc(before, u, t);
      }
    }
    UploadsSnoc(q0, queue, before, u, copy);
  }

  // ----- The quad -----

  /** Part way through the aging pass: the entries still `pending` are as they were, the others
      have advanced, and `remove` holds exactly the visited keys past 254. */
  ghost predicate AgingProgress(before: Cache, cache: Cache, pending: set<string>, remove: seq<string>)
  {
    && pending <= before.Keys && cache.Keys == before.Keys
    && (forall t :: t in pending ==> cache[t] == before[t])
    && (forall t :: t in before && t !in pending ==> cache[t] == Advanced(before[t]))
    && (forall t :: t in remove <==> t in before && t !in pending && before[t].counter > 254)
  }

  /** Visiting one pending key keeps the aging pass's progress. */
  lemma AgingStep(before: Cache, cache: Cache, pending: set<string>, remove: seq<string>, key: string)
    requires AgingProgress(before, cache, pending, remove) && key in pending
    ensures var e := cache[key];
      AgingProgress(before, if e.counter > 254 then cache else cache[key := e.(counter := e.counter + 1)],
                    pending - {key}, if e.counter > 254 then remove + [key] else remove)
  {
  }

  /** The `Vertex2dUv`s of a text at (x, y) of size w×h: two triangles sharing the diagonal from
      the top-left (UV (0, 0)) to the bottom-right (UV (1, 1)) corner, each position at its UV's place in the rectangle. */
  function Quad(x: real, y: real, w: real, h: real): (vs: seq<(Vec2, Vec2)>)
    ensures |vs| == 6
    ensures forall i :: 0 <= i < |vs| ==> vs[i].0 == Vec2(x + vs[i].1.x * w, y + vs[i].1.y * h)
    ensures (set i | 0 <= i < |vs| :: vs[i].1) == {Vec2(0.0, 0.0), Vec2(1.0, 0.0), Vec2(1.0, 1.0), Vec2(0.0, 1.0)}
    ensures vs[2] == vs[3] && vs[5] == vs[0] && vs[1].1 == Vec2(1.0, 0.0) && vs[4].1 == Vec2(0.0, 1.0)
  {
    var vs := [
      (Vec2(x, y), Vec2(0.0, 0.0)),
      (Vec2(x + w, y), Vec2(1.0, 0.0)),
      (Vec2(x + w, y + h), Vec2(1.0, 1.0)),
      (Vec2(x + w, y + h), Vec2(1.0, 1.0)),
      (Vec2(x, y + h), Vec2(0.0, 1.0)),
      (Vec2(x, y), Vec2(0.0, 0.0))
    ];
    assert (set i | 0 <= i < |vs| :: vs[i].1) == {Vec2(0.0, 0.0), Vec2(1.0, 0.0), Vec2(1.0, 1.0), Vec2(0.0, 1.0)} by {
      assert vs[0].1 == Vec2(0.0, 0.0) && vs[1].1 == Vec2(1.0, 0.0) && vs[2].1 == Vec2(1.0, 1.0) && vs[4].1 == Vec2(0.0, 1.0);
    }
    vs
  }

  class FontRenderer {
    var dummyImage: Option<TextureInner>
    var cache: Cache
    /** What was sent to the font thread, oldest first. */
    var requests: seq<FontRenderRequest>
    /** Renderings the font thread finished and nobody has taken yet, oldest first. */
    var updateQueue: seq<CacheUpdate>

    /** `new`: nothing cached, requested or rendered, and no dummy texture yet. */
    constructor ()
      ensures dummyImage == None && cache == map[] && requests == [] && updateQueue == []
    {
      dummyImage := None;
      cache := map[];
      requests := [];
      updateQueue := [];
    }

    /** The font thread finishing a request: its result is queued. */
    method RenderCompleted(u: CacheUpdate)
      modifies this
      ensures updateQueue == old(updateQueue) + [u]
      ensures cache == old(cache) && requests == old(requests) && dummyImage == old(dummyImage)
    {
      updateQueue := updateQueue + [u];
    }

    /** `on_frame_completed`: counters are advanced in place, the entries past 254 collected,
        and those removed afterwards. */
    method OnFrameCompleted()
      modifies this
      ensures cache == Aged(old(cache))
      ensures dummyImage == old(dummyImage) && requests == old(requests) && updateQueue == old(updateQueue)
    {
      ghost var before := cache;
      var remove := AdvanceCounters();
      RemoveAll(remove);
      assert cache.Keys == Aged(before).Keys by {
        forall t | t in before ensures t in cache <==> before[t].counter <= 254 {
          assert t in remove <==> exists j :: 0 <= j < |remove| && remove[j] == t;
        }
      }
    }

    /** The `iter_mut` pass: every entry ages by a frame, except those past 254, whose keys
        are returned. */
    method AdvanceCounters() returns (remove: seq<string>)
      modifies this
      ensures cache.Keys == old(cache).Keys
      ensures forall t :: t in cache ==> cache[t] == Advanced(old(cache)[t])
      ensures forall t :: t in remove <==> t in cache && old(cache)[t].counter > 254
      ensures dummyImage == old(dummyImage) && requests == old(requests) && updateQueue == old(updateQueue)
    {
      ghost var before := cache;
      remove := [];
      var pending := cache.Keys;
      while pending != {}
        invariant AgingProgress(before, cache, pending, remove)
        invariant dummyImage == old(dummyImage) && requests == old(requests) && updateQueue == old(updateQueue)
        decreases pending
      {
        var key :| key in pending;
        AgingStep(before, cache, pending, remove, key);
        var entry := cache[key];
        if entry.counter > 254 {
          remove := remove + [key];
        } else {
          cache := cache[key := entry.(counter := entry.counter + 1)];
        }
        pending := pending - {key};
      }
    }

    /** The removal pass. */
    method RemoveAll(keys: seq<string>)
      modifies this
      ensures cache.Keys == old(cache).Keys - (set t | t in keys)
      ensures forall t :: t in cache ==> cache[t] == old(cache)[t]
      ensures dummyImage == old(dummyImage) && requests == old(requests) && updateQueue == old(updateQueue)
    {
      for i := 0 to |keys|
        invariant cache.Keys == old(cache).Keys - (set j | 0 <= j < i :: keys[j])
        invariant forall t :: t in cache ==> cache[t] == old(cache)[t]
        invariant dummyImage == old(dummyImage) && requests == old(requests) && updateQueue == old(updateQueue)
      {
        cache := cache - {keys[i]};
      }
      assert (set j | 0 <= j < |keys| :: keys[j]) == set t | t in keys;
    }

    /** `retrieve_threaded_updates`: every finished rendering, oldest first, becomes an image
        with its upload queued and a texture of `pipeline`, stored over its text's entry. The
        first image or texture that cannot be made panics. */
    method RetrieveThreadedUpdates(pipeline: Textured.TexturedPipeline, images: ImageSystem, alloc: Allocation)
      returns (r: Outcome<()>)
      modifies this, images
      ensures r.Returned? <==> old(updateQueue) == [] || alloc.AllOk()
      ensures r.Returned? ==> updateQueue == [] && RetrievedInto(pipeline, old(cache), cache, old(updateQueue))
      ensures r.Returned? ==> UploadsQueued(old(images.uploadQueue), images.uploadQueue, old(updateQueue))
      ensures dummyImage == old(dummyImage) && requests == old(requests)
    {
      ghost var queue0, c0, q0 := updateQueue, cache, images.uploadQueue;
      ghost var k := 0;
      RetrievedNone(pipeline, c0, q0, queue0);
      while updateQueue != []
        invariant k <= |queue0| && updateQueue == queue0[k..]
        invariant RetrievedInto(pipeline, c0, cache, queue0[..k]) && UploadsQueued(q0, images.uploadQueue, queue0[..k])
        invariant k > 0 ==> alloc.AllOk()
        invariant dummyImage == old(dummyImage) && requests == old(requests)
        decreases |updateQueue|
      {
        var u := updateQueue[0];
        updateQueue := updateQueue[1..];
        ghost var queueBefore := images.uploadQueue;
        var image := images.CreateAndUploadImage(u.data, u.width, u.height, alloc.imageCreated, alloc.staged);
        if image.Err? {
          return Panicked;
        }
        var texture := pipeline.PrepareTexture(image.value, alloc.prepared);
        if texture.Err? {
          return Panicked;
        }
        var entry := CacheEntry(texture.value, u.width as real, u.height as real, 0);
        RetrievedStep(pipeline, c0, cache, q0, queueBefore, queue0, k, entry,
                      WholeImageCopy(u.data, image.value));
        cache := cache[u.text := entry];
        k := k + 1;
      }
      assert queue0[..k] == queue0;
      r := Returned(());
    }

    /** `get_or_create_dummy_texture`: the 1×1 transparent texture is made on first use only;
        afterwards the same texture is returned and nothing is uploaded. */
    method GetOrCreateDummyTexture(pipeline: Textured.TexturedPipeline, images: ImageSystem, alloc: Allocation)
      returns (r: Outcome<TextureInner>)
      modifies this, images
      ensures old(dummyImage).Some? ==> r == Returned(old(dummyImage).value) && images.uploadQueue == old(images.uploadQueue)
      ensures old(dummyImage).None? ==> (r.Returned? <==> alloc.AllOk())
      ensures old(dummyImage).None? && r.Returned? ==>
        && fresh(r.value) && r.value.image.width == DUMMY_TEXTURE_WIDTH && r.value.image.height == DUMMY_TEXTURE_HEIGHT
        && pipeline.textureManager.IsOriginOf(r.value)
        && images.uploadQueue == old(images.uploadQueue) + [WholeImageCopy(DUMMY_TEXTURE_RGBA, r.value.image)]
      ensures r.Returned? ==> dummyImage == Some(r.value)
      ensures r.Panicked? ==> dummyImage == old(dummyImage)
      ensures cache == old(cache) && requests == old(requests) && updateQueue == old(updateQueue)
    {
      if dummyImage.Some? {
        return Returned(dummyImage.value);
      }
      var image := images.CreateAndUploadImage(DUMMY_TEXTURE_RGBA, DUMMY_TEXTURE_WIDTH, DUMMY_TEXTURE_HEIGHT,
                                               alloc.imageCreated, alloc.staged);
      if image.Err? {
        return Panicked;
      }
      var texture := pipeline.PrepareTexture(image.value, alloc.prepared);
      if texture.Err? {
        return Panicked;
      }
      dummyImage := Some(texture.value);
      r := Returned(texture.value);
    }

    /** `prepare_render`: after the finished renderings are taken in, a cached text is drawn
        with its own texture and size and its counter reset; an uncached one is requested once
        and cached with the dummy texture at 1×1 until its rendering arrives. The key is the
        text alone: size and colour matter only to the request. `retrieved` is the cache once
        the renderings are taken in. */
    method PrepareRender(pipeline: Textured.TexturedPipeline, images: ImageSystem, text: string, size: nat,
                         color: (nat, nat, nat, nat), x: real, y: real, updateAlloc: Allocation, dummyAlloc: Allocation)
      returns (r: Outcome<Textured.Textured>, ghost retrieved: Cache)
      modifies this, images
      ensures r.Panicked? <==> (old(updateQueue) != [] && !updateAlloc.AllOk())
                               || (text !in old(cache) && text !in Texts(old(updateQueue)) && old(dummyImage).None?
                                   && !dummyAlloc.AllOk())
      ensures r.Returned? ==> updateQueue == [] && RetrievedInto(pipeline, old(cache), retrieved, old(updateQueue))
      ensures r.Returned? && text in retrieved ==>
        && cache == retrieved[text := retrieved[text].(counter := DEFAULT_LAST_USED_COUNTER)]
        && requests == old(requests) && dummyImage == old(dummyImage)
      ensures r.Returned? && text !in retrieved ==>
        && requests == old(requests) + [FontRenderRequest(size, color, text)]
        && dummyImage.Some? && (old(dummyImage).Some? ==> dummyImage == old(dummyImage))
        && cache == retrieved[text := CacheEntry(dummyImage.value, DUMMY_TEXTURE_WIDTH as real, DUMMY_TEXTURE_HEIGHT as real,
                                                 DEFAULT_LAST_USED_COUNTER)]
      ensures r.Returned? ==> text in cache && r.value.texture == cache[text].texture
                              && r.value.vertices == Quad(x, y, cache[text].width, cache[text].height)
    {
      var drained := RetrieveThreadedUpdates(pipeline, images, updateAlloc);
      retrieved := cache;
      if drained.Panicked? {
        return Panicked, retrieved;
      }
      var texture, w, h;
      if text in cache {
        var entry := cache[text];
        cache := cache[text := entry.(counter := DEFAULT_LAST_USED_COUNTER)];
        texture, w, h := entry.texture, entry.width, entry.height;
      } else {
        requests := requests + [FontRenderRequest(size, color, text)];
        var dummy := GetOrCreateDummyTexture(pipeline, images, dummyAlloc);
        if dummy.Panicked? {
          return Panicked, retrieved;
        }
        texture, w, h := dummy.value, DUMMY_TEXTURE_WIDTH as real, DUMMY_TEXTURE_HEIGHT as real;
        cache := cache[text := CacheEntry(texture, w, h, DEFAULT_LAST_USED_COUNTER)];
      }
      r := Returned(Textured.Textured(Quad(x, y, w, h), texture));
    }
  }
}
