/**
 * The image generator's device-side state: its three LRU caches (compute
 * pipelines, textures, buffers), the device that hands out fresh handles,
 * and the queue that receives submissions and texture uploads.
 *
 * `GenModel` is that state as a value; `TextureLookup`, `BufferLookup` and
 * `PipelineLookup` are `get_or_create_*` as functions of it; the class
 * `ImageGenerator` holds the mutable caches and its methods are proved
 * against those functions.
 */
module GeneratorCore {
  import opened Wrappers
  import opened MachineInts
  import opened GpuTypes
  import opened Lru

  /** Every cache starts with room for 100 entries. */
  const DEFAULT_MAX_CACHE_SIZE: nat := 100

  datatype GenModel = GenModel(
    pipelines: CacheState<PipelineCacheKey, CachedPipeline>,
    textures: CacheState<TextureCacheKey, Texture>,
    buffers: CacheState<BufferCacheKey, Buffer>,
    nextId: nat,
    queue: seq<QueueOp>)

  /**
   * Between calls every cache keeps the LRU invariant, every cached value
   * was made from its own key, and every handle was handed out before
   * `nextId`, so a freshly created handle differs from all cached ones.
   */
  ghost predicate GenValid(m: GenModel)
  {
    && Invariant(m.pipelines) && Invariant(m.textures) && Invariant(m.buffers)
    && (forall k :: k in m.textures.entries ==>
          var t := m.textures.entries[k]; t.width == k.width && t.height == k.height && t.id < m.nextId)
    && (forall k :: k in m.buffers.entries ==>
          var b := m.buffers.entries[k]; b.size == k.size as nat && b.id < m.nextId)
    && (forall k :: k in m.pipelines.entries ==>
          var p := m.pipelines.entries[k]; p.bindGroupLayouts == PipelineLayout(k) && p.pipeline.id < m.nextId)
  }

  /** `NonZeroU32::new(count as u32)`. */
  function NonZeroCount(n: nat): (r: Option<u32>)
    ensures 0 < n < TWO_32 ==> r == Some(n as u32)
  {
    var c := Wrap32(n);
    if c == 0 then None else Some(c)
  }

  /**
   * The bind group layouts `get_or_create_pipeline` builds on a miss:
   * group 0 holds the input texture array (only when there are inputs)
   * followed by the storage output texture; group 1, holding the storage
   * buffer, exists only when the step has parameters.
   */
  function PipelineLayout(key: PipelineCacheKey): seq<seq<LayoutEntry>>
  {
    var n := key.inputTextureCount;
    var inputs := if n > 0 then [LayoutEntry(0, SampledTextureArray, NonZeroCount(n))] else [];
    var group0 := inputs + [LayoutEntry(if n > 0 then 1 else 0, StorageTexture, None)];
    if key.hasStorage then [group0, [LayoutEntry(0, StorageBuffer, None)]] else [group0]
  }

  lemma PipelineLayoutBindings(key: PipelineCacheKey)
    ensures var layouts := PipelineLayout(key);
      && |layouts| == (if key.hasStorage then 2 else 1)
      && |layouts[0]| == (if key.inputTextureCount > 0 then 2 else 1)
      && (key.inputTextureCount > 0 <==> layouts[0][0].kind == SampledTextureArray)
      && (key.inputTextureCount > 0 ==> layouts[0][0].binding == 0)
      && (0 < key.inputTextureCount < TWO_32 ==> layouts[0][0].count == Some(key.inputTextureCount as u32))
      && layouts[0][|layouts[0]| - 1] ==
           LayoutEntry(if key.inputTextureCount > 0 then 1 else 0, StorageTexture, None)
      && (key.hasStorage ==> layouts[1] == [LayoutEntry(0, StorageBuffer, None)])
  {
  }

  /** `get_or_create_texture` on the value of the generator. */
  function TextureLookup(m: GenModel, key: TextureCacheKey): (GenModel, Texture)
  {
    if key in m.textures.entries then
      (m.(textures := Touch(m.textures, key)), m.textures.entries[key])
    else
      var t := Texture(m.nextId, key.width, key.height);
      (m.(textures := Inserted(m.textures, key, t), nextId := m.nextId + 1), t)
  }

  /** `get_or_create_buffer` on the value of the generator. */
  function BufferLookup(m: GenModel, key: BufferCacheKey): (GenModel, Buffer)
  {
    if key in m.buffers.entries then
      (m.(buffers := Touch(m.buffers, key)), m.buffers.entries[key])
    else
      var b := Buffer(m.nextId, key.size as nat);
      (m.(buffers := Inserted(m.buffers, key, b), nextId := m.nextId + 1), b)
  }

  /** `get_or_create_pipeline` on the value of the generator. */
  function PipelineLookup(m: GenModel, key: PipelineCacheKey, shader: ShaderModule): (GenModel, CachedPipeline)
  {
    if key in m.pipelines.entries then
      (m.(pipelines := Touch(m.pipelines, key)), m.pipelines.entries[key])
    else
      var p := CachedPipeline(PipelineHandle(m.nextId, shader), PipelineLayout(key));
      (m.(pipelines := Inserted(m.pipelines, key, p), nextId := m.nextId + 1), p)
  }

  /** A buffer created outside the caches. */
  function FreshBuffer(m: GenModel, size: nat): (GenModel, Buffer)
  {
    (m.(nextId := m.nextId + 1), Buffer(m.nextId, size))
  }

  function Enqueued(m: GenModel, op: QueueOp): GenModel
  {
    m.(queue := m.queue + [op])
  }

  /**
   * A texture from the cache has the requested size; a hit returns the
   * stored texture and moves its key to the front; a miss creates a texture
   * whose handle is new; the other caches and the queue are untouched.
   */
  lemma TextureLookupFacts(m: GenModel, key: TextureCacheKey)
    requires GenValid(m)
    ensures var (m', t) := TextureLookup(m, key);
      && GenValid(m')
      && t.width == key.width && t.height == key.height
      && (key in m.textures.entries ==> t == m.textures.entries[key] && m'.nextId == m.nextId)
      && (key !in m.textures.entries ==> t.id == m.nextId && m'.nextId == m.nextId + 1)
      && (m.textures.maxSize > 0 ==> m'.textures.order[0] == key && m'.textures.entries[key] == t)
      && m'.pipelines == m.pipelines && m'.buffers == m.buffers && m'.queue == m.queue
  {
    if key in m.textures.entries {
      TouchKeepsInvariant(m.textures, key);
    } else {
      InsertKeepsInvariant(m.textures, key, Texture(m.nextId, key.width, key.height));
    }
  }

  lemma BufferLookupFacts(m: GenModel, key: BufferCacheKey)
    requires GenValid(m)
    ensures var (m', b) := BufferLookup(m, key);
      && GenValid(m')
      && b.size == key.size as nat
      && (key in m.buffers.entries ==> b == m.buffers.entries[key] && m'.nextId == m.nextId)
      && (key !in m.buffers.entries ==> b.id == m.nextId && m'.nextId == m.nextId + 1)
      && (m.buffers.maxSize > 0 ==> m'.buffers.order[0] == key && m'.buffers.entries[key] == b)
      && m'.pipelines == m.pipelines && m'.textures == m.textures && m'.queue == m.queue
  {
    if key in m.buffers.entries {
      TouchKeepsInvariant(m.buffers, key);
    } else {
      InsertKeepsInvariant(m.buffers, key, Buffer(m.nextId, key.size as nat));
    }
  }

  lemma PipelineLookupFacts(m: GenModel, key: PipelineCacheKey, shader: ShaderModule)
    requires GenValid(m)
    ensures var (m', p) := PipelineLookup(m, key, shader);
      && GenValid(m')
      && p.bindGroupLayouts == PipelineLayout(key)
      && (key in m.pipelines.entries ==> p == m.pipelines.entries[key] && m'.nextId == m.nextId)
      && (key !in m.pipelines.entries ==> p.pipeline == PipelineHandle(m.nextId, shader) && m'.nextId == m.nextId + 1)
      && (m.pipelines.maxSize > 0 ==> m'.pipelines.order[0] == key && m'.pipelines.entries[key] == p)
      && m'.textures == m.textures && m'.buffers == m.buffers && m'.queue == m.queue
  {
    if key in m.pipelines.entries {
      TouchKeepsInvariant(m.pipelines, key);
    } else {
      InsertKeepsInvariant(m.pipelines, key, CachedPipeline(PipelineHandle(m.nextId, shader), PipelineLayout(key)));
    }
  }

  lemma FreshAndEnqueueKeepValid(m: GenModel, size: nat, op: QueueOp)
    requires GenValid(m)
    ensures GenValid(FreshBuffer(m, size).0) && GenValid(Enqueued(m, op))
  {
  }

  /** The bind group layouts `get_or_create_pipeline` builds on a miss. */
  method BuildPipelineLayout(key: PipelineCacheKey) returns (layouts: seq<seq<LayoutEntry>>)
    ensures layouts == PipelineLayout(key)
  {
    var group0: seq<LayoutEntry> := [];
    if key.inputTextureCount > 0 {
      group0 := group0 + [LayoutEntry(0, SampledTextureArray, NonZeroCount(key.inputTextureCount))];
    }
    var outputBinding := if key.inputTextureCount > 0 then 1 else 0;
    ghost var inputs := group0;
    group0 := group0 + [LayoutEntry(outputBinding, StorageTexture, None)];
    assert group0 == PipelineLayout(key)[0] by {
      assert inputs + [LayoutEntry(outputBinding, StorageTexture, None)] == group0;
    }
    layouts := [group0];
    if key.hasStorage {
      layouts := layouts + [[LayoutEntry(0, StorageBuffer, None)]];
    }
    assert layouts == PipelineLayout(key);
  }

  class ImageGenerator {
    const pipelineCache: LruCache<PipelineCacheKey, CachedPipeline>
    const textureCache: LruCache<TextureCacheKey, Texture>
    const bufferCache: LruCache<BufferCacheKey, Buffer>
    /** The compute pipeline of the final step, made once by the constructor. */
    const postProcessPipeline: PipelineHandle
    /** The next handle id the device gives out. */
    var nextId: nat
    /** Everything handed to the GPU queue so far, in order. */
    var queue: seq<QueueOp>

    ghost function Repr(): set<object>
      reads this
    {
      {this, pipelineCache, textureCache, bufferCache}
    }

    function Model(): GenModel
      reads this, pipelineCache, textureCache, bufferCache
    {
      GenModel(pipelineCache.Model(), textureCache.Model(), bufferCache.Model(), nextId, queue)
    }

    ghost predicate Valid()
      reads this, pipelineCache, textureCache, bufferCache
    {
      && pipelineCache as object != textureCache as object
      && pipelineCache as object != bufferCache as object
      && textureCache as object != bufferCache as object
      && GenValid(Model())
    }

    /** The generator after device creation: empty caches of the default size. */
    constructor ()
      ensures Valid() && fresh(Repr())
      ensures Model() == GenModel(
        CacheState(map[], [], DEFAULT_MAX_CACHE_SIZE),
        CacheState(map[], [], DEFAULT_MAX_CACHE_SIZE),
        CacheState(map[], [], DEFAULT_MAX_CACHE_SIZE),
        1, [])
      ensures postProcessPipeline.id == 0
    {
      pipelineCache := new LruCache(DEFAULT_MAX_CACHE_SIZE);
      textureCache := new LruCache(DEFAULT_MAX_CACHE_SIZE);
      bufferCache := new LruCache(DEFAULT_MAX_CACHE_SIZE);
      postProcessPipeline := PipelineHandle(0, ShaderModule(0));
      nextId := 1;
      queue := [];
    }

    /** `set_max_cache_size`: the bound of the pipeline cache. */
    method SetMaxCacheSize(size: nat)
      requires Valid()
      modifies pipelineCache
      ensures Valid()
      ensures Model() == old(Model()).(pipelines := Resize(old(Model()).pipelines, size))
    {
      ResizeKeepsMostRecent(pipelineCache.Model(), size);
      pipelineCache.SetMaxSize(size);
    }

    /** `set_max_texture_cache_size`. */
    method SetMaxTextureCacheSize(size: nat)
      requires Valid()
      modifies textureCache
      ensures Valid()
      ensures Model() == old(Model()).(textures := Resize(old(Model()).textures, size))
    {
      ResizeKeepsMostRecent(textureCache.Model(), size);
      textureCache.SetMaxSize(size);
    }

    /** `set_max_buffer_cache_size`. */
    method SetMaxBufferCacheSize(size: nat)
      requires Valid()
      modifies bufferCache
      ensures Valid()
      ensures Model() == old(Model()).(buffers := Resize(old(Model()).buffers, size))
    {
      ResizeKeepsMostRecent(bufferCache.Model(), size);
      bufferCache.SetMaxSize(size);
    }

    method GetOrCreateTexture(step: nat, width: u32, height: u32, format: TextureFormat, usage: set<TextureUsage>)
      returns (t: Texture)
      requires Valid()
      modifies this, textureCache
      ensures Valid()
      ensures (Model(), t) == TextureLookup(old(Model()), TextureCacheKey(step, width, height, format, usage))
    {
      var key := TextureCacheKey(step, width, height, format, usage);
      TextureLookupFacts(Model(), key);
      var hit := textureCache.Lookup(key);
      if hit.Some? {
        return hit.value;
      }
      t := Texture(nextId, width, height);
      nextId := nextId + 1;
      textureCache.Insert(key, t);
    }

    method GetOrCreateBuffer(size: u64, usage: set<BufferUsage>) returns (b: Buffer)
      requires Valid()
      modifies this, bufferCache
      ensures Valid()
      ensures (Model(), b) == BufferLookup(old(Model()), BufferCacheKey(size, usage))
    {
      var key := BufferCacheKey(size, usage);
      BufferLookupFacts(Model(), key);
      var hit := bufferCache.Lookup(key);
      if hit.Some? {
        return hit.value;
      }
      b := Buffer(nextId, size as nat);
      nextId := nextId + 1;
      bufferCache.Insert(key, b);
    }

    /** The layout is built only on a miss, the way the source does it. */
    method GetOrCreatePipeline(key: PipelineCacheKey, shader: ShaderModule) returns (p: CachedPipeline)
      requires Valid()
      modifies this, pipelineCache
      ensures Valid()
      ensures (Model(), p) == PipelineLookup(old(Model()), key, shader)
    {
      PipelineLookupFacts(Model(), key, shader);
      var hit := pipelineCache.Lookup(key);
      if hit.Some? {
        return hit.value;
      }
      var layouts := BuildPipelineLayout(key);
      p := CachedPipeline(PipelineHandle(nextId, shader), layouts);
      nextId := nextId + 1;
      pipelineCache.Insert(key, p);
    }

    /** `device.create_buffer` / `create_buffer_init`: a buffer no cache holds. */
    method CreateBuffer(size: nat) returns (b: Buffer)
      requires Valid()
      modifies this
      ensures Valid()
      ensures (Model(), b) == FreshBuffer(old(Model()), size)
    {
      b := Buffer(nextId, size);
      nextId := nextId + 1;
    }

    /** `queue.submit` and `queue.write_texture`. */
    method Enqueue(op: QueueOp)
      requires Valid()
      modifies this
      ensures Valid()
      ensures Model() == Enqueued(old(Model()), op)
    {
      queue := queue + [op];
    }
  }
}
