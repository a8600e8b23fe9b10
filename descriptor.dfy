/**
 * FrgDescriptor: the bindless texture set (one sampler plus an array of
 * sampled images), the per-frame compute sets that ping-pong between two
 * storage buffers, and the descriptor pool both are allocated from.
 */
module Descriptor {
  import opened VkTypes
  import opened SwapChain
  import Device

  /** FrgDescriptor::DEFAULT_POOL_SIZE_INCR and texture_descriptor_size. */
  const DEFAULT_POOL_SIZE_INCR: nat := 256
  const TEXTURE_DESCRIPTOR_SIZE: nat := 256

  /** The graphics set layout: a sampler at 0, the texture array at 1. */
  const GRAPHICS_LAYOUT: seq<LayoutBinding> :=
    [LayoutBinding(0, Sampler, 1), LayoutBinding(1, SampledImage, TEXTURE_DESCRIPTOR_SIZE)]

  /** Per-binding PARTIALLY_BOUND flags of the graphics layout: only the texture array. */
  const GRAPHICS_PARTIALLY_BOUND: seq<bool> := [false, true]

  /** The compute set layout as declared: binding 2 is a uniform buffer. */
  const COMPUTE_LAYOUT: seq<LayoutBinding> :=
    [LayoutBinding(0, UniformBuffer, 1), LayoutBinding(1, StorageBuffer, 1), LayoutBinding(2, UniformBuffer, 1)]

  /** The compute set layout the writes assume: binding 2 is a storage buffer. */
  const COMPUTE_LAYOUT_CORRECTED: seq<LayoutBinding> :=
    [LayoutBinding(0, UniformBuffer, 1), LayoutBinding(1, StorageBuffer, 1), LayoutBinding(2, StorageBuffer, 1)]

  /** create_descriptor_pool: the pool sizes and the set budget. */
  const POOL_SIZES: seq<PoolSize> := [
    PoolSize(Sampler, 1),
    PoolSize(SampledImage, TEXTURE_DESCRIPTOR_SIZE),
    PoolSize(UniformBuffer, MAX_FRAMES_IN_FLIGHT),
    PoolSize(StorageBuffer, MAX_FRAMES_IN_FLIGHT * 2)]
  const POOL_MAX_SETS: nat := TEXTURE_DESCRIPTOR_SIZE + MAX_FRAMES_IN_FLIGHT

  /** create_descriptor_sets allocates one graphics set. */
  const GRAPHICS_SET_COUNT: nat := 1

  /** The slot whose storage buffer slot i reads as "last frame": (i + n - 1) % n. */
  function Prev(i: nat, n: nat): (r: nat)
    requires i < n
    ensures r < n
  {
    (i + n - 1) % n
  }

  /** The slot after slot i. */
  function Next(i: nat, n: nat): (r: nat)
    requires i < n
    ensures r < n
  {
    (i + 1) % n
  }

  lemma PrevCases(i: nat, n: nat)
    requires i < n
    ensures Prev(i, n) == if i == 0 then n - 1 else i - 1
  {
    if i > 0 {
      var a := i + n - 1;
      assert a == n + (i - 1);
      assert a / n == 1 && a % n == i - 1 by {
        assert n * 1 + (i - 1) == a;
      }
    }
  }

  lemma NextCases(i: nat, n: nat)
    requires i < n
    ensures Next(i, n) == if i == n - 1 then 0 else i + 1
  {
  }

  /** With two frames in flight, the slots swap: prev(0) = 1 and prev(1) = 0. */
  lemma PrevForTwoFrames()
    ensures Prev(0, MAX_FRAMES_IN_FLIGHT) == 1 && Prev(1, MAX_FRAMES_IN_FLIGHT) == 0
  {
  }

  /** With at least two slots, no slot reads the buffer it writes. */
  lemma PrevIsNotSelf(i: nat, n: nat)
    requires 2 <= n && i < n
    ensures Prev(i, n) != i
  {
    PrevCases(i, n);
  }

  /** What slot i writes as "current" is what slot i + 1 reads as "last frame", and back. */
  lemma PrevNextInverse(i: nat, n: nat)
    requires i < n
    ensures Prev(Next(i, n), n) == i
    ensures Next(Prev(i, n), n) == i
  {
    NextCases(i, n);
    PrevCases(Next(i, n), n);
    PrevCases(i, n);
    NextCases(Prev(i, n), n);
  }

  /** prev is a bijection on slots (injective, with next as its inverse): each buffer is "last frame" for exactly one slot. */
  lemma PrevIsBijection(n: nat)
    ensures forall i, j :: 0 <= i < n && 0 <= j < n && Prev(i, n) == Prev(j, n) ==> i == j
    ensures forall b :: 0 <= b < n ==> Prev(Next(b, n), n) == b
  {
    forall i, j | 0 <= i < n && 0 <= j < n && Prev(i, n) == Prev(j, n)
      ensures i == j
    {
      PrevNextInverse(i, n);
      PrevNextInverse(j, n);
    }
    forall b | 0 <= b < n
      ensures Prev(Next(b, n), n) == b
    {
      PrevNextInverse(b, n);
    }
  }

  /** write_descriptor_sets: the texture sampler at binding 0, all image infos from element 0 at binding 1. */
  function GraphicsWrites(dset: Handle, textureSampler: Handle, imageInfos: seq<ImageInfo>): seq<DescriptorWrite>
  {
    [DescriptorWrite(dset, 0, 0, Sampler, 1, ImagePayload([ImageInfo(textureSampler, Null, LayoutUndefined)])),
     DescriptorWrite(dset, 1, 0, SampledImage, |imageInfos|, ImagePayload(imageInfos))]
  }

  /** The graphics writes fit the graphics layout exactly when there are at most 256 textures. */
  lemma GraphicsWritesFitLayout(dset: Handle, textureSampler: Handle, imageInfos: seq<ImageInfo>)
    ensures WritesFit(GraphicsWrites(dset, textureSampler, imageInfos), GRAPHICS_LAYOUT)
        <==> |imageInfos| <= TEXTURE_DESCRIPTOR_SIZE
  {
    var ws := GraphicsWrites(dset, textureSampler, imageInfos);
    assert WriteFits(ws[0], GRAPHICS_LAYOUT) by {
      assert GRAPHICS_LAYOUT[0].binding == ws[0].binding;
    }
    if |imageInfos| <= TEXTURE_DESCRIPTOR_SIZE {
      assert WriteFits(ws[1], GRAPHICS_LAYOUT) by {
        assert GRAPHICS_LAYOUT[1].binding == ws[1].binding;
      }
    } else {
      assert !WriteFits(ws[1], GRAPHICS_LAYOUT);
    }
  }

  /** The three writes of compute slot i: its uniform buffer, last frame's storage buffer, its own storage buffer. */
  function SlotWrites(i: nat, dset: Handle, uni: seq<Handle>, uboSize: nat, ssbo: seq<Handle>, ssboSize: nat)
    : seq<DescriptorWrite>
    requires i < MAX_FRAMES_IN_FLIGHT && |uni| == MAX_FRAMES_IN_FLIGHT && |ssbo| >= MAX_FRAMES_IN_FLIGHT
  {
    [DescriptorWrite(dset, 0, 0, UniformBuffer, 1, BufferPayload(BufferInfo(uni[i], 0, uboSize))),
     DescriptorWrite(dset, 1, 0, StorageBuffer, 1,
       BufferPayload(BufferInfo(ssbo[Prev(i, MAX_FRAMES_IN_FLIGHT)], 0, ssboSize))),
     DescriptorWrite(dset, 2, 0, StorageBuffer, 1, BufferPayload(BufferInfo(ssbo[i], 0, ssboSize)))]
  }

  /** The writes of slots 0 .. k-1, in loop order. */
  function CompWrites(k: nat, sets: seq<Handle>, uni: seq<Handle>, uboSize: nat, ssbo: seq<Handle>, ssboSize: nat)
    : seq<DescriptorWrite>
    requires k <= MAX_FRAMES_IN_FLIGHT && |sets| == MAX_FRAMES_IN_FLIGHT
    requires |uni| == MAX_FRAMES_IN_FLIGHT && |ssbo| >= MAX_FRAMES_IN_FLIGHT
  {
    if k == 0 then []
    else CompWrites(k - 1, sets, uni, uboSize, ssbo, ssboSize) + SlotWrites(k - 1, sets[k - 1], uni, uboSize, ssbo, ssboSize)
  }

  /** The writes for slot i sit at positions 3i .. 3i+2 and target set i. */
  lemma {:induction false} CompWritesAt(k: nat, i: nat, sets: seq<Handle>, uni: seq<Handle>, uboSize: nat, ssbo: seq<Handle>, ssboSize: nat)
    requires k <= MAX_FRAMES_IN_FLIGHT && |sets| == MAX_FRAMES_IN_FLIGHT
    requires |uni| == MAX_FRAMES_IN_FLIGHT && |ssbo| >= MAX_FRAMES_IN_FLIGHT
    requires i < k
    ensures |CompWrites(k, sets, uni, uboSize, ssbo, ssboSize)| == 3 * k
    ensures CompWrites(k, sets, uni, uboSize, ssbo, ssboSize)[3 * i .. 3 * i + 3]
         == SlotWrites(i, sets[i], uni, uboSize, ssbo, ssboSize)
  {
    CompWritesLength(k - 1, sets, uni, uboSize, ssbo, ssboSize);
    var before := CompWrites(k - 1, sets, uni, uboSize, ssbo, ssboSize);
    var slot := SlotWrites(k - 1, sets[k - 1], uni, uboSize, ssbo, ssboSize);
    assert CompWrites(k, sets, uni, uboSize, ssbo, ssboSize) == before + slot;
    if i < k - 1 {
      CompWritesAt(k - 1, i, sets, uni, uboSize, ssbo, ssboSize);
      assert (before + slot)[3 * i .. 3 * i + 3] == before[3 * i .. 3 * i + 3];
    } else {
      assert |before| == 3 * i && |slot| == 3;
      assert (before + slot)[3 * i .. 3 * i + 3] == slot;
    }
  }

  lemma {:induction false} CompWritesLength(k: nat, sets: seq<Handle>, uni: seq<Handle>, uboSize: nat, ssbo: seq<Handle>, ssboSize: nat)
    requires k <= MAX_FRAMES_IN_FLIGHT && |sets| == MAX_FRAMES_IN_FLIGHT
    requires |uni| == MAX_FRAMES_IN_FLIGHT && |ssbo| >= MAX_FRAMES_IN_FLIGHT
    ensures |CompWrites(k, sets, uni, uboSize, ssbo, ssboSize)| == 3 * k
  {
    if k > 0 {
      CompWritesLength(k - 1, sets, uni, uboSize, ssbo, ssboSize);
    }
  }

  /**
   * Ping-pong: the storage buffer slot i binds as "current" (binding 2) is
   * the one the next slot binds as "last frame" (binding 1), and slot i's set
   * binds uniform buffer i at binding 0.
   */
  lemma PingPong(i: nat, dset: Handle, nextDset: Handle, uni: seq<Handle>, uboSize: nat, ssbo: seq<Handle>, ssboSize: nat)
    requires i < MAX_FRAMES_IN_FLIGHT && |uni| == MAX_FRAMES_IN_FLIGHT && |ssbo| >= MAX_FRAMES_IN_FLIGHT
    ensures SlotWrites(Next(i, MAX_FRAMES_IN_FLIGHT), nextDset, uni, uboSize, ssbo, ssboSize)[1].payload.info.buffer
         == SlotWrites(i, dset, uni, uboSize, ssbo, ssboSize)[2].payload.info.buffer
         == ssbo[i]
    ensures SlotWrites(i, dset, uni, uboSize, ssbo, ssboSize)[0].payload.info.buffer == uni[i]
  {
    PrevNextInverse(i, MAX_FRAMES_IN_FLIGHT);
  }

  /** Every slot uses one uniform and two storage descriptors, so the compute writes need MAX and 2 MAX. */
  lemma {:induction false} CompWritesDemand(k: nat, sets: seq<Handle>, uni: seq<Handle>, uboSize: nat, ssbo: seq<Handle>, ssboSize: nat)
    requires k <= MAX_FRAMES_IN_FLIGHT && |sets| == MAX_FRAMES_IN_FLIGHT
    requires |uni| == MAX_FRAMES_IN_FLIGHT && |ssbo| >= MAX_FRAMES_IN_FLIGHT
    ensures WriteDemand(CompWrites(k, sets, uni, uboSize, ssbo, ssboSize), UniformBuffer) == k
    ensures WriteDemand(CompWrites(k, sets, uni, uboSize, ssbo, ssboSize), StorageBuffer) == 2 * k
    ensures WriteDemand(CompWrites(k, sets, uni, uboSize, ssbo, ssboSize), Sampler) == 0
  {
    if k > 0 {
      var slot := SlotWrites(k - 1, sets[k - 1], uni, uboSize, ssbo, ssboSize);
      CompWritesDemand(k - 1, sets, uni, uboSize, ssbo, ssboSize);
      WriteDemandAppend(CompWrites(k - 1, sets, uni, uboSize, ssbo, ssboSize), slot, UniformBuffer);
      WriteDemandAppend(CompWrites(k - 1, sets, uni, uboSize, ssbo, ssboSize), slot, StorageBuffer);
      WriteDemandAppend(CompWrites(k - 1, sets, uni, uboSize, ssbo, ssboSize), slot, Sampler);
      SlotDemand(slot);
    }
  }

  lemma SlotDemand(slot: seq<DescriptorWrite>)
    requires |slot| == 3 && slot[0].kind == UniformBuffer && slot[1].kind == StorageBuffer && slot[2].kind == StorageBuffer
    requires slot[0].count == 1 && slot[1].count == 1 && slot[2].count == 1
    ensures WriteDemand(slot, UniformBuffer) == 1
    ensures WriteDemand(slot, StorageBuffer) == 2
    ensures WriteDemand(slot, Sampler) == 0
  {
    forall t: DescriptorType
      ensures WriteDemand(slot, t)
           == (if slot[0].kind == t then 1 else 0) + (if slot[1].kind == t then 1 else 0) + (if slot[2].kind == t then 1 else 0)
    {
      assert slot[1..][1..][1..] == [];
      assert WriteDemand(slot[1..][1..], t) == (if slot[2].kind == t then 1 else 0);
      assert WriteDemand(slot[1..], t) == (if slot[1].kind == t then 1 else 0) + WriteDemand(slot[1..][1..], t);
    }
  }

  /** The pool's per-type capacities, summed over its pool sizes. */
  lemma PoolSizeCounts()
    ensures PoolCount(POOL_SIZES, Sampler) == 1
    ensures PoolCount(POOL_SIZES, SampledImage) == TEXTURE_DESCRIPTOR_SIZE
    ensures PoolCount(POOL_SIZES, UniformBuffer) == MAX_FRAMES_IN_FLIGHT
    ensures PoolCount(POOL_SIZES, StorageBuffer) == 2 * MAX_FRAMES_IN_FLIGHT
    ensures PoolCount(POOL_SIZES, CombinedImageSampler) == 0
  {
    forall t: DescriptorType
      ensures PoolCount(POOL_SIZES, t)
           == (if t == Sampler then 1 else 0) + (if t == SampledImage then TEXTURE_DESCRIPTOR_SIZE else 0)
            + (if t == UniformBuffer then MAX_FRAMES_IN_FLIGHT else 0) + (if t == StorageBuffer then 2 * MAX_FRAMES_IN_FLIGHT else 0)
    {
      var p := POOL_SIZES;
      assert p[1..][1..][1..][1..] == [];
      assert PoolCount(p[1..][1..][1..], t) == (if t == StorageBuffer then 2 * MAX_FRAMES_IN_FLIGHT else 0);
      assert PoolCount(p[1..][1..], t) == (if t == UniformBuffer then MAX_FRAMES_IN_FLIGHT else 0) + PoolCount(p[1..][1..][1..], t);
      assert PoolCount(p[1..], t) == (if t == SampledImage then TEXTURE_DESCRIPTOR_SIZE else 0) + PoolCount(p[1..][1..], t);
    }
  }

  /** The pool's MAX uniform and 2 MAX storage descriptors cover the writes of all MAX compute sets. */
  lemma PoolCoversCompWrites(sets: seq<Handle>, uni: seq<Handle>, uboSize: nat, ssbo: seq<Handle>, ssboSize: nat)
    requires |sets| == MAX_FRAMES_IN_FLIGHT && |uni| == MAX_FRAMES_IN_FLIGHT && |ssbo| >= MAX_FRAMES_IN_FLIGHT
    ensures WriteDemand(CompWrites(MAX_FRAMES_IN_FLIGHT, sets, uni, uboSize, ssbo, ssboSize), UniformBuffer)
         <= PoolCount(POOL_SIZES, UniformBuffer)
    ensures WriteDemand(CompWrites(MAX_FRAMES_IN_FLIGHT, sets, uni, uboSize, ssbo, ssboSize), StorageBuffer)
         <= PoolCount(POOL_SIZES, StorageBuffer)
    ensures GRAPHICS_SET_COUNT + MAX_FRAMES_IN_FLIGHT <= POOL_MAX_SETS
  {
    CompWritesDemand(MAX_FRAMES_IN_FLIGHT, sets, uni, uboSize, ssbo, ssboSize);
    PoolSizeCounts();
  }

  /** What one set of each layout takes from the pool, per descriptor type. */
  lemma LayoutDemands(t: DescriptorType)
    ensures LayoutDemand(GRAPHICS_LAYOUT, t)
         == (if t == Sampler then 1 else 0) + (if t == SampledImage then TEXTURE_DESCRIPTOR_SIZE else 0)
    ensures LayoutDemand(COMPUTE_LAYOUT, t)
         == (if t == UniformBuffer then 2 else 0) + (if t == StorageBuffer then 1 else 0)
    ensures LayoutDemand(COMPUTE_LAYOUT_CORRECTED, t)
         == (if t == UniformBuffer then 1 else 0) + (if t == StorageBuffer then 2 else 0)
  {
    assert GRAPHICS_LAYOUT[1..][1..] == [];
    assert LayoutDemand(GRAPHICS_LAYOUT[1..], t) == (if t == SampledImage then TEXTURE_DESCRIPTOR_SIZE else 0);
    var c := COMPUTE_LAYOUT;
    assert c[1..][1..][1..] == [];
    assert LayoutDemand(c[1..][1..], t) == (if t == UniformBuffer then 1 else 0);
    assert LayoutDemand(c[1..], t) == (if t == StorageBuffer then 1 else 0) + LayoutDemand(c[1..][1..], t);
    var d := COMPUTE_LAYOUT_CORRECTED;
    assert d[1..][1..][1..] == [];
    assert LayoutDemand(d[1..][1..], t) == (if t == StorageBuffer then 1 else 0);
    assert LayoutDemand(d[1..], t) == (if t == StorageBuffer then 1 else 0) + LayoutDemand(d[1..][1..], t);
  }

  /** Each slot's third write is a storage buffer at binding 2, which the declared layout types as uniform. */
  lemma CompWritesMissDeclaredLayout(i: nat, dset: Handle, uni: seq<Handle>, uboSize: nat, ssbo: seq<Handle>, ssboSize: nat)
    requires i < MAX_FRAMES_IN_FLIGHT && |uni| == MAX_FRAMES_IN_FLIGHT && |ssbo| >= MAX_FRAMES_IN_FLIGHT
    ensures !WriteFits(SlotWrites(i, dset, uni, uboSize, ssbo, ssboSize)[2], COMPUTE_LAYOUT)
    ensures MAX_FRAMES_IN_FLIGHT * LayoutDemand(COMPUTE_LAYOUT, UniformBuffer) > PoolCount(POOL_SIZES, UniformBuffer)
  {
    LayoutDemands(UniformBuffer);
    PoolSizeCounts();
  }

  /** With binding 2 typed as storage, every compute write fits its layout and the pool covers all sets. */
  lemma CompWritesFitCorrectedLayout(sets: seq<Handle>, uni: seq<Handle>, uboSize: nat, ssbo: seq<Handle>, ssboSize: nat)
    requires |sets| == MAX_FRAMES_IN_FLIGHT && |uni| == MAX_FRAMES_IN_FLIGHT && |ssbo| >= MAX_FRAMES_IN_FLIGHT
    ensures WritesFit(CompWrites(MAX_FRAMES_IN_FLIGHT, sets, uni, uboSize, ssbo, ssboSize), COMPUTE_LAYOUT_CORRECTED)
    ensures forall t :: LayoutDemand(GRAPHICS_LAYOUT, t) + MAX_FRAMES_IN_FLIGHT * LayoutDemand(COMPUTE_LAYOUT_CORRECTED, t)
                     <= PoolCount(POOL_SIZES, t)
  {
    forall t: DescriptorType
      ensures LayoutDemand(GRAPHICS_LAYOUT, t) + MAX_FRAMES_IN_FLIGHT * LayoutDemand(COMPUTE_LAYOUT_CORRECTED, t)
           <= PoolCount(POOL_SIZES, t)
    {
      LayoutDemands(t);
      PoolSizeCounts();
    }
    var ws := CompWrites(MAX_FRAMES_IN_FLIGHT, sets, uni, uboSize, ssbo, ssboSize);
    CompWritesLength(MAX_FRAMES_IN_FLIGHT, sets, uni, uboSize, ssbo, ssboSize);
    forall k | 0 <= k < |ws|
      ensures WriteFits(ws[k], COMPUTE_LAYOUT_CORRECTED)
    {
      var i := k / 3;
      CompWritesAt(MAX_FRAMES_IN_FLIGHT, i, sets, uni, uboSize, ssbo, ssboSize);
      var slot := SlotWrites(i, sets[i], uni, uboSize, ssbo, ssboSize);
      assert ws[k] == slot[k - 3 * i];
      assert COMPUTE_LAYOUT_CORRECTED[k - 3 * i].binding == ws[k].binding;
    }
  }

  /**
   * What the constructor asks of the driver before allocating the graphics
   * set: the graphics layout, the compute layout (as declared), then the pool.
   */
  function SetupCalls(layout: Handle, compLayout: Handle, pool: Handle): seq<Device.DeviceCall>
  {
    [Device.CreateSetLayout(layout, GRAPHICS_LAYOUT),
     Device.CreateSetLayout(compLayout, COMPUTE_LAYOUT),
     Device.CreatePool(pool, POOL_SIZES, POOL_MAX_SETS)]
  }

  /** ~FrgDescriptor: the pool, then the graphics layout, then the compute layout. */
  function TeardownCalls(layout: Handle, compLayout: Handle, pool: Handle): seq<Device.DeviceCall>
  {
    [Device.Destroy(pool), Device.Destroy(layout), Device.Destroy(compLayout)]
  }

  /**
   * The destructor destroys exactly the objects the setup created, each
   * once when they are distinct; the sets go back with the pool.
   */
  lemma TeardownUndoesSetup(layout: Handle, compLayout: Handle, pool: Handle)
    ensures forall h :: Device.Destroy(h) in TeardownCalls(layout, compLayout, pool)
                    <==> Device.CreatedBy(SetupCalls(layout, compLayout, pool), h)
    ensures layout != compLayout && layout != pool && compLayout != pool ==>
      forall i, j :: 0 <= i < j < 3 ==>
        TeardownCalls(layout, compLayout, pool)[i] != TeardownCalls(layout, compLayout, pool)[j]
  {
    var setup := SetupCalls(layout, compLayout, pool);
    forall h | Device.CreatedBy(setup, h)
      ensures h == layout || h == compLayout || h == pool
    {
      var k :| 0 <= k < |setup| && h in Device.Created(setup[k]);
    }
    assert layout in Device.Created(setup[0]) && compLayout in Device.Created(setup[1])
      && pool in Device.Created(setup[2]);
  }

  /** The descriptor state FrgDescriptor updates: its sets and the writes issued to the device. */
  class FrgDescriptor {
    const device: Device.FrgDevice
    const descriptorSetLayout: Handle
    const compSetLayout: Handle
    const descriptorPool: Handle
    var descriptorSet: Handle
    var compDescriptorSets: seq<Handle>
    /** Every VkWriteDescriptorSet passed to vkUpdateDescriptorSets, in order. */
    var updates: seq<DescriptorWrite>

    /**
     * The object once create_descriptor_set_layout_binding,
     * create_comp_descriptor_set_layout_binding and create_descriptor_pool
     * have made its layouts and pool (NewDescriptor makes them, then
     * allocates the graphics set): no set yet and no write issued.
     */
    constructor (device: Device.FrgDevice, layout: Handle, compLayout: Handle, pool: Handle)
      ensures this.device == device
      ensures descriptorSetLayout == layout && compSetLayout == compLayout && descriptorPool == pool
      ensures descriptorSet == Null && compDescriptorSets == [] && updates == []
    {
      this.device := device;
      descriptorSetLayout, compSetLayout, descriptorPool := layout, compLayout, pool;
      descriptorSet := Null;
      compDescriptorSets := [];
      updates := [];
    }

    /** create_descriptor_sets: one graphics set from the pool with the graphics layout, or a throw. */
    method CreateDescriptorSets(allocResult: VkResult) returns (err: Option<string>)
      modifies this`descriptorSet, device`calls, device`nextHandle
      ensures allocResult == Success ==>
        err == None && descriptorSet == Live(old(device.nextHandle))
        && device.nextHandle == old(device.nextHandle) + 1
        && device.calls == old(device.calls) + [Device.AllocateSet(descriptorSet, descriptorPool, descriptorSetLayout)]
      ensures allocResult != Success ==>
        err == Some(ALLOCATE_SET_ERROR) && descriptorSet == old(descriptorSet)
        && device.calls == old(device.calls) && device.nextHandle == old(device.nextHandle)
    {
      if allocResult != Success {
        return Some(ALLOCATE_SET_ERROR);
      }
      descriptorSet := device.NewHandle();
      device.Record(Device.AllocateSet(descriptorSet, descriptorPool, descriptorSetLayout));
      err := None;
    }

    /** ~FrgDescriptor. */
    method Destroy()
      modifies device`calls
      ensures device.calls == old(device.calls) + TeardownCalls(descriptorSetLayout, compSetLayout, descriptorPool)
    {
      device.Record(Device.Destroy(descriptorPool));
      device.Record(Device.Destroy(descriptorSetLayout));
      device.Record(Device.Destroy(compSetLayout));
    }

    /** write_descriptor_sets: one update with the sampler and the texture array. */
    method WriteDescriptorSets(textureSampler: Handle, imageInfos: seq<ImageInfo>)
      modifies this`updates
      ensures updates == old(updates) + GraphicsWrites(descriptorSet, textureSampler, imageInfos)
    {
      updates := updates + GraphicsWrites(descriptorSet, textureSampler, imageInfos);
    }

    /**
     * write_comp_descriptor_sets: allocate MAX_FRAMES_IN_FLIGHT compute sets
     * (one per uniform buffer, as asserted) and wire slot i to uniform buffer
     * i, storage buffer prev(i) and storage buffer i.
     */
    method WriteCompDescriptorSets(
      uni: seq<Handle>, uboSize: nat, ssbo: seq<Handle>, ssboSize: nat,
      allocResult: VkResult, sets: seq<Handle>)
      returns (err: Option<string>)
      requires |uni| == MAX_FRAMES_IN_FLIGHT
      requires |ssbo| >= MAX_FRAMES_IN_FLIGHT
      requires |sets| == MAX_FRAMES_IN_FLIGHT
      modifies this`compDescriptorSets, this`updates
      ensures allocResult != Success ==>
        err.Some? && updates == old(updates)
        && compDescriptorSets == Resized(old(compDescriptorSets), MAX_FRAMES_IN_FLIGHT)
      ensures allocResult == Success ==>
        err == None && compDescriptorSets == sets
        && updates == old(updates) + CompWrites(MAX_FRAMES_IN_FLIGHT, sets, uni, uboSize, ssbo, ssboSize)
    {
      var layoutCount := MAX_FRAMES_IN_FLIGHT;
      compDescriptorSets := Resized(compDescriptorSets, layoutCount);
      if allocResult != Success {
        return Some("failed to allocate compute descriptor sets!");
      }
      compDescriptorSets := sets;
      var i := 0;
      while i < layoutCount
        invariant 0 <= i <= layoutCount
        invariant compDescriptorSets == sets
        invariant updates == old(updates) + CompWrites(i, sets, uni, uboSize, ssbo, ssboSize)
      {
        var writes := [
          DescriptorWrite(compDescriptorSets[i], 0, 0, UniformBuffer, 1, BufferPayload(BufferInfo(uni[i], 0, uboSize))),
          DescriptorWrite(compDescriptorSets[i], 1, 0, StorageBuffer, 1,
            BufferPayload(BufferInfo(ssbo[(i + layoutCount - 1) % layoutCount], 0, ssboSize))),
          DescriptorWrite(compDescriptorSets[i], 2, 0, StorageBuffer, 1, BufferPayload(BufferInfo(ssbo[i], 0, ssboSize)))];
        updates := updates + writes;
        i := i + 1;
      }
      err := None;
    }
  }

  const LAYOUT_ERROR := "failed to create descriptor set layout!"
  const COMPUTE_LAYOUT_ERROR := "failed to create compute descriptor set layout!"
  const POOL_ERROR := "failed to create descriptor pool!"
  const ALLOCATE_SET_ERROR := "failed to allocate descriptor set!"

  /**
   * The FrgDescriptor constructor: the graphics layout, the compute layout
   * and the pool are created in turn, then the graphics set is allocated;
   * the first step that fails throws its own error, leaving what the earlier
   * steps created alive and never destroyed (no destructor runs for an
   * object whose constructor threw).
   */
  method NewDescriptor(device: Device.FrgDevice, layoutResult: VkResult, compLayoutResult: VkResult,
                       poolResult: VkResult, allocResult: VkResult)
    returns (r: Result<FrgDescriptor>)
    modifies device`calls, device`nextHandle
    ensures var n := old(device.nextHandle);
      var setup := SetupCalls(Live(n), Live(n + 1), Live(n + 2));
      (r.Ok? <==> layoutResult == Success && compLayoutResult == Success && poolResult == Success && allocResult == Success)
      && (layoutResult != Success ==> r == Err(LAYOUT_ERROR) && device.calls == old(device.calls))
      && (layoutResult == Success && compLayoutResult != Success ==>
            r == Err(COMPUTE_LAYOUT_ERROR) && device.calls == old(device.calls) + setup[..1])
      && (layoutResult == Success && compLayoutResult == Success && poolResult != Success ==>
            r == Err(POOL_ERROR) && device.calls == old(device.calls) + setup[..2])
      && (layoutResult == Success && compLayoutResult == Success && poolResult == Success && allocResult != Success ==>
            r == Err(ALLOCATE_SET_ERROR) && device.calls == old(device.calls) + setup)
      && (r.Ok? ==>
            fresh(r.value) && r.value.device == device
            && r.value.descriptorSetLayout == Live(n) && r.value.compSetLayout == Live(n + 1)
            && r.value.descriptorPool == Live(n + 2) && r.value.descriptorSet == Live(n + 3)
            && r.value.compDescriptorSets == [] && r.value.updates == []
            && device.calls == old(device.calls) + setup + [Device.AllocateSet(Live(n + 3), Live(n + 2), Live(n))])
  {
    if layoutResult != Success {
      return Err(LAYOUT_ERROR);
    }
    var layout := device.NewHandle();
    device.Record(Device.CreateSetLayout(layout, GRAPHICS_LAYOUT));
    if compLayoutResult != Success {
      return Err(COMPUTE_LAYOUT_ERROR);
    }
    var compLayout := device.NewHandle();
    device.Record(Device.CreateSetLayout(compLayout, COMPUTE_LAYOUT));
    if poolResult != Success {
      return Err(POOL_ERROR);
    }
    var pool := device.NewHandle();
    device.Record(Device.CreatePool(pool, POOL_SIZES, POOL_MAX_SETS));
    var d := new FrgDescriptor(device, layout, compLayout, pool);
    var err := d.CreateDescriptorSets(allocResult);
    if err.Some? {
      r := Err(err.value);
    } else {
      r := Ok(d);
    }
  }
}
