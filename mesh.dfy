/**
 * Meshes and their textures: the vertex layout, the path-to-index texture
 * registry, the image layout transitions a texture upload records, and a
 * mesh's vertex/index buffers with the bind and draw commands it records.
 */
module Mesh {
  import opened VkTypes
  import Device

  /** A vertex: position, normal and texture coordinate (glm::vec3, vec3, vec2). */
  datatype Vertex = Vertex(position: Vec3, normal: Vec3, texCoord: Vec2)

  /** sizeof(Vertex): 3 + 3 + 2 floats of 4 bytes. */
  const VERTEX_STRIDE: nat := 32

  datatype InputRate = PerVertex | PerInstance

  /** A VkVertexInputBindingDescription. */
  datatype VertexBinding = VertexBinding(binding: nat, stride: nat, inputRate: InputRate)

  /** A VkVertexInputAttributeDescription. */
  datatype VertexAttribute = VertexAttribute(binding: nat, location: nat, format: Format, offset: nat)

  /** Vertex::get_binding_descriptions. */
  const VERTEX_BINDINGS: seq<VertexBinding> := [VertexBinding(0, VERTEX_STRIDE, PerVertex)]

  /** Vertex::get_attribute_descriptions: position, normal, tex_coord at their offsetof. */
  const VERTEX_ATTRIBUTES: seq<VertexAttribute> := [
    VertexAttribute(0, 0, R32G32B32Sfloat, 0),
    VertexAttribute(0, 1, R32G32B32Sfloat, 12),
    VertexAttribute(0, 2, R32G32Sfloat, 24)
  ]

  /** Bytes one shader input of the format occupies (32-bit float components). */
  function FormatBytes(f: Format): nat
  {
    match f
    case R32G32B32A32Sfloat => 16
    case R32G32B32Sfloat => 12
    case R32G32Sfloat => 8
    case _ => 4
  }

  /**
   * The three attributes sit on the one per-vertex binding at locations 0, 1, 2,
   * and tile the vertex exactly: each starts where the previous one ends and the
   * last one ends at the stride.
   */
  lemma VertexLayoutTilesTheVertex()
    ensures |VERTEX_BINDINGS| == 1 && VERTEX_BINDINGS[0].binding == 0
    ensures VERTEX_BINDINGS[0].inputRate == PerVertex
    ensures |VERTEX_ATTRIBUTES| == 3
    ensures forall k :: 0 <= k < |VERTEX_ATTRIBUTES| ==>
      VERTEX_ATTRIBUTES[k].binding == VERTEX_BINDINGS[0].binding && VERTEX_ATTRIBUTES[k].location == k
    ensures VERTEX_ATTRIBUTES[0].offset == 0
    ensures forall k :: 0 <= k < |VERTEX_ATTRIBUTES| - 1 ==>
      VERTEX_ATTRIBUTES[k].offset + FormatBytes(VERTEX_ATTRIBUTES[k].format) == VERTEX_ATTRIBUTES[k + 1].offset
    ensures VERTEX_ATTRIBUTES[2].offset + FormatBytes(VERTEX_ATTRIBUTES[2].format) == VERTEX_BINDINGS[0].stride
  {
  }

  /**
   * LoadedTextures: the process-wide registry giving every texture path a
   * stable index. The counter is modelled unbounded (the source's is 32-bit).
   */
  class LoadedTextures {
    var names: map<string, nat>
    var counter: nat

    /** The indices handed out so far are exactly 0 .. counter-1, one per path. */
    predicate Valid()
      reads this
    {
      |names| == counter
      && (forall p :: p in names ==> names[p] < counter)
      && (forall p, q :: p in names && q in names && p != q ==> names[p] != names[q])
      && (forall i :: 0 <= i < counter ==> Issued(i))
    }

    /** Some registered path holds index i. */
    predicate Issued(i: nat)
      reads this
    {
      exists p :: p in names && names[p] == i
    }

    /** The static initialisers: an empty map and a counter at 0. */
    constructor()
      ensures Valid() && names == map[] && counter == 0
    {
      names := map[];
      counter := 0;
    }

    /**
     * assign_texture_idx: a known path gets its stored index and nothing
     * changes; a new path gets the current counter, which then advances.
     */
    method AssignTextureIdx(path: string) returns (idx: nat)
      modifies this
      ensures old(Valid()) ==> Valid()
      ensures old(path in names) ==> idx == old(names[path]) && names == old(names) && counter == old(counter)
      ensures old(path !in names) ==>
        idx == old(counter) && names == old(names)[path := idx] && counter == old(counter) + 1
      ensures path in names && names[path] == idx
    {
      if path in names {
        idx := names[path];
        return;
      }
      idx := counter;
      ghost var before := names;
      names := names[path := counter];
      counter := counter + 1;
      if old(Valid()) {
        forall i | 0 <= i < counter
          ensures Issued(i)
        {
          if i == idx {
            assert names[path] == i;
          } else {
            assert old(Issued(i));
            var p :| p in before && before[p] == i;
            assert p != path && names[p] == i;
          }
        }
      }
    }
  }

  /** Distinct paths registered in the same registry have distinct indices. */
  lemma DistinctPathsDistinctIndices(reg: LoadedTextures, p: string, q: string)
    requires reg.Valid() && p in reg.names && q in reg.names && p != q
    ensures reg.names[p] != reg.names[q]
  {
  }

  /** An image memory barrier's access masks and stages (vkCmdPipelineBarrier). */
  datatype Barrier = Barrier(
    oldLayout: ImageLayout, newLayout: ImageLayout,
    srcAccess: set<Access>, dstAccess: set<Access>,
    srcStage: Stage, dstStage: Stage)

  const UNSUPPORTED_TRANSITION := "unsupported layout transition!"

  /**
   * Texture::transition_image_layout: undefined -> transfer-destination and
   * transfer-destination -> shader-read-only are the only transitions it records.
   */
  function TransitionBarrier(oldLayout: ImageLayout, newLayout: ImageLayout): (r: Result<Barrier>)
    ensures r.Ok? <==>
      (oldLayout == LayoutUndefined && newLayout == TransferDstOptimal)
      || (oldLayout == TransferDstOptimal && newLayout == ShaderReadOnlyOptimal)
    ensures r.Err? ==> r.msg == UNSUPPORTED_TRANSITION
    ensures r.Ok? ==> r.value.oldLayout == oldLayout && r.value.newLayout == newLayout
    ensures r.Ok? && oldLayout == LayoutUndefined ==>
      r.value.srcAccess == {} && r.value.dstAccess == {TransferWrite}
      && r.value.srcStage == TopOfPipe && r.value.dstStage == Transfer
    ensures r.Ok? && oldLayout == TransferDstOptimal ==>
      r.value.srcAccess == {TransferWrite} && r.value.dstAccess == {ShaderRead}
      && r.value.srcStage == Transfer && r.value.dstStage == FragmentShader
  {
    if oldLayout == LayoutUndefined && newLayout == TransferDstOptimal then
      Ok(Barrier(oldLayout, newLayout, {}, {TransferWrite}, TopOfPipe, Transfer))
    else if oldLayout == TransferDstOptimal && newLayout == ShaderReadOnlyOptimal then
      Ok(Barrier(oldLayout, newLayout, {TransferWrite}, {ShaderRead}, Transfer, FragmentShader))
    else
      Err(UNSUPPORTED_TRANSITION)
  }

  /**
   * The two transitions a texture upload records are both accepted and chain:
   * the second waits on exactly the access and stage the first makes available,
   * and the image ends up readable by the fragment shader.
   */
  lemma TextureUploadTransitionsChain()
    ensures TransitionBarrier(LayoutUndefined, TransferDstOptimal).Ok?
    ensures TransitionBarrier(TransferDstOptimal, ShaderReadOnlyOptimal).Ok?
    ensures TransitionBarrier(LayoutUndefined, TransferDstOptimal).value.newLayout
      == TransitionBarrier(TransferDstOptimal, ShaderReadOnlyOptimal).value.oldLayout
    ensures TransitionBarrier(LayoutUndefined, TransferDstOptimal).value.dstAccess
      == TransitionBarrier(TransferDstOptimal, ShaderReadOnlyOptimal).value.srcAccess
    ensures TransitionBarrier(LayoutUndefined, TransferDstOptimal).value.dstStage
      == TransitionBarrier(TransferDstOptimal, ShaderReadOnlyOptimal).value.srcStage
    ensures TransitionBarrier(TransferDstOptimal, ShaderReadOnlyOptimal).value.dstStage == FragmentShader
  {
  }

  /** The format of every texture image and view. */
  const TEXTURE_FORMAT := R8G8B8A8Srgb

  /** A loaded texture: its type name ("texture_diffuse", ...), path, registry index and its image, memory and view. */
  class Texture {
    const kind: string
    const path: string
    const textureIdx: nat
    const image: Handle
    const memory: Handle
    const view: Handle

    constructor(kind: string, path: string, textureIdx: nat, image: Handle, memory: Handle, view: Handle)
      ensures this.kind == kind && this.path == path && this.textureIdx == textureIdx
      ensures this.image == image && this.memory == memory && this.view == view
    {
      this.kind := kind;
      this.path := path;
      this.textureIdx := textureIdx;
      this.image := image;
      this.memory := memory;
      this.view := view;
    }

    /** The objects the texture owns. */
    function Handles(): seq<Handle>
    {
      [view, image, memory]
    }
  }

  const TEXTURE_LOAD_FAILED := "failed to load texture image!"
  const TEXTURE_VIEW_FAILED := "failed to create texture image view!"

  /**
   * What uploading a width x height RGBA image asks of the driver, with the
   * driver's handles numbered from n: a staging buffer of 4 bytes per pixel
   * and its memory, the sampled image and its memory, the staging buffer's
   * release once copied, and (last) the view.
   */
  function TextureCalls(n: nat, size: Extent): seq<Device.DeviceCall>
  {
    [Device.CreateBuffer(Live(n), Live(n + 1), 4 * size.height * size.width),
     Device.CreateImage(Live(n + 2), Live(n + 3), Image(size, TEXTURE_FORMAT, 1)),
     Device.Destroy(Live(n)), Device.Destroy(Live(n + 1)),
     Device.CreateView(Live(n + 4), Live(n + 2), TEXTURE_FORMAT)]
  }

  /** ~Texture: the view, the image, the memory. */
  function TextureTeardown(t: Texture): seq<Device.DeviceCall>
  {
    [Device.Destroy(t.view), Device.Destroy(t.image), Device.Destroy(t.memory)]
  }

  /**
   * The upload releases its staging buffer itself, and ~Texture releases the
   * rest: together they destroy exactly the objects the upload created, and
   * the texture owns exactly what outlives the upload.
   */
  lemma TextureTeardownUndoesUpload(n: nat, size: Extent, t: Texture, h: Handle)
    requires t.image == Live(n + 2) && t.memory == Live(n + 3) && t.view == Live(n + 4)
    ensures Device.CreatedBy(TextureCalls(n, size), h)
        <==> Device.Destroy(h) in TextureCalls(n, size) + TextureTeardown(t)
    ensures h in t.Handles() <==>
      Device.CreatedBy(TextureCalls(n, size), h) && Device.Destroy(h) !in TextureCalls(n, size)
  {
    var calls := TextureCalls(n, size);
    var made := [Live(n), Live(n + 1), Live(n + 2), Live(n + 3), Live(n + 4)];
    assert Device.CreatedBy(calls, h) <==> h in made by {
      if Device.CreatedBy(calls, h) {
        var k :| 0 <= k < |calls| && h in Device.Created(calls[k]);
      }
      if h in made {
        assert h in Device.Created(calls[0]) || h in Device.Created(calls[1]) || h in Device.Created(calls[4]);
      }
    }
    assert Device.Destroy(h) in calls <==> h == Live(n) || h == Live(n + 1);
    assert Device.Destroy(h) in TextureTeardown(t) <==> h in t.Handles();
  }

  /**
   * The Texture constructor's upload: a staging buffer filled with the
   * pixels, the device-local image and its memory, the copy, and the
   * staging buffer's release.
   */
  method UploadImage(device: Device.FrgDevice, size: Extent) returns (image: Handle, memory: Handle)
    modifies device`calls, device`nextHandle
    ensures image == Live(old(device.nextHandle) + 2) && memory == Live(old(device.nextHandle) + 3)
    ensures device.nextHandle == old(device.nextHandle) + 4
    ensures device.calls == old(device.calls) + TextureCalls(old(device.nextHandle), size)[..4]
  {
    var staging := device.NewHandle();
    var stagingMemory := device.NewHandle();
    device.Record(Device.CreateBuffer(staging, stagingMemory, 4 * size.height * size.width));
    image := device.NewHandle();
    memory := device.NewHandle();
    device.Record(Device.CreateImage(image, memory, Image(size, TEXTURE_FORMAT, 1)));
    device.Record(Device.Destroy(staging));
    device.Record(Device.Destroy(stagingMemory));
  }

  /**
   * The Texture constructor: the image file must load (stb_image gives its
   * size), then the upload runs and the view is created; a failed view
   * throws with the image already made, and the registry is only consulted
   * once both succeed.
   */
  method NewTexture(device: Device.FrgDevice, registry: LoadedTextures, kind: string, path: string,
                    pixelsLoaded: bool, size: Extent, viewResult: VkResult)
    returns (r: Result<Texture>)
    modifies device`calls, device`nextHandle, registry
    ensures old(registry.Valid()) ==> registry.Valid()
    ensures !pixelsLoaded ==> r == Err(TEXTURE_LOAD_FAILED) && device.calls == old(device.calls)
    ensures pixelsLoaded && viewResult != Success ==>
      r == Err(TEXTURE_VIEW_FAILED) && device.calls == old(device.calls) + TextureCalls(old(device.nextHandle), size)[..4]
    ensures r.Err? ==> registry.names == old(registry.names) && registry.counter == old(registry.counter)
    ensures r.Ok? <==> pixelsLoaded && viewResult == Success
    ensures r.Ok? ==>
      fresh(r.value) && r.value.kind == kind && r.value.path == path
      && r.value.image == Live(old(device.nextHandle) + 2) && r.value.memory == Live(old(device.nextHandle) + 3)
      && r.value.view == Live(old(device.nextHandle) + 4)
      && device.calls == old(device.calls) + TextureCalls(old(device.nextHandle), size)
      && registry.names == old(registry.names)[path := r.value.textureIdx]
      && (path in old(registry.names) ==> r.value.textureIdx == old(registry.names[path]))
      && (path !in old(registry.names) ==> r.value.textureIdx == old(registry.counter))
  {
    if !pixelsLoaded {
      return Err(TEXTURE_LOAD_FAILED);
    }
    ghost var upload := TextureCalls(device.nextHandle, size);
    var image, memory := UploadImage(device, size);
    if viewResult != Success {
      return Err(TEXTURE_VIEW_FAILED);
    }
    var view := device.NewHandle();
    device.Record(Device.CreateView(view, image, TEXTURE_FORMAT));
    assert device.calls == old(device.calls) + upload by {
      assert upload == upload[..4] + [upload[4]];
    }
    var idx := registry.AssignTextureIdx(path);
    var t := new Texture(kind, path, idx, image, memory, view);
    r := Ok(t);
  }

  /** The textures' destructors, in the order the vector holds them. */
  function TexturesTeardown(ts: seq<Texture>): seq<Device.DeviceCall>
  {
    if ts == [] then [] else TexturesTeardown(ts[..|ts| - 1]) + TextureTeardown(ts[|ts| - 1])
  }

  /** The destruction of a vector of textures: ~Texture on each, first to last. */
  method DestroyTextures(device: Device.FrgDevice, ts: seq<Texture>)
    modifies device`calls
    ensures device.calls == old(device.calls) + TexturesTeardown(ts)
  {
    var k := 0;
    while k < |ts|
      invariant k <= |ts|
      invariant device.calls == old(device.calls) + TexturesTeardown(ts[..k])
    {
      assert ts[..k + 1][..k] == ts[..k];
      device.Record(Device.Destroy(ts[k].view));
      device.Record(Device.Destroy(ts[k].image));
      device.Record(Device.Destroy(ts[k].memory));
      k := k + 1;
    }
    assert ts[..k] == ts;
  }

  /** The textures' destructors destroy exactly the objects the textures own. */
  lemma {:induction false} TexturesTeardownDestroysOwned(ts: seq<Texture>, h: Handle)
    ensures Device.Destroy(h) in TexturesTeardown(ts) <==> exists k :: 0 <= k < |ts| && h in ts[k].Handles()
  {
    if ts != [] {
      var init := ts[..|ts| - 1];
      TexturesTeardownDestroysOwned(init, h);
      if exists k :: 0 <= k < |ts| && h in ts[k].Handles() {
        var k :| 0 <= k < |ts| && h in ts[k].Handles();
        if k < |init| {
          assert init[k] == ts[k];
        }
      }
      if exists k :: 0 <= k < |init| && h in init[k].Handles() {
        var k :| 0 <= k < |init| && h in init[k].Handles();
        assert ts[k] == init[k];
      }
    }
  }

  /** True iff some texture's type name is "texture_normal". */
  predicate HasNormal(textures: seq<Texture>)
  {
    exists k :: 0 <= k < |textures| && textures[k].kind == "texture_normal"
  }

  /**
   * The device calls setup_mesh makes, handles numbered from n: the
   * host-visible vertex buffer and its memory; then, if there are indices,
   * a staging buffer of the indices, the device-local index buffer, and the
   * staging buffer's release once copied.
   */
  function SetupCalls(vertexCount: nat, indexCount: nat, n: nat): seq<Device.DeviceCall>
  {
    [Device.CreateBuffer(Live(n), Live(n + 1), VERTEX_STRIDE * vertexCount)]
    + (if indexCount > 0 then
         [Device.CreateBuffer(Live(n + 2), Live(n + 3), 4 * indexCount),
          Device.CreateBuffer(Live(n + 4), Live(n + 5), 4 * indexCount),
          Device.Destroy(Live(n + 2)), Device.Destroy(Live(n + 3))]
       else [])
  }

  class FrgMesh {
    const vertices: seq<Vertex>
    const indices: seq<nat>
    const textures: seq<Texture>
    const vertexBuffer: Handle
    const vertexMemory: Handle
    const indexBuffer: Handle
    const indexMemory: Handle

    /** The FrgMesh constructor (setup_mesh): the index buffer exists iff there are indices. */
    constructor(device: Device.FrgDevice, vertices: seq<Vertex>, indices: seq<nat>, textures: seq<Texture>)
      modifies device
      ensures this.vertices == vertices && this.indices == indices && this.textures == textures
      ensures vertexBuffer == Live(old(device.nextHandle)) && vertexMemory == Live(old(device.nextHandle) + 1)
      ensures |indices| > 0 ==>
        indexBuffer == Live(old(device.nextHandle) + 4) && indexMemory == Live(old(device.nextHandle) + 5)
      ensures |indices| == 0 ==> indexBuffer == Null && indexMemory == Null
      ensures device.calls == old(device.calls) + SetupCalls(|vertices|, |indices|, old(device.nextHandle))
    {
      this.vertices := vertices;
      this.indices := indices;
      this.textures := textures;
      var vb := device.NewHandle();
      var vm := device.NewHandle();
      device.Record(Device.CreateBuffer(vb, vm, VERTEX_STRIDE * |vertices|));
      var ib, im := Null, Null;
      if |indices| > 0 {
        var staging := device.NewHandle();
        var stagingMemory := device.NewHandle();
        device.Record(Device.CreateBuffer(staging, stagingMemory, 4 * |indices|));
        ib := device.NewHandle();
        im := device.NewHandle();
        device.Record(Device.CreateBuffer(ib, im, 4 * |indices|));
        device.Record(Device.Destroy(staging));
        device.Record(Device.Destroy(stagingMemory));
      }
      this.vertexBuffer := vb;
      this.vertexMemory := vm;
      this.indexBuffer := ib;
      this.indexMemory := im;
    }

    /** FrgMesh::bind: the vertex buffer, then the index buffer only when there are indices. */
    function BindCmds(): (r: seq<Cmd>)
      ensures |r| >= 1 && r[0] == BindVertexBuffers(vertexBuffer)
      ensures |r| == 2 <==> |indices| > 0
      ensures |r| <= 2
      ensures |r| == 2 ==> r[1] == BindIndexBuffer(indexBuffer)
    {
      [BindVertexBuffers(vertexBuffer)] + (if |indices| > 0 then [BindIndexBuffer(indexBuffer)] else [])
    }

    /** FrgMesh::draw: a plain draw of every vertex without indices, an indexed draw otherwise. */
    function DrawCmds(): (r: seq<Cmd>)
      ensures |r| == 1
      ensures r[0].Draw? <==> |indices| == 0
      ensures r[0].Draw? ==> r[0] == Draw(|vertices|, 1)
      ensures r[0].DrawIndexed? <==> |indices| > 0
      ensures r[0].DrawIndexed? ==> r[0] == DrawIndexed(|indices|, 1)
    {
      if |indices| == 0 then [Draw(|vertices|, 1)] else [DrawIndexed(|indices|, 1)]
    }

    /** An indexed draw is recorded exactly when an index buffer was bound before it. */
    lemma IndexedDrawNeedsBoundIndexBuffer()
      ensures DrawCmds()[0].DrawIndexed? <==> BindIndexBuffer(indexBuffer) in BindCmds()
    {
      if |indices| == 0 {
        assert BindCmds() == [BindVertexBuffers(vertexBuffer)];
      }
    }

    /** FrgMesh::hasNormalTexture: a scan for a "texture_normal" texture. */
    method HasNormalTexture() returns (found: bool)
      ensures found <==> HasNormal(textures)
    {
      if |textures| == 0 {
        return false;
      }
      var k := 0;
      while k < |textures|
        invariant 0 <= k <= |textures|
        invariant forall j :: 0 <= j < k ==> textures[j].kind != "texture_normal"
      {
        if textures[k].kind == "texture_normal" {
          return true;
        }
        k := k + 1;
      }
      return false;
    }

    /** FrgMesh::getTextureIndex: empty without textures, else the first texture's index. */
    function GetTextureIndex(): (r: Option<nat>)
      ensures r.None? <==> |textures| == 0
      ensures r.Some? ==> r.value == textures[0].textureIdx
    {
      if |textures| == 0 then None else Some(textures[0].textureIdx)
    }

    /**
     * The device calls ~FrgMesh makes: its body releases the buffers, then
     * the textures member is destroyed, each texture running ~Texture.
     */
    function TeardownCalls(): seq<Device.DeviceCall>
    {
      [Device.Destroy(vertexBuffer), Device.Destroy(vertexMemory)]
      + (if |indices| > 0 then [Device.Destroy(indexBuffer), Device.Destroy(indexMemory)] else [])
      + TexturesTeardown(textures)
    }

    /** ~FrgMesh: the vertex buffer and memory, the index ones only when there are indices, then the textures. */
    method Destroy(device: Device.FrgDevice)
      modifies device`calls
      ensures device.calls == old(device.calls) + TeardownCalls()
    {
      device.Record(Device.Destroy(vertexBuffer));
      device.Record(Device.Destroy(vertexMemory));
      if |indices| > 0 {
        device.Record(Device.Destroy(indexBuffer));
        device.Record(Device.Destroy(indexMemory));
      }
      DestroyTextures(device, textures);
    }
  }

  /** What setup_mesh leaves alive: the vertex buffer and memory, and the index ones when there are indices. */
  lemma SetupKeepsBuffers(vertexCount: nat, indexCount: nat, n: nat, h: Handle)
    ensures Device.CreatedBy(SetupCalls(vertexCount, indexCount, n), h)
        && Device.Destroy(h) !in SetupCalls(vertexCount, indexCount, n)
      <==> h == Live(n) || h == Live(n + 1) || (indexCount > 0 && (h == Live(n + 4) || h == Live(n + 5)))
  {
    var setup := SetupCalls(vertexCount, indexCount, n);
    if Device.CreatedBy(setup, h) {
      var k :| 0 <= k < |setup| && h in Device.Created(setup[k]);
    }
    if h == Live(n) || h == Live(n + 1) {
      assert h in Device.Created(setup[0]);
    } else if indexCount > 0 && (h == Live(n + 4) || h == Live(n + 5)) {
      assert h in Device.Created(setup[2]);
    }
  }

  /**
   * The destructor releases exactly what the mesh owns: a handle is
   * destroyed iff setup created it and did not release it (the vertex
   * buffer and, when there are indices, the index buffer, each with its
   * memory), or one of the mesh's textures owns it.
   */
  lemma TeardownMatchesSetup(m: FrgMesh, n: nat, h: Handle)
    requires m.vertexBuffer == Live(n) && m.vertexMemory == Live(n + 1)
    requires |m.indices| > 0 ==> m.indexBuffer == Live(n + 4) && m.indexMemory == Live(n + 5)
    ensures Device.Destroy(h) in m.TeardownCalls() <==>
      (Device.CreatedBy(SetupCalls(|m.vertices|, |m.indices|, n), h)
         && Device.Destroy(h) !in SetupCalls(|m.vertices|, |m.indices|, n))
      || (exists k :: 0 <= k < |m.textures| && h in m.textures[k].Handles())
  {
    var buffers := [Device.Destroy(m.vertexBuffer), Device.Destroy(m.vertexMemory)]
      + (if |m.indices| > 0 then [Device.Destroy(m.indexBuffer), Device.Destroy(m.indexMemory)] else []);
    assert m.TeardownCalls() == buffers + TexturesTeardown(m.textures);
    TexturesTeardownDestroysOwned(m.textures, h);
    SetupKeepsBuffers(|m.vertices|, |m.indices|, n, h);
  }
}
