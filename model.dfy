/**
 * FrgModel: loading a model file through the importer's scene graph into a
 * list of meshes, and recording its draw commands. The importer itself is an
 * input: the scene it returns (or its failure) is a parameter, and whether a
 * texture's image file loads is an oracle on its path.
 */
module Model {
  import opened VkTypes
  import Device
  import Mesh

  /** aiFace: the vertex indices of one face. */
  datatype AiFace = AiFace(indices: seq<nat>)

  /** aiMesh: per-vertex positions and normals, the optional UV channel 0, faces, material. */
  datatype AiMesh = AiMesh(
    positions: seq<Vec3>, normals: seq<Vec3>, uv0: Option<seq<Vec2>>,
    faces: seq<AiFace>, materialIndex: nat)

  /** aiMaterial: the paths of its diffuse and specular textures, in order. */
  datatype AiMaterial = AiMaterial(diffuse: seq<string>, specular: seq<string>)

  /** aiNode: indices into the scene's meshes, and child nodes. */
  datatype AiNode = AiNode(meshRefs: seq<nat>, children: seq<AiNode>)

  /** aiScene: meshes, materials, the root node and the AI_SCENE_FLAGS_INCOMPLETE flag. */
  datatype AiScene = AiScene(meshes: seq<AiMesh>, materials: seq<AiMaterial>, root: Option<AiNode>, incomplete: bool)

  /** What the importer guarantees of every mesh: one normal (and one UV) per vertex, a valid material. */
  predicate WellFormedMesh(scene: AiScene, m: AiMesh)
  {
    |m.normals| == |m.positions|
    && (m.uv0.Some? ==> |m.uv0.value| == |m.positions|)
    && m.materialIndex < |scene.materials|
  }

  predicate WellFormedScene(scene: AiScene)
  {
    forall k :: 0 <= k < |scene.meshes| ==> WellFormedMesh(scene, scene.meshes[k])
  }

  /** Every mesh a node of the tree refers to exists in the scene. */
  predicate RefsInRange(meshCount: nat, node: AiNode)
    decreases node
  {
    (forall i :: 0 <= i < |node.meshRefs| ==> node.meshRefs[i] < meshCount)
    && (forall c :: 0 <= c < |node.children| ==> RefsInRange(meshCount, node.children[c]))
  }

  // ---- Pre-order flattening of the node tree ----

  /** The mesh indices process_node visits: the node's own, then each child's in order. */
  function Flatten(node: AiNode): seq<nat>
    decreases node, |node.children| + 1
  {
    node.meshRefs + FlattenChildren(node, |node.children|)
  }

  /** The flattening of the first n children of a node, in order. */
  function FlattenChildren(node: AiNode, n: nat): seq<nat>
    requires n <= |node.children|
    decreases node, n
  {
    if n == 0 then [] else FlattenChildren(node, n - 1) + Flatten(node.children[n - 1])
  }

  /** The nodes of the tree in pre-order: a reference enumeration independent of the meshes. */
  function Nodes(node: AiNode): seq<AiNode>
    decreases node, |node.children| + 1
  {
    [node] + NodesOfChildren(node, |node.children|)
  }

  function NodesOfChildren(node: AiNode, n: nat): seq<AiNode>
    requires n <= |node.children|
    decreases node, n
  {
    if n == 0 then [] else NodesOfChildren(node, n - 1) + Nodes(node.children[n - 1])
  }

  /** The concatenation of the nodes' own mesh lists, in list order. */
  function ConcatMeshRefs(ns: seq<AiNode>): seq<nat>
  {
    if ns == [] then [] else ConcatMeshRefs(ns[..|ns| - 1]) + ns[|ns| - 1].meshRefs
  }

  /** The number of meshes the nodes refer to, summed over the nodes. */
  function SumMeshCounts(ns: seq<AiNode>): nat
  {
    if ns == [] then 0 else SumMeshCounts(ns[..|ns| - 1]) + |ns[|ns| - 1].meshRefs|
  }

  lemma {:induction false} ConcatMeshRefsAppend(a: seq<AiNode>, b: seq<AiNode>)
    ensures ConcatMeshRefs(a + b) == ConcatMeshRefs(a) + ConcatMeshRefs(b)
    decreases |b|
  {
    if b == [] {
      assert a + b == a;
    } else {
      assert (a + b)[..|a + b| - 1] == a + b[..|b| - 1];
      ConcatMeshRefsAppend(a, b[..|b| - 1]);
    }
  }

  lemma {:induction false} ConcatMeshRefsLength(ns: seq<AiNode>)
    ensures |ConcatMeshRefs(ns)| == SumMeshCounts(ns)
  {
    if ns != [] {
      ConcatMeshRefsLength(ns[..|ns| - 1]);
    }
  }

  /**
   * Flattening is a pre-order walk: the mesh list equals the concatenation of
   * every node's own meshes, nodes taken in pre-order.
   */
  lemma {:induction false} FlattenIsPreorder(node: AiNode)
    ensures Flatten(node) == ConcatMeshRefs(Nodes(node))
    decreases node, |node.children| + 1
  {
    ChildrenFlattenIsPreorder(node, |node.children|);
    ConcatMeshRefsAppend([node], NodesOfChildren(node, |node.children|));
    assert ConcatMeshRefs([node]) == node.meshRefs by {
      assert [node][..0] == [];
    }
  }

  lemma {:induction false} ChildrenFlattenIsPreorder(node: AiNode, n: nat)
    requires n <= |node.children|
    ensures FlattenChildren(node, n) == ConcatMeshRefs(NodesOfChildren(node, n))
    decreases node, n
  {
    if n > 0 {
      ChildrenFlattenIsPreorder(node, n - 1);
      FlattenIsPreorder(node.children[n - 1]);
      ConcatMeshRefsAppend(NodesOfChildren(node, n - 1), Nodes(node.children[n - 1]));
    }
  }

  /** The model ends up with as many meshes as the nodes of the tree refer to in total. */
  lemma MeshCountIsSumOverNodes(node: AiNode)
    ensures |Flatten(node)| == SumMeshCounts(Nodes(node))
  {
    FlattenIsPreorder(node);
    ConcatMeshRefsLength(Nodes(node));
  }

  lemma {:induction false} FlattenChildrenPrefix(node: AiNode, j: nat, n: nat)
    requires j <= n <= |node.children|
    ensures FlattenChildren(node, j) <= FlattenChildren(node, n)
    decreases n - j
  {
    if j < n {
      FlattenChildrenPrefix(node, j, n - 1);
    }
  }

  // ---- Per-mesh assembly ----

  /** process_mesh's vertices: one per source vertex; tex_coord from UV channel 0, else (0, 0). */
  function MeshVertices(m: AiMesh): (r: seq<Mesh.Vertex>)
    requires |m.normals| == |m.positions|
    requires m.uv0.Some? ==> |m.uv0.value| == |m.positions|
    ensures |r| == |m.positions|
    ensures forall i :: 0 <= i < |r| ==>
      r[i].position == m.positions[i] && r[i].normal == m.normals[i]
      && r[i].texCoord == (if m.uv0.Some? then m.uv0.value[i] else Vec2(0.0, 0.0))
  {
    seq(|m.positions|, i requires 0 <= i < |m.positions| =>
      Mesh.Vertex(m.positions[i], m.normals[i], if m.uv0.Some? then m.uv0.value[i] else Vec2(0.0, 0.0)))
  }

  /** The faces' indices concatenated in face order. */
  function ConcatFaces(fs: seq<AiFace>): seq<nat>
  {
    if fs == [] then [] else ConcatFaces(fs[..|fs| - 1]) + fs[|fs| - 1].indices
  }

  /** A texture reference: the type name a texture is created with, and its path. */
  datatype TextureRef = TextureRef(kind: string, path: string)

  function Labelled(kind: string, paths: seq<string>): (r: seq<TextureRef>)
    ensures |r| == |paths| && forall k :: 0 <= k < |r| ==> r[k] == TextureRef(kind, paths[k])
  {
    seq(|paths|, k requires 0 <= k < |paths| => TextureRef(kind, paths[k]))
  }

  const DIFFUSE := "texture_diffuse"
  const SPECULAR := "texture_specular"

  /** The textures process_mesh asks for: the diffuse maps, then the specular maps. */
  function MaterialTextures(mat: AiMaterial): (r: seq<TextureRef>)
    ensures |r| == |mat.diffuse| + |mat.specular|
    ensures forall k :: 0 <= k < |mat.diffuse| ==> r[k] == TextureRef(DIFFUSE, mat.diffuse[k])
    ensures forall k :: 0 <= k < |mat.specular| ==> r[|mat.diffuse| + k] == TextureRef(SPECULAR, mat.specular[k])
  {
    Labelled(DIFFUSE, mat.diffuse) + Labelled(SPECULAR, mat.specular)
  }

  predicate TexturesMatch(ts: seq<Mesh.Texture>, refs: seq<TextureRef>)
  {
    |ts| == |refs| && forall k :: 0 <= k < |ts| ==> ts[k].kind == refs[k].kind && ts[k].path == refs[k].path
  }

  /** A built mesh holds exactly what the scene's mesh mi describes. */
  predicate MeshMatches(fm: Mesh.FrgMesh, scene: AiScene, mi: nat)
  {
    mi < |scene.meshes| && WellFormedMesh(scene, scene.meshes[mi])
    && fm.vertices == MeshVertices(scene.meshes[mi])
    && fm.indices == ConcatFaces(scene.meshes[mi].faces)
    && TexturesMatch(fm.textures, MaterialTextures(scene.materials[scene.meshes[mi].materialIndex]))
  }

  predicate MeshesMatch(ms: seq<Mesh.FrgMesh>, scene: AiScene, refs: seq<nat>)
  {
    |ms| == |refs| && forall k :: 0 <= k < |ms| ==> MeshMatches(ms[k], scene, refs[k])
  }

  /** The image file of every referenced texture loads. */
  predicate RefsLoad(refs: seq<TextureRef>, loads: string -> bool)
  {
    forall k :: 0 <= k < |refs| ==> loads(refs[k].path)
  }

  lemma RefsLoadLabelled(kind: string, paths: seq<string>, loads: string -> bool)
    ensures RefsLoad(Labelled(kind, paths), loads) <==> forall k :: 0 <= k < |paths| ==> loads(paths[k])
  {
    if !RefsLoad(Labelled(kind, paths), loads) {
      var k :| 0 <= k < |paths| && !loads(Labelled(kind, paths)[k].path);
      assert !loads(paths[k]);
    }
  }

  lemma RefsLoadSplit(a: seq<TextureRef>, b: seq<TextureRef>, loads: string -> bool)
    ensures RefsLoad(a + b, loads) <==> RefsLoad(a, loads) && RefsLoad(b, loads)
  {
    if RefsLoad(a + b, loads) {
      forall k | 0 <= k < |b|
        ensures loads(b[k].path)
      {
        assert (a + b)[|a| + k] == b[k];
      }
      forall k | 0 <= k < |a|
        ensures loads(a[k].path)
      {
        assert (a + b)[k] == a[k];
      }
    }
    if RefsLoad(a, loads) && RefsLoad(b, loads) {
      forall k | 0 <= k < |a + b|
        ensures loads((a + b)[k].path)
      {
        if k >= |a| {
          assert (a + b)[k] == b[k - |a|];
        }
      }
    }
  }

  lemma TexturesMatchAppend(ts: seq<Mesh.Texture>, us: seq<Mesh.Texture>, a: seq<TextureRef>, b: seq<TextureRef>)
    requires TexturesMatch(ts, a) && TexturesMatch(us, b)
    ensures TexturesMatch(ts + us, a + b)
  {
    forall k | 0 <= k < |ts + us|
      ensures (ts + us)[k].kind == (a + b)[k].kind && (ts + us)[k].path == (a + b)[k].path
    {
      if k >= |ts| {
        assert (ts + us)[k] == us[k - |ts|] && (a + b)[k] == b[k - |ts|];
      }
    }
  }

  /** Every texture image of mesh mi loads. */
  predicate MeshLoads(scene: AiScene, mi: nat, loads: string -> bool)
  {
    mi < |scene.meshes| && scene.meshes[mi].materialIndex < |scene.materials|
    && RefsLoad(MaterialTextures(scene.materials[scene.meshes[mi].materialIndex]), loads)
  }

  predicate AllMeshesLoad(scene: AiScene, refs: seq<nat>, loads: string -> bool)
  {
    forall k :: 0 <= k < |refs| ==> MeshLoads(scene, refs[k], loads)
  }

  lemma AllMeshesLoadSplit(scene: AiScene, a: seq<nat>, b: seq<nat>, loads: string -> bool)
    ensures AllMeshesLoad(scene, a + b, loads) <==> AllMeshesLoad(scene, a, loads) && AllMeshesLoad(scene, b, loads)
  {
    if AllMeshesLoad(scene, a, loads) && AllMeshesLoad(scene, b, loads) {
      forall k | 0 <= k < |a + b|
        ensures MeshLoads(scene, (a + b)[k], loads)
      {
        if k >= |a| {
          assert (a + b)[k] == b[k - |a|];
        }
      }
    }
    if AllMeshesLoad(scene, a + b, loads) {
      forall k | 0 <= k < |b|
        ensures MeshLoads(scene, b[k], loads)
      {
        assert (a + b)[|a| + k] == b[k];
      }
      forall k | 0 <= k < |a|
        ensures MeshLoads(scene, a[k], loads)
      {
        assert (a + b)[k] == a[k];
      }
    }
  }

  lemma MeshesMatchAppend(ms: seq<Mesh.FrgMesh>, ns: seq<Mesh.FrgMesh>, scene: AiScene, a: seq<nat>, b: seq<nat>)
    requires MeshesMatch(ms, scene, a) && MeshesMatch(ns, scene, b)
    ensures MeshesMatch(ms + ns, scene, a + b)
  {
    forall k | 0 <= k < |ms + ns|
      ensures MeshMatches((ms + ns)[k], scene, (a + b)[k])
    {
      if k >= |ms| {
        assert (ms + ns)[k] == ns[k - |ms|] && (a + b)[k] == b[k - |ms|];
      }
    }
  }

  /** process_mesh's vertex loop. */
  method BuildVertices(m: AiMesh) returns (vs: seq<Mesh.Vertex>)
    requires |m.normals| == |m.positions|
    requires m.uv0.Some? ==> |m.uv0.value| == |m.positions|
    ensures vs == MeshVertices(m)
  {
    vs := [];
    var i := 0;
    while i < |m.positions|
      invariant 0 <= i <= |m.positions|
      invariant vs == MeshVertices(m)[..i]
    {
      var tex := if m.uv0.Some? then m.uv0.value[i] else Vec2(0.0, 0.0);
      vs := vs + [Mesh.Vertex(m.positions[i], m.normals[i], tex)];
      i := i + 1;
    }
  }

  /** process_mesh's face loop: every face's indices, in order. */
  method BuildIndices(faces: seq<AiFace>) returns (ix: seq<nat>)
    ensures ix == ConcatFaces(faces)
  {
    ix := [];
    var i := 0;
    while i < |faces|
      invariant 0 <= i <= |faces|
      invariant ix == ConcatFaces(faces[..i])
    {
      var j := 0;
      while j < |faces[i].indices|
        invariant 0 <= j <= |faces[i].indices|
        invariant ix == ConcatFaces(faces[..i]) + faces[i].indices[..j]
      {
        ix := ix + [faces[i].indices[j]];
        j := j + 1;
      }
      assert faces[..i + 1][..i] == faces[..i];
      assert faces[i].indices[..j] == faces[i].indices;
      i := i + 1;
    }
    assert faces[..i] == faces;
  }

  /** load_material_textures: one texture per path of the type, in order; a failed image load throws. */
  method LoadMaterialTextures(device: Device.FrgDevice, registry: Mesh.LoadedTextures, paths: seq<string>,
                              typeName: string, loads: string -> bool, sizes: string -> Extent)
    returns (r: Result<seq<Mesh.Texture>>)
    modifies device`calls, device`nextHandle, registry
    ensures old(registry.Valid()) ==> registry.Valid()
    ensures r.Ok? <==> forall k :: 0 <= k < |paths| ==> loads(paths[k])
    ensures r.Err? ==> r.msg == Mesh.TEXTURE_LOAD_FAILED
    ensures r.Ok? ==> TexturesMatch(r.value, Labelled(typeName, paths))
  {
    var ts: seq<Mesh.Texture> := [];
    var i := 0;
    while i < |paths|
      invariant 0 <= i <= |paths|
      invariant old(registry.Valid()) ==> registry.Valid()
      invariant forall k :: 0 <= k < i ==> loads(paths[k])
      invariant TexturesMatch(ts, Labelled(typeName, paths[..i]))
    {
      var t := Mesh.NewTexture(device, registry, typeName, paths[i], loads(paths[i]), sizes(paths[i]), Success);
      if t.Err? {
        return Err(t.msg);
      }
      ts := ts + [t.value];
      i := i + 1;
    }
    assert paths[..i] == paths;
    r := Ok(ts);
  }

  /** process_mesh: vertices, indices, then the diffuse and specular textures, then the mesh's buffers. */
  method ProcessMesh(scene: AiScene, mi: nat, device: Device.FrgDevice, registry: Mesh.LoadedTextures,
                     loads: string -> bool, sizes: string -> Extent)
    returns (r: Result<Mesh.FrgMesh>)
    requires WellFormedScene(scene) && mi < |scene.meshes|
    modifies device, registry
    ensures old(registry.Valid()) ==> registry.Valid()
    ensures r.Ok? <==> MeshLoads(scene, mi, loads)
    ensures r.Ok? ==> MeshMatches(r.value, scene, mi)
  {
    var m := scene.meshes[mi];
    assert WellFormedMesh(scene, m);
    var mat := scene.materials[m.materialIndex];
    var vertices := BuildVertices(m);
    var indices := BuildIndices(m.faces);
    var diffuse := LoadMaterialTextures(device, registry, mat.diffuse, DIFFUSE, loads, sizes);
    RefsLoadLabelled(DIFFUSE, mat.diffuse, loads);
    RefsLoadLabelled(SPECULAR, mat.specular, loads);
    RefsLoadSplit(Labelled(DIFFUSE, mat.diffuse), Labelled(SPECULAR, mat.specular), loads);
    if diffuse.Err? {
      return Err(diffuse.msg);
    }
    var specular := LoadMaterialTextures(device, registry, mat.specular, SPECULAR, loads, sizes);
    if specular.Err? {
      return Err(specular.msg);
    }
    var textures := diffuse.value + specular.value;
    TexturesMatchAppend(diffuse.value, specular.value, Labelled(DIFFUSE, mat.diffuse), Labelled(SPECULAR, mat.specular));
    var fm := new Mesh.FrgMesh(device, vertices, indices, textures);
    r := Ok(fm);
  }

  /** The list ys is the list xs followed by meshes built from the scene's meshes refs, in order. */
  predicate Extends(xs: seq<Mesh.FrgMesh>, ys: seq<Mesh.FrgMesh>, scene: AiScene, refs: seq<nat>)
  {
    |ys| >= |xs| && ys[..|xs|] == xs && MeshesMatch(ys[|xs|..], scene, refs)
  }

  lemma ExtendsRefl(xs: seq<Mesh.FrgMesh>, scene: AiScene)
    ensures Extends(xs, xs, scene, [])
  {
  }

  lemma ExtendsByOne(xs: seq<Mesh.FrgMesh>, ys: seq<Mesh.FrgMesh>, m: Mesh.FrgMesh, scene: AiScene,
                     refs: seq<nat>, mi: nat)
    requires Extends(xs, ys, scene, refs) && MeshMatches(m, scene, mi)
    ensures Extends(xs, ys + [m], scene, refs + [mi])
  {
    assert (ys + [m])[..|xs|] == ys[..|xs|];
    assert (ys + [m])[|xs|..] == ys[|xs|..] + [m];
    MeshesMatchAppend(ys[|xs|..], [m], scene, refs, [mi]);
  }

  lemma ExtendsTrans(xs: seq<Mesh.FrgMesh>, ys: seq<Mesh.FrgMesh>, zs: seq<Mesh.FrgMesh>, scene: AiScene,
                     a: seq<nat>, b: seq<nat>)
    requires Extends(xs, ys, scene, a) && Extends(ys, zs, scene, b)
    ensures Extends(xs, zs, scene, a + b)
  {
    assert zs[..|xs|] == ys[..|xs|];
    assert zs[|xs|..] == ys[|xs|..] + zs[|ys|..];
    MeshesMatchAppend(ys[|xs|..], zs[|ys|..], scene, a, b);
  }

  lemma AllMeshesLoadPrefix(scene: AiScene, a: seq<nat>, b: seq<nat>, loads: string -> bool)
    requires a <= b
    ensures AllMeshesLoad(scene, b, loads) ==> AllMeshesLoad(scene, a, loads)
  {
    assert b == a + b[|a|..];
    AllMeshesLoadSplit(scene, a, b[|a|..], loads);
  }

  class FrgModel {
    var meshes: seq<Mesh.FrgMesh>
    /** The directory part of the model's path. */
    var dir: string

    constructor()
      ensures meshes == [] && dir == []
    {
      meshes := [];
      dir := [];
    }

    /**
     * process_node: the node's meshes in order, then each child subtree in
     * order, appended to the model's meshes; a texture that fails to load
     * aborts the walk.
     */
    method ProcessNode(scene: AiScene, node: AiNode, device: Device.FrgDevice, registry: Mesh.LoadedTextures,
                       loads: string -> bool, sizes: string -> Extent)
      returns (err: Option<string>)
      requires WellFormedScene(scene) && RefsInRange(|scene.meshes|, node)
      modifies this`meshes, device, registry
      ensures err.None? <==> AllMeshesLoad(scene, Flatten(node), loads)
      ensures err.None? ==> Extends(old(meshes), meshes, scene, Flatten(node))
      decreases node, |node.children| + 1
    {
      ghost var start := meshes;
      err := ProcessMeshes(scene, node.meshRefs, device, registry, loads, sizes);
      AllMeshesLoadSplit(scene, node.meshRefs, FlattenChildren(node, |node.children|), loads);
      if err.Some? {
        return;
      }
      ghost var mid := meshes;
      err := ProcessChildren(scene, node, |node.children|, device, registry, loads, sizes);
      if err.None? {
        ExtendsTrans(start, mid, meshes, scene, node.meshRefs, FlattenChildren(node, |node.children|));
      }
    }

    /** The first loop of process_node: the node's own meshes, in order. */
    method ProcessMeshes(scene: AiScene, refs: seq<nat>, device: Device.FrgDevice, registry: Mesh.LoadedTextures,
                         loads: string -> bool, sizes: string -> Extent)
      returns (err: Option<string>)
      requires WellFormedScene(scene) && forall i :: 0 <= i < |refs| ==> refs[i] < |scene.meshes|
      modifies this`meshes, device, registry
      ensures err.None? <==> AllMeshesLoad(scene, refs, loads)
      ensures err.None? ==> Extends(old(meshes), meshes, scene, refs)
    {
      ExtendsRefl(meshes, scene);
      var i := 0;
      while i < |refs|
        invariant 0 <= i <= |refs|
        invariant AllMeshesLoad(scene, refs[..i], loads)
        invariant Extends(old(meshes), meshes, scene, refs[..i])
      {
        var r := ProcessMesh(scene, refs[i], device, registry, loads, sizes);
        if r.Err? {
          return Some(r.msg);
        }
        ExtendsByOne(old(meshes), meshes, r.value, scene, refs[..i], refs[i]);
        AllMeshesLoadSplit(scene, refs[..i], [refs[i]], loads);
        assert refs[..i] + [refs[i]] == refs[..i + 1];
        meshes := meshes + [r.value];
        i := i + 1;
      }
      assert refs[..i] == refs;
      err := None;
    }

    /** The second loop of process_node: the first n child subtrees, in order. */
    method ProcessChildren(scene: AiScene, node: AiNode, n: nat, device: Device.FrgDevice,
                           registry: Mesh.LoadedTextures, loads: string -> bool, sizes: string -> Extent)
      returns (err: Option<string>)
      requires n <= |node.children|
      requires WellFormedScene(scene) && RefsInRange(|scene.meshes|, node)
      modifies this`meshes, device, registry
      ensures err.None? <==> AllMeshesLoad(scene, FlattenChildren(node, n), loads)
      ensures err.None? ==> Extends(old(meshes), meshes, scene, FlattenChildren(node, n))
      decreases node, n
    {
      ExtendsRefl(meshes, scene);
      var c := 0;
      while c < n
        invariant 0 <= c <= n
        invariant AllMeshesLoad(scene, FlattenChildren(node, c), loads)
        invariant Extends(old(meshes), meshes, scene, FlattenChildren(node, c))
      {
        ghost var before := meshes;
        err := ProcessNode(scene, node.children[c], device, registry, loads, sizes);
        AllMeshesLoadSplit(scene, FlattenChildren(node, c), Flatten(node.children[c]), loads);
        if err.Some? {
          FlattenChildrenPrefix(node, c + 1, n);
          AllMeshesLoadPrefix(scene, FlattenChildren(node, c + 1), FlattenChildren(node, n), loads);
          return;
        }
        ExtendsTrans(old(meshes), before, meshes, scene, FlattenChildren(node, c), Flatten(node.children[c]));
        c := c + 1;
      }
      err := None;
    }

    /** FrgModel::draw: each mesh bound and then drawn, in mesh order. */
    method Draw() returns (cmds: seq<Cmd>)
      ensures cmds == MeshCmds(meshes)
    {
      cmds := [];
      var i := 0;
      while i < |meshes|
        invariant 0 <= i <= |meshes|
        invariant cmds == MeshCmds(meshes[..i])
      {
        assert meshes[..i + 1][..i] == meshes[..i];
        cmds := cmds + meshes[i].BindCmds() + meshes[i].DrawCmds();
        i := i + 1;
      }
      assert meshes[..i] == meshes;
    }
  }

  /** The commands drawing the meshes: each mesh's bind commands followed by its draw. */
  function MeshCmds(ms: seq<Mesh.FrgMesh>): seq<Cmd>
  {
    if ms == [] then [] else MeshCmds(ms[..|ms| - 1]) + ms[|ms| - 1].BindCmds() + ms[|ms| - 1].DrawCmds()
  }

  /** The number of draw commands (indexed or not) in a command list. */
  function DrawCount(cmds: seq<Cmd>): nat
  {
    if cmds == [] then 0
    else DrawCount(cmds[..|cmds| - 1]) + (if cmds[|cmds| - 1].Draw? || cmds[|cmds| - 1].DrawIndexed? then 1 else 0)
  }

  lemma {:induction false} DrawCountAppend(a: seq<Cmd>, b: seq<Cmd>)
    ensures DrawCount(a + b) == DrawCount(a) + DrawCount(b)
    decreases |b|
  {
    if b == [] {
      assert a + b == a;
    } else {
      assert (a + b)[..|a + b| - 1] == a + b[..|b| - 1];
      DrawCountAppend(a, b[..|b| - 1]);
    }
  }

  /** Drawing a model issues exactly one draw per mesh. */
  lemma {:induction false} OneDrawPerMesh(ms: seq<Mesh.FrgMesh>)
    ensures DrawCount(MeshCmds(ms)) == |ms|
  {
    if ms != [] {
      var m := ms[|ms| - 1];
      OneDrawPerMesh(ms[..|ms| - 1]);
      DrawCountAppend(MeshCmds(ms[..|ms| - 1]) + m.BindCmds(), m.DrawCmds());
      DrawCountAppend(MeshCmds(ms[..|ms| - 1]), m.BindCmds());
      var b := m.BindCmds();
      assert DrawCount(b) == 0 by {
        if |b| == 2 {
          assert b[..1][..0] == [];
          assert b[..|b| - 1] == [b[0]];
        } else {
          assert b[..0] == [];
        }
      }
      assert DrawCount(m.DrawCmds()) == 1 by {
        assert m.DrawCmds()[..0] == [];
      }
    }
  }

  // ---- The directory of a path ----

  /** std::string::find_last_of('/'): the position of the last '/', if any. */
  function LastSlash(s: string): (r: Option<nat>)
    ensures r.None? ==> forall j :: 0 <= j < |s| ==> s[j] != '/'
    ensures r.Some? ==> r.value < |s| && s[r.value] == '/' && forall j :: r.value < j < |s| ==> s[j] != '/'
  {
    if s == [] then None
    else if s[|s| - 1] == '/' then Some(|s| - 1)
    else LastSlash(s[..|s| - 1])
  }

  /** dir = path.substr(0, path.find_last_of('/')): npos takes the whole path. */
  function Dir(path: string): (r: string)
    ensures r <= path
  {
    match LastSlash(path)
    case None => path
    case Some(k) => path[..k]
  }

  /** A path without any '/' is its own directory. */
  lemma DirWithoutSlash(path: string)
    requires forall j :: 0 <= j < |path| ==> path[j] != '/'
    ensures Dir(path) == path
  {
  }

  /** The directory of "d/name", name free of '/', is d, whatever d contains. */
  lemma DirOfJoinedPath(d: string, name: string)
    requires forall j :: 0 <= j < |name| ==> name[j] != '/'
    ensures Dir(d + "/" + name) == d
  {
    var s := d + "/" + name;
    assert s[|d|] == '/';
    var r := LastSlash(s);
    assert r.Some?;
    assert r.value == |d|;
    assert s[..|d|] == d;
  }

  /**
   * The FrgModel constructor (load_model): a missing scene, an incomplete
   * one or one without a root node throws the importer's error string;
   * otherwise dir is set and the tree is walked from the root.
   */
  method LoadModel(path: string, scene: Option<AiScene>, importerError: string,
                   device: Device.FrgDevice, registry: Mesh.LoadedTextures, loads: string -> bool,
                   sizes: string -> Extent)
    returns (r: Result<FrgModel>)
    requires scene.Some? ==> WellFormedScene(scene.value)
    requires scene.Some? && scene.value.root.Some? ==> RefsInRange(|scene.value.meshes|, scene.value.root.value)
    modifies device, registry
    ensures (scene.None? || scene.value.incomplete || scene.value.root.None?) ==> r == Err(importerError)
    ensures r.Ok? <==>
      scene.Some? && !scene.value.incomplete && scene.value.root.Some?
      && AllMeshesLoad(scene.value, Flatten(scene.value.root.value), loads)
    ensures r.Ok? ==> (r.value.dir == Dir(path)
      && MeshesMatch(r.value.meshes, scene.value, Flatten(scene.value.root.value)))
  {
    if scene.None? || scene.value.incomplete || scene.value.root.None? {
      return Err(importerError);
    }
    var model := new FrgModel();
    model.dir := Dir(path);
    var err := model.ProcessNode(scene.value, scene.value.root.value, device, registry, loads, sizes);
    if err.Some? {
      return Err(err.value);
    }
    assert model.meshes[0..] == model.meshes;
    r := Ok(model);
  }
}
