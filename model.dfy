/** Model: importing a scene tree into a flat list of meshes (pre-order),
    flattening each mesh's faces into one index list, and the texture cache
    that loads every texture file at most once. The importer is not
    modelled: its result is an abstract scene tree handed in as a value. */
module Models {
  import opened Wrappers
  import opened Gl
  import opened Meshes
  import TextureUtils

  /** The three material slots the model reads (aiTextureType_DIFFUSE,
      _SPECULAR and _HEIGHT). */
  datatype TextureSlot = DiffuseSlot | SpecularSlot | HeightSlot

  /** A material: the texture file names of each slot, in slot order. */
  datatype AiMaterial = AiMaterial(diffuse: seq<string>, specular: seq<string>, height: seq<string>)

  /** A mesh as the importer delivers it: per-vertex arrays (a missing
      optional array is None), faces as index lists, a material index. */
  datatype AiMesh = AiMesh(
    positions: seq<Vec3>,
    normals: Option<seq<Vec3>>,
    tangents: Option<seq<Vec3>>,
    texCoords: Option<seq<Vec2>>,
    faces: seq<seq<nat>>,
    materialIndex: nat)

  /** A scene node: indices into the scene's meshes, then child nodes. */
  datatype AiNode = AiNode(meshes: seq<nat>, children: seq<AiNode>)

  datatype AiScene = AiScene(meshes: seq<AiMesh>, materials: seq<AiMaterial>, incomplete: bool, root: Option<AiNode>)

  function SlotPaths(m: AiMaterial, slot: TextureSlot): seq<string> {
    match slot
    case DiffuseSlot => m.diffuse
    case SpecularSlot => m.specular
    case HeightSlot => m.height
  }

  /** The file names a mesh's texture list is built from: diffuse maps,
      then specular maps, then height maps (used as normal maps). */
  function MeshTexturePaths(m: AiMaterial): seq<string> {
    m.diffuse + m.specular + m.height
  }

  // ---------------------------------------------------------------------
  // Well-formed input: what the importer guarantees about its arrays.

  predicate MeshWellFormed(m: AiMesh, materialCount: nat) {
    && (m.normals.Some? ==> |m.normals.value| == |m.positions|)
    && (m.tangents.Some? ==> |m.tangents.value| == |m.positions|)
    && (m.texCoords.Some? ==> |m.texCoords.value| == |m.positions|)
    && m.materialIndex < materialCount
  }

  predicate NodeWellFormed(n: AiNode, meshCount: nat)
    decreases n
  {
    && (forall i :: 0 <= i < |n.meshes| ==> n.meshes[i] < meshCount)
    && (forall i :: 0 <= i < |n.children| ==> NodeWellFormed(n.children[i], meshCount))
  }

  predicate SceneWellFormed(s: AiScene) {
    && (forall i :: 0 <= i < |s.meshes| ==> MeshWellFormed(s.meshes[i], |s.materials|))
    && (s.root.Some? ==> NodeWellFormed(s.root.value, |s.meshes|))
  }

  /** `loadModel` gives up when there is no scene, it is flagged incomplete,
      or it has no root node. */
  predicate ImportFailed(imported: Option<AiScene>) {
    imported.None? || imported.value.incomplete || imported.value.root.None?
  }

  // ---------------------------------------------------------------------
  // Pre-order flattening of the node tree.

  /** Scene mesh indices in the order `processNode` visits them: the
      node's own meshes, then each child's subtree from left to right. */
  function PreOrder(n: AiNode): seq<nat>
    decreases n, 1
  {
    n.meshes + PreOrderAll(n.children)
  }

  function PreOrderAll(cs: seq<AiNode>): seq<nat>
    decreases cs, 0
  {
    if cs == [] then [] else PreOrderAll(cs[..|cs| - 1]) + PreOrder(cs[|cs| - 1])
  }

  /** Every index the traversal yields names a mesh of the scene. */
  lemma {:induction false} PreOrderInRange(n: AiNode, meshCount: nat)
    requires NodeWellFormed(n, meshCount)
    ensures forall k :: 0 <= k < |PreOrder(n)| ==> PreOrder(n)[k] < meshCount
    decreases n, 1
  {
    PreOrderAllInRange(n.children, meshCount);
  }

  lemma {:induction false} PreOrderAllInRange(cs: seq<AiNode>, meshCount: nat)
    requires forall i :: 0 <= i < |cs| ==> NodeWellFormed(cs[i], meshCount)
    ensures forall k :: 0 <= k < |PreOrderAll(cs)| ==> PreOrderAll(cs)[k] < meshCount
    decreases cs, 0
  {
    if cs != [] {
      PreOrderAllInRange(cs[..|cs| - 1], meshCount);
      PreOrderInRange(cs[|cs| - 1], meshCount);
    }
  }

  /** The traversal of the first c + 1 children is the traversal of the
      first c children followed by child c's subtree. */
  lemma PreOrderAllStep(cs: seq<AiNode>, c: nat)
    requires c < |cs|
    ensures PreOrderAll(cs[..c]) + PreOrder(cs[c]) == PreOrderAll(cs[..c + 1])
  {
    var prefix := cs[..c + 1];
    assert prefix[..|prefix| - 1] == cs[..c];
  }

  // ---------------------------------------------------------------------
  // Vertices and indices of one mesh.

  /** Vertex i: the position, and the normal, texture coordinates and
      tangent when the mesh has them; a missing array leaves the vertex's
      zero value, and missing texture coordinates are (0, 0). */
  function ImportVertex(m: AiMesh, i: nat): Vertex
    requires i < |m.positions| && MeshWellFormed(m, m.materialIndex + 1)
  {
    Vertex(
      m.positions[i],
      if m.normals.Some? then m.normals.value[i] else Vec3(0.0, 0.0, 0.0),
      if m.texCoords.Some? then m.texCoords.value[i] else Vec2(0.0, 0.0),
      if m.tangents.Some? then m.tangents.value[i] else Vec3(0.0, 0.0, 0.0))
  }

  /** The face index lists concatenated in face order. */
  function Flatten(faces: seq<seq<nat>>): seq<nat> {
    if faces == [] then [] else Flatten(faces[..|faces| - 1]) + faces[|faces| - 1]
  }

  /** Where face f starts in the flattened list. */
  function FaceOffset(faces: seq<seq<nat>>, f: nat): nat
    requires f <= |faces|
  {
    |Flatten(faces[..f])|
  }

  /** Flattening a prefix gives a prefix of the flattening. */
  lemma {:induction false} FlattenPrefix(faces: seq<seq<nat>>, f: nat)
    requires f <= |faces|
    ensures |Flatten(faces[..f])| <= |Flatten(faces)|
    ensures Flatten(faces)[..|Flatten(faces[..f])|] == Flatten(faces[..f])
    decreases |faces| - f
  {
    if f < |faces| {
      var g := faces[..f + 1];
      assert g[..|g| - 1] == faces[..f];
      FlattenPrefix(faces, f + 1);
      var a, b := Flatten(faces[..f]), Flatten(faces[..f + 1]);
      assert b == a + faces[f];
      assert b[..|a|] == a;
    } else {
      assert faces[..f] == faces;
    }
  }

  /** Index j of face f sits at FaceOffset(faces, f) + j of the flattened
      list: no index is lost, duplicated or reordered. */
  lemma FlattenAt(faces: seq<seq<nat>>, f: nat, j: nat)
    requires f < |faces| && j < |faces[f]|
    ensures FaceOffset(faces, f) + j < |Flatten(faces)|
    ensures Flatten(faces)[FaceOffset(faces, f) + j] == faces[f][j]
  {
    var g := faces[..f + 1];
    assert g[..|g| - 1] == faces[..f];
    FlattenPrefix(faces, f + 1);
    assert Flatten(faces[..f + 1]) == Flatten(faces[..f]) + faces[f];
  }

  // ---------------------------------------------------------------------
  // The texture cache.

  /** Index of the first cached texture with this file name, or |ts|. */
  function IndexOfName(ts: seq<Texture>, name: string): (k: nat)
    ensures k <= |ts|
    ensures k < |ts| ==> ts[k].name == name
  {
    IndexFrom(ts, name, 0)
  }

  /** The scan of `IndexOfName` from position `i` on. */
  function IndexFrom(ts: seq<Texture>, name: string, i: nat): (k: nat)
    requires i <= |ts|
    ensures i <= k <= |ts|
    ensures k < |ts| ==> ts[k].name == name
    decreases |ts| - i
  {
    if i == |ts| then |ts|
    else if ts[i].name == name then i
    else IndexFrom(ts, name, i + 1)
  }

  lemma {:induction false} IndexFromFirst(ts: seq<Texture>, name: string, i: nat)
    requires i <= |ts|
    ensures forall j :: i <= j < IndexFrom(ts, name, i) ==> ts[j].name != name
    decreases |ts| - i
  {
    if i < |ts| && ts[i].name != name {
      IndexFromFirst(ts, name, i + 1);
    }
  }

  /** No entry before the one found carries the name, so the entry found
      is the first. */
  lemma IndexOfNameFirst(ts: seq<Texture>, name: string)
    ensures forall j :: 0 <= j < IndexOfName(ts, name) ==> ts[j].name != name
  {
    IndexFromFirst(ts, name, 0);
  }

  /** The first-match property pins the index down. */
  lemma IndexOfNameUnique(ts: seq<Texture>, name: string, k: nat)
    requires k <= |ts| && (k < |ts| ==> ts[k].name == name)
    requires forall j :: 0 <= j < k ==> ts[j].name != name
    ensures IndexOfName(ts, name) == k
  {
    IndexOfNameFirst(ts, name);
  }

  predicate DistinctNames(ts: seq<Texture>) {
    forall a, b :: 0 <= a < b < |ts| ==> ts[a].name != ts[b].name
  }

  /** Appending never changes which entry is found first for a name that
      was already cached. */
  lemma IndexOfNameAppend(c: seq<Texture>, d: seq<Texture>, name: string)
    ensures IndexOfName(c, name) < |c| ==> IndexOfName(c + d, name) == IndexOfName(c, name)
    ensures IndexOfName(c, name) == |c| ==> IndexOfName(c + d, name) == |c| + IndexOfName(d, name)
  {
    var k := IndexOfName(c, name);
    IndexOfNameFirst(c, name);
    assert forall j :: 0 <= j < |c| ==> (c + d)[j] == c[j];
    if k < |c| {
      IndexOfNameUnique(c + d, name, k);
    } else {
      var m := IndexOfName(d, name);
      IndexOfNameFirst(d, name);
      assert forall j :: |c| <= j < |c| + m ==> (c + d)[j] == d[j - |c|];
      if m < |d| {
        assert (c + d)[|c| + m] == d[m];
      }
      IndexOfNameUnique(c + d, name, |c| + m);
    }
  }

  /** The cache only grows at its end, and never gains a duplicate name. */
  predicate CacheExtends(c0: seq<Texture>, c: seq<Texture>) {
    && |c0| <= |c| && c[..|c0|] == c0
    && (DistinctNames(c0) ==> DistinctNames(c))
  }

  lemma CacheExtendsTrans(a: seq<Texture>, b: seq<Texture>, c: seq<Texture>)
    requires CacheExtends(a, b) && CacheExtends(b, c)
    ensures CacheExtends(a, c)
  {
    assert c[..|a|] == c[..|b|][..|a|];
  }

  /** Every image the model may load has 1, 3 or 4 channels (the channel
      switch of `loadTexture` leaves the formats unset otherwise). */
  predicate ChannelsSupported(images: TextureUtils.ImageStore) {
    forall p :: p in images ==> TextureUtils.EvaluateFormats(images[p].channels, false).Some?
  }

  /** Every 2D upload in `es` is sRGB exactly when `gamma` is set and the
      image has colour channels. */
  predicate UploadsGamma(es: seq<Event>, gamma: bool) {
    forall k :: 0 <= k < |es| && es[k].TexImage? ==>
      (TextureUtils.IsSrgb(es[k].internalFormat) <==> gamma && es[k].dataFormat != RED)
  }

  lemma UploadsGammaAppend(a: seq<Event>, b: seq<Event>, gamma: bool)
    requires UploadsGamma(a, gamma) && UploadsGamma(b, gamma)
    ensures UploadsGamma(a + b, gamma)
  {
    forall k | 0 <= k < |a + b| && (a + b)[k].TexImage?
      ensures TextureUtils.IsSrgb((a + b)[k].internalFormat) <==> gamma && (a + b)[k].dataFormat != RED
    {
      if k < |a| { assert (a + b)[k] == a[k]; } else { assert (a + b)[k] == b[k - |a|]; }
    }
  }

  /** The calls `Model::loadTexture` makes for a file that loads. */
  function ModelLoadEvents(image: TextureUtils.Image, gamma: bool, name: nat): seq<Event>
    requires TextureUtils.EvaluateFormats(image.channels, gamma).Some?
  {
    [BindTexture(TEXTURE_2D, name), TextureUtils.Upload(TEXTURE_2D, image, gamma), GenerateMipmap(TEXTURE_2D)]
  }

  /** `Model::loadTexture`: reads directory + '/' + fileName; a name is
      generated only when the file loads, and 0 is returned otherwise. */
  method LoadTexture(fileName: string, directory: string, gammaCorrection: bool,
                     images: TextureUtils.ImageStore, gl: Context)
    returns (textureId: nat)
    requires ChannelsSupported(images)
    modifies gl
    ensures var path := directory + "/" + fileName;
      && (path in images ==> textureId == gl.lastName == old(gl.lastName) + 1
                             && gl.trace == old(gl.trace) + ModelLoadEvents(images[path], gammaCorrection, textureId))
      && (path !in images ==> textureId == 0 && gl.lastName == old(gl.lastName) && gl.trace == old(gl.trace))
  {
    var path := directory + "/" + fileName;
    textureId := 0;
    if path in images {
      var image := images[path];
      var formats := TextureUtils.EvaluateFormats(image.channels, gammaCorrection);
      textureId := gl.GenName();
      gl.Emit(BindTexture(TEXTURE_2D, textureId));
      gl.Emit(TexImage(TEXTURE_2D, formats.value.internalFormat, image.width, image.height, formats.value.dataFormat));
      gl.Emit(GenerateMipmap(TEXTURE_2D));
    }
  }

  /** A mesh built from scene mesh `m`: the imported vertices, the
      flattened faces, the model's shading mode, and one texture per
      material slot entry, in slot order, each being the first cache entry
      with that file name. */
  ghost predicate Imported(mesh: Mesh, m: AiMesh, scene: AiScene, cache: seq<Texture>, isPbr: bool)
    requires SceneWellFormed(scene) && m in scene.meshes
  {
    var paths := MeshTexturePaths(scene.materials[m.materialIndex]);
    && |mesh.vertices| == |m.positions|
    && (forall i :: 0 <= i < |m.positions| ==> mesh.vertices[i] == ImportVertex(m, i))
    && mesh.indices == Flatten(m.faces)
    && mesh.isPbr == isPbr
    && |mesh.textures| == |paths|
    && (forall i :: 0 <= i < |paths| ==> mesh.textures[i].name == paths[i])
    && (forall i :: 0 <= i < |paths| ==>
          IndexOfName(cache, paths[i]) < |cache| && mesh.textures[i] == cache[IndexOfName(cache, paths[i])])
  }

  /** `meshes` were built, in order, from the scene meshes `refs`. */
  ghost predicate ImportedAll(meshes: seq<Mesh>, refs: seq<nat>, scene: AiScene, cache: seq<Texture>, isPbr: bool)
    requires SceneWellFormed(scene)
  {
    && |meshes| == |refs|
    && (forall k :: 0 <= k < |refs| ==> refs[k] < |scene.meshes|)
    && (forall k :: 0 <= k < |refs| ==> Imported(meshes[k], scene.meshes[refs[k]], scene, cache, isPbr))
  }

  /** `meshes` is `m0` followed by meshes built from the scene meshes `refs`. */
  ghost predicate ImportedSince(meshes: seq<Mesh>, m0: seq<Mesh>, refs: seq<nat>, scene: AiScene, cache: seq<Texture>, isPbr: bool)
    requires SceneWellFormed(scene)
  {
    |m0| <= |meshes| && meshes[..|m0|] == m0 && ImportedAll(meshes[|m0|..], refs, scene, cache, isPbr)
  }

  /** What was imported stays imported when the cache grows at its end. */
  lemma ImportedAllStable(meshes: seq<Mesh>, refs: seq<nat>, scene: AiScene, cache: seq<Texture>, more: seq<Texture>, isPbr: bool)
    requires SceneWellFormed(scene) && ImportedAll(meshes, refs, scene, cache, isPbr)
    ensures ImportedAll(meshes, refs, scene, cache + more, isPbr)
  {
    forall k | 0 <= k < |refs|
      ensures Imported(meshes[k], scene.meshes[refs[k]], scene, cache + more, isPbr)
    {
      var m := scene.meshes[refs[k]];
      var paths := MeshTexturePaths(scene.materials[m.materialIndex]);
      forall i | 0 <= i < |paths|
        ensures IndexOfName(cache + more, paths[i]) == IndexOfName(cache, paths[i])
      {
        IndexOfNameAppend(cache, more, paths[i]);
      }
    }
  }

  lemma ImportedAllConcat(a: seq<Mesh>, ra: seq<nat>, b: seq<Mesh>, rb: seq<nat>, scene: AiScene, cache: seq<Texture>, isPbr: bool)
    requires SceneWellFormed(scene)
    requires ImportedAll(a, ra, scene, cache, isPbr) && ImportedAll(b, rb, scene, cache, isPbr)
    ensures ImportedAll(a + b, ra + rb, scene, cache, isPbr)
  {
    forall k | 0 <= k < |ra + rb|
      ensures (ra + rb)[k] < |scene.meshes|
      ensures Imported((a + b)[k], scene.meshes[(ra + rb)[k]], scene, cache, isPbr)
    {
      if k < |ra| {
        assert (a + b)[k] == a[k] && (ra + rb)[k] == ra[k];
      } else {
        assert (a + b)[k] == b[k - |a|] && (ra + rb)[k] == rb[k - |ra|];
      }
    }
  }

  /** Two successive import steps compose: the meshes of the first stay
      valid against the larger cache of the second. */
  lemma ImportedSinceTrans(m0: seq<Mesh>, m1: seq<Mesh>, m2: seq<Mesh>, r1: seq<nat>, r2: seq<nat>,
                           scene: AiScene, c1: seq<Texture>, c2: seq<Texture>, isPbr: bool)
    requires SceneWellFormed(scene)
    requires ImportedSince(m1, m0, r1, scene, c1, isPbr) && ImportedSince(m2, m1, r2, scene, c2, isPbr)
    requires CacheExtends(c1, c2)
    ensures ImportedSince(m2, m0, r1 + r2, scene, c2, isPbr)
  {
    assert c2 == c1 + c2[|c1|..];
    ImportedAllStable(m1[|m0|..], r1, scene, c1, c2[|c1|..], isPbr);
    ImportedAllConcat(m1[|m0|..], r1, m2[|m1|..], r2, scene, c2, isPbr);
    assert m2[|m0|..] == m1[|m0|..] + m2[|m1|..];
    assert m2[..|m0|] == m2[..|m1|][..|m0|];
  }

  lemma ImportedSinceOne(ms: seq<Mesh>, mesh: Mesh, ref: nat, scene: AiScene, cache: seq<Texture>, isPbr: bool)
    requires SceneWellFormed(scene) && ref < |scene.meshes|
    requires Imported(mesh, scene.meshes[ref], scene, cache, isPbr)
    ensures ImportedSince(ms + [mesh], ms, [ref], scene, cache, isPbr)
  {
    assert (ms + [mesh])[..|ms|] == ms;
    assert (ms + [mesh])[|ms|..] == [mesh];
  }

  /** One more imported mesh, appended: what an iteration of the mesh loop
      of `processNode` keeps. */
  lemma ImportedSinceSnoc(m0: seq<Mesh>, ms: seq<Mesh>, mesh: Mesh, refs: seq<nat>, i: nat,
                          scene: AiScene, c0: seq<Texture>, c1: seq<Texture>, isPbr: bool)
    requires SceneWellFormed(scene) && i < |refs| && refs[i] < |scene.meshes|
    requires ImportedSince(ms, m0, refs[..i], scene, c0, isPbr) && CacheExtends(c0, c1)
    requires Imported(mesh, scene.meshes[refs[i]], scene, c1, isPbr)
    ensures ImportedSince(ms + [mesh], m0, refs[..i + 1], scene, c1, isPbr)
  {
    ImportedSinceOne(ms, mesh, refs[i], scene, c1, isPbr);
    ImportedSinceTrans(m0, ms, ms + [mesh], refs[..i], [refs[i]], scene, c0, c1, isPbr);
    assert refs[..i + 1] == refs[..i] + [refs[i]];
  }

  lemma ImportedSinceEmpty(ms: seq<Mesh>, scene: AiScene, cache: seq<Texture>, isPbr: bool)
    requires SceneWellFormed(scene)
    ensures ImportedSince(ms, ms, [], scene, cache, isPbr)
  {
    assert ms[|ms|..] == [];
  }

  /** The first `|textures|` slot entries were served from `cache`: each
      is the first cache entry with that file name. */
  ghost predicate Served(textures: seq<Texture>, paths: seq<string>, cache: seq<Texture>) {
    && |textures| <= |paths|
    && (forall k :: 0 <= k < |textures| ==> textures[k].name == paths[k])
    && (forall k :: 0 <= k < |textures| ==>
          IndexOfName(cache, paths[k]) < |cache| && textures[k] == cache[IndexOfName(cache, paths[k])])
  }

  /** The entries `loadMaterialTextures` appended to `c0`: tagged with the
      call's type name, for file names not cached before, with texture id 0
      exactly when the file did not load. */
  ghost predicate NewEntries(c0: seq<Texture>, c: seq<Texture>, typeName: string, directory: string,
                             images: TextureUtils.ImageStore) {
    forall k :: |c0| <= k < |c| ==>
      && c[k].typeName == typeName
      && IndexOfName(c0, c[k].name) == |c0|
      && (c[k].id == 0 <==> directory + "/" + c[k].name !in images)
  }

  /** The trace grew at its end and every upload it gained honours `gamma`. */
  ghost predicate TraceExtends(t0: seq<Event>, t: seq<Event>, gamma: bool) {
    |t0| <= |t| && t[..|t0|] == t0 && UploadsGamma(t[|t0|..], gamma)
  }

  /** A file name that was not cached is served by the entry appended for it. */
  lemma ServedAppendNew(c: seq<Texture>, t: Texture, paths: seq<string>, textures: seq<Texture>)
    requires |textures| < |paths| && t.name == paths[|textures|]
    requires IndexOfName(c, t.name) == |c| && Served(textures, paths, c)
    ensures Served(textures + [t], paths, c + [t])
  {
    var c', t' := c + [t], textures + [t];
    forall k | 0 <= k < |t'|
      ensures t'[k].name == paths[k]
      ensures IndexOfName(c', paths[k]) < |c'| && t'[k] == c'[IndexOfName(c', paths[k])]
    {
      IndexOfNameAppend(c, [t], paths[k]);
      if k < |textures| {
        assert t'[k] == textures[k] && c'[IndexOfName(c, paths[k])] == c[IndexOfName(c, paths[k])];
      }
    }
  }

  /** Appending an entry under a name not yet cached keeps the names distinct. */
  lemma CacheExtendsAppend(c0: seq<Texture>, c: seq<Texture>, t: Texture)
    requires CacheExtends(c0, c) && IndexOfName(c, t.name) == |c|
    ensures CacheExtends(c0, c + [t])
  {
    var c' := c + [t];
    assert c'[..|c0|] == c[..|c0|];
    IndexOfNameFirst(c, t.name);
    if DistinctNames(c0) {
      forall x, y | 0 <= x < y < |c'| ensures c'[x].name != c'[y].name {
        if y < |c| { assert c'[x] == c[x] && c'[y] == c[y]; } else { assert c'[x] == c[x]; }
      }
    }
  }

  lemma NewEntriesAppend(c0: seq<Texture>, c: seq<Texture>, t: Texture, typeName: string, directory: string,
                         images: TextureUtils.ImageStore)
    requires CacheExtends(c0, c) && NewEntries(c0, c, typeName, directory, images)
    requires IndexOfName(c, t.name) == |c| && t.typeName == typeName
    requires (t.id == 0 <==> directory + "/" + t.name !in images)
    ensures NewEntries(c0, c + [t], typeName, directory, images)
  {
    assert c == c0 + c[|c0|..];
    IndexOfNameAppend(c0, c[|c0|..], t.name);
    var c' := c + [t];
    forall k | |c0| <= k < |c'|
      ensures c'[k].typeName == typeName && IndexOfName(c0, c'[k].name) == |c0|
      ensures (c'[k].id == 0 <==> directory + "/" + c'[k].name !in images)
    {
      if k < |c| { assert c'[k] == c[k]; }
    }
  }

  /** One file name already cached: the first cached entry is reused. */
  lemma CachedStep(c: seq<Texture>, paths: seq<string>, textures: seq<Texture>)
    requires |textures| < |paths| && IndexOfName(c, paths[|textures|]) < |c|
    requires Served(textures, paths, c)
    ensures Served(textures + [c[IndexOfName(c, paths[|textures|])]], paths, c)
  {
    var t := textures + [c[IndexOfName(c, paths[|textures|])]];
    forall k | 0 <= k < |t|
      ensures t[k].name == paths[k]
      ensures IndexOfName(c, paths[k]) < |c| && t[k] == c[IndexOfName(c, paths[k])]
    {
      if k < |textures| {
        assert t[k] == textures[k];
      }
    }
  }

  /** What was served from the final cache and was already cached before
      is the entry cached before. */
  lemma ServedFromOld(textures: seq<Texture>, paths: seq<string>, c0: seq<Texture>, c: seq<Texture>)
    requires Served(textures, paths, c) && CacheExtends(c0, c)
    ensures forall k :: 0 <= k < |textures| && IndexOfName(c0, paths[k]) < |c0| ==>
      textures[k] == c0[IndexOfName(c0, paths[k])]
  {
    assert c == c0 + c[|c0|..];
    forall k | 0 <= k < |textures| && IndexOfName(c0, paths[k]) < |c0|
      ensures textures[k] == c0[IndexOfName(c0, paths[k])]
    {
      IndexOfNameAppend(c0, c[|c0|..], paths[k]);
    }
  }

  lemma TraceExtendsTrans(t0: seq<Event>, t1: seq<Event>, t2: seq<Event>, gamma: bool)
    requires TraceExtends(t0, t1, gamma) && TraceExtends(t1, t2, gamma)
    ensures TraceExtends(t0, t2, gamma)
  {
    assert t2[|t0|..] == t1[|t0|..] + t2[|t1|..];
    assert t2[..|t0|] == t2[..|t1|][..|t0|];
    UploadsGammaAppend(t1[|t0|..], t2[|t1|..], gamma);
  }

  /** The calls `Model::loadTexture` makes honour its gamma flag. */
  lemma ModelLoadEventsGamma(image: TextureUtils.Image, gamma: bool, name: nat)
    requires TextureUtils.EvaluateFormats(image.channels, gamma).Some?
    ensures UploadsGamma(ModelLoadEvents(image, gamma, name), gamma)
  {
    var es := ModelLoadEvents(image, gamma, name);
    assert es[1] == TextureUtils.Upload(TEXTURE_2D, image, gamma);
    assert forall k :: 0 <= k < |es| && es[k].TexImage? ==> k == 1;
  }

  /** What serving texture entries leaves behind: the texture cache, the
      whole call trace and the last generated GL name. */
  datatype SlotResult = SlotResult(cache: seq<Texture>, trace: seq<Event>, lastName: nat)

  /** One material slot entry to serve: its file name, the type tag it is
      given and whether it is loaded gamma-corrected. */
  datatype SlotEntry = SlotEntry(name: string, typeName: string, gamma: bool)

  /** The entries of one slot, in order: tagged `typeName`, gamma-corrected
      only in the diffuse slot. */
  function SlotEntries(mat: AiMaterial, slot: TextureSlot, typeName: string): (es: seq<SlotEntry>)
    ensures |es| == |SlotPaths(mat, slot)|
  {
    var paths := SlotPaths(mat, slot);
    seq(|paths|, k requires 0 <= k < |paths| => SlotEntry(paths[k], typeName, slot == DiffuseSlot))
  }

  /** The entries `processMesh` serves: diffuse, then specular, then height
      maps tagged as normal maps. */
  function MaterialEntries(mat: AiMaterial): seq<SlotEntry> {
    SlotEntries(mat, DiffuseSlot, DIFFUSE) + SlotEntries(mat, SpecularSlot, SPECULAR) + SlotEntries(mat, HeightSlot, NORMAL)
  }

  /** Serving one entry: a file name already cached changes nothing; any
      other name is appended to the cache, with a fresh GL name and the
      calls that load it when directory + '/' + name decodes, and with id 0
      and no call otherwise. */
  function ServeStep(r: SlotResult, e: SlotEntry, directory: string, images: TextureUtils.ImageStore): SlotResult
    requires ChannelsSupported(images)
  {
    var path := directory + "/" + e.name;
    if IndexOfName(r.cache, e.name) < |r.cache| then r
    else if path in images then
      SlotResult(r.cache + [Texture(r.lastName + 1, e.typeName, e.name)],
                 r.trace + ModelLoadEvents(images[path], e.gamma, r.lastName + 1), r.lastName + 1)
    else SlotResult(r.cache + [Texture(0, e.typeName, e.name)], r.trace, r.lastName)
  }

  /** The entries served in order, starting from `start`. */
  function Serve(start: SlotResult, entries: seq<SlotEntry>, directory: string,
                 images: TextureUtils.ImageStore): SlotResult
    requires ChannelsSupported(images)
  {
    if entries == [] then start
    else ServeStep(Serve(start, entries[..|entries| - 1], directory, images), entries[|entries| - 1], directory, images)
  }

  /** Serving one more entry of `entries`. */
  lemma ServeSnoc(start: SlotResult, entries: seq<SlotEntry>, i: nat, directory: string,
                  images: TextureUtils.ImageStore)
    requires ChannelsSupported(images) && i < |entries|
    ensures Serve(start, entries[..i + 1], directory, images)
         == ServeStep(Serve(start, entries[..i], directory, images), entries[i], directory, images)
  {
    assert entries[..i + 1][..i] == entries[..i];
  }

  /** Serving `a` then `b` is serving `a + b`. */
  lemma {:induction false} ServeAppend(start: SlotResult, a: seq<SlotEntry>, b: seq<SlotEntry>, directory: string,
                                       images: TextureUtils.ImageStore)
    requires ChannelsSupported(images)
    ensures Serve(Serve(start, a, directory, images), b, directory, images) == Serve(start, a + b, directory, images)
  {
    if b == [] {
      assert a + b == a;
    } else {
      ServeAppend(start, a, b[..|b| - 1], directory, images);
      assert (a + b)[..|a + b| - 1] == a + b[..|b| - 1];
    }
  }

  /** Entries whose file names are all cached load nothing, call nothing
      and append nothing. */
  lemma {:induction false} ServeAllCached(start: SlotResult, entries: seq<SlotEntry>, directory: string,
                                          images: TextureUtils.ImageStore)
    requires ChannelsSupported(images)
    requires forall k :: 0 <= k < |entries| ==> IndexOfName(start.cache, entries[k].name) < |start.cache|
    ensures Serve(start, entries, directory, images) == start
  {
    if entries != [] {
      ServeAllCached(start, entries[..|entries| - 1], directory, images);
    }
  }

  /** Serving only grows the cache, the trace and the name counter, and
      every entry it appends with a nonzero id holds a name generated
      during the serving, each a different one, increasing in cache order. */
  lemma {:induction false} ServeFreshIds(start: SlotResult, entries: seq<SlotEntry>, directory: string,
                                         images: TextureUtils.ImageStore)
    requires ChannelsSupported(images)
    ensures var r := Serve(start, entries, directory, images);
      && start.lastName <= r.lastName
      && |start.cache| <= |r.cache| && r.cache[..|start.cache|] == start.cache
      && |start.trace| <= |r.trace| && r.trace[..|start.trace|] == start.trace
      && (forall k :: |start.cache| <= k < |r.cache| && r.cache[k].id != 0 ==>
            start.lastName < r.cache[k].id <= r.lastName)
      && (forall x, y :: |start.cache| <= x < y < |r.cache| && r.cache[x].id != 0 && r.cache[y].id != 0 ==>
            r.cache[x].id < r.cache[y].id)
  {
    if entries != [] {
      var init := entries[..|entries| - 1];
      ServeFreshIds(start, init, directory, images);
      var p := Serve(start, init, directory, images);
      var r := ServeStep(p, entries[|entries| - 1], directory, images);
      if |r.cache| > |p.cache| {
        assert r.cache[..|p.cache|] == p.cache;
        assert r.cache[..|start.cache|] == p.cache[..|start.cache|];
        assert r.trace[..|start.trace|] == p.trace[..|start.trace|];
        forall k | |start.cache| <= k < |p.cache| ensures r.cache[k] == p.cache[k] { }
      }
    }
  }

  /** Serving the entries of one slot keeps the cache's earlier entries
      and the distinctness of its names, tags what it appends with the
      slot's type (id 0 exactly for the files that do not load), and only
      appends calls, whose uploads honour the slot's gamma flag. */
  lemma {:induction false} ServeKeeps(start: SlotResult, entries: seq<SlotEntry>, typeName: string, gamma: bool,
                                      directory: string, images: TextureUtils.ImageStore)
    requires ChannelsSupported(images)
    requires forall k :: 0 <= k < |entries| ==> entries[k].typeName == typeName && entries[k].gamma == gamma
    ensures var r := Serve(start, entries, directory, images);
      && CacheExtends(start.cache, r.cache)
      && NewEntries(start.cache, r.cache, typeName, directory, images)
      && TraceExtends(start.trace, r.trace, gamma)
  {
    if entries == [] {
      assert start.trace[|start.trace|..] == [];
    } else {
      var init, e := entries[..|entries| - 1], entries[|entries| - 1];
      ServeKeeps(start, init, typeName, gamma, directory, images);
      ServeStepKeeps(start, Serve(start, init, directory, images), e, typeName, gamma, directory, images);
    }
  }

  /** One serving step keeps what `ServeKeeps` states. */
  lemma ServeStepKeeps(start: SlotResult, p: SlotResult, e: SlotEntry, typeName: string, gamma: bool,
                       directory: string, images: TextureUtils.ImageStore)
    requires ChannelsSupported(images) && e.typeName == typeName && e.gamma == gamma
    requires CacheExtends(start.cache, p.cache) && NewEntries(start.cache, p.cache, typeName, directory, images)
    requires TraceExtends(start.trace, p.trace, gamma)
    ensures var r := ServeStep(p, e, directory, images);
      && CacheExtends(start.cache, r.cache)
      && NewEntries(start.cache, r.cache, typeName, directory, images)
      && TraceExtends(start.trace, r.trace, gamma)
  {
    var path := directory + "/" + e.name;
    if IndexOfName(p.cache, e.name) == |p.cache| {
      var t := if path in images then Texture(p.lastName + 1, typeName, e.name) else Texture(0, typeName, e.name);
      CacheExtendsAppend(start.cache, p.cache, t);
      NewEntriesAppend(start.cache, p.cache, t, typeName, directory, images);
      if path in images {
        var loads := ModelLoadEvents(images[path], gamma, p.lastName + 1);
        assert ServeStep(p, e, directory, images) == SlotResult(p.cache + [t], p.trace + loads, p.lastName + 1);
        ModelLoadEventsGamma(images[path], gamma, p.lastName + 1);
        assert (p.trace + loads)[|p.trace|..] == loads;
        TraceExtendsTrans(start.trace, p.trace, p.trace + loads, gamma);
      } else {
        assert ServeStep(p, e, directory, images) == SlotResult(p.cache + [t], p.trace, p.lastName);
      }
    } else {
      assert ServeStep(p, e, directory, images) == p;
    }
  }

  /** One mesh with material `mat` processed from `start`: the material's
      entries are served, then the mesh generates its vertex array and two
      buffers (three names) and records its setup calls. */
  function MeshStep(start: SlotResult, mat: AiMaterial, directory: string, images: TextureUtils.ImageStore): SlotResult
    requires ChannelsSupported(images)
  {
    var r := Serve(start, MaterialEntries(mat), directory, images);
    SlotResult(r.cache, r.trace + SetupEvents(r.lastName + 1), r.lastName + 3)
  }

  /** The scene meshes `refs` processed in order from `start`. A reference
      outside the scene's meshes, which no well-formed node holds, adds
      nothing. */
  function MeshesLoad(start: SlotResult, refs: seq<nat>, scene: AiScene, directory: string,
                      images: TextureUtils.ImageStore): SlotResult
    requires SceneWellFormed(scene) && ChannelsSupported(images)
  {
    if refs == [] then start
    else
      var p := MeshesLoad(start, refs[..|refs| - 1], scene, directory, images);
      var ref := refs[|refs| - 1];
      if ref >= |scene.meshes| then p
      else MeshStep(p, scene.materials[scene.meshes[ref].materialIndex], directory, images)
  }

  /** Processing one more reference of `refs`. */
  lemma MeshesLoadSnoc(start: SlotResult, refs: seq<nat>, i: nat, scene: AiScene, directory: string,
                       images: TextureUtils.ImageStore, before: SlotResult)
    requires SceneWellFormed(scene) && ChannelsSupported(images) && i < |refs| && refs[i] < |scene.meshes|
    requires before == MeshesLoad(start, refs[..i], scene, directory, images)
    ensures MeshesLoad(start, refs[..i + 1], scene, directory, images)
         == MeshStep(before, scene.materials[scene.meshes[refs[i]].materialIndex], directory, images)
  {
    assert refs[..i + 1][..i] == refs[..i];
    assert refs[..i + 1][i] == refs[i];
  }

  /** Processing `a` then `b` is processing `a + b`. */
  lemma {:induction false} MeshesLoadAppend(start: SlotResult, a: seq<nat>, b: seq<nat>, scene: AiScene,
                                            directory: string, images: TextureUtils.ImageStore, mid: SlotResult)
    requires SceneWellFormed(scene) && ChannelsSupported(images)
    requires mid == MeshesLoad(start, a, scene, directory, images)
    ensures MeshesLoad(mid, b, scene, directory, images) == MeshesLoad(start, a + b, scene, directory, images)
  {
    if b == [] {
      assert a + b == a;
    } else {
      var init := b[..|b| - 1];
      MeshesLoadAppend(start, a, init, scene, directory, images, mid);
      assert (a + b)[..|a + b| - 1] == a + init;
      assert (a + b)[|a + b| - 1] == b[|b| - 1];
    }
  }

  /** Position of the first cached texture named `name`, or |cache|: the
      lookup loop of `loadMaterialTextures`. */
  method FindCached(cache: seq<Texture>, name: string) returns (j: nat)
    ensures j == IndexOfName(cache, name)
  {
    j := 0;
    while j < |cache|
      invariant j <= |cache|
      invariant forall q :: 0 <= q < j ==> cache[q].name != name
    {
      if cache[j].name == name {
        IndexOfNameUnique(cache, name, j);
        return;
      }
      j := j + 1;
    }
    IndexOfNameUnique(cache, name, j);
  }

  /** Sum of the index counts of the meshes, what `Draw` reports. */
  function TotalIndices(meshes: seq<Mesh>): nat {
    if meshes == [] then 0 else TotalIndices(meshes[..|meshes| - 1]) + |meshes[|meshes| - 1].indices|
  }

  /** Adding in `unsigned int` wraps the exact sum. */
  lemma WrapAdd(a: nat, b: nat)
    ensures (a % UINT_LIMIT + b % UINT_LIMIT) % UINT_LIMIT == (a + b) % UINT_LIMIT
  {
  }

  function DrawAllEvents(meshes: seq<Mesh>): seq<Event> {
    if meshes == [] then []
    else
      var m := meshes[|meshes| - 1];
      DrawAllEvents(meshes[..|meshes| - 1]) + DrawEvents(m.isPbr, m.textures, m.vao, |m.indices|)
  }

  /** The vertex loop of `processMesh`: one vertex per position, with zero
      normal and tangent and (0, 0) texture coordinates where the mesh
      has none. */
  method ImportVertices(m: AiMesh) returns (vertices: seq<Vertex>)
    requires MeshWellFormed(m, m.materialIndex + 1)
    ensures |vertices| == |m.positions|
    ensures forall k :: 0 <= k < |m.positions| ==> vertices[k] == ImportVertex(m, k)
  {
    vertices := [];
    var i := 0;
    while i < |m.positions|
      invariant 0 <= i <= |m.positions|
      invariant |vertices| == i
      invariant forall k :: 0 <= k < i ==> vertices[k] == ImportVertex(m, k)
    {
      var normal := Vec3(0.0, 0.0, 0.0);
      var tangent := Vec3(0.0, 0.0, 0.0);
      var texCoords: Vec2;
      if m.normals.Some? {
        normal := m.normals.value[i];
      }
      if m.tangents.Some? {
        tangent := m.tangents.value[i];
      }
      if m.texCoords.Some? {
        texCoords := m.texCoords.value[i];
      } else {
        texCoords := Vec2(0.0, 0.0);
      }
      vertices := vertices + [Vertex(m.positions[i], normal, texCoords, tangent)];
      i := i + 1;
    }
  }

  /** The face loop of `processMesh`: every face's indices, face by face. */
  method ImportIndices(m: AiMesh) returns (indices: seq<nat>)
    ensures indices == Flatten(m.faces)
  {
    indices := [];
    var f := 0;
    while f < |m.faces|
      invariant 0 <= f <= |m.faces|
      invariant indices == Flatten(m.faces[..f])
    {
      var face := m.faces[f];
      var j := 0;
      while j < |face|
        invariant 0 <= j <= |face|
        invariant indices == Flatten(m.faces[..f]) + face[..j]
      {
        indices := indices + [face[j]];
        assert face[..j + 1] == face[..j] + [face[j]];
        j := j + 1;
      }
      ghost var g := m.faces[..f + 1];
      assert g[..|g| - 1] == m.faces[..f];
      assert face[..j] == face;
      f := f + 1;
    }
    assert m.faces[..f] == m.faces;
  }

  /** Directory part of a path: everything before the last '/', or the
      whole path when it has no '/'. */
  function DirectoryOf(path: string): (d: string)
    ensures '/' in path ==> |d| < |path| && d == path[..|d|] && path[|d|] == '/'
                            && (forall i :: |d| < i < |path| ==> path[i] != '/')
    ensures '/' !in path ==> d == path
  {
    if path == [] then []
    else if path[|path| - 1] == '/' then path[..|path| - 1]
    else
      var d := DirectoryOf(path[..|path| - 1]);
      assert forall i :: 0 <= i < |path| - 1 ==> path[..|path| - 1][i] == path[i];
      if '/' in path[..|path| - 1] then d else path
  }

  class Model {
    var meshes: seq<Mesh>
    var directory: string
    var texturesLoaded: seq<Texture>
    const isPbr: bool

    /** Builds the model by loading the file at `path`. */
    constructor (path: string, isPbr: bool, imported: Option<AiScene>,
                 images: TextureUtils.ImageStore, gl: Context)
      requires imported.Some? ==> SceneWellFormed(imported.value)
      requires ChannelsSupported(images)
      modifies gl
      ensures this.isPbr == isPbr
      ensures ImportFailed(imported) ==>
        && meshes == [] && directory == [] && texturesLoaded == []
        && gl.trace == old(gl.trace) && gl.lastName == old(gl.lastName)
      ensures !ImportFailed(imported) ==>
        && directory == DirectoryOf(path)
        && ImportedAll(meshes, PreOrder(imported.value.root.value), imported.value, texturesLoaded, isPbr)
        && DistinctNames(texturesLoaded)
        && SlotResult(texturesLoaded, gl.trace, gl.lastName)
           == MeshesLoad(SlotResult([], old(gl.trace), old(gl.lastName)),
                         PreOrder(imported.value.root.value), imported.value, directory, images)
    {
      this.isPbr := isPbr;
      meshes := [];
      directory := [];
      texturesLoaded := [];
      new;
      LoadModel(path, imported, images, gl);
      if !ImportFailed(imported) {
        assert meshes[0..] == meshes;
      }
    }

    /** `loadModel`: on a failed import nothing changes; otherwise the
        directory is taken from the path and the tree is flattened. */
    method LoadModel(path: string, imported: Option<AiScene>, images: TextureUtils.ImageStore, gl: Context)
      requires imported.Some? ==> SceneWellFormed(imported.value)
      requires ChannelsSupported(images)
      modifies this, gl
      ensures ImportFailed(imported) ==>
        && meshes == old(meshes) && directory == old(directory)
        && texturesLoaded == old(texturesLoaded) && gl.trace == old(gl.trace) && gl.lastName == old(gl.lastName)
      ensures !ImportFailed(imported) ==>
        && directory == DirectoryOf(path)
        && ImportedSince(meshes, old(meshes), PreOrder(imported.value.root.value), imported.value, texturesLoaded, isPbr)
        && CacheExtends(old(texturesLoaded), texturesLoaded)
        && SlotResult(texturesLoaded, gl.trace, gl.lastName)
           == MeshesLoad(SlotResult(old(texturesLoaded), old(gl.trace), old(gl.lastName)),
                         PreOrder(imported.value.root.value), imported.value, directory, images)
    {
      if imported.None? || imported.value.incomplete || imported.value.root.None? {
        return;
      }
      directory := DirectoryOf(path);
      ProcessNode(imported.value.root.value, imported.value, images, gl);
    }

    /** The first loop of `processNode`: the node's own meshes, in order. */
    method ProcessNodeMeshes(node: AiNode, scene: AiScene, images: TextureUtils.ImageStore, gl: Context)
      requires SceneWellFormed(scene) && NodeWellFormed(node, |scene.meshes|)
      requires ChannelsSupported(images)
      modifies this, gl
      ensures directory == old(directory)
      ensures ImportedSince(meshes, old(meshes), node.meshes, scene, texturesLoaded, isPbr)
      ensures CacheExtends(old(texturesLoaded), texturesLoaded)
      ensures SlotResult(texturesLoaded, gl.trace, gl.lastName)
           == MeshesLoad(SlotResult(old(texturesLoaded), old(gl.trace), old(gl.lastName)), node.meshes, scene, directory, images)
    {
      ghost var m0, c0 := meshes, texturesLoaded;
      ghost var start := SlotResult(texturesLoaded, gl.trace, gl.lastName);
      ImportedSinceEmpty(m0, scene, c0, isPbr);
      var i := 0;
      while i < |node.meshes|
        invariant 0 <= i <= |node.meshes|
        invariant directory == old(directory)
        invariant ImportedSince(meshes, m0, node.meshes[..i], scene, texturesLoaded, isPbr)
        invariant CacheExtends(c0, texturesLoaded)
        invariant SlotResult(texturesLoaded, gl.trace, gl.lastName)
               == MeshesLoad(start, node.meshes[..i], scene, directory, images)
      {
        PushMesh(node.meshes, i, scene, images, gl, m0, c0, start);
        i := i + 1;
      }
      assert node.meshes[..i] == node.meshes;
    }

    /** One iteration of `processNode`'s mesh loop: processes scene mesh
        `refs[i]` and pushes the result, extending the import by it. */
    method PushMesh(refs: seq<nat>, i: nat, scene: AiScene, images: TextureUtils.ImageStore, gl: Context,
                    ghost m0: seq<Mesh>, ghost c0: seq<Texture>, ghost start: SlotResult)
      requires SceneWellFormed(scene) && ChannelsSupported(images) && i < |refs| && refs[i] < |scene.meshes|
      requires ImportedSince(meshes, m0, refs[..i], scene, texturesLoaded, isPbr)
      requires CacheExtends(c0, texturesLoaded)
      requires SlotResult(texturesLoaded, gl.trace, gl.lastName) == MeshesLoad(start, refs[..i], scene, directory, images)
      modifies this, gl
      ensures directory == old(directory)
      ensures ImportedSince(meshes, m0, refs[..i + 1], scene, texturesLoaded, isPbr)
      ensures CacheExtends(c0, texturesLoaded)
      ensures SlotResult(texturesLoaded, gl.trace, gl.lastName) == MeshesLoad(start, refs[..i + 1], scene, directory, images)
    {
      ghost var mBefore, cBefore := meshes, texturesLoaded;
      MeshesLoadSnoc(start, refs, i, scene, directory, images, SlotResult(texturesLoaded, gl.trace, gl.lastName));
      var mesh := ProcessMesh(scene.meshes[refs[i]], scene, images, gl);
      meshes := meshes + [mesh];
      ImportedSinceSnoc(m0, mBefore, mesh, refs, i, scene, cBefore, texturesLoaded, isPbr);
      CacheExtendsTrans(c0, cBefore, texturesLoaded);
    }

    /** `processNode`: appends the meshes of the subtree in pre-order. */
    method ProcessNode(node: AiNode, scene: AiScene, images: TextureUtils.ImageStore, gl: Context)
      requires SceneWellFormed(scene) && NodeWellFormed(node, |scene.meshes|)
      requires ChannelsSupported(images)
      modifies this, gl
      decreases node, 1
      ensures directory == old(directory)
      ensures ImportedSince(meshes, old(meshes), PreOrder(node), scene, texturesLoaded, isPbr)
      ensures CacheExtends(old(texturesLoaded), texturesLoaded)
      ensures SlotResult(texturesLoaded, gl.trace, gl.lastName)
           == MeshesLoad(SlotResult(old(texturesLoaded), old(gl.trace), old(gl.lastName)), PreOrder(node), scene, directory, images)
    {
      ghost var m0, c0 := meshes, texturesLoaded;
      ghost var start := SlotResult(texturesLoaded, gl.trace, gl.lastName);
      ProcessNodeMeshes(node, scene, images, gl);
      ghost var m1, c1 := meshes, texturesLoaded;
      ghost var mid := SlotResult(texturesLoaded, gl.trace, gl.lastName);
      ProcessChildren(node, scene, images, gl);
      ImportedSinceTrans(m0, m1, meshes, node.meshes, PreOrderAll(node.children), scene, c1, texturesLoaded, isPbr);
      CacheExtendsTrans(c0, c1, texturesLoaded);
      MeshesLoadAppend(start, node.meshes, PreOrderAll(node.children), scene, directory, images, mid);
    }

    /** The second loop of `processNode`: each child's subtree, left to right. */
    method ProcessChildren(node: AiNode, scene: AiScene, images: TextureUtils.ImageStore, gl: Context)
      requires SceneWellFormed(scene) && NodeWellFormed(node, |scene.meshes|)
      requires ChannelsSupported(images)
      modifies this, gl
      decreases node, 0
      ensures directory == old(directory)
      ensures ImportedSince(meshes, old(meshes), PreOrderAll(node.children), scene, texturesLoaded, isPbr)
      ensures CacheExtends(old(texturesLoaded), texturesLoaded)
      ensures SlotResult(texturesLoaded, gl.trace, gl.lastName)
           == MeshesLoad(SlotResult(old(texturesLoaded), old(gl.trace), old(gl.lastName)), PreOrderAll(node.children),
                         scene, directory, images)
    {
      ghost var m0, c0 := meshes, texturesLoaded;
      ghost var start := SlotResult(texturesLoaded, gl.trace, gl.lastName);
      ImportedSinceEmpty(m0, scene, c0, isPbr);
      assert PreOrderAll(node.children[..0]) == [];
      var c := 0;
      while c < |node.children|
        invariant 0 <= c <= |node.children|
        invariant directory == old(directory)
        invariant ImportedSince(meshes, m0, PreOrderAll(node.children[..c]), scene, texturesLoaded, isPbr)
        invariant CacheExtends(c0, texturesLoaded)
        invariant SlotResult(texturesLoaded, gl.trace, gl.lastName)
               == MeshesLoad(start, PreOrderAll(node.children[..c]), scene, directory, images)
      {
        ghost var mBefore, cBefore := meshes, texturesLoaded;
        ghost var prefix, before := PreOrderAll(node.children[..c]), SlotResult(texturesLoaded, gl.trace, gl.lastName);
        ProcessNode(node.children[c], scene, images, gl);
        ImportedSinceTrans(m0, mBefore, meshes, prefix, PreOrder(node.children[c]), scene, cBefore, texturesLoaded, isPbr);
        CacheExtendsTrans(c0, cBefore, texturesLoaded);
        MeshesLoadAppend(start, prefix, PreOrder(node.children[c]), scene, directory, images, before);
        PreOrderAllStep(node.children, c);
        c := c + 1;
      }
      assert node.children[..c] == node.children;
    }

    /** `processMesh`: one vertex per position, the faces' indices in face
        order, and the diffuse, specular and height textures of the
        mesh's material. */
    method ProcessMesh(m: AiMesh, scene: AiScene, images: TextureUtils.ImageStore, gl: Context)
      returns (mesh: Mesh)
      requires SceneWellFormed(scene) && m in scene.meshes
      requires ChannelsSupported(images)
      modifies this, gl
      ensures fresh(mesh)
      ensures meshes == old(meshes) && directory == old(directory)
      ensures Imported(mesh, m, scene, texturesLoaded, isPbr)
      ensures CacheExtends(old(texturesLoaded), texturesLoaded)
      ensures SlotResult(texturesLoaded, gl.trace, gl.lastName)
           == MeshStep(SlotResult(old(texturesLoaded), old(gl.trace), old(gl.lastName)),
                       scene.materials[m.materialIndex], directory, images)
      ensures mesh.vao == gl.lastName - 2
    {
      var vertices := ImportVertices(m);
      var indices := ImportIndices(m);

      var material := scene.materials[m.materialIndex];
      ghost var start := SlotResult(texturesLoaded, gl.trace, gl.lastName);
      var textures := LoadMeshTextures(material, images, gl);
      ghost var served := SlotResult(texturesLoaded, gl.trace, gl.lastName);
      mesh := new Mesh(vertices, indices, textures, isPbr, gl);
      assert SlotResult(texturesLoaded, gl.trace, gl.lastName)
          == SlotResult(served.cache, served.trace + SetupEvents(served.lastName + 1), served.lastName + 3);
    }

    /** The texture half of `processMesh`: the diffuse, specular and height
        maps of `material`, loaded in that order, as one list. */
    method LoadMeshTextures(material: AiMaterial, images: TextureUtils.ImageStore, gl: Context)
      returns (textures: seq<Texture>)
      requires ChannelsSupported(images)
      modifies this, gl
      ensures meshes == old(meshes) && directory == old(directory)
      ensures |textures| == |MeshTexturePaths(material)| && Served(textures, MeshTexturePaths(material), texturesLoaded)
      ensures CacheExtends(old(texturesLoaded), texturesLoaded)
      ensures SlotResult(texturesLoaded, gl.trace, gl.lastName)
           == Serve(SlotResult(old(texturesLoaded), old(gl.trace), old(gl.lastName)), MaterialEntries(material), directory, images)
    {
      ghost var c0 := texturesLoaded;
      ghost var s0 := SlotResult(texturesLoaded, gl.trace, gl.lastName);
      var diffuseMaps := LoadMaterialTextures(material, DiffuseSlot, DIFFUSE, images, gl);
      ghost var c1 := texturesLoaded;
      var specularMaps := LoadMaterialTextures(material, SpecularSlot, SPECULAR, images, gl);
      ghost var c2 := texturesLoaded;
      var normalMaps := LoadMaterialTextures(material, HeightSlot, NORMAL, images, gl);
      textures := diffuseMaps + specularMaps + normalMaps;
      CacheExtendsTrans(c0, c1, c2);
      CacheExtendsTrans(c0, c2, texturesLoaded);
      ghost var d, sp := SlotEntries(material, DiffuseSlot, DIFFUSE), SlotEntries(material, SpecularSlot, SPECULAR);
      ServeAppend(s0, d, sp, directory, images);
      ServeAppend(s0, d + sp, SlotEntries(material, HeightSlot, NORMAL), directory, images);
      ServedConcat(diffuseMaps, material.diffuse, c1, specularMaps, material.specular, c2,
                   normalMaps, material.height, texturesLoaded);
    }

    /** `loadMaterialTextures`: one texture per slot entry, in slot order.
        A file name already in the cache yields the first cached entry and
        loads nothing; any other is loaded (gamma-corrected only for the
        diffuse slot), tagged with `typeName` and appended to the cache,
        whether or not the file loaded. */
    method LoadMaterialTextures(mat: AiMaterial, slot: TextureSlot, typeName: string,
                                images: TextureUtils.ImageStore, gl: Context)
      returns (textures: seq<Texture>)
      requires ChannelsSupported(images)
      modifies this, gl
      ensures meshes == old(meshes) && directory == old(directory)
      ensures |textures| == |SlotPaths(mat, slot)| && Served(textures, SlotPaths(mat, slot), texturesLoaded)
      ensures forall k :: 0 <= k < |textures| && IndexOfName(old(texturesLoaded), textures[k].name) < |old(texturesLoaded)| ==>
        textures[k] == old(texturesLoaded)[IndexOfName(old(texturesLoaded), textures[k].name)]
      ensures CacheExtends(old(texturesLoaded), texturesLoaded)
      ensures NewEntries(old(texturesLoaded), texturesLoaded, typeName, directory, images)
      ensures TraceExtends(old(gl.trace), gl.trace, slot == DiffuseSlot)
      ensures SlotResult(texturesLoaded, gl.trace, gl.lastName)
           == Serve(SlotResult(old(texturesLoaded), old(gl.trace), old(gl.lastName)),
                    SlotEntries(mat, slot, typeName), directory, images)
    {
      var paths := SlotPaths(mat, slot);
      ghost var entries := SlotEntries(mat, slot, typeName);
      ghost var start := SlotResult(texturesLoaded, gl.trace, gl.lastName);
      textures := [];
      var i := 0;
      while i < |paths|
        invariant 0 <= i <= |paths| && |textures| == i
        invariant meshes == old(meshes) && directory == old(directory)
        invariant Served(textures, paths, texturesLoaded)
        invariant SlotResult(texturesLoaded, gl.trace, gl.lastName) == Serve(start, entries[..i], directory, images)
      {
        ServeSnoc(start, entries, i, directory, images);
        var texture := ServeNext(paths, textures, typeName, slot == DiffuseSlot, images, gl);
        textures := textures + [texture];
        i := i + 1;
      }
      assert entries[..i] == entries;
      ServeKeeps(start, entries, typeName, slot == DiffuseSlot, directory, images);
      ServedFromOld(textures, paths, start.cache, texturesLoaded);
    }

    /** One iteration of `loadMaterialTextures`' loop: serves slot entry
        `|textures|` from the cache, loading it first when it is not cached. */
    method ServeNext(paths: seq<string>, textures: seq<Texture>, typeName: string, gamma: bool,
                     images: TextureUtils.ImageStore, gl: Context)
      returns (texture: Texture)
      requires ChannelsSupported(images) && |textures| < |paths| && Served(textures, paths, texturesLoaded)
      modifies this, gl
      ensures meshes == old(meshes) && directory == old(directory)
      ensures Served(textures + [texture], paths, texturesLoaded)
      ensures SlotResult(texturesLoaded, gl.trace, gl.lastName)
           == ServeStep(SlotResult(old(texturesLoaded), old(gl.trace), old(gl.lastName)),
                        SlotEntry(paths[|textures|], typeName, gamma), directory, images)
    {
      var name := paths[|textures|];
      var j := FindCached(texturesLoaded, name);
      if j < |texturesLoaded| {
        CachedStep(texturesLoaded, paths, textures);
        texture := texturesLoaded[j];
      } else {
        ghost var cBefore := texturesLoaded;
        texture := LoadNewTexture(name, typeName, gamma, images, gl);
        ServedAppendNew(cBefore, texture, paths, textures);
      }
    }

    /** The uncached branch of `loadMaterialTextures`' loop: loads the file
        and appends its texture, tagged with `typeName`, to the cache. */
    method LoadNewTexture(name: string, typeName: string, gamma: bool, images: TextureUtils.ImageStore, gl: Context)
      returns (texture: Texture)
      requires ChannelsSupported(images) && IndexOfName(texturesLoaded, name) == |texturesLoaded|
      modifies this, gl
      ensures meshes == old(meshes) && directory == old(directory)
      ensures texture.name == name && texture.typeName == typeName
      ensures texture.id == 0 <==> directory + "/" + name !in images
      ensures texturesLoaded == old(texturesLoaded) + [texture]
      ensures SlotResult(texturesLoaded, gl.trace, gl.lastName)
           == ServeStep(SlotResult(old(texturesLoaded), old(gl.trace), old(gl.lastName)),
                        SlotEntry(name, typeName, gamma), directory, images)
    {
      var id := LoadTexture(name, directory, gamma, images, gl);
      texture := Texture(id, typeName, name);
      texturesLoaded := texturesLoaded + [texture];
    }

    /** `Draw`: draws every mesh in order and reports the total number of
        indices drawn. */
    method Draw(gl: Context) returns (count: nat)
      modifies gl
      ensures count < UINT_LIMIT && count == TotalIndices(meshes) % UINT_LIMIT
      ensures gl.lastName == old(gl.lastName)
      ensures gl.trace == old(gl.trace) + DrawAllEvents(meshes)
    {
      count := 0;
      var i := 0;
      while i < |meshes|
        invariant 0 <= i <= |meshes|
        invariant count == TotalIndices(meshes[..i]) % UINT_LIMIT
        invariant gl.lastName == old(gl.lastName)
        invariant gl.trace == old(gl.trace) + DrawAllEvents(meshes[..i])
      {
        ghost var prefix := meshes[..i + 1];
        assert prefix[..|prefix| - 1] == meshes[..i];
        var n := meshes[i].Draw(gl);
        WrapAdd(TotalIndices(meshes[..i]), |meshes[i].indices|);
        count := (count + n) % UINT_LIMIT;
        i := i + 1;
      }
      assert meshes[..i] == meshes;
    }
  }

  /** The three slot lists served one after another make up the mesh's
      texture list against the final cache. */
  lemma ServedConcat(a: seq<Texture>, pa: seq<string>, ca: seq<Texture>,
                     b: seq<Texture>, pb: seq<string>, cb: seq<Texture>,
                     c: seq<Texture>, pc: seq<string>, cc: seq<Texture>)
    requires |a| == |pa| && Served(a, pa, ca)
    requires |b| == |pb| && Served(b, pb, cb)
    requires |c| == |pc| && Served(c, pc, cc)
    requires CacheExtends(ca, cb) && CacheExtends(cb, cc)
    ensures |a + b + c| == |pa + pb + pc| && Served(a + b + c, pa + pb + pc, cc)
  {
    assert cc == cb + cc[|cb|..];
    assert cb == ca + cb[|ca|..];
    var t, p := a + b + c, pa + pb + pc;
    forall k | 0 <= k < |t|
      ensures t[k].name == p[k]
      ensures IndexOfName(cc, p[k]) < |cc| && t[k] == cc[IndexOfName(cc, p[k])]
    {
      if k < |a| {
        assert t[k] == a[k] && p[k] == pa[k];
        IndexOfNameAppend(ca, cb[|ca|..], pa[k]);
        IndexOfNameAppend(cb, cc[|cb|..], pa[k]);
      } else if k < |a| + |b| {
        assert t[k] == b[k - |a|] && p[k] == pb[k - |a|];
        IndexOfNameAppend(cb, cc[|cb|..], pb[k - |a|]);
      } else {
        assert t[k] == c[k - |a| - |b|] && p[k] == pc[k - |a| - |b|];
      }
    }
  }
}
