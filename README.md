# LuminaEngine core, modelled in Dafny

LuminaEngine is a small OpenGL renderer. It imports a model file into a
list of meshes, draws each mesh with its textures bound to numbered
texture units, draws a sphere at every point light, and runs a bloom pass
over a chain of ever smaller textures. GLFW callbacks drive the camera,
and an ImGui window switches reflections and refractions.

This project models the bookkeeping of that core and proves what it
promises:

- **The GL context** (`Gl`). A class holding a name counter and a trace.
  The counter stands in for `glGen*`, so names are positive and never
  reused. The trace records every call that changes what is drawn.
  `Replay` gives the trace a meaning: for every draw call it says which
  texture is bound on unit 0, which texture is attached to the bound
  framebuffer, the viewport, and whether blending is on.
- **Texture loading** (`TextureUtils`). `evaluateFormats` chooses formats
  from the channel count. The three loaders and their early exits follow
  it. Image decoding is replaced by an `ImageStore`, a map from the paths
  that decode to their size and channel count.
- **Meshes** (`Meshes`). `Mesh::Draw` gives texture i texture unit i and
  names its sampler uniform from per-type counters. The model proves that
  the counters give the k-th texture of a numbered type the number k, so
  two textures of one type never share a uniform. It also proves that
  after the draw, unit i holds texture i.
- **Models** (`Models`). The importer's scene tree is a value.
  `processNode` flattens it in pre-order. `processMesh` copies vertices,
  flattens faces and collects the material's textures. The texture cache
  loads every file name at most once and serves the first cached entry
  afterwards. The model proves that every mesh of the model is built
  from the scene mesh at its pre-order position, and that cached names
  stay distinct.
- **The light preview** (`LightPreviews`). A 17 x 17 grid of sphere
  points, a serpentine triangle strip over it and an interleaved vertex
  buffer.
- **Bloom** (`BloomFbo`, `BloomRenderers`). `BloomFBO::init` builds a
  chain of mips whose sides are the window's sides halved by integer
  division once per level. `destroy` deletes the textures. It zeroes
  their handles but keeps the entries, so a later `init` appends a
  second chain and attaches the zeroed handle 0
  (`ReinitAttachesZeroedTexture`). For `renderBloomTexture`, the model
  proves which texture each draw reads and which texture and size it
  writes. The last draw writes mip 0, the texture that `bloomTexture`
  returns.
- **Input and UI state** (`Input`). The mouse-button, cursor and scroll
  callbacks, the hold detection at the top of every frame, the
  reflection/refraction combo, the point-light uniform names of
  `setLightParameters`, and the triangle count.

## Model

| member | source | states |
|---|---|---|
| Decimal.NatToString | LuminaEngine/Mesh.cpp:71 | the decimal text of a counter is non-empty, all digits, has no leading zero, and is one character exactly for values below ten |
| Decimal.DecimalRoundTrip | LuminaEngine/main.cpp:290 | reading the decimal text of n back as a number gives n |
| Decimal.NatToStringInjective | LuminaEngine/main.cpp:290-295 | two numbers have the same decimal text if and only if they are equal |
| Gl.Context.GenName | LuminaEngine/Mesh.cpp:16-18 | each generated name is one above the last, so names are positive and never handed out twice; nothing is traced |
| Gl.BoundDrawReplay | LuminaEngine/Mesh.cpp:117-119 | a draw bracketed by binding and unbinding a vertex array records exactly one draw of the call's count, sees the current texture, target, viewport and blending, and leaves no vertex array bound |
| TextureUtils.EvaluateFormats | LuminaEngine/TextureUtils.cpp:114-136 | formats exist exactly for 1, 3 and 4 channels; the data format has as many components as the image has channels; the internal format has the same layout and is sRGB exactly when gamma correction is asked for and the image has colour channels |
| TextureUtils.EvaluateFormatsStatus | LuminaEngine/TextureUtils.cpp:114-136 | the status is 0 or -1, and it is 0 exactly when both formats were set |
| TextureUtils.FormatsDetermineChannels | LuminaEngine/TextureUtils.cpp:114-136 | two channel counts that get the same data format are equal |
| TextureUtils.LoadTexture | LuminaEngine/TextureUtils.cpp:8-43 | a name is spent and bound whether or not the load succeeds; the result is that name when the file decodes with a supported channel count and 0 otherwise; only a successful load uploads the image with the chosen formats and builds mipmaps |
| TextureUtils.FirstBadFace | LuminaEngine/TextureUtils.cpp:52-75 | every face before the returned index loads with a supported channel count, and the face at the index does not |
| TextureUtils.FaceUploads | LuminaEngine/TextureUtils.cpp:64-66 | there is one upload per face, and face i goes to the cube-map target POSITIVE_X + i |
| TextureUtils.FaceUploadsSnoc | LuminaEngine/TextureUtils.cpp:52-75 | one more loop iteration appends exactly the next face's upload |
| TextureUtils.LoadCubemapTexture | LuminaEngine/TextureUtils.cpp:45-85 | faces are uploaded in array order up to the first bad face, and no later face is read; the name is returned and the cube map unbound only when all six faces load, otherwise the result is 0 |
| TextureUtils.LoadHdrImage | LuminaEngine/TextureUtils.cpp:87-112 | a name is always spent; when the file decodes, it gets a 16-bit float RGB upload whatever its channel count and is unbound; otherwise the result is 0 |
| Meshes.TypeTagsDistinct | LuminaEngine/Mesh.cpp:69-104 | the seven texture type tags are pairwise different, so at most one counter branch applies to a texture |
| Meshes.CountTypeStep | LuminaEngine/Mesh.cpp:60-111 | counting one more texture raises the count of its own type by one and leaves every other type's count alone |
| Meshes.TextureBindingsSnoc | LuminaEngine/Mesh.cpp:60-111 | one iteration of the texture loop appends exactly texture i's three calls |
| Meshes.DrawEventsSplit | LuminaEngine/Mesh.cpp:58-119 | the draw's calls are the shading flag, the loop's bindings, then the closing draw |
| Meshes.CountTypeMonotone | LuminaEngine/Mesh.cpp:60-111 | a type's count never decreases along the texture list |
| Meshes.SamplerNamesDistinct | LuminaEngine/Mesh.cpp:69-109 | two different textures of one numbered type never get the same sampler uniform |
| Meshes.BindingReplay | LuminaEngine/Mesh.cpp:63-110 | one texture's calls leave unit i active with the texture bound there, and the sampler uniform holds i |
| Meshes.BoundAfterAt | LuminaEngine/Mesh.cpp:60-111 | after textures 0 .. n-1 are bound, unit u < n holds texture u and every other unit keeps its binding |
| Meshes.BindingsReplay | LuminaEngine/Mesh.cpp:60-111 | replaying the loop's bindings leaves unit n-1 active and texture i on unit i, and draws nothing |
| Meshes.MeshDrawReplay | LuminaEngine/Mesh.cpp:47-122 | after a mesh is drawn, unit 0 is active, no vertex array is bound, texture i sits on unit i, and exactly one more draw of `count` indices was issued, with earlier draws unchanged |
| Meshes.DrawTailReplay | LuminaEngine/Mesh.cpp:114-119 | the closing calls make unit 0 active again, issue one indexed draw that reads unit 0, unbind the vertex array and keep every texture binding |
| Meshes.CountersAfterStep | LuminaEngine/Mesh.cpp:69-104 | texture i advances the counter of its type exactly when the shading mode numbers that type, and no other counter |
| Meshes.NameSampler | LuminaEngine/Mesh.cpp:65-107 | the uniform name is the mode's struct prefix, the type and, for a numbered type, the texture's rank among the textures of that type; the counters afterwards are the counts after texture i |
| Meshes.Mesh.constructor | LuminaEngine/Mesh.cpp:5-45 | the lists and the flag are stored as given; three fresh names are generated, the first being the vertex array, which is bound and then unbound |
| Meshes.Mesh.BindTextureUnit | LuminaEngine/Mesh.cpp:63-110 | one loop iteration activates unit i, sets the texture's sampler uniform to i and binds the texture, and advances the counters to the counts after texture i |
| Meshes.Mesh.Draw | LuminaEngine/Mesh.cpp:47-122 | returns the index count as the `unsigned int` it is converted to, so below 2^32 and equal to the count modulo 2^32; the calls are the shading flag, every texture bound to its unit under its sampler name, and one indexed draw of every index (see MeshDrawReplay for what the draw sees) |
| Models.PreOrderInRange | LuminaEngine/Model.cpp:44-56 | every mesh index the traversal yields names a mesh of the scene |
| Models.PreOrderAllInRange | LuminaEngine/Model.cpp:52-55 | the same holds for the subtrees of a list of children |
| Models.PreOrderAllStep | LuminaEngine/Model.cpp:52-55 | the traversal after c + 1 children is the traversal after c children followed by child c's subtree |
| Models.FlattenPrefix | LuminaEngine/Model.cpp:112-119 | flattening the first faces gives a prefix of the whole flattened list |
| Models.FlattenAt | LuminaEngine/Model.cpp:112-119 | index j of face f sits at the face's offset plus j in the flattened list, so no index is lost, duplicated or reordered |
| Models.IndexOfName | LuminaEngine/Model.cpp:149-158 | the cache scan returns a position holding the file name, or the cache length when there is none |
| Models.IndexFrom | LuminaEngine/Model.cpp:149-158 | the scan from position i returns a position at or after i that holds the name, or the cache length |
| Models.IndexFromFirst | LuminaEngine/Model.cpp:149-158 | no entry between the start and the position found holds the name |
| Models.IndexOfNameFirst | LuminaEngine/Model.cpp:149-158 | the entry found is the first one with the name |
| Models.IndexOfNameUnique | LuminaEngine/Model.cpp:149-158 | a position that holds the name with no earlier match is the one the scan returns |
| Models.IndexOfNameAppend | LuminaEngine/Model.cpp:164-169 | appending to the cache never changes the entry found for a name already cached; an uncached name is found in the appended part at its offset there |
| Models.CacheExtendsTrans | LuminaEngine/Model.cpp:164-169 | the cache growing only at its end with distinct names is transitive |
| Models.UploadsGammaAppend | LuminaEngine/Model.cpp:163-165 | two call sequences whose uploads honour the gamma flag concatenate to one that does |
| Models.LoadTexture | LuminaEngine/Model.cpp:174-220 | a name is generated only when directory/fileName decodes: then the image is uploaded with its formats and mipmapped, and that name is returned; otherwise the result is 0 and no call is made |
| Models.ImportedAllStable | LuminaEngine/Model.cpp:164-169 | meshes built against the cache stay correct when the cache grows at its end |
| Models.ImportedAllConcat | LuminaEngine/Model.cpp:44-56 | two runs of imported meshes concatenate to a run imported from the concatenated references |
| Models.ImportedSinceTrans | LuminaEngine/Model.cpp:52-55 | two successive import steps compose, with the first step's meshes valid against the second step's larger cache |
| Models.ImportedSinceOne | LuminaEngine/Model.cpp:49 | pushing one imported mesh is an import step of one reference |
| Models.ImportedSinceSnoc | LuminaEngine/Model.cpp:46-50 | one iteration of the node's mesh loop extends the import by that mesh |
| Models.ImportedSinceEmpty | LuminaEngine/Model.cpp:46-50 | before the loop nothing has been imported |
| Models.ServedAppendNew | LuminaEngine/Model.cpp:161-169 | a file name that was not cached is served by the entry appended for it |
| Models.CacheExtendsAppend | LuminaEngine/Model.cpp:164-169 | appending an entry under a name not yet cached keeps the cached names distinct |
| Models.NewEntriesAppend | LuminaEngine/Model.cpp:161-169 | every entry a call appends carries the call's type name, a name not cached before, and id 0 exactly when the file did not load |
| Models.CachedStep | LuminaEngine/Model.cpp:149-158 | a name already cached is served by its first cached entry |
| Models.ServedFromOld | LuminaEngine/Model.cpp:149-158 | a texture whose name was cached before the call is the entry cached before |
| Models.TraceExtendsTrans | LuminaEngine/Model.cpp:161-169 | a trace that grows at its end, with uploads honouring the gamma flag, composes |
| Models.ModelLoadEventsGamma | LuminaEngine/Model.cpp:185-204 | the upload `Model::loadTexture` makes is sRGB exactly when gamma correction is on and the image has colour channels |
| Models.ServeSnoc | LuminaEngine/Model.cpp:144-170 | serving one more entry applies exactly that entry's step to the state reached so far |
| Models.ServeAppend | LuminaEngine/Model.cpp:125-135 | serving one list of entries then another is serving their concatenation, so the three slots compose |
| Models.ServeAllCached | LuminaEngine/Model.cpp:149-158 | entries whose names are all cached leave the cache, the calls and the name counter unchanged |
| Models.ServeFreshIds | LuminaEngine/Model.cpp:160-169 | serving only extends the cache and the calls and never lowers the name counter; every appended entry with a nonzero id holds a name generated during the serving, and those ids strictly increase in cache order, so no two are equal |
| Models.ServeKeeps | LuminaEngine/Model.cpp:141-172 | serving one slot keeps the cached entries and the distinctness of cached names, tags appended entries with the slot's type and id 0 exactly for files that do not decode, and only appends calls whose uploads honour the slot's gamma flag |
| Models.ServeStepKeeps | LuminaEngine/Model.cpp:149-169 | serving one entry of a slot keeps the cached entries and their distinct names, tags an appended entry with the slot's type and id 0 exactly when its file does not decode, and adds only calls whose upload honours the slot's gamma flag |
| Models.MeshesLoadSnoc | LuminaEngine/Model.cpp:46-50 | processing one more mesh reference applies that mesh's step (serving its material, then three names and its setup calls) to the state reached so far |
| Models.MeshesLoadAppend | LuminaEngine/Model.cpp:44-56 | processing one list of mesh references then another is processing their concatenation, so a node's own meshes and its children's subtrees compose |
| Models.FindCached | LuminaEngine/Model.cpp:149-158 | the lookup loop returns the first cache position with the file name, or the cache length |
| Models.ImportVertices | LuminaEngine/Model.cpp:64-109 | one vertex per position, carrying the mesh's normal, texture coordinates and tangent when present and zero values, with texture coordinates (0, 0), when not |
| Models.ImportIndices | LuminaEngine/Model.cpp:112-119 | the index list is the faces' indices concatenated in face order |
| Models.DirectoryOf | LuminaEngine/Model.cpp:40 | with a '/' in the path, the result is the prefix before the last '/' and no '/' follows that position; with none, it is the whole path |
| Models.Model.constructor | LuminaEngine/Model.cpp:10-19 | a failed import leaves the model empty and the GL context untouched; otherwise the directory is the path's directory, mesh k is built from the k-th scene mesh in pre-order, the cached names are distinct, and the cache, the GL calls and the names spent are exactly those of processing the pre-order meshes from an empty cache (`MeshesLoad`) |
| Models.Model.LoadModel | LuminaEngine/Model.cpp:29-42 | a missing, incomplete or rootless scene changes nothing, in the model or the GL context; otherwise the directory is set, the meshes of the tree are appended in pre-order, the cache only grows, and the cache, the calls and the names spent are exactly those of processing the pre-order meshes |
| Models.Model.ProcessNodeMeshes | LuminaEngine/Model.cpp:46-50 | the node's own meshes are appended in order, each built from its scene mesh, and the cache, the calls and the names spent are those of processing the node's mesh references in order |
| Models.Model.PushMesh | LuminaEngine/Model.cpp:48-49 | one iteration of the node's mesh loop processes the referenced scene mesh and pushes it, extending the import, the cache and the calls by exactly that mesh's step |
| Models.Model.ProcessNode | LuminaEngine/Model.cpp:44-56 | the meshes of the subtree are appended in pre-order, the cache only grows with distinct names, and the cache, the calls and the names spent are those of processing the subtree's references in pre-order |
| Models.Model.ProcessChildren | LuminaEngine/Model.cpp:52-55 | the subtrees of the children are processed left to right: their meshes appended in pre-order, and the cache, the calls and the names spent those of processing their references in that order |
| Models.Model.ProcessMesh | LuminaEngine/Model.cpp:58-139 | the new mesh has one vertex per position, the faces' indices in order, the model's shading mode, and the diffuse, specular and height textures in slot order, each the first cache entry with its file name; the cache, the calls and the names spent are those of serving the material's entries, then three names and the mesh's setup calls, the first of the three being the mesh's vertex array |
| Models.Model.LoadMeshTextures | LuminaEngine/Model.cpp:121-136 | the diffuse, specular and height maps are served in that order as one list, one texture per path, each the first cache entry with its file name; the cache, the calls and the names spent are those of serving the three slots' entries in order |
| Models.Model.LoadMaterialTextures | LuminaEngine/Model.cpp:141-172 | one texture per slot entry, in order; an already-cached name returns the first cached entry; a new name is loaded, tagged with the type and appended to the cache whether or not it loaded; only diffuse uploads are gamma-corrected; the final cache, calls and last name are exactly those of serving the slot's entries one by one (`Serve`) |
| Models.Model.ServeNext | LuminaEngine/Model.cpp:144-170 | one loop iteration serves the next path: the texture is the first cache entry with that name, and the cache, calls and names spent change exactly as serving that one entry says |
| Models.Model.LoadNewTexture | LuminaEngine/Model.cpp:160-169 | an uncached name is loaded and appended to the cache with the given type and name, with id 0 exactly when directory/name does not decode, and with the calls and the name of that load |
| Models.Model.Draw | LuminaEngine/Model.cpp:21-27 | every mesh is drawn in order, and the result is the total number of indices drawn, accumulated in an `unsigned int` and so taken modulo 2^32 |
| Models.ServedConcat | LuminaEngine/Model.cpp:122-136 | the diffuse, specular and height lists, served one after another, make up the mesh's texture list against the final cache |
| LightPreviews.GridIndex | LuminaEngine/LightPreview.cpp:27-41 | every grid point lands inside the 289-point buffer |
| LightPreviews.GridIndexInverse | LuminaEngine/LightPreview.cpp:27-41 | every grid slot holds exactly one point: the slot number gives back x and y |
| LightPreviews.GridAt | LuminaEngine/LightPreview.cpp:27-41 | grid point (x, y) carries the surface point of (x, y) and texture coordinates (x / 16, y / 16) |
| LightPreviews.SphereGrid | LuminaEngine/LightPreview.cpp:27-41 | the loop nest produces exactly the grid, x in the outer loop, with normals equal to positions |
| LightPreviews.EvenPair | LuminaEngine/LightPreview.cpp:48-52 | on an even strip row, column x occupies positions 2x and 2x + 1, lower row first |
| LightPreviews.OddPair | LuminaEngine/LightPreview.cpp:56-60 | on an odd strip row, column x occupies positions 2(16 - x) and 2(16 - x) + 1, upper row first |
| LightPreviews.EvenRow | LuminaEngine/LightPreview.cpp:46-53 | an even row's loop appends exactly the row's 34 strip entries |
| LightPreviews.OddRow | LuminaEngine/LightPreview.cpp:54-61 | an odd row's loop, walking x downward, appends exactly the row's 34 strip entries |
| LightPreviews.StripIndices | LuminaEngine/LightPreview.cpp:43-63 | the index loop produces exactly the serpentine strip of 544 entries |
| LightPreviews.StripInRange | LuminaEngine/LightPreview.cpp:43-63 | every strip index names a point of the grid |
| LightPreviews.StripRowsAdjacent | LuminaEngine/LightPreview.cpp:43-63 | each strip row stays on two neighbouring grid rows and alternates between them |
| LightPreviews.CoveringPosition | LuminaEngine/LightPreview.cpp:43-63 | every point of the grid is reached by some strip position |
| LightPreviews.Interleave | LuminaEngine/LightPreview.cpp:66-83 | the buffer holds each vertex's position, then its normal when there are normals, then its coordinates when there are any, vertex after vertex |
| LightPreviews.InterleavedLayout | LuminaEngine/LightPreview.cpp:66-96 | with all three attributes, vertex i occupies floats 8i .. 8i + 7, with the position at 0, the normal at 3 and the coordinates at 6, which is where the attribute pointers read them |
| LightPreviews.DrawReplay | LuminaEngine/LightPreview.cpp:99-106 | drawing the preview issues one strip draw of indexCount indices and leaves no vertex array bound |
| LightPreviews.LightPreview.constructor | LuminaEngine/LightPreview.cpp:6-97 | three names are generated, the first being the vertex array; the interleaved grid and the 544-entry strip are uploaded, and indexCount is the strip's length |
| LightPreviews.LightPreview.Upload | LuminaEngine/LightPreview.cpp:85-96 | the vertex array is bound, both buffers are uploaded, and three attributes are laid over the 8-float stride |
| LightPreviews.LightPreview.Draw | LuminaEngine/LightPreview.cpp:99-106 | the light colour is set and the whole strip is drawn with the preview's vertex array |
| BloomFbo.HalveQuotient | LuminaEngine/BloomFBO.cpp:33 | halving the quotient by 2^i gives the quotient by 2^(i+1) |
| BloomFbo.HalvedIsQuotient | LuminaEngine/BloomFBO.cpp:28-48 | halving a side n times by integer division is dividing it by 2^n |
| BloomFbo.MipSideIsQuotient | LuminaEngine/BloomFBO.cpp:28-48 | mip i has the window side divided by 2^(i+1) |
| BloomFbo.MipSideMonotone | LuminaEngine/BloomFBO.cpp:28-48 | mip sides never grow along the chain |
| BloomFbo.NewChainSnoc | LuminaEngine/BloomFBO.cpp:28-48 | one more loop iteration appends the next mip, of the next halved size, and its two texture calls |
| BloomFbo.ReinitAttachesZeroedTexture | LuminaEngine/BloomFBO.cpp:50-51 | after `destroy`, a new `init` keeps the zeroed entries in front of its own, so it attaches handle 0 rather than any texture it has just created |
| BloomFbo.BloomFBO.constructor | LuminaEngine/BloomFBO.cpp:7 | a new FBO is uninitialised, with no framebuffer and an empty chain |
| BloomFbo.BloomFBO.Init | LuminaEngine/BloomFBO.cpp:11-69 | when already initialised, nothing happens and the result is true. Otherwise a framebuffer is generated and bound first. A side above INT_MAX stops there with false. Otherwise the mips are appended without clearing the chain, mip 0 is attached and the framebuffer unbound, and the result and the flag are whether the status is complete |
| BloomFbo.BloomFBO.AppendMips | LuminaEngine/BloomFBO.cpp:28-48 | the loop appends mipChainLength mips whose sides are the window's sides halved once more per level, each with a fresh texture uploaded at its size |
| BloomFbo.BloomFBO.PushMip | LuminaEngine/BloomFBO.cpp:30-47 | one iteration generates a texture, uploads it at the mip's size and appends the mip |
| BloomFbo.BloomFBO.Destroy | LuminaEngine/BloomFBO.cpp:71-82 | every mip texture is deleted and its handle zeroed in place with its size kept, the framebuffer is deleted and zeroed, and the flag is cleared |
| BloomFbo.BloomFBO.BindForWriting | LuminaEngine/BloomFBO.cpp:84-87 | binds the bloom framebuffer and nothing else |
| BloomRenderers.ToInt32 | LuminaEngine/BloomRenderer.cpp:51 | an unsigned size read as a signed int keeps its value up to INT_MAX and otherwise wraps modulo 2^32 into the int range |
| BloomRenderers.DownDraws | LuminaEngine/BloomRenderer.cpp:111-127 | downsample draw i reads the source (i = 0) or mip i - 1 and writes mip i at its size |
| BloomRenderers.UpDraws | LuminaEngine/BloomRenderer.cpp:142-160 | upsample draw j reads mip n - 1 - j and writes mip n - 2 - j at that mip's size |
| BloomRenderers.DownPassReplay | LuminaEngine/BloomRenderer.cpp:113-126 | one downsample pass draws from the bound texture into mip i at mip i's size, then leaves mip i bound as the next input |
| BloomRenderers.DownPassesReplay | LuminaEngine/BloomRenderer.cpp:111-127 | the first n passes issue draws 0 .. n-1 of the schedule and leave mip n - 1 bound |
| BloomRenderers.UpPassReplay | LuminaEngine/BloomRenderer.cpp:144-159 | one upsample pass draws from mip i into mip i - 1 at mip i - 1's size |
| BloomRenderers.UpPassesReplay | LuminaEngine/BloomRenderer.cpp:142-160 | the first k upsample passes issue upsample draws 0 .. k-1 with blending on |
| BloomRenderers.DownsampleReplay | LuminaEngine/BloomRenderer.cpp:99-128 | binding the bloom framebuffer and downsampling issues the downsample schedule into that framebuffer |
| BloomRenderers.UpsampleReplay | LuminaEngine/BloomRenderer.cpp:130-165 | upsampling issues the upsample schedule with additive blending, then turns blending off; the default framebuffer and the source viewport come back |
| BloomRenderers.RenderReplay | LuminaEngine/BloomRenderer.cpp:82-97 | a bloom render issues the downsample draws then the upsample draws, ends with blending off, the default framebuffer and the source viewport, and with two mips or more its last draw writes mip 0, the texture `bloomTexture` returns |
| BloomRenderers.BloomRenderer.constructor | LuminaEngine/BloomRenderer.cpp:6-37 | the quad's vertex array is the first name generated and the framebuffer the third; the calls are the quad setup (vertices uploaded, a 3-float and a 2-float attribute over a stride of 5, the array unbound) followed by the first `init`'s calls, and the names spent are those of that `init`; the renderer is initialised exactly when both sides fit an int and the framebuffer is complete; with sides that fit it has five mips of halving sizes, otherwise an empty chain; both shaders exist exactly when initialised |
| BloomRenderers.BloomRenderer.Init | LuminaEngine/BloomRenderer.cpp:47-80 | a second call changes nothing: not the source size, the framebuffer, the chain, the shaders, the calls nor the names. Otherwise the source size is recorded as signed ints, a framebuffer is generated and the FBO built with five mips appended to its chain; the calls and the names spent are exactly the FBO's, then, only on success, the two shaders' creation with their sampler on unit 0; the result is whether both sides fit an int and the framebuffer is complete |
| BloomRenderers.BloomRenderer.CreateShaders | LuminaEngine/BloomRenderer.cpp:66-76 | the downsample and then the upsample shader get the next two names, and each is used and has its sampler set to texture unit 0, in that order |
| BloomRenderers.BloomRenderer.RenderBloomTexture | LuminaEngine/BloomRenderer.cpp:82-92 | binds the bloom framebuffer, downsamples, upsamples, unbinds and restores the source viewport |
| BloomRenderers.BloomRenderer.RenderDownsamples | LuminaEngine/BloomRenderer.cpp:99-128 | the source is bound on unit 0, then passes 0 .. n-1 run in order |
| BloomRenderers.BloomRenderer.RenderUpsamples | LuminaEngine/BloomRenderer.cpp:130-165 | passes n-1 down to 1 run between turning additive blending on and off |
| BloomRenderers.BloomRenderer.DownsamplePass | LuminaEngine/BloomRenderer.cpp:113-126 | one downsample iteration's calls |
| BloomRenderers.BloomRenderer.UpsamplePass | LuminaEngine/BloomRenderer.cpp:144-159 | one upsample iteration's calls, mip i into mip i - 1 |
| BloomRenderers.BloomRenderer.RenderWritesBloomTexture | LuminaEngine/BloomRenderer.cpp:94-97 | with two mips or more, the last draw of a bloom render writes the texture `bloomTexture` returns |
| Input.Clamp | LuminaEngine/main.cpp:568-569 | the result lies in the range, and equals the input exactly when the input already lies in the range |
| Input.ComboFlags | LuminaEngine/main.cpp:474-492 | reflections are on exactly for entry 1, refractions exactly for entry 2, and never both |
| Input.TriangleCount | LuminaEngine/main.cpp:418 | the triangle count is the largest t with 3t not above the index count |
| Input.InputState.constructor | LuminaEngine/main.cpp:60-74 | the globals start with yaw -90, pitch 0, field of view 45, the cursor at the window's centre, no pan, no hold, both effects off, and the frame time, delta time, hold start and hold duration all 0 |
| Input.InputState.MouseButton | LuminaEngine/main.cpp:516-541 | a right press starts panning and disables the cursor; a right release stops panning, re-arms the first-move flag and restores the cursor; a left press starts a hold at `now`; a left release ends it, resets the duration and restores the cursor; every other field is kept |
| Input.InputState.CursorPos | LuminaEngine/main.cpp:543-573 | ignored unless panning; the first move of a pan only records the position; later moves add the scaled offsets to yaw and pitch, with the pitch clamped to [-89, 89] |
| Input.InputState.Scroll | LuminaEngine/main.cpp:575-580 | the field of view becomes the old one minus the offset, clamped to [1, 45] |
| Input.InputState.FrameTick | LuminaEngine/main.cpp:633-646 | deltaTime is the time since the last frame; while the left button is held, the hold duration is refreshed, and the cursor is disabled once the duration reaches 0.1 s |
| Input.InputState.Combo | LuminaEngine/main.cpp:474-492 | a new selection sets both flags as the entry says and is remembered; selecting the same entry again changes nothing; the two effects are never both on |
| Input.PointLightsEvents | LuminaEngine/main.cpp:286-306 | the point-light loop makes eight calls per light |
| Input.PointLightsEventsAt | LuminaEngine/main.cpp:286-306 | call 8i + j of the loop belongs to light i, so each light's block sits at its array position |
| Input.PointLightIndex | LuminaEngine/main.cpp:295-296 | the bracketed number in a light's uniform name reads back as the light's index |
| Input.PointLightNamesDistinct | LuminaEngine/main.cpp:286-306 | different lights get different uniform names, both for the position and for the parameter struct |
| Input.SetPointLightParameters | LuminaEngine/main.cpp:286-306 | the loop sets the uniforms of the four lights, in array order |
| Input.SetPointLight | LuminaEngine/main.cpp:288-305 | one iteration sets light i's position, then its active flag and its lighting parameters |

## Left out

- The GL driver beyond the trace is not modelled. Texture parameters,
  `glDrawBuffers`, attribute enables and buffer binds are not recorded.
  Uniform values that are vectors or floats keep only the uniform's name.
- `Mesh::setupMesh` buffer uploads and attribute pointers are not traced.
  The trace keeps only its vertex-array bind and unbind.
- Meshes.Mesh.constructor: its contract records only the three generated
  names and the vertex-array bind and unbind. The buffer uploads at
  Mesh.cpp:24-42 are not in the trace.
- Assimp import and stb_image decoding are not modelled. A scene arrives
  as an `AiScene` value (None for a failed import). A decoded image
  arrives as an `ImageStore` entry.
- Shader compilation (Shader.cpp) is not part of this model. A shader is
  the program name it is given.
- Floating point is modelled as exact reals, with no rounding: the
  camera angles, the field of view, clock readings and the hold duration.
- The sphere positions of the light preview are trigonometry in float.
  They enter as the `surface` parameter. The camera front vector from
  `getCameraDirection` is left out.
- BloomFbo.BloomFBO.Init: the float mip size (`mipSize *= 0.5f`) is not
  modelled. Uploads use the integer size, which equals the truncated
  float size for sides below 2^24.
- BloomRenderers.BloomRenderer.DownsamplePass and
  BloomRenderers.BloomRenderer.UpsamplePass: the source sets each
  viewport from the float `mip.size` (BloomRenderer.cpp:114 and 152),
  converted to GLint. The model uses the mip's integer size, which is
  the same value for sides below 2^24.
- The `filterRadius` and `srcResolution` values are not modelled.
- Destructors, `deinit` and the mesh and model teardown are not modelled.
  The `mipChain()` accessor is the field itself.
- Unsigned parameters are `nat` values with an explicit bound below 2^32
  as a precondition, where the value matters.
- Models.LoadTexture: a channel count other than 1, 3 or 4 leaves the
  formats uninitialised in the source. The model requires
  `ChannelsSupported` of the images instead.
- BloomFbo.BloomFBO.Init: requires a non-empty chain when it reaches the
  attach at BloomFBO.cpp:50-51. The source indexes `mMipChain[0]` there
  without a check.
- Model.h declares `Model(path, isPbr)`, `unsigned int Draw` and a
  `void processMesh`. Model.cpp defines `Model(path)`, `void Draw` and
  `Mesh processMesh`, and builds each `Mesh` without its `isPbr`
  argument.
  - The model follows the header's constructor: the model's `isPbr`
    flag is passed to every mesh.
  - It follows the `Mesh processMesh` definition.
  - `Draw` returns the index total, as main.cpp:366 uses it.
- The directional and spot-light uniforms of `setLightParameters` are not
  modelled. They are fixed values.
- The GLFW window is not modelled. The cursor mode is the
  `cursorDisabled` flag, and the hold check reads that flag where the
  source asks `glfwGetInputMode`.
- ImGui rendering is not modelled. The combo's selection arrives as the
  `currentIdx` parameter.
- The light preview's strip reads an index as row * 17 + column. The grid
  stores point (x, y) at x * 17 + y. The strip therefore walks the grid
  transposed, which covers the same points because X_SEGMENTS equals
  Y_SEGMENTS. The model keeps both as written.
- Input.Clamp: the source clamps the pitch and the field of view with two
  `if`s applied in order. Because the lower bound is below the upper
  one, this gives the same value as `Clamp`.
- BloomRenderers.BloomRenderer.BloomTexture: requires a non-empty chain.
  The source returns `mipChain()[0]` at BloomRenderer.cpp:94-97 without a
  check, which is undefined on an empty vector (a renderer whose window
  side exceeded INT_MAX).
- BloomRenderers.BloomRenderer.RenderBloomTexture: requires an
  initialised renderer. Without `init` the source's shader pointers are
  null (BloomRenderer.cpp:103 and 134), which the model does not
  represent.
- GL names come from one shared counter, so the model's name arithmetic
  (`quadVao + 2` for the framebuffer, `fbo + 1` for the first mip, three
  names per mesh) is a property of that allocator. Real GL drivers keep
  a separate name space per object kind, reuse deleted names and promise
  only that a new name is unused.
- TextureUtils.LoadHdrImage: `stbi_set_flip_vertically_on_load(true)` at
  TextureUtils.cpp:93 is not modelled, because the `ImageStore` holds no
  pixel rows. The flag is global in stb_image, so it also flips images
  that later loaders decode.
- Meshes.Mesh.Draw: the `glDrawElements` count is the index list's
  length. Its conversion to `GLsizei` is not modelled; the returned count
  is wrapped modulo 2^32.
