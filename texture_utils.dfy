/** TextureUtils: choosing GL formats from an image's channel count, and the
    three loaders with their early exits. Decoding image files is not
    modelled: an `ImageStore` says which paths decode and what they hold. */
module TextureUtils {
  import opened Wrappers
  import opened Gl

  /** What stb_image reports for a decoded file. */
  datatype Image = Image(width: int, height: int, channels: int)

  /** The paths that decode; a path outside the store fails to load. */
  type ImageStore = map<string, Image>

  datatype Formats = Formats(internalFormat: nat, dataFormat: nat)

  /** Number of colour components a data format carries (0 for others). */
  function ComponentCount(format: nat): nat {
    if format == RED then 1
    else if format == RGB then 3
    else if format == RGBA then 4
    else 0
  }

  predicate IsSrgb(format: nat) {
    format == SRGB || format == SRGB_ALPHA
  }

  /** The linear format an sRGB internal format decodes to. */
  function Linear(format: nat): nat {
    if format == SRGB then RGB
    else if format == SRGB_ALPHA then RGBA
    else format
  }

  /** `evaluateFormats`: formats for 1, 3 or 4 channels, nothing for any
      other count. The data format carries exactly the image's channels, the
      internal format is that same layout, stored as sRGB exactly when gamma
      correction is asked for and the image has colour channels. */
  function EvaluateFormats(channels: int, correctGamma: bool): (r: Option<Formats>)
    ensures r.Some? <==> channels == 1 || channels == 3 || channels == 4
    ensures r.Some? ==> ComponentCount(r.value.dataFormat) == channels
    ensures r.Some? ==> Linear(r.value.internalFormat) == r.value.dataFormat
    ensures r.Some? ==> (IsSrgb(r.value.internalFormat) <==> correctGamma && channels != 1)
  {
    if channels == 1 then Some(Formats(RED, RED))
    else if channels == 3 then Some(Formats(if correctGamma then SRGB else RGB, RGB))
    else if channels == 4 then Some(Formats(if correctGamma then SRGB_ALPHA else RGBA, RGBA))
    else None
  }

  /** The integer `evaluateFormats` returns: 0 when it set both formats, -1 otherwise. */
  function EvaluateFormatsStatus(channels: int, correctGamma: bool): (status: int)
    ensures status == 0 || status == -1
    ensures status == 0 <==> EvaluateFormats(channels, correctGamma).Some?
  {
    if EvaluateFormats(channels, correctGamma).Some? then 0 else -1
  }

  /** The formats fully determine the channel count they were chosen for. */
  lemma FormatsDetermineChannels(c1: int, c2: int, g1: bool, g2: bool)
    requires EvaluateFormats(c1, g1).Some? && EvaluateFormats(c2, g2).Some?
    requires EvaluateFormats(c1, g1).value.dataFormat == EvaluateFormats(c2, g2).value.dataFormat
    ensures c1 == c2
  {
  }

  /** A path that loads and whose channel count has formats. */
  predicate Decodable(path: string, images: ImageStore) {
    path in images && EvaluateFormats(images[path].channels, false).Some?
  }

  /** The upload a decodable 2D image or cube face receives. */
  function Upload(target: nat, image: Image, correctGamma: bool): Event
    requires EvaluateFormats(image.channels, correctGamma).Some?
  {
    var f := EvaluateFormats(image.channels, correctGamma).value;
    TexImage(target, f.internalFormat, image.width, image.height, f.dataFormat)
  }

  /** The calls `loadTexture` makes after generating `name`. */
  function LoadTextureEvents(path: string, correctGamma: bool, images: ImageStore, name: nat): seq<Event> {
    [BindTexture(TEXTURE_2D, name)]
    + if Decodable(path, images)
      then [Upload(TEXTURE_2D, images[path], correctGamma), GenerateMipmap(TEXTURE_2D)]
      else []
  }

  /** `loadTexture`: the generated name on success, 0 when the file does not
      load or has a channel count without formats. A name is generated and
      bound before the file is read, so it is spent on failure too. */
  method LoadTexture(filePath: string, gammaCorrection: bool, images: ImageStore, gl: Context)
    returns (textureId: nat)
    modifies gl
    ensures gl.lastName == old(gl.lastName) + 1
    ensures textureId == (if Decodable(filePath, images) then gl.lastName else 0)
    ensures gl.trace == old(gl.trace) + LoadTextureEvents(filePath, gammaCorrection, images, gl.lastName)
  {
    var name := gl.GenName();
    gl.Emit(BindTexture(TEXTURE_2D, name));
    if filePath !in images {
      return 0;
    }
    var image := images[filePath];
    var formats := EvaluateFormats(image.channels, gammaCorrection);
    if formats.None? {
      return 0;
    }
    gl.Emit(TexImage(TEXTURE_2D, formats.value.internalFormat, image.width, image.height, formats.value.dataFormat));
    gl.Emit(GenerateMipmap(TEXTURE_2D));
    textureId := name;
  }

  /** Index of the first face that does not load or has no formats, or
      `|paths|` when every face is fine. */
  function FirstBadFace(paths: seq<string>, images: ImageStore): (k: nat)
    ensures k <= |paths|
    ensures forall i :: 0 <= i < k ==> Decodable(paths[i], images)
    ensures k < |paths| ==> !Decodable(paths[k], images)
  {
    if paths == [] || !Decodable(paths[0], images) then 0
    else 1 + FirstBadFace(paths[1..], images)
  }

  /** Uploads of faces 0 .. |paths|-1, face i to CUBE_MAP_POSITIVE_X + i. */
  function FaceUploads(paths: seq<string>, correctGamma: bool, images: ImageStore): (es: seq<Event>)
    requires forall i :: 0 <= i < |paths| ==> Decodable(paths[i], images)
    ensures |es| == |paths|
    ensures forall i :: 0 <= i < |paths| ==> es[i].TexImage? && es[i].target == TEXTURE_CUBE_MAP_POSITIVE_X + i
  {
    if paths == [] then []
    else
      var last := |paths| - 1;
      assert Decodable(paths[last], images);
      FaceUploads(paths[..last], correctGamma, images)
      + [Upload(TEXTURE_CUBE_MAP_POSITIVE_X + last, images[paths[last]], correctGamma)]
  }

  /** Uploading one more face appends its upload. */
  lemma FaceUploadsSnoc(paths: seq<string>, i: nat, correctGamma: bool, images: ImageStore)
    requires i < |paths| && forall j :: 0 <= j <= i ==> Decodable(paths[j], images)
    ensures FaceUploads(paths[..i + 1], correctGamma, images)
         == FaceUploads(paths[..i], correctGamma, images)
            + [Upload(TEXTURE_CUBE_MAP_POSITIVE_X + i, images[paths[i]], correctGamma)]
  {
    assert paths[..i + 1][..i] == paths[..i];
  }

  /** `loadCubemapTexture`: faces are uploaded in array order; the first face
      that fails ends the load with 0 and no later face is read. */
  method LoadCubemapTexture(filePaths: seq<string>, gammaCorrection: bool, images: ImageStore, gl: Context)
    returns (textureId: nat)
    requires |filePaths| == 6
    modifies gl
    ensures gl.lastName == old(gl.lastName) + 1
    ensures var k := FirstBadFace(filePaths, images);
      && textureId == (if k == 6 then gl.lastName else 0)
      && gl.trace == old(gl.trace) + [BindTexture(TEXTURE_CUBE_MAP, gl.lastName)]
                     + FaceUploads(filePaths[..k], gammaCorrection, images)
                     + (if k == 6 then [BindTexture(TEXTURE_CUBE_MAP, 0)] else [])
  {
    var name := gl.GenName();
    gl.Emit(BindTexture(TEXTURE_CUBE_MAP, name));
    ghost var start := gl.trace;
    ghost var k := FirstBadFace(filePaths, images);
    var i := 0;
    while i < |filePaths|
      invariant 0 <= i <= k
      invariant gl.lastName == name
      invariant gl.trace == start + FaceUploads(filePaths[..i], gammaCorrection, images)
    {
      if filePaths[i] !in images {
        assert i == k;
        return 0;
      }
      var image := images[filePaths[i]];
      var formats := EvaluateFormats(image.channels, gammaCorrection);
      if formats.None? {
        assert i == k;
        return 0;
      }
      gl.Emit(TexImage(TEXTURE_CUBE_MAP_POSITIVE_X + i, formats.value.internalFormat,
                       image.width, image.height, formats.value.dataFormat));
      FaceUploadsSnoc(filePaths, i, gammaCorrection, images);
      i := i + 1;
    }
    assert filePaths[..i] == filePaths;
    gl.Emit(BindTexture(TEXTURE_CUBE_MAP, 0));
    textureId := name;
  }

  /** The calls `loadHdrImage` makes after generating `name`. */
  function LoadHdrEvents(path: string, images: ImageStore, name: nat): seq<Event> {
    [BindTexture(TEXTURE_2D, name)]
    + if path in images
      then [TexImage(TEXTURE_2D, RGB16F, images[path].width, images[path].height, RGB),
            BindTexture(TEXTURE_2D, 0)]
      else []
  }

  /** `loadHdrImage`: a 16-bit float RGB texture whatever the file's channel
      count, or 0 when the float decoder fails. */
  method LoadHdrImage(filePath: string, images: ImageStore, gl: Context) returns (textureId: nat)
    modifies gl
    ensures gl.lastName == old(gl.lastName) + 1
    ensures textureId == (if filePath in images then gl.lastName else 0)
    ensures gl.trace == old(gl.trace) + LoadHdrEvents(filePath, images, gl.lastName)
  {
    var name := gl.GenName();
    gl.Emit(BindTexture(TEXTURE_2D, name));
    if filePath !in images {
      return 0;
    }
    var image := images[filePath];
    gl.Emit(TexImage(TEXTURE_2D, RGB16F, image.width, image.height, RGB));
    gl.Emit(BindTexture(TEXTURE_2D, 0));
    textureId := name;
  }
}
