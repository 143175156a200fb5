/** BloomRenderer: owns a BloomFBO with five mips and runs the bloom
    passes: downsample from the source into mip 0, 1, ..., then upsample
    back from the smallest mip into mip 0 with additive blending. */
module BloomRenderers {
  import opened Gl
  import opened BloomFbo

  const NUM_BLOOM_MIPS: nat := 5

  /** The screen quad: four vertices of position (3 floats) and texture
      coordinates (2 floats), drawn as a triangle strip. */
  const QUAD_VERTICES: seq<real> := [
    -1.0,  1.0, 0.0, 0.0, 1.0,
    -1.0, -1.0, 0.0, 0.0, 0.0,
     1.0,  1.0, 0.0, 1.0, 1.0,
     1.0, -1.0, 0.0, 1.0, 0.0]

  /** An unsigned 32-bit value read as a signed one (`glm::ivec2` of an
      unsigned value): values above INT_MAX wrap to negative. */
  function ToInt32(u: nat): (v: int)
    requires u < UINT_LIMIT
    ensures -(INT_MAX as int) - 1 <= v <= INT_MAX
    ensures (v - u) % UINT_LIMIT == 0
    ensures u <= INT_MAX ==> v == u
  {
    if u > INT_MAX then u - UINT_LIMIT else u
  }

  // ---------------------------------------------------------------------
  // The calls of the passes.

  /** Drawing the screen quad: four vertices as a triangle strip. */
  function QuadDraw(quadVao: nat): seq<Event> {
    BoundDraw(quadVao, DrawArrays(TRIANGLE_STRIP, 0, 4))
  }

  /** Downsample pass i: render mip i at its size from whatever is bound,
      then bind mip i as the next pass's input. */
  function DownPass(chain: seq<BloomMip>, quadVao: nat, i: nat): seq<Event>
    requires i < |chain|
  {
    [Viewport(chain[i].intWidth, chain[i].intHeight), AttachColor(chain[i].texture)]
    + QuadDraw(quadVao)
    + [SetVec2("srcResolution"), BindTexture(TEXTURE_2D, chain[i].texture)]
  }

  function DownPasses(chain: seq<BloomMip>, quadVao: nat, n: nat): seq<Event>
    requires n <= |chain|
  {
    if n == 0 then [] else DownPasses(chain, quadVao, n - 1) + DownPass(chain, quadVao, n - 1)
  }

  function DownsampleEvents(program: nat, chain: seq<BloomMip>, quadVao: nat, srcTexture: nat): seq<Event> {
    [UseProgram(program), SetVec2("srcResolution"), ActiveTexture(0), BindTexture(TEXTURE_2D, srcTexture)]
    + DownPasses(chain, quadVao, |chain|)
  }

  /** Upsample pass i: read mip i, write mip i - 1 at mip i - 1's size. */
  function UpPass(chain: seq<BloomMip>, quadVao: nat, i: nat): seq<Event>
    requires 1 <= i < |chain|
  {
    [ActiveTexture(0), BindTexture(TEXTURE_2D, chain[i].texture),
     Viewport(chain[i - 1].intWidth, chain[i - 1].intHeight), AttachColor(chain[i - 1].texture)]
    + QuadDraw(quadVao)
  }

  /** Number of upsample passes: one per mip but the first. */
  function UpCount(chain: seq<BloomMip>): nat {
    if chain == [] then 0 else |chain| - 1
  }

  /** The first k upsample passes, for i = |chain| - 1 down to |chain| - k. */
  function UpPasses(chain: seq<BloomMip>, quadVao: nat, k: nat): seq<Event>
    requires k <= UpCount(chain)
  {
    if k == 0 then [] else UpPasses(chain, quadVao, k - 1) + UpPass(chain, quadVao, |chain| - k)
  }

  function UpsampleEvents(program: nat, chain: seq<BloomMip>, quadVao: nat): seq<Event> {
    [UseProgram(program), SetFloat("filterRadius"), SetBlend(true)]
    + UpPasses(chain, quadVao, UpCount(chain)) + [SetBlend(false)]
  }

  function RenderEvents(framebuffer: nat, down: nat, up: nat, chain: seq<BloomMip>, quadVao: nat,
                        srcTexture: nat, srcWidth: int, srcHeight: int): seq<Event> {
    [BindFramebuffer(framebuffer)]
    + DownsampleEvents(down, chain, quadVao, srcTexture)
    + UpsampleEvents(up, chain, quadVao)
    + [BindFramebuffer(0), Viewport(srcWidth, srcHeight)]
  }

  // ---------------------------------------------------------------------
  // The pass schedule, as the draws the replay semantics records.

  /** Downsample draw i reads the source texture (i = 0) or mip i - 1 and
      writes mip i at its size. */
  function DownDraw(chain: seq<BloomMip>, srcTexture: nat, blend: bool, i: nat): Draw
    requires i < |chain|
  {
    Draw(if i == 0 then srcTexture else chain[i - 1].texture, chain[i].texture,
         chain[i].intWidth, chain[i].intHeight, blend, 4)
  }

  function DownDraws(chain: seq<BloomMip>, srcTexture: nat, blend: bool, n: nat): (ds: seq<Draw>)
    requires n <= |chain|
    ensures |ds| == n
    ensures forall i :: 0 <= i < n ==> ds[i] == DownDraw(chain, srcTexture, blend, i)
  {
    if n == 0 then [] else DownDraws(chain, srcTexture, blend, n - 1) + [DownDraw(chain, srcTexture, blend, n - 1)]
  }

  /** Upsample draw j (j = 0 first) reads mip i = |chain| - 1 - j and adds
      into mip i - 1 at that mip's size, with blending on. */
  function UpDraw(chain: seq<BloomMip>, i: nat): Draw
    requires 1 <= i < |chain|
  {
    Draw(chain[i].texture, chain[i - 1].texture, chain[i - 1].intWidth, chain[i - 1].intHeight, true, 4)
  }

  function UpDraws(chain: seq<BloomMip>, k: nat): (ds: seq<Draw>)
    requires k <= UpCount(chain)
    ensures |ds| == k
    ensures forall j :: 0 <= j < k ==> ds[j] == UpDraw(chain, |chain| - 1 - j)
  {
    if k == 0 then [] else UpDraws(chain, k - 1) + [UpDraw(chain, |chain| - k)]
  }

  lemma {:induction false} DownPassReplay(m: State, chain: seq<BloomMip>, quadVao: nat, i: nat)
    requires i < |chain| && m.activeUnit == 0
    ensures var r := Replay(m, DownPass(chain, quadVao, i));
      && r.activeUnit == 0 && r.framebuffer == m.framebuffer && r.blend == m.blend
      && BoundOn(r, 0) == chain[i].texture && Target(r) == chain[i].texture
      && r.width == chain[i].intWidth && r.height == chain[i].intHeight
      && r.draws == m.draws + [Draw(BoundOn(m, 0), chain[i].texture, chain[i].intWidth, chain[i].intHeight, m.blend, 4)]
  {
    var c := chain[i];
    var target := [Viewport(c.intWidth, c.intHeight), AttachColor(c.texture)];
    var next := [SetVec2("srcResolution"), BindTexture(TEXTURE_2D, c.texture)];
    ReplayAppend(m, target + QuadDraw(quadVao), next);
    ReplayAppend(m, target, QuadDraw(quadVao));
    ReplayTwo(m, target[0], target[1]);
    BoundDrawReplay(Replay(m, target), quadVao, DrawArrays(TRIANGLE_STRIP, 0, 4));
    ReplayTwo(Replay(m, target + QuadDraw(quadVao)), next[0], next[1]);
  }

  /** The first n downsample passes issue draws 0 .. n-1 of the schedule and
      leave mip n - 1 bound as the next input. */
  lemma {:induction false} DownPassesReplay(s: State, chain: seq<BloomMip>, quadVao: nat, srcTexture: nat, n: nat)
    requires n <= |chain| && s.activeUnit == 0 && BoundOn(s, 0) == srcTexture
    ensures var r := Replay(s, DownPasses(chain, quadVao, n));
      && r.activeUnit == 0 && r.framebuffer == s.framebuffer && r.blend == s.blend
      && BoundOn(r, 0) == (if n == 0 then srcTexture else chain[n - 1].texture)
      && (n > 0 ==> Target(r) == chain[n - 1].texture && r.width == chain[n - 1].intWidth && r.height == chain[n - 1].intHeight)
      && r.draws == s.draws + DownDraws(chain, srcTexture, s.blend, n)
  {
    if n > 0 {
      DownPassesReplay(s, chain, quadVao, srcTexture, n - 1);
      ReplayAppend(s, DownPasses(chain, quadVao, n - 1), DownPass(chain, quadVao, n - 1));
      DownPassReplay(Replay(s, DownPasses(chain, quadVao, n - 1)), chain, quadVao, n - 1);
    }
  }

  lemma {:induction false} UpPassReplay(m: State, chain: seq<BloomMip>, quadVao: nat, i: nat)
    requires 1 <= i < |chain|
    ensures var r := Replay(m, UpPass(chain, quadVao, i));
      && r.framebuffer == m.framebuffer && r.blend == m.blend && r.activeUnit == 0
      && Target(r) == chain[i - 1].texture
      && r.width == chain[i - 1].intWidth && r.height == chain[i - 1].intHeight
      && r.draws == m.draws + [Draw(chain[i].texture, chain[i - 1].texture, chain[i - 1].intWidth, chain[i - 1].intHeight, m.blend, 4)]
  {
    var src, dst := chain[i], chain[i - 1];
    var bindAndTarget := [ActiveTexture(0), BindTexture(TEXTURE_2D, src.texture),
                          Viewport(dst.intWidth, dst.intHeight), AttachColor(dst.texture)];
    ReplayAppend(m, bindAndTarget, QuadDraw(quadVao));
    ReplayFour(m, bindAndTarget[0], bindAndTarget[1], bindAndTarget[2], bindAndTarget[3]);
    var unit0 := m.(activeUnit := 0);
    assert Step(m, bindAndTarget[0]) == unit0;
    var bound := unit0.(bound := m.bound[0 := src.texture]);
    assert Step(unit0, bindAndTarget[1]) == bound;
    var sized := bound.(width := dst.intWidth, height := dst.intHeight);
    assert Step(bound, bindAndTarget[2]) == sized;
    var ready := sized.(attached := m.attached[m.framebuffer := dst.texture]);
    assert Step(sized, bindAndTarget[3]) == ready;
    BoundDrawReplay(ready, quadVao, DrawArrays(TRIANGLE_STRIP, 0, 4));
  }

  /** The first k upsample passes issue upsample draws 0 .. k-1. */
  lemma {:induction false} UpPassesReplay(s: State, chain: seq<BloomMip>, quadVao: nat, k: nat)
    requires k <= UpCount(chain) && s.blend
    ensures var r := Replay(s, UpPasses(chain, quadVao, k));
      && r.framebuffer == s.framebuffer && r.blend
      && (k > 0 ==> Target(r) == chain[|chain| - 1 - k].texture
                    && r.width == chain[|chain| - 1 - k].intWidth && r.height == chain[|chain| - 1 - k].intHeight)
      && r.draws == s.draws + UpDraws(chain, k)
  {
    if k > 0 {
      UpPassesReplay(s, chain, quadVao, k - 1);
      ReplayAppend(s, UpPasses(chain, quadVao, k - 1), UpPass(chain, quadVao, |chain| - k));
      UpPassReplay(Replay(s, UpPasses(chain, quadVao, k - 1)), chain, quadVao, |chain| - k);
    }
  }

  /** Binding the bloom framebuffer and downsampling issues the downsample
      draws of the schedule, into the bloom framebuffer. */
  lemma {:induction false} DownsampleReplay(s: State, framebuffer: nat, down: nat, chain: seq<BloomMip>, quadVao: nat, srcTexture: nat)
    ensures var r := Replay(s, [BindFramebuffer(framebuffer)] + DownsampleEvents(down, chain, quadVao, srcTexture));
      && r.framebuffer == framebuffer && r.blend == s.blend
      && r.draws == s.draws + DownDraws(chain, srcTexture, s.blend, |chain|)
  {
    var head := [BindFramebuffer(framebuffer), UseProgram(down), SetVec2("srcResolution"), ActiveTexture(0)];
    var bindSrc := [BindTexture(TEXTURE_2D, srcTexture)];
    var downs := DownPasses(chain, quadVao, |chain|);
    assert [BindFramebuffer(framebuffer)] + DownsampleEvents(down, chain, quadVao, srcTexture) == head + bindSrc + downs;
    ReplayAppend(s, head + bindSrc, downs);
    ReplayAppend(s, head, bindSrc);
    ReplayFour(s, head[0], head[1], head[2], head[3]);
    ReplayOne(Replay(s, head), bindSrc[0]);
    DownPassesReplay(Replay(s, head + bindSrc), chain, quadVao, srcTexture, |chain|);
  }

  /** Upsampling issues the upsample draws of the schedule with blending
      on, then turns blending off; the default framebuffer and the source
      viewport come back. */
  lemma {:induction false} UpsampleReplay(m: State, up: nat, chain: seq<BloomMip>, quadVao: nat, srcWidth: int, srcHeight: int)
    ensures var r := Replay(m, UpsampleEvents(up, chain, quadVao) + [BindFramebuffer(0), Viewport(srcWidth, srcHeight)]);
      && r.draws == m.draws + UpDraws(chain, UpCount(chain))
      && r.framebuffer == 0 && r.width == srcWidth && r.height == srcHeight && !r.blend
  {
    var upHead := [UseProgram(up), SetFloat("filterRadius"), SetBlend(true)];
    var ups := UpPasses(chain, quadVao, UpCount(chain));
    var tail := [SetBlend(false), BindFramebuffer(0), Viewport(srcWidth, srcHeight)];
    assert UpsampleEvents(up, chain, quadVao) + [BindFramebuffer(0), Viewport(srcWidth, srcHeight)] == upHead + ups + tail;
    ReplayAppend(m, upHead + ups, tail);
    ReplayAppend(m, upHead, ups);
    ReplayThree(m, upHead[0], upHead[1], upHead[2]);
    UpPassesReplay(Replay(m, upHead), chain, quadVao, UpCount(chain));
    ReplayThree(Replay(m, upHead + ups), tail[0], tail[1], tail[2]);
  }

  /** What one `renderBloomTexture` does: the downsample draws of the
      schedule, then the upsample draws with blending on, then blending
      off, the default framebuffer bound and the source viewport back.
      With two mips or more, the last draw writes mip 0, the texture
      `bloomTexture` hands out. */
  lemma RenderReplay(s: State, framebuffer: nat, down: nat, up: nat, chain: seq<BloomMip>, quadVao: nat,
                     srcTexture: nat, srcWidth: int, srcHeight: int)
    ensures var r := Replay(s, RenderEvents(framebuffer, down, up, chain, quadVao, srcTexture, srcWidth, srcHeight));
      && r.draws == s.draws + DownDraws(chain, srcTexture, s.blend, |chain|) + UpDraws(chain, UpCount(chain))
      && r.framebuffer == 0 && r.width == srcWidth && r.height == srcHeight && !r.blend
      && (|chain| >= 2 ==> r.draws[|r.draws| - 1].target == chain[0].texture)
  {
    var first := [BindFramebuffer(framebuffer)] + DownsampleEvents(down, chain, quadVao, srcTexture);
    var second := UpsampleEvents(up, chain, quadVao) + [BindFramebuffer(0), Viewport(srcWidth, srcHeight)];
    assert RenderEvents(framebuffer, down, up, chain, quadVao, srcTexture, srcWidth, srcHeight) == first + second;
    ReplayAppend(s, first, second);
    DownsampleReplay(s, framebuffer, down, chain, quadVao, srcTexture);
    UpsampleReplay(Replay(s, first), up, chain, quadVao, srcWidth, srcHeight);
    if |chain| >= 2 {
      var ups := UpDraws(chain, UpCount(chain));
      assert ups[|ups| - 1] == UpDraw(chain, 1);
    }
  }

  /** The calls that set up the screen quad: its vertex array bound, the
      vertices uploaded, positions (3 floats) and texture coordinates
      (2 floats) laid out over a stride of 5 floats, the array unbound. */
  function QuadSetupEvents(quadVao: nat): seq<Event> {
    [BindVertexArray(quadVao), ArrayBufferData(QUAD_VERTICES),
     AttribPointer(0, 3, 5, 0), AttribPointer(1, 2, 5, 3), BindVertexArray(0)]
  }

  /** The two shaders created, each with its sampler on texture unit 0. */
  function ShaderSetupEvents(down: nat, up: nat): seq<Event> {
    [UseProgram(down), SetInt("srcTexture", 0), UseProgram(up), SetInt("srcTexture", 0)]
  }

  /** Whether `init` gets past the FBO: both sides fit an `int` and the
      framebuffer is complete. */
  predicate InitSucceeds(width: nat, height: nat, status: nat) {
    width <= INT_MAX && height <= INT_MAX && status == FRAMEBUFFER_COMPLETE
  }

  /** The calls a first `init` records once it has generated framebuffer
      `fboName` over an FBO whose chain is `chain0`: the FBO's own calls
      with five mips named after it, then, when the framebuffer is
      complete, the shaders named after the mips. */
  function InitEvents(fboName: nat, chain0: seq<BloomMip>, width: nat, height: nat, status: nat): seq<Event> {
    if width > INT_MAX || height > INT_MAX then [BindFramebuffer(fboName)]
    else
      var mips := NewChain(width, height, NUM_BLOOM_MIPS, fboName + 1);
      [BindFramebuffer(fboName)] + MipUploads(mips) + [AttachColor((chain0 + mips)[0].texture), BindFramebuffer(0)]
      + if status == FRAMEBUFFER_COMPLETE
        then ShaderSetupEvents(fboName + NUM_BLOOM_MIPS + 1, fboName + NUM_BLOOM_MIPS + 2)
        else []
  }

  /** How many names a first `init` generates after the framebuffer's. */
  function InitNames(width: nat, height: nat, status: nat): nat {
    if width > INT_MAX || height > INT_MAX then 0
    else if status == FRAMEBUFFER_COMPLETE then NUM_BLOOM_MIPS + 2
    else NUM_BLOOM_MIPS
  }

  class BloomRenderer {
    var initialized: bool
    const fbo: BloomFBO
    var quadVao: nat
    var srcWidth: int
    var srcHeight: int
    /** Programs of the two shaders; 0 while they do not exist. */
    var downsampleShader: nat
    var upsampleShader: nat

    /** Sets up the screen quad, then runs `init`. */
    constructor (windowWidth: nat, windowHeight: nat, status: nat, gl: Context)
      requires windowWidth < UINT_LIMIT && windowHeight < UINT_LIMIT
      modifies gl
      ensures fresh(fbo)
      ensures quadVao == old(gl.lastName) + 1 && fbo.fbo == quadVao + 2
      ensures srcWidth == ToInt32(windowWidth) && srcHeight == ToInt32(windowHeight)
      ensures initialized <==> InitSucceeds(windowWidth, windowHeight, status)
      ensures windowWidth <= INT_MAX && windowHeight <= INT_MAX ==>
        fbo.mipChain == NewChain(windowWidth, windowHeight, NUM_BLOOM_MIPS, quadVao + 3)
      ensures windowWidth > INT_MAX || windowHeight > INT_MAX ==> fbo.mipChain == []
      ensures initialized ==> downsampleShader != 0 && upsampleShader != 0 && fbo.initialized
      ensures !initialized ==> downsampleShader == 0 && upsampleShader == 0
      ensures gl.lastName == fbo.fbo + InitNames(windowWidth, windowHeight, status)
      ensures gl.trace == old(gl.trace) + QuadSetupEvents(quadVao) + InitEvents(fbo.fbo, [], windowWidth, windowHeight, status)
    {
      initialized := false;
      fbo := new BloomFBO();
      quadVao := 0;
      srcWidth, srcHeight := 0, 0;
      downsampleShader, upsampleShader := 0, 0;
      new;
      quadVao := gl.GenName();
      var quadVbo := gl.GenName();
      gl.Emit(BindVertexArray(quadVao));
      gl.Emit(ArrayBufferData(QUAD_VERTICES));
      gl.Emit(AttribPointer(0, 3, 5, 0));
      gl.Emit(AttribPointer(1, 2, 5, 3));
      gl.Emit(BindVertexArray(0));
      ghost var setup := gl.trace;
      assert setup == old(gl.trace) + QuadSetupEvents(quadVao);
      var ok := Init(windowWidth, windowHeight, status, gl);
    }

    /** `init`: nothing happens when already initialised. Otherwise the
        source size is recorded and the FBO is built with five mips; if
        that fails, false is returned and no shader is created; otherwise
        both shaders are created with their sampler on unit 0. */
    method Init(windowWidth: nat, windowHeight: nat, status: nat, gl: Context) returns (ok: bool)
      requires windowWidth < UINT_LIMIT && windowHeight < UINT_LIMIT
      requires !initialized ==> !fbo.initialized
      modifies this, fbo, gl
      ensures old(initialized) ==>
        ok && initialized && fbo.mipChain == old(fbo.mipChain) && fbo.initialized == old(fbo.initialized)
        && fbo.fbo == old(fbo.fbo) && srcWidth == old(srcWidth) && srcHeight == old(srcHeight)
        && downsampleShader == old(downsampleShader) && upsampleShader == old(upsampleShader)
        && gl.trace == old(gl.trace) && gl.lastName == old(gl.lastName)
      ensures !old(initialized) ==>
        && srcWidth == ToInt32(windowWidth) && srcHeight == ToInt32(windowHeight)
        && (ok <==> InitSucceeds(windowWidth, windowHeight, status))
        && initialized == ok && fbo.initialized == ok
        && fbo.fbo == old(gl.lastName) + 1
        && (windowWidth <= INT_MAX && windowHeight <= INT_MAX ==>
              fbo.mipChain == old(fbo.mipChain) + NewChain(windowWidth, windowHeight, NUM_BLOOM_MIPS, fbo.fbo + 1))
        && (windowWidth > INT_MAX || windowHeight > INT_MAX ==> fbo.mipChain == old(fbo.mipChain))
        && (!ok ==> downsampleShader == old(downsampleShader) && upsampleShader == old(upsampleShader))
        && (ok ==> downsampleShader == fbo.fbo + NUM_BLOOM_MIPS + 1 && upsampleShader == fbo.fbo + NUM_BLOOM_MIPS + 2)
        && gl.lastName == fbo.fbo + InitNames(windowWidth, windowHeight, status)
        && gl.trace == old(gl.trace) + InitEvents(fbo.fbo, old(fbo.mipChain), windowWidth, windowHeight, status)
      ensures quadVao == old(quadVao)
    {
      if initialized {
        return true;
      }
      srcWidth, srcHeight := ToInt32(windowWidth), ToInt32(windowHeight);
      var status' := fbo.Init(windowWidth, windowHeight, NUM_BLOOM_MIPS, status, gl);
      if !status' {
        return false;
      }
      CreateShaders(gl);
      initialized := true;
      return true;
    }

    /** The end of a successful `init`: both shaders are created and
        their sampler set to texture unit 0. */
    method CreateShaders(gl: Context)
      modifies this, gl
      ensures downsampleShader == old(gl.lastName) + 1 && upsampleShader == old(gl.lastName) + 2
      ensures gl.lastName == old(gl.lastName) + 2
      ensures gl.trace == old(gl.trace) + ShaderSetupEvents(downsampleShader, upsampleShader)
      ensures quadVao == old(quadVao) && initialized == old(initialized)
      ensures srcWidth == old(srcWidth) && srcHeight == old(srcHeight)
    {
      downsampleShader := gl.GenName();
      upsampleShader := gl.GenName();
      gl.Emit(UseProgram(downsampleShader));
      gl.Emit(SetInt("srcTexture", 0));
      gl.Emit(UseProgram(upsampleShader));
      gl.Emit(SetInt("srcTexture", 0));
    }

    /** `renderBloomTexture`: needs the shaders `init` creates. */
    method RenderBloomTexture(srcTexture: nat, gl: Context)
      requires initialized
      modifies gl
      ensures gl.lastName == old(gl.lastName)
      ensures gl.trace == old(gl.trace)
        + RenderEvents(fbo.fbo, downsampleShader, upsampleShader, fbo.mipChain, quadVao, srcTexture, srcWidth, srcHeight)
    {
      fbo.BindForWriting(gl);
      RenderDownsamples(srcTexture, gl);
      RenderUpsamples(gl);
      gl.Emit(BindFramebuffer(0));
      gl.Emit(Viewport(srcWidth, srcHeight));
    }

    /** `renderDownsamples`: passes i = 0 .. n-1 in order. */
    method RenderDownsamples(srcTexture: nat, gl: Context)
      modifies gl
      ensures gl.lastName == old(gl.lastName)
      ensures gl.trace == old(gl.trace) + DownsampleEvents(downsampleShader, fbo.mipChain, quadVao, srcTexture)
    {
      var mipChain := fbo.mipChain;
      gl.Emit(UseProgram(downsampleShader));
      gl.Emit(SetVec2("srcResolution"));
      gl.Emit(ActiveTexture(0));
      gl.Emit(BindTexture(TEXTURE_2D, srcTexture));
      ghost var start := gl.trace;
      var i := 0;
      while i < |mipChain|
        invariant i <= |mipChain|
        invariant gl.lastName == old(gl.lastName)
        invariant gl.trace == start + DownPasses(mipChain, quadVao, i)
      {
        DownsamplePass(mipChain, i, gl);
        i := i + 1;
      }
    }

    /** `renderUpsamples`: passes i = n-1 down to 1 between turning
        additive blending on and off. */
    method RenderUpsamples(gl: Context)
      modifies gl
      ensures gl.lastName == old(gl.lastName)
      ensures gl.trace == old(gl.trace) + UpsampleEvents(upsampleShader, fbo.mipChain, quadVao)
    {
      var mipChain := fbo.mipChain;
      gl.Emit(UseProgram(upsampleShader));
      gl.Emit(SetFloat("filterRadius"));
      gl.Emit(SetBlend(true));
      ghost var start := gl.trace;
      var i: int := |mipChain| - 1;
      ghost var done: nat := 0;
      while i > 0
        invariant done <= UpCount(mipChain) && i == |mipChain| - 1 - done
        invariant gl.lastName == old(gl.lastName)
        invariant gl.trace == start + UpPasses(mipChain, quadVao, done)
      {
        UpsamplePass(mipChain, i, gl);
        assert UpPasses(mipChain, quadVao, done + 1) == UpPasses(mipChain, quadVao, done) + UpPass(mipChain, quadVao, i);
        i := i - 1;
        done := done + 1;
      }
      gl.Emit(SetBlend(false));
    }

    /** One iteration of the downsample loop. */
    method DownsamplePass(mipChain: seq<BloomMip>, i: nat, gl: Context)
      requires i < |mipChain|
      modifies gl
      ensures gl.lastName == old(gl.lastName)
      ensures gl.trace == old(gl.trace) + DownPass(mipChain, quadVao, i)
    {
      var mip := mipChain[i];
      gl.Emit(Viewport(mip.intWidth, mip.intHeight));
      gl.Emit(AttachColor(mip.texture));
      gl.Emit(BindVertexArray(quadVao));
      gl.Emit(DrawArrays(TRIANGLE_STRIP, 0, 4));
      gl.Emit(BindVertexArray(0));
      gl.Emit(SetVec2("srcResolution"));
      gl.Emit(BindTexture(TEXTURE_2D, mip.texture));
    }

    /** One iteration of the upsample loop: mip i into mip i - 1. */
    method UpsamplePass(mipChain: seq<BloomMip>, i: nat, gl: Context)
      requires 1 <= i < |mipChain|
      modifies gl
      ensures gl.lastName == old(gl.lastName)
      ensures gl.trace == old(gl.trace) + UpPass(mipChain, quadVao, i)
    {
      var mip := mipChain[i];
      var nextMip := mipChain[i - 1];
      gl.Emit(ActiveTexture(0));
      gl.Emit(BindTexture(TEXTURE_2D, mip.texture));
      gl.Emit(Viewport(nextMip.intWidth, nextMip.intHeight));
      gl.Emit(AttachColor(nextMip.texture));
      gl.Emit(BindVertexArray(quadVao));
      gl.Emit(DrawArrays(TRIANGLE_STRIP, 0, 4));
      gl.Emit(BindVertexArray(0));
    }

    /** `bloomTexture`: mip 0's texture, which the last upsample pass writes
        (see RenderReplay). */
    function BloomTexture(): nat
      reads this, fbo
      requires |fbo.mipChain| >= 1
    {
      fbo.mipChain[0].texture
    }

    /** With two mips or more, the last draw a `renderBloomTexture` makes
        writes the texture `bloomTexture` hands out. */
    lemma RenderWritesBloomTexture(s: State, srcTexture: nat)
      requires |fbo.mipChain| >= 2
      ensures var r := Replay(s, RenderEvents(fbo.fbo, downsampleShader, upsampleShader, fbo.mipChain, quadVao,
                                              srcTexture, srcWidth, srcHeight));
        |r.draws| >= 1 && r.draws[|r.draws| - 1].target == BloomTexture()
    {
      RenderReplay(s, fbo.fbo, downsampleShader, upsampleShader, fbo.mipChain, quadVao, srcTexture, srcWidth, srcHeight);
    }
  }
}
