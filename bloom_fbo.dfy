/** BloomFBO: one framebuffer and a chain of ever smaller mip textures,
    built once by `Init` and torn down by `Destroy`. */
module BloomFbo {
  import opened Gl

  const INT_MAX: nat := 0x7FFF_FFFF

  /** One mip: its integer size and its texture (`size`, the float copy of
      the size, is not modelled). */
  datatype BloomMip = BloomMip(intWidth: int, intHeight: int, texture: nat)

  function Pow2(n: nat): (p: nat)
    ensures p >= 1
  {
    if n == 0 then 1 else 2 * Pow2(n - 1)
  }

  /** A side halved by integer division n times. */
  function Halved(side: nat, n: nat): nat {
    if n == 0 then side else Halved(side, n - 1) / 2
  }

  /** Side of mip i: the window side halved i + 1 times. */
  function MipSide(side: nat, i: nat): nat {
    Halved(side, i + 1)
  }

  lemma {:induction false} MulAtLeast(d: nat, k: nat)
    requires k >= 1
    ensures d * k >= d
    decreases k
  {
    if k > 1 {
      MulAtLeast(d, k - 1);
      assert d * k == d * (k - 1) + d;
    }
  }

  /** Euclidean division is determined by quotient and remainder bounds. */
  lemma DivUnique(a: int, d: int, q: int, r: int)
    requires d > 0 && a == d * q + r && 0 <= r < d
    ensures a / d == q
  {
    var q', r' := a / d, a % d;
    assert a == d * q' + r';
    if q > q' {
      assert d * q - d * q' == d * (q - q');
      MulAtLeast(d, q - q');
    } else if q < q' {
      assert d * q' - d * q == d * (q' - q);
      MulAtLeast(d, q' - q);
    }
  }

  /** Halving a quotient by 2^i gives the quotient by 2^(i+1): the loop's
      repeated `/= 2` computes MipSide. */
  lemma HalveQuotient(side: nat, i: nat)
    ensures (side / Pow2(i)) / 2 == side / Pow2(i + 1)
  {
    var d := Pow2(i);
    var q, r := side / d, side % d;
    var t, u := q / 2, q % 2;
    assert side == d * q + r;
    assert q == 2 * t + u;
    assert side == (2 * d) * t + (d * u + r) by {
      calc {
        side;
        d * q + r;
        d * (2 * t + u) + r;
        (2 * d) * t + (d * u + r);
      }
    }
    assert d * u + r < 2 * d by {
      assert u <= 1;
      assert d * u <= d;
    }
    DivUnique(side, 2 * d, t, d * u + r);
  }

  /** Halving n times is dividing by 2^n, so mip i has side
      side div 2^(i+1). */
  lemma {:induction false} HalvedIsQuotient(side: nat, n: nat)
    ensures Halved(side, n) == side / Pow2(n)
  {
    if n > 0 {
      HalvedIsQuotient(side, n - 1);
      HalveQuotient(side, n - 1);
    }
  }

  lemma MipSideIsQuotient(side: nat, i: nat)
    ensures MipSide(side, i) == side / Pow2(i + 1)
  {
    HalvedIsQuotient(side, i + 1);
  }

  /** Sizes never grow along the chain. */
  lemma {:induction false} MipSideMonotone(side: nat, i: nat, j: nat)
    requires i <= j
    ensures MipSide(side, j) <= MipSide(side, i)
    decreases j - i
  {
    if i < j {
      MipSideMonotone(side, i, j - 1);
    }
  }

  /** The n mips one `Init` appends for a width x height window, their
      textures named base, base + 1, ... in creation order. */
  function NewChain(width: nat, height: nat, n: nat, base: nat): (c: seq<BloomMip>)
    ensures |c| == n
  {
    seq(n, i requires 0 <= i < n => BloomMip(MipSide(width, i), MipSide(height, i), base + i))
  }

  /** The texture calls for the mips of a chain, in chain order. */
  function MipUploads(chain: seq<BloomMip>): seq<Event> {
    if chain == [] then []
    else
      var m := chain[|chain| - 1];
      MipUploads(chain[..|chain| - 1])
      + [BindTexture(TEXTURE_2D, m.texture), TexImage(TEXTURE_2D, R11F_G11F_B10F, m.intWidth, m.intHeight, RGB)]
  }

  /** One more loop iteration appends mip n to the chain and its calls to
      the uploads. */
  lemma NewChainSnoc(width: nat, height: nat, n: nat, base: nat)
    ensures NewChain(width, height, n + 1, base)
         == NewChain(width, height, n, base) + [BloomMip(MipSide(width, n), MipSide(height, n), base + n)]
    ensures MipUploads(NewChain(width, height, n + 1, base))
         == MipUploads(NewChain(width, height, n, base))
            + [BindTexture(TEXTURE_2D, base + n), TexImage(TEXTURE_2D, R11F_G11F_B10F, MipSide(width, n), MipSide(height, n), RGB)]
  {
    var next := NewChain(width, height, n + 1, base);
    assert next[..n] == NewChain(width, height, n, base);
  }

  /** The chain with every texture handle zeroed and every size kept. */
  function Destroyed(chain: seq<BloomMip>): (c: seq<BloomMip>)
    ensures |c| == |chain|
  {
    seq(|chain|, k requires 0 <= k < |chain| => chain[k].(texture := 0))
  }

  function TextureDeletes(chain: seq<BloomMip>): seq<Event> {
    if chain == [] then [] else TextureDeletes(chain[..|chain| - 1]) + [DeleteTexture(chain[|chain| - 1].texture)]
  }

  /** After `Destroy`, a new `Init` keeps the zeroed chain and appends its
      own, so the texture it attaches (mip 0 of the whole chain) is the
      zeroed handle 0, not one of the textures it has just created. */
  lemma ReinitAttachesZeroedTexture(chain: seq<BloomMip>, width: nat, height: nat, n: nat, base: nat)
    requires |chain| >= 1 && base >= 1
    ensures |Destroyed(chain) + NewChain(width, height, n, base)| == |chain| + n
    ensures (Destroyed(chain) + NewChain(width, height, n, base))[0].texture == 0
    ensures forall k :: 0 <= k < n ==> NewChain(width, height, n, base)[k].texture != 0
  {
  }

  class BloomFBO {
    var initialized: bool
    var fbo: nat
    var mipChain: seq<BloomMip>

    constructor ()
      ensures !initialized && fbo == 0 && mipChain == []
    {
      initialized := false;
      fbo := 0;
      mipChain := [];
    }

    /** `init`: nothing happens when already initialised. Otherwise a
        framebuffer is generated and bound first; a side above INT_MAX
        stops there with false. Then `mipChainLength` mips are appended
        (the chain is not cleared first), mip 0 of the chain is attached,
        the framebuffer is unbound, and the result is whether `status`
        reports a complete framebuffer. */
    method Init(windowWidth: nat, windowHeight: nat, mipChainLength: nat, status: nat, gl: Context)
      returns (ok: bool)
      requires windowWidth < UINT_LIMIT && windowHeight < UINT_LIMIT && mipChainLength < UINT_LIMIT
      requires initialized || windowWidth > INT_MAX || windowHeight > INT_MAX || |mipChain| + mipChainLength >= 1
      modifies this, gl
      ensures old(initialized) ==>
        ok && initialized && fbo == old(fbo) && mipChain == old(mipChain)
        && gl.trace == old(gl.trace) && gl.lastName == old(gl.lastName)
      ensures !old(initialized) ==> fbo == old(gl.lastName) + 1
      ensures !old(initialized) && (windowWidth > INT_MAX || windowHeight > INT_MAX) ==>
        !ok && !initialized && mipChain == old(mipChain)
        && gl.lastName == fbo && gl.trace == old(gl.trace) + [BindFramebuffer(fbo)]
      ensures !old(initialized) && windowWidth <= INT_MAX && windowHeight <= INT_MAX ==>
        && mipChain == old(mipChain) + NewChain(windowWidth, windowHeight, mipChainLength, fbo + 1)
        && gl.lastName == fbo + mipChainLength
        && gl.trace == old(gl.trace) + [BindFramebuffer(fbo)]
             + MipUploads(NewChain(windowWidth, windowHeight, mipChainLength, fbo + 1))
             + [AttachColor(mipChain[0].texture), BindFramebuffer(0)]
        && ok == (status == FRAMEBUFFER_COMPLETE) && initialized == ok
    {
      if initialized {
        return true;
      }
      fbo := gl.GenName();
      gl.Emit(BindFramebuffer(fbo));
      if windowWidth > INT_MAX || windowHeight > INT_MAX {
        return false;
      }
      AppendMips(windowWidth, windowHeight, mipChainLength, gl);
      gl.Emit(AttachColor(mipChain[0].texture));
      if status != FRAMEBUFFER_COMPLETE {
        gl.Emit(BindFramebuffer(0));
        return false;
      }
      gl.Emit(BindFramebuffer(0));
      initialized := true;
      return true;
    }

    /** The loop of `init`: each iteration halves the integer size and
        appends a mip of that size with a fresh texture. */
    method AppendMips(windowWidth: nat, windowHeight: nat, mipChainLength: nat, gl: Context)
      modifies this, gl
      ensures mipChain == old(mipChain) + NewChain(windowWidth, windowHeight, mipChainLength, old(gl.lastName) + 1)
      ensures gl.lastName == old(gl.lastName) + mipChainLength
      ensures gl.trace == old(gl.trace) + MipUploads(NewChain(windowWidth, windowHeight, mipChainLength, old(gl.lastName) + 1))
      ensures initialized == old(initialized) && fbo == old(fbo)
    {
      var width: nat, height: nat := windowWidth, windowHeight;
      ghost var base := gl.lastName + 1;
      var i := 0;
      while i < mipChainLength
        invariant i <= mipChainLength
        invariant initialized == old(initialized) && fbo == old(fbo)
        invariant width == Halved(windowWidth, i) && height == Halved(windowHeight, i)
        invariant mipChain == old(mipChain) + NewChain(windowWidth, windowHeight, i, base)
        invariant gl.lastName == base - 1 + i
        invariant gl.trace == old(gl.trace) + MipUploads(NewChain(windowWidth, windowHeight, i, base))
      {
        ghost var chain, trace := mipChain, gl.trace;
        width := width / 2;
        height := height / 2;
        assert width == MipSide(windowWidth, i) && height == MipSide(windowHeight, i);
        PushMip(width, height, gl);
        NewChainSnoc(windowWidth, windowHeight, i, base);
        assert mipChain == chain + [BloomMip(width, height, base + i)];
        assert gl.trace == trace + [BindTexture(TEXTURE_2D, base + i), TexImage(TEXTURE_2D, R11F_G11F_B10F, width, height, RGB)];
        i := i + 1;
      }
    }

    /** One iteration of `init`'s loop after the halving: a new texture of
        the mip's size, appended to the chain. */
    method PushMip(width: nat, height: nat, gl: Context)
      modifies this, gl
      ensures mipChain == old(mipChain) + [BloomMip(width, height, gl.lastName)]
      ensures gl.lastName == old(gl.lastName) + 1
      ensures gl.trace == old(gl.trace)
        + [BindTexture(TEXTURE_2D, gl.lastName), TexImage(TEXTURE_2D, R11F_G11F_B10F, width, height, RGB)]
      ensures initialized == old(initialized) && fbo == old(fbo)
    {
      var texture := gl.GenName();
      gl.Emit(BindTexture(TEXTURE_2D, texture));
      gl.Emit(TexImage(TEXTURE_2D, R11F_G11F_B10F, width, height, RGB));
      mipChain := mipChain + [BloomMip(width, height, texture)];
    }

    /** `destroy`: deletes every mip texture and zeroes its handle in place,
        deletes the framebuffer and zeroes it, and clears the flag; the
        chain keeps its length and sizes. */
    method Destroy(gl: Context)
      modifies this, gl
      ensures mipChain == Destroyed(old(mipChain))
      ensures fbo == 0 && !initialized
      ensures gl.lastName == old(gl.lastName)
      ensures gl.trace == old(gl.trace) + TextureDeletes(old(mipChain)) + [DeleteFramebuffer(old(fbo))]
    {
      var i := 0;
      while i < |mipChain|
        invariant i <= |mipChain| == |old(mipChain)|
        invariant fbo == old(fbo)
        invariant forall k :: 0 <= k < i ==> mipChain[k] == old(mipChain)[k].(texture := 0)
        invariant forall k :: i <= k < |mipChain| ==> mipChain[k] == old(mipChain)[k]
        invariant gl.lastName == old(gl.lastName)
        invariant gl.trace == old(gl.trace) + TextureDeletes(old(mipChain)[..i])
      {
        gl.Emit(DeleteTexture(mipChain[i].texture));
        ghost var done := old(mipChain)[..i + 1];
        assert done[..i] == old(mipChain)[..i];
        mipChain := mipChain[i := mipChain[i].(texture := 0)];
        i := i + 1;
      }
      assert old(mipChain)[..i] == old(mipChain);
      gl.Emit(DeleteFramebuffer(fbo));
      fbo := 0;
      initialized := false;
    }

    /** `bindForWriting`: binds the bloom framebuffer. */
    method BindForWriting(gl: Context)
      modifies gl
      ensures gl.lastName == old(gl.lastName)
      ensures gl.trace == old(gl.trace) + [BindFramebuffer(fbo)]
    {
      gl.Emit(BindFramebuffer(fbo));
    }
  }
}
