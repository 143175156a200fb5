/** The slice of OpenGL the engine drives, reduced to what the model needs:
    the enum values the code passes, a name allocator standing in for the
    glGen* calls, a trace of the calls that change what is drawn, and a
    small replay semantics that says which texture, target and viewport
    each draw call sees. */
module Gl {

  // Enum values as the OpenGL headers define them.
  const TEXTURE_2D: nat := 0x0DE1
  const TEXTURE_CUBE_MAP: nat := 0x8513
  const TEXTURE_CUBE_MAP_POSITIVE_X: nat := 0x8515
  const RED: nat := 0x1903
  const RGB: nat := 0x1907
  const RGBA: nat := 0x1908
  const SRGB: nat := 0x8C40
  const SRGB_ALPHA: nat := 0x8C42
  const RGB16F: nat := 0x881B
  const R11F_G11F_B10F: nat := 0x8C3A
  const TRIANGLES: nat := 0x0004
  const TRIANGLE_STRIP: nat := 0x0005
  const FRAMEBUFFER_COMPLETE: nat := 0x8CD5

  /** Unsigned 32-bit values (GLuint, `unsigned int`) lie below this bound. */
  const UINT_LIMIT: nat := 0x1_0000_0000

  /** One recorded call. Values that are floating point (vectors, matrices,
      radii) are not modelled; only the uniform's name is kept for them. */
  datatype Event =
    | UseProgram(program: nat)
    | SetInt(uniform: string, value: int)
    | SetBool(uniform: string, flag: bool)
    | SetFloat(uniform: string)
    | SetVec2(uniform: string)
    | SetVec3(uniform: string)
    | ActiveTexture(unit: nat)               // glActiveTexture(GL_TEXTURE0 + unit)
    | BindTexture(target: nat, texture: nat)
    | TexImage(target: nat, internalFormat: nat, width: int, height: int, dataFormat: nat)
    | GenerateMipmap(target: nat)
    | BindVertexArray(vao: nat)
    | DrawElements(mode: nat, count: nat)
    | DrawArrays(mode: nat, first: nat, count: nat)
    | BindFramebuffer(framebuffer: nat)
    | AttachColor(texture: nat)              // colour attachment 0 of the bound framebuffer
    | Viewport(width: int, height: int)
    | SetBlend(enabled: bool)                // additive blending on or off
    | ArrayBufferData(floats: seq<real>)     // glBufferData on the bound GL_ARRAY_BUFFER
    | ElementBufferData(indices: seq<nat>)   // glBufferData on the bound GL_ELEMENT_ARRAY_BUFFER
    | AttribPointer(location: nat, size: nat, stride: nat, offset: nat)  // in floats
    | DeleteTexture(texture: nat)
    | DeleteFramebuffer(framebuffer: nat)

  /** The GL context: every call the model cares about lands in `trace`;
      object names are handed out by one counter, so they are positive and
      never reused. */
  class Context {
    var trace: seq<Event>
    var lastName: nat

    constructor ()
      ensures trace == [] && lastName == 0
    {
      trace := [];
      lastName := 0;
    }

    /** glGenTextures / glGenFramebuffers / glGenVertexArrays / glGenBuffers. */
    method GenName() returns (name: nat)
      modifies this
      ensures name == old(lastName) + 1 && lastName == name
      ensures trace == old(trace)
    {
      lastName := lastName + 1;
      name := lastName;
    }

    method Emit(e: Event)
      modifies this
      ensures trace == old(trace) + [e]
      ensures lastName == old(lastName)
    {
      trace := trace + [e];
    }
  }

  /** What one draw call sees: the 2D texture bound on unit 0 (every sampler
      of the bloom shaders reads unit 0), the colour attachment of the bound
      framebuffer, the viewport and whether blending is on. */
  datatype Draw = Draw(source: nat, target: nat, width: int, height: int, blend: bool, count: nat)

  datatype State = State(
    activeUnit: nat,
    bound: map<nat, nat>,        // texture unit -> 2D texture
    framebuffer: nat,
    attached: map<nat, nat>,     // framebuffer -> colour attachment 0
    width: int,
    height: int,
    blend: bool,
    vao: nat,
    ints: map<string, int>,      // integer uniforms set so far
    draws: seq<Draw>)

  function BoundOn(s: State, unit: nat): nat {
    if unit in s.bound then s.bound[unit] else 0
  }

  function Target(s: State): nat {
    if s.framebuffer in s.attached then s.attached[s.framebuffer] else 0
  }

  function Step(s: State, e: Event): State {
    match e
    case ActiveTexture(u) => s.(activeUnit := u)
    case BindTexture(t, x) =>
      if t == TEXTURE_2D then s.(bound := s.bound[s.activeUnit := x]) else s
    case SetInt(n, v) => s.(ints := s.ints[n := v])
    case BindFramebuffer(f) => s.(framebuffer := f)
    case AttachColor(x) => s.(attached := s.attached[s.framebuffer := x])
    case Viewport(w, h) => s.(width := w, height := h)
    case SetBlend(b) => s.(blend := b)
    case BindVertexArray(v) => s.(vao := v)
    case DrawElements(_, c) =>
      s.(draws := s.draws + [Draw(BoundOn(s, 0), Target(s), s.width, s.height, s.blend, c)])
    case DrawArrays(_, _, c) =>
      s.(draws := s.draws + [Draw(BoundOn(s, 0), Target(s), s.width, s.height, s.blend, c)])
    case _ => s
  }

  /** The state after a sequence of calls. */
  function Replay(s: State, es: seq<Event>): State
    decreases |es|
  {
    if es == [] then s else Replay(Step(s, es[0]), es[1..])
  }

  /** Replaying two call sequences one after the other is replaying their concatenation. */
  lemma {:induction false} ReplayAppend(s: State, a: seq<Event>, b: seq<Event>)
    ensures Replay(s, a + b) == Replay(Replay(s, a), b)
    decreases |a|
  {
    if a == [] {
      assert a + b == b;
    } else {
      assert (a + b)[1..] == a[1..] + b;
      ReplayAppend(Step(s, a[0]), a[1..], b);
    }
  }

  /** A draw call with its vertex array bound around it. */
  function BoundDraw(vao: nat, call: Event): seq<Event> {
    [BindVertexArray(vao), call, BindVertexArray(0)]
  }

  /** A bound draw records one draw of the call's vertex count with the
      current texture, target, viewport and blending, and leaves no vertex
      array bound. */
  lemma BoundDrawReplay(m: State, vao: nat, call: Event)
    requires call.DrawElements? || call.DrawArrays?
    ensures Replay(m, BoundDraw(vao, call))
         == m.(vao := 0, draws := m.draws + [Draw(BoundOn(m, 0), Target(m), m.width, m.height, m.blend, call.count)])
  {
    var bind, unbind := BindVertexArray(vao), BindVertexArray(0);
    ReplayThree(m, bind, call, unbind);
    var bound := m.(vao := vao);
    assert Step(m, bind) == bound;
    var drawn := bound.(draws := m.draws + [Draw(BoundOn(m, 0), Target(m), m.width, m.height, m.blend, call.count)]);
    assert Step(bound, call) == drawn;
  }

  lemma ReplayOne(s: State, e: Event)
    ensures Replay(s, [e]) == Step(s, e)
  {
    assert Replay(Step(s, e), []) == Step(s, e);
  }

  lemma ReplayTwo(s: State, a: Event, b: Event)
    ensures Replay(s, [a, b]) == Step(Step(s, a), b)
  {
    assert [a, b][1..] == [b];
    ReplayOne(Step(s, a), b);
  }

  lemma ReplayThree(s: State, a: Event, b: Event, c: Event)
    ensures Replay(s, [a, b, c]) == Step(Step(Step(s, a), b), c)
  {
    assert [a, b, c][1..] == [b, c];
    ReplayTwo(Step(s, a), b, c);
  }

  lemma ReplayFour(s: State, a: Event, b: Event, c: Event, d: Event)
    ensures Replay(s, [a, b, c, d]) == Step(Step(Step(Step(s, a), b), c), d)
  {
    assert [a, b, c, d][1..] == [b, c, d];
    ReplayThree(Step(s, a), b, c, d);
  }
}
