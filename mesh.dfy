/** Mesh: the vertex, index and texture lists of one drawable mesh, and
    `Draw`, which gives texture i texture unit i and names its sampler
    uniform from per-type counters. */
module Meshes {
  import opened Gl
  import Decimal

  datatype Vec2 = Vec2(x: real, y: real)
  datatype Vec3 = Vec3(x: real, y: real, z: real)

  /** `Vertex`: position, normal, texture coordinates and tangent. */
  datatype Vertex = Vertex(position: Vec3, normal: Vec3, texCoords: Vec2, tangent: Vec3)

  /** `Texture`: GL name, type tag ("texture_diffuse", ...) and file name. */
  datatype Texture = Texture(id: nat, typeName: string, name: string)

  const NORMAL := "texture_normal"
  const ALBEDO := "texture_albedo"
  const METALLIC := "texture_metallic"
  const ROUGHNESS := "texture_roughness"
  const AO := "texture_ao"
  const DIFFUSE := "texture_diffuse"
  const SPECULAR := "texture_specular"

  /** The seven type tags are pairwise different. */
  lemma TypeTagsDistinct()
    ensures NORMAL != ALBEDO && NORMAL != METALLIC && NORMAL != ROUGHNESS && NORMAL != AO
    ensures NORMAL != DIFFUSE && NORMAL != SPECULAR
    ensures ALBEDO != METALLIC && ALBEDO != ROUGHNESS && ALBEDO != AO
    ensures METALLIC != ROUGHNESS && METALLIC != AO && ROUGHNESS != AO
    ensures DIFFUSE != SPECULAR
  {
    assert NORMAL[8] == 'n' && ALBEDO[8] == 'a' && METALLIC[8] == 'm' && ROUGHNESS[8] == 'r';
    assert AO[9] == 'o' && ALBEDO[9] == 'l';
    assert DIFFUSE[8] == 'd' && SPECULAR[8] == 's';
  }

  /** Types that Draw numbers in the given shading mode. Normal maps are
      numbered in both modes; every other type only in its own mode. */
  predicate Numbered(isPbr: bool, t: string) {
    || t == NORMAL
    || (isPbr && (t == ALBEDO || t == METALLIC || t == ROUGHNESS || t == AO))
    || (!isPbr && (t == DIFFUSE || t == SPECULAR))
  }

  /** How many textures of type `t` the list holds. */
  function CountType(ts: seq<Texture>, t: string): nat {
    if ts == [] then 0
    else CountType(ts[..|ts| - 1], t) + (if ts[|ts| - 1].typeName == t then 1 else 0)
  }

  /** Counting one more texture changes only the count of its own type. */
  lemma CountTypeStep(ts: seq<Texture>, i: nat)
    requires i < |ts|
    ensures CountType(ts[..i + 1], ts[i].typeName) == CountType(ts[..i], ts[i].typeName) + 1
    ensures forall t :: t != ts[i].typeName ==> CountType(ts[..i + 1], t) == CountType(ts[..i], t)
  {
    assert ts[..i + 1][..i] == ts[..i];
  }

  function MaterialPrefix(isPbr: bool): string {
    if isPbr then "materialPbr." else "material."
  }

  /** The sampler uniform of texture i: the mode's struct prefix, the type,
      and, for a numbered type, its rank among the textures of that type
      (the k-th one gets k); an unnumbered type gets no suffix. */
  function SamplerName(isPbr: bool, ts: seq<Texture>, i: nat): string
    requires i < |ts|
  {
    var t := ts[i].typeName;
    MaterialPrefix(isPbr) + t
    + if Numbered(isPbr, t) then Decimal.NatToString(CountType(ts[..i + 1], t)) else ""
  }

  /** The calls for texture i: activate unit i, point the sampler at unit i,
      bind the texture there. */
  function TextureBinding(isPbr: bool, ts: seq<Texture>, i: nat): seq<Event>
    requires i < |ts|
  {
    [ActiveTexture(i), SetInt(SamplerName(isPbr, ts, i), i), BindTexture(TEXTURE_2D, ts[i].id)]
  }

  /** Bindings of textures 0 .. n-1 in list order. */
  function TextureBindings(isPbr: bool, ts: seq<Texture>, n: nat): seq<Event>
    requires n <= |ts|
  {
    if n == 0 then [] else TextureBindings(isPbr, ts, n - 1) + TextureBinding(isPbr, ts, n - 1)
  }

  /** One more iteration of `Draw`'s loop appends the next binding. */
  lemma TextureBindingsSnoc(isPbr: bool, ts: seq<Texture>, i: nat, name: string,
                            start: seq<Event>, before: seq<Event>, after: seq<Event>)
    requires i < |ts| && name == SamplerName(isPbr, ts, i)
    requires before == start + TextureBindings(isPbr, ts, i)
    requires after == before + [ActiveTexture(i)] + [SetInt(name, i)] + [BindTexture(TEXTURE_2D, ts[i].id)]
    ensures after == start + TextureBindings(isPbr, ts, i + 1)
  {
  }

  function DrawEvents(isPbr: bool, ts: seq<Texture>, vao: nat, count: nat): seq<Event> {
    [SetBool("isPbr", isPbr)] + TextureBindings(isPbr, ts, |ts|)
    + [ActiveTexture(0)] + BoundDraw(vao, DrawElements(TRIANGLES, count))
  }

  /** `Draw`'s calls, as the flag, the loop's bindings and the closing draw. */
  lemma DrawEventsSplit(isPbr: bool, ts: seq<Texture>, vao: nat, count: nat,
                        t0: seq<Event>, start: seq<Event>, bound: seq<Event>, after: seq<Event>)
    requires start == t0 + [SetBool("isPbr", isPbr)]
    requires bound == start + TextureBindings(isPbr, ts, |ts|)
    requires after == bound + [ActiveTexture(0)] + [BindVertexArray(vao)] + [DrawElements(TRIANGLES, count)] + [BindVertexArray(0)]
    ensures after == t0 + DrawEvents(isPbr, ts, vao, count)
  {
  }

  function SetupEvents(vao: nat): seq<Event> {
    [BindVertexArray(vao), BindVertexArray(0)]
  }

  /** Counts only grow along the list. */
  lemma {:induction false} CountTypeMonotone(ts: seq<Texture>, a: nat, b: nat, t: string)
    requires a <= b <= |ts|
    ensures CountType(ts[..a], t) <= CountType(ts[..b], t)
    decreases b - a
  {
    if a < b {
      CountTypeStep(ts, b - 1);
      assert ts[..b - 1 + 1] == ts[..b];
      CountTypeMonotone(ts, a, b - 1, t);
    }
  }

  /** Two different textures of one numbered type never share a sampler
      uniform: the later one has the larger number. */
  lemma SamplerNamesDistinct(isPbr: bool, ts: seq<Texture>, i: nat, j: nat)
    requires i < j < |ts|
    requires ts[i].typeName == ts[j].typeName && Numbered(isPbr, ts[i].typeName)
    ensures SamplerName(isPbr, ts, i) != SamplerName(isPbr, ts, j)
  {
    var t := ts[j].typeName;
    CountTypeMonotone(ts, i + 1, j, t);
    CountTypeStep(ts, j);
    var ki, kj := CountType(ts[..i + 1], t), CountType(ts[..j + 1], t);
    assert ki < kj;
    var p := MaterialPrefix(isPbr) + t;
    if SamplerName(isPbr, ts, i) == SamplerName(isPbr, ts, j) {
      assert (p + Decimal.NatToString(ki))[|p|..] == Decimal.NatToString(ki);
      assert (p + Decimal.NatToString(kj))[|p|..] == Decimal.NatToString(kj);
      Decimal.NatToStringInjective(ki, kj);
    }
  }

  /** Replaying one texture's calls: unit i becomes active, holds the
      texture, and the sampler uniform holds i. */
  lemma BindingReplay(m: State, isPbr: bool, ts: seq<Texture>, i: nat)
    requires i < |ts|
    ensures Replay(m, TextureBinding(isPbr, ts, i))
      == m.(activeUnit := i, bound := m.bound[i := ts[i].id],
            ints := m.ints[SamplerName(isPbr, ts, i) := i])
  {
    var activate, sampler, bind := ActiveTexture(i), SetInt(SamplerName(isPbr, ts, i), i), BindTexture(TEXTURE_2D, ts[i].id);
    ReplayThree(m, activate, sampler, bind);
    var active := m.(activeUnit := i);
    assert Step(m, activate) == active;
    var named := active.(ints := m.ints[SamplerName(isPbr, ts, i) := i]);
    assert Step(active, sampler) == named;
  }

  /** The unit-to-texture bindings after texture i is bound on unit i for
      every i < n, starting from `bound`. */
  function BoundAfter(bound: map<nat, nat>, ts: seq<Texture>, n: nat): map<nat, nat>
    requires n <= |ts|
  {
    if n == 0 then bound else BoundAfter(bound, ts, n - 1)[n - 1 := ts[n - 1].id]
  }

  /** Units below n hold their texture; the other units keep their binding. */
  lemma {:induction false} BoundAfterAt(bound: map<nat, nat>, ts: seq<Texture>, n: nat, u: nat)
    requires n <= |ts|
    ensures u < n ==> u in BoundAfter(bound, ts, n) && BoundAfter(bound, ts, n)[u] == ts[u].id
    ensures n <= u ==> (u in BoundAfter(bound, ts, n) <==> u in bound)
    ensures n <= u && u in bound ==> BoundAfter(bound, ts, n)[u] == bound[u]
  {
    if n > 0 {
      BoundAfterAt(bound, ts, n - 1, u);
    }
  }

  /** Replaying the bindings of textures 0 .. n-1 leaves unit n - 1 active,
      binds texture i on unit i, and draws nothing. */
  lemma {:induction false} BindingsReplay(s: State, isPbr: bool, ts: seq<Texture>, n: nat)
    requires 0 < n <= |ts|
    ensures var r := Replay(s, TextureBindings(isPbr, ts, n));
      r.activeUnit == n - 1 && r.bound == BoundAfter(s.bound, ts, n) && r.draws == s.draws
  {
    var before := TextureBindings(isPbr, ts, n - 1);
    ReplayAppend(s, before, TextureBinding(isPbr, ts, n - 1));
    BindingReplay(Replay(s, before), isPbr, ts, n - 1);
    if n > 1 {
      BindingsReplay(s, isPbr, ts, n - 1);
    }
  }

  /** After a mesh is drawn, texture i sits on unit i, unit 0 is active
      again, and exactly one draw of `count` indices was issued, reading
      whatever is bound on unit 0 into the current target. */
  lemma MeshDrawReplay(s: State, isPbr: bool, ts: seq<Texture>, vao: nat, count: nat)
    ensures var r := Replay(s, DrawEvents(isPbr, ts, vao, count));
      && r.activeUnit == 0 && r.vao == 0
      && (forall i :: 0 <= i < |ts| ==> BoundOn(r, i) == ts[i].id)
      && |r.draws| == |s.draws| + 1 && r.draws[..|s.draws|] == s.draws
      && r.draws[|s.draws|].count == count
  {
    var head := [SetBool("isPbr", isPbr)];
    var binds := TextureBindings(isPbr, ts, |ts|);
    var tail := [ActiveTexture(0)] + BoundDraw(vao, DrawElements(TRIANGLES, count));
    assert DrawEvents(isPbr, ts, vao, count) == head + binds + tail;
    ReplayAppend(s, head + binds, tail);
    ReplayAppend(s, head, binds);
    ReplayOne(s, head[0]);
    var m := Replay(s, head + binds);
    if |ts| > 0 {
      BindingsReplay(Step(s, head[0]), isPbr, ts, |ts|);
    }
    DrawTailReplay(m, vao, count);
    assert m.bound == BoundAfter(s.bound, ts, |ts|);
    forall i | 0 <= i < |ts|
      ensures BoundOn(Replay(m, tail), i) == ts[i].id
    {
      BoundAfterAt(s.bound, ts, |ts|, i);
    }
  }

  /** The closing calls of `Draw`: back to unit 0, one indexed draw, VAO
      unbound; bindings are left as they were. */
  lemma DrawTailReplay(m: State, vao: nat, count: nat)
    ensures var r := Replay(m, [ActiveTexture(0)] + BoundDraw(vao, DrawElements(TRIANGLES, count)));
      && r.activeUnit == 0 && r.vao == 0 && r.bound == m.bound
      && r.draws == m.draws + [Draw(BoundOn(m, 0), Target(m), m.width, m.height, m.blend, count)]
  {
    ReplayAppend(m, [ActiveTexture(0)], BoundDraw(vao, DrawElements(TRIANGLES, count)));
    ReplayOne(m, ActiveTexture(0));
    BoundDrawReplay(Step(m, ActiveTexture(0)), vao, DrawElements(TRIANGLES, count));
  }

  /** The seven counters of `Draw`, one per type tag; each holds the number
      the next texture of its type will get. */
  datatype Counters = Counters(
    albedo: nat, metallic: nat, roughness: nat, ao: nat,
    diffuse: nat, specular: nat, normal: nat)

  /** The counters after the textures `done`: normal maps count in both
      modes, the other types only in their own mode. */
  function CountersAfter(isPbr: bool, done: seq<Texture>): Counters {
    Counters(
      1 + (if isPbr then CountType(done, ALBEDO) else 0),
      1 + (if isPbr then CountType(done, METALLIC) else 0),
      1 + (if isPbr then CountType(done, ROUGHNESS) else 0),
      1 + (if isPbr then CountType(done, AO) else 0),
      1 + (if isPbr then 0 else CountType(done, DIFFUSE)),
      1 + (if isPbr then 0 else CountType(done, SPECULAR)),
      1 + CountType(done, NORMAL))
  }

  /** Counting texture i advances the counter of its type, if the mode
      numbers that type, and no other counter. */
  lemma CountersAfterStep(isPbr: bool, ts: seq<Texture>, i: nat)
    requires i < |ts|
    ensures var before, after, t := CountersAfter(isPbr, ts[..i]), CountersAfter(isPbr, ts[..i + 1]), ts[i].typeName;
      && after.normal == before.normal + (if t == NORMAL then 1 else 0)
      && after.albedo == before.albedo + (if isPbr && t == ALBEDO then 1 else 0)
      && after.metallic == before.metallic + (if isPbr && t == METALLIC then 1 else 0)
      && after.roughness == before.roughness + (if isPbr && t == ROUGHNESS then 1 else 0)
      && after.ao == before.ao + (if isPbr && t == AO then 1 else 0)
      && after.diffuse == before.diffuse + (if !isPbr && t == DIFFUSE then 1 else 0)
      && after.specular == before.specular + (if !isPbr && t == SPECULAR then 1 else 0)
  {
    CountTypeStep(ts, i);
  }

  /** One iteration of `Draw`'s naming: picks the number from the type's
      counter, advances that counter only, and builds the uniform name. */
  method NameSampler(isPbr: bool, name: string, nr: Counters, ghost ts: seq<Texture>, ghost i: nat)
    returns (materialName: string, next: Counters)
    requires i < |ts| && ts[i].typeName == name
    requires nr == CountersAfter(isPbr, ts[..i])
    ensures materialName == SamplerName(isPbr, ts, i)
    ensures next == CountersAfter(isPbr, ts[..i + 1])
  {
    TypeTagsDistinct();
    CountersAfterStep(isPbr, ts, i);
    CountTypeStep(ts, i);
    next := nr;
    var number := "";
    if name == NORMAL {
      number := Decimal.NatToString(next.normal);
      next := next.(normal := next.normal + 1);
    }
    if isPbr {
      if name == ALBEDO {
        number := Decimal.NatToString(next.albedo);
        next := next.(albedo := next.albedo + 1);
      } else if name == METALLIC {
        number := Decimal.NatToString(next.metallic);
        next := next.(metallic := next.metallic + 1);
      } else if name == ROUGHNESS {
        number := Decimal.NatToString(next.roughness);
        next := next.(roughness := next.roughness + 1);
      } else if name == AO {
        number := Decimal.NatToString(next.ao);
        next := next.(ao := next.ao + 1);
      }
      materialName := "materialPbr." + name + number;
    } else {
      if name == DIFFUSE {
        number := Decimal.NatToString(next.diffuse);
        next := next.(diffuse := next.diffuse + 1);
      } else if name == SPECULAR {
        number := Decimal.NatToString(next.specular);
        next := next.(specular := next.specular + 1);
      }
      materialName := "material." + name + number;
    }
  }

  /** A mesh's data never changes after construction. */
  class Mesh {
    const vertices: seq<Vertex>
    const indices: seq<nat>
    const textures: seq<Texture>
    const isPbr: bool
    const vao: nat

    /** Stores the lists and the flag as given, then `setupMesh` generates
        the vertex array and the two buffers and uploads the lists. */
    constructor (vertices: seq<Vertex>, indices: seq<nat>, textures: seq<Texture>, isPbr: bool, gl: Context)
      modifies gl
      ensures this.vertices == vertices && this.indices == indices
      ensures this.textures == textures && this.isPbr == isPbr
      ensures vao == old(gl.lastName) + 1 && gl.lastName == old(gl.lastName) + 3
      ensures gl.trace == old(gl.trace) + SetupEvents(vao)
    {
      this.vertices := vertices;
      this.indices := indices;
      this.textures := textures;
      this.isPbr := isPbr;
      var vertexArray := gl.GenName();
      var vertexBuffer := gl.GenName();
      var elementBuffer := gl.GenName();
      gl.Emit(BindVertexArray(vertexArray));
      gl.Emit(BindVertexArray(0));
      vao := vertexArray;
    }

    /** One iteration of `Draw`'s loop: texture i on unit i, its sampler
        uniform named from the counters and set to i. */
    method BindTextureUnit(i: nat, nr: Counters, gl: Context) returns (next: Counters)
      requires i < |textures| && nr == CountersAfter(isPbr, textures[..i])
      modifies gl
      ensures next == CountersAfter(isPbr, textures[..i + 1])
      ensures gl.lastName == old(gl.lastName)
      ensures gl.trace == old(gl.trace) + [ActiveTexture(i)] + [SetInt(SamplerName(isPbr, textures, i), i)]
                          + [BindTexture(TEXTURE_2D, textures[i].id)]
    {
      gl.Emit(ActiveTexture(i));
      var materialName;
      materialName, next := NameSampler(isPbr, textures[i].typeName, nr, textures, i);
      gl.Emit(SetInt(materialName, i));
      gl.Emit(BindTexture(TEXTURE_2D, textures[i].id));
    }

    /** `Draw`: binds the textures, draws every index and returns how many,
        as the `unsigned int` the size is converted to. */
    method Draw(gl: Context) returns (count: nat)
      modifies gl
      ensures count < UINT_LIMIT && count == |indices| % UINT_LIMIT
      ensures gl.lastName == old(gl.lastName)
      ensures gl.trace == old(gl.trace) + DrawEvents(isPbr, textures, vao, |indices|)
    {
      var nr := Counters(1, 1, 1, 1, 1, 1, 1);
      gl.Emit(SetBool("isPbr", isPbr));
      ghost var start := gl.trace;
      var i := 0;
      while i < |textures|
        invariant 0 <= i <= |textures|
        invariant gl.lastName == old(gl.lastName)
        invariant gl.trace == start + TextureBindings(isPbr, textures, i)
        invariant nr == CountersAfter(isPbr, textures[..i])
      {
        ghost var before := gl.trace;
        nr := BindTextureUnit(i, nr, gl);
        TextureBindingsSnoc(isPbr, textures, i, SamplerName(isPbr, textures, i), start, before, gl.trace);
        i := i + 1;
      }
      ghost var bound := gl.trace;
      gl.Emit(ActiveTexture(0));
      gl.Emit(BindVertexArray(vao));
      gl.Emit(DrawElements(TRIANGLES, |indices|));
      gl.Emit(BindVertexArray(0));
      DrawEventsSplit(isPbr, textures, vao, |indices|, old(gl.trace), start, bound, gl.trace);
      count := |indices| % UINT_LIMIT;
    }
  }
}
