/** Host services the FSR driver calls into, as values: GPU resource handles
    and the log of effects (allocations, releases, parameter bindings,
    dispatches and blits) the driver submits, in submission order. */
module Gpu {

  datatype Option<+T> = None | Some(value: T)

  /** A render texture: a unique handle and the size it was created at.
      `randomWrite` is set on the targets that compute kernels write. */
  datatype Texture = Texture(id: nat, width: int, height: int, randomWrite: bool)

  /** A compute buffer of `count` elements of `stride` bytes each. */
  datatype ComputeBuffer = ComputeBuffer(id: nat, count: int, stride: int)

  /** A GPU resource whose lifetime the driver owns. */
  datatype Resource = TextureResource(texture: Texture) | BufferResource(buffer: ComputeBuffer)

  datatype Shader = EASU | RCAS

  /** The vector constants of the EASU shader; only their integer parts are logged. */
  datatype VectorParam = ViewportSize | InputImageSize | OutputSize

  datatype TextureSlot = InputTexture | OutputTexture

  /** What a texture slot is bound to: the frame's source image, or a target
      field of the driver (which may be null). */
  datatype Binding = SourceImage | Target(texture: Option<Texture>)

  /** One host call, as it appears in the effect log. */
  datatype Command =
    | Allocate(resource: Resource)
    | Free(resource: Resource)
    | GetTemporary(temporary: Texture)
    | ReleaseTemporary(released: Option<Texture>)
    | ResizeBuffers(widthScale: real, heightScale: real)
    | SetVector(shader: Shader, param: VectorParam, x: int, y: int)
    | SetParameterBuffer(shader: Shader, kernel: nat, buffer: Option<ComputeBuffer>)
    | SetSharpness(sharpness: real)
    | SetTexture(shader: Shader, kernel: nat, slot: TextureSlot, binding: Binding)
    | Dispatch(shader: Shader, kernel: nat, groupsX: int, groupsY: int, groupsZ: int)
    | Blit(source: Option<Texture>)
    | BlitFullscreenTriangle(source: Option<Texture>, clear: bool, viewWidth: int, viewHeight: int)

  predicate ChangesResources(c: Command) {
    c.Allocate? || c.Free?
  }

  /** No command of `cmds` allocates or frees a resource. */
  predicate Inert(cmds: seq<Command>) {
    forall i | 0 <= i < |cmds| :: !ChangesResources(cmds[i])
  }

  /** The effect of one command on the set of live resources. */
  function Apply(live: set<Resource>, c: Command): set<Resource> {
    match c
    case Allocate(r) => live + {r}
    case Free(r) => live - {r}
    case _ => live
  }

  /** The live set after running `cmds` from the live set `live`. */
  function Run(live: set<Resource>, cmds: seq<Command>): set<Resource>
    decreases |cmds|
  {
    if cmds == [] then live else Apply(Run(live, cmds[..|cmds| - 1]), cmds[|cmds| - 1])
  }

  /** The resources the log has allocated and not freed since. */
  function Live(log: seq<Command>): set<Resource> {
    Run({}, log)
  }

  /** Running two command sequences one after the other is running their concatenation. */
  lemma {:induction false} RunAppend(live: set<Resource>, a: seq<Command>, b: seq<Command>)
    ensures Run(live, a + b) == Run(Run(live, a), b)
  {
    if b == [] {
      assert a + b == a;
    } else {
      var init := b[..|b| - 1];
      assert (a + b)[..|a + b| - 1] == a + init;
      assert (a + b)[|a + b| - 1] == b[|b| - 1];
      RunAppend(live, a, init);
    }
  }

  lemma LiveAppend(log: seq<Command>, cmds: seq<Command>)
    ensures Live(log + cmds) == Run(Live(log), cmds)
  {
    RunAppend({}, log, cmds);
  }

  /** Commands that neither allocate nor free leave the live set alone. */
  lemma {:induction false} RunInert(live: set<Resource>, cmds: seq<Command>)
    requires Inert(cmds)
    ensures Run(live, cmds) == live
  {
    if cmds != [] {
      var init := cmds[..|cmds| - 1];
      assert Inert(init) by {
        forall i | 0 <= i < |init| ensures !ChangesResources(init[i]) {
          assert init[i] == cmds[i];
        }
      }
      RunInert(live, init);
    }
  }

  lemma {:induction false} InertAppend(a: seq<Command>, b: seq<Command>)
    requires Inert(a) && Inert(b)
    ensures Inert(a + b)
  {
    forall i | 0 <= i < |a + b| ensures !ChangesResources((a + b)[i]) {
      if i < |a| {
        assert (a + b)[i] == a[i];
      } else {
        assert (a + b)[i] == b[i - |a|];
      }
    }
  }

  lemma AppendAssoc(x: seq<Command>, a: seq<Command>, b: seq<Command>)
    ensures x + a + b == x + (a + b)
  {
  }

  lemma RunOne(live: set<Resource>, c: Command)
    ensures Run(live, [c]) == Apply(live, c)
  {
    assert [c][..0] == [];
  }

  function AsSet(o: Option<Resource>): set<Resource> {
    if o.Some? then {o.value} else {}
  }

  function TextureHandle(t: Option<Texture>): Option<Resource> {
    if t.Some? then Some(TextureResource(t.value)) else None
  }

  function BufferHandle(b: Option<ComputeBuffer>): Option<Resource> {
    if b.Some? then Some(BufferResource(b.value)) else None
  }

  /** `if (x) x.Release();` / `if (x != null) x.Dispose();`: free the resource when it is not null. */
  function ReleaseIfHeld(o: Option<Resource>): seq<Command> {
    if o.Some? then [Free(o.value)] else []
  }

  lemma RunRelease(live: set<Resource>, o: Option<Resource>)
    ensures Run(live, ReleaseIfHeld(o)) == live - AsSet(o)
  {
    if o.Some? {
      RunOne(live, Free(o.value));
    }
  }

  /** Freeing a held resource and allocating a fresh one in its place
      swaps the two in the live set and keeps everything else. */
  lemma RunReplace(keep: set<Resource>, o: Option<Resource>, r: Resource, rest: set<Resource>)
    requires AsSet(o) !! keep + rest && r !in keep + rest
    ensures Run(keep + (AsSet(o) + rest), ReleaseIfHeld(o) + [Allocate(r)]) == keep + ({r} + rest)
  {
    RunAppend(keep + (AsSet(o) + rest), ReleaseIfHeld(o), [Allocate(r)]);
    RunRelease(keep + (AsSet(o) + rest), o);
    RunOne(keep + rest, Allocate(r));
  }

  /** The GPU services the drivers call, updated in place: the allocator's
      next free handle and the log of every call made so far. */
  class Device {
    var nextId: nat
    var log: seq<Command>

    constructor ()
      ensures nextId == 0 && log == []
    {
      nextId, log := 0, [];
    }

    /** Record one call that allocates nothing. */
    method Submit(c: Command)
      modifies this`log
      ensures log == old(log) + [c]
    {
      log := log + [c];
    }

    /** Free the resource when it is not null. */
    method Release(o: Option<Resource>)
      modifies this`log
      ensures log == old(log) + ReleaseIfHeld(o)
    {
      if o.Some? {
        log := log + [Free(o.value)];
      }
    }

    /** `new RenderTexture(width, height, ...)`, `enableRandomWrite = true`, `Create()`. */
    method CreateTarget(width: int, height: int) returns (t: Texture)
      modifies this
      ensures t == Texture(old(nextId), width, height, true) && nextId == old(nextId) + 1
      ensures log == old(log) + [Allocate(TextureResource(t))]
    {
      t := Texture(nextId, width, height, true);
      nextId := nextId + 1;
      log := log + [Allocate(TextureResource(t))];
    }

    /** `new ComputeBuffer(count, stride)`. */
    method CreateBuffer(count: int, stride: int) returns (b: ComputeBuffer)
      modifies this
      ensures b == ComputeBuffer(old(nextId), count, stride) && nextId == old(nextId) + 1
      ensures log == old(log) + [Allocate(BufferResource(b))]
    {
      b := ComputeBuffer(nextId, count, stride);
      nextId := nextId + 1;
      log := log + [Allocate(BufferResource(b))];
    }

    /** `RenderTexture.GetTemporary(width, height)`: a pooled texture, not random-write. */
    method GetTemporary(width: int, height: int) returns (t: Texture)
      modifies this
      ensures t == Texture(old(nextId), width, height, false) && nextId == old(nextId) + 1
      ensures log == old(log) + [Command.GetTemporary(t)]
    {
      t := Texture(nextId, width, height, false);
      nextId := nextId + 1;
      log := log + [Command.GetTemporary(t)];
    }
  }
}
