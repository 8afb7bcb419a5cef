/** The GPU resources both FSR drivers own: two random-write targets (the
    EASU output and the RCAS output) and two parameter buffers, with the
    three things the drivers do to them: create the buffers, recreate the
    targets at a new size, and release everything. */
module FsrResources {
  import opened Gpu
  import opened FsrPasses

  /** The four resource fields of a driver and the allocator's next free handle. */
  datatype Resources = Resources(
    outputImage: Option<Texture>, outputImage2: Option<Texture>,
    easuParameters: Option<ComputeBuffer>, rcasParameters: Option<ComputeBuffer>,
    nextId: nat)

  function NoResources(): Resources {
    Resources(None, None, None, None, 0)
  }

  function HeldBuffers(r: Resources): set<Resource> {
    AsSet(BufferHandle(r.easuParameters)) + AsSet(BufferHandle(r.rcasParameters))
  }

  /** The resources the fields hold. */
  function Owned(r: Resources): set<Resource> {
    AsSet(TextureHandle(r.outputImage)) + (AsSet(TextureHandle(r.outputImage2)) + HeldBuffers(r))
  }

  predicate TextureBelow(t: Option<Texture>, n: nat) {
    t.Some? ==> t.value.id < n
  }

  predicate BufferBelow(b: Option<ComputeBuffer>, n: nat) {
    b.Some? ==> b.value.id < n
  }

  /** Every handle a field holds is below the next free one, and the two
      targets, and the two buffers, are distinct. */
  predicate Handles(r: Resources) {
    && TextureBelow(r.outputImage, r.nextId) && TextureBelow(r.outputImage2, r.nextId)
    && BufferBelow(r.easuParameters, r.nextId) && BufferBelow(r.rcasParameters, r.nextId)
    && (r.outputImage.Some? && r.outputImage2.Some? ==> r.outputImage.value.id != r.outputImage2.value.id)
    && (r.easuParameters.Some? && r.rcasParameters.Some? ==> r.easuParameters.value.id != r.rcasParameters.value.id)
  }

  /** A resource whose handle is the next free one or above is held by no field. */
  lemma FreshNotOwned(r: Resources, x: Resource)
    requires Handles(r)
    requires x.TextureResource? ==> x.texture.id >= r.nextId
    requires x.BufferResource? ==> x.buffer.id >= r.nextId
    ensures x !in Owned(r)
  {
  }

  // Parameter buffers

  /** The EASU buffer of 4 and the RCAS buffer of 1 elements of 16 bytes, under the next two handles. */
  function ParameterBuffers(r: Resources): Resources {
    r.(easuParameters := Some(ComputeBuffer(r.nextId, EasuParameterCount, ParameterStride)),
       rcasParameters := Some(ComputeBuffer(r.nextId + 1, RcasParameterCount, ParameterStride)),
       nextId := r.nextId + 2)
  }

  function ParameterBufferCommands(r: Resources): seq<Command> {
    [ Allocate(BufferResource(ComputeBuffer(r.nextId, EasuParameterCount, ParameterStride))),
      Allocate(BufferResource(ComputeBuffer(r.nextId + 1, RcasParameterCount, ParameterStride))) ]
  }

  /** Creating the buffers adds exactly the two new buffers to the live set. */
  lemma ParameterBuffersAdded(live: set<Resource>, r: Resources)
    ensures Run(live, ParameterBufferCommands(r))
            == live + {BufferResource(ParameterBuffers(r).easuParameters.value),
                       BufferResource(ParameterBuffers(r).rcasParameters.value)}
  {
    var c := ParameterBufferCommands(r);
    RunAppend(live, [c[0]], [c[1]]);
    assert [c[0]] + [c[1]] == c;
    RunOne(live, c[0]);
    RunOne(live + {c[0].resource}, c[1]);
  }

  /** On null buffer fields the new buffers become exactly what the fields
      hold, fresh, of 4 x 16 and 1 x 16 bytes. */
  lemma ParameterBuffersAccounted(r: Resources)
    requires Handles(r) && r.easuParameters.None? && r.rcasParameters.None?
    ensures var n := ParameterBuffers(r);
            && Run(Owned(r), ParameterBufferCommands(r)) == Owned(n)
            && Handles(n)
            && n.easuParameters.value.count == 4 && n.easuParameters.value.stride == 16
            && n.rcasParameters.value.count == 1 && n.rcasParameters.value.stride == 16
            && BufferResource(n.easuParameters.value) !in Owned(r)
            && BufferResource(n.rcasParameters.value) !in Owned(r)
  {
    ParameterBuffersAdded(Owned(r), r);
  }

  /** Creating the buffers over held ones overwrites the fields without
      freeing: the old EASU buffer stays live but no field holds it. */
  lemma ParameterBuffersLeak(live: set<Resource>, r: Resources)
    requires Handles(r) && r.easuParameters.Some? && BufferResource(r.easuParameters.value) in live
    ensures BufferResource(r.easuParameters.value) in Run(live, ParameterBufferCommands(r))
    ensures BufferResource(r.easuParameters.value) !in Owned(ParameterBuffers(r))
  {
    ParameterBuffersAdded(live, r);
  }

  // Targets

  /** A new random-write target. */
  function NewTarget(id: nat, width: int, height: int): Texture {
    Texture(id, width, height, true)
  }

  /** Release and recreate the first target and, when sharpening, the second one. */
  function RecreateCommands(r: Resources, width: int, height: int, sharpening: bool): seq<Command> {
    ReleaseIfHeld(TextureHandle(r.outputImage)) + [Allocate(TextureResource(NewTarget(r.nextId, width, height)))]
    + if sharpening then
        ReleaseIfHeld(TextureHandle(r.outputImage2)) + [Allocate(TextureResource(NewTarget(r.nextId + 1, width, height)))]
      else []
  }

  /** The fields once the targets are recreated. */
  function Recreated(r: Resources, width: int, height: int, sharpening: bool): Resources {
    r.(outputImage := Some(NewTarget(r.nextId, width, height)),
       outputImage2 := if sharpening then Some(NewTarget(r.nextId + 1, width, height)) else r.outputImage2,
       nextId := r.nextId + if sharpening then 2 else 1)
  }

  /** Recreating the first target swaps the old one for the new one among the held resources. */
  lemma FirstTargetSwap(r: Resources, width: int, height: int)
    requires Handles(r)
    ensures Run(Owned(r), ReleaseIfHeld(TextureHandle(r.outputImage)) + [Allocate(TextureResource(NewTarget(r.nextId, width, height)))])
            == {TextureResource(NewTarget(r.nextId, width, height))} + (AsSet(TextureHandle(r.outputImage2)) + HeldBuffers(r))
  {
    var created := TextureResource(NewTarget(r.nextId, width, height));
    var rest := AsSet(TextureHandle(r.outputImage2)) + HeldBuffers(r);
    assert Owned(r) == {} + (AsSet(TextureHandle(r.outputImage)) + rest);
    assert {} + ({created} + rest) == {created} + rest;
    RunReplace({}, TextureHandle(r.outputImage), created, rest);
  }

  /** Recreating the second target after the first swaps it in turn. */
  lemma SecondTargetSwap(r: Resources, width: int, height: int)
    requires Handles(r)
    ensures Run({TextureResource(NewTarget(r.nextId, width, height))} + (AsSet(TextureHandle(r.outputImage2)) + HeldBuffers(r)),
                ReleaseIfHeld(TextureHandle(r.outputImage2)) + [Allocate(TextureResource(NewTarget(r.nextId + 1, width, height)))])
            == {TextureResource(NewTarget(r.nextId, width, height))}
               + ({TextureResource(NewTarget(r.nextId + 1, width, height))} + HeldBuffers(r))
  {
    RunReplace({TextureResource(NewTarget(r.nextId, width, height))}, TextureHandle(r.outputImage2),
               TextureResource(NewTarget(r.nextId + 1, width, height)), HeldBuffers(r));
  }

  /** Recreating the targets frees the old ones and makes the new ones
      exactly what the fields hold, with the handles kept apart. */
  lemma RecreateAccounted(r: Resources, width: int, height: int, sharpening: bool)
    requires Handles(r)
    ensures Run(Owned(r), RecreateCommands(r, width, height, sharpening)) == Owned(Recreated(r, width, height, sharpening))
    ensures Handles(Recreated(r, width, height, sharpening))
  {
    var first := ReleaseIfHeld(TextureHandle(r.outputImage)) + [Allocate(TextureResource(NewTarget(r.nextId, width, height)))];
    FirstTargetSwap(r, width, height);
    if sharpening {
      var second := ReleaseIfHeld(TextureHandle(r.outputImage2)) + [Allocate(TextureResource(NewTarget(r.nextId + 1, width, height)))];
      assert RecreateCommands(r, width, height, sharpening) == first + second;
      RunAppend(Owned(r), first, second);
      SecondTargetSwap(r, width, height);
    } else {
      assert RecreateCommands(r, width, height, sharpening) == first;
    }
  }

  /** Where in the commands the old first target is freed and its replacement created. */
  lemma RecreateOrder(r: Resources, width: int, height: int, sharpening: bool)
    ensures var c := RecreateCommands(r, width, height, sharpening);
            var k := |ReleaseIfHeld(TextureHandle(r.outputImage))|;
            && |c| > k
            && (r.outputImage.Some? ==> k == 1 && c[0] == Free(TextureResource(r.outputImage.value)))
            && c[k] == Allocate(TextureResource(Recreated(r, width, height, sharpening).outputImage.value))
  {
  }

  /** Recreating the targets only allocates and frees. */
  lemma RecreateOnlyChangesResources(r: Resources, width: int, height: int, sharpening: bool)
    ensures var c := RecreateCommands(r, width, height, sharpening);
            forall i | 0 <= i < |c| :: ChangesResources(c[i])
  {
    var c := RecreateCommands(r, width, height, sharpening);
    var first := ReleaseIfHeld(TextureHandle(r.outputImage)) + [Allocate(TextureResource(NewTarget(r.nextId, width, height)))];
    var second := if sharpening then
                    ReleaseIfHeld(TextureHandle(r.outputImage2)) + [Allocate(TextureResource(NewTarget(r.nextId + 1, width, height)))]
                  else [];
    assert c == first + second;
    assert forall i | 0 <= i < |first| :: ChangesResources(first[i]);
    assert forall i | 0 <= i < |second| :: ChangesResources(second[i]);
    forall i | 0 <= i < |c| ensures ChangesResources(c[i]) {
      if i < |first| {
        assert c[i] == first[i];
      } else {
        assert c[i] == second[i - |first|];
      }
    }
  }

  /** The log a driver builds when it recreates the targets one call at a time. */
  lemma RecreateLog(r: Resources, width: int, height: int, sharpening: bool,
                    before: seq<Command>, first: seq<Command>, last: seq<Command>)
    requires first == before + ReleaseIfHeld(TextureHandle(r.outputImage))
                      + [Allocate(TextureResource(NewTarget(r.nextId, width, height)))]
    requires last == if sharpening then first + ReleaseIfHeld(TextureHandle(r.outputImage2))
                                              + [Allocate(TextureResource(NewTarget(r.nextId + 1, width, height)))]
                     else first
    ensures last == before + RecreateCommands(r, width, height, sharpening)
  {
    var a := ReleaseIfHeld(TextureHandle(r.outputImage)) + [Allocate(TextureResource(NewTarget(r.nextId, width, height)))];
    AppendAssoc(before, ReleaseIfHeld(TextureHandle(r.outputImage)), [Allocate(TextureResource(NewTarget(r.nextId, width, height)))]);
    if sharpening {
      var b := ReleaseIfHeld(TextureHandle(r.outputImage2)) + [Allocate(TextureResource(NewTarget(r.nextId + 1, width, height)))];
      AppendAssoc(first, ReleaseIfHeld(TextureHandle(r.outputImage2)), [Allocate(TextureResource(NewTarget(r.nextId + 1, width, height)))]);
      AppendAssoc(before, a, b);
    } else {
      assert RecreateCommands(r, width, height, sharpening) == a + [];
    }
  }

  // Release

  /** Free each resource that is not null: first target, EASU buffer, second target, RCAS buffer. */
  function ReleaseAllCommands(r: Resources): seq<Command> {
    ReleaseIfHeld(TextureHandle(r.outputImage)) + ReleaseIfHeld(BufferHandle(r.easuParameters))
    + ReleaseIfHeld(TextureHandle(r.outputImage2)) + ReleaseIfHeld(BufferHandle(r.rcasParameters))
  }

  /** Every resource field nulled; the allocator is untouched. */
  function ReleasedAll(r: Resources): Resources {
    r.(outputImage := None, outputImage2 := None, easuParameters := None, rcasParameters := None)
  }

  /** Releasing everything leaves nothing live, whatever the fields held. */
  lemma ReleaseAllAccounted(r: Resources)
    ensures Run(Owned(r), ReleaseAllCommands(r)) == {}
    ensures Owned(ReleasedAll(r)) == {} && Handles(ReleasedAll(r))
  {
    var o1 := TextureHandle(r.outputImage);
    var b1 := BufferHandle(r.easuParameters);
    var o2 := TextureHandle(r.outputImage2);
    var b2 := BufferHandle(r.rcasParameters);
    var a, b, c, d := ReleaseIfHeld(o1), ReleaseIfHeld(b1), ReleaseIfHeld(o2), ReleaseIfHeld(b2);
    var l0 := Owned(r);
    RunAppend(l0, a + b + c, d);
    RunAppend(l0, a + b, c);
    RunAppend(l0, a, b);
    RunRelease(l0, o1);
    var l1 := l0 - AsSet(o1);
    RunRelease(l1, b1);
    var l2 := l1 - AsSet(b1);
    RunRelease(l2, o2);
    var l3 := l2 - AsSet(o2);
    RunRelease(l3, b2);
    assert l3 - AsSet(b2) == {};
  }

  /** The log a driver builds when it releases the four fields one call at a time. */
  lemma ReleaseAllLog(r: Resources, before: seq<Command>,
                      l1: seq<Command>, l2: seq<Command>, l3: seq<Command>, l4: seq<Command>)
    requires l1 == before + ReleaseIfHeld(TextureHandle(r.outputImage))
    requires l2 == l1 + ReleaseIfHeld(BufferHandle(r.easuParameters))
    requires l3 == l2 + ReleaseIfHeld(TextureHandle(r.outputImage2))
    requires l4 == l3 + ReleaseIfHeld(BufferHandle(r.rcasParameters))
    ensures l4 == before + ReleaseAllCommands(r)
  {
    var a := ReleaseIfHeld(TextureHandle(r.outputImage));
    var b := ReleaseIfHeld(BufferHandle(r.easuParameters));
    var c := ReleaseIfHeld(TextureHandle(r.outputImage2));
    var d := ReleaseIfHeld(BufferHandle(r.rcasParameters));
    AppendAssoc(before, a, b);
    AppendAssoc(before, a + b, c);
    AppendAssoc(before, a + b + c, d);
  }

  /** Releasing twice frees nothing the second time. */
  lemma ReleaseAllIdempotent(r: Resources)
    ensures ReleasedAll(ReleasedAll(r)) == ReleasedAll(r)
    ensures ReleaseAllCommands(ReleasedAll(r)) == []
  {
  }
}
