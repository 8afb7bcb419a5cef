/** The per-frame command stream both FSR drivers submit after any
    reallocation: EASU init, EASU main, and optionally RCAS init and RCAS
    main. The packing of the parameters happens on the GPU, in the init
    kernels; the host only binds constants and buffers and dispatches. */
module FsrPasses {
  import opened Gpu
  import opened DispatchPlanner

  /** Kernel 1 of each shader packs its parameter buffer; kernel 0 applies the algorithm. */
  const InitKernel: nat := 1
  const MainKernel: nat := 0

  /** The parameter buffers: 4 and 1 elements of `sizeof(uint) * 4` bytes. */
  const EasuParameterCount: int := 4
  const RcasParameterCount: int := 1
  const ParameterStride: int := 4 * 4

  /** EASU init: viewport, input and output sizes, the parameter buffer, then a 1x1x1 dispatch. */
  function EasuInit(viewWidth: int, viewHeight: int, inputWidth: int, inputHeight: int,
                    target: Texture, parameters: Option<ComputeBuffer>): seq<Command>
  {
    [ SetVector(EASU, ViewportSize, viewWidth, viewHeight),
      SetVector(EASU, InputImageSize, inputWidth, inputHeight),
      SetVector(EASU, OutputSize, target.width, target.height),
      SetParameterBuffer(EASU, InitKernel, parameters) ]
    + [Dispatch(EASU, InitKernel, 1, 1, 1)]
  }

  /** EASU main: the frame's source in, the first target out, one group per 8x8 tile of the target. */
  function EasuMain(target: Texture, parameters: Option<ComputeBuffer>): seq<Command> {
    [ SetTexture(EASU, MainKernel, InputTexture, SourceImage),
      SetTexture(EASU, MainKernel, OutputTexture, Target(Some(target))),
      SetParameterBuffer(EASU, MainKernel, parameters) ]
    + [Dispatch(EASU, MainKernel, GroupCount(target.width), GroupCount(target.height), 1)]
  }

  /** RCAS init: the parameter buffer and the sharpness scalar, then a 1x1x1 dispatch. */
  function RcasInit(parameters: Option<ComputeBuffer>, sharpness: real): seq<Command> {
    [ SetParameterBuffer(RCAS, InitKernel, parameters),
      SetSharpness(sharpness) ]
    + [Dispatch(RCAS, InitKernel, 1, 1, 1)]
  }

  /** RCAS main: the first target in, the second target out, with EASU main's group counts. */
  function RcasMain(target: Texture, target2: Option<Texture>, parameters: Option<ComputeBuffer>): seq<Command> {
    [ SetParameterBuffer(RCAS, MainKernel, parameters),
      SetTexture(RCAS, MainKernel, InputTexture, Target(Some(target))),
      SetTexture(RCAS, MainKernel, OutputTexture, Target(target2)) ]
    + [Dispatch(RCAS, MainKernel, GroupCount(target.width), GroupCount(target.height), 1)]
  }

  /** Everything a frame submits between the reallocation and the blit. */
  function Passes(viewWidth: int, viewHeight: int, inputWidth: int, inputHeight: int,
                  target: Texture, target2: Option<Texture>,
                  easuParameters: Option<ComputeBuffer>, rcasParameters: Option<ComputeBuffer>,
                  sharpening: bool, sharpness: real): seq<Command>
  {
    EasuInit(viewWidth, viewHeight, inputWidth, inputHeight, target, easuParameters)
    + EasuMain(target, easuParameters)
    + (if sharpening then RcasInit(rcasParameters, sharpness) + RcasMain(target, target2, rcasParameters) else [])
  }

  /** The dispatches a frame must submit, in order: EASU init 1x1x1, EASU main
      over the tiles, and when sharpening RCAS init 1x1x1 and RCAS main over
      the same tiles. */
  function KernelSchedule(groupsX: int, groupsY: int, sharpening: bool): seq<Command> {
    [Dispatch(EASU, InitKernel, 1, 1, 1), Dispatch(EASU, MainKernel, groupsX, groupsY, 1)]
    + if sharpening then [Dispatch(RCAS, InitKernel, 1, 1, 1), Dispatch(RCAS, MainKernel, groupsX, groupsY, 1)] else []
  }

  /** The dispatch commands of a log, in submission order. */
  function Dispatches(cmds: seq<Command>): seq<Command>
    decreases |cmds|
  {
    if cmds == [] then []
    else Dispatches(cmds[..|cmds| - 1]) + (if cmds[|cmds| - 1].Dispatch? then [cmds[|cmds| - 1]] else [])
  }

  lemma {:induction false} DispatchesAppend(a: seq<Command>, b: seq<Command>)
    ensures Dispatches(a + b) == Dispatches(a) + Dispatches(b)
  {
    if b == [] {
      assert a + b == a;
    } else {
      var init := b[..|b| - 1];
      assert (a + b)[..|a + b| - 1] == a + init;
      assert (a + b)[|a + b| - 1] == b[|b| - 1];
      DispatchesAppend(a, init);
    }
  }

  /** No command of `cmds` is a dispatch. */
  predicate NoDispatch(cmds: seq<Command>) {
    forall i | 0 <= i < |cmds| :: !cmds[i].Dispatch?
  }

  /** A stream without dispatches projects to nothing. */
  lemma {:induction false} NoDispatches(cmds: seq<Command>)
    requires NoDispatch(cmds)
    ensures Dispatches(cmds) == []
  {
    if cmds != [] {
      var init := cmds[..|cmds| - 1];
      assert forall i | 0 <= i < |init| :: init[i] == cmds[i];
      NoDispatches(init);
    }
  }

  /** A stage is some bindings and then one dispatch. */
  lemma StageDispatches(bindings: seq<Command>, d: Command)
    requires NoDispatch(bindings)
    requires d.Dispatch?
    ensures Dispatches(bindings + [d]) == [d]
  {
    NoDispatches(bindings);
    DispatchesAppend(bindings, [d]);
    assert [d][..0] == [];
  }

  /** Each stage dispatches its own kernel once, last, and allocates nothing. */
  lemma EasuInitStage(viewWidth: int, viewHeight: int, inputWidth: int, inputHeight: int,
                      target: Texture, parameters: Option<ComputeBuffer>)
    ensures Dispatches(EasuInit(viewWidth, viewHeight, inputWidth, inputHeight, target, parameters))
            == [Dispatch(EASU, InitKernel, 1, 1, 1)]
    ensures Inert(EasuInit(viewWidth, viewHeight, inputWidth, inputHeight, target, parameters))
  {
    var c := EasuInit(viewWidth, viewHeight, inputWidth, inputHeight, target, parameters);
    assert c == c[..4] + [c[4]];
    StageDispatches(c[..4], c[4]);
  }

  lemma EasuMainStage(target: Texture, parameters: Option<ComputeBuffer>)
    ensures Dispatches(EasuMain(target, parameters))
            == [Dispatch(EASU, MainKernel, GroupCount(target.width), GroupCount(target.height), 1)]
    ensures Inert(EasuMain(target, parameters))
  {
    var c := EasuMain(target, parameters);
    assert c == c[..3] + [c[3]];
    StageDispatches(c[..3], c[3]);
  }

  lemma RcasInitStage(parameters: Option<ComputeBuffer>, sharpness: real)
    ensures Dispatches(RcasInit(parameters, sharpness)) == [Dispatch(RCAS, InitKernel, 1, 1, 1)]
    ensures Inert(RcasInit(parameters, sharpness))
  {
    var c := RcasInit(parameters, sharpness);
    assert c == c[..2] + [c[2]];
    StageDispatches(c[..2], c[2]);
  }

  lemma RcasMainStage(target: Texture, target2: Option<Texture>, parameters: Option<ComputeBuffer>)
    ensures Dispatches(RcasMain(target, target2, parameters))
            == [Dispatch(RCAS, MainKernel, GroupCount(target.width), GroupCount(target.height), 1)]
    ensures Inert(RcasMain(target, target2, parameters))
  {
    var c := RcasMain(target, target2, parameters);
    assert c == c[..3] + [c[3]];
    StageDispatches(c[..3], c[3]);
  }

  /** The passes submit exactly the kernel schedule, sized by the first
      target, and neither allocate nor free anything. */
  lemma PassesSchedule(viewWidth: int, viewHeight: int, inputWidth: int, inputHeight: int,
                       target: Texture, target2: Option<Texture>,
                       easuParameters: Option<ComputeBuffer>, rcasParameters: Option<ComputeBuffer>,
                       sharpening: bool, sharpness: real)
    ensures Dispatches(Passes(viewWidth, viewHeight, inputWidth, inputHeight, target, target2,
                              easuParameters, rcasParameters, sharpening, sharpness))
            == KernelSchedule(GroupCount(target.width), GroupCount(target.height), sharpening)
    ensures Inert(Passes(viewWidth, viewHeight, inputWidth, inputHeight, target, target2,
                         easuParameters, rcasParameters, sharpening, sharpness))
  {
    var e1 := EasuInit(viewWidth, viewHeight, inputWidth, inputHeight, target, easuParameters);
    var e2 := EasuMain(target, easuParameters);
    var r1 := RcasInit(rcasParameters, sharpness);
    var r2 := RcasMain(target, target2, rcasParameters);
    EasuInitStage(viewWidth, viewHeight, inputWidth, inputHeight, target, easuParameters);
    EasuMainStage(target, easuParameters);
    RcasInitStage(rcasParameters, sharpness);
    RcasMainStage(target, target2, rcasParameters);
    DispatchesAppend(e1, e2);
    DispatchesAppend(r1, r2);
    InertAppend(e1, e2);
    InertAppend(r1, r2);
    var rest := if sharpening then r1 + r2 else [];
    if !sharpening {
      NoDispatches(rest);
    }
    DispatchesAppend(e1 + e2, rest);
    InertAppend(e1 + e2, rest);
  }

  /** A frame is setup commands without dispatches, the passes, and one
      final command: only the passes of a frame dispatch. */
  lemma FrameDispatches(setup: seq<Command>, passes: seq<Command>, last: Command)
    requires NoDispatch(setup) && !last.Dispatch?
    ensures Dispatches(setup + passes + [last]) == Dispatches(passes)
  {
    NoDispatches(setup);
    NoDispatches([last]);
    DispatchesAppend(setup, passes);
    DispatchesAppend(setup + passes, [last]);
  }

  /** When the passes and the final command are inert, nothing after the
      first dispatch of the frame allocates or frees. */
  lemma QuietAfterDispatch(setup: seq<Command>, passes: seq<Command>, last: Command)
    requires NoDispatch(setup) && Inert(passes) && !ChangesResources(last)
    ensures var frame := setup + passes + [last];
            forall i, j | 0 <= i < j < |frame| && frame[i].Dispatch? :: !ChangesResources(frame[j])
  {
    var frame := setup + passes + [last];
    assert forall k | 0 <= k < |setup| :: frame[k] == setup[k];
    forall i, j | 0 <= i < j < |frame| && frame[i].Dispatch? ensures !ChangesResources(frame[j]) {
      if j < |setup| + |passes| {
        assert frame[j] == passes[j - |setup|];
      }
    }
  }

  /** Every texture slot of `cmds` bound to a driver target is bound to a
      non-null target among `held`. */
  predicate TargetsBound(cmds: seq<Command>, held: set<Resource>) {
    forall i | 0 <= i < |cmds| && cmds[i].SetTexture? && cmds[i].binding.Target? ::
      cmds[i].binding.texture.Some? && TextureResource(cmds[i].binding.texture.value) in held
  }

  lemma {:induction false} TargetsBoundAppend(a: seq<Command>, b: seq<Command>, held: set<Resource>)
    requires TargetsBound(a, held) && TargetsBound(b, held)
    ensures TargetsBound(a + b, held)
  {
    forall i | 0 <= i < |a + b| && (a + b)[i].SetTexture? && (a + b)[i].binding.Target?
      ensures (a + b)[i].binding.texture.Some? && TextureResource((a + b)[i].binding.texture.value) in held
    {
      if i < |a| {
        assert (a + b)[i] == a[i];
      } else {
        assert (a + b)[i] == b[i - |a|];
      }
    }
  }

  /** The kernels write only into targets the caller holds: EASU main binds
      the first target, and RCAS main binds the first target as input and
      the second target, which must exist when sharpening, as output. */
  lemma PassesBindTargets(viewWidth: int, viewHeight: int, inputWidth: int, inputHeight: int,
                          target: Texture, target2: Option<Texture>,
                          easuParameters: Option<ComputeBuffer>, rcasParameters: Option<ComputeBuffer>,
                          sharpening: bool, sharpness: real, held: set<Resource>)
    requires TextureResource(target) in held
    requires sharpening ==> target2.Some? && TextureResource(target2.value) in held
    ensures TargetsBound(Passes(viewWidth, viewHeight, inputWidth, inputHeight, target, target2,
                                easuParameters, rcasParameters, sharpening, sharpness), held)
  {
    var e1 := EasuInit(viewWidth, viewHeight, inputWidth, inputHeight, target, easuParameters);
    var e2 := EasuMain(target, easuParameters);
    assert TargetsBound(e1, held);
    assert TargetsBound(e2, held);
    TargetsBoundAppend(e1, e2, held);
    if sharpening {
      var r1 := RcasInit(rcasParameters, sharpness);
      var r2 := RcasMain(target, target2, rcasParameters);
      assert TargetsBound(r1, held);
      assert TargetsBound(r2, held);
      TargetsBoundAppend(r1, r2, held);
      TargetsBoundAppend(e1 + e2, r1 + r2, held);
    } else {
      assert Passes(viewWidth, viewHeight, inputWidth, inputHeight, target, target2,
                    easuParameters, rcasParameters, sharpening, sharpness) == e1 + e2 + [];
    }
  }

  /** Commands that allocate or free bind no texture. */
  lemma ResourceCommandsBindNothing(cmds: seq<Command>, held: set<Resource>)
    requires forall i | 0 <= i < |cmds| :: ChangesResources(cmds[i])
    ensures TargetsBound(cmds, held)
  {
  }

  /** EASU init, one call at a time. */
  method SubmitEasuInit(device: Device, viewWidth: int, viewHeight: int, inputWidth: int, inputHeight: int,
                        target: Texture, parameters: Option<ComputeBuffer>)
    modifies device`log
    ensures device.log == old(device.log) + EasuInit(viewWidth, viewHeight, inputWidth, inputHeight, target, parameters)
  {
    device.Submit(SetVector(EASU, ViewportSize, viewWidth, viewHeight));
    device.Submit(SetVector(EASU, InputImageSize, inputWidth, inputHeight));
    device.Submit(SetVector(EASU, OutputSize, target.width, target.height));
    device.Submit(SetParameterBuffer(EASU, InitKernel, parameters));
    device.Submit(Dispatch(EASU, InitKernel, 1, 1, 1));
  }

  /** EASU main, one call at a time; returns the group counts RCAS main reuses. */
  method SubmitEasuMain(device: Device, target: Texture, parameters: Option<ComputeBuffer>)
    returns (dispatchX: int, dispatchY: int)
    modifies device`log
    ensures dispatchX == GroupCount(target.width) && dispatchY == GroupCount(target.height)
    ensures device.log == old(device.log) + EasuMain(target, parameters)
  {
    device.Submit(SetTexture(EASU, MainKernel, InputTexture, SourceImage));
    device.Submit(SetTexture(EASU, MainKernel, OutputTexture, Target(Some(target))));
    dispatchX := GroupCount(target.width);
    dispatchY := GroupCount(target.height);
    device.Submit(SetParameterBuffer(EASU, MainKernel, parameters));
    device.Submit(Dispatch(EASU, MainKernel, dispatchX, dispatchY, 1));
  }

  /** RCAS init and main, one call at a time, over EASU main's group counts. */
  method SubmitRcas(device: Device, target: Texture, target2: Option<Texture>, parameters: Option<ComputeBuffer>,
                    sharpness: real, dispatchX: int, dispatchY: int)
    requires dispatchX == GroupCount(target.width) && dispatchY == GroupCount(target.height)
    modifies device`log
    ensures device.log == old(device.log) + (RcasInit(parameters, sharpness) + RcasMain(target, target2, parameters))
  {
    device.Submit(SetParameterBuffer(RCAS, InitKernel, parameters));
    device.Submit(SetSharpness(sharpness));
    device.Submit(Dispatch(RCAS, InitKernel, 1, 1, 1));
    ghost var mid := device.log;
    device.Submit(SetParameterBuffer(RCAS, MainKernel, parameters));
    device.Submit(SetTexture(RCAS, MainKernel, InputTexture, Target(Some(target))));
    device.Submit(SetTexture(RCAS, MainKernel, OutputTexture, Target(target2)));
    device.Submit(Dispatch(RCAS, MainKernel, dispatchX, dispatchY, 1));
    assert device.log == mid + RcasMain(target, target2, parameters);
  }
}
