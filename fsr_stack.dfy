/** The post-processing-stack variant of the FSR driver: a renderer the
    stack calls once per frame with a context whose camera reports its pixel
    size and its dynamically scaled size, and whose command buffer collects
    the frame's commands. */
module FsrStack {
  import opened Gpu
  import opened DispatchPlanner
  import opened FsrPasses
  import opened FsrResources

  /** What the render context reports about the camera for this frame. */
  datatype CameraView = CameraView(pixelWidth: int, pixelHeight: int,
                                   scaledPixelWidth: int, scaledPixelHeight: int)

  /** The effect settings; `bufferScale` stands for the float `1f / scaleFactor`. */
  datatype Settings = Settings(bufferScale: real, sharpening: bool, sharpness: real)

  /** The renderer's fields and the log of everything submitted so far. */
  datatype State = State(res: Resources, scaledPixelWidth: int, scaledPixelHeight: int,
                         isRCASSetup: bool, log: seq<Command>)

  function Initial(): State {
    State(NoResources(), 0, 0, false, [])
  }

  /** The live resources are exactly the ones the fields hold (nothing leaks,
      no field holds a freed resource), the handles are distinct and below
      the next free one, and `isRCASSetup` is still false. */
  predicate Inv(s: State) {
    && Live(s.log) == Owned(s.res)
    && Handles(s.res)
    && !s.isRCASSetup
  }

  /** `Init`: create the EASU and RCAS parameter buffers. Buffers already
      held are overwritten without being disposed. */
  function Initialized(s: State): State {
    s.(res := ParameterBuffers(s.res), log := s.log + ParameterBufferCommands(s.res))
  }

  /** `Release`: free each resource that is not null, in field order, null
      the fields, reset the buffer scaling and clear `isRCASSetup`. */
  function Released(s: State): State {
    s.(res := ReleasedAll(s.res), isRCASSetup := false,
       log := s.log + ReleaseAllCommands(s.res) + [ResizeBuffers(1.0, 1.0)])
  }

  /** The reallocation condition, `a || b || c || d && e` with `&&` binding tighter. */
  predicate NeedsReallocation(s: State, view: CameraView, sharpening: bool) {
    || s.res.outputImage.None?
    || s.scaledPixelWidth != view.scaledPixelWidth
    || s.scaledPixelHeight != view.scaledPixelHeight
    || (!s.isRCASSetup && sharpening)
  }

  /** What the reallocation branch submits: it recreates the targets at the
      camera's pixel size (not its scaled size) when the condition holds. */
  function ReallocationStep(s: State, view: CameraView, sharpening: bool): seq<Command> {
    if NeedsReallocation(s, view, sharpening) then RecreateCommands(s.res, view.pixelWidth, view.pixelHeight, sharpening)
    else []
  }

  /** The fields after the reallocation branch: when the condition holds, the
      scaled size is recorded and the targets are the new ones. `isRCASSetup`
      is left alone: the assignment that would set it is commented out. */
  function Retargeted(s: State, view: CameraView, sharpening: bool): (r: State)
    ensures r.res.outputImage.Some? && r.log == s.log && r.isRCASSetup == s.isRCASSetup
  {
    if NeedsReallocation(s, view, sharpening) then
      s.(scaledPixelWidth := view.scaledPixelWidth, scaledPixelHeight := view.scaledPixelHeight,
         res := Recreated(s.res, view.pixelWidth, view.pixelHeight, sharpening))
    else s
  }

  /** The blit at the end of a frame: the second target when sharpening, the
      first otherwise, over the camera's pixel rectangle. */
  function FinalBlit(t: State, view: CameraView, sharpening: bool): Command {
    BlitFullscreenTriangle(if sharpening then t.res.outputImage2 else t.res.outputImage,
                           false, view.pixelWidth, view.pixelHeight)
  }

  /** The passes of a frame, over the targets after the reallocation branch;
      EASU reads the input at the camera's scaled size. */
  function FramePasses(s: State, view: CameraView, settings: Settings): seq<Command> {
    var t := Retargeted(s, view, settings.sharpening);
    Passes(view.pixelWidth, view.pixelHeight, view.scaledPixelWidth, view.scaledPixelHeight,
           t.res.outputImage.value, t.res.outputImage2, t.res.easuParameters, t.res.rcasParameters,
           settings.sharpening, settings.sharpness)
  }

  /** Everything one `Render` call submits, in order. */
  function FrameCommands(s: State, view: CameraView, settings: Settings): seq<Command> {
    [ResizeBuffers(settings.bufferScale, settings.bufferScale)]
    + ReallocationStep(s, view, settings.sharpening)
    + FramePasses(s, view, settings)
    + [FinalBlit(Retargeted(s, view, settings.sharpening), view, settings.sharpening)]
  }

  /** `Render`: the whole frame. */
  function Rendered(s: State, view: CameraView, settings: Settings): State {
    Retargeted(s, view, settings.sharpening).(log := s.log + FrameCommands(s, view, settings))
  }

  lemma InitialInv()
    ensures Inv(Initial()) && Owned(Initial().res) == {}
  {
  }

  /** `Init` creates a 4 x 16-byte EASU buffer and a 1 x 16-byte RCAS buffer,
      both fresh, and keeps the invariant when it finds the buffers null. */
  lemma InitCreatesParameterBuffers(s: State)
    requires Inv(s) && s.res.easuParameters.None? && s.res.rcasParameters.None?
    ensures var r := Initialized(s);
            && Inv(r)
            && r.res.easuParameters.Some? && r.res.easuParameters.value.count == 4 && r.res.easuParameters.value.stride == 16
            && r.res.rcasParameters.Some? && r.res.rcasParameters.value.count == 1 && r.res.rcasParameters.value.stride == 16
            && BufferResource(r.res.easuParameters.value) !in Live(s.log)
            && BufferResource(r.res.rcasParameters.value) !in Live(s.log)
  {
    LiveAppend(s.log, ParameterBufferCommands(s.res));
    ParameterBuffersAccounted(s.res);
  }

  /** A second `Init` overwrites the EASU buffer without disposing it: the old
      buffer stays live but is no longer held by any field. */
  lemma InitTwiceLeaks(s: State)
    requires Inv(s) && s.res.easuParameters.Some?
    ensures BufferResource(s.res.easuParameters.value) in Live(Initialized(s).log)
    ensures BufferResource(s.res.easuParameters.value) !in Owned(Initialized(s).res)
  {
    LiveAppend(s.log, ParameterBufferCommands(s.res));
    ParameterBuffersLeak(Live(s.log), s.res);
  }

  /** The pieces of a frame: the setup without dispatches, the passes, and the blit. */
  lemma FrameShape(s: State, view: CameraView, settings: Settings)
    ensures var t := Retargeted(s, view, settings.sharpening);
            var passes := FramePasses(s, view, settings);
            && Dispatches(passes) == KernelSchedule(GroupCount(t.res.outputImage.value.width),
                                                    GroupCount(t.res.outputImage.value.height), settings.sharpening)
            && Inert(passes)
            && NoDispatch([ResizeBuffers(settings.bufferScale, settings.bufferScale)] + ReallocationStep(s, view, settings.sharpening))
  {
    var t := Retargeted(s, view, settings.sharpening);
    PassesSchedule(view.pixelWidth, view.pixelHeight, view.scaledPixelWidth, view.scaledPixelHeight,
                   t.res.outputImage.value, t.res.outputImage2, t.res.easuParameters, t.res.rcasParameters,
                   settings.sharpening, settings.sharpness);
  }

  /** What a frame does to the live resources: the ones the fields held
      become the ones the fields hold afterwards. */
  lemma FrameAccounted(s: State, view: CameraView, settings: Settings)
    requires Handles(s.res)
    ensures Run(Owned(s.res), FrameCommands(s, view, settings)) == Owned(Rendered(s, view, settings).res)
    ensures Handles(Rendered(s, view, settings).res)
  {
    var t := Retargeted(s, view, settings.sharpening);
    var resize := [ResizeBuffers(settings.bufferScale, settings.bufferScale)];
    var realloc := ReallocationStep(s, view, settings.sharpening);
    var passes := FramePasses(s, view, settings);
    var blit := FinalBlit(t, view, settings.sharpening);
    FrameShape(s, view, settings);
    RunAppend(Owned(s.res), resize, realloc);
    RunOne(Owned(s.res), resize[0]);
    RecreateAccounted(s.res, view.pixelWidth, view.pixelHeight, settings.sharpening);
    assert Run(Owned(s.res), resize + realloc) == Owned(t.res);
    RunAppend(Owned(s.res), resize + realloc, passes);
    RunInert(Owned(t.res), passes);
    RunAppend(Owned(s.res), resize + realloc + passes, [blit]);
    RunOne(Owned(t.res), blit);
  }

  /** Every frame keeps the invariant: what is live is what the fields hold. */
  lemma RenderPreservesInv(s: State, view: CameraView, settings: Settings)
    requires Inv(s)
    ensures Inv(Rendered(s, view, settings))
  {
    LiveAppend(s.log, FrameCommands(s, view, settings));
    FrameAccounted(s, view, settings);
  }

  /** When the reallocation condition holds, the frame records the camera's
      scaled size and replaces the first target by a fresh random-write
      target of the camera's pixel size; when it does not, the targets, the
      recorded size and the allocator are as before. */
  lemma ReallocationTrigger(s: State, view: CameraView, settings: Settings)
    requires Inv(s)
    ensures var r := Rendered(s, view, settings);
            var fires := s.res.outputImage.None? || s.scaledPixelWidth != view.scaledPixelWidth
                         || s.scaledPixelHeight != view.scaledPixelHeight || (!s.isRCASSetup && settings.sharpening);
            && (fires ==> && r.res.outputImage == Some(Texture(s.res.nextId, view.pixelWidth, view.pixelHeight, true))
                          && TextureResource(r.res.outputImage.value) !in Live(s.log)
                          && r.scaledPixelWidth == view.scaledPixelWidth
                          && r.scaledPixelHeight == view.scaledPixelHeight)
            && (!fires ==> && r.res == s.res
                           && r.scaledPixelWidth == s.scaledPixelWidth && r.scaledPixelHeight == s.scaledPixelHeight)
  {
    FreshNotOwned(s.res, TextureResource(Texture(s.res.nextId, view.pixelWidth, view.pixelHeight, true)));
  }

  /** The old first target is released right after the buffer scaling is
      set, and its replacement is created right after that. */
  lemma ReleaseBeforeRecreate(s: State, view: CameraView, settings: Settings)
    requires NeedsReallocation(s, view, settings.sharpening) && s.res.outputImage.Some?
    ensures var frame := FrameCommands(s, view, settings);
            && |frame| > 2
            && frame[1] == Free(TextureResource(s.res.outputImage.value))
            && frame[2] == Allocate(TextureResource(Rendered(s, view, settings).res.outputImage.value))
  {
    RecreateOrder(s.res, view.pixelWidth, view.pixelHeight, settings.sharpening);
  }

  /** A frame allocates or frees something exactly when the reallocation condition holds. */
  lemma FrameChangesResourcesIff(s: State, view: CameraView, settings: Settings)
    ensures NeedsReallocation(s, view, settings.sharpening) <==> !Inert(FrameCommands(s, view, settings))
  {
    var resize := [ResizeBuffers(settings.bufferScale, settings.bufferScale)];
    var passes := FramePasses(s, view, settings);
    var blit := FinalBlit(Retargeted(s, view, settings.sharpening), view, settings.sharpening);
    FrameShape(s, view, settings);
    var frame := FrameCommands(s, view, settings);
    if NeedsReallocation(s, view, settings.sharpening) {
      RecreateOrder(s.res, view.pixelWidth, view.pixelHeight, settings.sharpening);
      var k := |ReleaseIfHeld(TextureHandle(s.res.outputImage))|;
      assert frame[1 + k] == ReallocationStep(s, view, settings.sharpening)[k];
    } else {
      assert resize + [] == resize;
      InertAppend(resize, passes);
      InertAppend(resize + passes, [blit]);
    }
  }

  /** The recorded flag is never set true here, so with sharpening on every
      frame reallocates both targets, fresh and at the camera's pixel size:
      repeated frames at an unchanged size are not allocation-free. */
  lemma SharpeningReallocatesEveryFrame(s: State, view: CameraView, settings: Settings)
    requires Inv(s) && settings.sharpening
    ensures var r := Rendered(s, view, settings);
            && !r.isRCASSetup
            && r.res.outputImage == Some(Texture(s.res.nextId, view.pixelWidth, view.pixelHeight, true))
            && r.res.outputImage2 == Some(Texture(s.res.nextId + 1, view.pixelWidth, view.pixelHeight, true))
            && TextureResource(r.res.outputImage2.value) !in Live(s.log)
            && !Inert(r.log[|s.log|..])
  {
    var r := Rendered(s, view, settings);
    FreshNotOwned(s.res, TextureResource(Texture(s.res.nextId + 1, view.pixelWidth, view.pixelHeight, true)));
    FrameChangesResourcesIff(s, view, settings);
    assert r.log[|s.log|..] == FrameCommands(s, view, settings);
  }

  /** With sharpening off the second target is never released or replaced. */
  lemma SharpeningOffKeepsSecondTarget(s: State, view: CameraView, settings: Settings)
    requires !settings.sharpening
    ensures Rendered(s, view, settings).res.outputImage2 == s.res.outputImage2
    ensures Rendered(s, view, settings).isRCASSetup == s.isRCASSetup
  {
  }

  /** With sharpening off, the frame after any frame at the same camera size
      allocates and frees nothing. */
  lemma SteadyFrameWithoutSharpening(s: State, view: CameraView, settings: Settings)
    requires !settings.sharpening
    ensures Inert(FrameCommands(Rendered(s, view, settings), view, settings))
  {
    FrameChangesResourcesIff(Rendered(s, view, settings), view, settings);
  }

  /** Each frame first sets the buffer scaling, then dispatches exactly the
      kernel schedule (EASU init, EASU main, and RCAS init and main when
      sharpening, all mains over the tiles of the first target), allocates or
      frees nothing after its first dispatch, and ends with the full-screen
      blit of the second target when sharpening and of the first otherwise,
      over the camera's pixel rectangle. */
  lemma FrameOrder(s: State, view: CameraView, settings: Settings)
    ensures var r := Rendered(s, view, settings);
            var frame := FrameCommands(s, view, settings);
            && r.log == s.log + frame
            && |frame| > 1
            && frame[0] == ResizeBuffers(settings.bufferScale, settings.bufferScale)
            && Dispatches(frame)
               == KernelSchedule(GroupCount(r.res.outputImage.value.width), GroupCount(r.res.outputImage.value.height),
                                 settings.sharpening)
            && (forall i, j | 0 <= i < j < |frame| && frame[i].Dispatch? :: !ChangesResources(frame[j]))
            && frame[|frame| - 1] == BlitFullscreenTriangle(if settings.sharpening then r.res.outputImage2 else r.res.outputImage,
                                                             false, view.pixelWidth, view.pixelHeight)
  {
    var setup := [ResizeBuffers(settings.bufferScale, settings.bufferScale)] + ReallocationStep(s, view, settings.sharpening);
    var blit := FinalBlit(Retargeted(s, view, settings.sharpening), view, settings.sharpening);
    FrameShape(s, view, settings);
    FrameDispatches(setup, FramePasses(s, view, settings), blit);
    QuietAfterDispatch(setup, FramePasses(s, view, settings), blit);
  }

  /** EASU is told that its input has the camera's scaled size. */
  lemma EasuInputIsScaledSize(s: State, view: CameraView, settings: Settings)
    ensures var frame := FrameCommands(s, view, settings);
            var k := 1 + |ReallocationStep(s, view, settings.sharpening)|;
            && |frame| > k + 1
            && frame[k + 1] == SetVector(EASU, InputImageSize, view.scaledPixelWidth, view.scaledPixelHeight)
  {
  }

  /** Under the invariant the blit never reads a null target: its source is
      a live target the renderer holds. */
  lemma BlitSourceIsLive(s: State, view: CameraView, settings: Settings)
    requires Inv(s)
    ensures var r := Rendered(s, view, settings);
            && r.log[|r.log| - 1].source.Some?
            && TextureResource(r.log[|r.log| - 1].source.value) in Live(r.log)
  {
    FrameOrder(s, view, settings);
    RenderPreservesInv(s, view, settings);
  }

  /** Under the invariant every texture slot a frame binds to a target gets
      a non-null, live target: EASU main writes into the first target, and
      RCAS main reads the first and writes into the second, which every
      sharpening frame has just created. */
  lemma KernelTargetsAreLive(s: State, view: CameraView, settings: Settings)
    requires Inv(s)
    ensures var r := Rendered(s, view, settings);
            TargetsBound(r.log[|s.log|..], Live(r.log))
  {
    var t := Retargeted(s, view, settings.sharpening);
    var r := Rendered(s, view, settings);
    var held := Owned(t.res);
    var resize := [ResizeBuffers(settings.bufferScale, settings.bufferScale)];
    var realloc := ReallocationStep(s, view, settings.sharpening);
    var blit := [FinalBlit(t, view, settings.sharpening)];
    RenderPreservesInv(s, view, settings);
    assert Live(r.log) == held;
    PassesBindTargets(view.pixelWidth, view.pixelHeight, view.scaledPixelWidth, view.scaledPixelHeight,
                      t.res.outputImage.value, t.res.outputImage2, t.res.easuParameters, t.res.rcasParameters,
                      settings.sharpening, settings.sharpness, held);
    RecreateOnlyChangesResources(s.res, view.pixelWidth, view.pixelHeight, settings.sharpening);
    ResourceCommandsBindNothing(realloc, held);
    TargetsBoundAppend(resize, realloc, held);
    TargetsBoundAppend(resize + realloc, FramePasses(s, view, settings), held);
    TargetsBoundAppend(resize + realloc + FramePasses(s, view, settings), blit, held);
    assert r.log[|s.log|..] == FrameCommands(s, view, settings);
  }

  /** `Release` leaves every field null and nothing live, and resets the
      buffer scaling to (1, 1) last. */
  lemma ReleaseFreesEverything(s: State)
    requires Inv(s)
    ensures var r := Released(s);
            && Inv(r)
            && r.res.outputImage.None? && r.res.outputImage2.None?
            && r.res.easuParameters.None? && r.res.rcasParameters.None?
            && Live(r.log) == {}
            && r.log[|r.log| - 1] == ResizeBuffers(1.0, 1.0)
  {
    LiveAppend(s.log, ReleaseAllCommands(s.res));
    ReleaseAllAccounted(s.res);
    LiveAppend(s.log + ReleaseAllCommands(s.res), [ResizeBuffers(1.0, 1.0)]);
    RunOne({}, ResizeBuffers(1.0, 1.0));
  }

  /** A second `Release` frees nothing: it only resets the buffer scaling again. */
  lemma ReleaseIdempotent(s: State)
    ensures Released(Released(s)) == Released(s).(log := Released(s).log + [ResizeBuffers(1.0, 1.0)])
  {
    ReleaseAllIdempotent(s.res);
  }

  /** The reallocation branch does not look at the log. */
  lemma RetargetedIgnoresLog(s: State, view: CameraView, sharpening: bool, log: seq<Command>)
    ensures Retargeted(s.(log := log), view, sharpening) == Retargeted(s, view, sharpening).(log := log)
    ensures ReallocationStep(s.(log := log), view, sharpening) == ReallocationStep(s, view, sharpening)
  {
  }

  /** The log `Render` builds one stage at a time is the old log and the frame's commands. */
  lemma RenderLog(s: State, view: CameraView, settings: Settings,
                  l1: seq<Command>, l2: seq<Command>, l3: seq<Command>, l4: seq<Command>, l5: seq<Command>)
    requires l1 == s.log + [ResizeBuffers(settings.bufferScale, settings.bufferScale)]
    requires l2 == l1 + ReallocationStep(s, view, settings.sharpening)
    requires var t := Retargeted(s, view, settings.sharpening);
             l3 == l2 + EasuInit(view.pixelWidth, view.pixelHeight, view.scaledPixelWidth, view.scaledPixelHeight,
                                 t.res.outputImage.value, t.res.easuParameters)
                     + EasuMain(t.res.outputImage.value, t.res.easuParameters)
    requires var t := Retargeted(s, view, settings.sharpening);
             l4 == l3 + if settings.sharpening then RcasInit(t.res.rcasParameters, settings.sharpness)
                                                    + RcasMain(t.res.outputImage.value, t.res.outputImage2, t.res.rcasParameters)
                        else []
    requires l5 == l4 + [FinalBlit(Retargeted(s, view, settings.sharpening), view, settings.sharpening)]
    ensures l5 == s.log + FrameCommands(s, view, settings)
  {
    var t := Retargeted(s, view, settings.sharpening);
    var resize := [ResizeBuffers(settings.bufferScale, settings.bufferScale)];
    var realloc := ReallocationStep(s, view, settings.sharpening);
    var e1 := EasuInit(view.pixelWidth, view.pixelHeight, view.scaledPixelWidth, view.scaledPixelHeight,
                       t.res.outputImage.value, t.res.easuParameters);
    var e2 := EasuMain(t.res.outputImage.value, t.res.easuParameters);
    var rest := if settings.sharpening then RcasInit(t.res.rcasParameters, settings.sharpness)
                                            + RcasMain(t.res.outputImage.value, t.res.outputImage2, t.res.rcasParameters)
                else [];
    var passes := FramePasses(s, view, settings);
    assert passes == e1 + e2 + rest;
    var blit := [FinalBlit(t, view, settings.sharpening)];
    AppendAssoc(s.log, resize, realloc);
    AppendAssoc(l2, e1, e2);
    AppendAssoc(l2, e1 + e2, rest);
    AppendAssoc(s.log + (resize + realloc), passes, blit);
    AppendAssoc(s.log, resize + realloc, passes);
    AppendAssoc(s.log, resize + realloc + passes, blit);
  }

  /** The renderer object: the same fields, updated in place, over the GPU services it calls. */
  class FsrStackRenderer {
    var outputImage: Option<Texture>
    var outputImage2: Option<Texture>
    var easuParameters: Option<ComputeBuffer>
    var rcasParameters: Option<ComputeBuffer>
    var scaledPixelWidth: int
    var scaledPixelHeight: int
    var isRCASSetup: bool
    const device: Device

    ghost function Model(): State
      reads this, device
    {
      State(Resources(outputImage, outputImage2, easuParameters, rcasParameters, device.nextId),
            scaledPixelWidth, scaledPixelHeight, isRCASSetup, device.log)
    }

    ghost predicate Valid()
      reads this, device
    {
      Inv(Model())
    }

    constructor ()
      ensures Valid() && Model() == Initial()
    {
      outputImage, outputImage2 := None, None;
      easuParameters, rcasParameters := None, None;
      scaledPixelWidth, scaledPixelHeight := 0, 0;
      isRCASSetup := false;
      device := new Device();
    }

    /** Without the lifecycle guarantee that `Init` runs on null buffers the
        invariant is lost: see `InitTwiceLeaks`. */
    method Init()
      requires Valid()
      modifies this, device
      ensures Model() == Initialized(old(Model()))
      ensures old(easuParameters.None? && rcasParameters.None?) ==> Valid()
    {
      ghost var s := Model();
      var easu := device.CreateBuffer(EasuParameterCount, ParameterStride);
      easuParameters := Some(easu);
      var rcas := device.CreateBuffer(RcasParameterCount, ParameterStride);
      rcasParameters := Some(rcas);
      assert device.log == s.log + ParameterBufferCommands(s.res);
      if s.res.easuParameters.None? && s.res.rcasParameters.None? {
        InitCreatesParameterBuffers(s);
      }
    }

    method Release()
      requires Valid()
      modifies this, device
      ensures Valid() && Model() == Released(old(Model()))
    {
      ghost var s := Model();
      device.Release(TextureHandle(outputImage));
      outputImage := None;
      ghost var l1 := device.log;
      device.Release(BufferHandle(easuParameters));
      easuParameters := None;
      ghost var l2 := device.log;
      device.Release(TextureHandle(outputImage2));
      outputImage2 := None;
      ghost var l3 := device.log;
      device.Release(BufferHandle(rcasParameters));
      rcasParameters := None;
      ReleaseAllLog(s.res, s.log, l1, l2, l3, device.log);
      device.Submit(ResizeBuffers(1.0, 1.0));
      isRCASSetup := false;
      assert Model() == Released(s);
      ReleaseFreesEverything(s);
    }

    /** The reallocation branch of `Render`. */
    method EnsureTargets(view: CameraView, sharpening: bool)
      modifies this, device
      ensures Model() == Retargeted(old(Model()), view, sharpening).(log := old(device.log) + ReallocationStep(old(Model()), view, sharpening))
    {
      ghost var s := Model();
      if outputImage.None? || scaledPixelWidth != view.scaledPixelWidth
         || scaledPixelHeight != view.scaledPixelHeight || (!isRCASSetup && sharpening)
      {
        scaledPixelWidth := view.scaledPixelWidth;
        scaledPixelHeight := view.scaledPixelHeight;
        // EASU target
        device.Release(TextureHandle(outputImage));
        var t := device.CreateTarget(view.pixelWidth, view.pixelHeight);
        outputImage := Some(t);
        ghost var first := device.log;
        // RCAS target
        if sharpening {
          device.Release(TextureHandle(outputImage2));
          var t2 := device.CreateTarget(view.pixelWidth, view.pixelHeight);
          outputImage2 := Some(t2);
        }
        assert Model().res == Recreated(s.res, view.pixelWidth, view.pixelHeight, sharpening);
        RecreateLog(s.res, view.pixelWidth, view.pixelHeight, sharpening, s.log, first, device.log);
      } else {
        assert s.log + ReallocationStep(s, view, sharpening) == s.log;
      }
    }

    method Render(view: CameraView, settings: Settings)
      requires Valid()
      modifies this, device
      ensures Valid() && Model() == Rendered(old(Model()), view, settings)
    {
      ghost var s := Model();
      device.Submit(ResizeBuffers(settings.bufferScale, settings.bufferScale));
      ghost var l1 := device.log;
      EnsureTargets(view, settings.sharpening);
      RetargetedIgnoresLog(s, view, settings.sharpening, l1);
      ghost var l2 := device.log;
      var target := outputImage.value;
      SubmitEasuInit(device, view.pixelWidth, view.pixelHeight, view.scaledPixelWidth, view.scaledPixelHeight,
                     target, easuParameters);
      var dispatchX, dispatchY := SubmitEasuMain(device, target, easuParameters);
      ghost var l3 := device.log;
      if settings.sharpening {
        SubmitRcas(device, target, outputImage2, rcasParameters, settings.sharpness, dispatchX, dispatchY);
      }
      ghost var l4 := device.log;
      device.Submit(BlitFullscreenTriangle(if settings.sharpening then outputImage2 else outputImage,
                                           false, view.pixelWidth, view.pixelHeight));
      RenderLog(s, view, settings, l1, l2, l3, l4, device.log);
      assert Model() == Rendered(s, view, settings);
      RenderPreservesInv(s, view, settings);
    }
  }
}
