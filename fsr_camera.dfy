/** The camera-component variant of the FSR driver: a behaviour attached to
    a camera that renders the scene into a temporary texture at the scaled
    size (`OnPreRender`, `OnPostRender`) and upscales the frame in
    `OnRenderImage`, calling the shaders directly. */
module FsrCamera {
  import opened Gpu
  import opened DispatchPlanner
  import opened FsrPasses
  import opened FsrResources

  /** The camera's pixel size when the image is rendered. */
  datatype CameraView = CameraView(pixelWidth: int, pixelHeight: int)

  datatype Settings = Settings(sharpening: bool, sharpness: real)

  /** The behaviour's fields, the camera's target texture, and the log. */
  datatype State = State(
    res: Resources,
    scaledPixelWidth: int, scaledPixelHeight: int,
    scaledPixelWidthPrev: int, scaledPixelHeightPrev: int,
    isRCASSetup: bool,
    rt: Option<Texture>, targetTexture: Option<Texture>,
    log: seq<Command>)

  function Initial(): State {
    State(NoResources(), 0, 0, 0, 0, false, None, None, [])
  }

  /** What is live is what the fields hold, the handles are apart, the
      recorded flag is only set while a second target exists, and the camera
      renders into nothing or into `rt`. */
  predicate Inv(s: State) {
    && Live(s.log) == Owned(s.res)
    && Handles(s.res)
    && (s.isRCASSetup ==> s.res.outputImage2.Some?)
    && (s.targetTexture.Some? ==> s.targetTexture == s.rt)
  }

  /** `OnEnable`: create the parameter buffers (held ones are overwritten). */
  function Enabled(s: State): State {
    s.(res := ParameterBuffers(s.res), log := s.log + ParameterBufferCommands(s.res))
  }

  /** `OnDisable`: free each resource that is not null, in field order, null
      the fields and clear the flag. The buffer scaling is not touched. */
  function Disabled(s: State): State {
    s.(res := ReleasedAll(s.res), isRCASSetup := false, log := s.log + ReleaseAllCommands(s.res))
  }

  /** `OnPreRender`: record the scaled size and render the scene into a
      temporary texture of that size. `scaledWidth` and `scaledHeight` stand
      for the truncated quotients of the pixel size by the scale factor. */
  function PreRendered(s: State, scaledWidth: int, scaledHeight: int): State {
    var temporary := Texture(s.res.nextId, scaledWidth, scaledHeight, false);
    s.(scaledPixelWidth := scaledWidth, scaledPixelHeight := scaledHeight,
       rt := Some(temporary), targetTexture := Some(temporary),
       res := s.res.(nextId := s.res.nextId + 1),
       log := s.log + [GetTemporary(temporary)])
  }

  /** `OnPostRender`: give `rt` back to the pool and detach it from the camera;
      the field itself keeps the returned texture. */
  function PostRendered(s: State): State {
    s.(targetTexture := None, log := s.log + [ReleaseTemporary(s.rt)])
  }

  /** The reallocation condition: the size recorded at the last reallocation
      against the size `OnPreRender` recorded. */
  predicate NeedsReallocation(s: State, sharpening: bool) {
    || s.res.outputImage.None?
    || s.scaledPixelWidthPrev != s.scaledPixelWidth
    || s.scaledPixelHeightPrev != s.scaledPixelHeight
    || (!s.isRCASSetup && sharpening)
  }

  function ReallocationStep(s: State, view: CameraView, sharpening: bool): seq<Command> {
    if NeedsReallocation(s, sharpening) then RecreateCommands(s.res, view.pixelWidth, view.pixelHeight, sharpening)
    else []
  }

  /** The fields after the reallocation branch: the size is recorded, the
      targets are recreated at the camera's pixel size, and the flag is set
      when the second target is. */
  function Retargeted(s: State, view: CameraView, sharpening: bool): (r: State)
    ensures r.res.outputImage.Some? && r.log == s.log
  {
    if NeedsReallocation(s, sharpening) then
      s.(scaledPixelWidthPrev := s.scaledPixelWidth, scaledPixelHeightPrev := s.scaledPixelHeight,
         res := Recreated(s.res, view.pixelWidth, view.pixelHeight, sharpening),
         isRCASSetup := s.isRCASSetup || sharpening)
    else s
  }

  /** The passes; EASU is told that its input has the camera's pixel size. */
  function FramePasses(s: State, view: CameraView, settings: Settings): seq<Command> {
    var t := Retargeted(s, view, settings.sharpening);
    Passes(view.pixelWidth, view.pixelHeight, view.pixelWidth, view.pixelHeight,
           t.res.outputImage.value, t.res.outputImage2, t.res.easuParameters, t.res.rcasParameters,
           settings.sharpening, settings.sharpness)
  }

  /** The blit to the destination: the second target when sharpening, the first otherwise. */
  function FinalBlit(t: State, sharpening: bool): Command {
    Blit(if sharpening then t.res.outputImage2 else t.res.outputImage)
  }

  /** Everything one `OnRenderImage` call submits, in order. */
  function FrameCommands(s: State, view: CameraView, settings: Settings): seq<Command> {
    ReallocationStep(s, view, settings.sharpening)
    + FramePasses(s, view, settings)
    + [FinalBlit(Retargeted(s, view, settings.sharpening), settings.sharpening)]
  }

  /** `OnRenderImage`. */
  function RenderedImage(s: State, view: CameraView, settings: Settings): State {
    Retargeted(s, view, settings.sharpening).(log := s.log + FrameCommands(s, view, settings))
  }

  /** One camera frame: pre-render, post-render, then the image effect. */
  function CameraFrame(s: State, scaledWidth: int, scaledHeight: int, view: CameraView, settings: Settings): State {
    RenderedImage(PostRendered(PreRendered(s, scaledWidth, scaledHeight)), view, settings)
  }

  lemma InitialInv()
    ensures Inv(Initial()) && Owned(Initial().res) == {}
  {
  }

  /** `OnEnable` creates a fresh 4 x 16-byte EASU buffer and a fresh
      1 x 16-byte RCAS buffer, and keeps the invariant when it finds the
      buffers null. */
  lemma EnableCreatesBuffers(s: State)
    requires Inv(s) && s.res.easuParameters.None? && s.res.rcasParameters.None?
    ensures var r := Enabled(s);
            && Inv(r)
            && r.res.easuParameters.Some? && r.res.easuParameters.value.count == 4 && r.res.easuParameters.value.stride == 16
            && r.res.rcasParameters.Some? && r.res.rcasParameters.value.count == 1 && r.res.rcasParameters.value.stride == 16
            && BufferResource(r.res.easuParameters.value) !in Live(s.log)
            && BufferResource(r.res.rcasParameters.value) !in Live(s.log)
  {
    LiveAppend(s.log, ParameterBufferCommands(s.res));
    ParameterBuffersAccounted(s.res);
  }

  /** `OnEnable` twice without `OnDisable` leaks the first EASU buffer. */
  lemma EnableTwiceLeaks(s: State)
    requires Inv(s) && s.res.easuParameters.Some?
    ensures BufferResource(s.res.easuParameters.value) in Live(Enabled(s).log)
    ensures BufferResource(s.res.easuParameters.value) !in Owned(Enabled(s).res)
  {
    LiveAppend(s.log, ParameterBufferCommands(s.res));
    ParameterBuffersLeak(Live(s.log), s.res);
  }

  /** `OnDisable` frees everything the fields hold, nulls them and clears the
      flag; the recorded sizes and the temporary are left as they were. */
  lemma DisableReleasesAll(s: State)
    requires Inv(s)
    ensures var r := Disabled(s);
            && Inv(r)
            && r.res.outputImage.None? && r.res.outputImage2.None?
            && r.res.easuParameters.None? && r.res.rcasParameters.None?
            && !r.isRCASSetup
            && Live(r.log) == {}
            && r.scaledPixelWidthPrev == s.scaledPixelWidthPrev && r.scaledPixelHeightPrev == s.scaledPixelHeightPrev
            && r.rt == s.rt && r.targetTexture == s.targetTexture
  {
    LiveAppend(s.log, ReleaseAllCommands(s.res));
    ReleaseAllAccounted(s.res);
  }

  /** A second `OnDisable` submits nothing and changes nothing. */
  lemma DisableIdempotent(s: State)
    ensures Disabled(Disabled(s)) == Disabled(s)
  {
    ReleaseAllIdempotent(s.res);
    assert Disabled(s).log + [] == Disabled(s).log;
  }

  /** `OnPreRender` allocates and frees no driver resource and keeps the invariant. */
  lemma PreRenderPreservesInv(s: State, scaledWidth: int, scaledHeight: int)
    requires Inv(s)
    ensures Inv(PreRendered(s, scaledWidth, scaledHeight))
  {
    var temporary := Texture(s.res.nextId, scaledWidth, scaledHeight, false);
    assert Live(s.log + [GetTemporary(temporary)]) == Live(s.log) by {
      LiveAppend(s.log, [GetTemporary(temporary)]);
      RunOne(Live(s.log), GetTemporary(temporary));
    }
  }

  /** `OnPostRender` allocates and frees no driver resource and keeps the invariant. */
  lemma PostRenderPreservesInv(s: State)
    requires Inv(s)
    ensures Inv(PostRendered(s))
  {
    assert Live(s.log + [ReleaseTemporary(s.rt)]) == Live(s.log) by {
      LiveAppend(s.log, [ReleaseTemporary(s.rt)]);
      RunOne(Live(s.log), ReleaseTemporary(s.rt));
    }
  }

  /** The temporary texture is obtained at the scaled size, attached to the
      camera, and returned to the pool by the next `OnPostRender`, which
      detaches it; neither call allocates or frees a driver resource. */
  lemma TemporaryPairing(s: State, scaledWidth: int, scaledHeight: int)
    requires Inv(s)
    ensures var p := PreRendered(s, scaledWidth, scaledHeight);
            var q := PostRendered(p);
            && p.rt.Some? && p.rt.value.width == scaledWidth && p.rt.value.height == scaledHeight
            && p.targetTexture == p.rt
            && q.log == s.log + [GetTemporary(p.rt.value), ReleaseTemporary(p.rt)]
            && q.targetTexture.None?
            && Inv(p) && Inv(q)
  {
    var p := PreRendered(s, scaledWidth, scaledHeight);
    PreRenderPreservesInv(s, scaledWidth, scaledHeight);
    PostRenderPreservesInv(p);
    assert PostRendered(p).log == s.log + [GetTemporary(p.rt.value)] + [ReleaseTemporary(p.rt)];
  }

  /** The pieces of a frame: the reallocation commands, the passes, and the blit. */
  lemma FrameShape(s: State, view: CameraView, settings: Settings)
    ensures var t := Retargeted(s, view, settings.sharpening);
            var passes := FramePasses(s, view, settings);
            && Dispatches(passes) == KernelSchedule(GroupCount(t.res.outputImage.value.width),
                                                    GroupCount(t.res.outputImage.value.height), settings.sharpening)
            && Inert(passes)
            && NoDispatch(ReallocationStep(s, view, settings.sharpening))
  {
    var t := Retargeted(s, view, settings.sharpening);
    PassesSchedule(view.pixelWidth, view.pixelHeight, view.pixelWidth, view.pixelHeight,
                   t.res.outputImage.value, t.res.outputImage2, t.res.easuParameters, t.res.rcasParameters,
                   settings.sharpening, settings.sharpness);
  }

  /** What a frame does to the live resources: the ones the fields held
      become the ones the fields hold afterwards. */
  lemma FrameAccounted(s: State, view: CameraView, settings: Settings)
    requires Handles(s.res)
    ensures Run(Owned(s.res), FrameCommands(s, view, settings)) == Owned(RenderedImage(s, view, settings).res)
    ensures Handles(RenderedImage(s, view, settings).res)
  {
    var t := Retargeted(s, view, settings.sharpening);
    var realloc := ReallocationStep(s, view, settings.sharpening);
    var passes := FramePasses(s, view, settings);
    var blit := FinalBlit(t, settings.sharpening);
    FrameShape(s, view, settings);
    RecreateAccounted(s.res, view.pixelWidth, view.pixelHeight, settings.sharpening);
    assert Run(Owned(s.res), realloc) == Owned(t.res);
    RunAppend(Owned(s.res), realloc, passes);
    RunInert(Owned(t.res), passes);
    RunAppend(Owned(s.res), realloc + passes, [blit]);
    RunOne(Owned(t.res), blit);
  }

  /** `OnRenderImage` keeps the invariant. */
  lemma RenderImagePreservesInv(s: State, view: CameraView, settings: Settings)
    requires Inv(s)
    ensures Inv(RenderedImage(s, view, settings))
  {
    LiveAppend(s.log, FrameCommands(s, view, settings));
    FrameAccounted(s, view, settings);
  }

  /** A whole camera frame keeps the invariant. */
  lemma CameraFramePreservesInv(s: State, scaledWidth: int, scaledHeight: int, view: CameraView, settings: Settings)
    requires Inv(s)
    ensures Inv(CameraFrame(s, scaledWidth, scaledHeight, view, settings))
  {
    TemporaryPairing(s, scaledWidth, scaledHeight);
    RenderImagePreservesInv(PostRendered(PreRendered(s, scaledWidth, scaledHeight)), view, settings);
  }

  /** When the condition holds the frame records the scaled size, recreates
      the first target fresh at the camera's pixel size and sets the flag if
      sharpening; otherwise the resources, the recorded size and the flag
      are as before. */
  lemma ReallocationTrigger(s: State, view: CameraView, settings: Settings)
    requires Inv(s)
    ensures var r := RenderedImage(s, view, settings);
            var fires := s.res.outputImage.None? || s.scaledPixelWidthPrev != s.scaledPixelWidth
                         || s.scaledPixelHeightPrev != s.scaledPixelHeight || (!s.isRCASSetup && settings.sharpening);
            && (fires ==> && r.res.outputImage == Some(Texture(s.res.nextId, view.pixelWidth, view.pixelHeight, true))
                          && TextureResource(r.res.outputImage.value) !in Live(s.log)
                          && r.scaledPixelWidthPrev == s.scaledPixelWidth
                          && r.scaledPixelHeightPrev == s.scaledPixelHeight
                          && r.isRCASSetup == (s.isRCASSetup || settings.sharpening)
                          && (settings.sharpening ==> r.res.outputImage2 == Some(Texture(s.res.nextId + 1, view.pixelWidth, view.pixelHeight, true)))
                          && (!settings.sharpening ==> r.res.outputImage2 == s.res.outputImage2))
            && (!fires ==> && r.res == s.res && r.isRCASSetup == s.isRCASSetup
                           && r.scaledPixelWidthPrev == s.scaledPixelWidthPrev
                           && r.scaledPixelHeightPrev == s.scaledPixelHeightPrev)
  {
    FreshNotOwned(s.res, TextureResource(Texture(s.res.nextId, view.pixelWidth, view.pixelHeight, true)));
  }

  /** A frame allocates or frees something exactly when the reallocation condition holds. */
  lemma FrameChangesResourcesIff(s: State, view: CameraView, settings: Settings)
    ensures NeedsReallocation(s, settings.sharpening) <==> !Inert(FrameCommands(s, view, settings))
  {
    var passes := FramePasses(s, view, settings);
    var blit := FinalBlit(Retargeted(s, view, settings.sharpening), settings.sharpening);
    FrameShape(s, view, settings);
    var frame := FrameCommands(s, view, settings);
    if NeedsReallocation(s, settings.sharpening) {
      RecreateOrder(s.res, view.pixelWidth, view.pixelHeight, settings.sharpening);
      var k := |ReleaseIfHeld(TextureHandle(s.res.outputImage))|;
      assert frame[k] == ReallocationStep(s, view, settings.sharpening)[k];
    } else {
      assert frame == [] + passes + [blit];
      InertAppend(passes, [blit]);
    }
  }

  /** Once a frame has run, the next frame at the same scaled size and with
      the same sharpening setting allocates and frees nothing. */
  lemma SteadyFrameAllocatesNothing(s: State, scaledWidth: int, scaledHeight: int, view: CameraView, settings: Settings)
    ensures var r := CameraFrame(s, scaledWidth, scaledHeight, view, settings);
            var r2 := CameraFrame(r, scaledWidth, scaledHeight, view, settings);
            && r2.res.outputImage == r.res.outputImage && r2.res.outputImage2 == r.res.outputImage2
            && Inert(FrameCommands(PostRendered(PreRendered(r, scaledWidth, scaledHeight)), view, settings))
  {
    var r := CameraFrame(s, scaledWidth, scaledHeight, view, settings);
    FrameChangesResourcesIff(PostRendered(PreRendered(r, scaledWidth, scaledHeight)), view, settings);
  }

  /** The flag stays set while sharpening is off, so a frame that resizes
      with sharpening off recreates only the first target, and turning
      sharpening back on at that size recreates nothing: RCAS then writes
      into the second target from before the resize, whatever its size. */
  lemma SecondTargetOutlivesResize(s: State, scaledWidth: int, scaledHeight: int, view: CameraView,
                                   sharpness: real, sharpness2: real)
    requires Inv(s) && s.isRCASSetup && scaledWidth != s.scaledPixelWidthPrev
    ensures var r1 := CameraFrame(s, scaledWidth, scaledHeight, view, Settings(false, sharpness));
            var r2 := CameraFrame(r1, scaledWidth, scaledHeight, view, Settings(true, sharpness2));
            && r1.res.outputImage.value.width == view.pixelWidth
            && r1.res.outputImage.value.height == view.pixelHeight
            && r2.res.outputImage == r1.res.outputImage
            && r2.res.outputImage2 == s.res.outputImage2
            && r2.log[|r2.log| - 1] == Blit(s.res.outputImage2)
  {
  }

  /** Each frame dispatches exactly the kernel schedule over the tiles of the
      first target, allocates or frees nothing after its first dispatch, and
      ends with the blit of the second target when sharpening and of the
      first otherwise. */
  lemma FrameOrder(s: State, view: CameraView, settings: Settings)
    ensures var r := RenderedImage(s, view, settings);
            var frame := FrameCommands(s, view, settings);
            && r.log == s.log + frame
            && Dispatches(frame)
               == KernelSchedule(GroupCount(r.res.outputImage.value.width), GroupCount(r.res.outputImage.value.height),
                                 settings.sharpening)
            && (forall i, j | 0 <= i < j < |frame| && frame[i].Dispatch? :: !ChangesResources(frame[j]))
            && frame[|frame| - 1] == Blit(if settings.sharpening then r.res.outputImage2 else r.res.outputImage)
  {
    var setup := ReallocationStep(s, view, settings.sharpening);
    var blit := FinalBlit(Retargeted(s, view, settings.sharpening), settings.sharpening);
    FrameShape(s, view, settings);
    FrameDispatches(setup, FramePasses(s, view, settings), blit);
    QuietAfterDispatch(setup, FramePasses(s, view, settings), blit);
  }

  /** EASU is told that its input is as large as the camera's pixel size,
      not the scaled size the scene was rendered at. */
  lemma EasuInputIsPixelSize(s: State, view: CameraView, settings: Settings)
    ensures var frame := FrameCommands(s, view, settings);
            var k := |ReallocationStep(s, view, settings.sharpening)|;
            && |frame| > k + 1
            && frame[k + 1] == SetVector(EASU, InputImageSize, view.pixelWidth, view.pixelHeight)
  {
  }

  /** Under the invariant the blit never reads a null target: its source is
      a live target the behaviour holds. */
  lemma BlitSourceIsLive(s: State, view: CameraView, settings: Settings)
    requires Inv(s)
    ensures var r := RenderedImage(s, view, settings);
            && r.log[|r.log| - 1].source.Some?
            && TextureResource(r.log[|r.log| - 1].source.value) in Live(r.log)
  {
    FrameOrder(s, view, settings);
    RenderImagePreservesInv(s, view, settings);
  }

  /** Under the invariant every texture slot a frame binds to a target gets
      a non-null, live target: when sharpening, the second target either is
      created by this frame or was created when the flag was set. */
  lemma KernelTargetsAreLive(s: State, view: CameraView, settings: Settings)
    requires Inv(s)
    ensures var r := RenderedImage(s, view, settings);
            TargetsBound(r.log[|s.log|..], Live(r.log))
  {
    var t := Retargeted(s, view, settings.sharpening);
    var r := RenderedImage(s, view, settings);
    var held := Owned(t.res);
    var realloc := ReallocationStep(s, view, settings.sharpening);
    var blit := [FinalBlit(t, settings.sharpening)];
    RenderImagePreservesInv(s, view, settings);
    assert Live(r.log) == held;
    PassesBindTargets(view.pixelWidth, view.pixelHeight, view.pixelWidth, view.pixelHeight,
                      t.res.outputImage.value, t.res.outputImage2, t.res.easuParameters, t.res.rcasParameters,
                      settings.sharpening, settings.sharpness, held);
    RecreateOnlyChangesResources(s.res, view.pixelWidth, view.pixelHeight, settings.sharpening);
    ResourceCommandsBindNothing(realloc, held);
    TargetsBoundAppend(realloc, FramePasses(s, view, settings), held);
    TargetsBoundAppend(realloc + FramePasses(s, view, settings), blit, held);
    assert r.log[|s.log|..] == FrameCommands(s, view, settings);
  }

  lemma RetargetedIgnoresLog(s: State, view: CameraView, sharpening: bool, log: seq<Command>)
    ensures Retargeted(s.(log := log), view, sharpening) == Retargeted(s, view, sharpening).(log := log)
    ensures ReallocationStep(s.(log := log), view, sharpening) == ReallocationStep(s, view, sharpening)
  {
  }

  /** The log `OnRenderImage` builds one stage at a time is the old log and the frame's commands. */
  lemma RenderImageLog(s: State, view: CameraView, settings: Settings,
                       l2: seq<Command>, l3: seq<Command>, l4: seq<Command>, l5: seq<Command>)
    requires l2 == s.log + ReallocationStep(s, view, settings.sharpening)
    requires var t := Retargeted(s, view, settings.sharpening);
             l3 == l2 + EasuInit(view.pixelWidth, view.pixelHeight, view.pixelWidth, view.pixelHeight,
                                 t.res.outputImage.value, t.res.easuParameters)
                     + EasuMain(t.res.outputImage.value, t.res.easuParameters)
    requires var t := Retargeted(s, view, settings.sharpening);
             l4 == l3 + if settings.sharpening then RcasInit(t.res.rcasParameters, settings.sharpness)
                                                    + RcasMain(t.res.outputImage.value, t.res.outputImage2, t.res.rcasParameters)
                        else []
    requires l5 == l4 + [FinalBlit(Retargeted(s, view, settings.sharpening), settings.sharpening)]
    ensures l5 == s.log + FrameCommands(s, view, settings)
  {
    var t := Retargeted(s, view, settings.sharpening);
    var realloc := ReallocationStep(s, view, settings.sharpening);
    var e1 := EasuInit(view.pixelWidth, view.pixelHeight, view.pixelWidth, view.pixelHeight,
                       t.res.outputImage.value, t.res.easuParameters);
    var e2 := EasuMain(t.res.outputImage.value, t.res.easuParameters);
    var rest := if settings.sharpening then RcasInit(t.res.rcasParameters, settings.sharpness)
                                            + RcasMain(t.res.outputImage.value, t.res.outputImage2, t.res.rcasParameters)
                else [];
    var passes := FramePasses(s, view, settings);
    assert passes == e1 + e2 + rest;
    var blit := [FinalBlit(t, settings.sharpening)];
    AppendAssoc(l2, e1, e2);
    AppendAssoc(l2, e1 + e2, rest);
    AppendAssoc(s.log, realloc, passes);
    AppendAssoc(s.log, realloc + passes, blit);
  }

  /** The behaviour object: the same fields, updated in place, over the GPU services it calls. */
  class FsrCameraEffect {
    var outputImage: Option<Texture>
    var outputImage2: Option<Texture>
    var easuParameters: Option<ComputeBuffer>
    var rcasParameters: Option<ComputeBuffer>
    var scaledPixelWidth: int
    var scaledPixelHeight: int
    var scaledPixelWidthPrev: int
    var scaledPixelHeightPrev: int
    var isRCASSetup: bool
    var rt: Option<Texture>
    /** The camera's `targetTexture`. */
    var targetTexture: Option<Texture>
    const device: Device

    ghost function Model(): State
      reads this, device
    {
      State(Resources(outputImage, outputImage2, easuParameters, rcasParameters, device.nextId),
            scaledPixelWidth, scaledPixelHeight, scaledPixelWidthPrev, scaledPixelHeightPrev,
            isRCASSetup, rt, targetTexture, device.log)
    }

    ghost predicate Valid()
      reads this, device
    {
      Inv(Model())
    }

    constructor ()
      ensures Valid() && Model() == Initial()
    {
      outputImage, outputImage2 := None, None;
      easuParameters, rcasParameters := None, None;
      scaledPixelWidth, scaledPixelHeight := 0, 0;
      scaledPixelWidthPrev, scaledPixelHeightPrev := 0, 0;
      isRCASSetup := false;
      rt, targetTexture := None, None;
      device := new Device();
    }

    method OnDisable()
      requires Valid()
      modifies this, device
      ensures Valid() && Model() == Disabled(old(Model()))
    {
      ghost var s := Model();
      device.Release(TextureHandle(outputImage));
      outputImage := None;
      ghost var l1 := device.log;
      device.Release(BufferHandle(easuParameters));
      easuParameters := None;
      ghost var l2 := device.log;
      device.Release(TextureHandle(outputImage2));
      outputImage2 := None;
      ghost var l3 := device.log;
      device.Release(BufferHandle(rcasParameters));
      rcasParameters := None;
      isRCASSetup := false;
      ReleaseAllLog(s.res, s.log, l1, l2, l3, device.log);
      assert Model() == Disabled(s);
      DisableReleasesAll(s);
    }

    /** Without the lifecycle guarantee that `OnEnable` follows `OnDisable`
        the invariant is lost: see `EnableTwiceLeaks`. */
    method OnEnable()
      requires Valid()
      modifies this, device
      ensures Model() == Enabled(old(Model()))
      ensures old(easuParameters.None? && rcasParameters.None?) ==> Valid()
    {
      ghost var s := Model();
      var easu := device.CreateBuffer(EasuParameterCount, ParameterStride);
      easuParameters := Some(easu);
      var rcas := device.CreateBuffer(RcasParameterCount, ParameterStride);
      rcasParameters := Some(rcas);
      assert device.log == s.log + ParameterBufferCommands(s.res);
      if s.res.easuParameters.None? && s.res.rcasParameters.None? {
        EnableCreatesBuffers(s);
      }
    }

    method OnPreRender(scaledWidth: int, scaledHeight: int)
      requires Valid()
      modifies this, device
      ensures Valid() && Model() == PreRendered(old(Model()), scaledWidth, scaledHeight)
    {
      ghost var s := Model();
      scaledPixelWidth := scaledWidth;
      scaledPixelHeight := scaledHeight;
      var temporary := device.GetTemporary(scaledPixelWidth, scaledPixelHeight);
      rt := Some(temporary);
      targetTexture := rt;
      assert Model() == PreRendered(s, scaledWidth, scaledHeight);
      PreRenderPreservesInv(s, scaledWidth, scaledHeight);
    }

    method OnPostRender()
      requires Valid()
      modifies this, device
      ensures Valid() && Model() == PostRendered(old(Model()))
    {
      ghost var s := Model();
      device.Submit(ReleaseTemporary(rt));
      targetTexture := None;
      assert Model() == PostRendered(s);
      PostRenderPreservesInv(s);
    }

    /** The reallocation branch of `OnRenderImage`. */
    method EnsureTargets(view: CameraView, sharpening: bool)
      modifies this, device
      ensures Model() == Retargeted(old(Model()), view, sharpening).(log := old(device.log) + ReallocationStep(old(Model()), view, sharpening))
    {
      ghost var s := Model();
      if outputImage.None? || scaledPixelWidthPrev != scaledPixelWidth
         || scaledPixelHeightPrev != scaledPixelHeight || (!isRCASSetup && sharpening)
      {
        scaledPixelWidthPrev := scaledPixelWidth;
        scaledPixelHeightPrev := scaledPixelHeight;
        // EASU target
        device.Release(TextureHandle(outputImage));
        var t := device.CreateTarget(view.pixelWidth, view.pixelHeight);
        outputImage := Some(t);
        ghost var first := device.log;
        // RCAS target
        if sharpening {
          isRCASSetup := true;
          device.Release(TextureHandle(outputImage2));
          var t2 := device.CreateTarget(view.pixelWidth, view.pixelHeight);
          outputImage2 := Some(t2);
        }
        assert Model().res == Recreated(s.res, view.pixelWidth, view.pixelHeight, sharpening);
        RecreateLog(s.res, view.pixelWidth, view.pixelHeight, sharpening, s.log, first, device.log);
      } else {
        assert s.log + ReallocationStep(s, view, sharpening) == s.log;
      }
    }

    method OnRenderImage(view: CameraView, settings: Settings)
      requires Valid()
      modifies this, device
      ensures Valid() && Model() == RenderedImage(old(Model()), view, settings)
    {
      ghost var s := Model();
      EnsureTargets(view, settings.sharpening);
      ghost var l2 := device.log;
      var target := outputImage.value;
      SubmitEasuInit(device, view.pixelWidth, view.pixelHeight, view.pixelWidth, view.pixelHeight,
                     target, easuParameters);
      var dispatchX, dispatchY := SubmitEasuMain(device, target, easuParameters);
      ghost var l3 := device.log;
      if settings.sharpening {
        SubmitRcas(device, target, outputImage2, rcasParameters, settings.sharpness, dispatchX, dispatchY);
      }
      ghost var l4 := device.log;
      device.Submit(Blit(if settings.sharpening then outputImage2 else outputImage));
      RenderImageLog(s, view, settings, l2, l3, l4, device.log);
      assert Model() == RenderedImage(s, view, settings);
      RenderImagePreservesInv(s, view, settings);
    }
  }
}
