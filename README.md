# FSR host-side frame driver, modelled in Dafny

The repository wraps AMD FidelityFX Super Resolution for Unity in two
drivers that share one job. Each frame, a driver upscales an image
rendered at a reduced size to the camera's full pixel size. It uses two
compute shaders:

- EASU (edge adaptive spatial upsampling);
- RCAS (robust contrast adaptive sharpening), which is optional.

The two drivers:

- `AMD_FIDELITY_FX_FSR_STACK_Renderer` is a post-processing-stack renderer
  with `Init`, `Release` and `Render`.
- `AMD_FIDELITY_FX_FSR` is a camera `MonoBehaviour` with `OnEnable`,
  `OnDisable`, `OnPreRender`, `OnPostRender` and `OnRenderImage`.

This project models the host side of both: which GPU resources the
drivers own, when they recreate them, and which calls they submit in
which order.

## Approach

Everything the drivers ask of the GPU is recorded in an ordered log of
`Gpu.Command` values: allocations, frees, temporary textures, parameter
bindings, dispatches and blits. A `Gpu.Device` object holds that log and
the next free resource handle, and the drivers update it in place.

- `Gpu.Live(log)` is the set of resources the log has allocated and not
  yet freed.
- The central invariant of each driver (`FsrStack.Inv`, `FsrCamera.Inv`)
  is that `Live(log)` is exactly the set of resources the driver's
  fields hold. So nothing leaks, and no field points at a freed
  resource.

Each driver is modelled twice:

- A `State` datatype with pure functions, one per entry point
  (`Initialized`, `Released`, `Rendered`, `Enabled`, `Disabled`,
  `PreRendered`, `PostRendered`, `RenderedImage`). The lemmas state what
  the source promises about these functions.
- A class with the driver's own fields (`FsrStack.FsrStackRenderer`,
  `FsrCamera.FsrCameraEffect`). Each method issues the calls one at a
  time. It is proved to leave exactly the state the matching function
  describes, and to keep the invariant.

Shared code has its own module:

- `FsrResources` holds resource bookkeeping: parameter buffers, lazy
  recreation of targets, release.
- `FsrPasses` holds the EASU/RCAS pass encoding and the
  `Dispatches` projection of a log.
- `DispatchPlanner` holds the thread-group arithmetic, using C#'s
  truncating `int` division.

The model follows the code as written. These behaviours are worth
knowing:

- **Camera variant, EASU input size.** It tells EASU that its input has
  the camera's *pixel* size, not the scaled size it rendered at
  (`FsrCamera.EasuInputIsPixelSize`). The stack variant passes the scaled
  size (`FsrStack.EasuInputIsScaledSize`).
- **Stack variant, `isRCASSetup`.** The assignment that would set it is
  commented out, so the flag is never true. With sharpening on, every
  frame reallocates both targets (`FsrStack.SharpeningReallocatesEveryFrame`).
- **Camera variant, stale RCAS target.** The flag is never cleared while
  sharpening is off. A resize with sharpening off followed by sharpening
  on therefore leaves RCAS writing into the second target from before
  the resize (`FsrCamera.SecondTargetOutlivesResize`).
- **Sizes used for targets.** Both variants compare scaled sizes to
  decide whether to reallocate. Both create the targets at the camera's
  pixel size.
- **No checks on sizes or resources.** Neither driver clamps scaled
  sizes to at least 1x1. Neither rejects zero sizes before computing
  reciprocals. Neither checks for a missing kernel or a failed
  allocation. The model has no such checks either.
- **Parameter buffers after a second `Init`.** The buffers are created on
  every `Init`/`OnEnable`, not once. A second call without a release
  overwrites the fields without disposing the buffers
  (`FsrStack.InitTwiceLeaks`, `FsrCamera.EnableTwiceLeaks`).
- **EASU init dispatch.** It is submitted every frame, not only when
  the targets are recreated.

## Model

Source paths are relative to the repository root.

| member | source | states |
|---|---|---|
| Gpu.Device.Release | Assets/AMD_FSR/AMD_FIDELITY_FX_FSR_STACK.cs:61-65 | a non-null resource is freed (one `Free` in the log); a null one costs nothing |
| Gpu.Device.CreateTarget | Assets/AMD_FSR/AMD_FIDELITY_FX_FSR_STACK.cs:126-129 | a new random-write texture of the requested size, under a fresh handle, is created and logged as allocated |
| Gpu.Device.CreateBuffer | Assets/AMD_FSR/AMD_FIDELITY_FX_FSR_STACK.cs:98-102 | a new compute buffer of `count` x `stride` bytes, under a fresh handle, is created and logged as allocated |
| Gpu.Device.GetTemporary | Assets/AMD_FSR/AMD_FIDELITY_FX_FSR.cs:91 | a pooled texture of the requested size, not random-write, is obtained and logged as a temporary |
| DispatchPlanner.TruncatedDiv | Assets/AMD_FSR/AMD_FIDELITY_FX_FSR_STACK.cs:155-156 | C# `int` division rounds toward zero: quotient bounds for a non-negative and for a negative dividend |
| DispatchPlanner.GroupCount | Assets/AMD_FSR/AMD_FIDELITY_FX_FSR_STACK.cs:154-156 | for every extent that is not negative, the 8-wide groups cover it (`groups * 8 >= extent`) and the last group starts inside it (`(groups - 1) * 8 < extent`); at least one group for a positive extent |
| DispatchPlanner.GroupCountIsLeast | Assets/AMD_FSR/AMD_FIDELITY_FX_FSR.cs:149-151 | no smaller group count covers the extent |
| DispatchPlanner.FullHdGroups | Assets/AMD_FSR/AMD_FIDELITY_FX_FSR.cs:149-151 | a 1920x1080 target is dispatched over 240x135 groups |
| FsrPasses.EasuInit | Assets/AMD_FSR/AMD_FIDELITY_FX_FSR_STACK.cs:144-149 | EASU init as defined: viewport at the pixel size, input size, output size of the first target, the EASU buffer on kernel 1, then one 1x1x1 dispatch of kernel 1 |
| FsrPasses.EasuMain | Assets/AMD_FSR/AMD_FIDELITY_FX_FSR_STACK.cs:151-159 | EASU main as defined: the frame source as input, the first target as output, the EASU buffer on kernel 0, then kernel 0 over `GroupCount` of the target's width and height |
| FsrPasses.RcasInit | Assets/AMD_FSR/AMD_FIDELITY_FX_FSR_STACK.cs:164-166 | RCAS init as defined: the RCAS buffer on kernel 1, the sharpness scalar, then one 1x1x1 dispatch of kernel 1 |
| FsrPasses.RcasMain | Assets/AMD_FSR/AMD_FIDELITY_FX_FSR_STACK.cs:168-172 | RCAS main as defined: the RCAS buffer on kernel 0, the first target as input, the second target as output, then kernel 0 over the first target's tiles |
| FsrPasses.Passes | Assets/AMD_FSR/AMD_FIDELITY_FX_FSR_STACK.cs:143-173 | a frame's passes: EASU init and main, then RCAS init and main only when sharpening |
| FsrPasses.KernelSchedule | Assets/AMD_FSR/AMD_FIDELITY_FX_FSR_STACK.cs:149-172 | the reference dispatch sequence the passes are proved against: two EASU dispatches, and two RCAS dispatches only when sharpening |
| FsrPasses.EasuInitStage | Assets/AMD_FSR/AMD_FIDELITY_FX_FSR_STACK.cs:144-149 | EASU init binds its constants and buffer and then dispatches kernel 1 once, 1x1x1, allocating nothing |
| FsrPasses.EasuMainStage | Assets/AMD_FSR/AMD_FIDELITY_FX_FSR_STACK.cs:151-159 | EASU main dispatches kernel 0 once, over the tiles of the first target, allocating nothing |
| FsrPasses.RcasInitStage | Assets/AMD_FSR/AMD_FIDELITY_FX_FSR_STACK.cs:164-166 | RCAS init dispatches kernel 1 once, 1x1x1, allocating nothing |
| FsrPasses.RcasMainStage | Assets/AMD_FSR/AMD_FIDELITY_FX_FSR_STACK.cs:168-172 | RCAS main dispatches kernel 0 once, over the same tiles as EASU main, allocating nothing |
| FsrPasses.PassesSchedule | Assets/AMD_FSR/AMD_FIDELITY_FX_FSR_STACK.cs:143-173 | the passes submit exactly the dispatches EASU init, EASU main and, only when sharpening, RCAS init and RCAS main, in that order, the mains sized by the first target; nothing is allocated or freed |
| FsrPasses.FrameDispatches | Assets/AMD_FSR/AMD_FIDELITY_FX_FSR_STACK.cs:114-175 | in a frame, only the passes dispatch; the setup before them and the final blit do not |
| FsrPasses.QuietAfterDispatch | Assets/AMD_FSR/AMD_FIDELITY_FX_FSR_STACK.cs:116-175 | nothing after a frame's first dispatch allocates or frees, so reallocation finishes before any kernel binds a target |
| FsrPasses.PassesBindTargets | Assets/AMD_FSR/AMD_FIDELITY_FX_FSR_STACK.cs:151-170 | EASU main binds the first target, RCAS main the first and the second; when these are held (the second whenever sharpening), every target-bound texture slot of the passes is non-null and held |
| FsrPasses.SubmitEasuInit | Assets/AMD_FSR/AMD_FIDELITY_FX_FSR.cs:139-144 | the calls made one at a time log exactly the EASU init stage |
| FsrPasses.SubmitEasuMain | Assets/AMD_FSR/AMD_FIDELITY_FX_FSR.cs:146-154 | the calls log exactly the EASU main stage; the returned group counts are the ceilings of the first target's size over 8 |
| FsrPasses.SubmitRcas | Assets/AMD_FSR/AMD_FIDELITY_FX_FSR.cs:157-168 | the calls log exactly RCAS init followed by RCAS main, with EASU main's group counts |
| FsrResources.ParameterBuffers | Assets/AMD_FSR/AMD_FIDELITY_FX_FSR_STACK.cs:98-102 | `Init` sets the EASU field to a new buffer of 4 x 16 bytes and the RCAS field to one of 1 x 16 bytes, under the next two handles |
| FsrResources.ParameterBufferCommands | Assets/AMD_FSR/AMD_FIDELITY_FX_FSR_STACK.cs:98-101 | the two allocations `Init` logs: EASU buffer first, then RCAS buffer |
| FsrResources.FreshNotOwned | Assets/AMD_FSR/AMD_FIDELITY_FX_FSR_STACK.cs:126 | a resource created under the next free handle is not one any field already holds |
| FsrResources.ParameterBuffersAccounted | Assets/AMD_FSR/AMD_FIDELITY_FX_FSR_STACK.cs:98-102 | on null fields, the two new buffers (4 x 16 and 1 x 16 bytes, fresh) become exactly what the fields hold, and the handles stay apart |
| FsrResources.ParameterBuffersLeak | Assets/AMD_FSR/AMD_FIDELITY_FX_FSR_STACK.cs:98 | over a held EASU buffer, the old buffer stays live but no field holds it |
| FsrResources.RecreateCommands | Assets/AMD_FSR/AMD_FIDELITY_FX_FSR_STACK.cs:125-139 | the reallocation branch logs: free the first target when held, allocate its replacement at the given size, and only when sharpening do the same for the second target |
| FsrResources.Recreated | Assets/AMD_FSR/AMD_FIDELITY_FX_FSR_STACK.cs:125-139 | the fields after the branch: a new first target; a new second target only when sharpening, otherwise the old one |
| FsrResources.RecreateAccounted | Assets/AMD_FSR/AMD_FIDELITY_FX_FSR_STACK.cs:125-139 | recreation frees the old first target (and the second one when sharpening) and makes the new targets exactly what the fields hold, with distinct handles |
| FsrResources.RecreateOnlyChangesResources | Assets/AMD_FSR/AMD_FIDELITY_FX_FSR_STACK.cs:125-139 | every command of the reallocation branch allocates or frees; none binds or dispatches |
| FsrResources.RecreateOrder | Assets/AMD_FSR/AMD_FIDELITY_FX_FSR_STACK.cs:125-126 | the old first target, when held, is freed first, then its replacement is created |
| FsrResources.ReleaseAllCommands | Assets/AMD_FSR/AMD_FIDELITY_FX_FSR_STACK.cs:61-83 | freeing each non-null field in source order: first target, EASU buffer, second target, RCAS buffer |
| FsrResources.ReleasedAll | Assets/AMD_FSR/AMD_FIDELITY_FX_FSR_STACK.cs:61-83 | all four resource fields null |
| FsrResources.ReleaseAllAccounted | Assets/AMD_FSR/AMD_FIDELITY_FX_FSR_STACK.cs:61-83 | freeing each non-null field leaves nothing live, whatever the fields held, and the fields are all null |
| FsrResources.ReleaseAllIdempotent | Assets/AMD_FSR/AMD_FIDELITY_FX_FSR_STACK.cs:61-83 | releasing again frees nothing and changes nothing |
| FsrStack.NeedsReallocation | Assets/AMD_FSR/AMD_FIDELITY_FX_FSR_STACK.cs:116 | the condition as written: no first target, or the recorded scaled width or height differs from the camera's, or the flag is false while sharpening |
| FsrStack.ReallocationStep | Assets/AMD_FSR/AMD_FIDELITY_FX_FSR_STACK.cs:116-140 | the branch's commands when the condition holds, with targets at the camera's pixel size; nothing otherwise |
| FsrStack.Initialized | Assets/AMD_FSR/AMD_FIDELITY_FX_FSR_STACK.cs:91-105 | `Init`: the parameter buffers are created and overwrite the fields |
| FsrStack.Released | Assets/AMD_FSR/AMD_FIDELITY_FX_FSR_STACK.cs:59-89 | `Release`: each non-null resource freed in field order, fields null, flag false, then `ResizeBuffers(1, 1)` |
| FsrStack.FramePasses | Assets/AMD_FSR/AMD_FIDELITY_FX_FSR_STACK.cs:143-173 | the passes over the targets after the branch, with the viewport at the pixel size and the input at the scaled size |
| FsrStack.FinalBlit | Assets/AMD_FSR/AMD_FIDELITY_FX_FSR_STACK.cs:175 | the full-screen blit of the second target when sharpening and of the first otherwise, over the pixel rectangle, without clearing |
| FsrStack.FrameCommands | Assets/AMD_FSR/AMD_FIDELITY_FX_FSR_STACK.cs:114-175 | one `Render` call: the buffer scaling, the reallocation branch, the passes, the blit |
| FsrStack.Rendered | Assets/AMD_FSR/AMD_FIDELITY_FX_FSR_STACK.cs:107-176 | the fields after the branch, with the frame's commands appended to the log |
| FsrStack.Retargeted | Assets/AMD_FSR/AMD_FIDELITY_FX_FSR_STACK.cs:116-140 | after the reallocation branch a first target exists; the branch leaves `isRCASSetup` alone (the line that would set it, 134, is commented out) |
| FsrStack.InitialInv | Assets/AMD_FSR/AMD_FIDELITY_FX_FSR_STACK.cs:50-57 | a new renderer holds nothing and satisfies the invariant |
| FsrStack.InitCreatesParameterBuffers | Assets/AMD_FSR/AMD_FIDELITY_FX_FSR_STACK.cs:91-105 | `Init` on null buffers creates a fresh 4 x 16-byte EASU buffer and a fresh 1 x 16-byte RCAS buffer and keeps the invariant |
| FsrStack.InitTwiceLeaks | Assets/AMD_FSR/AMD_FIDELITY_FX_FSR_STACK.cs:98-99 | `Init` over held buffers leaves the old EASU buffer live and unowned |
| FsrStack.FrameShape | Assets/AMD_FSR/AMD_FIDELITY_FX_FSR_STACK.cs:114-173 | the passes dispatch the kernel schedule and are inert; the buffer scaling and the reallocation dispatch nothing |
| FsrStack.FrameAccounted | Assets/AMD_FSR/AMD_FIDELITY_FX_FSR_STACK.cs:107-176 | a frame turns the resources the fields held into those they hold afterwards, keeping the handles apart |
| FsrStack.RenderPreservesInv | Assets/AMD_FSR/AMD_FIDELITY_FX_FSR_STACK.cs:107-176 | every `Render` keeps the invariant: live is exactly what the fields hold |
| FsrStack.ReallocationTrigger | Assets/AMD_FSR/AMD_FIDELITY_FX_FSR_STACK.cs:116-129 | when the condition holds, the scaled size is recorded and the first target is a fresh random-write texture of the pixel size; when it does not, resources and recorded size are unchanged |
| FsrStack.ReleaseBeforeRecreate | Assets/AMD_FSR/AMD_FIDELITY_FX_FSR_STACK.cs:114-126 | right after the buffer scaling, the old first target is freed and then its replacement is created |
| FsrStack.FrameChangesResourcesIff | Assets/AMD_FSR/AMD_FIDELITY_FX_FSR_STACK.cs:116-175 | a frame allocates or frees anything if and only if the reallocation condition holds |
| FsrStack.SharpeningReallocatesEveryFrame | Assets/AMD_FSR/AMD_FIDELITY_FX_FSR_STACK.cs:116-139 | with sharpening on, every frame creates two fresh targets of the pixel size and the flag stays false, so no frame is allocation-free |
| FsrStack.SharpeningOffKeepsSecondTarget | Assets/AMD_FSR/AMD_FIDELITY_FX_FSR_STACK.cs:132-140 | with sharpening off, the second target and the flag are untouched |
| FsrStack.SteadyFrameWithoutSharpening | Assets/AMD_FSR/AMD_FIDELITY_FX_FSR_STACK.cs:116 | with sharpening off, a repeated frame at the same size allocates and frees nothing |
| FsrStack.FrameOrder | Assets/AMD_FSR/AMD_FIDELITY_FX_FSR_STACK.cs:114-175 | a frame first sets the buffer scaling, dispatches exactly the kernel schedule, allocates nothing after its first dispatch, and ends with the full-screen blit of the second target when sharpening and the first otherwise |
| FsrStack.EasuInputIsScaledSize | Assets/AMD_FSR/AMD_FIDELITY_FX_FSR_STACK.cs:145 | EASU's input size is the camera's scaled size |
| FsrStack.BlitSourceIsLive | Assets/AMD_FSR/AMD_FIDELITY_FX_FSR_STACK.cs:175 | the blit reads a non-null, live target |
| FsrStack.KernelTargetsAreLive | Assets/AMD_FSR/AMD_FIDELITY_FX_FSR_STACK.cs:151-170 | under the invariant every texture slot of a frame bound to a target gets a non-null, live target |
| FsrStack.ReleaseFreesEverything | Assets/AMD_FSR/AMD_FIDELITY_FX_FSR_STACK.cs:59-89 | `Release` nulls every field, leaves nothing live, keeps the invariant and resets the buffer scaling to (1, 1) last |
| FsrStack.ReleaseIdempotent | Assets/AMD_FSR/AMD_FIDELITY_FX_FSR_STACK.cs:59-89 | a second `Release` frees nothing; it only resets the buffer scaling again |
| FsrStack.FsrStackRenderer.constructor | Assets/AMD_FSR/AMD_FIDELITY_FX_FSR_STACK.cs:50-57 | the fields start null, zero and false |
| FsrStack.FsrStackRenderer.Init | Assets/AMD_FSR/AMD_FIDELITY_FX_FSR_STACK.cs:91-105 | the fields and log become `Initialized` of the old state; the invariant holds when the buffers were null |
| FsrStack.FsrStackRenderer.Release | Assets/AMD_FSR/AMD_FIDELITY_FX_FSR_STACK.cs:59-89 | the fields and log become `Released` of the old state; the invariant is kept |
| FsrStack.FsrStackRenderer.EnsureTargets | Assets/AMD_FSR/AMD_FIDELITY_FX_FSR_STACK.cs:116-141 | the fields become `Retargeted` and the log gains the reallocation commands |
| FsrStack.FsrStackRenderer.Render | Assets/AMD_FSR/AMD_FIDELITY_FX_FSR_STACK.cs:107-176 | the fields and log become `Rendered` of the old state; the invariant is kept |
| FsrCamera.NeedsReallocation | Assets/AMD_FSR/AMD_FIDELITY_FX_FSR.cs:108 | the condition as written: no first target, or the recorded previous scaled width or height differs from the current one, or the flag is false while sharpening |
| FsrCamera.ReallocationStep | Assets/AMD_FSR/AMD_FIDELITY_FX_FSR.cs:108-136 | the branch's commands when the condition holds, with targets at the camera's pixel size; nothing otherwise |
| FsrCamera.Enabled | Assets/AMD_FSR/AMD_FIDELITY_FX_FSR.cs:75-83 | `OnEnable`: the parameter buffers are created and overwrite the fields |
| FsrCamera.Disabled | Assets/AMD_FSR/AMD_FIDELITY_FX_FSR.cs:46-73 | `OnDisable`: each non-null resource freed in field order, fields null, flag false; buffer scaling untouched |
| FsrCamera.PreRendered | Assets/AMD_FSR/AMD_FIDELITY_FX_FSR.cs:86-93 | `OnPreRender`: the scaled size recorded, a temporary of that size obtained, stored in `rt` and set as the camera's target |
| FsrCamera.PostRendered | Assets/AMD_FSR/AMD_FIDELITY_FX_FSR.cs:95-99 | `OnPostRender`: `rt` returned to the pool and the camera's target cleared |
| FsrCamera.FramePasses | Assets/AMD_FSR/AMD_FIDELITY_FX_FSR.cs:138-168 | the passes over the targets after the branch, with the viewport and the input both at the pixel size |
| FsrCamera.FinalBlit | Assets/AMD_FSR/AMD_FIDELITY_FX_FSR.cs:170 | the blit of the second target when sharpening and of the first otherwise |
| FsrCamera.FrameCommands | Assets/AMD_FSR/AMD_FIDELITY_FX_FSR.cs:108-170 | one `OnRenderImage` call: the reallocation branch, the passes, the blit |
| FsrCamera.RenderedImage | Assets/AMD_FSR/AMD_FIDELITY_FX_FSR.cs:101-172 | the fields after the branch, with the frame's commands appended to the log |
| FsrCamera.CameraFrame | Assets/AMD_FSR/AMD_FIDELITY_FX_FSR.cs:86-172 | one camera frame: `OnPreRender`, `OnPostRender`, then `OnRenderImage` |
| FsrCamera.Retargeted | Assets/AMD_FSR/AMD_FIDELITY_FX_FSR.cs:108-136 | after the reallocation branch a first target exists and the log is untouched |
| FsrCamera.InitialInv | Assets/AMD_FSR/AMD_FIDELITY_FX_FSR.cs:37-44 | a new behaviour holds nothing and satisfies the invariant |
| FsrCamera.EnableCreatesBuffers | Assets/AMD_FSR/AMD_FIDELITY_FX_FSR.cs:75-83 | `OnEnable` on null buffers creates a fresh 4 x 16-byte EASU buffer and a fresh 1 x 16-byte RCAS buffer and keeps the invariant |
| FsrCamera.EnableTwiceLeaks | Assets/AMD_FSR/AMD_FIDELITY_FX_FSR.cs:78-79 | `OnEnable` over held buffers leaves the old EASU buffer live and unowned |
| FsrCamera.DisableReleasesAll | Assets/AMD_FSR/AMD_FIDELITY_FX_FSR.cs:46-73 | `OnDisable` nulls every field, clears the flag, leaves nothing live and keeps the invariant; recorded sizes and the temporary are untouched |
| FsrCamera.DisableIdempotent | Assets/AMD_FSR/AMD_FIDELITY_FX_FSR.cs:46-73 | a second `OnDisable` submits nothing and changes nothing |
| FsrCamera.PreRenderPreservesInv | Assets/AMD_FSR/AMD_FIDELITY_FX_FSR.cs:86-93 | `OnPreRender` keeps the invariant |
| FsrCamera.PostRenderPreservesInv | Assets/AMD_FSR/AMD_FIDELITY_FX_FSR.cs:95-99 | `OnPostRender` keeps the invariant |
| FsrCamera.TemporaryPairing | Assets/AMD_FSR/AMD_FIDELITY_FX_FSR.cs:86-99 | the temporary has the scaled size and is attached to the camera, then returned to the pool and detached; the log gains exactly that pair |
| FsrCamera.FrameShape | Assets/AMD_FSR/AMD_FIDELITY_FX_FSR.cs:138-168 | the passes dispatch the kernel schedule and are inert; the reallocation dispatches nothing |
| FsrCamera.FrameAccounted | Assets/AMD_FSR/AMD_FIDELITY_FX_FSR.cs:101-172 | a frame turns the resources the fields held into those they hold afterwards, keeping the handles apart |
| FsrCamera.RenderImagePreservesInv | Assets/AMD_FSR/AMD_FIDELITY_FX_FSR.cs:101-172 | every `OnRenderImage` keeps the invariant |
| FsrCamera.CameraFramePreservesInv | Assets/AMD_FSR/AMD_FIDELITY_FX_FSR.cs:86-172 | a whole camera frame (pre-render, post-render, image) keeps the invariant |
| FsrCamera.ReallocationTrigger | Assets/AMD_FSR/AMD_FIDELITY_FX_FSR.cs:108-136 | when the condition holds, the recorded size is updated, the first target is fresh at the pixel size, and when sharpening the second one too and the flag is set; otherwise resources, flag and recorded size are unchanged |
| FsrCamera.FrameChangesResourcesIff | Assets/AMD_FSR/AMD_FIDELITY_FX_FSR.cs:108-170 | a frame allocates or frees anything if and only if the reallocation condition holds |
| FsrCamera.SteadyFrameAllocatesNothing | Assets/AMD_FSR/AMD_FIDELITY_FX_FSR.cs:86-136 | after one frame, the next at the same scaled size and setting keeps both targets and allocates nothing |
| FsrCamera.SecondTargetOutlivesResize | Assets/AMD_FSR/AMD_FIDELITY_FX_FSR.cs:108-135 | with the flag set, a resize with sharpening off and then sharpening on keeps the second target from before the resize, and the blit reads it |
| FsrCamera.FrameOrder | Assets/AMD_FSR/AMD_FIDELITY_FX_FSR.cs:108-170 | a frame dispatches exactly the kernel schedule, allocates nothing after its first dispatch, and ends with the blit of the second target when sharpening and the first otherwise |
| FsrCamera.EasuInputIsPixelSize | Assets/AMD_FSR/AMD_FIDELITY_FX_FSR.cs:140 | EASU's input size is the camera's pixel size |
| FsrCamera.BlitSourceIsLive | Assets/AMD_FSR/AMD_FIDELITY_FX_FSR.cs:170 | the blit reads a non-null, live target |
| FsrCamera.KernelTargetsAreLive | Assets/AMD_FSR/AMD_FIDELITY_FX_FSR.cs:146-165 | under the invariant every texture slot of a frame bound to a target gets a non-null, live target, including the second target that RCAS writes |
| FsrCamera.FsrCameraEffect.constructor | Assets/AMD_FSR/AMD_FIDELITY_FX_FSR.cs:37-44 | the fields start null, zero and false |
| FsrCamera.FsrCameraEffect.OnDisable | Assets/AMD_FSR/AMD_FIDELITY_FX_FSR.cs:46-73 | the fields and log become `Disabled` of the old state; the invariant is kept |
| FsrCamera.FsrCameraEffect.OnEnable | Assets/AMD_FSR/AMD_FIDELITY_FX_FSR.cs:75-83 | the fields and log become `Enabled` of the old state; the invariant holds when the buffers were null |
| FsrCamera.FsrCameraEffect.OnPreRender | Assets/AMD_FSR/AMD_FIDELITY_FX_FSR.cs:86-93 | the fields and log become `PreRendered`; the invariant is kept |
| FsrCamera.FsrCameraEffect.OnPostRender | Assets/AMD_FSR/AMD_FIDELITY_FX_FSR.cs:95-99 | the fields and log become `PostRendered`; the invariant is kept |
| FsrCamera.FsrCameraEffect.EnsureTargets | Assets/AMD_FSR/AMD_FIDELITY_FX_FSR.cs:108-136 | the fields become `Retargeted` and the log gains the reallocation commands |
| FsrCamera.FsrCameraEffect.OnRenderImage | Assets/AMD_FSR/AMD_FIDELITY_FX_FSR.cs:101-172 | the fields and log become `RenderedImage` of the old state; the invariant is kept |

## Left out

- Floating point. The scale factor is not modelled. Neither are
  `ScalableBufferManager`'s float scales (`FsrStack.Settings.bufferScale`
  stands for `1f / scaleFactor`), the mip bias, or the reciprocal
  components of the output-size vector. The camera variant's truncated
  scaled size is an input to `OnPreRender`. The stack's scaled size is an
  input of the render context.
- Texture formats, the sRGB colour space, `mipMapBias`, and buffer
  names. The model abstracts these away.
- `Resources.Load` of the shaders, `Shader.PropertyToID`, and
  `GetComponent<Camera>`. These are engine lookups; the fixed
  shader/constant names stand for them.
- The EASU and RCAS kernels themselves, and GPU asynchrony. The model
  stops at the ordered command stream.
- What `ScalableBufferManager.ResizeBuffers` does to later frames. It
  is logged, not interpreted.
- `base.Init` and `base.Release` of the post-processing stack. Their
  code is not part of this model.
- `context.source` and `context.destination` of the stack, and the
  camera's `src`/`dest`. These are abstract (`Binding.SourceImage`); the
  stack's command buffer and the camera's direct shader calls are logged
  alike.
- Whether a pooled temporary texture is alive. Temporaries are logged
  but not tracked in `Live`: the pool owns them, not the driver.
- The device as shared with other users. Each driver builds its own
  `Gpu.Device` and is modelled as its only user, so the next free handle
  is never taken by anyone else.
- Engine exceptions such as a failed allocation. The source handles
  none, and neither does the model.
- FsrStack.FsrStackRenderer.Init: the invariant is promised only when
  the parameter buffers are null on entry, which is the case under the
  stack's lifecycle. Otherwise the old buffers leak (`FsrStack.InitTwiceLeaks`).
- FsrCamera.FsrCameraEffect.OnEnable: the same holds for `OnEnable`
  after anything but `OnDisable` (`FsrCamera.EnableTwiceLeaks`).
- FsrStack.FsrStackRenderer.EnsureTargets and
  FsrCamera.FsrCameraEffect.EnsureTargets: these are the reallocation
  branch only. They state the new state but not the invariant, which
  holds once the frame is complete.
