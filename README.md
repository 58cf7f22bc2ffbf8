# SimpleSDF host logic in Dafny

SimpleSDF is a set of Vulkan demos that ray-march signed distance fields in a
fragment shader: SDFCornell (a Cornell box with a reflective shadow map, RSM,
for one bounce of indirect light), SDF2D (2D lights and a ball that follows
the cursor) and SDF3D (a lit 3D scene). The shaders do the rendering. The C++
host decides which GPU objects exist, which command list each swapchain image
records, what goes into the uniform block, and the order in which one frame
talks to the GPU. This project models that host logic and proves properties of
it.

How the model represents the C++ program:

- **GPU objects** are opaque handles in a registry (`Handles.Table`). The
  registry maps each live handle to the name and object type the engine's
  resource manager registered it under. Handle 0 stands for `VK_NULL_HANDLE`.
  Destroying by name removes exactly the objects registered under that name.
  Handles are never reused.
- **Recorded commands** are an abstract list (`Commands.Command`). Each entry
  carries the render pass, framebuffer or descriptor set it uses, so
  `Commands.Refs` gives the set of objects it reads. `Commands.Replay` tracks
  image layouts and the currently open render pass through the list.
- **Host/GPU interaction** is a ghost trace of `FrameLoop.Event`s: fence
  wait, device idle, acquire, fence reset, upload, reset/record, submit and
  present.
- **SDFCornell's GPU work** is tracked per frame slot. A ghost `inFlight` set
  holds the objects the slot's not-yet-waited submission reads. This is what
  makes the no-use-after-free property statable for the RSM rebuild.
- **The application objects** (`SDFCornell`, `SDF2D`, `SDF3D`) are classes
  whose fields the methods update in place, as in the C++.
- **Outside inputs** are parameters. These cover the swapchain's image index,
  whether `vkQueueSubmit` succeeds, the clock, cursor events and control-panel
  interaction. A failed submission is `Outcome.Threw` carrying the C++
  message.
- **Floats** are `real`. The trigonometric light direction and its
  normalisation are inputs, not computed.
- **Uniform structs** are lists of members with their `alignas`. A pure
  offset function computes C++ placement, and the three structs are checked
  against it.

Three behaviours of the code that the model keeps:

- SDFCornell consumes a pending RSM resize right after the fence wait,
  before it acquires an image.
- SDF3D's `updateUniformBuffer` always writes (0, 0) to `iMouse`
  (src/SDF3D.cpp:273-275). Its `initVulkanPC` also never calls
  `setupMouseCallback`, so `mouseX` and `mouseY` stay 0.
- The control panel of each demo is drawn and recorded only when the
  context has an ImGui manager. Each frame's panel input is optional; with
  none, no UI commands are recorded and no setting changes.

## Model

| member | source | states |
|---|---|---|
| Handles.Table.Fresh | src/SDFCornell.cpp:145-157 | a newly built object gets a handle that is neither null nor live |
| Handles.Table.Create | src/SDFCornell.cpp:188-205 | building registers one new object under its name; every live object keeps its role, and nothing else appears |
| Handles.Table.Clear | src/SDFCornell.cpp:214-217 | `clearResource(name)` removes exactly the objects registered under that name; the rest keep their roles and no handle is reused |
| Handles.Table.CreateAll | src/SDFCornell.cpp:106-113 | building several objects in order registers the i-th under the i-th name with a new handle; old objects stay |
| Handles.Table.CreateMany | src/SDFCornell.cpp:383-384 | `buildMultiple(n)` registers n new objects, the i-th under index i of its family |
| StructLayout.RoundUp | include/SDFCornell.hpp:31-65 | rounding an end offset up to an `alignas` gives the least aligned offset not below it |
| StructLayout.OffsetOf | include/SDFCornell.hpp:31-65 | each member starts on a multiple of its `alignas`, at or after the end of the member before it, and ends where the next member's placement begins |
| StructLayout.LayoutTableOffsets | include/SDFCornell.hpp:31-65 | a table of offsets that obeys the placement rule at every member equals the computed offsets |
| StructLayout.EndBeforeMonotone | include/SDFCornell.hpp:31-65 | members are laid out in declaration order: ends never decrease |
| StructLayout.MembersDisjoint | include/SDFCornell.hpp:31-65 | no two members overlap: each lies wholly before every later one |
| StructLayout.AlignUpToBounded | include/SDFCornell.hpp:31-65 | a struct whose first member has the largest `alignas` takes that as its alignment |
| StructLayout.AlignUpToDividesAll | include/SDFCornell.hpp:31-65 | the struct alignment is a power of two that every member's `alignas` divides |
| StructLayout.SizeOfCoversAndAligns | include/SDFCornell.hpp:31-65 | `sizeof` covers every member and is a multiple of every member's alignment and of the struct alignment |
| CornellHeader.UniformFieldsWellFormed | include/SDFCornell.hpp:31-65 | every `alignas` in `SDFCornellUniforms` is a power of two not below the member type's own alignment |
| CornellHeader.UniformOffsets | include/SDFCornell.hpp:31-65 | offsets are iTime 0, iResolution 8, iMouse 16, iFrame 24, sphereRotation 32, then a 16-byte step per vec4 (lightColors 48 bytes), with roughnessValues at 320 and metallicValues at 336 |
| CornellHeader.UniformSize | include/SDFCornell.hpp:62-64 | the struct alignment is 16 and `sizeof` is 368, a multiple of 16; every member is aligned and inside the struct |
| Sdf2dHeader.ShaderToyFieldsWellFormed | include/SDF2D.hpp:38-45 | every `alignas` in `ShaderToyUniforms` is a power of two not below its type's alignment |
| Sdf2dHeader.ShaderToyOffsets | include/SDF2D.hpp:38-45 | offsets are iTime 0, iResolution 8, iMouse 16, lightPos 24, lightOn 32, lightRadius 48, ending at 64 |
| Sdf2dHeader.ShaderToySize | include/SDF2D.hpp:38-45 | alignment 16, size 64; members aligned, inside the struct and pairwise disjoint |
| Sdf3dHeader.ShaderToy3DFieldsWellFormed | include/SDF3D.hpp:30-36 | every `alignas` in `ShaderToy3DUniforms` is a power of two not below its type's alignment |
| Sdf3dHeader.ShaderToy3DOffsets | include/SDF3D.hpp:30-36 | offsets are iTime 0, iResolution 8, iMouse 16, iFrame 24, enableLights 32, ending at 48 |
| Sdf3dHeader.ShaderToy3DSize | include/SDF3D.hpp:30-36 | alignment 16, size 48, 4 padding bytes after iFrame; members aligned, inside and pairwise disjoint |
| Commands.BindingsRefs | src/SDFCornell.cpp:643-652 | a descriptor set reads every object any of its bindings names |
| Commands.RefsAppend | src/SDFCornell.cpp:387-581 | the objects a recording reads are those of its parts, for a recording appended step by step |
| Commands.RefsCover | src/SDFCornell.cpp:387-581 | a recording reads every object of each command in it |
| Commands.RefsWithin | src/SDFCornell.cpp:387-581 | a recording whose every command reads only objects of a set reads only that set |
| Commands.ReplayAppend | src/SDFCornell.cpp:387-581 | executing a recording in two parts is executing it at once |
| Commands.UniformFinalLayouts | src/SDFCornell.cpp:162-188 | ending a pass whose attachments all have one final layout puts each attachment image in it and leaves other images alone |
| Commands.CountBeginsAppend | src/SDFCornell.cpp:387-581 | render-pass begins of a split recording add up |
| Commands.ReplayInsidePass | src/SDFCornell.cpp:425-434 | binds, viewport, scissor, draws and UI change neither layouts nor the open pass |
| Commands.NoBegins | src/SDFCornell.cpp:425-434 | a stretch without a begin contributes no render-pass begins |
| FrameLoop.NextSlot | src/SDFCornell.cpp:606 | `(currentFrame + 1) % frameNum` is a slot; it is the next slot, or 0 after the last |
| FrameLoop.AdvanceTracksCount | src/SDFCornell.cpp:606-607 | advancing the slot of frame count F gives the slot of F + 1, so `currentFrame == frameCounter % frameNum` is kept |
| FrameLoop.SlotsCycle | include/SDFCornell.hpp:85-89 | after F frames from slot s the slot is `(s + F) % frameNum` |
| FrameLoop.FrameEventsAt | src/SDFCornell.cpp:584-605 | a frame is: fence wait, device idle only if resizing, acquire with the slot's semaphore, fence reset, upload, reset and record of the acquired image's buffer, submit, and present only if the submission succeeded |
| FrameLoop.FrameOrder | src/SDFCornell.cpp:584-605 | fence wait precedes fence reset; the resize precedes acquire; acquire precedes fence reset; upload precedes record; reset precedes record; record precedes submit; submit precedes present |
| FrameLoop.FrameConditionalEvents | src/SDFCornell.cpp:586-605 | the device is idled iff a resize was pending, and the image is presented iff the submission succeeded |
| FrameResources.BuildFramebuffers | src/SDFCornell.cpp:131-141 | one new framebuffer per swapchain view, the i-th wrapping exactly image i and view i at the extent, registered under index i |
| FrameResources.BuildDescriptorSets | src/SDFCornell.cpp:638-656 | exactly `count` new descriptor sets, each with the given bindings, the i-th registered under index i |
| FrameResources.RebuildDescriptorSets | src/SDFCornell.cpp:251-269 | for each index the old set of that name is cleared and a new one built: afterwards the only set under each name is the new one, and everything else is kept |
| FrameResources.SwapchainFramebuffersNoDangling | src/SDFCornell.cpp:131-141 | every swapchain framebuffer reads only live objects |
| FrameResources.DescriptorSetsKept | src/SDFCornell.cpp:638-656 | building more objects keeps descriptor sets live |
| FrameResources.CreateSwapchain | src/SDFCornell.cpp:86-88 | the swapchain has the given image count and extent, with live images and views |
| FrameResources.CreateRenderPass | src/SDFCornell.cpp:118-129 | the main pass is new and live, with one attachment whose final layout is PRESENT_SRC |
| FrameResources.CreateCommandBuffers | src/SDFCornell.cpp:379-385 | an existing pool is reused, a missing one is created; one live command buffer per swapchain view |
| FrameResources.CreateSlot | src/SDFCornell.cpp:115 | a slot gets a live fence and two live semaphores of its own |
| FrameResources.CreateFrameSynchronization | src/SDFCornell.cpp:115 | `frameNum` slots, each with its own live fence, image-available and render-finished semaphore |
| FrameResources.SwapchainStaysLive | src/SDFCornell.cpp:88-115 | building more objects keeps the swapchain live |
| FrameResources.FramebuffersStayLive | src/SDFCornell.cpp:91-115 | building more objects keeps the framebuffers live |
| FrameResources.CommandBuffersStayLive | src/SDFCornell.cpp:113-115 | building more objects keeps the command buffers live |
| CornellFrame.DescriptorBindings | src/SDFCornell.cpp:643-652 | binding 0 is the uniform buffer, 1 to 3 the position, normal and flux views with the RSM sampler, 4 the flower view and sampler |
| CornellFrame.DescriptorBindingsRefs | src/SDFCornell.cpp:643-652 | a Cornell descriptor set reads the uniform buffer, the three RSM views, the RSM sampler and the flower view and sampler, and nothing else |
| CornellFrame.RsmPassEffect | src/SDFCornell.cpp:393-410 | the RSM pass ends closed, with its three images in the render pass's final layouts |
| CornellFrame.RsmTransitionsEffect | src/SDFCornell.cpp:411-418 | the three transitions leave every RSM image in SHADER_READ_ONLY and the open pass unchanged |
| CornellFrame.BranchClosesPasses | src/SDFCornell.cpp:393-418 | whichever branch runs, no pass is open afterwards |
| CornellFrame.CornellCommandsSplit | src/SDFCornell.cpp:387-581 | the recording is begin, the RSM branch, then the main pass and end |
| CornellFrame.RsmReadyBeforeMainPass | src/SDFCornell.cpp:393-423 | when the main pass begins, on either branch, no pass is open and all three RSM images are in SHADER_READ_ONLY |
| CornellFrame.MainPassEffect | src/SDFCornell.cpp:420-580 | the main pass ends closed with the swapchain image in PRESENT_SRC |
| CornellFrame.MainPassBegunOnce | src/SDFCornell.cpp:420-580 | the main pass begins nowhere in the RSM branch and exactly once after it |
| CornellFrame.SingleMainPass | src/SDFCornell.cpp:387-581 | the whole recording begins the main pass exactly once, closes every pass and leaves the image presentable |
| CornellFrame.PanelInsideMainPass | src/SDFCornell.cpp:436-577 | the panel's commands are in the recording exactly when there is an ImGui manager, and wherever they are the main pass is open on the image's framebuffer |
| CornellFrame.MainPassRefs | src/SDFCornell.cpp:420-434 | the main pass reads the main pass, the image's framebuffer and descriptor set, the pipeline and layout, and the vertex buffer |
| CornellFrame.BranchRefsExact | src/SDFCornell.cpp:393-418 | the RSM pass reads the RSM pass, framebuffer, pipeline, layout, descriptor set and vertex buffer; the transition branch reads the three images |
| CornellFrame.CornellRefs | src/SDFCornell.cpp:387-581 | the recording reads exactly the branch's and the main pass's objects, including everything the image's descriptor set binds |
| CornellFrame.ResolutionForIndex | src/SDFCornell.cpp:472-479 | combo entries 0, 1, 2 and 3 map to 512, 1024, 2048 and 4096; any other index maps to 1024 |
| CornellFrame.ResolutionEntriesDistinct | src/SDFCornell.cpp:468-479 | different combo entries name different sizes |
| CornellFrame.PickResolution | src/SDFCornell.cpp:467-484 | picking the shown entry or picking nothing changes nothing; picking another entry records its size and sets the pending flag |
| CornellFrame.PickKeepsConsistent | src/SDFCornell.cpp:467-484 | the combo index and the size it names stay in agreement |
| CornellFrame.ClickToggles | src/SDFCornell.cpp:454-466 | a clicked checkbox flips and the others stay; Indirect and Importance, drawn only while RSM is on, flip only if RSM is on once its own click is applied |
| CornellFrame.ApplyUi | src/SDFCornell.cpp:440-572 | the checkboxes flip exactly the clicked toggles, each reset button restores its defaults, the material combo and PBR edits apply only while PBR is on, and with no slider moved every setting no button touched is unchanged |
| CornellFrame.ApplyUiSliders | src/SDFCornell.cpp:440-572 | each slider and the sphere colour take the moved value or keep the old one, a reset button pressed in the same frame wins, and Indirect Intensity moves only while RSM is on |
| CornellFrame.ApplyUiPbrSliders | src/SDFCornell.cpp:540-566 | while PBR is on and not reset, the global PBR sliders take their moved values and the roughness and metallic pair edit only the sphere the combo selects |
| CornellFrame.NoInteractionKeepsSettings | src/SDFCornell.cpp:436-577 | a frame with no panel interaction leaves the settings as they were |
| CornellFrame.ClickTwiceRestores | src/SDFCornell.cpp:454-466 | clicking the same checkboxes twice, RSM aside, restores them |
| CornellFrame.UpCandidate | src/SDFCornell.cpp:716-717 | the up candidate is +X when the light is within 0.95 of vertical, else +Y |
| CornellFrame.RightNeverDegenerates | src/SDFCornell.cpp:716-722 | for a unit light direction, the unnormalised right vector has squared length at least 0.0975, so it is never zero |
| CornellFrame.StickStep | src/SDFCornell.cpp:662-664 | pitch grows by the stick's y times 0.02 and yaw by its x times 0.02, roll and every other setting are kept, and at rest nothing changes |
| CornellFrame.PackUniforms | src/SDFCornell.cpp:657-775 | flags follow the booleans, `rsmParams.w` is RSM, `rsmParams.z` is RSM and indirect, every switch lane is 0 or 1, and `rsmResolution` is (rsmWidth, rsmHeight) |
| CornellFrame.IndirectNeedsRsm | src/SDFCornell.cpp:743-744 | the shader never sees indirect lighting on while RSM is off |
| CornellFrame.ConstantLanesFixed | src/SDFCornell.cpp:700-752 | the light colours, ambient colour, RSM radius 6 and sample count 32, white base factors, homogeneous 0/1 lanes and every reserved lane are the same on every frame |
| CornellFrame.LightBasisOrthogonal | src/SDFCornell.cpp:719-729 | the light-space right and up vectors are perpendicular to the light direction and to each other |
| CornellFrame.LightOriginBehindScene | src/SDFCornell.cpp:731-735 | the light origin is 6 units back along the light direction, with w = 1 |
| CornellObjects.RsmLiveMeans | include/SDFCornell.hpp:175-189 | the shadow map is live exactly when each of its three images, views and memories, its render pass, framebuffer and sampler is registered under its own name |
| CornellObjects.NoDangling | src/SDFCornell.cpp:252-269 | no descriptor set, swapchain framebuffer or RSM framebuffer references a destroyed handle |
| CornellObjects.SetsNoDangling | src/SDFCornell.cpp:638-656 | every descriptor set built over live objects reads only live objects |
| CornellObjects.BindingsLive | src/SDFCornell.cpp:643-652 | the five bindings name live objects |
| CornellObjects.RsmFramebufferNoDangling | src/SDFCornell.cpp:191-197 | the RSM framebuffer reads only live objects |
| CornellObjects.SlotLiveObjects | src/SDFCornell.cpp:598-602 | what a submission uses (command buffer, fence and both semaphores) is live |
| CornellObjects.FixedObjectsLive | src/SDFCornell.cpp:106-113 | passes, pipelines, layouts, the vertex buffer and the RSM images are live |
| CornellObjects.RecordingLive | src/SDFCornell.cpp:387-581 | whichever branch runs, every object the recording reads is live |
| CornellObjects.RecordingShape | src/SDFCornell.cpp:387-581 | the main pass begins on image i's framebuffer with the RSM images readable, is begun exactly once, holds the panel's commands exactly when there is an ImGui manager, and leaves image i in PRESENT_SRC |
| CornellObjects.GpuKept | src/SDFCornell.cpp:214-269 | rebuilding the RSM leaves every other object of the frame loop live |
| CornellObjects.RsmFrom | src/SDFCornell.cpp:191-197 | the RSM framebuffer wraps the three views at its size with the pass's final layouts |
| CornellObjects.RsmFromLive | src/SDFCornell.cpp:143-206 | an RSM assembled from newly built attachments is live |
| CornellObjects.CreateRSMPassResources | src/SDFCornell.cpp:143-206 | three attachments, a pass whose final layouts are SHADER_READ_ONLY, a framebuffer on the three views at the RSM size, and a sampler, all live |
| CornellObjects.CreateBuffers | src/SDFCornell.cpp:106-109 | vertex buffer, uniform buffer and memory, flower texture and descriptor layout are built and live |
| CornellObjects.CreatePipelines | src/SDFCornell.cpp:111-112 | main and RSM pipelines and layouts are built and live |
| CornellObjects.BuildTargets | src/SDFCornell.cpp:88-94 | swapchain, main pass, framebuffers and RSM targets of the given size are built and live |
| CornellObjects.BuildBindings | src/SDFCornell.cpp:106-110 | buffers, texture, layout and one descriptor set per image, each binding the five objects |
| CornellObjects.BuildPipelines | src/SDFCornell.cpp:111-115 | pipelines, command buffers (reusing an existing pool) and frame synchronisation are built |
| CornellObjects.BuildObjects | src/SDFCornell.cpp:86-115 | everything `initVulkanPC` builds is live, with the given image count and extent |
| CornellObjects.BuildResources | src/SDFCornell.cpp:86-115 | the state after `initVulkanPC` is live and keeps the RSM size |
| CornellObjects.ClearRsmTargets | src/SDFCornell.cpp:214-217 | exactly the RSM framebuffer and the three images, with their views and memory, are destroyed |
| CornellObjects.RebuildRsm | src/SDFCornell.cpp:214-269 | the old RSM objects and descriptor sets are gone, the new ones are live at the new size, and the new sets bind the new views |
| CornellObjects.RebuildResources | src/SDFCornell.cpp:208-270 | after the rebuild everything is live, the size is `newSize`, pass and sampler are reused, and none of the old RSM objects or sets survive |
| CornellObjects.RebuildRsmTargets | src/SDFCornell.cpp:214-249 | the framebuffer and images are cleared and rebuilt at `newSize` on the existing pass; every other object is kept |
| CornellObjects.CreateRsmTargets | src/SDFCornell.cpp:228-249 | three new attachments and a framebuffer on their views at the given size, all newer than anything before |
| Cornell.SDFCornell.constructor | include/SDFCornell.hpp:85-201 | nothing created, every handle null, frame and count 0, header settings with RSM off, a 1024 RSM matching combo entry 1, no rebuild pending |
| Cornell.SDFCornell.SetupMouseCallback | src/SDFCornell.cpp:777-786 | the cursor callback exists exactly on desktop builds |
| Cornell.SDFCornell.OnCursorPos | src/SDFCornell.cpp:780-784 | the callback stores the cursor position |
| Cornell.SDFCornell.InitVulkanPC | src/SDFCornell.cpp:86-115 | every object is built and live, nothing is recorded or in flight, the RSM size is kept, and the callback is set up on desktop |
| Cornell.SDFCornell.RecreateRSMResources | src/SDFCornell.cpp:208-270 | the device is idled first, so no work is in flight; the RSM is rebuilt at `newSize`, old RSM objects and sets are destroyed, and the state stays live |
| Cornell.SDFCornell.UpdateUniformBuffer | src/SDFCornell.cpp:657-775 | the joystick step is applied, then the uploaded block is the packing of the settings and frame inputs |
| Cornell.SDFCornell.RecordCommandBuffer | src/SDFCornell.cpp:387-581 | image i's recording follows the RSM setting from before the panel ran; with an ImGui manager the panel and combo then update settings and request, without one both are unchanged and no UI is recorded |
| Cornell.SDFCornell.BeginFrame | src/SDFCornell.cpp:584-591 | the slot's fence is waited, a pending resize is consumed exactly once and clears the flag, then acquire and fence reset; every other slot's in-flight set is emptied by a rebuild and otherwise unchanged |
| Cornell.SDFCornell.SubmitFrame | src/SDFCornell.cpp:598-607 | a failed submit throws before present with slot and count unchanged; otherwise the slot's work is recorded as in flight, the image is presented, the slot advances and the count grows by one |
| Cornell.SDFCornell.RecordFrame | src/SDFCornell.cpp:593-596 | the upload, reset and re-recording of the acquired image's command buffer |
| Cornell.SDFCornell.RenderFrame | src/SDFCornell.cpp:593-607 | the recording and submission with the live state kept |
| Cornell.SDFCornell.DrawFrame | src/SDFCornell.cpp:583-608 | the whole frame in order, with the RSM resized iff a rebuild was pending, the acquired image's buffer re-recorded, and the slot and count advanced only on success; the other slots' in-flight sets are emptied by a rebuild and otherwise unchanged |
| Cornell.SDFCornell.MainLoop | src/SDFCornell.cpp:610-616 | after F completed frames the count grew by F and the slot is the count modulo `frameNum`; a failed submit ends the loop, otherwise the device is idled last |
| SinglePass.DemoSizing | src/SDF2D.cpp:206-219 | one framebuffer, command buffer and descriptor set per swapchain image, and every set binds only the uniform buffer |
| SinglePass.BuildDemoTargets | src/SDF2D.cpp:183-219 | swapchain, main pass and one framebuffer per image are built and live |
| SinglePass.BuildDemoBindings | src/SDF2D.cpp:495-511 | buffers and layout are live and there is one descriptor set per image, binding the uniform buffer at 0 |
| SinglePass.BuildDemoPipelines | src/SDF2D.cpp:322-337 | pipeline and layout, one command buffer per view (reusing an existing pool) and the slots' synchronisation are live |
| SinglePass.BuildDemo | src/SDF3D.cpp:64-87 | everything the single-pass `initVulkanPC` builds is live with the given image count and extent |
| SinglePass.DemoPassOpens | src/SDF3D.cpp:174-179 | after begin, the main pass is open on the image's framebuffer |
| SinglePass.DemoPassStaysOpen | src/SDF3D.cpp:181-202 | the pass stays open through bind, draw and UI |
| SinglePass.DemoPassEnds | src/SDF3D.cpp:204-205 | ending the pass applies its final layouts and closes it |
| SinglePass.DemoBeginsOnce | src/SDF3D.cpp:171-206 | the single pass is begun exactly once |
| SinglePass.DemoRecordingShape | src/SDF3D.cpp:171-206 | the pass begins on `framebuffers[imageIndex]`, the only draw is 4 vertices, UI commands appear exactly when there is an ImGui manager and only inside the pass, and the image ends in PRESENT_SRC |
| SinglePass.DemoRecordingLive | src/SDF3D.cpp:171-206 | everything the recording reads is live |
| Sdf2dRules.Flag | src/SDF2D.cpp:534-536 | a light flag is 1.0 or 0.0, above 0.5 exactly when the light is on |
| Sdf2dRules.PackUniforms | src/SDF2D.cpp:513-553 | `iMouse` is the ball (not the raw cursor), `lightPos` the sliders, the flags follow `lightEnabled`, radii are copied, and the padding lanes are 0 |
| Sdf2dRules.ClampToExtent | src/SDF2D.cpp:584-585 | the result lies in [0, extent]; in range it is the value, below it 0, above it the extent |
| Sdf2dRules.BallFromCursor | src/SDF2D.cpp:576-585 | the ball is the cursor times the sensitivity, clamped into [0, width] by [0, height] |
| Sdf2dRules.BallFollowsCursorX | src/SDF2D.cpp:576-585 | with a non-negative sensitivity the ball never moves against the cursor horizontally |
| Sdf2dRules.BallFollowsCursorY | src/SDF2D.cpp:576-585 | with a non-negative sensitivity the ball never moves against the cursor vertically |
| Sdf2dRules.Toggle | src/SDF2D.cpp:396-402 | a light flips exactly when its checkbox is clicked |
| Sdf2dRules.ToggleTwice | src/SDF2D.cpp:396-402 | clicking twice restores the lights |
| Sdf2dRules.MoveSliders | src/SDF2D.cpp:397-403 | a moved slider takes its new value and the others keep theirs |
| Sdf2dRules.ApplyPanel | src/SDF2D.cpp:396-408 | the panel flips exactly the clicked lights, each radius and light 1's x and y take the moved value or keep the old one, the sensitivity is the moved one or unchanged, and with no input nothing changes |
| Sdf2dRules.TotalTimeStep | src/SDF2D.cpp:153-158 | a frame's duration is added to the total only from the third frame on |
| Sdf2dRules.ReportAt | src/SDF2D.cpp:161-166 | a printed report's divisor `frameCount - 2` is positive and equals the number of frames summed into `totalTime` |
| Sdf2dRules.ReportAtPrefix | src/SDF2D.cpp:148-166 | a report depends only on the frames up to it |
| Sdf2dRules.ReportsExact | src/SDF2D.cpp:161-174 | statistics are printed exactly at frames that are multiples of `framePauseInterval` (10) above 2, in increasing order, each with the totals up to that frame |
| Sdf2d.SDF2D.constructor | include/SDF2D.hpp:84-119 | slot 0, cursor and ball at (0, 0), sensitivity 1, lights {on, on, off} with radii {60, 80, 12}, light 1 at (400, 300), an empty registry and every handle null |
| Sdf2d.SDF2D.SetupMouseCallback | src/SDF2D.cpp:555-588 | on desktop the ball is centred on the swapchain extent and the callback installed; on OpenHarmony nothing happens |
| Sdf2d.SDF2D.OnCursorPos | src/SDF2D.cpp:565-586 | the raw cursor is stored and the ball is placed by `BallFromCursor`, inside the extent |
| Sdf2d.SDF2D.InitVulkanPC | src/SDF2D.cpp:55-134 | every object is built and live, nothing recorded, and on desktop the ball is centred and the callback installed |
| Sdf2d.SDF2D.UpdateUniformBuffer | src/SDF2D.cpp:513-553 | the uploaded block is the packing of the time, extent, ball and lights |
| Sdf2d.SDF2D.RecordCommandBuffer | src/SDF2D.cpp:339-416 | image i's buffer records the single pass with white clear; with an ImGui manager the panel then updates lights and sensitivity, without one they are unchanged and no UI is recorded |
| Sdf2d.SDF2D.RecordFrame | src/SDF2D.cpp:432-436 | upload, reset and re-record of the acquired image's buffer |
| Sdf2d.SDF2D.SubmitFrame | src/SDF2D.cpp:439-465 | a failed submit throws before present with the slot unchanged; otherwise present and advance |
| Sdf2d.SDF2D.DrawFrame | src/SDF2D.cpp:421-466 | the frame events in order without a resize, everything indexed by the acquired image, the recording reading only live objects, and the slot advanced only on success |
| Sdf2d.SDF2D.Turn | src/SDF2D.cpp:145-146 | one poll and draw: the slot advances on success, and the ball stays inside the extent |
| Sdf2d.SDF2D.MainLoop | src/SDF2D.cpp:137-178 | `frameTimes`, `totalTime` and the printed reports are those of the completed frames, the slot is `(start + frameCount) % frameNum`, and the device is idled last unless a submit threw |
| Sdf2d.CountFrame | src/SDF2D.cpp:148-174 | counting one frame appends its duration and keeps total and reports equal to their definitions |
| Sdf3d.IntFlag | src/SDF3D.cpp:277-280 | a light lane is 1 exactly when its toggle is on, else 0 |
| Sdf3d.PackUniforms | src/SDF3D.cpp:265-282 | `iMouse` is (0, 0), `iFrame` is `frameCounter`, and `enableLights` gives back the four toggles as 0/1 |
| Sdf3d.ApplyPanel | src/SDF3D.cpp:195-198 | each light flips exactly when its checkbox is clicked |
| Sdf3d.ClickTwice | src/SDF3D.cpp:195-198 | clicking twice restores the toggles |
| Sdf3d.SDF3D.constructor | include/SDF3D.hpp:68-98 | slot and count 0, cursor at (0, 0), all four lights on, an empty registry and every handle null |
| Sdf3d.SDF3D.SetupMouseCallback | src/SDF3D.cpp:284-293 | the callback exists exactly on desktop builds |
| Sdf3d.SDF3D.OnCursorPos | src/SDF3D.cpp:287-291 | the callback only stores the cursor position |
| Sdf3d.SDF3D.InitVulkanPC | src/SDF3D.cpp:39-88 | every object is built and live, and no mouse callback is installed |
| Sdf3d.SDF3D.UpdateUniformBuffer | src/SDF3D.cpp:265-282 | the uploaded block is the packing of time, extent, `frameCounter` and toggles |
| Sdf3d.SDF3D.RecordCommandBuffer | src/SDF3D.cpp:171-206 | image i's buffer records the single pass with the dark clear; with an ImGui manager the panel then updates the toggles, without one they are unchanged and no UI is recorded |
| Sdf3d.SDF3D.RecordFrame | src/SDF3D.cpp:214-217 | upload, reset and re-record of the acquired image's buffer |
| Sdf3d.SDF3D.SubmitFrame | src/SDF3D.cpp:219-228 | a failed submit throws before present and advance; otherwise the slot advances and the count grows by one |
| Sdf3d.SDF3D.DrawFrame | src/SDF3D.cpp:208-229 | the frame events in order, all indexed by the acquired image, with `currentFrame == frameCounter % frameNum` kept |
| Sdf3d.SDF3D.MainLoop | src/SDF3D.cpp:231-237 | after F completed frames the count grew by F and the slot is the count modulo `frameNum`; the device is idled last unless a submit threw |

## Left out

- Vulkan, EasyVulkan, GLFW and ImGui calls are not modelled; the whole ImGui frame is one `RecordUi` command, recorded only when there is an ImGui manager. Builders, `vkCmd*`, acquire, present and submit are modelled only as handles, abstract commands, trace events and a submit outcome.
- Concurrency between host and GPU is not modelled. The fence wait and `vkDeviceWaitIdle` are trace events. In SDFCornell they also empty the slot's ghost in-flight set.
- Floating point is not modelled:
  - reals stand in for `float`;
  - the trig light direction from elevation and azimuth, its normalisation and the right vector's length are frame inputs;
  - the FPS and average frame-time divisions are not computed; the reports carry the total and its divisor.
- Monitor and window selection, shader and texture loading, and the OpenHarmony initialisation paths are left out. So are `run` and the destructors.
- The widgets' drawing is left out; the model keeps each widget's effect on the settings.
- CornellFrame.ApplyUi: the light-direction canvas drag (the `sqrtf` projection onto the unit disc that sets elevation and azimuth) is not modelled, because it is floating-point geometry; the elevation and azimuth change only through Reset Light.
- Slider ranges such as 0 to 50 for radii and 0.1 to 5 for sensitivity are not enforced. A moved slider takes whatever value is supplied.
- Whether the C++ struct layouts match the GLSL shaders is not stated. The shaders are not part of this model.
- The unused `rsmUniformBuffer` and `rsmDescriptorSet` fields are left out, and so is `src/main.cpp`.
- For SDF2D and SDF3D, per-slot in-flight work is not tracked, because nothing is destroyed while they run.
- Cornell.SDFCornell.SubmitFrame: `frameCounter` is an unbounded `nat`. The model does not capture the 32-bit `int` overflow after 2^31 frames.
- Sdf3d.SDF3D.SubmitFrame: likewise, `frameCounter` does not wrap at 2^31.
- Sdf2d.SDF2D.MainLoop: `frameCount` is an unbounded `nat`, so the `int` overflow of the C++ counter is not captured.
- Sdf2dRules.Toggle: SDF2D's three lights are a sequence rather than a fixed C array. The model proves that `PackUniforms` and `ApplyPanel` keep its length 3.
