# Render layer and movement component — a Dafny model

This project models two pieces of decision logic from a small real-time 3D game
engine.

1. **The forward-rendering layer (`RenderLayer`).** Each frame it clears its
   framebuffer and binds the global textures. It uploads the frame-level
   uniform block once. Then it walks the scene's render components in
   iteration order. A component without a mesh is skipped. A component without
   a material takes the scene's default material, or is skipped when the scene
   has none. A one-slot cache, `currentMat`, starts null each frame. A shader
   bind plus material apply happens only when a component's material differs
   from the one in that cache. Each drawn component gets an instance-uniform
   upload and then a draw call. The skybox comes last. The layer also holds a
   clear colour, a set of render flags and a blit flag, each with a getter and
   a setter. Its window-resize handler ignores zero-sized windows.
2. **The `Movement` component.** `Awake` looks up the rigid body and disables
   the component when there is none. `Update` clears `is_moving`. Key A pushes
   the body left unless its x-velocity is already above 20; key D pushes it
   right unless its x-velocity is below −20. Each push sets `is_moving` and the
   object's rotation. `ToJson`/`FromJson` store only the moving flag.

Modules:

- `Wrappers` (Wrappers.dfy) — `Option` for nullable shared pointers, `Result`
  for operations that throw.
- `RenderLayer` (RenderLayer.dfy) — the layer's configuration state, its
  constructor, getters and setters, and the window-resize handler.
- `RenderPass` (RenderPass.dfy) — one frame of `OnRender` as a trace of
  `Event`s, and what that trace contains.
- `Movement` (Movement.dfy) — the component's state, `Awake`, `Update` as a
  list of effects, and JSON serialisation.

How the model abstracts the source:

- GPU calls become trace events.
- Shared pointers become natural-number ids. "Same material" (pointer
  equality) becomes id equality.
- Every matrix (projection, view, view-projection, model, model-view-projection,
  normal matrix) is a function of the camera or game object it is computed
  from. So an event names that camera or object instead of holding a matrix.
- The frame clock, the keyboard and the physics body's velocity are inputs.
- The event order follows the code. The two uniform buffers are bound to
  their slots first. Then comes the physics debug draw. Only then are the
  frame uniforms uploaded.
- The velocity read by the A check and the one read by the D check are
  independent inputs. Whether the first impulse changes the second reading is
  up to the physics engine, which is not part of this model.

## Model

| member | source | states |
|---|---|---|
| `RenderLayer.Create` | src/Application/Layers/RenderLayer.cpp:19-30 | A new layer is named "Rendering", overrides load, render and resize, has blitting on, has exactly the colour-correction flag set, and has clear colour (0.1, 0.1, 0.1, 1). |
| `RenderLayer.IsBlitEnabled` | src/Application/Layers/RenderLayer.cpp:192-194 | Returns the stored blit flag: setting the flag to the value read back leaves the layer unchanged. |
| `RenderLayer.GetClearColor` | src/Application/Layers/RenderLayer.cpp:204-206 | Returns the stored clear colour: setting the colour to the value read back leaves the layer unchanged. |
| `RenderLayer.GetRenderFlags` | src/Application/Layers/RenderLayer.cpp:216-218 | Returns the stored render flags: setting the flags to the value read back leaves the layer unchanged. |
| `RenderLayer.SetBlitEnabled` | src/Application/Layers/RenderLayer.cpp:196-198 | The blit flag becomes the value set. Clear colour, flags, name and overrides are unchanged. |
| `RenderLayer.SetClearColor` | src/Application/Layers/RenderLayer.cpp:208-210 | The clear colour becomes the value set. Everything else is unchanged. |
| `RenderLayer.SetRenderFlags` | src/Application/Layers/RenderLayer.cpp:212-214 | The render flags become the value set. Everything else is unchanged. |
| `RenderLayer.SettersOverwriteAndCommute` | src/Application/Layers/RenderLayer.cpp:192-218 | Each getter returns what its setter stored last. A second call to a setter fully replaces the first. Setters of different fields commute. |
| `RenderLayer.OnWindowResize` | src/Application/Layers/RenderLayer.cpp:148-158 | With the intended guard: a zero width or height leaves framebuffer and camera unchanged. Any other size goes to the framebuffer, and the same width and height go to the camera. |
| `RenderLayer.OnWindowResizeAsWritten` | src/Application/Layers/RenderLayer.cpp:148-158 | The handler with the guard as written: it ignores the event when the 32-bit product of width and height is zero, and otherwise resizes both targets. |
| `RenderLayer.ResizeIdempotent` | src/Application/Layers/RenderLayer.cpp:150-157 | Resizing twice to the same size equals resizing once. After a resize, framebuffer and camera agree unless the event was ignored. |
| `RenderLayer.GuardsAgreeWithoutOverflow` | src/Application/Layers/RenderLayer.cpp:150 | When width × height fits in 32 bits, the guard as written and the intended guard decide alike, so the two handlers give the same result. |
| `RenderLayer.AsWrittenIgnoresLargeWindow` | src/Application/Layers/RenderLayer.cpp:150 | For a 65536 × 65536 window the written guard wraps to zero and drops the resize. The intended guard resizes. |
| `RenderPass.DrawRenderable` | src/Application/Layers/RenderLayer.cpp:99-137 | One renderable's callback. A skipped renderable (no mesh, or no material and no default) issues nothing and leaves the bound material alone. A drawn one leaves its resolved material bound. The renderable comes back as `WrittenBack` describes. |
| `RenderPass.DrawRenderableEvents` | src/Application/Layers/RenderLayer.cpp:115-136 | A renderable's events hold one draw of its mesh and one instance update for its game object exactly when it is drawn. They hold a bind exactly when it is drawn with a material other than the bound one, and the bind comes first. The instance update is computed from the frame's camera and comes right before the draw, and nothing else is issued. The draw is issued with the renderable's resolved material bound, and that material stays bound after it. |
| `RenderPass.DrawOne` | src/Application/Layers/RenderLayer.cpp:99-137 | The callback as the source writes it, with early returns and an in-place `currentMat`. It gives the same events, renderable and bound material as `DrawRenderable`. |
| `RenderPass.DrawLoop` | src/Application/Layers/RenderLayer.cpp:99-137 | The fold over the render components hands back one updated renderable per input renderable. |
| `RenderPass.DrawLoopAppend` | src/Application/Layers/RenderLayer.cpp:61-137 | The loop over `a + b` equals the loop over `a`, followed by the loop over `b` started from the material `a` left bound. `currentMat` is the only state carried between renderables. |
| `RenderPass.RunDrawLoop` | src/Application/Layers/RenderLayer.cpp:61-137 | The imperative loop, with `currentMat` starting null, gives the fold's trace and renderables. |
| `RenderPass.DrawLoopDrawsEligibleInOrder` | src/Application/Layers/RenderLayer.cpp:99-137 | The loop's draws are the meshes of the eligible renderables (mesh present and a material resolvable), in scene order. Its instance updates are those renderables' game objects, all computed from the same camera. Every draw comes right after an instance update, and every instance update right before a draw. The loop issues only binds, instance updates and draws. |
| `RenderPass.DrawLoopBindsOnMaterialChange` | src/Application/Layers/RenderLayer.cpp:115-123 | The materials bound are the resolved materials of the eligible renderables, in order, with each repeat of its eligible predecessor dropped. So skipped renderables never change the binding. |
| `RenderPass.DrawLoopDrawsWithMaterialBound` | src/Application/Layers/RenderLayer.cpp:115-136 | The k-th draw of the loop is issued while the k-th eligible renderable's resolved material is bound: the last bind before it, or the initial binding if there is none. The binding the trace leaves is the loop's `currentMat`. |
| `RenderPass.DrawLoopLeavesLastMaterialBound` | src/Application/Layers/RenderLayer.cpp:117-119 | After the loop the bound material is that of the last renderable drawn, or the initial one when nothing was drawn. |
| `RenderPass.DrawLoopWritesBackDefault` | src/Application/Layers/RenderLayer.cpp:105-113 | Each renderable after the loop is `WrittenBack`: one with a mesh and no material takes the scene default; every other renderable, including one without a mesh, is unchanged. |
| `RenderPass.SkippedAndDefaultedRenderables` | src/Application/Layers/RenderLayer.cpp:100-113 | No mesh: no events, renderable and bound material unchanged. Mesh, no material, no default: same. Mesh, no material, with default: it takes the default, is drawn once, and leaves the default bound. |
| `RenderPass.DedupProperties` | src/Application/Layers/RenderLayer.cpp:61-123 | The collapsed bind list has no two equal neighbours. Its first element differs from what was bound before. When nothing was bound it starts with the first eligible material, so the first drawn renderable always binds. It only contains materials from its input and is no longer than it. |
| `RenderPass.OnRender` | src/Application/Layers/RenderLayer.cpp:34-146 | A frame's trace is the prologue and frame-uniform upload, then the draw loop from no bound material, then skybox and vertex-array unbind. The frame returns the scene with every renderable as `WrittenBack` and the rest of the scene unchanged. |
| `RenderPass.FrameHeadAndTailOutsideLoop` | src/Application/Layers/RenderLayer.cpp:40-145 | The events before the loop (clear, texture binds, pre-render hook, uniform-slot binds, physics debug, frame-uniform upload) and after it (skybox, vertex-array unbind) contain no bind, instance update or draw. |
| `RenderPass.OnRenderDrawsAndBinds` | src/Application/Layers/RenderLayer.cpp:34-146 | Over a whole frame: one draw per eligible renderable, in scene order, each right after its object's instance update. Every instance update uses the scene's main camera, whose view-projection is read once per frame. Binds are the eligible materials with consecutive repeats dropped, starting from nothing bound. |
| `RenderPass.OnRenderFrameOrder` | src/Application/Layers/RenderLayer.cpp:40-140 | The frame starts by clearing with the layer's clear colour. The frame uniforms are uploaded exactly once, before every draw. They carry the scene camera, the clock readings and the layer's current render flags. The skybox is drawn after every draw. |
| `RenderPass.OnRenderDrawsWithMaterialBound` | src/Application/Layers/RenderLayer.cpp:61-137 | Over a whole frame, the k-th draw draws the k-th eligible mesh while the k-th eligible resolved material is bound. |
| `RenderPass.ScenarioSharedMaterialBindsOnce` | src/Application/Layers/RenderLayer.cpp:115-136 | Materials [A, A, B] bind A, then B, and draw three meshes in order. |
| `RenderPass.ScenarioSkipKeepsBinding` | src/Application/Layers/RenderLayer.cpp:100-123 | [A, no mesh, A] binds A once and draws the first and third meshes. |
| `RenderPass.ScenarioNothingDrawable` | src/Application/Layers/RenderLayer.cpp:100-113 | [no mesh, mesh with no material] with no scene default issues no event and leaves nothing bound. |
| `Movement.Create` | src/Gameplay/Components/Movement.cpp:8-12 | A new component is not moving, has impulse 0.1 and has no body yet. |
| `Movement.Awake` | src/Gameplay/Components/Movement.cpp:16-22 | `Awake` stores the lookup's result as the body. `IsEnabled` becomes false exactly when no body was found and is otherwise unchanged. |
| `Movement.AwakeEnablesUpdate` | src/Gameplay/Components/Movement.cpp:16-45 | A component still enabled after `Awake` was enabled before and has a body, so `Update` may read the body whatever keys are down. |
| `Movement.KeyBranch` | src/Gameplay/Components/Movement.cpp:29-45 | One key branch: if it fires it applies exactly one impulse of the given x strength, then sets the rotation to (90, 0, 0), and marks the component moving. Otherwise it does nothing. |
| `Movement.Update` | src/Gameplay/Components/Movement.cpp:24-46 | `is_moving` ends true exactly when the A check (A down, vx ≤ 20) or the D check (D down, vx ≥ −20) passes. The impulses applied are (−impulse, 0, 0) if A passes, then (+impulse, 0, 0) if D passes. Each impulse is immediately followed by setting the rotation to (90, 0, 0), every rotation set comes right after an impulse, and the rotation is set exactly when moving. Impulse and body are unchanged. |
| `Movement.UpdateResetsMoving` | src/Gameplay/Components/Movement.cpp:27 | The update's outcome does not depend on the previous `is_moving`. |
| `Movement.UpdateWithoutKeys` | src/Gameplay/Components/Movement.cpp:27-45 | With no key down, the update has no effect and the component ends not moving. |
| `Movement.UpdateKeyAAlone` | src/Gameplay/Components/Movement.cpp:29-36 | A alone pushes left and sets the rotation to (90, 0, 0) iff vx ≤ 20, else does nothing. |
| `Movement.UpdateKeyDAlone` | src/Gameplay/Components/Movement.cpp:38-45 | D alone pushes right and sets the rotation to (90, 0, 0) iff vx ≥ −20, else does nothing. |
| `Movement.UpdateBothKeys` | src/Gameplay/Components/Movement.cpp:29-45 | With both keys down and both checks passing: the left push, rotation, right push, rotation, in that order. Exactly the two impulses −impulse then +impulse. The component ends moving. |
| `Movement.ToJson` | src/Gameplay/Components/Movement.cpp:53-58 | The serialised component is an object whose only member is "moving", holding the moving flag. |
| `Movement.FromJson` | src/Gameplay/Components/Movement.cpp:60-65 | Reading succeeds exactly when the blob is an object with a boolean "moving" member. The result is a freshly constructed component with that flag. |
| `Movement.JsonRoundTrip` | src/Gameplay/Components/Movement.cpp:53-65 | Reading back what was written keeps `is_moving`. Impulse and body are the constructor's (0.1, none), not those of the component written. |
| `Movement.JsonReadThenWrite` | src/Gameplay/Components/Movement.cpp:53-65 | Writing out a component read from a blob gives back only the blob's "moving" member. |

## Left out

- GPU state calls are not modelled: depth-test and face-culling enables, the debug drawer's view-projection, and the framebuffer and uniform-buffer creation in `OnAppLoad`. Viewport, framebuffer bind and clear are merged into one `BeginTarget` event that carries the clear colour. Texture binds, the scene's pre-render hook, the uniform-slot binds, the physics debug draw, the skybox draw and the vertex-array unbind are bare trace events.
- Matrix arithmetic (view-projection, model-view-projection, normal matrix) is not modelled; an event names the camera or game object its matrices come from. The instance model-view-projection uses the view-projection read at RenderLayer.cpp:53, before the scene's pre-render hook (:78) and the physics debug draw (:83), while the frame block reads the camera again at :87-89. Naming both by the camera assumes neither hook changes the main camera's matrices. The source's normal matrix is the upper 3×3 of the inverse-transpose of the full 4×4 transform. That agrees with the inverse-transpose of the upper 3×3 only for affine transforms, and it is not checked here.
- `OnAppLoad`, `GetPrimaryFBO`, `GetRenderOutput` and the destructor only create or hand out GPU objects, so they are left out. So is the primary framebuffer's null initial value. `OnRender` and `OnWindowResize` assume the framebuffer was created on load, and the scene always has a main camera.
- Floats are modelled as reals: 0.1f is taken as exactly 0.1, and NaN velocities are not modelled.
- The numeric values of the `RenderFlags` bitmask come from RenderLayer.h, which is not part of this model. The flags are a set of named toggles.
- `IsEnabled`'s initial value belongs to the component base class (IComponent.h, not part of this model). So `Awake` takes and returns it next to the component.
- Key polling: `glfwGetKey(...) && GLFW_PRESS` holds exactly when the key state is non-zero, so each key is a boolean input. The `deltaTime` argument of `Update` is unused in the source.
- Movement.Update: requires a body whenever a key is down. With a key down and a null `_body`, Movement.cpp:30 and :39 dereference a null pointer. The model relies on the engine not updating a disabled component, and `Awake` disables the component when it finds no body (`AwakeEnablesUpdate`). The component base class and the scene's update loop are not part of this model.
- The physics engine's response to `ApplyImpulse` is not modelled. The two velocity readings are independent inputs.
- `FromJson` reads the member through the JSON library's const `operator[]`. For a blob without "moving" that is undefined behaviour in the library; the model treats it as a failure, like the library's type errors for a non-object blob or a non-boolean member.
- `RenderImGui` is empty, and the `speed` field is never used.

## Findings

| source | as written | input that shows it | evidently intended | confidence | as-written member | corrected member |
|---|---|---|---|---|---|---|
| src/Application/Layers/RenderLayer.cpp:150 | The resize is ignored when `newSize.x * newSize.y == 0`, a product of two 32-bit ints. | 65536 × 65536: the product 2^32 wraps to 0 under two's-complement arithmetic (in C++ this signed overflow is undefined behaviour), so a real resize is dropped. | Ignore the event only when the width or the height is zero. | low — not executed; needs a window of at least 2^32 pixels | `RenderLayer.AsWrittenIgnoresLargeWindow` | `RenderLayer.OnWindowResize` |
