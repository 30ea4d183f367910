# Bloom post-processing demo: reference counts and frame order

This project models the core of the Bloom DirectX 11 demo: the `Material` class
and the `Game` class. A `Material` pairs a vertex program and a pixel program
with an optional colour view, an optional normal-map view and a sampler. It
shares the views and the sampler through their COM reference counts. `Game`
creates two sky render states and two off-screen textures in `Init`. Each frame
of `Draw` then runs four passes:

- a scene pass into the off-screen target;
- the entity draws;
- a skybox pass under the sky states;
- a blur pass that samples the off-screen texture into the back buffer.

Mouse drags turn the camera.

The Direct3D device is abstract (`device.dfy`). It keeps a table of reference
counts and a table of object descriptions. Both are sequences indexed by object
id, and ids are handed out in creation order. It also keeps a log of the calls
made on the context, the swap chain and the shader wrappers, in program order.
The modules are:

- `RefCount` (`refcount.dfy`): the `AddRef`/`Release` contract.
- `Device` (`device.dfy`): the device class.
- `Materials` (`material.dfy`): `Material.cpp`.
- `Pipeline` (`pipeline.dfy`): reading the log back. It works out which object
  each pipeline slot holds at any point, and which commands of a kind the log
  contains.
- `Frame` (`frame.dfy`): one frame of `Draw` as a specification, with its
  ordering lemmas.
- `Games` (`game.dfy`): the `Game` class and its mouse handling.

## Model

| member | source | states |
|---|---|---|
| RefCount.BorrowReturn | PostProcessing/DX11Starter/Material.cpp:40-65 | a getter's `AddRef` followed by the matching `Release` leaves every count as it was, and the object stays alive in between |
| Device.Device.Create | PostProcessing/DX11Starter/Game.cpp:141-142 | creating a texture or state object hands the caller the single reference of a fresh object with the next id, leaving every older count and description unchanged |
| Device.Device.CreateView | PostProcessing/DX11Starter/Game.cpp:144-148 | creating a view on a live texture gives the view one reference, and the view takes one more reference on its texture |
| Device.Device.AddRef | PostProcessing/DX11Starter/Material.cpp:14-18 | `p->AddRef()` raises the count of a live object by one |
| Device.Device.Release | PostProcessing/DX11Starter/Game.cpp:150-151 | `p->Release()` lowers the count of a live object by one |
| Materials.Constructed | PostProcessing/DX11Starter/Material.cpp:11-19 | the constructor raises each object's count by the number of times the material names it among its colour view, normal map and sampler; no other count and no table size changes |
| Materials.Destroyed | PostProcessing/DX11Starter/Material.cpp:21-28 | the destructor lowers each object's count by exactly that number |
| Materials.ConstructThenDestroy | PostProcessing/DX11Starter/Material.cpp:11-28 | after construction the destructor's needs hold, and construct-then-destroy leaves every count unchanged |
| Materials.Material.Empty | PostProcessing/DX11Starter/Material.cpp:3-9 | the default constructor nulls both programs, the colour view and the sampler, and takes no reference; with a null sampler, the destructor's need for a non-null sampler can never be met |
| Materials.Material.constructor | PostProcessing/DX11Starter/Material.cpp:11-19 | stores the five handles; needs a live sampler and views that are null or live; the new counts are `Constructed` of the old |
| Materials.Material.Destroy | PostProcessing/DX11Starter/Material.cpp:21-28 | needs a non-null sampler and enough references to give back; the new counts are `Destroyed` of the old |
| Materials.Material.GetVShader | PostProcessing/DX11Starter/Material.cpp:30-33 | returns the stored vertex program and changes nothing |
| Materials.Material.GetPShader | PostProcessing/DX11Starter/Material.cpp:35-38 | returns the stored pixel program and changes nothing |
| Materials.Material.GetShaderResView | PostProcessing/DX11Starter/Material.cpp:40-44 | returns the colour view, which must be live, and raises its count alone by one |
| Materials.Material.GetNormalMap | PostProcessing/DX11Starter/Material.cpp:46-50 | returns the normal map, which must be live, and raises its count alone by one |
| Materials.Material.GetSampler | PostProcessing/DX11Starter/Material.cpp:52-56 | returns the sampler, which must be live, and raises its count alone by one |
| Materials.Material.ReleaseShaderResView | PostProcessing/DX11Starter/Material.cpp:58-61 | lowers the colour view's count alone by one |
| Materials.Material.ReleaseSampler | PostProcessing/DX11Starter/Material.cpp:63-66 | lowers the sampler's count alone by one |
| Frame.ClearsComeFirst | PostProcessing/DX11Starter/Game.cpp:201-209 | a frame opens with the two colour clears and the depth clear (depth 1.0, stencil 0), ahead of every bind and draw; its length is 38 commands plus one per entity |
| Frame.HeadState | PostProcessing/DX11Starter/Game.cpp:209-229 | after the clears and the scene setup: output is the off-screen target with the depth view, and the first material's sampler, colour view and normal map are bound to its pixel program; every other slot is as it was |
| Frame.DrawsState | PostProcessing/DX11Starter/Game.cpp:235-238 | entity draws touch no slot other than the vertex and index buffers |
| Frame.SkyDrawn | PostProcessing/DX11Starter/Game.cpp:244-267 | at the skybox draw, the sky states, the first mesh's buffers and the sky view are bound |
| Frame.SkyState | PostProcessing/DX11Starter/Game.cpp:244-271 | the sky pass then puts the rasterizer and depth states back to the defaults |
| Frame.PostDrawn | PostProcessing/DX11Starter/Game.cpp:274-298 | at the full-screen draw: output is the back buffer without depth, there are no vertex or index buffers, and the off-screen texture and the borrowed sampler are bound to the blur program |
| Frame.PostState | PostProcessing/DX11Starter/Game.cpp:274-300 | the blur pass then unbinds its `InitialRender` input |
| Frame.EntityDrawStates | PostProcessing/DX11Starter/Game.cpp:209-238 | for a frame appended to any earlier log that left the rasterizer and depth states at their defaults, every entity draw runs into the off-screen target, with default states and the first material's sampler and views bound |
| Frame.SkyDrawStates | PostProcessing/DX11Starter/Game.cpp:240-267 | for a frame appended to any earlier log, the skybox draw runs into the off-screen target under the sky states, with the first mesh and the sky view |
| Frame.PostDrawStates | PostProcessing/DX11Starter/Game.cpp:270-298 | for a frame appended to any earlier log, the full-screen draw runs into the back buffer, with the defaults restored and no vertex input |
| Frame.SubmissionStates | PostProcessing/DX11Starter/Game.cpp:192-306 | for a frame appended to any earlier log that left the default states in place, every submission of the frame runs under the state its pass set up |
| Frame.RepeatedFrameStates | PostProcessing/DX11Starter/Game.cpp:192-306 | after any log that left the default states in place, every submission of any number of frames runs under the state its pass set up, and the defaults are in place again after the last frame |
| Frame.DefaultsBeforeBackBuffer | PostProcessing/DX11Starter/Game.cpp:263-274 | whatever log came before the frame, the sky states are back to the defaults when output switches to the back buffer |
| Frame.FrameEnd | PostProcessing/DX11Starter/Game.cpp:298-305 | after a frame, whatever log came before it, `InitialRender` is unbound, the default states are in place and the output is still the back buffer |
| Frame.EntitiesDrawnInOrder | PostProcessing/DX11Starter/Game.cpp:235-238 | every entity is drawn exactly once, in index order, and there is no other entity draw |
| Frame.SubmissionsPerFrame | PostProcessing/DX11Starter/Game.cpp:235-298 | a frame's submissions are the entity draws, then the skybox `DrawIndexed`, then `Draw(3, 0)`: one per entity plus two |
| Frame.PresentLast | PostProcessing/DX11Starter/Game.cpp:305 | `Present` is the last command of a frame and is issued exactly once |
| Frame.TargetBindsPerFrame | PostProcessing/DX11Starter/Game.cpp:209-274 | output is bound exactly twice per frame: to the off-screen target with depth, then to the back buffer without depth |
| Frame.SceneCounts | PostProcessing/DX11Starter/Game.cpp:217-233 | the scene pass borrows the first material's sampler, colour view and normal map and gives each back, so every count ends where it started |
| Frame.SkyCounts | PostProcessing/DX11Starter/Game.cpp:247-258 | the sky pass raises the sky view's count by one and leaves every other count as it was |
| Frame.FrameCounts | PostProcessing/DX11Starter/Game.cpp:192-306 | one frame changes only the sky view's count, up by one |
| Games.Frames | PostProcessing/DX11Starter/Game.cpp:250 | after `n` frames, the sky view's count is `n` higher and every other object's count is where it was |
| Games.SevenSubmissions | PostProcessing/DX11Starter/Game.cpp:89-94 | with the five entities of `Init`, a frame makes seven submissions |
| Games.OffScreenHolds | PostProcessing/DX11Starter/Game.cpp:141-151 | after the off-screen setup, each texture is held by its two views alone and each view once; no older count moves |
| Games.InitHolds | PostProcessing/DX11Starter/Game.cpp:98-151 | after `Init`, each sky state is held once, the off-screen objects are held as above, and no older count moves |
| Games.TopologyBindsNothing | PostProcessing/DX11Starter/Game.cpp:156 | setting the primitive topology leaves every pipeline slot as it was |
| Games.InitThenFrames | PostProcessing/DX11Starter/Game.cpp:156-306 | on a fresh device, `Init` followed by any number of frames: every submission, the first frame's included, runs under the state its pass set up |
| Games.InitConfigures | PostProcessing/DX11Starter/Game.cpp:98-148 | the objects `Init` creates are a front-culling rasterizer state with depth clipping, a depth state with writes on and a less-or-equal test, and a render-target view and a shader-resource view on each of two distinct textures of the client-area size, bindable as both; older descriptions are kept |
| Games.DragAddsUp | PostProcessing/DX11Starter/Game.cpp:350-362 | during a drag, however the pointer wanders, the total rotation is the distance from the first position to the last (y about x, x about y), and the drag ends at the last position, still moving |
| Games.HoverTurnsNothing | PostProcessing/DX11Starter/Game.cpp:350-362 | with no button held, moves turn nothing and only the last position is kept |
| Games.DragFromPress | PostProcessing/DX11Starter/Game.cpp:316-362 | a press followed by moves turns the camera by the distance from the press position, whatever came before |
| Games.Game.constructor | PostProcessing/DX11Starter/Game.cpp:15-30 | a 1280 x 720 client area, not moving, no entities and no materials |
| Games.Game.Init | PostProcessing/DX11Starter/Game.cpp:54-157 | loads the three materials under their names and builds the five entities; creates eight objects in creation order (sky rasterizer, sky depth, two textures, two render-target views, two shader-resource views), with counts `InitCounts` and descriptions `InitKinds`, set up as `Configured` describes; the textures are returned, not kept; sets the triangle-list topology, which leaves every pipeline slot as it was |
| Games.Game.CreateDeviceObjects | PostProcessing/DX11Starter/Game.cpp:97-151 | the eight device objects of `Init`, in creation order, with counts `InitCounts` and set up as `InitConfigures` describes |
| Games.Game.CreateSkyStates | PostProcessing/DX11Starter/Game.cpp:97-110 | the sky rasterizer and depth states, each a fresh object held once |
| Games.Game.CreateOffScreenTargets | PostProcessing/DX11Starter/Game.cpp:112-151 | two textures, a render-target view on each, a shader-resource view on each, then the textures' own references given back |
| Games.Game.CreatePair | PostProcessing/DX11Starter/Game.cpp:141-142 | two fresh objects with consecutive ids, each held once |
| Games.Game.CreateViewPair | PostProcessing/DX11Starter/Game.cpp:144-148 | two fresh views with consecutive ids, each taking a reference on its texture |
| Games.Game.Draw | PostProcessing/DX11Starter/Game.cpp:192-306 | appends exactly `FrameLog` to the log and changes the counts as `FrameCounts` does; the frame's preconditions still hold afterwards, so frames can repeat; the frame ends on the back buffer with the default states in place, and when it started from the default states every submission it makes runs under the state its pass set up |
| Games.Game.ScenePass | PostProcessing/DX11Starter/Game.cpp:196-233 | the clears and the scene setup, with every count back where it started; returns the borrowed sampler |
| Games.Game.DrawEntities | PostProcessing/DX11Starter/Game.cpp:235-238 | one entity draw per entity, in index order |
| Games.Game.SkyboxPass | PostProcessing/DX11Starter/Game.cpp:240-271 | the sky pass, with the sky view's count one higher |
| Games.Game.PostProcessPass | PostProcessing/DX11Starter/Game.cpp:273-305 | the blur pass and `Present`, sampling with the sampler borrowed in the scene pass |
| Games.Game.Destroy | PostProcessing/DX11Starter/Game.cpp:37-48 | gives back the depth state, then the rasterizer state; the four off-screen views keep their counts |
| Games.Game.OnMouseDown | PostProcessing/DX11Starter/Game.cpp:316-330 | records the position and starts a drag |
| Games.Game.OnMouseUp | PostProcessing/DX11Starter/Game.cpp:335-343 | ends the drag and keeps the last position |
| Games.Game.OnMouseMove | PostProcessing/DX11Starter/Game.cpp:350-362 | while dragging, asks the camera for `(prevY - y)` about x and `(prevX - x)` about y; always records the position |

## Left out

- Rendering: what the GPU computes (pixel contents, the blur's output) depends on Direct3D 11 and the shaders, neither of which is part of this model.
- Floating-point data: the light colours and directions, the camera matrices, and the texel sizes `1.0f / width` and `1.0f / height`. Each appears only as an opaque "set parameter" command naming the shader variable. The blur amount 9 is kept.
- Foreign code: SimpleShader, `Camera`, `Mesh`, `Entity` and `ContentManager` are not part of this model. `Entity::draw` is one opaque command that binds the entity's mesh buffers. The content manager is reduced to the table of materials it hands out by name, and `Init` receives the loaded materials and meshes as parameters. The camera is reduced to the rotations it is asked for.
- Window plumbing: `Update`, `OnResize`, `OnMouseWheel`, key polling, `SetCapture`/`ReleaseCapture` and the console window.
- `HRESULT`s: every creation call is assumed to succeed.
- Object identity: device objects are numbered in creation order, which stands in for pointer identity.
- Cascading release: a view whose count reaches zero would release the resource it views. No view created by `Game` reaches zero. A `Material`'s views can, and the model does not then release the resource they view.
- `blRTV`/`blSRV`: declared in `Game.h` but never created or used, so not modelled.
- Games.Game.Destroy: the `delete` of the camera, the entities and the content manager is not modelled, because their destructors are not part of this model. Only the two `Release` calls are.
- Games.Game.Init: the texture format, the mip levels and the view dimensions are not recorded. A texture is described only by its size and its two bind flags. The rasterizer state's `FillMode = SOLID` (Game.cpp:100) and the depth state's `DepthEnable = true` (Game.cpp:108) are not recorded either: `Kind` keeps only the cull mode, depth clipping, the depth write mask and the depth test.
- Games.Game.ScenePass: the source calls `getVShader()` once for each of its two matrix uploads. The model calls it once, which makes no difference because the getter changes nothing.
- Games.Game.PostProcessPass: the blur samples with the first material's sampler after `ReleaseSampler` has already returned the scene pass's reference. The model records this as written. It does not model whether the sampler is still alive beyond its count.
- Games.Game.OnMouseMove: `int` overflow in `prevMousePos.y - y` is not modelled; the model uses unbounded integers.
- Games.Frames: counts are unbounded integers. COM counts are 32-bit `ULONG`s, so the sky view's count, one higher every frame, would wrap after 2^32 frames; that wrap-around is not modelled.
- Shader slots: a pixel program's slots are keyed by the program and the variable name. SimpleShader binds by the stage's register, which every pixel program shares. So at the skybox draw the model shows the sky program's `Sampler` slot as unbound, while on the GPU the sampler bound at Game.cpp:227 is still in that register.
- Device.Device.Issue: a run of consecutive calls with no count traffic between them is appended to the log in one step.
