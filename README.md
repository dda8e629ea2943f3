# Sample3DSceneRenderer, modelled in Dafny

This project models the core of `Sample3DSceneRenderer` from the DX11UWA sample.
The renderer is the object that draws a coloured cube in a Direct3D 11 app. Once per frame it:

- turns the cube about its y axis, either with time or with the pointer's x position while the pointer is tracking;
- moves a free-fly camera: W, S, A, D, X and Space translate it along its own axes, and dragging with the right button held turns it;
- draws the cube, but only once the asynchronous startup chain has created every device object.

The model has three layers.

- **Value layer.** `Linear` holds DirectXMath-style 4×4 matrices over the reals, with row vectors and the translation in the fourth row. `Camera` gives the camera update as functions of the old pose and the input. `Animation` holds the angle arithmetic, including C's `fmod`. `Mesh` is the cube loader. `Lifecycle` describes the device-dependent resources as one value, with the startup chain and the release as functions of it.
- **The class.** `Renderer.Sample3DSceneRenderer` has the source's fields: the flags, the 256-byte key table as an `array<bv8>`, the two pointer samples, the camera and model matrices, six handles that may be null, and the index count. Its methods update these fields in place. Each method is proved against the value layer: `UpdateCamera` ends in `Camera.CameraUpdate` of the old pose, and `CreateDeviceDependentResources` ends in `Lifecycle.Build` of the old resources.
- **The invariant.** `Valid()` says that the loading-complete flag is set only while every object Render uses is in place. It also says that every draw issued so far stays inside its buffers. The constructor establishes it. `Update`, `UpdateCamera`, `SetKeyboardButtons`, `SetInputDeviceData`, `Render`, `CreateDeviceDependentResources` and `ReleaseDeviceDependentResources` keep it; `SetMousePosition`, the tracking methods and `Rotate` write no field it reads. The three task methods are steps inside `CreateDeviceDependentResources` and do not keep it on their own: a mesh task run without the shader tasks would set the flag with shader handles missing.

Things outside the renderer become parameters:

- the two shader files, as `Option<seq<bv8>>`, where `None` means unreadable;
- the device, as the set of creation calls that report failure;
- the timer's running and elapsed seconds;
- the output width;
- the sine and cosine of an angle, as a function `real -> SinCos`;
- the camera pose set up by `CreateWindowSizeDependentResources`.

`ObjMesh_LoadMesh` opens the mesh file, closes it without reading it, and always returns the fixed cube (Sample3DSceneRenderer.cpp:262-307). A missing mesh file therefore cannot stop the chain, and `Mesh.LoadMesh` never fails.

## Model

| member | source | states |
|---|---|---|
| Linear.MulIsRowByColumn | Solution/DX11UWA/Content/Sample3DSceneRenderer.cpp:94-96 | entry ij of the product used by XMMatrixMultiply is row i of the left factor dotted with column j of the right |
| Linear.TranslationThenPose | Solution/DX11UWA/Content/Sample3DSceneRenderer.cpp:94-97 | translation(x,y,z)·pose keeps rows 1-3 and adds x·row1 + y·row2 + z·row3 to row 4: the camera moves along its own axes |
| Linear.MulIdentity | Solution/DX11UWA/Content/Sample3DSceneRenderer.cpp:148-153 | the identity is neutral on both sides of a product |
| Linear.ZeroRotations | Solution/DX11UWA/Content/Sample3DSceneRenderer.cpp:148-149 | a rotation about x or y by the zero angle is the identity |
| Linear.TransposeTwice | Solution/DX11UWA/Content/Sample3DSceneRenderer.cpp:85 | entry ij of the transpose is entry ji, and transposing twice gives the matrix back |
| Linear.TransposedRotationY | Solution/DX11UWA/Content/Sample3DSceneRenderer.cpp:85 | the model matrix Rotate stores, the transposed y rotation, is the y rotation by the opposite angle |
| Camera.MoveIsTranslated | Solution/DX11UWA/Content/Sample3DSceneRenderer.cpp:92-98 | one key block moves the pose by the block's offset when the key is held and leaves it unchanged otherwise |
| Camera.TranslatedTwice | Solution/DX11UWA/Content/Sample3DSceneRenderer.cpp:92-133 | two moves along the pose's own axes add up, since the axes never change |
| Camera.ForwardBack | Solution/DX11UWA/Content/Sample3DSceneRenderer.cpp:92-105 | the W and S blocks together move along row 3 by +step, -step or nothing, depending on which of the two keys are held |
| Camera.LeftRight | Solution/DX11UWA/Content/Sample3DSceneRenderer.cpp:106-119 | the A and D blocks together move along row 1 by the net of the two keys |
| Camera.DownUp | Solution/DX11UWA/Content/Sample3DSceneRenderer.cpp:120-133 | the X and Space blocks together move along row 2 by the net of the two keys |
| Camera.SixMovesDisplacement | Solution/DX11UWA/Content/Sample3DSceneRenderer.cpp:92-133 | the six key blocks in the order W, S, A, D, X, Space come to one move along the pose's own axes by the net travel on each axis |
| Camera.KeyMovesDisplacement | Solution/DX11UWA/Content/Sample3DSceneRenderer.cpp:90-133 | with the key table, the key moves shift row 4 by moveSpd·dt times (D−A)·row1 + (Space−X)·row2 + (W−S)·row3, where each key counts 1 when held |
| Camera.KeyMovesKeepAxes | Solution/DX11UWA/Content/Sample3DSceneRenderer.cpp:92-133 | the key moves never change rows 1-3 |
| Camera.ForwardOneSecond | Solution/DX11UWA/Content/Sample3DSceneRenderer.cpp:92-98 | with only W held, speed 1 and one second elapsed, the camera moves by exactly its own row 3 |
| Camera.TurnKeepsLastRow | Solution/DX11UWA/Content/Sample3DSceneRenderer.cpp:145-156 | rotX·pose·rotY keeps the fourth row of a pose whose _41.._43 are zero |
| Camera.LookStepKeepsPosition | Solution/DX11UWA/Content/Sample3DSceneRenderer.cpp:143-159 | the look step leaves the whole fourth row, the camera's position, as it was |
| Camera.LookStepIgnoresPosition | Solution/DX11UWA/Content/Sample3DSceneRenderer.cpp:143-159 | the new axes depend only on the old axes, not on where the camera stands |
| Camera.LookStepStill | Solution/DX11UWA/Content/Sample3DSceneRenderer.cpp:139-159 | with no pointer travel the look step changes nothing |
| Camera.YawKeepsHeights | Solution/DX11UWA/Content/Sample3DSceneRenderer.cpp:151-155 | a horizontal drag (dy = 0) keeps the y component of every axis |
| Camera.PitchKeepsSideAxis | Solution/DX11UWA/Content/Sample3DSceneRenderer.cpp:151-155 | a vertical drag (dx = 0) keeps the camera's x axis (row 1) |
| Camera.CameraUpdatePosition | Solution/DX11UWA/Content/Sample3DSceneRenderer.cpp:88-165 | after a whole camera update the position is the key moves' position, whether or not the look step ran |
| Camera.CameraUpdateWithoutLook | Solution/DX11UWA/Content/Sample3DSceneRenderer.cpp:135-163 | without a current sample, a held right button and a previous sample, the camera's axes do not change |
| Camera.CameraUpdateIdle | Solution/DX11UWA/Content/Sample3DSceneRenderer.cpp:88-165 | with no key held and no look step, the camera stays exactly where it was |
| Animation.Trunc | Solution/DX11UWA/Content/Sample3DSceneRenderer.cpp:70 | truncation toward zero: the result lies within one of x and on 0's side of it |
| Animation.FMod | Solution/DX11UWA/Content/Sample3DSceneRenderer.cpp:70 | C's fmod by a positive y: a non-negative x leaves a remainder in [0, y), and a non-positive x leaves one in (-y, 0] |
| Animation.FModPeriodic | Solution/DX11UWA/Content/Sample3DSceneRenderer.cpp:69-70 | adding one whole y to a non-negative angle leaves the remainder unchanged |
| Animation.FModOfSmall | Solution/DX11UWA/Content/Sample3DSceneRenderer.cpp:70 | an angle already in [0, y) is its own remainder |
| Animation.TimeAngleInRange | Solution/DX11UWA/Content/Sample3DSceneRenderer.cpp:68-70 | for non-negative time and speed, Update's angle lies in [0, 2π) |
| Animation.FourSecondsIsHalfTurn | Solution/DX11UWA/Content/Sample3DSceneRenderer.cpp:66-72 | at the constructor's 45 degrees a second, four seconds in the angle is π |
| Animation.TrackingAngle | Solution/DX11UWA/Content/Sample3DSceneRenderer.cpp:193 | a pointer anywhere across the output gives an angle in [0, 4π] |
| Animation.TrackingAngleMonotonic | Solution/DX11UWA/Content/Sample3DSceneRenderer.cpp:193 | moving the pointer right never gives a smaller angle |
| Animation.TrackingLandmarks | Solution/DX11UWA/Content/Sample3DSceneRenderer.cpp:193 | a quarter of the way across gives half a turn, and the far edge gives two turns |
| Mesh.LoadMesh | Solution/DX11UWA/Content/Sample3DSceneRenderer.cpp:254-308 | for any path: two fresh arrays holding the 8 cube vertices and the 36 indices, with counts 8 and 36 |
| Mesh.Unload | Solution/DX11UWA/Content/Sample3DSceneRenderer.cpp:311-319 | both of the caller's references come back null |
| Mesh.CubeTablesWellFormed | Solution/DX11UWA/Content/Sample3DSceneRenderer.cpp:270-302 | 8 vertices; 36 = 3·12 indices; every index is below 8 |
| Mesh.CubeCornersColoured | Solution/DX11UWA/Content/Sample3DSceneRenderer.cpp:270-280 | the 8 corners are distinct, and each corner's colour is its position plus 0.5 |
| Mesh.CubeUsesEveryVertex | Solution/DX11UWA/Content/Sample3DSceneRenderer.cpp:282-299 | every vertex is used by some triangle |
| Mesh.CubeTrianglesProper | Solution/DX11UWA/Content/Sample3DSceneRenderer.cpp:282-299 | no triangle repeats a corner |
| Lifecycle.BuildCompletesIff | Solution/DX11UWA/Content/Sample3DSceneRenderer.cpp:321-370 | from a state that is not loaded, the chain sets the flag if and only if both shader files were read and no device call failed |
| Lifecycle.CompleteMeansReady | Solution/DX11UWA/Content/Sample3DSceneRenderer.cpp:345-369 | when the chain sets the flag, all six objects exist, the buffers hold the cube, and the index count is 36 |
| Lifecycle.FailedShadersSkipMesh | Solution/DX11UWA/Content/Sample3DSceneRenderer.cpp:345 | if either shader task fails, the mesh task never runs: buffers, index count and flag are untouched |
| Lifecycle.ShaderTasksCommute | Solution/DX11UWA/Content/Sample3DSceneRenderer.cpp:326-344 | the two shader tasks touch disjoint handles, so their order does not matter |
| Lifecycle.ReleaseIdempotent | Solution/DX11UWA/Content/Sample3DSceneRenderer.cpp:372-381 | release clears the flag and all six handles, keeps the index count, and a second release changes nothing |
| Lifecycle.RebuildAfterRelease | Solution/DX11UWA/Content/Sample3DSceneRenderer.cpp:321-381 | after a release, the chain on a healthy device ends ready again |
| Lifecycle.ReadyDrawInRange | Solution/DX11UWA/Content/Sample3DSceneRenderer.cpp:204-234 | a draw from a ready state is whole triangles, stays within the index buffer, and every index names a vertex of the vertex buffer |
| Renderer.Sample3DSceneRenderer.constructor | Solution/DX11UWA/Content/Sample3DSceneRenderer.cpp:8-22 | flags clear, 45 degrees a second, no key held, no pointer samples, resources as the chain leaves them, then the given camera pose |
| Renderer.Sample3DSceneRenderer.Update | Solution/DX11UWA/Content/Sample3DSceneRenderer.cpp:63-79 | when not tracking, the model becomes the rotation by fmod(total·45°, 2π), and is left alone otherwise; then the camera update runs at speeds 1 and 0.75 |
| Renderer.Sample3DSceneRenderer.Rotate | Solution/DX11UWA/Content/Sample3DSceneRenderer.cpp:82-86 | the model matrix becomes the transposed y rotation |
| Renderer.Sample3DSceneRenderer.UpdateCamera | Solution/DX11UWA/Content/Sample3DSceneRenderer.cpp:88-165 | the new camera is CameraUpdate of the old one; the previous sample becomes the current one when there is one and is unchanged otherwise |
| Renderer.Sample3DSceneRenderer.MoveCamera | Solution/DX11UWA/Content/Sample3DSceneRenderer.cpp:92-98 | one key block: translation·camera when the key's byte is nonzero, no change otherwise |
| Renderer.Sample3DSceneRenderer.LookAround | Solution/DX11UWA/Content/Sample3DSceneRenderer.cpp:135-163 | the look step runs only with a current sample, its right button held and a previous sample; the current sample then becomes the previous one |
| Renderer.Sample3DSceneRenderer.TurnCamera | Solution/DX11UWA/Content/Sample3DSceneRenderer.cpp:137-159 | the camera becomes the look step of the old camera for the given pointer travel |
| Renderer.Sample3DSceneRenderer.SetKeyboardButtons | Solution/DX11UWA/Content/Sample3DSceneRenderer.cpp:167-170 | the key table becomes the first 256 bytes of the caller's table |
| Renderer.Sample3DSceneRenderer.SetMousePosition | Solution/DX11UWA/Content/Sample3DSceneRenderer.cpp:172-175 | the current sample becomes the given one, which may be none |
| Renderer.Sample3DSceneRenderer.SetInputDeviceData | Solution/DX11UWA/Content/Sample3DSceneRenderer.cpp:177-181 | both setters: the key table and the current sample |
| Renderer.Sample3DSceneRenderer.StartTracking | Solution/DX11UWA/Content/Sample3DSceneRenderer.cpp:183-186 | tracking is on |
| Renderer.Sample3DSceneRenderer.TrackingUpdate | Solution/DX11UWA/Content/Sample3DSceneRenderer.cpp:189-196 | while tracking, the model becomes the rotation by 4π·x/width; otherwise nothing changes |
| Renderer.Sample3DSceneRenderer.StopTracking | Solution/DX11UWA/Content/Sample3DSceneRenderer.cpp:198-201 | tracking is off |
| Renderer.Sample3DSceneRenderer.Render | Solution/DX11UWA/Content/Sample3DSceneRenderer.cpp:204-234 | before loading is complete, nothing changes; afterwards, exactly one draw of the bound buffers with indexCount indices is appended, and it stays in range |
| Renderer.Sample3DSceneRenderer.CreateDeviceDependentResources | Solution/DX11UWA/Content/Sample3DSceneRenderer.cpp:321-370 | the resources become Build of the old ones, and the flag is set only in a ready state |
| Renderer.Sample3DSceneRenderer.CreateVertexShaderTask | Solution/DX11UWA/Content/Sample3DSceneRenderer.cpp:326-337 | vertex shader then input layout (POSITION, UV); a failed call nulls its handle and stops the task |
| Renderer.Sample3DSceneRenderer.CreatePixelShaderTask | Solution/DX11UWA/Content/Sample3DSceneRenderer.cpp:338-344 | pixel shader then a 192-byte constant buffer; a failed call nulls its handle and stops the task |
| Renderer.Sample3DSceneRenderer.CreateMeshTask | Solution/DX11UWA/Content/Sample3DSceneRenderer.cpp:345-369 | load the cube, then the vertex buffer, the index count, the index buffer and unload; the flag is set only when all of these succeeded |
| Renderer.Sample3DSceneRenderer.ReleaseDeviceDependentResources | Solution/DX11UWA/Content/Sample3DSceneRenderer.cpp:372-381 | the resources become Released of the old ones: flag clear and all six handles null |

## Left out

- Direct3D calls are kept only as their effect on the renderer's fields. A created object is a handle that is present, and the draw is a record appended to `draws`. Device contexts, strides, formats and topology are not modelled.
- The three tasks of `CreateDeviceDependentResources` run in sequence. The shader tasks touch disjoint handles, so their order does not change the result (`Lifecycle.ShaderTasksCommute`). A failed step ends its task and every task that waits on it. The process-level effect of the unobserved exception is not modelled.
- `Renderer.Sample3DSceneRenderer.CreateDeviceDependentResources`: requires the flag to be clear. This holds at its two call sites: the constructor, and device restore after a release.
- Memory leak: the mesh task leaks the cube's two arrays when a buffer creation fails before `ObjMesh_Unload`. The arrays are not part of the renderer's state.
- `CreateWindowSizeDependentResources` (:25-60) is not modelled: the projection matrix, the look-at view and its inverse. The constructor takes the resulting camera pose as a parameter. Every later call of it, on each window resize, resets the camera to that look-at pose (:58) and so discards all camera movement; resizes are not modelled, so that reset is not either.
- Render's view matrix is the transposed inverse of the camera, and is not modelled. A draw records the camera pose instead.
- Float and double rounding are not modelled: all arithmetic is on exact reals. This includes the float cast of `fmod`'s result and the float elapsed time.
- Camera.LookStep: rows 1-3 are not proved to stay orthonormal (a rotation) after a look step, because sine and cosine are uninterpreted and nothing ties sin² + cos² to 1.
- Sine and cosine are a parameter: any function from an angle to a (sin, cos) pair. Lemmas that need sin 0 = 0 and cos 0 = 1 require it.
- The model matrix before the first `Rotate` is uninitialised in the source; the model starts it at the identity.
- `Animation.TrackingAngle`: requires a positive output width. A zero width divides by zero in float arithmetic, which is not modelled.
- `ObjMesh_CountLines` (:237-252) opens and closes a file without reading it or writing its out-parameters. File input is not modelled, so it has nothing left to model.
- A shader file that reads as empty is handed to the device like any other. Taking the address of its first byte is undefined in C++, and that is not modelled.
- Pointer samples are values. The source keeps references to the platform's PointerPoint objects, which are immutable, so the previous sample aliasing the current one is harmless.
- The cube's triangle winding, which decides which faces are culled, is not proved.
- `SceneRenderer.h` holds declarations only.
