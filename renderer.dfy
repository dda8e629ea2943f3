/**
 * Sample3DSceneRenderer: the object that owns the camera, the cube's model
 * transform, the input it was last handed, and the device-dependent resources,
 * and that updates them in place once per frame.
 *
 * Device calls are modelled by their effect on the renderer's own fields: a
 * created object is a handle that is present, and Render's draw is appended to
 * `draws`. The files the startup chain reads, the device's answers, the timer,
 * the output width and the sine/cosine of an angle are parameters.
 */
module Renderer {
  import opened Wrappers
  import opened Linear
  import opened Mesh
  import opened Camera
  import opened Animation
  import opened Lifecycle

  /** What DX::StepTimer reports for the current frame. */
  datatype StepTimer = StepTimer(totalSeconds: real, elapsedSeconds: real)

  /** The speeds Update passes to UpdateCamera: units per second and radians per pixel per second. */
  const MoveSpeed: real := 1.0
  const RotateSpeed: real := 0.75

  class Sample3DSceneRenderer {
    var loadingComplete: bool
    var degreesPerSecond: real
    var indexCount: nat
    var tracking: bool

    /** The key table last copied in by SetKeyboardButtons: one byte per virtual key, nonzero when held. */
    var kbuttons: array<bv8>
    var currMousePos: Option<PointerSample>
    var prevMousePos: Option<PointerSample>

    /** The camera's pose (m_camera). */
    var camera: Mat4
    /** The model matrix of the constant-buffer data, as Rotate stores it. */
    var model: Mat4

    var vertexShader: Option<GpuObject>
    var inputLayout: Option<GpuObject>
    var pixelShader: Option<GpuObject>
    var constantBuffer: Option<GpuObject>
    var vertexBuffer: Option<GpuObject>
    var indexBuffer: Option<GpuObject>

    /** Every draw Render has issued, oldest first. */
    var draws: seq<DrawCall>

    /** The device-dependent part of the state as one value. */
    function Resources(): Lifecycle.Resources
      reads this`vertexShader, this`inputLayout, this`pixelShader, this`constantBuffer,
            this`vertexBuffer, this`indexBuffer, this`indexCount, this`loadingComplete
    {
      Lifecycle.Resources(vertexShader, inputLayout, pixelShader, constantBuffer,
                          vertexBuffer, indexBuffer, indexCount, loadingComplete)
    }

    /**
     * The key table has one entry per virtual key; the loading-complete flag is
     * set only while every resource Render uses is in place; and every draw
     * issued so far stayed inside its buffers.
     */
    predicate Valid()
      reads this`kbuttons, this`draws
      reads this`vertexShader, this`inputLayout, this`pixelShader, this`constantBuffer,
            this`vertexBuffer, this`indexBuffer, this`indexCount, this`loadingComplete
    {
      && kbuttons.Length == KeyCount
      && (loadingComplete ==> Ready(Resources()))
      && forall k | 0 <= k < |draws| :: InRange(draws[k])
    }

    function Keys(): seq<bv8>
      reads this`kbuttons, kbuttons
    {
      kbuttons[..]
    }

    /**
     * The constructor: flags cleared, 45 degrees a second, no keys held, no
     * pointer samples; then the startup chain. The camera is zeroed first and
     * then set by CreateWindowSizeDependentResources, which touches nothing
     * else here, so the model stores that final pose directly.
     */
    constructor (vsFile: Option<seq<bv8>>, psFile: Option<seq<bv8>>, device: Device, initialCamera: Mat4)
      ensures Valid() && fresh(kbuttons)
      ensures Resources() == Build(Unloaded, vsFile, psFile, device)
      ensures degreesPerSecond == DegreesPerSecond && !tracking
      ensures forall k | 0 <= k < KeyCount :: kbuttons[k] == 0
      ensures currMousePos.None? && prevMousePos.None?
      ensures camera == initialCamera && model == Identity && draws == []
    {
      loadingComplete := false;
      degreesPerSecond := DegreesPerSecond;
      indexCount := 0;
      tracking := false;
      kbuttons := new bv8[KeyCount](_ => 0);
      currMousePos := None;
      prevMousePos := None;
      camera := initialCamera;
      model := Identity;
      vertexShader, inputLayout, pixelShader := None, None, None;
      constantBuffer, vertexBuffer, indexBuffer := None, None, None;
      draws := [];
      new;
      CreateDeviceDependentResources(vsFile, psFile, device);
    }

    // -------------------------------------------------------------------------
    // Per-frame update

    /** Update: the time-driven rotation unless the pointer is tracking, then the camera. */
    method Update(timer: StepTimer, sinCos: real -> SinCos)
      requires Valid()
      modifies this`model, this`camera, this`prevMousePos
      ensures Valid()
      ensures model == if tracking then old(model)
                       else Transpose(RotationY(sinCos(TimeAngle(timer.totalSeconds, degreesPerSecond))))
      ensures camera == CameraUpdate(old(camera), Keys(), currMousePos, old(prevMousePos),
                                     MoveSpeed, RotateSpeed, timer.elapsedSeconds, sinCos)
      ensures prevMousePos == if currMousePos.Some? then currMousePos else old(prevMousePos)
    {
      if !tracking {
        var radiansPerSecond := ToRadians(degreesPerSecond);
        var totalRotation := Rotation(timer.totalSeconds, radiansPerSecond);
        var radians := FMod(totalRotation, TwoPi);
        Rotate(radians, sinCos);
      }
      UpdateCamera(timer, MoveSpeed, RotateSpeed, sinCos);
    }

    /** Rotate: the model matrix becomes the transposed rotation about y. */
    method Rotate(radians: real, sinCos: real -> SinCos)
      modifies this`model
      ensures model == Transpose(RotationY(sinCos(radians)))
    {
      model := Transpose(RotationY(sinCos(radians)));
    }

    /**
     * UpdateCamera: each held movement key in turn moves the camera along its
     * own axes, then a held right button turns it by the pointer's travel since
     * the previous sample; the current sample becomes the previous one.
     */
    method UpdateCamera(timer: StepTimer, moveSpd: real, rotSpd: real, sinCos: real -> SinCos)
      requires Valid()
      modifies this`camera, this`prevMousePos
      ensures Valid()
      ensures camera == CameraUpdate(old(camera), Keys(), currMousePos, old(prevMousePos),
                                     moveSpd, rotSpd, timer.elapsedSeconds, sinCos)
      ensures prevMousePos == if currMousePos.Some? then currMousePos else old(prevMousePos)
    {
      var deltaTime := timer.elapsedSeconds;
      MoveCamera(KeyW, 0.0, 0.0, Distance(moveSpd, deltaTime));
      MoveCamera(KeyS, 0.0, 0.0, Distance(-moveSpd, deltaTime));
      MoveCamera(KeyA, Distance(-moveSpd, deltaTime), 0.0, 0.0);
      MoveCamera(KeyD, Distance(moveSpd, deltaTime), 0.0, 0.0);
      MoveCamera(KeyX, 0.0, Distance(-moveSpd, deltaTime), 0.0);
      MoveCamera(KeySpace, 0.0, Distance(moveSpd, deltaTime), 0.0);
      LookAround(rotSpd, deltaTime, sinCos);
    }

    /**
     * One key's block of UpdateCamera: when the key is held, the camera moves by
     * (x, y, z) along its own axes. Camera.Move specifies it.
     */
    method MoveCamera(key: nat, x: real, y: real, z: real)
      requires kbuttons.Length == KeyCount && key < KeyCount
      modifies this`camera
      ensures camera == Move(old(camera), Pressed(Keys(), key), x, y, z)
    {
      if kbuttons[key] != 0 {
        var translation := Translation(x, y, z);
        var tempCamera := camera;
        camera := Mul(translation, tempCamera);
      }
    }

    /**
     * The pointer block of UpdateCamera: with a current sample whose right
     * button is held and a previous sample, the look step turns the camera
     * about its own position; with a current sample, it becomes the previous one.
     */
    method LookAround(rotSpd: real, deltaTime: real, sinCos: real -> SinCos)
      modifies this`camera, this`prevMousePos
      ensures camera == Look(old(camera), currMousePos, old(prevMousePos), rotSpd, deltaTime, sinCos)
      ensures prevMousePos == if currMousePos.Some? then currMousePos else old(prevMousePos)
    {
      if currMousePos.Some? {
        if currMousePos.value.rightButton && prevMousePos.Some? {
          var dx := Delta(currMousePos.value.x, prevMousePos.value.x);
          var dy := Delta(currMousePos.value.y, prevMousePos.value.y);
          TurnCamera(dx, dy, rotSpd, deltaTime, sinCos);
        }
        prevMousePos := currMousePos;
      }
    }

    /**
     * The look step on the camera itself: keep the fourth row, zero _41.._43,
     * pitch before and yaw after, then put _41.._43 back. This is the in-place
     * counterpart of Camera.LookStep, which specifies it.
     */
    method TurnCamera(dx: real, dy: real, rotSpd: real, deltaTime: real, sinCos: real -> SinCos)
      modifies this`camera
      ensures camera == LookStep(old(camera), dx, dy, rotSpd, deltaTime, sinCos)
    {
      var pos := camera.r4;
      var zeroed := camera.(r4 := camera.r4[0 := 0.0][1 := 0.0][2 := 0.0]);
      var rotX := RotationX(sinCos(TurnAngle(dy, rotSpd, deltaTime)));
      var rotY := RotationY(sinCos(TurnAngle(dx, rotSpd, deltaTime)));
      var tempCamera := Mul(Mul(rotX, zeroed), rotY);
      camera := tempCamera.(r4 := tempCamera.r4[0 := pos[0]][1 := pos[1]][2 := pos[2]]);
    }

    // -------------------------------------------------------------------------
    // Input

    /** SetKeyboardButtons: copies the first 256 bytes of the caller's table. */
    method SetKeyboardButtons(list: seq<bv8>)
      requires Valid() && |list| >= KeyCount
      modifies kbuttons
      ensures Valid() && Keys() == list[..KeyCount]
    {
      forall k | 0 <= k < KeyCount {
        kbuttons[k] := list[k];
      }
    }

    /** SetMousePosition: the given sample (possibly none) becomes the current one. */
    method SetMousePosition(pos: Option<PointerSample>)
      modifies this`currMousePos
      ensures currMousePos == pos
    {
      currMousePos := pos;
    }

    /** SetInputDeviceData: both setters, keys first. */
    method SetInputDeviceData(kb: seq<bv8>, pos: Option<PointerSample>)
      requires Valid() && |kb| >= KeyCount
      modifies kbuttons, this`currMousePos
      ensures Valid() && Keys() == kb[..KeyCount] && currMousePos == pos
    {
      SetKeyboardButtons(kb);
      SetMousePosition(pos);
    }

    method StartTracking()
      modifies this`tracking
      ensures tracking
    {
      tracking := true;
    }

    /** TrackingUpdate: while tracking, the pointer's x position sets the rotation; otherwise nothing changes. */
    method TrackingUpdate(positionX: real, outputWidth: real, sinCos: real -> SinCos)
      requires outputWidth > 0.0
      modifies this`model
      ensures model == if tracking then Transpose(RotationY(sinCos(TrackingAngle(positionX, outputWidth)))) else old(model)
    {
      if tracking {
        var radians := TrackingAngle(positionX, outputWidth);
        Rotate(radians, sinCos);
      }
    }

    method StopTracking()
      modifies this`tracking
      ensures !tracking
    {
      tracking := false;
    }

    // -------------------------------------------------------------------------
    // Rendering and the resource lifecycle

    /** Render: nothing at all until loading is complete; then one indexed draw of the bound buffers. */
    method Render()
      requires Valid()
      modifies this`draws
      ensures Valid()
      ensures draws == if loadingComplete then old(draws) + [DrawFrom(Resources(), model, camera)] else old(draws)
    {
      if !loadingComplete {
        return;
      }
      ReadyDrawInRange(Resources(), model, camera);
      draws := draws + [DrawCall(vertexBuffer.value, indexBuffer.value, indexCount, model, camera)];
    }

    /**
     * CreateDeviceDependentResources, with the asynchronous tasks run one after
     * the other: the vertex-shader task, the pixel-shader task, then the mesh
     * task only if both succeeded, and the flag last.
     */
    method CreateDeviceDependentResources(vsFile: Option<seq<bv8>>, psFile: Option<seq<bv8>>, device: Device)
      requires Valid() && !loadingComplete
      modifies this`vertexShader, this`inputLayout, this`pixelShader, this`constantBuffer,
               this`vertexBuffer, this`indexBuffer, this`indexCount, this`loadingComplete
      ensures Valid()
      ensures Resources() == Build(old(Resources()), vsFile, psFile, device)
    {
      ghost var start := Resources();
      var vsDone := CreateVertexShaderTask(vsFile, device);
      var psDone := CreatePixelShaderTask(psFile, device);
      if vsDone && psDone {
        CreateMeshTask(device);
      }
      if loadingComplete {
        CompleteMeansReady(start, vsFile, psFile, device);
      }
    }

    /**
     * The vertex-shader task: the vertex shader, then the input layout; `done`
     * when both were created. Lifecycle.VertexShaderTask specifies it.
     */
    method CreateVertexShaderTask(vsFile: Option<seq<bv8>>, device: Device) returns (done: bool)
      modifies this`vertexShader, this`inputLayout
      ensures Resources() == VertexShaderTask(old(Resources()), vsFile, device)
      ensures done == VertexShaderTaskSucceeds(vsFile, device)
    {
      done := false;
      if vsFile.Some? {
        if VertexShaderKind in device.refuses {
          vertexShader := None;
        } else {
          vertexShader := Some(VertexShaderObject(vsFile.value));
          if InputLayoutKind in device.refuses {
            inputLayout := None;
          } else {
            inputLayout := Some(InputLayoutObject(VertexSemantics, vsFile.value));
            done := true;
          }
        }
      }
    }

    /**
     * The pixel-shader task: the pixel shader, then the constant buffer; `done`
     * when both were created. Lifecycle.PixelShaderTask specifies it.
     */
    method CreatePixelShaderTask(psFile: Option<seq<bv8>>, device: Device) returns (done: bool)
      modifies this`pixelShader, this`constantBuffer
      ensures Resources() == PixelShaderTask(old(Resources()), psFile, device)
      ensures done == PixelShaderTaskSucceeds(psFile, device)
    {
      done := false;
      if psFile.Some? {
        if PixelShaderKind in device.refuses {
          pixelShader := None;
        } else {
          pixelShader := Some(PixelShaderObject(psFile.value));
          if ConstantBufferKind in device.refuses {
            constantBuffer := None;
          } else {
            constantBuffer := Some(ConstantBufferObject(ConstantBufferSize));
            done := true;
          }
        }
      }
    }

    /**
     * The mesh task: load the cube, create the vertex buffer from it, record the
     * index count, create the index buffer, free the cube's arrays; then set the
     * flag. A failed creation ends the task where it stands. Lifecycle.MeshTask
     * specifies it. Like the two shader tasks it is a step inside
     * CreateDeviceDependentResources and does not keep Valid() on its own.
     */
    method CreateMeshTask(device: Device)
      modifies this`vertexBuffer, this`indexBuffer, this`indexCount, this`loadingComplete
      ensures Resources() == MeshTask(old(Resources()), device)
    {
      var vertices: array?<VertexPositionColor>, indices: array?<u16>, numVertices: nat, numIndices: nat;
      vertices, indices, numVertices, numIndices := LoadMesh("Assets\\Mesh.mobj");
      assert vertices[..numVertices] == CubeVertices() && indices[..numIndices] == CubeIndices();
      if VertexBufferKind in device.refuses {
        vertexBuffer := None;
        return;
      }
      vertexBuffer := Some(VertexBufferObject(vertices[..numVertices]));
      indexCount := numIndices;
      if IndexBufferKind in device.refuses {
        indexBuffer := None;
        return;
      }
      indexBuffer := Some(IndexBufferObject(indices[..numIndices]));
      vertices, indices := Unload(vertices, indices);
      loadingComplete := true;
    }

    /** ReleaseDeviceDependentResources: flag cleared, all six handles reset. */
    method ReleaseDeviceDependentResources()
      requires Valid()
      modifies this`vertexShader, this`inputLayout, this`pixelShader, this`constantBuffer,
               this`vertexBuffer, this`indexBuffer, this`loadingComplete
      ensures Valid()
      ensures Resources() == Released(old(Resources()))
    {
      loadingComplete := false;
      vertexShader := None;
      inputLayout := None;
      pixelShader := None;
      constantBuffer := None;
      vertexBuffer := None;
      indexBuffer := None;
    }
  }
}
