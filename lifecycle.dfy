/**
 * The device-dependent resources of Sample3DSceneRenderer as one value, and the
 * two things that happen to them: the startup chain of
 * CreateDeviceDependentResources and ReleaseDeviceDependentResources.
 *
 * The chain has three tasks. The vertex-shader task reads the vertex shader's
 * bytecode and creates the vertex shader, then the input layout. The
 * pixel-shader task reads the pixel shader's bytecode and creates the pixel
 * shader, then the constant buffer. Only when both have finished does the mesh
 * task run: it loads the cube, creates the vertex buffer, records the index
 * count, creates the index buffer and frees the cube's arrays. Only when the
 * mesh task has finished is the loading-complete flag set. A failure in any
 * step (an unreadable file or a device call that reports failure) stops that
 * task and every task that waits on it.
 */
module Lifecycle {
  import opened Wrappers
  import opened Linear
  import opened Mesh

  /** The six kinds of object the renderer asks the device for. */
  datatype ResourceKind =
    | VertexShaderKind | InputLayoutKind | PixelShaderKind
    | ConstantBufferKind | VertexBufferKind | IndexBufferKind

  /** The device, as far as the renderer can tell: which creation calls report failure. */
  datatype Device = Device(refuses: set<ResourceKind>)

  /** What a device object holds once created. */
  datatype GpuObject =
    | VertexShaderObject(bytecode: seq<bv8>)
    | InputLayoutObject(semantics: seq<string>, signature: seq<bv8>)
    | PixelShaderObject(bytecode: seq<bv8>)
    | ConstantBufferObject(byteWidth: nat)
    | VertexBufferObject(vertices: seq<VertexPositionColor>)
    | IndexBufferObject(indices: seq<u16>)

  /** The two per-vertex elements of the input layout, in order. */
  const VertexSemantics: seq<string> := ["POSITION", "UV"]

  /** sizeof(ModelViewProjectionConstantBuffer): three 4×4 float matrices. */
  const ConstantBufferSize: nat := 3 * 16 * 4

  /** The renderer's device-dependent state. A handle is None when its ComPtr is null. */
  datatype Resources = Resources(
    vertexShader: Option<GpuObject>,
    inputLayout: Option<GpuObject>,
    pixelShader: Option<GpuObject>,
    constantBuffer: Option<GpuObject>,
    vertexBuffer: Option<GpuObject>,
    indexBuffer: Option<GpuObject>,
    indexCount: nat,
    loadingComplete: bool)

  /** Everything Render needs: all six objects, holding the cube, and the cube's index count. */
  predicate Ready(r: Resources) {
    && r.vertexShader.Some? && r.vertexShader.value.VertexShaderObject?
    && r.inputLayout.Some? && r.inputLayout.value.InputLayoutObject?
    && r.inputLayout.value.semantics == VertexSemantics
    && r.pixelShader.Some? && r.pixelShader.value.PixelShaderObject?
    && r.constantBuffer == Some(ConstantBufferObject(ConstantBufferSize))
    && r.vertexBuffer == Some(VertexBufferObject(CubeVertices()))
    && r.indexBuffer == Some(IndexBufferObject(CubeIndices()))
    && r.indexCount == CubeIndexCount
  }

  /**
   * The vertex-shader task. Passing `&handle` to a creation call nulls the
   * handle first, so a call that fails leaves it null.
   */
  function VertexShaderTask(r: Resources, vsFile: Option<seq<bv8>>, device: Device): Resources {
    if vsFile.None? then r
    else if VertexShaderKind in device.refuses then r.(vertexShader := None)
    else
      r.(vertexShader := Some(VertexShaderObject(vsFile.value)),
         inputLayout := if InputLayoutKind in device.refuses then None
                        else Some(InputLayoutObject(VertexSemantics, vsFile.value)))
  }

  predicate VertexShaderTaskSucceeds(vsFile: Option<seq<bv8>>, device: Device) {
    vsFile.Some? && VertexShaderKind !in device.refuses && InputLayoutKind !in device.refuses
  }

  /** The pixel-shader task. */
  function PixelShaderTask(r: Resources, psFile: Option<seq<bv8>>, device: Device): Resources {
    if psFile.None? then r
    else if PixelShaderKind in device.refuses then r.(pixelShader := None)
    else
      r.(pixelShader := Some(PixelShaderObject(psFile.value)),
         constantBuffer := if ConstantBufferKind in device.refuses then None
                           else Some(ConstantBufferObject(ConstantBufferSize)))
  }

  predicate PixelShaderTaskSucceeds(psFile: Option<seq<bv8>>, device: Device) {
    psFile.Some? && PixelShaderKind !in device.refuses && ConstantBufferKind !in device.refuses
  }

  /** The mesh task, then the final continuation that sets the flag. */
  function MeshTask(r: Resources, device: Device): Resources {
    if VertexBufferKind in device.refuses then r.(vertexBuffer := None)
    else
      var withVertices := r.(vertexBuffer := Some(VertexBufferObject(CubeVertices())), indexCount := CubeIndexCount);
      if IndexBufferKind in device.refuses then withVertices.(indexBuffer := None)
      else withVertices.(indexBuffer := Some(IndexBufferObject(CubeIndices())), loadingComplete := true)
  }

  /** The whole startup chain: the two shader tasks, and the mesh task only when both succeeded. */
  function Build(r: Resources, vsFile: Option<seq<bv8>>, psFile: Option<seq<bv8>>, device: Device): Resources {
    var shaders := PixelShaderTask(VertexShaderTask(r, vsFile, device), psFile, device);
    if VertexShaderTaskSucceeds(vsFile, device) && PixelShaderTaskSucceeds(psFile, device) then
      MeshTask(shaders, device)
    else
      shaders
  }

  /** ReleaseDeviceDependentResources: the flag cleared and all six handles reset; the index count is kept. */
  function Released(r: Resources): Resources {
    r.(loadingComplete := false,
       vertexShader := None, inputLayout := None, pixelShader := None,
       constantBuffer := None, vertexBuffer := None, indexBuffer := None)
  }

  /** The state right after construction, before the startup chain. */
  const Unloaded := Resources(None, None, None, None, None, None, 0, false)

  // ---------------------------------------------------------------------------
  // What Render submits

  /** One indexed draw: the bound buffers, the index count and the matrices of the frame. */
  datatype DrawCall = DrawCall(vertexBuffer: GpuObject, indexBuffer: GpuObject, indexCount: nat, model: Mat4, camera: Mat4)

  /**
   * A draw that stays inside its buffers: a whole number of triangles, no more
   * indices than the index buffer holds, and every index names a vertex of the
   * vertex buffer.
   */
  predicate InRange(d: DrawCall) {
    && d.vertexBuffer.VertexBufferObject?
    && d.indexBuffer.IndexBufferObject?
    && d.indexCount % 3 == 0
    && d.indexCount <= |d.indexBuffer.indices|
    && forall k | 0 <= k < d.indexCount :: d.indexBuffer.indices[k] as int < |d.vertexBuffer.vertices|
  }

  /** The draw Render issues from a state with both buffers present. */
  function DrawFrom(r: Resources, model: Mat4, camera: Mat4): DrawCall
    requires r.vertexBuffer.Some? && r.indexBuffer.Some?
  {
    DrawCall(r.vertexBuffer.value, r.indexBuffer.value, r.indexCount, model, camera)
  }

  // ---------------------------------------------------------------------------
  // Lemmas

  /** Starting from a state that is not loaded, the flag ends up set exactly when both files were read and no device call failed. */
  lemma BuildCompletesIff(r: Resources, vsFile: Option<seq<bv8>>, psFile: Option<seq<bv8>>, device: Device)
    requires !r.loadingComplete
    ensures Build(r, vsFile, psFile, device).loadingComplete <==> vsFile.Some? && psFile.Some? && device.refuses == {}
  {
    if vsFile.Some? && psFile.Some? && device.refuses != {} {
      var k :| k in device.refuses;
      assert k.VertexShaderKind? || k.InputLayoutKind? || k.PixelShaderKind?
          || k.ConstantBufferKind? || k.VertexBufferKind? || k.IndexBufferKind?;
    }
  }

  /** The flag is only ever set once every handle exists and the index count is recorded. */
  lemma CompleteMeansReady(r: Resources, vsFile: Option<seq<bv8>>, psFile: Option<seq<bv8>>, device: Device)
    requires !r.loadingComplete && Build(r, vsFile, psFile, device).loadingComplete
    ensures Ready(Build(r, vsFile, psFile, device))
  {
  }

  /** When either shader task fails, the mesh task never runs: buffers, index count and flag are untouched. */
  lemma FailedShadersSkipMesh(r: Resources, vsFile: Option<seq<bv8>>, psFile: Option<seq<bv8>>, device: Device)
    requires !(VertexShaderTaskSucceeds(vsFile, device) && PixelShaderTaskSucceeds(psFile, device))
    ensures var b := Build(r, vsFile, psFile, device);
            b.vertexBuffer == r.vertexBuffer && b.indexBuffer == r.indexBuffer
            && b.indexCount == r.indexCount && b.loadingComplete == r.loadingComplete
  {
  }

  /** The two shader tasks touch disjoint handles, so running them in the other order gives the same state. */
  lemma ShaderTasksCommute(r: Resources, vsFile: Option<seq<bv8>>, psFile: Option<seq<bv8>>, device: Device)
    ensures PixelShaderTask(VertexShaderTask(r, vsFile, device), psFile, device)
         == VertexShaderTask(PixelShaderTask(r, psFile, device), vsFile, device)
  {
  }

  /** Release leaves nothing loaded and no handle, keeps the index count, and a second release changes nothing. */
  lemma ReleaseIdempotent(r: Resources)
    ensures var q := Released(r);
            !q.loadingComplete && q.indexCount == r.indexCount
            && q.vertexShader.None? && q.inputLayout.None? && q.pixelShader.None?
            && q.constantBuffer.None? && q.vertexBuffer.None? && q.indexBuffer.None?
    ensures Released(Released(r)) == Released(r)
  {
  }

  /** After a release the chain can run again from the start and, on a healthy device, ends ready. */
  lemma RebuildAfterRelease(r: Resources, vs: seq<bv8>, ps: seq<bv8>)
    ensures var b := Build(Released(r), Some(vs), Some(ps), Device({}));
            b.loadingComplete && Ready(b)
  {
    BuildCompletesIff(Released(r), Some(vs), Some(ps), Device({}));
    CompleteMeansReady(Released(r), Some(vs), Some(ps), Device({}));
  }

  /** Every draw issued from a ready state stays inside the cube's buffers. */
  lemma ReadyDrawInRange(r: Resources, model: Mat4, camera: Mat4)
    requires Ready(r)
    ensures InRange(DrawFrom(r, model, camera))
  {
    CubeTablesWellFormed();
  }
}
