/**
 * The graphics backend as the buffers see it: the renderer's device, command
 * list and resource factory are replaced by an append-only log of the calls
 * made on them, and the shared quad index buffer the renderer owns.
 */
module Gpu {
  import QuadIndex

  datatype Option<T> = None | Some(value: T)

  datatype IndexFormat = UInt16 | UInt32

  /** One call into the graphics backend. GPU buffers are named by the handle the factory gave them. */
  datatype GpuEvent =
    | CreateBuffer(handle: nat, vertices: int)   // Factory.CreateBuffer of a dynamic vertex buffer for `vertices` vertices
    | MapBuffer(handle: nat)                     // Device.Map for writing
    | UnmapBuffer(mapped: Option<nat>)           // Device.Unmap, also issued with no buffer
    | DisposeBuffer(handle: nat)                 // DeviceBuffer.Dispose
    | UploadIndices(indices: seq<int>)           // Device.UpdateBuffer of the whole shared quad index buffer
    | SetVertexBuffer(slot: nat, handle: nat)    // Commands.SetVertexBuffer
    | SetIndexBuffer(format: IndexFormat)        // Commands.SetIndexBuffer of the shared quad index buffer
    | DrawIndexed(indexCount: int, instanceCount: int, indexStart: int, vertexOffset: int, instanceStart: int)

  /** The parts of VeldridRenderer that the buffers use. */
  class Renderer {
    const sharedQuadIndex: QuadIndex.IndexData
    /** The handle the factory gives the next GPU buffer it creates. */
    var nextHandle: nat
    ghost var log: seq<GpuEvent>

    ghost predicate Valid()
      reads sharedQuadIndex
    {
      sharedQuadIndex.Valid()
    }

    constructor ()
      ensures Valid() && fresh(sharedQuadIndex)
      ensures sharedQuadIndex.capacity == 0 && nextHandle == 0 && log == []
    {
      sharedQuadIndex := new QuadIndex.IndexData();
      nextHandle := 0;
      log := [];
    }
  }
}
