# Vertex batching in MetalSandbox's Veldrid renderer

This project models vertex batching and buffer management in the Veldrid renderer of
MetalSandbox:

- `VeldridVertexBatch<T>` is a per-frame accumulator. `Add` writes vertices into the
  buffers of its active slot. When a buffer is full, `Add` draws it and moves on to the
  next one. New buffers are created lazily and appended. `Draw` hands the pending dirty
  range to `UpdateRange` and submits the vertices added since the last draw.
- `VeldridVertexBuffer<T>` is a fixed-size store of vertices in mapped GPU memory. Its
  writes detect changes. It creates its GPU buffer lazily and can be freed and disposed.
  It maps vertex ranges to element ranges for indexed draws.
- `VeldridQuadBuffer<T>` specialises the vertex buffer to quads: four vertices and six
  16-bit indices per quad. It regenerates the renderer's shared index list, and grows its
  capacity, when a larger quad buffer is initialised.

Modules, one per concept:

- `Machine`: the source's machine arithmetic. This is the `ushort` counter type, the
  unchecked `(uint)` cast, and C#'s truncating division by two.
- `QuadIndex`: the quad index list as a pure function, with its closed form and bounds.
  It also holds the two-counter generation loop of `Initialise`, proved equal to that
  function, and the shared index data (`VeldridIndexData`), a capacity plus the list last
  uploaded.
- `Gpu`: the parts of the renderer a buffer uses. `Device`, `Commands` and `Factory`
  become a ghost log of backend calls (`GpuEvent`). GPU buffers are named by handles from
  a counter.
- `Buffers`: the vertex buffer class. A `layout` field selects the base class or the quad
  override of `Initialise`, `Bind`, `ToElements` and `ToElementIndex`. The backend calls
  the methods make are defined as functions (`StartEvents`, `BindEvents`, `DrawEvents`,
  `FreeEvents`), and each method's contract says exactly which of them it appends.
- `BatchCursors`: the batch's five cursor fields, plus the buffer count of the active
  slot, as a value. `Add`, `Draw` and `ResetCounters` are functions on that value, and
  the lemmas state the batch's invariant, the dirty-range bookkeeping, the overflow
  rotation and "a draw submits exactly what was added".
- `Batches`: the batch class. Each method's contract ties the new cursors to those
  functions. It also states the calls the method made on its buffers (a ghost `issued`
  trace, needed because `UpdateRange` has an empty body), what it wrote to the target
  buffer, and the backend calls. `QuadScenario` follows the renderer's per-frame pattern
  (reset, Adds, Draw) on buffers of one quad.

Quirks of the source that the model reproduces instead of correcting:

- The active slot is `vertexBuffers[3 % vertexBuffers.Length]`, which is always slot 1
  of 2. Slot 0 stays empty forever, and the batch's invariant says so.
- `UpdateRange` has an empty body, so the dirty range that `Draw` hands to it causes no
  upload.
- The public `Dispose` of a vertex buffer only suppresses finalisation. As a result, the
  batch's `Dispose(bool)` releases none of its buffers: afterwards every buffer is still
  in use and not disposed.
- `SetVertex` writes through a raw pointer without a bounds check, so the index being
  inside the buffer is a precondition.
- For quads, `ToElements` and `ToElementIndex` compute `3 * v / 2` for any `v`. An even
  vertex count maps to whole triangles and an odd one cuts a triangle: a draw of one
  vertex covers one element. Only a multiple of 4 covers exactly the drawn vertices. A
  count of 2 modulo 4 ends with the first triangle (4k, 4k+1, 4k+3) of a quad, which
  reads the undrawn vertex 4k+3.
- `Bind` on a buffer with no GPU buffer runs `Initialise` but does not set
  `LastUseFrameIndex` (VeldridVertexBuffer.cs lines 89-90, against `getMemory` at lines
  122-125). The buffer is then still not in use, so the next `SetVertex` initialises
  again: a second `CreateBuffer` with no `DisposeBuffer` of the first, which leaks. The
  contracts of `Bind` and `GetMemory` show that sequence. The batch never reaches it,
  because it writes to every buffer before drawing it.

## Model

| member | source | states |
|---|---|---|
| `Machine.ToUInt32` | VeldridSandbox/Veldrid/Buffers/VeldridVertexBuffer.cs:111 | the unchecked `(uint)` cast of the draw arguments: the result is in [0, 2^32), equals a non-negative input below 2^32, and is 2^32 + x for a negative x down to -2^32 |
| `Machine.Half` | VeldridSandbox/Veldrid/Buffers/VeldridQuadBuffer.cs:62-64 | C#'s `/ 2`, truncating toward zero: for x >= 0 the remainder x - 2r is 0 or 1, for x < 0 it is 0 or -1 |
| `QuadIndex.QuadIndexList` | VeldridSandbox/Veldrid/Buffers/VeldridQuadBuffer.cs:38-48 | the index list for q quads has exactly six entries per quad, the 6q the source allocates |
| `QuadIndex.MaxQuadsBound` | VeldridSandbox/Veldrid/Buffers/VeldridQuadBuffer.cs:20-27 | MAX_QUADS is 10922, and the constructor's 16-bit index bound 6q <= 65535 holds exactly when q <= MAX_QUADS |
| `QuadIndex.QuadIndexListAt` | VeldridSandbox/Veldrid/Buffers/VeldridQuadBuffer.cs:40-48 | entry n of the index list for q quads is 4 * (n / 6) plus the winding offset (0, 1, 3, 2, 3, 1) of position n % 6 |
| `QuadIndex.QuadIndexListQuad` | VeldridSandbox/Veldrid/Buffers/VeldridQuadBuffer.cs:40-48 | for each quad k, entries 6k .. 6k+5 are exactly [4k, 4k+1, 4k+3, 4k+2, 4k+3, 4k+1] |
| `QuadIndex.QuadIndexListBound` | VeldridSandbox/Veldrid/Buffers/VeldridQuadBuffer.cs:40-48 | every index names one of the 4q vertices of the buffer, and fits in 16 bits when q <= MAX_QUADS |
| `QuadIndex.QuadIndexListPrefix` | VeldridSandbox/Veldrid/Buffers/VeldridQuadBuffer.cs:34-53 | the list for fewer quads is a prefix of the list for more, so a shared list generated for a larger buffer serves every smaller one |
| `QuadIndex.IndexData.Valid` | VeldridSandbox/Veldrid/Buffers/VeldridQuadBuffer.cs:34-52 | the shared index buffer's capacity is a multiple of 6 that fits 16 bits, and the list last uploaded is exactly the quad index list for capacity / 6 quads; every operation that touches it keeps this (the renderer's Valid) |
| `QuadIndex.BuildIndices` | VeldridSandbox/Veldrid/Buffers/VeldridQuadBuffer.cs:38-48 | the two-counter loop (i += 4, j += 6) over a `ushort` array produces exactly the index list for amountIndices / 6 quads, with no 16-bit overflow |
| `Buffers.GrownCapacity` | VeldridSandbox/Veldrid/Buffers/VeldridQuadBuffer.cs:34-36 | the shared capacity never decreases, afterwards is at least the buffer's amountIndices, and is either unchanged or exactly amountIndices |
| `Buffers.ToElements` | VeldridSandbox/Veldrid/Buffers/VeldridQuadBuffer.cs:62 | the element count of a draw of v vertices: v for base buffers (VeldridVertexBuffer.cs line 100); for quads 3v/2 truncated toward zero, so 2r is 3v or 3v - 1 for v >= 0, and 3v or 3v + 1 for v < 0 |
| `Buffers.ToElementIndex` | VeldridSandbox/Veldrid/Buffers/VeldridQuadBuffer.cs:64 | the first element of vertex v: v for base buffers (VeldridVertexBuffer.cs line 102); for quads 3v/2 truncated toward zero, with the same bounds |
| `Buffers.VerticesElements` | VeldridSandbox/Veldrid/Buffers/VeldridVertexBuffer.cs:100-102 | the base class maps vertex counts and vertex indices to elements one to one |
| `Buffers.QuadElements` | VeldridSandbox/Veldrid/Buffers/VeldridQuadBuffer.cs:62-64 | for quads, 4n vertices are 6n elements and vertex 4n starts at element 6n |
| `Buffers.QuadDrawCoversQuads` | VeldridSandbox/Veldrid/Buffers/VeldridQuadBuffer.cs:62-64 | a draw of whole quads [s, e) starts at element 6 * (s / 4) and ends exactly where the element range of e begins |
| `Buffers.QuadDrawWithinIndices` | VeldridSandbox/Veldrid/Buffers/VeldridQuadBuffer.cs:62-64 | any vertex range inside a buffer of q quads maps to a non-negative element range inside its 6q indices |
| `Buffers.PartialQuadDraws` | VeldridSandbox/Veldrid/Buffers/VeldridQuadBuffer.cs:62-64 | 2m vertices of a quad buffer are 3m elements (whole triangles) and 2m + 1 are 3m + 1 (a cut triangle). A draw of [4k, 4k + 2) starts at element 6k and covers the 3 indices 4k, 4k+1, 4k+3, so it reads the undrawn vertex 4k+3 |
| `Buffers.VertexBuffer.constructor` | VeldridSandbox/Veldrid/Buffers/VeldridVertexBuffer.cs:25-32 | a new buffer of Size vertices has no GPU buffer, nothing written (lastWrittenVertexIndex = -1), is not in use and not disposed |
| `Buffers.VertexBuffer.Quad` | VeldridSandbox/Veldrid/Buffers/VeldridQuadBuffer.cs:22-28 | a quad buffer for Q quads has Size 4Q and amountIndices 6Q, and demands 6Q <= 65535 |
| `Buffers.VertexBuffer.Initialise` | VeldridSandbox/Veldrid/Buffers/VeldridQuadBuffer.cs:30-54 | creates and maps a new GPU buffer (the base part, VeldridVertexBuffer.cs lines 61-65). For quads, exactly when amountIndices exceeds the shared capacity, it sets the capacity to amountIndices and regenerates and uploads the index list for amountIndices / 6 quads; otherwise the shared buffer is untouched. The capacity never decreases and afterwards covers the buffer |
| `Buffers.VertexBuffer.InUse` | VeldridSandbox/Veldrid/Buffers/VeldridVertexBuffer.cs:129-131 | a buffer is in use exactly when LastUseFrameIndex > 0; the buffer invariant adds that a buffer in use has a GPU buffer |
| `Buffers.VertexBuffer.GetMemory` | VeldridSandbox/Veldrid/Buffers/VeldridVertexBuffer.cs:120-131 | initialises only when not in use, and always leaves the buffer in use with LastUseFrameIndex = 1. When already in use, memory, handle and backend are untouched |
| `Buffers.VertexBuffer.SetVertex` | VeldridSandbox/Veldrid/Buffers/VeldridVertexBuffer.cs:40-51 | memory[i] = v afterwards, lastWrittenVertexIndex = max(old, i), buffer in use. The result is true when i > old lastWrittenVertexIndex. On a buffer already in use it is true iff that holds or the old memory[i] differs from v, every other slot is unchanged, and no backend call is made; on one not in use the buffer is initialised first |
| `Buffers.VertexBuffer.Free` | VeldridSandbox/Veldrid/Buffers/VeldridVertexBuffer.cs:133-141 | unmaps (even with no GPU buffer), disposes the GPU buffer if there is one, clears the handle, and leaves the buffer not in use |
| `Buffers.VertexBuffer.Dispose` | VeldridSandbox/Veldrid/Buffers/VeldridVertexBuffer.cs:67-70 | the public Dispose changes no state: nothing is freed and IsDisposed is not set |
| `Buffers.VertexBuffer.DisposeCore` | VeldridSandbox/Veldrid/Buffers/VeldridVertexBuffer.cs:74-82 | Dispose(bool) is idempotent: the first call frees and marks disposed, a later call changes nothing and issues no backend call |
| `Buffers.VertexBuffer.Bind` | VeldridSandbox/Veldrid/Buffers/VeldridVertexBuffer.cs:84-94 | refused (the source throws) exactly when disposed, with no effect. Otherwise it creates the GPU buffer if absent, then binds it; for quads it then binds the shared index buffer as UInt16 (VeldridQuadBuffer.cs lines 56-60) |
| `Buffers.VertexBuffer.Unbind` | VeldridSandbox/Veldrid/Buffers/VeldridVertexBuffer.cs:96-98 | changes no state |
| `Buffers.VertexBuffer.DrawRange` | VeldridSandbox/Veldrid/Buffers/VeldridVertexBuffer.cs:106-114 | binds, then issues exactly one indexed draw of ToElements(e - s) elements starting at ToElementIndex(s); nothing else changes when the GPU buffer exists |
| `Buffers.VertexBuffer.UpdateRange` | VeldridSandbox/Veldrid/Buffers/VeldridVertexBuffer.cs:116-118 | changes no state and issues no backend call |
| `BatchCursors.InitialInv` | VeldridSandbox/Veldrid/Batches/VeldridVertexBatch.cs:34-39 | the initial field values keep the batch invariant, and a Draw on them returns 0 and calls nothing |
| `BatchCursors.ResetProperties` | VeldridSandbox/Veldrid/Batches/VeldridVertexBatch.cs:76-82 | after ResetCounters the invariant holds and the buffer count is unchanged. A Draw then returns 0, calls nothing and changes nothing, and the next Add writes vertex 0 of buffer 0 |
| `BatchCursors.DrawProperties` | VeldridSandbox/Veldrid/Batches/VeldridVertexBatch.cs:124-148 | with nothing new, Draw returns 0, calls nothing and changes nothing. Otherwise it returns vertexIndex - drawIndex and calls UpdateRange iff changeBegin >= 0, before the single DrawRange(drawIndex, vertexIndex); it then sets drawIndex := vertexIndex and changeBegin := -1. Either way a second Draw returns 0 |
| `BatchCursors.AddProperties` | VeldridSandbox/Veldrid/Batches/VeldridVertexBatch.cs:90-116 | Add keeps the invariant and appends one buffer exactly when it creates one, else none. Afterwards the written buffer exists at the buffer cursor, and the vertex cursor is one past the written index |
| `BatchCursors.PrepareReady` | VeldridSandbox/Veldrid/Batches/VeldridVertexBatch.cs:92-105 | after the overflow and creation steps the target buffer exists and has room at the vertex cursor, which is where Add writes |
| `BatchCursors.WriteInv` | VeldridSandbox/Veldrid/Batches/VeldridVertexBatch.cs:107-115 | storing at a target with room and advancing the vertex cursor restores the invariant, whatever SetVertex reports |
| `BatchCursors.RotationProperties` | VeldridSandbox/Veldrid/Batches/VeldridVertexBatch.cs:94-101 | a full buffer is drawn entirely (all its undrawn vertices), and the vertex lands at index 0 of the next buffer with the draw cursor at 0 |
| `BatchCursors.NoRotationProperties` | VeldridSandbox/Veldrid/Batches/VeldridVertexBatch.cs:94-101 | without overflow Add calls nothing on the buffers and writes at the current buffer and vertex cursor |
| `BatchCursors.DirtyRangeStep` | VeldridSandbox/Veldrid/Batches/VeldridVertexBatch.cs:107-113 | a reported change opens the dirty range at the written index if it was closed, and ends it just past that index; an unchanged write leaves both ends untouched |
| `BatchCursors.AddAllInv` | VeldridSandbox/Veldrid/Batches/VeldridVertexBatch.cs:90-116 | any run of Adds keeps the invariant, never drops a buffer, and appends at most one buffer per Add |
| `BatchCursors.AddAllInBuffer` | VeldridSandbox/Veldrid/Batches/VeldridVertexBatch.cs:107-115 | Adds that fit in the current buffer stay in it and make no buffer call, and the dirty range spans exactly from the first changed vertex to just past the last, joined to a range already pending |
| `BatchCursors.OverflowDrawsOnce` | VeldridSandbox/Veldrid/Batches/VeldridVertexBatch.cs:92-101 | for every buffer size, Adds that fill the current buffer to its end make no buffer call. The next Add makes exactly one implicit Draw: the pending dirty range's UpdateRange if there is one, then DrawRange from the draw cursor to the buffer's end. That Add lands at index 0 of the next buffer |
| `BatchCursors.FreshBatchOverflow` | VeldridSandbox/Veldrid/Batches/VeldridVertexBatch.cs:90-116 | on a fresh batch with no buffer, for every buffer size N, the first N Adds make no buffer call. The (N+1)-th makes exactly one implicit Draw of all of buffer 0, with UpdateRange over [first changed, last changed + 1) first when any write changed something. It leaves two buffers, writing at index 0 of buffer 1 |
| `BatchCursors.DrawAfterAdds` | VeldridSandbox/Veldrid/Batches/VeldridVertexBatch.cs:124-148 | after a Draw and k Adds that fit, the next Draw returns k and draws exactly [vertexIndex, vertexIndex + k) of the current buffer. It calls UpdateRange first iff one of the writes changed something |
| `Batches.VertexBatch.CurrentSlotIsOne` | VeldridSandbox/Veldrid/Batches/VeldridVertexBatch.cs:27 | the active slot 3 % vertexBuffers.Length is always slot 1 |
| `Batches.VertexBatch.constructor` | VeldridSandbox/Veldrid/Batches/VeldridVertexBatch.cs:43-52 | both slots hold empty lists, the cursors have their initial values (dirty range -1, -1), and no buffer call has been made |
| `Batches.VertexBatch.ResetCounters` | VeldridSandbox/Veldrid/Batches/VeldridVertexBatch.cs:76-82 | the cursors become Reset of the old cursors, and the buffer lists and objects are unchanged |
| `Batches.VertexBatch.CreateVertexBuffer` | VeldridSandbox/Veldrid/Batches/VeldridVertexBatch.cs:84 | yields a fresh, unused buffer of the batch's kind, holding kind.VertexCount() vertices |
| `Batches.VertexBatch.Draw` | VeldridSandbox/Veldrid/Batches/VeldridVertexBatch.cs:124-148 | the return value, the new cursors and the buffer calls are those of DrawProperties. The backend receives exactly the bind and indexed draw of the current buffer's undrawn range, or nothing. No buffer state changes |
| `Batches.VertexBatch.Rotate` | VeldridSandbox/Veldrid/Batches/VeldridVertexBatch.cs:94-101 | the overflow step: draws the full buffer and moves the cursors to the start of the next one |
| `Batches.VertexBatch.Extend` | VeldridSandbox/Veldrid/Batches/VeldridVertexBatch.cs:103-105 | appends a fresh, unused buffer exactly when the slot has none at the buffer cursor, and keeps the existing ones |
| `Batches.VertexBatch.Advance` | VeldridSandbox/Veldrid/Batches/VeldridVertexBatch.cs:92-105 | the first two steps of Add: existing buffers untouched, the cursors at Prepare of the old ones, and the overflow Draw's calls and backend events, if any |
| `Batches.VertexBatch.WriteTarget` | VeldridSandbox/Veldrid/Batches/VeldridVertexBatch.cs:107 | SetVertex on the target: reports exactly a write to a never-written index or a different value, stores the vertex, and changes no other buffer |
| `Batches.VertexBatch.Store` | VeldridSandbox/Veldrid/Batches/VeldridVertexBatch.cs:107-115 | the last steps of Add: the vertex is stored at the target, the dirty range widens iff the write changed something, the vertex cursor advances, and the invariant is restored |
| `Batches.VertexBatch.Add` | VeldridSandbox/Veldrid/Batches/VeldridVertexBatch.cs:90-116 | the new cursors are AfterAdd of the old ones. The list only grows, and v lands at Target with all other vertices and buffers unchanged. The buffer calls are the overflow Draw's. The backend sees the overflow Draw if it overflows. Then, if it creates a buffer, it sees that buffer's creation and mapping, and for quads the index upload when the shared list is too small |
| `Batches.VertexBatch.DisposeCore` | VeldridSandbox/Veldrid/Batches/VeldridVertexBatch.cs:62-72 | disposing every buffer of every slot through its public Dispose leaves each still in use and not disposed |
| `Batches.VertexBatch.Dispose` | VeldridSandbox/Veldrid/Batches/VeldridVertexBatch.cs:56-60 | the same as Dispose(true): no buffer is released |
| `Batches.QuadScenario` | VeldridSandbox/Veldrid/Batches/VeldridVertexBatch.cs:76-148 | on one-quad buffers, reset then five Adds draw buffer 0 once (4 vertices, 6 indices) and put the fifth vertex at index 0 of a new buffer 1. The next Draw returns 1 and draws that lone vertex as 3 * 1 / 2 = 1 index; a second Draw returns 0. The exact buffer calls and backend event log are given |

## Left out

- `STRIDE` (`Marshal.SizeOf`) and byte sizes: a buffer's size is counted in vertices, so the `CreateBuffer` event records vertices, not bytes.
- The raw `T*` mapped memory becomes an `array<T>` of Size elements owned by the buffer, and `IEquatable<T>.Equals` becomes Dafny equality.
- `Buffers.VertexBuffer.Initialise`: the contents of newly mapped memory are left unspecified. The source takes whatever the new GPU mapping holds.
- `Buffers.VertexBuffer.SetVertex`: when the buffer was not in use, the contract only promises that a write past lastWrittenVertexIndex reports a change. Below that index the result depends on the unspecified contents of the new mapping. The batch only sees that case for a buffer it has just created, which has written nothing.
- `Buffers.VertexBuffer.Quad`: the constructor's `Debug.Assert` on the index count is a precondition, so the model does not follow a release build, which skips it. There the `ushort` counter `j` of the generation loop (VeldridQuadBuffer.cs line 40) wraps. With 10923 quads, the write to `indices[j + 4]` after `j` wraps is out of range and throws. With 10924 quads or more, `j < amountIndices` always holds and the loop never ends. `QuadIndex.BuildIndices` terminates only because it requires amountIndices <= 65535.
- `Bind`'s ObjectDisposedException becomes a false result of `Bind` and `DrawRange`, which then do nothing further (the exception would skip the draw). `Bind`'s `Debug.Assert` that the GPU buffer exists is proved, not assumed.
- 32-bit arithmetic: integers are unbounded. The cursor increments stay within int32 because the cursors never pass the buffers' Size, which is an `int` in the source. A `VertexKind` larger than int32 allows does not occur there. `LastUseFrameIndex` (ulong) is a `nat`. On the batch's draws, `3 * v` in the quad mappings stays inside int32, because the batch draws only ranges inside a quad buffer, whose Size is at most 4 * MAX_QUADS.
- `Buffers.ToElements`, `Buffers.ToElementIndex`: the quad override's `3 * v` is int32 arithmetic in the source and wraps once |v| > 715827882; the model computes it on unbounded integers. `DrawRange` has no bounds on its range, so for such a range its `DrawIndexed` arguments differ from the source's. For example, `DrawRange(0, 1000000000)` on a quad buffer logs an element count of 1500000000, where the source passes 3647483648. When the range's start and length are both at most 715827882 in absolute value, the two agree.
- The Veldrid backend (factory, device, command list) is foreign code. Its calls are recorded as events, with no model of what they do. `Unmap` of a null buffer is recorded like any other call.
- Finalisation and `GC.SuppressFinalize` are runtime details with no state in the model.
- Threads: the source runs these methods on the draw thread only, and the model is sequential.
- The `AddAction` delegate is only a cached reference to `Add`.
- The `Type` (primitive topology) property is not used by the modelled operations.
- The interfaces `IVertexBatch` and `IVertexBuffer` declare members only. Their members live in the classes here.
- `Batches.VertexBatch.constructor`: `CreateVertexBuffer` is abstract in the source, so the batch takes the kind of buffer it creates (`BufferKind`). It requires that kind to hold at least one vertex, since a zero-size buffer would make the first `Add` write out of bounds. The concrete subclass (VeldridQuadBatch) is not part of this model.
- `VeldridIndexData` is not part of this model beyond its capacity and the index list last uploaded. The reallocation of its GPU buffer when Capacity is set is not modelled.
- The renderer (device, swapchain, pipeline, floating-point quad coordinates) is not modelled. `QuadScenario` borrows only its call pattern of reset, Adds and Draw.
- The batch's `Size` (VeldridVertexBatch.cs, the constructor's bufferSize) is stored and not tied to its buffers' size. The interface IVertexBatch documents it as the number of vertices in each buffer, but `Add` uses the size of the buffers that `CreateVertexBuffer` builds, and so does the model (`BufferKind.VertexCount`).
