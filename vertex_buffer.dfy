/**
 * VeldridVertexBuffer: a fixed number of vertices in mapped GPU memory, with
 * change detection on writes; and its quad specialisation VeldridQuadBuffer,
 * which draws each four vertices as six indices of the shared quad index buffer.
 */
module Buffers {
  import opened Machine
  import opened Gpu
  import QuadIndex

  /** Which class a buffer is: the base vertex buffer, or a VeldridQuadBuffer holding `amountIndices`. */
  datatype Layout = Vertices | Quads(amountIndices: nat)

  /** ToElements: how many elements a draw of `vertices` vertices covers (3 * vertices / 2 for quads). */
  function ToElements(layout: Layout, vertices: int): (r: int)
    ensures layout.Vertices? ==> r == vertices
    ensures layout.Quads? && vertices >= 0 ==> 0 <= 3 * vertices - 2 * r <= 1
    ensures layout.Quads? && vertices < 0 ==> 0 <= 2 * r - 3 * vertices <= 1
  {
    match layout
    case Vertices => vertices
    case Quads(_) => Half(3 * vertices)
  }

  /** ToElementIndex: the element at which vertex `vertexIndex` starts (3 * vertexIndex / 2 for quads). */
  function ToElementIndex(layout: Layout, vertexIndex: int): (r: int)
    ensures layout.Vertices? ==> r == vertexIndex
    ensures layout.Quads? && vertexIndex >= 0 ==> 0 <= 3 * vertexIndex - 2 * r <= 1
    ensures layout.Quads? && vertexIndex < 0 ==> 0 <= 2 * r - 3 * vertexIndex <= 1
  {
    match layout
    case Vertices => vertexIndex
    case Quads(_) => Half(3 * vertexIndex)
  }

  /** The backend calls of Bind: the vertex buffer, then for quads the shared 16-bit index buffer. */
  function BindEvents(layout: Layout, handle: nat): seq<GpuEvent> {
    [SetVertexBuffer(0, handle)] + (if layout.Quads? then [SetIndexBuffer(UInt16)] else [])
  }

  /** The backend calls of DrawRange(startIndex, endIndex) on a buffer whose GPU buffer exists. */
  function DrawEvents(layout: Layout, handle: nat, startIndex: int, endIndex: int): seq<GpuEvent> {
    BindEvents(layout, handle) +
    [DrawIndexed(ToUInt32(ToElements(layout, endIndex - startIndex)), 1, ToUInt32(ToElementIndex(layout, startIndex)), 0, 0)]
  }

  /**
   * The backend calls of Initialise: create and map the GPU buffer; for quads,
   * upload a regenerated index list when the shared buffer is too small.
   */
  function StartEvents(layout: Layout, size: int, handle: nat, capacity: int): seq<GpuEvent> {
    [CreateBuffer(handle, size), MapBuffer(handle)] +
    (if layout.Quads? && layout.amountIndices > capacity
     then [UploadIndices(QuadIndex.QuadIndexList(layout.amountIndices / 6))]
     else [])
  }

  /** The shared quad index capacity after a buffer of this layout is initialised: grown to its index count if smaller. */
  function GrownCapacity(layout: Layout, capacity: int): (r: int)
    ensures r >= capacity && (layout.Quads? ==> r >= layout.amountIndices)
    ensures r == capacity || (layout.Quads? && r == layout.amountIndices)
  {
    if layout.Quads? && layout.amountIndices > capacity then layout.amountIndices else capacity
  }

  /** The backend calls of Free: Unmap is issued even when there is no GPU buffer. */
  function FreeEvents(handle: Option<nat>): seq<GpuEvent> {
    [UnmapBuffer(handle)] + (if handle.Some? then [DisposeBuffer(handle.value)] else [])
  }

  /** The base class maps vertex counts and indices to elements one to one. */
  lemma VerticesElements(v: int)
    ensures ToElements(Vertices, v) == v && ToElementIndex(Vertices, v) == v
  {
  }

  /** Quads: 4n vertices are 6n elements, and vertex 4k starts at element 6k. */
  lemma QuadElements(amountIndices: nat, n: int)
    ensures ToElements(Quads(amountIndices), 4 * n) == 6 * n
    ensures ToElementIndex(Quads(amountIndices), 4 * n) == 6 * n
  {
  }

  /**
   * A draw of a range of whole quads covers exactly their elements: it starts at
   * element 6 * (s / 4) and ends where the element range of `e` starts.
   */
  lemma QuadDrawCoversQuads(amountIndices: nat, s: int, e: int)
    requires 0 <= s <= e && s % 4 == 0 && e % 4 == 0
    ensures ToElementIndex(Quads(amountIndices), s) == 6 * (s / 4)
    ensures ToElementIndex(Quads(amountIndices), s) + ToElements(Quads(amountIndices), e - s)
         == ToElementIndex(Quads(amountIndices), e)
  {
    QuadElements(amountIndices, s / 4);
    QuadElements(amountIndices, e / 4);
    QuadElements(amountIndices, (e - s) / 4);
  }

  /** A draw of any vertex range inside a quad buffer of `4q` vertices reads only its `6q` indices. */
  lemma QuadDrawWithinIndices(q: nat, s: int, e: int)
    requires 0 <= s <= e <= 4 * q
    ensures 0 <= ToElementIndex(Quads(6 * q), s)
    ensures 0 <= ToElements(Quads(6 * q), e - s)
    ensures ToElementIndex(Quads(6 * q), s) + ToElements(Quads(6 * q), e - s) <= 6 * q
  {
  }

  /**
   * Partial quads: an even vertex count maps to whole triangles, an odd one cuts a
   * triangle, and a draw of two vertices [4k, 4k + 2) covers the first triangle of quad k,
   * which also reads the undrawn vertex 4k + 3.
   */
  lemma PartialQuadDraws(q: nat, k: nat, m: nat)
    requires k < q
    ensures ToElements(Quads(6 * q), 2 * m) == 3 * m
    ensures ToElements(Quads(6 * q), 2 * m + 1) == 3 * m + 1
    ensures var first := ToElementIndex(Quads(6 * q), 4 * k);
            var count := ToElements(Quads(6 * q), 2);
            first == 6 * k && count == 3 &&
            QuadIndex.QuadIndexList(q)[first .. first + count] == [4 * k, 4 * k + 1, 4 * k + 3]
  {
    QuadElements(6 * q, k);
    QuadIndex.QuadIndexListQuad(q, k);
    var l := QuadIndex.QuadIndexList(q);
    assert l[6 * k .. 6 * k + 3] == l[6 * k .. 6 * k + 6][..3];
  }

  class VertexBuffer<T(==,0)> {
    const renderer: Renderer
    /** Size: the number of vertices. */
    const size: int
    const layout: Layout
    /** The CPU-visible mapping of the GPU buffer, written in place by SetVertex. */
    const memory: array<T>
    var gpuBuffer: Option<nat>
    var lastWrittenVertexIndex: int
    var lastUseFrameIndex: nat
    var isDisposed: bool

    ghost predicate Valid()
      reads this
    {
      memory.Length == size &&
      -1 <= lastWrittenVertexIndex < size &&
      (InUse() ==> gpuBuffer.Some?) &&
      (layout.Quads? ==>
         size % 4 == 0 && layout.amountIndices == 6 * (size / 4) && layout.amountIndices <= UShortMax)
    }

    /** InUse: the buffer holds mapped GPU memory. */
    predicate InUse()
      reads this
    {
      lastUseFrameIndex > 0
    }

    /** The state of a newly constructed buffer: nothing allocated, nothing written. */
    ghost predicate Unused()
      reads this
    {
      gpuBuffer == None && lastWrittenVertexIndex == -1 && lastUseFrameIndex == 0 && !isDisposed
    }

    /** A base vertex buffer of `amountVertices` vertices. */
    constructor (renderer: Renderer, amountVertices: nat)
      ensures Valid() && Unused() && fresh(memory)
      ensures this.renderer == renderer && size == amountVertices && layout == Vertices
    {
      this.renderer := renderer;
      size := amountVertices;
      layout := Vertices;
      memory := new T[amountVertices];
      gpuBuffer := None;
      lastWrittenVertexIndex := -1;
      lastUseFrameIndex := 0;
      isDisposed := false;
    }

    /** VeldridQuadBuffer's constructor: 4 vertices and 6 indices per quad; the index count must fit 16 bits. */
    constructor Quad(renderer: Renderer, amountQuads: nat)
      requires 6 * amountQuads <= UShortMax
      ensures Valid() && Unused() && fresh(memory)
      ensures this.renderer == renderer && size == 4 * amountQuads && layout == Quads(6 * amountQuads)
    {
      this.renderer := renderer;
      size := amountQuads * 4;
      layout := Quads(amountQuads * 6);
      memory := new T[amountQuads * 4];
      gpuBuffer := None;
      lastWrittenVertexIndex := -1;
      lastUseFrameIndex := 0;
      isDisposed := false;
    }

    /** The shared quad index buffer after Initialise: regenerated exactly when it was too small. */
    twostate predicate SharedIndexGrown()
      reads renderer.sharedQuadIndex
    {
      var si := renderer.sharedQuadIndex;
      if layout.Quads? && layout.amountIndices > old(si.capacity)
      then si.capacity == layout.amountIndices && si.contents == QuadIndex.QuadIndexList(layout.amountIndices / 6)
      else si.capacity == old(si.capacity) && si.contents == old(si.contents)
    }

    /** Initialise's effect on the buffer handle, the factory and the shared quad index buffer. */
    twostate predicate Allocated()
      reads this, renderer, renderer.sharedQuadIndex
    {
      gpuBuffer == Some(old(renderer.nextHandle)) &&
      renderer.nextHandle == old(renderer.nextHandle) + 1 &&
      SharedIndexGrown()
    }

    /** No GPU buffer was created and the shared quad index buffer was left alone. */
    twostate predicate NoAllocation()
      reads this, renderer, renderer.sharedQuadIndex
    {
      gpuBuffer == old(gpuBuffer) && renderer.nextHandle == old(renderer.nextHandle) &&
      unchanged(renderer.sharedQuadIndex)
    }

    /**
     * Initialise: create and map a new GPU buffer (its mapped contents are left
     * unspecified); for quads, then grow and regenerate the shared index list if
     * it holds fewer than `amountIndices` indices.
     */
    method Initialise()
      requires Valid() && renderer.Valid()
      modifies this, memory, renderer, renderer.sharedQuadIndex
      ensures Valid() && renderer.Valid() && Allocated()
      ensures renderer.log == old(renderer.log) +
                StartEvents(layout, size, old(renderer.nextHandle), old(renderer.sharedQuadIndex.capacity))
      ensures renderer.sharedQuadIndex.capacity >= old(renderer.sharedQuadIndex.capacity)
      ensures layout.Quads? ==> renderer.sharedQuadIndex.capacity >= layout.amountIndices
      ensures lastWrittenVertexIndex == old(lastWrittenVertexIndex) && lastUseFrameIndex == old(lastUseFrameIndex)
      ensures isDisposed == old(isDisposed)
    {
      var handle := renderer.nextHandle;
      renderer.nextHandle := handle + 1;
      gpuBuffer := Some(handle);
      renderer.log := renderer.log + [CreateBuffer(handle, size), MapBuffer(handle)];
      if layout.Quads? && layout.amountIndices > renderer.sharedQuadIndex.capacity {
        renderer.sharedQuadIndex.capacity := layout.amountIndices;
        var indices := QuadIndex.BuildIndices(layout.amountIndices);
        renderer.sharedQuadIndex.contents := QuadIndex.Widen(indices);
        renderer.log := renderer.log + [UploadIndices(QuadIndex.Widen(indices))];
      }
    }

    /** getMemory: initialise first if the buffer is not in use, then mark it in use. */
    method GetMemory() returns (m: array<T>)
      requires Valid() && renderer.Valid()
      modifies this, memory, renderer, renderer.sharedQuadIndex
      ensures m == memory && Valid() && renderer.Valid()
      ensures lastUseFrameIndex == 1 && InUse()
      ensures lastWrittenVertexIndex == old(lastWrittenVertexIndex) && isDisposed == old(isDisposed)
      ensures old(InUse()) ==> NoAllocation() && unchanged(memory) && renderer.log == old(renderer.log)
      ensures !old(InUse()) ==>
                Allocated() &&
                renderer.log == old(renderer.log) +
                  StartEvents(layout, size, old(renderer.nextHandle), old(renderer.sharedQuadIndex.capacity))
    {
      if !InUse() {
        Initialise();
      }
      lastUseFrameIndex := 1;
      m := memory;
    }

    /**
     * SetVertex: store `vertex` at `vertexIndex` and report whether that changed
     * the buffer (a slot never written before, or a different value). There is no
     * bounds check in the source, so the index must be inside the buffer.
     */
    method SetVertex(vertexIndex: int, vertex: T) returns (changed: bool)
      requires Valid() && renderer.Valid()
      requires 0 <= vertexIndex < size
      modifies this, memory, renderer, renderer.sharedQuadIndex
      ensures Valid() && renderer.Valid()
      ensures memory[vertexIndex] == vertex
      ensures lastWrittenVertexIndex == if old(lastWrittenVertexIndex) < vertexIndex then vertexIndex else old(lastWrittenVertexIndex)
      ensures lastUseFrameIndex == 1 && InUse() && isDisposed == old(isDisposed)
      ensures vertexIndex > old(lastWrittenVertexIndex) ==> changed
      ensures old(InUse()) ==>
                (changed <==> vertexIndex > old(lastWrittenVertexIndex) || old(memory[vertexIndex]) != vertex)
      ensures old(InUse()) ==> forall j :: 0 <= j < size && j != vertexIndex ==> memory[j] == old(memory[j])
      ensures old(InUse()) ==> NoAllocation() && renderer.log == old(renderer.log)
      ensures !old(InUse()) ==>
                Allocated() &&
                renderer.log == old(renderer.log) +
                  StartEvents(layout, size, old(renderer.nextHandle), old(renderer.sharedQuadIndex.capacity))
    {
      var m := GetMemory();
      var current := m[vertexIndex];
      changed := vertexIndex > lastWrittenVertexIndex || current != vertex;
      m[vertexIndex] := vertex;
      if vertexIndex > lastWrittenVertexIndex {
        lastWrittenVertexIndex := vertexIndex;
      }
    }

    /** Free: unmap and release the GPU buffer and mark the buffer as not in use. */
    method Free()
      requires Valid()
      modifies this, renderer
      ensures Valid() && gpuBuffer == None && lastUseFrameIndex == 0 && !InUse()
      ensures lastWrittenVertexIndex == old(lastWrittenVertexIndex) && isDisposed == old(isDisposed)
      ensures renderer.nextHandle == old(renderer.nextHandle)
      ensures renderer.log == old(renderer.log) + FreeEvents(old(gpuBuffer))
    {
      renderer.log := renderer.log + [UnmapBuffer(gpuBuffer)];
      if gpuBuffer.Some? {
        renderer.log := renderer.log + [DisposeBuffer(gpuBuffer.value)];
      }
      gpuBuffer := None;
      lastUseFrameIndex := 0;
    }

    /** The public Dispose only suppresses finalisation: it frees nothing and does not set isDisposed. */
    method Dispose()
      ensures unchanged(this)
    {
    }

    /** Dispose(bool): free and mark disposed, once; a second call does nothing. */
    method DisposeCore(disposing: bool)
      requires Valid()
      modifies this, renderer
      ensures Valid() && isDisposed
      ensures renderer.nextHandle == old(renderer.nextHandle)
      ensures old(isDisposed) ==> unchanged(this) && renderer.log == old(renderer.log)
      ensures !old(isDisposed) ==>
                gpuBuffer == None && !InUse() && lastWrittenVertexIndex == old(lastWrittenVertexIndex) &&
                renderer.log == old(renderer.log) + FreeEvents(old(gpuBuffer))
    {
      if isDisposed {
        return;
      }
      Free();
      isDisposed := true;
    }

    /**
     * Bind: refused on a disposed buffer (the source throws); otherwise create the
     * GPU buffer if there is none, bind it, and for quads bind the shared index buffer.
     */
    method Bind() returns (ok: bool)
      requires Valid() && renderer.Valid()
      modifies this, memory, renderer, renderer.sharedQuadIndex
      ensures Valid() && renderer.Valid() && ok == !isDisposed
      ensures lastWrittenVertexIndex == old(lastWrittenVertexIndex) && lastUseFrameIndex == old(lastUseFrameIndex)
      ensures isDisposed == old(isDisposed)
      ensures !ok ==> unchanged(this, memory, renderer, renderer.sharedQuadIndex)
      ensures ok && old(gpuBuffer).Some? ==>
                NoAllocation() && unchanged(this, memory) &&
                renderer.log == old(renderer.log) + BindEvents(layout, old(gpuBuffer).value)
      ensures ok && old(gpuBuffer).None? ==>
                Allocated() &&
                renderer.log == old(renderer.log) +
                  StartEvents(layout, size, old(renderer.nextHandle), old(renderer.sharedQuadIndex.capacity)) +
                  BindEvents(layout, old(renderer.nextHandle))
    {
      if isDisposed {
        return false;
      }
      if gpuBuffer.None? {
        Initialise();
      }
      renderer.log := renderer.log + [SetVertexBuffer(0, gpuBuffer.value)];
      if layout.Quads? {
        renderer.log := renderer.log + [SetIndexBuffer(UInt16)];
      }
      ok := true;
    }

    /** Unbind: empty in the source, so no state changes. */
    method Unbind()
      ensures unchanged(this, memory, renderer, renderer.sharedQuadIndex)
    {
    }

    /**
     * DrawRange: bind, then one indexed draw of the elements that the vertex range
     * [startIndex, endIndex) maps to.
     */
    method DrawRange(startIndex: int, endIndex: int) returns (ok: bool)
      requires Valid() && renderer.Valid()
      modifies this, memory, renderer, renderer.sharedQuadIndex
      ensures Valid() && renderer.Valid() && ok == !isDisposed
      ensures lastWrittenVertexIndex == old(lastWrittenVertexIndex) && lastUseFrameIndex == old(lastUseFrameIndex)
      ensures isDisposed == old(isDisposed)
      ensures !ok ==> unchanged(this, memory, renderer, renderer.sharedQuadIndex)
      ensures ok && old(gpuBuffer).Some? ==>
                NoAllocation() && unchanged(this, memory) &&
                renderer.log == old(renderer.log) + DrawEvents(layout, old(gpuBuffer).value, startIndex, endIndex)
      ensures ok && old(gpuBuffer).None? ==>
                Allocated() &&
                renderer.log == old(renderer.log) +
                  StartEvents(layout, size, old(renderer.nextHandle), old(renderer.sharedQuadIndex.capacity)) +
                  DrawEvents(layout, old(renderer.nextHandle), startIndex, endIndex)
    {
      ok := Bind();
      if !ok {
        return;
      }
      var countVertices := endIndex - startIndex;
      renderer.log := renderer.log +
        [DrawIndexed(ToUInt32(ToElements(layout, countVertices)), 1, ToUInt32(ToElementIndex(layout, startIndex)), 0, 0)];
      Unbind();
    }

    /** UpdateRange: empty in the source, so nothing is uploaded and no state changes. */
    method UpdateRange(startIndex: int, endIndex: int)
      ensures unchanged(this, memory, renderer, renderer.sharedQuadIndex)
    {
    }
  }
}
