/**
 * VeldridVertexBatch: accumulates vertices into the buffers of its active slot,
 * flushing and moving to the next buffer when one is full, and draws what was
 * added since the last draw. Its cursors follow the functions of BatchCursors.
 */
module Batches {
  import opened Machine
  import opened Gpu
  import opened Buffers
  import opened BatchCursors

  /** vertex_buffer_count: the number of buffer slots. */
  const VertexBufferCount: nat := 2

  /** What the batch's CreateVertexBuffer builds: base buffers of some vertices, or quad buffers of some quads. */
  datatype BufferKind = VertexKind(amountVertices: nat) | QuadKind(amountQuads: nat) {
    /** The Size of every buffer created. */
    function VertexCount(): nat {
      match this
      case VertexKind(n) => n
      case QuadKind(q) => 4 * q
    }

    function ToLayout(): Layout {
      match this
      case VertexKind(_) => Vertices
      case QuadKind(q) => Quads(6 * q)
    }

    /** The buffers can be built (the quad constructor's assertion holds) and hold at least one vertex. */
    predicate Usable() {
      VertexCount() > 0 && (QuadKind? ==> 6 * amountQuads <= UShortMax)
    }
  }

  class VertexBatch<T(==,0)> {
    /** Size: the bufferSize given at construction. */
    const size: int
    const kind: BufferKind
    const renderer: Renderer
    /** The slots: each holds the list of buffers created for it, which only grows. */
    const vertexBuffers: array<seq<VertexBuffer<T>>>
    var changeBeginIndex: int
    var changeEndIndex: int
    var currentBufferIndex: int
    var currentVertexIndex: int
    var currentDrawIndex: int
    /** The UpdateRange and DrawRange calls made on the buffers, in order. */
    ghost var issued: seq<BatchCall>
    /** The slot array, the buffers and their memory. */
    ghost var Repr: set<object>

    /** currentVertexBuffers selects slot 3 % vertexBuffers.Length, which is always slot 1 of 2. */
    function CurrentSlot(): nat {
      3 % VertexBufferCount
    }

    ghost function Buffers(): seq<VertexBuffer<T>>
      reads vertexBuffers
      requires vertexBuffers.Length == VertexBufferCount
    {
      vertexBuffers[CurrentSlot()]
    }

    ghost function Cursors(): Cursors
      reads this, vertexBuffers
      requires vertexBuffers.Length == VertexBufferCount
    {
      BatchCursors.Cursors(|Buffers()|, currentBufferIndex, currentVertexIndex, currentDrawIndex,
                           changeBeginIndex, changeEndIndex)
    }

    /** A buffer of the batch: built by CreateVertexBuffer, owned by the batch, never disposed. */
    ghost predicate Owned(b: VertexBuffer<T>)
      reads this`Repr, b
    {
      b in Repr && b.memory in Repr && b.memory as object != vertexBuffers && b.Valid() &&
      b.renderer == renderer && b.size == kind.VertexCount() && b.layout == kind.ToLayout() &&
      !b.isDisposed
    }

    /** The batch's objects: one slot array, whose other slot stays empty, and distinct owned buffers. */
    ghost predicate Frame()
      reads this`Repr, Repr, renderer.sharedQuadIndex
    {
      vertexBuffers in Repr && vertexBuffers.Length == VertexBufferCount &&
      this !in Repr && renderer !in Repr && renderer.sharedQuadIndex !in Repr &&
      renderer.Valid() && kind.Usable() &&
      (forall s :: 0 <= s < VertexBufferCount && s != CurrentSlot() ==> vertexBuffers[s] == []) &&
      (forall i :: 0 <= i < |Buffers()| ==> Buffers()[i] in Repr && Owned(Buffers()[i])) &&
      (forall i, j :: 0 <= i < j < |Buffers()| ==> Buffers()[i] != Buffers()[j] && Buffers()[i].memory != Buffers()[j].memory)
    }

    /** Between Adds: every buffer of the slot has been written (so it holds mapped memory) and the cursors keep Inv. */
    ghost predicate Valid()
      reads this, Repr, renderer, renderer.sharedQuadIndex
    {
      Frame() &&
      (forall i :: 0 <= i < |Buffers()| ==> Buffers()[i].InUse()) &&
      Inv(Cursors(), kind.VertexCount())
    }

    /**
     * Inside Add, once the target is found: it exists and has room, and it is either
     * a buffer already written or the one just created.
     */
    ghost predicate Prepared()
      reads this, Repr, renderer, renderer.sharedQuadIndex
    {
      Frame() && Ready(Cursors(), kind.VertexCount()) &&
      (forall i :: 0 <= i < |Buffers()| && i != currentBufferIndex ==> Buffers()[i].InUse()) &&
      (Buffers()[currentBufferIndex].InUse() || Buffers()[currentBufferIndex].Unused())
    }

    /** The slot selection never varies: it is slot 1 of 2. */
    lemma CurrentSlotIsOne()
      requires vertexBuffers.Length == VertexBufferCount
      ensures 3 % vertexBuffers.Length == CurrentSlot() == 1
    {
    }

    constructor (renderer: Renderer, bufferSize: int, kind: BufferKind)
      requires renderer.Valid() && kind.Usable()
      ensures Valid() && fresh(Repr)
      ensures this.renderer == renderer && this.kind == kind && size == bufferSize
      ensures Cursors() == Initial() && issued == []
    {
      size := bufferSize;
      this.kind := kind;
      this.renderer := renderer;
      vertexBuffers := new seq<VertexBuffer<T>>[VertexBufferCount];
      changeBeginIndex, changeEndIndex := -1, -1;
      currentBufferIndex, currentVertexIndex, currentDrawIndex := 0, 0, 0;
      issued := [];
      new;
      for i := 0 to vertexBuffers.Length
        modifies vertexBuffers
        invariant forall s :: 0 <= s < i ==> vertexBuffers[s] == []
      {
        vertexBuffers[i] := [];
      }
      Repr := {vertexBuffers};
    }

    /** Valid survives a step that keeps the batch's objects and moves the cursors within Inv. */
    twostate lemma ValidKept()
      requires old(Frame()) && old(forall i :: 0 <= i < |Buffers()| ==> Buffers()[i].InUse())
      requires Repr == old(Repr) && unchanged(Repr) && unchanged(renderer.sharedQuadIndex)
      requires Inv(Cursors(), kind.VertexCount())
      ensures Valid()
    {
    }

    /** The backend calls Draw makes on the current buffer. */
    ghost function DrawGpuEvents(): seq<GpuEvent>
      reads this, Repr, renderer, renderer.sharedQuadIndex
      requires Valid()
    {
      if DrawsNothing(Cursors()) then []
      else DrawEvents(kind.ToLayout(), Buffers()[currentBufferIndex].gpuBuffer.value, currentDrawIndex, currentVertexIndex)
    }

    /**
     * Whether Add(v) will find a change: at its target the buffer is new, the index
     * was never written, or a different value is stored.
     */
    ghost function AddChanges(v: T): bool
      reads this, Repr, renderer, renderer.sharedQuadIndex
      requires Valid()
    {
      var (k, p) := Target(Cursors(), kind.VertexCount());
      AddProperties(Cursors(), kind.VertexCount(), false);
      k >= |Buffers()| || p > Buffers()[k].lastWrittenVertexIndex || Buffers()[k].memory[p] != v
    }

    /** ResetCounters: start a new accumulation cycle; the buffers are kept. */
    method ResetCounters()
      requires Valid()
      modifies this
      ensures Valid() && Repr == old(Repr) && issued == old(issued)
      ensures Cursors() == Reset(old(Cursors()))
    {
      changeBeginIndex := -1;
      currentBufferIndex := 0;
      currentVertexIndex := 0;
      currentDrawIndex := 0;
      ResetProperties(old(Cursors()), kind.VertexCount());
    }

    /** CreateVertexBuffer: a new, unused buffer of the batch's kind. */
    method CreateVertexBuffer() returns (b: VertexBuffer<T>)
      requires kind.Usable()
      ensures fresh(b) && fresh(b.memory) && b.Valid() && b.Unused()
      ensures b.renderer == renderer && b.size == kind.VertexCount() && b.layout == kind.ToLayout()
    {
      if kind.VertexKind? {
        b := new VertexBuffer(renderer, kind.amountVertices);
      } else {
        b := new VertexBuffer.Quad(renderer, kind.amountQuads);
      }
    }

    /**
     * Draw: with nothing added since the last draw, return 0 and do nothing; otherwise
     * hand the dirty range to UpdateRange if there is one, draw the undrawn vertices of the current
     * buffer, and return how many they were.
     */
    method Draw() returns (count: int)
      requires Valid()
      modifies this, Repr, renderer, renderer.sharedQuadIndex
      ensures Valid() && Repr == old(Repr) && unchanged(Repr) && unchanged(renderer.sharedQuadIndex)
      ensures renderer.nextHandle == old(renderer.nextHandle)
      ensures count == DrawCount(old(Cursors()))
      ensures Cursors() == AfterDraw(old(Cursors())) && changeEndIndex == old(changeEndIndex)
      ensures issued == old(issued) + DrawCalls(old(Cursors()))
      ensures renderer.log == old(renderer.log) + old(DrawGpuEvents())
    {
      DrawProperties(Cursors(), kind.VertexCount());
      var buffers := vertexBuffers[3 % vertexBuffers.Length];
      if currentVertexIndex == currentDrawIndex || |buffers| == 0 {
        return 0;
      }
      var buffer := buffers[currentBufferIndex];
      assert Owned(buffer) && buffer.InUse() && buffer.gpuBuffer.Some?;
      ghost var events := DrawGpuEvents();
      assert events == DrawEvents(buffer.layout, buffer.gpuBuffer.value, currentDrawIndex, currentVertexIndex);
      if changeBeginIndex >= 0 {
        buffer.UpdateRange(changeBeginIndex, changeEndIndex);
        issued := issued + [UpdateRangeCall(currentBufferIndex, changeBeginIndex, changeEndIndex)];
      }
      var ok := buffer.DrawRange(currentDrawIndex, currentVertexIndex);
      issued := issued + [DrawRangeCall(currentBufferIndex, currentDrawIndex, currentVertexIndex)];
      count := currentVertexIndex - currentDrawIndex;
      currentDrawIndex := currentVertexIndex;
      changeBeginIndex := -1;
      ValidKept();
    }

    /** Whether storing `v` at the prepared target is a change: the index was never written, or holds another value. */
    ghost function StoreChanges(v: T): bool
      reads this, Repr, renderer, renderer.sharedQuadIndex
      requires Prepared()
    {
      var b := Buffers()[currentBufferIndex];
      currentVertexIndex > b.lastWrittenVertexIndex || b.memory[currentVertexIndex] != v
    }

    /**
     * Add, first step: when the current buffer is full, draw it and move to the next
     * one; create the buffer if the slot has none at that position.
     */
    method Advance()
      requires Valid()
      modifies this, Repr, vertexBuffers, renderer, renderer.sharedQuadIndex
      ensures Prepared() && old(Repr) <= Repr && fresh(Repr - old(Repr))
      ensures Cursors() == Prepare(old(Cursors()), kind.VertexCount())
      ensures Buffers()[..old(|Buffers()|)] == old(Buffers())
      ensures forall i :: 0 <= i < old(|Buffers()|) ==> unchanged(Buffers()[i], Buffers()[i].memory)
      ensures Creates(old(Cursors()), kind.VertexCount()) ==> Buffers()[currentBufferIndex].Unused()
      ensures issued == old(issued) + AddCalls(old(Cursors()), kind.VertexCount())
      ensures renderer.nextHandle == old(renderer.nextHandle) && unchanged(renderer.sharedQuadIndex)
      ensures renderer.log ==
                old(renderer.log) + (if old(Rotates(Cursors(), kind.VertexCount())) then old(DrawGpuEvents()) else [])
    {
      ghost var c := Cursors();
      PrepareReady(c, kind.VertexCount());
      var buffers := vertexBuffers[3 % vertexBuffers.Length];
      if |buffers| > 0 && currentVertexIndex >= buffers[currentBufferIndex].size {
        Rotate();
      }
      Extend(c);
    }

    /** The overflow: draw the full buffer and move the cursors to the start of the next one. */
    method Rotate()
      requires Valid() && Rotates(Cursors(), kind.VertexCount())
      modifies this, Repr, renderer, renderer.sharedQuadIndex
      ensures Frame() && Repr == old(Repr) && unchanged(Repr)
      ensures forall i :: 0 <= i < |Buffers()| ==> Buffers()[i].InUse()
      ensures Cursors() == Advanced(old(Cursors()), kind.VertexCount())
      ensures issued == old(issued) + AddCalls(old(Cursors()), kind.VertexCount())
      ensures renderer.nextHandle == old(renderer.nextHandle) && unchanged(renderer.sharedQuadIndex)
      ensures renderer.log == old(renderer.log) + old(DrawGpuEvents())
    {
      var _ := Draw();
      currentBufferIndex := currentBufferIndex + 1;
      currentVertexIndex := 0;
      currentDrawIndex := 0;
    }

    /** Create the target buffer when the slot has none at the buffer cursor. */
    method Extend(ghost c: Cursors)
      requires Frame() && Inv(c, kind.VertexCount()) && Cursors() == Advanced(c, kind.VertexCount())
      requires forall i :: 0 <= i < |Buffers()| ==> Buffers()[i].InUse()
      modifies this`Repr, vertexBuffers
      ensures Prepared() && old(Repr) <= Repr && fresh(Repr - old(Repr))
      ensures Cursors() == Prepare(c, kind.VertexCount())
      ensures Buffers()[..old(|Buffers()|)] == old(Buffers())
      ensures Creates(c, kind.VertexCount()) ==> Buffers()[currentBufferIndex].Unused()
    {
      PrepareReady(c, kind.VertexCount());
      var slot := 3 % vertexBuffers.Length;
      var buffers := vertexBuffers[slot];
      if currentBufferIndex >= |buffers| {
        var b := CreateVertexBuffer();
        buffers := buffers + [b];
        vertexBuffers[slot] := buffers;
        Repr := Repr + {b, b.memory};
      }
    }

    /** SetVertex on the target buffer: only that buffer, its memory and the backend change. */
    method WriteTarget(v: T) returns (changed: bool)
      requires Prepared()
      modifies Repr, renderer, renderer.sharedQuadIndex
      ensures Frame() && Repr == old(Repr) && changed == old(StoreChanges(v))
      ensures Ready(Cursors(), kind.VertexCount()) && Buffers() == old(Buffers())
      ensures forall i :: 0 <= i < |Buffers()| ==> Buffers()[i].InUse()
      ensures var k, p := currentBufferIndex, currentVertexIndex;
              Buffers()[k].memory[p] == v &&
              Buffers()[k].lastWrittenVertexIndex == (if p <= old(Buffers()[k].lastWrittenVertexIndex)
                                                      then old(Buffers()[k].lastWrittenVertexIndex) else p) &&
              (old(Buffers()[k].InUse()) ==> forall j :: 0 <= j < kind.VertexCount() && j != p ==>
                                                Buffers()[k].memory[j] == old(Buffers()[k].memory[j])) &&
              (forall i :: 0 <= i < |Buffers()| && i != k ==> unchanged(Buffers()[i], Buffers()[i].memory))
      ensures old(Buffers()[currentBufferIndex].InUse()) ==>
                renderer.log == old(renderer.log) && renderer.nextHandle == old(renderer.nextHandle) &&
                Buffers()[currentBufferIndex].gpuBuffer == old(Buffers()[currentBufferIndex].gpuBuffer) &&
                unchanged(renderer.sharedQuadIndex)
      ensures !old(Buffers()[currentBufferIndex].InUse()) ==>
                Buffers()[currentBufferIndex].gpuBuffer == Some(old(renderer.nextHandle)) &&
                renderer.nextHandle == old(renderer.nextHandle) + 1 &&
                renderer.sharedQuadIndex.capacity ==
                  GrownCapacity(kind.ToLayout(), old(renderer.sharedQuadIndex.capacity)) &&
                renderer.log == old(renderer.log) +
                  StartEvents(kind.ToLayout(), kind.VertexCount(), old(renderer.nextHandle),
                              old(renderer.sharedQuadIndex.capacity))
    {
      var buffer := vertexBuffers[3 % vertexBuffers.Length][currentBufferIndex];
      changed := buffer.SetVertex(currentVertexIndex, v);
    }

    /**
     * Add, second step: store the vertex at the target, widening the dirty range when
     * that changed something, and advance the vertex cursor.
     */
    method Store(v: T)
      requires Prepared()
      modifies this, Repr, renderer, renderer.sharedQuadIndex
      ensures Valid() && Repr == old(Repr) && Buffers() == old(Buffers()) && issued == old(issued)
      ensures Cursors() == Write(old(Cursors()), old(StoreChanges(v)))
      ensures var k, p := old(currentBufferIndex), old(currentVertexIndex);
              Buffers()[k].memory[p] == v &&
              Buffers()[k].lastWrittenVertexIndex == (if p <= old(Buffers()[k].lastWrittenVertexIndex)
                                                      then old(Buffers()[k].lastWrittenVertexIndex) else p) &&
              (old(Buffers()[k].InUse()) ==> forall j :: 0 <= j < kind.VertexCount() && j != p ==>
                                                Buffers()[k].memory[j] == old(Buffers()[k].memory[j])) &&
              (forall i :: 0 <= i < |Buffers()| && i != k ==> unchanged(Buffers()[i], Buffers()[i].memory))
      ensures old(Buffers()[currentBufferIndex].InUse()) ==>
                renderer.log == old(renderer.log) && renderer.nextHandle == old(renderer.nextHandle) &&
                Buffers()[old(currentBufferIndex)].gpuBuffer == old(Buffers()[currentBufferIndex].gpuBuffer) &&
                unchanged(renderer.sharedQuadIndex)
      ensures !old(Buffers()[currentBufferIndex].InUse()) ==>
                Buffers()[old(currentBufferIndex)].gpuBuffer == Some(old(renderer.nextHandle)) &&
                renderer.nextHandle == old(renderer.nextHandle) + 1 &&
                renderer.sharedQuadIndex.capacity ==
                  GrownCapacity(kind.ToLayout(), old(renderer.sharedQuadIndex.capacity)) &&
                renderer.log == old(renderer.log) +
                  StartEvents(kind.ToLayout(), kind.VertexCount(), old(renderer.nextHandle),
                              old(renderer.sharedQuadIndex.capacity))
    {
      WriteInv(Cursors(), kind.VertexCount(), StoreChanges(v));
      var changed := WriteTarget(v);
      label Written:
      if changed {
        if changeBeginIndex == -1 {
          changeBeginIndex := currentVertexIndex;
        }
        changeEndIndex := currentVertexIndex + 1;
      }
      currentVertexIndex := currentVertexIndex + 1;
      ValidKept@Written();
    }

    /** Add: the overflow step, then the store. */
    method Add(v: T)
      requires Valid()
      modifies this, Repr, vertexBuffers, renderer, renderer.sharedQuadIndex
      ensures Valid() && old(Repr) <= Repr && fresh(Repr - old(Repr))
      ensures Cursors() == AfterAdd(old(Cursors()), kind.VertexCount(), old(AddChanges(v)))
      ensures Buffers()[..old(|Buffers()|)] == old(Buffers())
      ensures issued == old(issued) + AddCalls(old(Cursors()), kind.VertexCount())
      ensures var (k, p) := Target(old(Cursors()), kind.VertexCount());
              Buffers()[k].memory[p] == v &&
              Buffers()[k].lastWrittenVertexIndex == (if k < old(|Buffers()|) && p <= old(Buffers()[k].lastWrittenVertexIndex)
                                                      then old(Buffers()[k].lastWrittenVertexIndex) else p) &&
              (k < old(|Buffers()|) ==> forall j :: 0 <= j < kind.VertexCount() && j != p ==>
                                          Buffers()[k].memory[j] == old(Buffers()[k].memory[j])) &&
              (forall i :: 0 <= i < old(|Buffers()|) && i != k ==> unchanged(Buffers()[i], Buffers()[i].memory))
      ensures renderer.log ==
                old(renderer.log) +
                (if old(Rotates(Cursors(), kind.VertexCount())) then old(DrawGpuEvents()) else []) +
                (if old(Creates(Cursors(), kind.VertexCount()))
                 then StartEvents(kind.ToLayout(), kind.VertexCount(), old(renderer.nextHandle),
                                  old(renderer.sharedQuadIndex.capacity))
                 else [])
      ensures var k := Target(old(Cursors()), kind.VertexCount()).0;
              if old(Creates(Cursors(), kind.VertexCount()))
              then Buffers()[k].gpuBuffer == Some(old(renderer.nextHandle)) &&
                   renderer.nextHandle == old(renderer.nextHandle) + 1 &&
                   renderer.sharedQuadIndex.capacity ==
                     GrownCapacity(kind.ToLayout(), old(renderer.sharedQuadIndex.capacity))
              else Buffers()[k].gpuBuffer == old(Buffers()[k].gpuBuffer) &&
                   renderer.nextHandle == old(renderer.nextHandle) &&
                   renderer.sharedQuadIndex.capacity == old(renderer.sharedQuadIndex.capacity)
    {
      ghost var c := Cursors();
      PrepareReady(c, kind.VertexCount());
      Advance();
      assert (currentBufferIndex, currentVertexIndex) == Target(c, kind.VertexCount());
      assert StoreChanges(v) == old(AddChanges(v));
      Store(v);
    }

    /** Dispose(bool): calls the public Dispose of every buffer of every slot, which releases nothing. */
    method DisposeCore(disposing: bool)
      requires Valid()
      ensures Valid() && forall i :: 0 <= i < |Buffers()| ==> Buffers()[i].InUse() && !Buffers()[i].isDisposed
    {
      if disposing {
        for s := 0 to vertexBuffers.Length {
          var buffers := vertexBuffers[s];
          for i := 0 to |buffers| {
            buffers[i].Dispose();
          }
        }
      }
    }

    /** Dispose: Dispose(true); finalisation is not modelled. */
    method Dispose()
      requires Valid()
      ensures Valid() && forall i :: 0 <= i < |Buffers()| ==> Buffers()[i].InUse() && !Buffers()[i].isDisposed
    {
      DisposeCore(true);
    }
  }

  /** The first Add of QuadScenario: it creates buffer 0, which maps GPU buffer 0 and uploads one quad's indices. */
  method StartFirstQuad<T(==,0)>(batch: VertexBatch<T>, v0: T)
    requires batch.Valid() && batch.kind == QuadKind(1) && batch.issued == []
    requires batch.Cursors() == BatchCursors.Cursors(0, 0, 0, 0, -1, -1)
    requires batch.renderer.log == [] && batch.renderer.nextHandle == 0 && batch.renderer.sharedQuadIndex.capacity == 0
    modifies batch, batch.Repr, batch.vertexBuffers, batch.renderer, batch.renderer.sharedQuadIndex
    ensures batch.Valid() && fresh(batch.Repr - old(batch.Repr)) && batch.issued == []
    ensures batch.Cursors() == BatchCursors.Cursors(1, 0, 1, 0, 0, 1)
    ensures batch.Buffers()[0].lastWrittenVertexIndex == 0 && batch.Buffers()[0].gpuBuffer == Some(0)
    ensures batch.renderer.log == [CreateBuffer(0, 4), MapBuffer(0), UploadIndices([0, 1, 3, 2, 3, 1])]
    ensures batch.renderer.nextHandle == 1 && batch.renderer.sharedQuadIndex.capacity == 6
  {
    ghost var c := batch.Cursors();
    assert !Rotates(c, 4) && Creates(c, 4) && Target(c, 4) == (0, 0);
    assert AfterAdd(c, 4, true) == BatchCursors.Cursors(1, 0, 1, 0, 0, 1);
    assert QuadIndex.QuadIndexList(1) == [0, 1, 3, 2, 3, 1];
    assert StartEvents(Quads(6), 4, 0, 0) == [CreateBuffer(0, 4), MapBuffer(0), UploadIndices([0, 1, 3, 2, 3, 1])];
    assert batch.AddChanges(v0);
    batch.Add(v0);
  }

  /** The first four Adds of QuadScenario: they create buffer 0, upload the index list and fill the buffer. */
  method FillFirstQuad<T(==,0)>(batch: VertexBatch<T>, v0: T, v1: T, v2: T, v3: T)
    requires batch.Valid() && batch.kind == QuadKind(1) && batch.issued == []
    requires batch.Cursors() == BatchCursors.Cursors(0, 0, 0, 0, -1, -1)
    requires batch.renderer.log == [] && batch.renderer.nextHandle == 0 && batch.renderer.sharedQuadIndex.capacity == 0
    modifies batch, batch.Repr, batch.vertexBuffers, batch.renderer, batch.renderer.sharedQuadIndex
    ensures batch.Valid() && fresh(batch.Repr - old(batch.Repr)) && batch.issued == []
    ensures batch.Cursors() == BatchCursors.Cursors(1, 0, 4, 0, 0, 4)
    ensures batch.Buffers()[0].gpuBuffer == Some(0)
    ensures batch.renderer.log == [CreateBuffer(0, 4), MapBuffer(0), UploadIndices([0, 1, 3, 2, 3, 1])]
    ensures batch.renderer.nextHandle == 1 && batch.renderer.sharedQuadIndex.capacity == 6
  {
    StartFirstQuad(batch, v0);
    var rest := [v1, v2, v3];
    for n := 0 to 3
      invariant batch.Valid() && fresh(batch.Repr - old(batch.Repr)) && batch.issued == []
      invariant batch.Cursors() == BatchCursors.Cursors(1, 0, n + 1, 0, 0, n + 1)
      invariant batch.Buffers()[0].lastWrittenVertexIndex == n && batch.Buffers()[0].gpuBuffer == Some(0)
      invariant batch.renderer.log == [CreateBuffer(0, 4), MapBuffer(0), UploadIndices([0, 1, 3, 2, 3, 1])]
      invariant batch.renderer.nextHandle == 1 && batch.renderer.sharedQuadIndex.capacity == 6
    {
      ghost var c := batch.Cursors();
      assert !Rotates(c, 4) && !Creates(c, 4) && Target(c, 4) == (0, n + 1) && batch.AddChanges(rest[n]);
      assert AfterAdd(c, 4, true) == BatchCursors.Cursors(1, 0, n + 2, 0, 0, n + 2);
      batch.Add(rest[n]);
    }
  }

  /** The fifth Add of QuadScenario: buffer 0 is full, so it is drawn and the vertex goes to a new buffer 1. */
  method SpillSecondQuad<T(==,0)>(batch: VertexBatch<T>, v4: T)
    requires batch.Valid() && batch.kind == QuadKind(1) && batch.issued == []
    requires batch.Cursors() == BatchCursors.Cursors(1, 0, 4, 0, 0, 4)
    requires batch.Buffers()[0].gpuBuffer == Some(0)
    requires batch.renderer.log == [CreateBuffer(0, 4), MapBuffer(0), UploadIndices([0, 1, 3, 2, 3, 1])]
    requires batch.renderer.nextHandle == 1 && batch.renderer.sharedQuadIndex.capacity == 6
    modifies batch, batch.Repr, batch.vertexBuffers, batch.renderer, batch.renderer.sharedQuadIndex
    ensures batch.Valid() && fresh(batch.Repr - old(batch.Repr))
    ensures batch.Cursors() == BatchCursors.Cursors(2, 1, 1, 0, 0, 1)
    ensures batch.issued == [UpdateRangeCall(0, 0, 4), DrawRangeCall(0, 0, 4)]
    ensures batch.Buffers()[1].gpuBuffer == Some(1) && batch.Buffers()[1].memory[0] == v4
    ensures batch.renderer.log == [CreateBuffer(0, 4), MapBuffer(0), UploadIndices([0, 1, 3, 2, 3, 1]),
                                   SetVertexBuffer(0, 0), SetIndexBuffer(UInt16), DrawIndexed(6, 1, 0, 0, 0),
                                   CreateBuffer(1, 4), MapBuffer(1)]
  {
    ghost var c := batch.Cursors();
    assert Rotates(c, 4) && Creates(c, 4) && Target(c, 4) == (1, 0) && batch.AddChanges(v4);
    assert AfterAdd(c, 4, true) == BatchCursors.Cursors(2, 1, 1, 0, 0, 1);
    assert AddCalls(c, 4) == [UpdateRangeCall(0, 0, 4), DrawRangeCall(0, 0, 4)];
    assert Half(3 * 4) == 6 && Half(0) == 0;
    assert batch.DrawGpuEvents() == [SetVertexBuffer(0, 0), SetIndexBuffer(UInt16), DrawIndexed(6, 1, 0, 0, 0)];
    assert StartEvents(Quads(6), 4, 1, 6) == [CreateBuffer(1, 4), MapBuffer(1)];
    batch.Add(v4);
  }

  /** The two Draws of QuadScenario: the first submits the one vertex of buffer 1, the second nothing. */
  method DrawTwice<T(==,0)>(batch: VertexBatch<T>) returns (drawn: int, again: int)
    requires batch.Valid() && batch.kind == QuadKind(1)
    requires batch.Cursors() == BatchCursors.Cursors(2, 1, 1, 0, 0, 1)
    requires batch.Buffers()[1].gpuBuffer == Some(1)
    modifies batch, batch.Repr, batch.renderer, batch.renderer.sharedQuadIndex
    ensures batch.Repr == old(batch.Repr) && unchanged(batch.Repr)
    ensures drawn == 1 && again == 0
    ensures batch.issued == old(batch.issued) + [UpdateRangeCall(1, 0, 1), DrawRangeCall(1, 0, 1)]
    ensures batch.renderer.log ==
              old(batch.renderer.log) + [SetVertexBuffer(0, 1), SetIndexBuffer(UInt16), DrawIndexed(1, 1, 0, 0, 0)]
  {
    assert Half(3 * 1) == 1 && Half(0) == 0;
    drawn := batch.Draw();
    again := batch.Draw();
  }

  /**
   * The renderer's per-frame pattern on a batch of one-quad buffers (4 vertices each):
   * reset, five Adds, Draw, Draw. The fifth Add finds buffer 0 full, draws its 4 vertices
   * (6 indices), creates buffer 1 and stores its vertex there at index 0; the explicit
   * Draw then submits that one vertex, and a second Draw submits nothing.
   */
  method QuadScenario<T(==,0)>(v0: T, v1: T, v2: T, v3: T, v4: T)
      returns (landed: T, bufferCount: int, drawn: int, again: int, ghost calls: seq<BatchCall>, ghost events: seq<GpuEvent>)
    ensures landed == v4 && bufferCount == 2 && drawn == 1 && again == 0
    ensures calls == [UpdateRangeCall(0, 0, 4), DrawRangeCall(0, 0, 4), UpdateRangeCall(1, 0, 1), DrawRangeCall(1, 0, 1)]
    ensures events == [CreateBuffer(0, 4), MapBuffer(0), UploadIndices([0, 1, 3, 2, 3, 1]),
                       SetVertexBuffer(0, 0), SetIndexBuffer(UInt16), DrawIndexed(6, 1, 0, 0, 0),
                       CreateBuffer(1, 4), MapBuffer(1),
                       SetVertexBuffer(0, 1), SetIndexBuffer(UInt16), DrawIndexed(1, 1, 0, 0, 0)]
  {
    var renderer := new Renderer();
    var batch := new VertexBatch<T>(renderer, 4, QuadKind(1));
    batch.ResetCounters();
    assert batch.Cursors() == BatchCursors.Cursors(0, 0, 0, 0, -1, -1);
    FillFirstQuad(batch, v0, v1, v2, v3);
    SpillSecondQuad(batch, v4);
    landed := batch.vertexBuffers[1][1].memory[0];
    bufferCount := |batch.vertexBuffers[1]|;
    drawn, again := DrawTwice(batch);
    calls := batch.issued;
    events := renderer.log;
  }
}
