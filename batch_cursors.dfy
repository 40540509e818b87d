/**
 * The cursor bookkeeping of VeldridVertexBatch as pure functions: which buffer of
 * the active slot is written, where the next vertex goes, how far the buffer has
 * been drawn, and the pending dirty range. The batch class is specified by these
 * functions; the lemmas here are what the bookkeeping guarantees.
 */
module BatchCursors {

  /** A call the batch makes on one of its buffers, naming the buffer by its position in the active slot. */
  datatype BatchCall =
    | UpdateRangeCall(buffer: int, begin: int, end: int)
    | DrawRangeCall(buffer: int, begin: int, end: int)

  /** The batch's cursor fields, together with the number of buffers in the active slot. */
  datatype Cursors = Cursors(
    bufferCount: nat,
    bufferIndex: int,
    vertexIndex: int,
    drawIndex: int,
    changeBegin: int,
    changeEnd: int)

  /** The invariant the batch keeps when every buffer holds `size` vertices. */
  ghost predicate Inv(c: Cursors, size: int) {
    size > 0 &&
    (c.bufferCount == 0 ==> c.bufferIndex == 0 && c.vertexIndex == 0) &&
    (c.bufferCount > 0 ==> 0 <= c.bufferIndex < c.bufferCount) &&
    0 <= c.drawIndex <= c.vertexIndex <= size &&
    (c.changeBegin == -1 || c.drawIndex <= c.changeBegin < c.changeEnd <= c.vertexIndex)
  }

  /** The field values of a newly constructed batch. */
  function Initial(): Cursors {
    Cursors(0, 0, 0, 0, -1, -1)
  }

  /** ResetCounters. */
  function Reset(c: Cursors): Cursors {
    c.(changeBegin := -1, bufferIndex := 0, vertexIndex := 0, drawIndex := 0)
  }

  /** Draw's early exits: nothing added since the last draw, or no buffer yet. */
  predicate DrawsNothing(c: Cursors) {
    c.vertexIndex == c.drawIndex || c.bufferCount == 0
  }

  /** The value Draw returns. */
  function DrawCount(c: Cursors): int {
    if DrawsNothing(c) then 0 else c.vertexIndex - c.drawIndex
  }

  /** The cursors after Draw. */
  function AfterDraw(c: Cursors): Cursors {
    if DrawsNothing(c) then c else c.(drawIndex := c.vertexIndex, changeBegin := -1)
  }

  /** The buffer calls Draw makes: hand the dirty range to UpdateRange if there is one, then draw the undrawn vertices. */
  function DrawCalls(c: Cursors): seq<BatchCall> {
    if DrawsNothing(c) then []
    else (if c.changeBegin >= 0 then [UpdateRangeCall(c.bufferIndex, c.changeBegin, c.changeEnd)] else []) +
         [DrawRangeCall(c.bufferIndex, c.drawIndex, c.vertexIndex)]
  }

  /** Add finds the current buffer full. */
  predicate Rotates(c: Cursors, size: int) {
    c.bufferCount > 0 && c.vertexIndex >= size
  }

  /** The cursors after Add's overflow step: draw, then move to the start of the next buffer. */
  function Advanced(c: Cursors, size: int): Cursors {
    if Rotates(c, size)
    then AfterDraw(c).(bufferIndex := c.bufferIndex + 1, vertexIndex := 0, drawIndex := 0)
    else c
  }

  /** Add has to create the buffer it writes to. */
  predicate Creates(c: Cursors, size: int) {
    Advanced(c, size).bufferIndex >= c.bufferCount
  }

  /** Where Add writes its vertex: the buffer's position in the slot, and the vertex's index in that buffer. */
  function Target(c: Cursors, size: int): (int, int) {
    (Advanced(c, size).bufferIndex, Advanced(c, size).vertexIndex)
  }

  /** The cursors once Add has found its target: after the overflow step, counting the buffer it creates. */
  function Prepare(c: Cursors, size: int): Cursors {
    var a := Advanced(c, size);
    if a.bufferIndex >= a.bufferCount then a.(bufferCount := a.bufferCount + 1) else a
  }

  /** The cursors after the vertex is stored at the target, given whether SetVertex reported a change. */
  function Write(b: Cursors, changed: bool): Cursors {
    var d := if changed
             then b.(changeBegin := if b.changeBegin == -1 then b.vertexIndex else b.changeBegin,
                     changeEnd := b.vertexIndex + 1)
             else b;
    d.(vertexIndex := d.vertexIndex + 1)
  }

  /** The cursors after Add, given whether SetVertex reported a change. */
  function AfterAdd(c: Cursors, size: int, changed: bool): Cursors {
    Write(Prepare(c, size), changed)
  }

  /** Between Add's two steps: the target buffer exists and has room at the vertex cursor. */
  ghost predicate Ready(c: Cursors, size: int) {
    0 <= c.bufferIndex < c.bufferCount &&
    0 <= c.drawIndex <= c.vertexIndex < size &&
    (c.changeBegin == -1 || c.drawIndex <= c.changeBegin < c.changeEnd <= c.vertexIndex)
  }

  /** The buffer calls Add makes: those of the implicit Draw when the buffer is full. */
  function AddCalls(c: Cursors, size: int): seq<BatchCall> {
    if Rotates(c, size) then DrawCalls(c) else []
  }

  /** A run of Adds whose SetVertex calls report `changes`. */
  function AddAll(c: Cursors, size: int, changes: seq<bool>): Cursors
    decreases |changes|
  {
    if changes == [] then c else AddAll(AfterAdd(c, size, changes[0]), size, changes[1..])
  }

  /** The buffer calls a run of Adds makes, in order. */
  function AddAllCalls(c: Cursors, size: int, changes: seq<bool>): seq<BatchCall>
    decreases |changes|
  {
    if changes == [] then []
    else AddCalls(c, size) + AddAllCalls(AfterAdd(c, size, changes[0]), size, changes[1..])
  }

  /** The position of the first reported change, |changes| when there is none. */
  function FirstChange(changes: seq<bool>): (k: nat)
    ensures k <= |changes|
    ensures forall j :: 0 <= j < k ==> !changes[j]
    ensures k < |changes| ==> changes[k]
  {
    if changes == [] then 0
    else if changes[0] then 0
    else 1 + FirstChange(changes[1..])
  }

  /** The position of the last reported change, -1 when there is none. */
  function LastChange(changes: seq<bool>): (k: int)
    ensures -1 <= k < |changes|
    ensures forall j :: k < j < |changes| ==> !changes[j]
    ensures 0 <= k ==> changes[k]
  {
    if changes == [] then -1
    else if changes[|changes| - 1] then |changes| - 1
    else LastChange(changes[..|changes| - 1])
  }

  lemma InitialInv(size: int)
    requires size > 0
    ensures Inv(Initial(), size)
    ensures DrawCount(Initial()) == 0 && DrawCalls(Initial()) == []
  {
  }

  /**
   * After ResetCounters: the invariant holds, no buffer is created or dropped,
   * a Draw returns 0 and calls nothing, and the next Add writes vertex 0 of the first buffer.
   */
  lemma ResetProperties(c: Cursors, size: int)
    requires Inv(c, size)
    ensures Inv(Reset(c), size)
    ensures Reset(c).bufferCount == c.bufferCount
    ensures DrawCount(Reset(c)) == 0 && DrawCalls(Reset(c)) == [] && AfterDraw(Reset(c)) == Reset(c)
    ensures Target(Reset(c), size) == (0, 0) && !Rotates(Reset(c), size)
  {
  }

  /**
   * Draw: with nothing new it returns 0, calls nothing and changes nothing; otherwise it
   * returns the number of undrawn vertices, hands the dirty range to UpdateRange exactly
   * when there is one, and ends with one DrawRange over [drawIndex, vertexIndex) of the current buffer.
   * Either way a second Draw returns 0 and calls nothing.
   */
  lemma DrawProperties(c: Cursors, size: int)
    requires Inv(c, size)
    ensures Inv(AfterDraw(c), size)
    ensures c.vertexIndex == c.drawIndex ==> DrawCount(c) == 0 && DrawCalls(c) == [] && AfterDraw(c) == c
    ensures c.vertexIndex != c.drawIndex ==>
              DrawCount(c) == c.vertexIndex - c.drawIndex > 0 &&
              DrawCalls(c) == (if c.changeBegin >= 0 then [UpdateRangeCall(c.bufferIndex, c.changeBegin, c.changeEnd)] else []) +
                              [DrawRangeCall(c.bufferIndex, c.drawIndex, c.vertexIndex)] &&
              AfterDraw(c) == c.(drawIndex := c.vertexIndex, changeBegin := -1)
    ensures DrawCount(AfterDraw(c)) == 0 && DrawCalls(AfterDraw(c)) == [] && AfterDraw(AfterDraw(c)) == AfterDraw(c)
  {
  }

  /**
   * Add: the invariant is kept, at most one buffer is appended and none removed, the
   * written buffer exists afterwards, and the vertex cursor ends one past the written vertex.
   */
  lemma AddProperties(c: Cursors, size: int, changed: bool)
    requires Inv(c, size)
    ensures Inv(AfterAdd(c, size, changed), size)
    ensures AfterAdd(c, size, changed).bufferCount == c.bufferCount + (if Creates(c, size) then 1 else 0)
    ensures Target(c, size).0 == AfterAdd(c, size, changed).bufferIndex < AfterAdd(c, size, changed).bufferCount
    ensures 0 <= Target(c, size).1 < size
    ensures AfterAdd(c, size, changed).vertexIndex == Target(c, size).1 + 1
    ensures Creates(c, size) ==> Target(c, size).0 == c.bufferCount
  {
  }

  /** Add's first step leads from the invariant to a target with room, at the target Add writes to. */
  lemma PrepareReady(c: Cursors, size: int)
    requires Inv(c, size)
    ensures Ready(Prepare(c, size), size)
    ensures (Prepare(c, size).bufferIndex, Prepare(c, size).vertexIndex) == Target(c, size)
    ensures Prepare(c, size).bufferCount == c.bufferCount + (if Creates(c, size) then 1 else 0)
  {
  }

  /** Add's second step restores the invariant. */
  lemma WriteInv(b: Cursors, size: int, changed: bool)
    requires Ready(b, size)
    ensures Inv(Write(b, changed), size) && Write(b, changed).bufferCount == b.bufferCount
  {
  }

  /**
   * Overflow: when the current buffer is full, Add draws it (all of its undrawn
   * vertices), moves to the next buffer and writes the vertex at index 0 there.
   */
  lemma RotationProperties(c: Cursors, size: int, changed: bool)
    requires Inv(c, size) && Rotates(c, size)
    ensures c.vertexIndex == size
    ensures AddCalls(c, size) == DrawCalls(c) && DrawCount(c) == size - c.drawIndex
    ensures Target(c, size) == (c.bufferIndex + 1, 0)
    ensures AfterAdd(c, size, changed).drawIndex == 0 && AfterAdd(c, size, changed).vertexIndex == 1
    ensures AfterAdd(c, size, changed).changeBegin == (if changed then 0 else -1)
  {
  }

  /** Without overflow, Add calls nothing and stays in the current buffer. */
  lemma NoRotationProperties(c: Cursors, size: int, changed: bool)
    requires Inv(c, size) && !Rotates(c, size)
    ensures AddCalls(c, size) == []
    ensures Target(c, size) == (c.bufferIndex, c.vertexIndex)
    ensures AfterAdd(c, size, changed).drawIndex == c.drawIndex
  {
  }

  /**
   * Dirty range of one Add: a reported change opens the range at the written index if it
   * was closed and ends it just after that index; an unchanged write leaves it alone
   * (unless the overflow Draw closed it).
   */
  lemma DirtyRangeStep(c: Cursors, size: int, changed: bool)
    requires Inv(c, size)
    ensures var a := Advanced(c, size); var r := AfterAdd(c, size, changed);
            if changed
            then r.changeEnd == Target(c, size).1 + 1 &&
                 r.changeBegin == (if a.changeBegin == -1 then Target(c, size).1 else a.changeBegin)
            else r.changeBegin == a.changeBegin && r.changeEnd == a.changeEnd
    ensures !Rotates(c, size) && !changed ==>
              AfterAdd(c, size, changed).changeBegin == c.changeBegin &&
              AfterAdd(c, size, changed).changeEnd == c.changeEnd
  {
  }

  /** Any run of Adds keeps the invariant, never drops a buffer and appends at most one per Add. */
  lemma {:induction false} AddAllInv(c: Cursors, size: int, changes: seq<bool>)
    requires Inv(c, size)
    ensures Inv(AddAll(c, size, changes), size)
    ensures c.bufferCount <= AddAll(c, size, changes).bufferCount <= c.bufferCount + |changes|
    decreases |changes|
  {
    if changes != [] {
      AddProperties(c, size, changes[0]);
      AddAllInv(AfterAdd(c, size, changes[0]), size, changes[1..]);
    }
  }

  /** FirstChange of a sequence, one element in. */
  lemma FirstChangeCons(changes: seq<bool>)
    requires changes != []
    ensures FirstChange(changes) == if changes[0] then 0 else 1 + FirstChange(changes[1..])
  {
  }

  /** LastChange of a sequence, one element in. */
  lemma {:induction false} LastChangeCons(changes: seq<bool>)
    requires changes != []
    ensures LastChange(changes) == if LastChange(changes[1..]) >= 0 then 1 + LastChange(changes[1..])
                                   else if changes[0] then 0 else -1
    decreases |changes|
  {
    var t := changes[1..];
    if changes[|changes| - 1] {
      if |changes| > 1 {
        assert t[|t| - 1] == changes[|changes| - 1];
      }
    } else {
      var init := changes[..|changes| - 1];
      if |changes| == 1 {
        assert init == [];
      } else {
        assert t[|t| - 1] == changes[|changes| - 1];
        assert init[1..] == t[..|t| - 1];
        LastChangeCons(init);
      }
    }
  }

  /**
   * Adds that fit in the current buffer: they stay in it, make no buffer call, advance the
   * vertex cursor by their number, and leave the dirty range spanning exactly from the
   * first to just past the last changed vertex (joined to a range already pending).
   */
  lemma {:induction false} AddAllInBuffer(c: Cursors, size: int, changes: seq<bool>)
    requires Inv(c, size) && c.bufferCount > 0
    requires c.vertexIndex + |changes| <= size
    ensures var r := AddAll(c, size, changes);
            r.bufferCount == c.bufferCount && r.bufferIndex == c.bufferIndex &&
            r.drawIndex == c.drawIndex && r.vertexIndex == c.vertexIndex + |changes|
    ensures AddAllCalls(c, size, changes) == []
    ensures var r := AddAll(c, size, changes);
            if FirstChange(changes) == |changes|
            then r.changeBegin == c.changeBegin && r.changeEnd == c.changeEnd
            else r.changeBegin == (if c.changeBegin == -1 then c.vertexIndex + FirstChange(changes) else c.changeBegin) &&
                 r.changeEnd == c.vertexIndex + LastChange(changes) + 1
    decreases |changes|
  {
    if changes != [] {
      var c1 := AfterAdd(c, size, changes[0]);
      AddProperties(c, size, changes[0]);
      FirstChangeCons(changes);
      LastChangeCons(changes);
      AddAllInBuffer(c1, size, changes[1..]);
    }
  }

  /** A run of Adds followed by one more: the cursors and calls of the run, then those of the last Add. */
  lemma {:induction false} AddAllSnoc(c: Cursors, size: int, changes: seq<bool>, last: bool)
    ensures AddAll(c, size, changes + [last]) == AfterAdd(AddAll(c, size, changes), size, last)
    ensures AddAllCalls(c, size, changes + [last]) ==
              AddAllCalls(c, size, changes) + AddCalls(AddAll(c, size, changes), size)
    decreases |changes|
  {
    if changes == [] {
      assert [] + [last] == [last];
    } else {
      assert (changes + [last])[0] == changes[0];
      assert (changes + [last])[1..] == changes[1..] + [last];
      AddAllSnoc(AfterAdd(c, size, changes[0]), size, changes[1..], last);
    }
  }

  /**
   * Overflow, for any buffer size: when Adds fill the current buffer to its end, they make
   * no call, and the next Add makes exactly the one implicit Draw: UpdateRange of the
   * pending dirty range, if any, and the draw of the buffer's undrawn vertices up to its
   * end. That Add lands at index 0 of the next buffer.
   */
  lemma OverflowDrawsOnce(c: Cursors, size: int, changes: seq<bool>, last: bool)
    requires Inv(c, size) && c.bufferCount > 0
    requires c.vertexIndex + |changes| == size && c.drawIndex < size
    ensures AddAllCalls(c, size, changes) == []
    ensures var r := AddAll(c, size, changes);
            AddAllCalls(c, size, changes + [last]) ==
              (if r.changeBegin >= 0 then [UpdateRangeCall(c.bufferIndex, r.changeBegin, r.changeEnd)] else []) +
              [DrawRangeCall(c.bufferIndex, c.drawIndex, size)] &&
            Target(r, size) == (c.bufferIndex + 1, 0)
  {
    AddAllInBuffer(c, size, changes);
    AddAllInv(c, size, changes);
    AddAllSnoc(c, size, changes, last);
  }

  /**
   * Overflow from a fresh batch with no buffer: size + 1 Adds create buffer 0, fill it, and
   * with the last Add make exactly one implicit Draw of all of buffer 0. That Draw hands
   * UpdateRange the span from the first to just past the last changed vertex, if any
   * changed. The last Add lands at index 0 of a new buffer 1.
   */
  lemma FreshBatchOverflow(size: int, changes: seq<bool>, last: bool)
    requires size > 0 && |changes| == size
    ensures AddAllCalls(Initial(), size, changes) == []
    ensures AddAllCalls(Initial(), size, changes + [last]) ==
              (if FirstChange(changes) < |changes|
               then [UpdateRangeCall(0, FirstChange(changes), LastChange(changes) + 1)]
               else []) +
              [DrawRangeCall(0, 0, size)]
    ensures var r := AddAll(Initial(), size, changes + [last]);
            r.bufferCount == 2 && r.bufferIndex == 1 && r.vertexIndex == 1 && r.drawIndex == 0
  {
    var c1 := AfterAdd(Initial(), size, changes[0]);
    var t := changes[1..];
    var longer := changes + [last];
    assert c1 == Cursors(1, 0, 1, 0, if changes[0] then 0 else -1, if changes[0] then 1 else -1);
    assert AddCalls(Initial(), size) == [];
    assert longer[0] == changes[0] && longer[1..] == t + [last];
    assert AddAll(Initial(), size, longer) == AddAll(c1, size, t + [last]);
    assert AddAllCalls(Initial(), size, changes) == AddAllCalls(c1, size, t);
    assert AddAllCalls(Initial(), size, longer) == AddAllCalls(c1, size, t + [last]);
    AddAllInBuffer(c1, size, t);
    OverflowDrawsOnce(c1, size, t, last);
    AddAllSnoc(c1, size, t, last);
    FirstChangeCons(changes);
    LastChangeCons(changes);
    var r := AddAll(c1, size, t);
    if FirstChange(changes) < |changes| {
      assert r.changeBegin == FirstChange(changes) && r.changeEnd == LastChange(changes) + 1;
    } else {
      assert r.changeBegin == -1;
    }
  }

  /**
   * Draw submits exactly what was added since the last draw: after a Draw, Adds that fit
   * in the buffer, and another Draw, the second Draw returns their number and draws
   * exactly their range of the current buffer.
   */
  lemma DrawAfterAdds(c: Cursors, size: int, changes: seq<bool>)
    requires Inv(c, size) && c.bufferCount > 0 && changes != []
    requires AfterDraw(c).vertexIndex + |changes| <= size
    ensures var d := AfterDraw(c); var r := AddAll(d, size, changes);
            DrawCount(r) == |changes| &&
            DrawCalls(r)[|DrawCalls(r)| - 1] == DrawRangeCall(c.bufferIndex, c.vertexIndex, c.vertexIndex + |changes|) &&
            (|DrawCalls(r)| == 2 <==> FirstChange(changes) < |changes|)
  {
    DrawProperties(c, size);
    AddAllInBuffer(AfterDraw(c), size, changes);
  }
}
