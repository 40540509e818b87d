/**
 * The shared quad index list of VeldridQuadBuffer: each quad of four vertices
 * is drawn as two triangles through six 16-bit indices, and one index buffer,
 * owned by the renderer, serves every quad buffer.
 */
module QuadIndex {
  import opened Machine

  /** VeldridQuadBuffer.MAX_QUADS: the most quads whose indices fit a 16-bit index count. */
  const MaxQuads: int := UShortMax / 6

  /** The six indices of the quad whose first vertex is `i`: triangles (i, i+1, i+3) and (i+2, i+3, i+1). */
  function QuadPattern(i: int): seq<int> {
    [i, i + 1, i + 3, i + 2, i + 3, i + 1]
  }

  /** The offset, from the quad's first vertex, of the `m`-th of its six indices. */
  function Winding(m: int): int
    requires 0 <= m < 6
  {
    QuadPattern(0)[m]
  }

  /** The index list for `q` quads: quad `k` contributes QuadPattern(4 * k). */
  function QuadIndexList(q: nat): (r: seq<int>)
    ensures |r| == 6 * q
  {
    if q == 0 then [] else QuadIndexList(q - 1) + QuadPattern(4 * (q - 1))
  }

  /** Widens 16-bit values to integers. */
  function Widen(s: seq<ushort>): seq<int> {
    seq(|s|, n requires 0 <= n < |s| => s[n] as int)
  }

  /** A quad count is accepted by the constructor's assertion exactly when it is at most MaxQuads. */
  lemma MaxQuadsBound(q: int)
    ensures MaxQuads == 10922
    ensures 6 * q <= UShortMax <==> q <= MaxQuads
  {
  }

  /** Closed form of the index list: entry `n` belongs to quad n / 6 and is its (n % 6)-th index. */
  lemma {:induction false} QuadIndexListAt(q: nat, n: int)
    requires 0 <= n < 6 * q
    ensures QuadIndexList(q)[n] == 4 * (n / 6) + Winding(n % 6)
  {
    if n < 6 * (q - 1) {
      QuadIndexListAt(q - 1, n);
    } else {
      var m := n - 6 * (q - 1);
      assert n / 6 == q - 1 && n % 6 == m;
    }
  }

  /** Entries 6k .. 6k+5 of the list are 4k, 4k+1, 4k+3, 4k+2, 4k+3, 4k+1. */
  lemma QuadIndexListQuad(q: nat, k: nat)
    requires k < q
    ensures QuadIndexList(q)[6 * k .. 6 * k + 6] == [4 * k, 4 * k + 1, 4 * k + 3, 4 * k + 2, 4 * k + 3, 4 * k + 1]
  {
    forall m | 0 <= m < 6
      ensures QuadIndexList(q)[6 * k + m] == QuadPattern(4 * k)[m]
    {
      QuadIndexListAt(q, 6 * k + m);
      assert (6 * k + m) / 6 == k && (6 * k + m) % 6 == m;
    }
  }

  /** Every index of the list for `q` quads names one of the 4q vertices, so it fits in 16 bits when q <= MaxQuads. */
  lemma QuadIndexListBound(q: nat)
    ensures forall n :: 0 <= n < 6 * q ==> 0 <= QuadIndexList(q)[n] < 4 * q
    ensures q <= MaxQuads ==> forall n :: 0 <= n < 6 * q ==> QuadIndexList(q)[n] <= UShortMax
  {
    forall n | 0 <= n < 6 * q
      ensures 0 <= QuadIndexList(q)[n] < 4 * q
    {
      QuadIndexListAt(q, n);
    }
  }

  /**
   * The list for fewer quads is a prefix of the list for more quads: a quad buffer
   * finds its own indices at the start of a shared list generated for a larger one.
   */
  lemma {:induction false} QuadIndexListPrefix(p: nat, q: nat)
    requires p <= q
    ensures QuadIndexList(q)[..6 * p] == QuadIndexList(p)
  {
    if p < q {
      QuadIndexListPrefix(p, q - 1);
      assert QuadIndexList(q)[..6 * (q - 1)] == QuadIndexList(q - 1);
    }
  }

  /**
   * The generation loop of VeldridQuadBuffer.Initialise: two 16-bit counters,
   * `i` stepping over vertices by 4 and `j` over indices by 6.
   */
  method BuildIndices(amountIndices: int) returns (indices: seq<ushort>)
    requires 0 <= amountIndices <= UShortMax && amountIndices % 6 == 0
    ensures Widen(indices) == QuadIndexList(amountIndices / 6)
  {
    var a := new ushort[amountIndices];
    var i: ushort, j: ushort := 0, 0;
    ghost var q: nat := 0;
    ghost var built: seq<int> := [];
    while (j as int) < amountIndices
      invariant j as int == 6 * q && i as int == 4 * q && j as int <= amountIndices
      invariant built == QuadIndexList(q)
      invariant forall n :: 0 <= n < j as int ==> a[n] as int == built[n]
    {
      a[j] := i;
      a[j + 1] := i + 1;
      a[j + 2] := i + 3;
      a[j + 3] := i + 2;
      a[j + 4] := i + 3;
      a[j + 5] := i + 1;
      built := built + QuadPattern(i as int);
      i, j, q := i + 4, j + 6, q + 1;
    }
    indices := a[..];
    assert q == amountIndices / 6;
  }

  /**
   * VeldridIndexData, the renderer's shared quad index buffer: its capacity in
   * indices and the index list last uploaded to it.
   */
  class IndexData {
    var capacity: int
    var contents: seq<int>

    /** The uploaded list is always the quad index list for the current capacity. */
    ghost predicate Valid()
      reads this
    {
      0 <= capacity <= UShortMax && capacity % 6 == 0 &&
      contents == QuadIndexList(capacity / 6)
    }

    constructor ()
      ensures Valid() && capacity == 0 && contents == []
    {
      capacity := 0;
      contents := [];
    }
  }
}
