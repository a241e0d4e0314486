/** The cell layout of the lattice: cells (x, y, z) of an NX x NY x NZ box
    are stored in flat arrays at idx1D = z*(NY*NX) + y*NX + x, and on the GPU
    in a 2D texture of NX columns and NY*NZ rows, cell (x, y, z) sitting at
    texel (x, y + NY*z).  A lattice direction c_i therefore moves a texel by
    (rawEu[i], rawEv[i]). */
module Layout {
  import opened D3Q19

  /** Cell (x, y, z) lies inside the NX x NY x NZ box. */
  predicate InGrid(nx: int, ny: int, nz: int, x: int, y: int, z: int)
  {
    0 <= x < nx && 0 <= y < ny && 0 <= z < nz
  }

  /** Flat index of a cell, as the three initialisers compute it. */
  function Idx1D(nx: int, ny: int, x: int, y: int, z: int): int
  {
    z * (ny * nx) + y * nx + x
  }

  /** Texel (column, row) of a cell: `xyz_to_uv_idx`. */
  function XyzToUvIdx(ny: int, x: int, y: int, z: int): (int, int)
  {
    (x, y + ny * z)
  }

  /** The cell stored at flat index idx: (idx mod NX, (idx div NX) mod NY, idx div (NX*NY)). */
  function CellOf(nx: int, ny: int, idx: int): (c: (int, int, int))
    requires nx > 0 && ny > 0
  {
    (idx % nx, (idx / nx) % ny, idx / (nx * ny))
  }

  // ---------------------------------------------------------------------------
  // Arithmetic helpers

  /** Euclidean division is unique: a == q*n + r with 0 <= r < n fixes q and r. */
  lemma {:induction false} DivModUnique(a: int, n: int, q: int, r: int)
    requires n > 0 && 0 <= r < n && a == q * n + r
    ensures a / n == q && a % n == r
  {
    var q' := a / n;
    var r' := a % n;
    assert a == q' * n + r';
    assert (q - q') * n == r' - r;
    if q > q' {
      assert (q - q') * n >= n by { MulAtLeast(q - q', n); }
      assert false;
    } else if q < q' {
      assert (q' - q) * n >= n by { MulAtLeast(q' - q, n); }
      assert false;
    }
  }

  /** A positive multiple of n is at least n. */
  lemma {:induction false} MulAtLeast(k: int, n: int)
    requires k >= 1 && n > 0
    ensures k * n >= n
  {
    assert k * n == (k - 1) * n + n;
    assert (k - 1) * n >= 0;
  }

  /** Multiplying by a positive n preserves strict order, so it can be cancelled. */
  lemma MulCancel(a: int, b: int, n: int)
    requires n > 0 && a * n < b * n
    ensures a < b
  {
  }

  /** (a*b)*c == a*(b*c) and its commuted forms used below. */
  lemma MulAssoc(a: int, b: int, c: int)
    ensures a * (b * c) == (a * b) * c == b * (a * c)
  {
  }

  /** Euclidean division of a >= 0 by n > 0: quotient and remainder. */
  lemma DivStep(a: int, n: int)
    requires 0 <= a && 0 < n
    ensures a == (a / n) * n + a % n && 0 <= a % n < n && 0 <= a / n
  {
  }

  /** Two nested positional digits flatten: ((z*NY + y)*NX + x == z*(NY*NX) + y*NX + x. */
  lemma Flatten(nx: int, ny: int, x: int, y: int, z: int)
    ensures (z * ny + y) * nx + x == z * (ny * nx) + y * nx + x && z * (ny * nx) == z * (nx * ny)
  {
    calc {
      (z * ny + y) * nx + x;
      (z * ny) * nx + y * nx + x;
      { MulAssoc(z, ny, nx); }
      z * (ny * nx) + y * nx + x;
    }
    assert ny * nx == nx * ny;
  }

  /** Any index idx >= 0 is z*(NY*NX) + y*NX + x for some x in [0, NX), y in [0, NY) and z >= 0. */
  lemma Decompose(nx: int, ny: int, idx: int) returns (x: int, y: int, z: int)
    requires nx > 0 && ny > 0 && 0 <= idx
    ensures 0 <= x < nx && 0 <= y < ny && 0 <= z
    ensures idx == z * (ny * nx) + y * nx + x && z * (ny * nx) == z * (nx * ny)
  {
    var t := idx / nx;
    DivStep(idx, nx);
    DivStep(t, ny);
    x, y, z := idx % nx, t % ny, t / ny;
    Flatten(nx, ny, x, y, z);
  }

  /** The offset y*NX + x of a cell inside its layer lies in [0, NX*NY). */
  lemma {:induction false} RowInRange(nx: int, ny: int, x: int, y: int)
    requires 0 <= x < nx && 0 <= y < ny
    ensures 0 <= y * nx + x < nx * ny && nx * ny == ny * nx
  {
    assert y * nx <= (ny - 1) * nx;
    assert (ny - 1) * nx == ny * nx - nx;
  }

  /** A layer z whose cells start at z*(NX*NY), below NX*NY*NZ, lies in [0, NZ). */
  lemma {:induction false} LayerInRange(nx: int, ny: int, nz: int, z: int, r: int)
    requires nx > 0 && ny > 0 && 0 <= r && 0 <= z * (nx * ny) + r < nx * ny * nz
    ensures z < nz
  {
    MulAssoc(nx, ny, nz);
    MulCancel(z, nz, nx * ny);
  }

  // ---------------------------------------------------------------------------
  // Flat index

  /** The texel of a cell is its flat index written in rows of NX: idx1D == vidx*NX + uidx. */
  lemma UvIdxFlattens(nx: int, ny: int, x: int, y: int, z: int)
    ensures XyzToUvIdx(ny, x, y, z).1 * nx + XyzToUvIdx(ny, x, y, z).0 == Idx1D(nx, ny, x, y, z)
  {
    calc {
      (y + ny * z) * nx + x;
      y * nx + (ny * z) * nx + x;
      { MulAssoc(z, ny, nx); }
      z * (ny * nx) + y * nx + x;
    }
  }

  /** Every cell of the box has a flat index inside [0, NX*NY*NZ). */
  lemma {:induction false} Idx1DInRange(nx: int, ny: int, nz: int, x: int, y: int, z: int)
    requires InGrid(nx, ny, nz, x, y, z)
    ensures 0 <= Idx1D(nx, ny, x, y, z) < nx * ny * nz
  {
    RowInRange(nx, ny, x, y);
    assert z * (ny * nx) <= (nz - 1) * (ny * nx);
    assert (nz - 1) * (ny * nx) == nz * (ny * nx) - ny * nx;
    MulAssoc(nx, ny, nz);
  }

  /** Decoding a flat index recovers the cell: idx1D is one-to-one on the box. */
  lemma {:induction false} CellOfIdx1D(nx: int, ny: int, nz: int, x: int, y: int, z: int)
    requires InGrid(nx, ny, nz, x, y, z)
    ensures CellOf(nx, ny, Idx1D(nx, ny, x, y, z)) == (x, y, z)
  {
    var idx := Idx1D(nx, ny, x, y, z);
    RowInRange(nx, ny, x, y);
    assert idx == (z * ny + y) * nx + x by { MulAssoc(z, ny, nx); }
    DivModUnique(idx, nx, z * ny + y, x);
    DivModUnique(z * ny + y, ny, z, y);
    DivModUnique(idx, nx * ny, z, y * nx + x);
  }

  /** Every flat index of [0, NX*NY*NZ) is the index of exactly the cell it decodes to. */
  lemma {:induction false} Idx1DOfCell(nx: int, ny: int, nz: int, idx: int)
    requires nx > 0 && ny > 0 && 0 <= idx < nx * ny * nz
    ensures InGrid(nx, ny, nz, CellOf(nx, ny, idx).0, CellOf(nx, ny, idx).1, CellOf(nx, ny, idx).2)
    ensures Idx1D(nx, ny, CellOf(nx, ny, idx).0, CellOf(nx, ny, idx).1, CellOf(nx, ny, idx).2) == idx
  {
    var x, y, z := Decompose(nx, ny, idx);
    RowInRange(nx, ny, x, y);
    LayerInRange(nx, ny, nz, z, y * nx + x);
    CellOfIdx1D(nx, ny, nz, x, y, z);
  }

  // ---------------------------------------------------------------------------
  // Texel coordinates

  /** `xyz_to_uv_idx` maps the box into [0, NX) x [0, NY*NZ). */
  lemma {:induction false} UvIdxInRange(nx: int, ny: int, nz: int, x: int, y: int, z: int)
    requires InGrid(nx, ny, nz, x, y, z)
    ensures 0 <= XyzToUvIdx(ny, x, y, z).0 < nx
    ensures 0 <= XyzToUvIdx(ny, x, y, z).1 < ny * nz
  {
    assert ny * z <= ny * (nz - 1);
    assert ny * (nz - 1) == ny * nz - ny;
    assert 0 <= ny * z;
  }

  /** `xyz_to_uv_idx` is one-to-one on the box. */
  lemma {:induction false} UvIdxInjective(nx: int, ny: int, nz: int, x: int, y: int, z: int, x': int, y': int, z': int)
    requires InGrid(nx, ny, nz, x, y, z) && InGrid(nx, ny, nz, x', y', z')
    requires XyzToUvIdx(ny, x, y, z) == XyzToUvIdx(ny, x', y', z')
    ensures x == x' && y == y' && z == z'
  {
    DivModUnique(y + ny * z, ny, z, y);
    DivModUnique(y' + ny * z', ny, z', y');
  }

  /** Every texel of [0, NX) x [0, NY*NZ) is the texel of the cell (u, v mod NY, v div NY). */
  lemma {:induction false} UvIdxOnto(nx: int, ny: int, nz: int, u: int, v: int)
    requires ny > 0 && 0 <= u < nx && 0 <= v < ny * nz
    ensures InGrid(nx, ny, nz, u, v % ny, v / ny)
    ensures XyzToUvIdx(ny, u, v % ny, v / ny) == (u, v)
  {
    assert v == ny * (v / ny) + v % ny;
  }

  // ---------------------------------------------------------------------------
  // Neighbour offsets

  /** Integer texel offsets of the 19 directions along u, before the float
      normalisation by NX (`rawEu`). */
  const RawEu: seq<int> := [0, 1, -1, 0, 0, 0, 0, 1, -1, 1, -1, 0, 0, 1, -1, 1, -1, 0, 0]

  /** Integer texel offsets of the 19 directions along v, before the float
      normalisation by NY*NZ (`rawEv`). */
  function RawEv(ny: int): (ev: seq<int>)
    ensures |ev| == Q
  {
    [0, 0, 0, 1, -1, ny, -ny, 1, -1, ny, -ny, 1 + ny, -1 - ny, -1, 1, -ny, ny, 1 - ny, -1 + ny]
  }

  /** rawEu is the x component of each direction and rawEv its y component
      plus NY times its z component. */
  lemma RawOffsetsFollowDirections(ny: int)
    ensures |RawEu| == Q
    ensures forall i: Dir :: RawEu[i] == DirX[i] && RawEv(ny)[i] == DirY[i] + ny * DirZ[i]
  {
    forall i: Dir
      ensures RawEu[i] == DirX[i] && RawEv(ny)[i] == DirY[i] + ny * DirZ[i]
    {
      EachDir(i);
    }
  }

  /** The neighbour of a cell along direction i, when it lies in the box,
      sits at the cell's texel moved by (rawEu[i], rawEv[i]). */
  lemma NeighbourTexel(nx: int, ny: int, nz: int, x: int, y: int, z: int, i: Dir)
    ensures |RawEu| == Q
    ensures XyzToUvIdx(ny, x + DirX[i], y + DirY[i], z + DirZ[i])
         == (XyzToUvIdx(ny, x, y, z).0 + RawEu[i], XyzToUvIdx(ny, x, y, z).1 + RawEv(ny)[i])
  {
    RawOffsetsFollowDirections(ny);
    assert ny * (z + DirZ[i]) == ny * z + ny * DirZ[i];
  }
}
