/** Set-up of the D3Q19 lid-driven cavity: the grid and lattice units
    derived from the physical box, the solid/fluid/lid flag of every cell,
    the initial velocity and density fields, and the equilibrium populations
    packed four per texel into five RGBA float arrays. */
module CavitySetup {
  import opened D3Q19
  import opened Layout
  import Units

  /** Flags of `init_solid`. */
  const Fluid: int := 0
  const Wall: int := 1
  const Lid: int := 2

  /** The flag `init_solid` gives cell (x, y, z): the top layer is the moving
      lid, the other cells on a face of the box are walls, the rest is fluid. */
  function CellFlag(nx: int, ny: int, nz: int, x: int, y: int, z: int): (f: int)
    ensures Fluid <= f <= Lid
    ensures f == Lid <==> z == nz - 1
    ensures f == Wall <==> z != nz - 1 && (x == 0 || y == 0 || z == 0 || x == nx - 1 || y == ny - 1)
    ensures InGrid(nx, ny, nz, x, y, z) ==> (f == Fluid <==> 0 < x < nx - 1 && 0 < y < ny - 1 && 0 < z < nz - 1)
  {
    if z == nz - 1 then Lid
    else if x == 0 || y == 0 || x == nx - 1 || y == ny - 1 || z == 0 || z == nz - 1 then Wall
    else Fluid
  }

  /** The flag of the cell stored at flat index k. */
  function FlagAt(nx: int, ny: int, nz: int, k: int): int
    requires nx > 0 && ny > 0
  {
    var c := CellOf(nx, ny, k);
    CellFlag(nx, ny, nz, c.0, c.1, c.2)
  }

  /** The velocity `init_macros` gives the cell at flat index k: the lid
      velocity on the top layer, rest elsewhere. */
  function StartVelocity(nx: int, ny: int, nz: int, k: int, uX: real, uY: real, uZ: real): (real, real, real)
    requires nx > 0 && ny > 0
  {
    if CellOf(nx, ny, k).2 == nz - 1 then (uX, uY, uZ) else (0.0, 0.0, 0.0)
  }

  // ---------------------------------------------------------------------------
  // Packing of the 19 populations into five RGBA arrays

  /** The array (0..4) and the RGBA lane (0..3) population i goes to, as the
      if-chain of `init_equilibrium` picks them. */
  function Slot(i: Dir): (s: (int, int))
    ensures 0 <= s.0 < 5 && 0 <= s.1 < 4 && i == 4 * s.0 + s.1
  {
    if i < 4 then (0, i)
    else if i < 8 then (1, i - 4)
    else if i < 12 then (2, i - 8)
    else if i < 16 then (3, i - 12)
    else (4, i - 16)
  }

  /** The 19 populations and the cell flag fill the 5 x 4 slots of a cell
      exactly once: distinct populations take distinct slots, none takes the
      flag's slot (4, 3), and every other slot is taken by some population. */
  lemma SlotsPartition()
    ensures forall i: Dir, j: Dir :: Slot(i) == Slot(j) ==> i == j
    ensures forall i: Dir :: Slot(i) != (4, 3)
    ensures forall b, l :: 0 <= b < 5 && 0 <= l < 4 && (b, l) != (4, 3) ==>
              0 <= 4 * b + l < Q && Slot(4 * b + l) == (b, l)
  {
    forall i: Dir, j: Dir | Slot(i) == Slot(j)
      ensures i == j
    {
    }
    forall b, l | 0 <= b < 5 && 0 <= l < 4 && (b, l) != (4, 3)
      ensures 0 <= 4 * b + l < Q && Slot(4 * b + l) == (b, l)
    {
      var i: Dir := 4 * b + l;
      assert Slot(i).0 == b;
    }
  }

  /** The if-chain is division by 4: population i goes to array i/4, lane i%4. */
  lemma SlotIsDivMod(i: Dir)
    ensures Slot(i) == (i / 4, i % 4)
  {
    DivModUnique(i, 4, Slot(i).0, Slot(i).1);
  }

  /** Array a differs from its old contents at most at index p. */
  twostate predicate OnlyIndexChanged(a: array<real>, p: int)
    reads a
  {
    forall q :: 0 <= q < a.Length && q != p ==> a[q] == old(a[q])
  }

  /** The body of `init_macros` for the cell at flat index idx: the lid
      velocity if the cell is on the lid, rest otherwise, and density rho0,
      into the field arrays at idx and into lanes 0..3 of dataMacro at 4*idx. */
  method WriteCellMacros(dataMacro: array<real>, ux: array<real>, vy: array<real>, wz: array<real>, rho: array<real>,
                         idx1D: int, lid: bool, uX: real, uY: real, uZ: real, rho0: real)
    requires 0 <= idx1D < ux.Length && idx1D < vy.Length && idx1D < wz.Length && idx1D < rho.Length
    requires 4 * idx1D + 4 <= dataMacro.Length
    requires dataMacro != ux && dataMacro != vy && dataMacro != wz && dataMacro != rho
    requires ux != vy && ux != wz && ux != rho && vy != wz && vy != rho && wz != rho
    modifies dataMacro, ux, vy, wz, rho
    ensures var v := if lid then (uX, uY, uZ) else (0.0, 0.0, 0.0);
      ux[idx1D] == v.0 && vy[idx1D] == v.1 && wz[idx1D] == v.2 && rho[idx1D] == rho0 &&
      dataMacro[4 * idx1D] == v.0 && dataMacro[4 * idx1D + 1] == v.1 && dataMacro[4 * idx1D + 2] == v.2 &&
      dataMacro[4 * idx1D + 3] == rho0
    ensures OnlyIndexChanged(ux, idx1D) && OnlyIndexChanged(vy, idx1D) && OnlyIndexChanged(wz, idx1D)
    ensures OnlyIndexChanged(rho, idx1D) && OnlyCellChanged(dataMacro, 4 * idx1D)
  {
    var off := idx1D * 4;
    if lid {
      ux[idx1D] := uX;
      vy[idx1D] := uY;
      wz[idx1D] := uZ;
      dataMacro[off] := uX;
      dataMacro[off + 1] := uY;
      dataMacro[off + 2] := uZ;
    } else {
      ux[idx1D] := 0.0;
      vy[idx1D] := 0.0;
      wz[idx1D] := 0.0;
      dataMacro[off] := 0.0;
      dataMacro[off + 1] := 0.0;
      dataMacro[off + 2] := 0.0;
    }
    rho[idx1D] := rho0;
    dataMacro[off + 3] := rho0;
  }

  /** Five arrays, pairwise distinct, each of length n. */
  predicate Banks(d0: array<real>, d1: array<real>, d2: array<real>, d3: array<real>, d4: array<real>, n: int)
  {
    d0.Length == n && d1.Length == n && d2.Length == n && d3.Length == n && d4.Length == n &&
    d0 != d1 && d0 != d2 && d0 != d3 && d0 != d4 && d1 != d2 && d1 != d3 && d1 != d4 &&
    d2 != d3 && d2 != d4 && d3 != d4
  }

  /** Array a differs from b only inside [off, off+4). */
  twostate predicate OnlyCellChanged(a: array<real>, off: int)
    reads a
  {
    forall p :: 0 <= p < a.Length && !(off <= p < off + 4) ==> a[p] == old(a[p])
  }

  /** Cell k of the field contents ux, vy, wz, rho holds the start velocity
      of the cell and density rho0. */
  predicate StartMacros(ux: seq<real>, vy: seq<real>, wz: seq<real>, rho: seq<real>,
                        nx: int, ny: int, nz: int, k: int, uX: real, uY: real, uZ: real, rho0: real)
    requires nx > 0 && ny > 0
  {
    var v := StartVelocity(nx, ny, nz, k, uX, uY, uZ);
    0 <= k < |ux| && k < |vy| && k < |wz| && k < |rho| &&
    ux[k] == v.0 && vy[k] == v.1 && wz[k] == v.2 && rho[k] == rho0
  }

  /** The macroscopic fields of cell k after `init_macros`: its velocity in
      ux/vy/wz and in lanes 0..2 of dataMacro, its density in rho and lane 3. */
  predicate MacroCell(dataMacro: array<real>, ux: array<real>, vy: array<real>, wz: array<real>, rho: array<real>,
                      nx: int, ny: int, nz: int, k: int, uX: real, uY: real, uZ: real, rho0: real)
    requires nx > 0 && ny > 0
    reads dataMacro, ux, vy, wz, rho
  {
    var v := StartVelocity(nx, ny, nz, k, uX, uY, uZ);
    0 <= k < ux.Length && k < vy.Length && k < wz.Length && k < rho.Length && 4 * k + 3 < dataMacro.Length &&
    ux[k] == v.0 && vy[k] == v.1 && wz[k] == v.2 && rho[k] == rho0 &&
    dataMacro[4 * k] == v.0 && dataMacro[4 * k + 1] == v.1 && dataMacro[4 * k + 2] == v.2 &&
    dataMacro[4 * k + 3] == rho0
  }

  // ---------------------------------------------------------------------------
  // The five population arrays as values

  /** The four RGBA lanes array b (0..4) holds for a cell with populations f
      and flag: f[4b..4b+4] for the first four arrays, f[16..19] and the
      flag for the fifth. */
  function Lanes(f: Populations, flag: real, b: int): (l: seq<real>)
    requires 0 <= b < 5
    ensures |l| == 4
  {
    if b < 4 then f[4 * b..4 * b + 4] else f[16..19] + [flag]
  }

  /** Lane Slot(i).1 of array Slot(i).0 holds population i, and lane 3 of
      the fifth array the flag: the lanes are the if-chain's placement. */
  lemma LanesFollowSlots(f: seq<real>, flag: real)
    requires |f| == Q
    ensures forall i: Dir :: Lanes(f, flag, Slot(i).0)[Slot(i).1] == f[i]
    ensures Lanes(f, flag, 4)[3] == flag
  {
  }

  /** The 19 populations of one cell. */
  type Populations = f: seq<real> | |f| == Q witness W

  /** The contents of array b when the cells with populations pops and
      flags flags are packed four lanes per cell, cell after cell. */
  function Bank(pops: seq<Populations>, flags: seq<real>, b: int): (t: seq<real>)
    requires |flags| == |pops| && 0 <= b < 5
    ensures |t| == 4 * |pops|
    decreases |pops|
  {
    if |pops| == 0 then []
    else Bank(pops[..|pops| - 1], flags[..|pops| - 1], b) + Lanes(pops[|pops| - 1], flags[|pops| - 1], b)
  }

  /** Lane l of cell k in array b is lane l of the cell's own lanes. */
  lemma {:induction false} BankLane(pops: seq<Populations>, flags: seq<real>, b: int, k: int, l: int)
    requires |flags| == |pops| && 0 <= b < 5
    requires 0 <= k < |pops| && 0 <= l < 4
    ensures Bank(pops, flags, b)[4 * k + l] == Lanes(pops[k], flags[k], b)[l]
    decreases |pops|
  {
    var n := |pops| - 1;
    if k < n {
      BankLane(pops[..n], flags[..n], b, k, l);
    }
  }

  /** The packing `init_equilibrium` performs: population i of cell k sits
      in array i/4 at offset 4k + i%4, and the flag of cell k in lane 3 of
      the fifth array. */
  lemma BankHoldsCells(pops: seq<Populations>, flags: seq<real>)
    requires |flags| == |pops|
    ensures forall k, i: Dir :: 0 <= k < |pops| ==> Bank(pops, flags, Slot(i).0)[4 * k + Slot(i).1] == pops[k][i]
    ensures forall k :: 0 <= k < |pops| ==> Bank(pops, flags, 4)[4 * k + 3] == flags[k]
  {
    forall k, i: Dir | 0 <= k < |pops|
      ensures Bank(pops, flags, Slot(i).0)[4 * k + Slot(i).1] == pops[k][i]
    {
      BankHoldsPopulation(pops, flags, k, i);
    }
    forall k | 0 <= k < |pops|
      ensures Bank(pops, flags, 4)[4 * k + 3] == flags[k]
    {
      BankLane(pops, flags, 4, k, 3);
      LanesFollowSlots(pops[k], flags[k]);
    }
  }

  lemma BankHoldsPopulation(pops: seq<Populations>, flags: seq<real>, k: int, i: Dir)
    requires |flags| == |pops| && 0 <= k < |pops|
    ensures Bank(pops, flags, Slot(i).0)[4 * k + Slot(i).1] == pops[k][i]
  {
    BankLane(pops, flags, Slot(i).0, k, Slot(i).1);
    LanesFollowSlots(pops[k], flags[k]);
  }

  /** Packing one more cell appends its lanes to every array. */
  lemma ExtendBank(t: seq<real>, pops: seq<Populations>, flags: seq<real>, n: int, b: int)
    requires |flags| == |pops| && 0 <= b < 5 && 0 <= n < |pops| && 4 * n + 4 <= |t|
    requires t[..4 * n] == Bank(pops[..n], flags[..n], b)
    requires t[4 * n..4 * n + 4] == Lanes(pops[n], flags[n], b)
    ensures t[..4 * n + 4] == Bank(pops[..n + 1], flags[..n + 1], b)
  {
    assert pops[..n + 1][..n] == pops[..n];
    assert flags[..n + 1][..n] == flags[..n];
    assert t[..4 * n + 4] == t[..4 * n] + t[4 * n..4 * n + 4];
  }

  /** The equilibrium populations of every cell of the fields ux, vy, wz, rho. */
  function FieldPopulations(ux: seq<real>, vy: seq<real>, wz: seq<real>, rho: seq<real>): (pops: seq<Populations>)
    requires |vy| == |ux| && |wz| == |ux| && |rho| == |ux|
    ensures |pops| == |ux|
  {
    seq(|ux|, (k: nat) requires k < |ux| => Equilibrium(rho[k], ux[k], vy[k], wz[k]))
  }

  /** The flags of the cells, as the floats lane 3 of the fifth array stores. */
  function FlagLane(solid: seq<int>): (flags: seq<real>)
    ensures |flags| == |solid|
  {
    seq(|solid|, (k: nat) requires k < |solid| => solid[k] as real)
  }

  /** The 19 populations of the cell at flat index k when the fluid starts
      at density rho0 with the velocity `init_macros` gives the cell. */
  function StartPopulations(nx: int, ny: int, nz: int, k: int, uX: real, uY: real, uZ: real, rho0: real): (f: seq<real>)
    requires nx > 0 && ny > 0
    ensures |f| == Q
  {
    var v := StartVelocity(nx, ny, nz, k, uX, uY, uZ);
    Equilibrium(rho0, v.0, v.1, v.2)
  }

  /** A grid of cells cells, NX > 0 columns, and rows whenever it has cells. */
  predicate Shape(nx: int, ny: int, cells: int)
  {
    nx > 0 && cells >= 0 && (cells > 0 ==> ny > 0)
  }

  /** The start populations of all cells. */
  function StartCells(nx: int, ny: int, nz: int, cells: int, uX: real, uY: real, uZ: real, rho0: real): (pops: seq<Populations>)
    requires Shape(nx, ny, cells)
    ensures |pops| == cells
  {
    seq(cells, (k: nat) requires k < cells => StartPopulations(nx, ny, nz, k, uX, uY, uZ, rho0))
  }

  /** The flags of all cells. */
  function StartFlags(nx: int, ny: int, nz: int, cells: int): (flags: seq<real>)
    requires Shape(nx, ny, cells)
    ensures |flags| == cells
  {
    seq(cells, (k: nat) requires k < cells => FlagAt(nx, ny, nz, k) as real)
  }

  /** Contents of population array b of the cavity at start. */
  function StartBank(nx: int, ny: int, nz: int, cells: int, uX: real, uY: real, uZ: real, rho0: real, b: int): (t: seq<real>)
    requires Shape(nx, ny, cells) && 0 <= b < 5
    ensures |t| == 4 * cells
  {
    Bank(StartCells(nx, ny, nz, cells, uX, uY, uZ, rho0), StartFlags(nx, ny, nz, cells), b)
  }

  /** At start, population i of every cell's start equilibrium sits in
      array i/4, lane i%4 of the cell, and the cell's flag in lane 3 of the
      fifth array. */
  lemma StartBankHolds(nx: int, ny: int, nz: int, cells: int, uX: real, uY: real, uZ: real, rho0: real)
    requires Shape(nx, ny, cells)
    ensures forall k, i: Dir :: 0 <= k < cells ==>
              StartBank(nx, ny, nz, cells, uX, uY, uZ, rho0, Slot(i).0)[4 * k + Slot(i).1]
              == StartPopulations(nx, ny, nz, k, uX, uY, uZ, rho0)[i]
    ensures forall k :: 0 <= k < cells ==>
              StartBank(nx, ny, nz, cells, uX, uY, uZ, rho0, 4)[4 * k + 3] == FlagAt(nx, ny, nz, k) as real
  {
    var pops, flags := StartCells(nx, ny, nz, cells, uX, uY, uZ, rho0), StartFlags(nx, ny, nz, cells);
    BankHoldsCells(pops, flags);
    forall k, i: Dir | 0 <= k < cells
      ensures StartBank(nx, ny, nz, cells, uX, uY, uZ, rho0, Slot(i).0)[4 * k + Slot(i).1]
              == StartPopulations(nx, ny, nz, k, uX, uY, uZ, rho0)[i]
    {
      assert pops[k] == StartPopulations(nx, ny, nz, k, uX, uY, uZ, rho0);
    }
    forall k | 0 <= k < cells
      ensures StartBank(nx, ny, nz, cells, uX, uY, uZ, rho0, 4)[4 * k + 3] == FlagAt(nx, ny, nz, k) as real
    {
      assert flags[k] == FlagAt(nx, ny, nz, k) as real;
    }
  }

  /** Fields that hold the start state of every cell pack into the start
      contents of the five arrays. */
  lemma StartFieldsPack(ux: seq<real>, vy: seq<real>, wz: seq<real>, rho: seq<real>, solid: seq<int>,
                        nx: int, ny: int, nz: int, cells: int, uX: real, uY: real, uZ: real, rho0: real)
    requires Shape(nx, ny, cells) && |solid| == cells
    requires |ux| == cells && |vy| == cells && |wz| == cells && |rho| == cells
    requires forall k :: 0 <= k < cells ==> ny > 0 && solid[k] == FlagAt(nx, ny, nz, k)
    requires forall k :: 0 <= k < cells ==> ny > 0 && StartMacros(ux, vy, wz, rho, nx, ny, nz, k, uX, uY, uZ, rho0)
    ensures FieldPopulations(ux, vy, wz, rho) == StartCells(nx, ny, nz, cells, uX, uY, uZ, rho0)
    ensures FlagLane(solid) == StartFlags(nx, ny, nz, cells)
  {
    forall k | 0 <= k < cells
      ensures FieldPopulations(ux, vy, wz, rho)[k] == StartCells(nx, ny, nz, cells, uX, uY, uZ, rho0)[k]
    {
      assert StartMacros(ux, vy, wz, rho, nx, ny, nz, k, uX, uY, uZ, rho0);
    }
  }

  // ---------------------------------------------------------------------------
  // init_equilibrium over the five arrays

  /** The inner loop of `init_equilibrium` for one cell: writes population
      i of the cell's populations f into array i/4, lane i%4 of the cell at
      offset off; the flag lane and everything before the cell stay as they
      were. */
  method WriteCellPopulations(d0: array<real>, d1: array<real>, d2: array<real>, d3: array<real>, d4: array<real>,
                              n: int, off: int, f: seq<real>)
    requires Banks(d0, d1, d2, d3, d4, n) && 0 <= off && off + 4 <= n && |f| == Q
    modifies d0, d1, d2, d3, d4
    ensures d0[off..off + 4] == f[0..4] && d1[off..off + 4] == f[4..8] && d2[off..off + 4] == f[8..12]
    ensures d3[off..off + 4] == f[12..16] && d4[off..off + 3] == f[16..19]
    ensures d4[off + 3] == old(d4[off + 3])
    ensures d0[..off] == old(d0[..off]) && d1[..off] == old(d1[..off]) && d2[..off] == old(d2[..off])
    ensures d3[..off] == old(d3[..off]) && d4[..off] == old(d4[..off])
    ensures d0[off + 4..] == old(d0[off + 4..]) && d1[off + 4..] == old(d1[off + 4..]) && d2[off + 4..] == old(d2[off + 4..])
    ensures d3[off + 4..] == old(d3[off + 4..]) && d4[off + 4..] == old(d4[off + 4..])
  {
    for i := 0 to Q
      invariant forall p :: off <= p < off + 4 && p - off < i ==> d0[p] == f[p - off]
      invariant forall p :: off <= p < off + 4 && p - off + 4 < i ==> d1[p] == f[p - off + 4]
      invariant forall p :: off <= p < off + 4 && p - off + 8 < i ==> d2[p] == f[p - off + 8]
      invariant forall p :: off <= p < off + 4 && p - off + 12 < i ==> d3[p] == f[p - off + 12]
      invariant forall p :: off <= p < off + 3 && p - off + 16 < i ==> d4[p] == f[p - off + 16]
      invariant d4[off + 3] == old(d4[off + 3])
      invariant d0[..off] == old(d0[..off]) && d1[..off] == old(d1[..off]) && d2[..off] == old(d2[..off])
      invariant d3[..off] == old(d3[..off]) && d4[..off] == old(d4[..off])
      invariant d0[off + 4..] == old(d0[off + 4..]) && d1[off + 4..] == old(d1[off + 4..]) && d2[off + 4..] == old(d2[off + 4..])
      invariant d3[off + 4..] == old(d3[off + 4..]) && d4[off + 4..] == old(d4[off + 4..])
    {
      var ft := f[i];
      if i < 4 {
        d0[off + i] := ft;
      } else if i < 8 {
        d1[off + (i - 4)] := ft;
      } else if i < 12 {
        d2[off + (i - 8)] := ft;
      } else if i < 16 {
        d3[off + (i - 12)] := ft;
      } else {
        d4[off + (i - 16)] := ft;
      }
    }
  }

  /** The contents of the five arrays when the cells pops with flags flags
      are packed. */
  function Packing(pops: seq<Populations>, flags: seq<real>): (ts: seq<seq<real>>)
    requires |flags| == |pops|
    ensures |ts| == 5
  {
    [Bank(pops, flags, 0), Bank(pops, flags, 1), Bank(pops, flags, 2), Bank(pops, flags, 3), Bank(pops, flags, 4)]
  }

  /** Cells 0..n-1 are packed: the first 4n entries of the five arrays are
      the packing of the first n cells of pops and flags. */
  predicate PackedPrefix(d0: array<real>, d1: array<real>, d2: array<real>, d3: array<real>, d4: array<real>,
                         pops: seq<Populations>, flags: seq<real>, n: int)
    reads d0, d1, d2, d3, d4
  {
    0 <= n <= |pops| == |flags| &&
    4 * n <= d0.Length && 4 * n <= d1.Length && 4 * n <= d2.Length && 4 * n <= d3.Length && 4 * n <= d4.Length &&
    [d0[..4 * n], d1[..4 * n], d2[..4 * n], d3[..4 * n], d4[..4 * n]] == Packing(pops[..n], flags[..n])
  }

  /** Packing one more cell extends the packing of the cells before it. */
  lemma ExtendPacking(t0: seq<real>, t1: seq<real>, t2: seq<real>, t3: seq<real>, t4: seq<real>,
                      pops: seq<Populations>, flags: seq<real>, n: int)
    requires |flags| == |pops| && 0 <= n < |pops|
    requires 4 * n + 4 <= |t0| && 4 * n + 4 <= |t1| && 4 * n + 4 <= |t2| && 4 * n + 4 <= |t3| && 4 * n + 4 <= |t4|
    requires [t0[..4 * n], t1[..4 * n], t2[..4 * n], t3[..4 * n], t4[..4 * n]] == Packing(pops[..n], flags[..n])
    requires t0[4 * n..4 * n + 4] == Lanes(pops[n], flags[n], 0)
    requires t1[4 * n..4 * n + 4] == Lanes(pops[n], flags[n], 1)
    requires t2[4 * n..4 * n + 4] == Lanes(pops[n], flags[n], 2)
    requires t3[4 * n..4 * n + 4] == Lanes(pops[n], flags[n], 3)
    requires t4[4 * n..4 * n + 4] == Lanes(pops[n], flags[n], 4)
    ensures [t0[..4 * n + 4], t1[..4 * n + 4], t2[..4 * n + 4], t3[..4 * n + 4], t4[..4 * n + 4]]
            == Packing(pops[..n + 1], flags[..n + 1])
  {
    ExtendBank(t0, pops, flags, n, 0);
    ExtendBank(t1, pops, flags, n, 1);
    ExtendBank(t2, pops, flags, n, 2);
    ExtendBank(t3, pops, flags, n, 3);
    ExtendBank(t4, pops, flags, n, 4);
  }

  /** The body of `init_equilibrium` for the cell at flat index idx1D: its
      populations from the cell's fields, then its flag into lane 3 of d4. */
  method PackCell(d0: array<real>, d1: array<real>, d2: array<real>, d3: array<real>, d4: array<real>,
                  ux: seq<real>, vy: seq<real>, wz: seq<real>, rho: seq<real>, solid: seq<int>,
                  cells: int, idx1D: int)
    requires Banks(d0, d1, d2, d3, d4, 4 * cells) && 0 <= idx1D < cells
    requires |ux| == cells && |vy| == cells && |wz| == cells && |rho| == cells && |solid| == cells
    requires PackedPrefix(d0, d1, d2, d3, d4, FieldPopulations(ux, vy, wz, rho), FlagLane(solid), idx1D)
    modifies d0, d1, d2, d3, d4
    ensures PackedPrefix(d0, d1, d2, d3, d4, FieldPopulations(ux, vy, wz, rho), FlagLane(solid), idx1D + 1)
  {
    var off := idx1D * 4;
    var f := Equilibrium(rho[idx1D], ux[idx1D], vy[idx1D], wz[idx1D]);
    WriteCellPopulations(d0, d1, d2, d3, d4, 4 * cells, off, f);
    label written:
    d4[off + 3] := solid[idx1D] as real;
    ghost var pops, flags := FieldPopulations(ux, vy, wz, rho), FlagLane(solid);
    assert d4[..off] == old@written(d4[..off]);
    assert d4[off..off + 4] == f[16..19] + [flags[idx1D]] by {
      assert d4[off..off + 3] == old@written(d4[off..off + 3]);
    }
    ExtendPacking(d0[..], d1[..], d2[..], d3[..], d4[..], pops, flags, idx1D);
  }

  /** The innermost loop of `init_equilibrium`: packs the nx cells of the
      row starting at flat index start. */
  method PackRow(d0: array<real>, d1: array<real>, d2: array<real>, d3: array<real>, d4: array<real>,
                 ux: seq<real>, vy: seq<real>, wz: seq<real>, rho: seq<real>, solid: seq<int>,
                 cells: int, start: int, nx: int)
    requires Banks(d0, d1, d2, d3, d4, 4 * cells) && 0 <= start && 0 <= nx && start + nx <= cells
    requires |ux| == cells && |vy| == cells && |wz| == cells && |rho| == cells && |solid| == cells
    requires PackedPrefix(d0, d1, d2, d3, d4, FieldPopulations(ux, vy, wz, rho), FlagLane(solid), start)
    modifies d0, d1, d2, d3, d4
    ensures PackedPrefix(d0, d1, d2, d3, d4, FieldPopulations(ux, vy, wz, rho), FlagLane(solid), start + nx)
  {
    for x := 0 to nx
      invariant PackedPrefix(d0, d1, d2, d3, d4, FieldPopulations(ux, vy, wz, rho), FlagLane(solid), start + x)
    {
      PackCell(d0, d1, d2, d3, d4, ux, vy, wz, rho, solid, cells, start + x);
    }
  }

  /** The middle loop of `init_equilibrium`: packs the ny rows of nx cells
      of the slice starting at flat index start. */
  method PackSlice(d0: array<real>, d1: array<real>, d2: array<real>, d3: array<real>, d4: array<real>,
                   ux: seq<real>, vy: seq<real>, wz: seq<real>, rho: seq<real>, solid: seq<int>,
                   cells: int, start: int, nx: int, ny: int)
    requires Banks(d0, d1, d2, d3, d4, 4 * cells) && 0 <= start && 0 <= nx && 0 <= ny && start + ny * nx <= cells
    requires |ux| == cells && |vy| == cells && |wz| == cells && |rho| == cells && |solid| == cells
    requires PackedPrefix(d0, d1, d2, d3, d4, FieldPopulations(ux, vy, wz, rho), FlagLane(solid), start)
    modifies d0, d1, d2, d3, d4
    ensures PackedPrefix(d0, d1, d2, d3, d4, FieldPopulations(ux, vy, wz, rho), FlagLane(solid), start + ny * nx)
  {
    ghost var yBase := start;
    for y := 0 to ny
      invariant yBase == start + y * nx && yBase <= start + ny * nx
      invariant PackedPrefix(d0, d1, d2, d3, d4, FieldPopulations(ux, vy, wz, rho), FlagLane(solid), yBase)
    {
      NextBlock(y, ny, nx);
      var rowStart := start + y * nx;
      PackRow(d0, d1, d2, d3, d4, ux, vy, wz, rho, solid, cells, rowStart, nx);
      yBase := rowStart + nx;
    }
  }

  lemma MulLeq(a: int, b: int, c: int)
    requires a <= b && c >= 0
    ensures a * c <= b * c
  {
  }

  lemma Distribute(a: int, b: int)
    ensures (a + 1) * b == a * b + b
  {
  }

  /** NX*NY*NZ cells are NZ slices of NY*NX cells. */
  lemma SliceCount(nx: int, ny: int, nz: int, cells: int)
    requires cells == nx * ny * nz
    ensures cells == nz * (ny * nx) && nx * ny == ny * nx
  {
    MulAssoc(nx, ny, nz);
  }

  /** Block i < n of size b ends within n blocks: i*b + b == (i+1)*b <= n*b. */
  lemma NextBlock(i: int, n: int, b: int)
    requires 0 <= i < n && b >= 0
    ensures i * b + b == (i + 1) * b <= n * b
  {
    MulLeq(i + 1, n, b);
  }

  /** The flat index z*(NY*NX) + y*NX + x of a cell of the box is the index
      whose decoded flag is the cell's flag. */
  lemma FlatCell(nx: int, ny: int, nz: int, x: int, y: int, z: int, idx: int)
    requires InGrid(nx, ny, nz, x, y, z) && idx == z * (ny * nx) + y * nx + x
    ensures FlagAt(nx, ny, nz, idx) == CellFlag(nx, ny, nz, x, y, z)
    ensures CellOf(nx, ny, idx) == (x, y, z)
  {
    CellOfIdx1D(nx, ny, nz, x, y, z);
  }

  /** The set-up half of the lattice utilities: grid, lattice units and the
      initial populations of the cavity. */
  class LatticeUtils {
    const nx: int
    const lx: real
    const ly: real
    const lz: real
    const dxPhys: real
    const ny: int
    const nz: int
    const cells: int
    const uInletPhysX: real
    const uInletPhysY: real
    const uInletPhysZ: real
    const gravityPhysX: real
    const gravityPhysY: real
    const gravityPhysZ: real
    const tau: real
    const omega: real
    const omtauinv: real
    const omtauinv2: real

    var dtPhys: real
    var gX: real
    var gY: real
    var gZ: real
    var rho0: real
    var uInletX: real
    var uInletY: real
    var uInletZ: real
    /** Contents of the five population textures `texf0A` .. `texf0E`. */
    var f0A: seq<real>
    var f0B: seq<real>
    var f0C: seq<real>
    var f0D: seq<real>
    var f0E: seq<real>

    /** The grid has at least one column and cells == NX*NY*NZ. */
    predicate GridShape()
    {
      nx > 0 && ny >= 0 && nz >= 0 && cells == nx * ny * nz && Shape(nx, ny, cells)
    }

    /** The five population textures hold, for every cell, the equilibrium
        of density rho0 and the cell's start velocity, and the cell's flag. */
    predicate Populated()
      reads this
    {
      GridShape() &&
      f0A == StartBank(nx, ny, nz, cells, uInletX, uInletY, uInletZ, rho0, 0) &&
      f0B == StartBank(nx, ny, nz, cells, uInletX, uInletY, uInletZ, rho0, 1) &&
      f0C == StartBank(nx, ny, nz, cells, uInletX, uInletY, uInletZ, rho0, 2) &&
      f0D == StartBank(nx, ny, nz, cells, uInletX, uInletY, uInletZ, rho0, 3) &&
      f0E == StartBank(nx, ny, nz, cells, uInletX, uInletY, uInletZ, rho0, 4)
    }

    /** Derives the grid and the relaxation parameters from the box and sets
        up the cavity. */
    constructor(nx: int, lx: real := 0.1, ly: real := 0.1, lz: real := 0.1,
                uInletPhysX: real := 0.01, uInletPhysY: real := 0.0, uInletPhysZ: real := 0.0,
                gravityPhysX: real := 0.0, gravityPhysY: real := 0.0, gravityPhysZ: real := 0.0)
      requires nx > 0 && lx > 0.0 && ly >= 0.0 && lz >= 0.0
      ensures this.nx == nx && this.lx == lx && this.ly == ly && this.lz == lz
      ensures Units.DeriveGrid(nx, lx, ly, lz) == Units.Grid(this.nx, dxPhys, ny, nz, cells)
      ensures Units.RelaxationOf(Units.NuLbm) == Units.Relaxation(tau, omega, omtauinv, omtauinv2)
      ensures this.uInletPhysX == uInletPhysX && this.uInletPhysY == uInletPhysY && this.uInletPhysZ == uInletPhysZ
      ensures this.gravityPhysX == gravityPhysX && this.gravityPhysY == gravityPhysY
      ensures this.gravityPhysZ == gravityPhysZ
      ensures Units.ToLattice(dxPhys, uInletPhysX, uInletPhysY, uInletPhysZ, gravityPhysX, gravityPhysY, gravityPhysZ)
           == Units.LatticeUnits(dtPhys, uInletX, uInletY, uInletZ, gX, gY, gZ, rho0)
      ensures Populated()
    {
      this.nx := nx;
      this.lx := lx;
      this.ly := ly;
      this.lz := lz;
      var g := Units.DeriveGrid(nx, lx, ly, lz);
      dxPhys := g.dx;
      ny := g.ny;
      nz := g.nz;
      cells := g.cells;
      assert g.cells > 0 ==> g.ny > 0 by {
        if g.ny == 0 {
          assert nx * g.ny == 0;
        }
      }
      this.uInletPhysX := uInletPhysX;
      this.uInletPhysY := uInletPhysY;
      this.uInletPhysZ := uInletPhysZ;
      this.gravityPhysX := gravityPhysX;
      this.gravityPhysY := gravityPhysY;
      this.gravityPhysZ := gravityPhysZ;
      var relax := Units.RelaxationOf(Units.NuLbm);
      tau := relax.tau;
      omega := relax.omega;
      omtauinv := relax.omtauinv;
      omtauinv2 := relax.omtauinv2;
      new;
      SetupGridDataCavity();
    }

    /** Converts the inlet velocity and gravity to lattice units and fills
        the five population arrays of the cavity. */
    method SetupGridDataCavity()
      requires GridShape() && dxPhys > 0.0
      modifies this
      ensures Units.ToLattice(dxPhys, uInletPhysX, uInletPhysY, uInletPhysZ, gravityPhysX, gravityPhysY, gravityPhysZ)
           == Units.LatticeUnits(dtPhys, uInletX, uInletY, uInletZ, gX, gY, gZ, rho0)
      ensures Populated()
    {
      ConvertUnits();
      f0A, f0B, f0C, f0D, f0E := FillCavity(uInletX, uInletY, uInletZ, rho0);
    }

    /** The unit conversion of `setupGridDataCavity`: time step, lid
        velocity, gravity and density in lattice units. */
    method ConvertUnits()
      requires dxPhys > 0.0
      modifies this`dtPhys, this`gX, this`gY, this`gZ, this`rho0, this`uInletX, this`uInletY, this`uInletZ
      ensures Units.ToLattice(dxPhys, uInletPhysX, uInletPhysY, uInletPhysZ, gravityPhysX, gravityPhysY, gravityPhysZ)
           == Units.LatticeUnits(dtPhys, uInletX, uInletY, uInletZ, gX, gY, gZ, rho0)
    {
      var lu := Units.ToLattice(dxPhys, uInletPhysX, uInletPhysY, uInletPhysZ, gravityPhysX, gravityPhysY, gravityPhysZ);
      dtPhys, gX, gY, gZ, rho0 := lu.dt, lu.gX, lu.gY, lu.gZ, lu.rho0;
      uInletX, uInletY, uInletZ := lu.uX, lu.uY, lu.uZ;
    }

    /** The array work of `setupGridDataCavity`: flags, macroscopic fields
        and the packed equilibrium populations of every cell, for the lid
        velocity (uX, uY, uZ) and density rho0 in lattice units; returns the
        contents of the five population arrays. */
    method FillCavity(uX: real, uY: real, uZ: real, rho0: real)
      returns (t0: seq<real>, t1: seq<real>, t2: seq<real>, t3: seq<real>, t4: seq<real>)
      requires GridShape()
      ensures t0 == StartBank(nx, ny, nz, cells, uX, uY, uZ, rho0, 0)
      ensures t1 == StartBank(nx, ny, nz, cells, uX, uY, uZ, rho0, 1)
      ensures t2 == StartBank(nx, ny, nz, cells, uX, uY, uZ, rho0, 2)
      ensures t3 == StartBank(nx, ny, nz, cells, uX, uY, uZ, rho0, 3)
      ensures t4 == StartBank(nx, ny, nz, cells, uX, uY, uZ, rho0, 4)
    {
      var flags, us, vs, ws, rs := StartFields(uX, uY, uZ, rho0);
      var dataA := new real[4 * cells];
      var dataB := new real[4 * cells];
      var dataC := new real[4 * cells];
      var dataD := new real[4 * cells];
      var dataE := new real[4 * cells];
      InitEquilibrium(dataA, dataB, dataC, dataD, dataE, us, vs, ws, rs, flags);
      StartFieldsPack(us, vs, ws, rs, flags, nx, ny, nz, cells, uX, uY, uZ, rho0);
      t0, t1, t2, t3, t4 := dataA[..], dataB[..], dataC[..], dataD[..], dataE[..];
    }

    /** The flags and macroscopic fields `init_solid` and `init_macros`
        leave in the arrays solid, ux, vy, wz and rho. */
    method StartFields(uX: real, uY: real, uZ: real, rho0: real)
      returns (flags: seq<int>, us: seq<real>, vs: seq<real>, ws: seq<real>, rs: seq<real>)
      requires GridShape()
      ensures |flags| == cells && |us| == cells && |vs| == cells && |ws| == cells && |rs| == cells
      ensures forall k :: 0 <= k < cells ==> ny > 0 && flags[k] == FlagAt(nx, ny, nz, k)
      ensures forall k :: 0 <= k < cells ==> ny > 0 && StartMacros(us, vs, ws, rs, nx, ny, nz, k, uX, uY, uZ, rho0)
    {
      var solid := new int[cells];
      var ux := new real[cells];
      var vy := new real[cells];
      var wz := new real[cells];
      var rho := new real[cells];
      InitSolid(solid);
      var dataMacro := new real[4 * cells];
      InitMacros(dataMacro, uX, uY, uZ, rho0, ux, vy, wz, rho);
      flags, us, vs, ws, rs := solid[..], ux[..], vy[..], wz[..], rho[..];
      forall k | 0 <= k < cells
        ensures ny > 0 && StartMacros(us, vs, ws, rs, nx, ny, nz, k, uX, uY, uZ, rho0)
      {
        assert MacroCell(dataMacro, ux, vy, wz, rho, nx, ny, nz, k, uX, uY, uZ, rho0);
      }
    }

    /** `init_solid`: writes the flag of every cell at its flat index. */
    method InitSolid(solid: array<int>)
      requires GridShape() && solid.Length == cells
      modifies solid
      ensures forall k :: 0 <= k < cells ==> solid[k] == FlagAt(nx, ny, nz, k)
    {
      var slice := ny * nx;
      SliceCount(nx, ny, nz, cells);
      ghost var zBase := 0;
      for z := 0 to nz
        invariant zBase == z * slice && zBase <= cells && (zBase == 0 || ny > 0)
        invariant forall k :: 0 <= k < zBase ==> solid[k] == FlagAt(nx, ny, nz, k)
      {
        NextBlock(z, nz, slice);
        ghost var yBase := zBase;
        for y := 0 to ny
          invariant yBase == zBase + y * nx && yBase <= zBase + slice && (y == 0 || ny > 0)
          invariant forall k :: 0 <= k < yBase ==> solid[k] == FlagAt(nx, ny, nz, k)
        {
          NextBlock(y, ny, nx);
          for x := 0 to nx
            invariant forall k :: 0 <= k < yBase + x ==> solid[k] == FlagAt(nx, ny, nz, k)
          {
            var idx1D := z * slice + y * nx + x;
            FlatCell(nx, ny, nz, x, y, z, idx1D);
            if z == nz - 1 {
              solid[idx1D] := Lid;
            } else if x == 0 || y == 0 || x == nx - 1 || y == ny - 1 || z == 0 || z == nz - 1 {
              solid[idx1D] := Wall;
            } else {
              solid[idx1D] := Fluid;
            }
          }
          yBase := yBase + nx;
        }
        zBase := zBase + slice;
      }
    }

    /** `init_macros`: lid velocity on the top layer, rest elsewhere, and
        density rho0 everywhere, both in the per-field arrays and in the
        RGBA array dataMacro. */
    method InitMacros(dataMacro: array<real>, uX: real, uY: real, uZ: real, rho0: real,
                      ux: array<real>, vy: array<real>, wz: array<real>, rho: array<real>)
      requires GridShape()
      requires ux.Length == cells && vy.Length == cells && wz.Length == cells && rho.Length == cells
      requires dataMacro.Length == 4 * cells
      requires dataMacro != ux && dataMacro != vy && dataMacro != wz && dataMacro != rho
      requires ux != vy && ux != wz && ux != rho && vy != wz && vy != rho && wz != rho
      modifies dataMacro, ux, vy, wz, rho
      ensures forall k :: 0 <= k < cells ==> ny > 0 && MacroCell(dataMacro, ux, vy, wz, rho, nx, ny, nz, k, uX, uY, uZ, rho0)
    {
      var slice := nx * ny;
      SliceCount(nx, ny, nz, cells);
      ghost var zBase := 0;
      for z := 0 to nz
        invariant zBase == z * slice && zBase <= cells && (zBase == 0 || ny > 0)
        invariant forall k :: 0 <= k < zBase ==> MacroCell(dataMacro, ux, vy, wz, rho, nx, ny, nz, k, uX, uY, uZ, rho0)
      {
        NextBlock(z, nz, slice);
        ghost var yBase := zBase;
        for y := 0 to ny
          invariant yBase == zBase + y * nx && yBase <= zBase + slice && (y == 0 || ny > 0)
          invariant forall k :: 0 <= k < yBase ==> MacroCell(dataMacro, ux, vy, wz, rho, nx, ny, nz, k, uX, uY, uZ, rho0)
        {
          NextBlock(y, ny, nx);
          for x := 0 to nx
            invariant forall k :: 0 <= k < yBase + x ==> MacroCell(dataMacro, ux, vy, wz, rho, nx, ny, nz, k, uX, uY, uZ, rho0)
          {
            var idx1D := z * slice + y * nx + x;
            FlatCell(nx, ny, nz, x, y, z, idx1D);
            label before:
            WriteCellMacros(dataMacro, ux, vy, wz, rho, idx1D, z == nz - 1, uX, uY, uZ, rho0);
            forall k | 0 <= k < idx1D
              ensures MacroCell(dataMacro, ux, vy, wz, rho, nx, ny, nz, k, uX, uY, uZ, rho0)
            {
              assert old@before(MacroCell(dataMacro, ux, vy, wz, rho, nx, ny, nz, k, uX, uY, uZ, rho0));
            }
          }
          yBase := yBase + nx;
        }
        zBase := zBase + slice;
      }
    }

    /** `init_equilibrium`: the 19 equilibrium populations of every cell's
        fields, packed four per texel into d0..d4 (population i in array
        i/4, lane i%4), with the cell's flag in lane 3 of d4. */
    method InitEquilibrium(d0: array<real>, d1: array<real>, d2: array<real>, d3: array<real>, d4: array<real>,
                           ux: seq<real>, vy: seq<real>, wz: seq<real>, rho: seq<real>, solid: seq<int>)
      requires GridShape() && Banks(d0, d1, d2, d3, d4, 4 * cells)
      requires |ux| == cells && |vy| == cells && |wz| == cells && |rho| == cells && |solid| == cells
      modifies d0, d1, d2, d3, d4
      ensures d0[..] == Bank(FieldPopulations(ux, vy, wz, rho), FlagLane(solid), 0)
      ensures d1[..] == Bank(FieldPopulations(ux, vy, wz, rho), FlagLane(solid), 1)
      ensures d2[..] == Bank(FieldPopulations(ux, vy, wz, rho), FlagLane(solid), 2)
      ensures d3[..] == Bank(FieldPopulations(ux, vy, wz, rho), FlagLane(solid), 3)
      ensures d4[..] == Bank(FieldPopulations(ux, vy, wz, rho), FlagLane(solid), 4)
    {
      ghost var pops, flags := FieldPopulations(ux, vy, wz, rho), FlagLane(solid);
      var slice := nx * ny;
      SliceCount(nx, ny, nz, cells);
      ghost var zBase := 0;
      for z := 0 to nz
        invariant zBase == z * slice && zBase <= cells
        invariant PackedPrefix(d0, d1, d2, d3, d4, pops, flags, zBase)
      {
        NextBlock(z, nz, slice);
        PackSlice(d0, d1, d2, d3, d4, ux, vy, wz, rho, solid, cells, z * slice, nx, ny);
        zBase := zBase + slice;
      }
      assert pops[..cells] == pops && flags[..cells] == flags;
      assert d0[..] == d0[..4 * cells] && d1[..] == d1[..4 * cells] && d2[..] == d2[..4 * cells];
      assert d3[..] == d3[..4 * cells] && d4[..] == d4[..4 * cells];
    }
  }
}
