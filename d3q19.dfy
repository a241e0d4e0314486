/** The D3Q19 velocity set used by the cavity solver: 19 lattice directions
    (one rest, six face, twelve edge), their bounce-back opposites, their
    weights, and the second-order BGK equilibrium built from them.
    Arithmetic is over `real`; the 32-bit float storage of the tables is not modelled. */
module D3Q19 {

  /** Number of discrete directions (the `q` field). */
  const Q: nat := 19

  /** x, y and z components of the 19 direction vectors, in table order. */
  const DirX: seq<int> := [0,  1, -1,  0,  0,  0,  0,  1, -1,  1, -1,  0,  0,  1, -1,  1, -1,  0,  0]
  const DirY: seq<int> := [0,  0,  0,  1, -1,  0,  0,  1, -1,  0,  0,  1, -1, -1,  1,  0,  0,  1, -1]
  const DirZ: seq<int> := [0,  0,  0,  0,  0,  1, -1,  0,  0,  1, -1,  1, -1,  0,  0, -1,  1, -1,  1]

  /** Bounce-back table: Inv[i] is the direction opposite to direction i. */
  const Inv: seq<nat> := [0,  2,  1,  4,  3,  6,  5,  8,  7, 10,  9, 12, 11, 14, 13, 16, 15, 18, 17]

  /** The rest weight, the six face weights and the twelve edge weights. */
  const W0: real := 1.0 / 3.0
  const Wa: real := 1.0 / 18.0
  const Wd: real := 1.0 / 36.0
  const W: seq<real> := [W0, Wa, Wa, Wa, Wa, Wa, Wa, Wd, Wd, Wd, Wd, Wd, Wd, Wd, Wd, Wd, Wd, Wd, Wd]

  /** A direction index. */
  type Dir = i: nat | i < Q

  /** Squared length of direction i: 0 for the rest direction, 1 for a face, 2 for an edge. */
  function NormSq(i: Dir): int
  {
    DirX[i] * DirX[i] + DirY[i] * DirY[i] + DirZ[i] * DirZ[i]
  }

  /** Sum of one value per direction. */
  function SumQ(f: seq<real>): real
    requires |f| == Q
  {
    f[0] + f[1] + f[2] + f[3] + f[4] + f[5] + f[6] + f[7] + f[8] + f[9]
    + f[10] + f[11] + f[12] + f[13] + f[14] + f[15] + f[16] + f[17] + f[18]
  }

  /** c_i . u for direction i. */
  function CDotU(i: Dir, ux: real, uy: real, uz: real): real
  {
    (DirX[i] as real) * ux + (DirY[i] as real) * uy + (DirZ[i] as real) * uz
  }

  /** The second-order BGK equilibrium population of direction i for density
      rho and velocity (ux, uy, uz), as written in the initialiser's inner loop. */
  function Feq(i: Dir, rho: real, ux: real, uy: real, uz: real): real
  {
    var cu := CDotU(i, ux, uy, uz);
    W[i] * rho * (1.0 + 3.0 * cu + 4.5 * cu * cu - 1.5 * (ux * ux + uy * uy + uz * uz))
  }

  /** The 19 equilibrium populations of one cell, in direction order. */
  function Equilibrium(rho: real, ux: real, uy: real, uz: real): (f: seq<real>)
    ensures |f| == Q
    ensures forall i: Dir :: f[i] == Feq(i, rho, ux, uy, uz)
  {
    seq(Q, (i: nat) requires i < Q => Feq(i, rho, ux, uy, uz))
  }

  /** x times the integer direction component k (written by cases, since the
      components are -1, 0 or 1). */
  function Scale(x: real, k: int): real
  {
    if k == 0 then 0.0 else if k == 1 then x else if k == -1 then -x else x * (k as real)
  }

  /** Pointwise product of the populations with one direction-component table:
      SumQ(Weighted(f, DirX)) is the x-momentum of the populations f. */
  function Weighted(f: seq<real>, c: seq<int>): (g: seq<real>)
    requires |f| == |c|
    ensures |g| == |f|
    ensures forall i :: 0 <= i < |f| ==> g[i] == Scale(f[i], c[i])
  {
    seq(|f|, (i: nat) requires i < |f| => Scale(f[i], c[i]))
  }

  // ---------------------------------------------------------------------------
  // Table properties

  /** The bounce-back table is an involution that fixes the rest direction and
      maps every direction to its geometric opposite. */
  lemma InvIsOpposite()
    ensures |Inv| == Q && Inv[0] == 0
    ensures forall i: Dir :: Inv[i] < Q && Inv[Inv[i]] == i
    ensures forall i: Dir :: DirX[Inv[i]] == -DirX[i] && DirY[Inv[i]] == -DirY[i] && DirZ[Inv[i]] == -DirZ[i]
    ensures forall i: Dir :: i != 0 ==> Inv[i] != i
    ensures forall i: Dir :: W[Inv[i]] == W[i]
  {
    forall i: Dir
      ensures Inv[i] < Q && Inv[Inv[i]] == i
      ensures W[Inv[i]] == W[i]
      ensures DirX[Inv[i]] == -DirX[i] && DirY[Inv[i]] == -DirY[i] && DirZ[Inv[i]] == -DirZ[i]
      ensures i != 0 ==> Inv[i] != i
    {
      EachDir(i);
    }
  }

  /** The rest direction is the only zero vector, the six face directions
      come first after it, and the weight of a direction depends only on its
      length (1/3, 1/18 and 1/36 for squared lengths 0, 1 and 2). */
  lemma WeightsFollowLength()
    ensures forall i: Dir :: NormSq(i) == 0 <==> i == 0
    ensures forall i: Dir :: 1 <= i <= 6 <==> NormSq(i) == 1
    ensures forall i: Dir :: W[i] == (if NormSq(i) == 0 then W0 else if NormSq(i) == 1 then Wa else Wd)
  {
    forall i: Dir
      ensures NormSq(i) == 0 <==> i == 0
      ensures 1 <= i <= 6 <==> NormSq(i) == 1
      ensures W[i] == (if NormSq(i) == 0 then W0 else if NormSq(i) == 1 then Wa else Wd)
    {
      EachDir(i);
    }
  }

  /** Case split over the 19 directions. */
  lemma EachDir(i: Dir)
    ensures i == 0 || i == 1 || i == 2 || i == 3 || i == 4 || i == 5 || i == 6 || i == 7 || i == 8 || i == 9
         || i == 10 || i == 11 || i == 12 || i == 13 || i == 14 || i == 15 || i == 16 || i == 17 || i == 18
  {
  }

  /** The 19 weights sum to one: 1/3 + 6 * 1/18 + 12 * 1/36. */
  lemma WeightsSumToOne()
    ensures |W| == Q && SumQ(W) == 1.0
  {
  }

  /** At rest the equilibrium is the weight table scaled by the density. */
  lemma EquilibriumAtRest(rho: real)
    ensures forall i: Dir :: Equilibrium(rho, 0.0, 0.0, 0.0)[i] == W[i] * rho
  {
  }

  /** Opposite directions see opposite components of any velocity. */
  lemma OppositeCDotU(i: Dir, ux: real, uy: real, uz: real)
    ensures Inv[i] < Q && CDotU(Inv[i], ux, uy, uz) == -CDotU(i, ux, uy, uz)
  {
    EachDir(i);
  }

  /** Flipping the sign of c . u changes the bracket of the equilibrium only in its linear term. */
  lemma FlipLinearTerm(k: real, cu: real, usq: real)
    ensures k * (1.0 + 3.0 * cu + 4.5 * cu * cu - 1.5 * usq)
          - k * (1.0 + 3.0 * (-cu) + 4.5 * (-cu) * (-cu) - 1.5 * usq) == 6.0 * k * cu
  {
    assert (-cu) * (-cu) == cu * cu;
  }

  /** Two opposite directions i and Inv[i] differ only in the sign of the
      linear term of the equilibrium. */
  lemma OppositeDifference(i: Dir, rho: real, ux: real, uy: real, uz: real)
    ensures Inv[i] < Q
    ensures Feq(i, rho, ux, uy, uz) - Feq(Inv[i], rho, ux, uy, uz) == 6.0 * W[i] * rho * CDotU(i, ux, uy, uz)
  {
    InvIsOpposite();
    OppositeCDotU(i, ux, uy, uz);
    FlipLinearTerm(W[i] * rho, CDotU(i, ux, uy, uz), ux * ux + uy * uy + uz * uz);
  }

  /** The first moments of any population vector, grouped by opposite pairs
      (direction i + 1 is the opposite of an odd direction i). */
  lemma FirstMomentsByPairs(f: seq<real>)
    requires |f| == Q
    ensures SumQ(Weighted(f, DirX)) == (f[1] - f[2]) + (f[7] - f[8]) + (f[9] - f[10]) + (f[13] - f[14]) + (f[15] - f[16])
    ensures SumQ(Weighted(f, DirY)) == (f[3] - f[4]) + (f[7] - f[8]) + (f[11] - f[12]) - (f[13] - f[14]) + (f[17] - f[18])
    ensures SumQ(Weighted(f, DirZ)) == (f[5] - f[6]) + (f[9] - f[10]) + (f[11] - f[12]) - (f[15] - f[16]) - (f[17] - f[18])
  {
  }

  /** Populations whose opposite pairs differ as the equilibrium's do:
      f[i] - f[Inv[i]] == 6 w_i rho (c_i . u) for every direction i. */
  predicate PairsLikeEquilibrium(f: seq<real>, rho: real, ux: real, uy: real, uz: real)
    requires |f| == Q
  {
    forall i: Dir :: Inv[i] < Q && f[i] - f[Inv[i]] == 6.0 * W[i] * rho * CDotU(i, ux, uy, uz)
  }

  /** The equilibrium's opposite pairs differ only by their linear terms. */
  lemma EquilibriumPairs(rho: real, ux: real, uy: real, uz: real)
    ensures PairsLikeEquilibrium(Equilibrium(rho, ux, uy, uz), rho, ux, uy, uz)
  {
    forall i: Dir
      ensures Inv[i] < Q
      ensures Equilibrium(rho, ux, uy, uz)[i] - Equilibrium(rho, ux, uy, uz)[Inv[i]]
           == 6.0 * W[i] * rho * CDotU(i, ux, uy, uz)
    {
      OppositeDifference(i, rho, ux, uy, uz);
    }
  }

  /** x-momentum of populations paired like the equilibrium's. */
  lemma PairedMomentumX(f: seq<real>, rho: real, ux: real, uy: real, uz: real)
    requires |f| == Q && PairsLikeEquilibrium(f, rho, ux, uy, uz)
    ensures SumQ(Weighted(f, DirX)) == rho * ux
  {
    assert f[1] - f[Inv[1]] == 6.0 * W[1] * rho * CDotU(1, ux, uy, uz);
    assert f[7] - f[Inv[7]] == 6.0 * W[7] * rho * CDotU(7, ux, uy, uz);
    assert f[9] - f[Inv[9]] == 6.0 * W[9] * rho * CDotU(9, ux, uy, uz);
    assert f[13] - f[Inv[13]] == 6.0 * W[13] * rho * CDotU(13, ux, uy, uz);
    assert f[15] - f[Inv[15]] == 6.0 * W[15] * rho * CDotU(15, ux, uy, uz);
    FirstMomentsByPairs(f);
  }

  /** y-momentum of populations paired like the equilibrium's. */
  lemma PairedMomentumY(f: seq<real>, rho: real, ux: real, uy: real, uz: real)
    requires |f| == Q && PairsLikeEquilibrium(f, rho, ux, uy, uz)
    ensures SumQ(Weighted(f, DirY)) == rho * uy
  {
    assert f[3] - f[Inv[3]] == 6.0 * W[3] * rho * CDotU(3, ux, uy, uz);
    assert f[7] - f[Inv[7]] == 6.0 * W[7] * rho * CDotU(7, ux, uy, uz);
    assert f[11] - f[Inv[11]] == 6.0 * W[11] * rho * CDotU(11, ux, uy, uz);
    assert f[13] - f[Inv[13]] == 6.0 * W[13] * rho * CDotU(13, ux, uy, uz);
    assert f[17] - f[Inv[17]] == 6.0 * W[17] * rho * CDotU(17, ux, uy, uz);
    FirstMomentsByPairs(f);
  }

  /** z-momentum of populations paired like the equilibrium's. */
  lemma PairedMomentumZ(f: seq<real>, rho: real, ux: real, uy: real, uz: real)
    requires |f| == Q && PairsLikeEquilibrium(f, rho, ux, uy, uz)
    ensures SumQ(Weighted(f, DirZ)) == rho * uz
  {
    assert f[5] - f[Inv[5]] == 6.0 * W[5] * rho * CDotU(5, ux, uy, uz);
    assert f[9] - f[Inv[9]] == 6.0 * W[9] * rho * CDotU(9, ux, uy, uz);
    assert f[11] - f[Inv[11]] == 6.0 * W[11] * rho * CDotU(11, ux, uy, uz);
    assert f[15] - f[Inv[15]] == 6.0 * W[15] * rho * CDotU(15, ux, uy, uz);
    assert f[17] - f[Inv[17]] == 6.0 * W[17] * rho * CDotU(17, ux, uy, uz);
    FirstMomentsByPairs(f);
  }

  /** The equilibrium conserves momentum: its first moments are rho * u. */
  lemma EquilibriumMomentum(rho: real, ux: real, uy: real, uz: real)
    ensures SumQ(Weighted(Equilibrium(rho, ux, uy, uz), DirX)) == rho * ux
    ensures SumQ(Weighted(Equilibrium(rho, ux, uy, uz), DirY)) == rho * uy
    ensures SumQ(Weighted(Equilibrium(rho, ux, uy, uz), DirZ)) == rho * uz
  {
    var f := Equilibrium(rho, ux, uy, uz);
    EquilibriumPairs(rho, ux, uy, uz);
    PairedMomentumX(f, rho, ux, uy, uz);
    PairedMomentumY(f, rho, ux, uy, uz);
    PairedMomentumZ(f, rho, ux, uy, uz);
  }

  // ---------------------------------------------------------------------------
  // Mass

  /** Flipping the sign of c . u leaves the even part of the bracket. */
  lemma FlipEvenTerm(k: real, cu: real, usq: real)
    ensures k * (1.0 + 3.0 * cu + 4.5 * cu * cu - 1.5 * usq)
          + k * (1.0 + 3.0 * (-cu) + 4.5 * (-cu) * (-cu) - 1.5 * usq) == 2.0 * k * (1.0 - 1.5 * usq) + 9.0 * k * (cu * cu)
  {
    assert (-cu) * (-cu) == cu * cu;
  }

  /** Two opposite directions share the even part of the equilibrium. */
  lemma OppositeSum(i: Dir, rho: real, ux: real, uy: real, uz: real)
    ensures Inv[i] < Q
    ensures Feq(i, rho, ux, uy, uz) + Feq(Inv[i], rho, ux, uy, uz)
         == 2.0 * (W[i] * rho) * (1.0 - 1.5 * (ux * ux + uy * uy + uz * uz)) + 9.0 * (W[i] * rho) * (CDotU(i, ux, uy, uz) * CDotU(i, ux, uy, uz))
  {
    InvIsOpposite();
    OppositeCDotU(i, ux, uy, uz);
    FlipEvenTerm(W[i] * rho, CDotU(i, ux, uy, uz), ux * ux + uy * uy + uz * uz);
  }

  /** Opposite pair (i, Inv[i]) of f sums as the equilibrium's does. */
  predicate PairSumAt(f: seq<real>, i: Dir, rho: real, ux: real, uy: real, uz: real)
    requires |f| == Q
  {
    Inv[i] < Q && f[i] + f[Inv[i]]
      == 2.0 * (W[i] * rho) * (1.0 - 1.5 * (ux * ux + uy * uy + uz * uz)) + 9.0 * (W[i] * rho) * (CDotU(i, ux, uy, uz) * CDotU(i, ux, uy, uz))
  }

  /** Populations whose opposite pairs sum as the equilibrium's do. */
  predicate PairSumsLikeEquilibrium(f: seq<real>, rho: real, ux: real, uy: real, uz: real)
    requires |f| == Q
  {
    forall i: Dir :: PairSumAt(f, i, rho, ux, uy, uz)
  }

  /** The equilibrium's opposite pairs share their even terms. */
  lemma EquilibriumPairSums(rho: real, ux: real, uy: real, uz: real)
    ensures PairSumsLikeEquilibrium(Equilibrium(rho, ux, uy, uz), rho, ux, uy, uz)
  {
    forall i: Dir
      ensures Inv[i] < Q
      ensures Equilibrium(rho, ux, uy, uz)[i] + Equilibrium(rho, ux, uy, uz)[Inv[i]]
           == 2.0 * (W[i] * rho) * (1.0 - 1.5 * (ux * ux + uy * uy + uz * uz)) + 9.0 * (W[i] * rho) * (CDotU(i, ux, uy, uz) * CDotU(i, ux, uy, uz))
    {
      OppositeSum(i, rho, ux, uy, uz);
    }
  }

  /** (a + b)^2 + (a - b)^2 == 2 a^2 + 2 b^2. */
  lemma Parallelogram(a: real, b: real)
    ensures (a + b) * (a + b) + (a - b) * (a - b) == 2.0 * a * a + 2.0 * b * b
  {
  }

  /** Bounce-back partners and weights of the rest direction and of the odd directions. */
  lemma PairTables()
    ensures Inv[0] == 0 && W[0] == W0
    ensures Inv[1] == 2 && W[1] == Wa
    ensures Inv[3] == 4 && W[3] == Wa
    ensures Inv[5] == 6 && W[5] == Wa
    ensures Inv[7] == 8 && W[7] == Wd
    ensures Inv[9] == 10 && W[9] == Wd
    ensures Inv[11] == 12 && W[11] == Wd
    ensures Inv[13] == 14 && W[13] == Wd
    ensures Inv[15] == 16 && W[15] == Wd
    ensures Inv[17] == 18 && W[17] == Wd
  {
  }

  /** Over the three face pairs the squares of c_i . u add up to |u|^2, and
      over the six edge pairs to 4 |u|^2; the rest direction sees nothing. */
  lemma SecondMoments(ux: real, uy: real, uz: real)
    ensures CDotU(0, ux, uy, uz) == 0.0
    ensures CDotU(1, ux, uy, uz) * CDotU(1, ux, uy, uz) + CDotU(3, ux, uy, uz) * CDotU(3, ux, uy, uz) + CDotU(5, ux, uy, uz) * CDotU(5, ux, uy, uz) == ux * ux + uy * uy + uz * uz
    ensures CDotU(7, ux, uy, uz) * CDotU(7, ux, uy, uz)
          + CDotU(9, ux, uy, uz) * CDotU(9, ux, uy, uz)
          + CDotU(11, ux, uy, uz) * CDotU(11, ux, uy, uz)
          + CDotU(13, ux, uy, uz) * CDotU(13, ux, uy, uz)
          + CDotU(15, ux, uy, uz) * CDotU(15, ux, uy, uz)
          + CDotU(17, ux, uy, uz) * CDotU(17, ux, uy, uz)
         == 4.0 * (ux * ux + uy * uy + uz * uz)
  {
    assert CDotU(1, ux, uy, uz) == ux && CDotU(3, ux, uy, uz) == uy && CDotU(5, ux, uy, uz) == uz;
    assert CDotU(7, ux, uy, uz) == ux + uy && CDotU(13, ux, uy, uz) == ux - uy;
    assert CDotU(9, ux, uy, uz) == ux + uz && CDotU(15, ux, uy, uz) == ux - uz;
    assert CDotU(11, ux, uy, uz) == uy + uz && CDotU(17, ux, uy, uz) == uy - uz;
    Parallelogram(ux, uy);
    Parallelogram(ux, uz);
    Parallelogram(uy, uz);
  }

  /** Sum of a constant part over the velocity set and a quadratic part that
      the velocity set turns into |u|^2: the mass balance of the equilibrium. */
  lemma MassAlgebra(rho: real, usq: real, a1: real, a3: real, a5: real,
                    d7: real, d9: real, d11: real, d13: real, d15: real, d17: real)
    requires a1 + a3 + a5 == usq
    requires d7 + d9 + d11 + d13 + d15 + d17 == 4.0 * usq
    ensures W0 * rho * (1.0 - 1.5 * usq)
          + (2.0 * (Wa * rho) * (1.0 - 1.5 * usq) + 9.0 * (Wa * rho) * a1)
          + (2.0 * (Wa * rho) * (1.0 - 1.5 * usq) + 9.0 * (Wa * rho) * a3)
          + (2.0 * (Wa * rho) * (1.0 - 1.5 * usq) + 9.0 * (Wa * rho) * a5)
          + (2.0 * (Wd * rho) * (1.0 - 1.5 * usq) + 9.0 * (Wd * rho) * d7)
          + (2.0 * (Wd * rho) * (1.0 - 1.5 * usq) + 9.0 * (Wd * rho) * d9)
          + (2.0 * (Wd * rho) * (1.0 - 1.5 * usq) + 9.0 * (Wd * rho) * d11)
          + (2.0 * (Wd * rho) * (1.0 - 1.5 * usq) + 9.0 * (Wd * rho) * d13)
          + (2.0 * (Wd * rho) * (1.0 - 1.5 * usq) + 9.0 * (Wd * rho) * d15)
          + (2.0 * (Wd * rho) * (1.0 - 1.5 * usq) + 9.0 * (Wd * rho) * d17) == rho
  {
  }

  /** The mass of populations paired like the equilibrium's. */
  lemma PairedMass(f: seq<real>, rho: real, ux: real, uy: real, uz: real)
    requires |f| == Q && PairSumsLikeEquilibrium(f, rho, ux, uy, uz)
    ensures SumQ(f) == rho
  {
    PairTables();
    SecondMoments(ux, uy, uz);
    assert PairSumAt(f, 0, rho, ux, uy, uz);
    assert PairSumAt(f, 1, rho, ux, uy, uz);
    assert PairSumAt(f, 3, rho, ux, uy, uz);
    assert PairSumAt(f, 5, rho, ux, uy, uz);
    assert PairSumAt(f, 7, rho, ux, uy, uz);
    assert PairSumAt(f, 9, rho, ux, uy, uz);
    assert PairSumAt(f, 11, rho, ux, uy, uz);
    assert PairSumAt(f, 13, rho, ux, uy, uz);
    assert PairSumAt(f, 15, rho, ux, uy, uz);
    assert PairSumAt(f, 17, rho, ux, uy, uz);
    MassAlgebra(rho, ux * ux + uy * uy + uz * uz, CDotU(1, ux, uy, uz) * CDotU(1, ux, uy, uz), CDotU(3, ux, uy, uz) * CDotU(3, ux, uy, uz), CDotU(5, ux, uy, uz) * CDotU(5, ux, uy, uz),
                CDotU(7, ux, uy, uz) * CDotU(7, ux, uy, uz),
                CDotU(9, ux, uy, uz) * CDotU(9, ux, uy, uz),
                CDotU(11, ux, uy, uz) * CDotU(11, ux, uy, uz),
                CDotU(13, ux, uy, uz) * CDotU(13, ux, uy, uz),
                CDotU(15, ux, uy, uz) * CDotU(15, ux, uy, uz),
                CDotU(17, ux, uy, uz) * CDotU(17, ux, uy, uz));
  }

  /** The equilibrium conserves mass: its populations sum to rho. */
  lemma EquilibriumMass(rho: real, ux: real, uy: real, uz: real)
    ensures SumQ(Equilibrium(rho, ux, uy, uz)) == rho
  {
    EquilibriumPairSums(rho, ux, uy, uz);
    PairedMass(Equilibrium(rho, ux, uy, uz), rho, ux, uy, uz);
  }
}
