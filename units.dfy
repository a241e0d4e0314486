/** Grid derivation and the conversion between physical and lattice units
    for the lid-driven cavity, over exact reals. */
module Units {

  /** Kinematic viscosity of the fluid, m^2/s (`nu_phys`). */
  const NuPhys: real := 0.000015
  /** Density of the fluid, kg/m^3 (`rho_phys`). */
  const RhoPhys: real := 1.293
  /** Squared lattice speed of sound (`cs`). */
  const Cs: real := 1.0 / 3.0
  /** Chosen lattice viscosity (`nu_lbm`). */
  const NuLbm: real := 0.1
  /** Lattice density the fluid starts at (`rho0`). */
  const Rho0: real := 1.0

  /** The lattice derived from a physical box of Lx x Ly x Lz metres cut
      into NX cells along x: cubic cells of side dx, and as many whole cells
      along y and z as fit. */
  datatype Grid = Grid(nx: int, dx: real, ny: int, nz: int, cells: int)

  /** `dx_phys = Lx/NX`, `NY = floor(Ly/dx_phys)`, `NZ = floor(Lz/dx_phys)`,
      `cells = NX*NY*NZ`. */
  function DeriveGrid(nx: int, lx: real, ly: real, lz: real): (g: Grid)
    requires nx > 0 && lx > 0.0 && ly >= 0.0 && lz >= 0.0
    ensures g.nx == nx && g.dx > 0.0 && g.dx * (nx as real) == lx
    ensures g.ny >= 0 && (g.ny as real) * g.dx <= ly < ((g.ny + 1) as real) * g.dx
    ensures g.nz >= 0 && (g.nz as real) * g.dx <= lz < ((g.nz + 1) as real) * g.dx
    ensures g.cells == g.nx * g.ny * g.nz && g.cells >= 0
  {
    var dx := lx / nx as real;
    var ny := (ly / dx).Floor;
    var nz := (lz / dx).Floor;
    FloorFits(ly, dx);
    FloorFits(lz, dx);
    assert nx * ny >= 0;
    assert nx * ny * nz >= 0;
    Grid(nx, dx, ny, nz, nx * ny * nz)
  }

  /** floor(l/dx) whole cells of side dx fit in a length l, and one more does not. */
  lemma FloorFits(l: real, dx: real)
    requires l >= 0.0 && dx > 0.0
    ensures (l / dx).Floor >= 0
    ensures ((l / dx).Floor as real) * dx <= l < (((l / dx).Floor + 1) as real) * dx
  {
    var q := l / dx;
    assert q * dx == l;
    var n := q.Floor;
    assert (n as real) <= q < (n as real) + 1.0;
    MulMonotone(n as real, q, dx);
    assert ((n + 1) as real) == (n as real) + 1.0;
    MulStrict(q, (n + 1) as real, dx);
    assert l < ((n + 1) as real) * dx;
  }

  lemma MulMonotone(a: real, b: real, c: real)
    requires a <= b && c > 0.0
    ensures a * c <= b * c
  {
  }

  lemma MulStrict(a: real, b: real, c: real)
    requires a < b && c > 0.0
    ensures a * c < b * c
  {
  }

  lemma MulPositive(a: real, b: real)
    requires a > 0.0 && b > 0.0
    ensures a * b > 0.0
  {
  }

  lemma DivCancel(a: real, b: real)
    requires b != 0.0
    ensures (a * b) / b == a
  {
  }

  lemma DivPositive(a: real, b: real)
    requires a > 0.0 && b > 0.0
    ensures a / b > 0.0
  {
  }

  // ---------------------------------------------------------------------------
  // BGK relaxation parameters

  /** tau, omega, 1 - omega and 1 - omega/2 derived from the lattice viscosity. */
  datatype Relaxation = Relaxation(tau: real, omega: real, omtauinv: real, omtauinv2: real)

  /** `tau = 3*nu_lbm + 0.5`, `omega = 1/tau`, `omtauinv = 1 - omega`,
      `omtauinv_2 = 1 - omega/2`. */
  function RelaxationOf(nu: real): (r: Relaxation)
    requires nu > 0.0
    ensures r.tau > 0.5 && r.tau * r.omega == 1.0
    ensures nu == (r.tau - 0.5) / 3.0
    ensures r.omtauinv + r.omega == 1.0 && 2.0 * r.omtauinv2 + r.omega == 2.0
  {
    var tau := 3.0 * nu + 0.5;
    Relaxation(tau, 1.0 / tau, 1.0 - 1.0 / tau, 1.0 - (1.0 / tau) / 2.0)
  }

  /** With nu_lbm = 0.1: tau = 0.8, omega = 1.25, 1 - omega = -0.25, 1 - omega/2 = 0.375. */
  lemma ChosenRelaxation()
    ensures RelaxationOf(NuLbm) == Relaxation(0.8, 1.25, -0.25, 0.375)
  {
  }

  // ---------------------------------------------------------------------------
  // Physical to lattice units

  /** Physical time step: `dt_phys = nu_lbm * dx^2 / nu_phys`. */
  function TimeStep(nu: real, dx: real, nuPhys: real): (dt: real)
    requires nu > 0.0 && dx > 0.0 && nuPhys > 0.0
    ensures dt > 0.0
    ensures dt * nuPhys == nu * (dx * dx)
  {
    MulPositive(nu, dx);
    MulPositive(nu * dx, dx);
    DivPositive(nu * dx * dx, nuPhys);
    nu * dx * dx / nuPhys
  }

  /** A velocity in m/s as a lattice velocity: `u * (dt/dx)`. */
  function VelocityToLattice(u: real, dt: real, dx: real): real
    requires dx > 0.0
  {
    u * (dt / dx)
  }

  /** An acceleration in m/s^2 as a lattice acceleration: `g * (dt^2/dx)`. */
  function GravityToLattice(g: real, dt: real, dx: real): real
    requires dx > 0.0
  {
    g * ((dt * dt) / dx)
  }

  /** The lattice-unit quantities `setupGridDataCavity` derives. */
  datatype LatticeUnits = LatticeUnits(
    dt: real,
    uX: real, uY: real, uZ: real,
    gX: real, gY: real, gZ: real,
    rho0: real)

  /** Inlet velocity and gravity of the cavity converted to lattice units,
      with the time step chosen so that the lattice viscosity is nu_lbm. */
  function ToLattice(dx: real, uX: real, uY: real, uZ: real, gX: real, gY: real, gZ: real): (lu: LatticeUnits)
    requires dx > 0.0
    ensures lu.dt > 0.0 && lu.dt * NuPhys == NuLbm * (dx * dx)
    ensures lu.uX * dx == uX * lu.dt && lu.uY * dx == uY * lu.dt && lu.uZ * dx == uZ * lu.dt
    ensures lu.gX * dx == gX * (lu.dt * lu.dt) && lu.gY * dx == gY * (lu.dt * lu.dt)
    ensures lu.gZ * dx == gZ * (lu.dt * lu.dt)
    ensures lu.rho0 == 1.0
  {
    var dt := TimeStep(NuLbm, dx, NuPhys);
    VelocityRoundTrip(uX, dt, dx);
    VelocityRoundTrip(uY, dt, dx);
    VelocityRoundTrip(uZ, dt, dx);
    GravityRoundTrip(gX, dt, dx);
    GravityRoundTrip(gY, dt, dx);
    GravityRoundTrip(gZ, dt, dx);
    LatticeUnits(dt,
      VelocityToLattice(uX, dt, dx), VelocityToLattice(uY, dt, dx), VelocityToLattice(uZ, dt, dx),
      GravityToLattice(gX, dt, dx), GravityToLattice(gY, dt, dx), GravityToLattice(gZ, dt, dx),
      Rho0)
  }

  /** A lattice velocity covers, per time step dt, the distance the
      physical velocity covers: u_lattice * dx == u * dt; so, for dt > 0,
      converting it back, u_lattice * dx / dt, gives u again. */
  lemma VelocityRoundTrip(u: real, dt: real, dx: real)
    requires dx > 0.0
    ensures VelocityToLattice(u, dt, dx) * dx == u * dt
    ensures dt > 0.0 ==> VelocityToLattice(u, dt, dx) * dx / dt == u
  {
    assert (dt / dx) * dx == dt;
    if dt > 0.0 {
      DivCancel(u, dt);
    }
  }

  /** A lattice acceleration times dx is the physical acceleration times
      dt^2; so, for dt > 0, converting it back, g_lattice * dx / dt / dt,
      gives g again. */
  lemma GravityRoundTrip(g: real, dt: real, dx: real)
    requires dx > 0.0
    ensures GravityToLattice(g, dt, dx) * dx == g * (dt * dt)
    ensures dt > 0.0 ==> GravityToLattice(g, dt, dx) * dx / dt / dt == g
  {
    assert ((dt * dt) / dx) * dx == dt * dt;
    if dt > 0.0 {
      var scaled := GravityToLattice(g, dt, dx) * dx;
      assert scaled == (g * dt) * dt;
      DivCancel(g * dt, dt);
      DivCancel(g, dt);
      assert scaled / dt == g * dt;
    }
  }

  /** The default scene, a 0.5 m cube cut into 64 cells along x, gives a
      64 x 64 x 64 lattice of 262144 cells, dx = 1/128 m and dt = 625/1536 s. */
  lemma DefaultScene()
    ensures DeriveGrid(64, 0.5, 0.5, 0.5) == Grid(64, 1.0 / 128.0, 64, 64, 262144)
    ensures TimeStep(NuLbm, 1.0 / 128.0, NuPhys) == 625.0 / 1536.0
  {
    assert 0.5 / (1.0 / 128.0) == 64.0;
  }
}
