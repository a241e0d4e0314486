# 3D lattice-Boltzmann lid-driven cavity: set-up and MRT compute renderer

This project models the two core pieces of a browser simulation of
lid-driven cavity flow. The simulation uses the D3Q19 lattice-Boltzmann
method and runs on the GPU through WebGL.

- `GPGPUUtils_LBM` builds the lattice. It does four things:
  - it derives the grid and the lattice units from the physical box;
  - it flags every cell as fluid, wall or moving lid;
  - it fills the initial velocity and density fields;
  - it packs the equilibrium populations of every cell, four per texel,
    into five RGBA float textures. The twentieth lane of each cell, left
    over by the 19 populations, carries the cell's flag.
- `GPUComputationRendererMRT` is the double-buffered compute scheduler.
  - Each compute variable owns two multi-render-target render targets.
  - `init` allocates each variable's render targets and fills them from
    the variable's initial textures. It then checks the variable's
    dependencies and binds their output textures as uniforms of the
    variable's material.
  - `compute` draws every variable from the current render targets into
    the alternate ones and then flips the index.

How the model is built:

- **Reals instead of floats.** Physical and lattice quantities are `real`,
  so the algebra (weights, moments, unit round trips) is exact. The
  grid's floors are taken of exact quotients too, which can differ from
  the source's double-precision floors (see "## Left out").
- **Array-filling loops stay imperative.** The lattice is filled in
  place by methods over arrays, exactly as the source's loops fill
  `Float32Array`s.
- **The GPU is opaque.**
  - A render target is an object holding its textures.
  - A texture is an object with a name.
  - Every full-screen draw is appended to a log `passes`. The log records
    the program, the textures bound to it and the render target it
    writes.
- **The renderer is a class.**
  - The mutable state of `GPUComputationRendererMRT` is the variable
    list, the current index, the pass-through uniforms and the draw log.
  - Each variable's render targets and each material's uniform table
    are updated in place, as in the source.
- **`init`'s outcome is described per variable.** `InitOrder` describes
  the outcome as a function of what `init` finds:
  - which variable fails first;
  - whether it fails with the error string or with an exception.

  `ComputeRenderer.GPUComputationRendererMRT.Init` is proved to end with
  that outcome. `InitAllocatingFirst`, beside it, is `init` with the
  correction described under "Findings", proved to end with the corrected
  outcome.

Modules: `D3Q19` (tables and equilibrium), `Layout` (cell and texel
indexing), `Units` (grid and unit conversion), `CavitySetup` (the lattice
set-up), `Bindings` (uniform binding and dependency validation),
`InitOrder` (the outcome of `init`), `ComputeRenderer` (the renderer).

## Model

| member | source | states |
|---|---|---|
| D3Q19.InvIsOpposite | GPGPUUtils_LBM.js:68 | `inv` is an involution fixing only the rest direction; it reverses each of `dirx`, `diry`, `dirz` and preserves the weight |
| D3Q19.WeightsFollowLength | GPGPUUtils_LBM.js:69-72 | the weight of a direction is `w0`, `wa` or `wd` exactly as its squared length is 0, 1 or 2; directions 1..6 are exactly those of length 1 |
| D3Q19.WeightsSumToOne | GPGPUUtils_LBM.js:69-72 | the 19 weights sum to 1 |
| D3Q19.EquilibriumAtRest | GPGPUUtils_LBM.js:345-346 | at zero velocity the equilibrium of each direction is its weight times the density |
| D3Q19.OppositeDifference | GPGPUUtils_LBM.js:345-346 | the equilibria of opposite directions differ by 6 w rho (c·u) |
| D3Q19.OppositeSum | GPGPUUtils_LBM.js:345-346 | the equilibria of opposite directions sum to 2 w rho (1 + 4.5 (c·u)^2 − 1.5 u^2) |
| D3Q19.EquilibriumMomentum | GPGPUUtils_LBM.js:344-346 | the first moments of the equilibrium are rho·ux, rho·uy, rho·uz |
| D3Q19.EquilibriumMass | GPGPUUtils_LBM.js:344-346 | the equilibrium populations of a cell sum to its density |
| Layout.Idx1DInRange | GPGPUUtils_LBM.js:271 | `z*slice + y*NX + x` of a grid cell lies in 0 .. NX·NY·NZ−1 |
| Layout.CellOfIdx1D | GPGPUUtils_LBM.js:271 | decoding the linear index of a grid cell gives back the cell |
| Layout.Idx1DOfCell | GPGPUUtils_LBM.js:271 | every index in 0 .. NX·NY·NZ−1 decodes to a grid cell whose linear index is that index, so the three fill loops visit every array slot once |
| Layout.UvIdxFlattens | GPGPUUtils_LBM.js:369-373 | texel (u, v) of a cell, read row-major over rows of NX, is the cell's linear index |
| Layout.UvIdxInRange | GPGPUUtils_LBM.js:369-373 | a grid cell's texel lies in the NX × (NY·NZ) texture |
| Layout.UvIdxInjective | GPGPUUtils_LBM.js:369-373 | distinct grid cells have distinct texels |
| Layout.UvIdxOnto | GPGPUUtils_LBM.js:369-373 | every texel of the NX × (NY·NZ) texture is the texel of a grid cell |
| Layout.RawOffsetsFollowDirections | GPGPUUtils_LBM.js:61-62 | `rawEu[i]` is `dirx[i]` and `rawEv[i]` is `diry[i] + NY·dirz[i]` for every direction |
| Layout.NeighbourTexel | GPGPUUtils_LBM.js:61-62 | the texel of the neighbour in direction i is the cell's texel shifted by (`rawEu[i]`, `rawEv[i]`) |
| Units.DeriveGrid | GPGPUUtils_LBM.js:26-30 | `dx_phys·NX == Lx`; NY and NZ are the floors of Ly/dx and Lz/dx (NY·dx ≤ Ly < (NY+1)·dx); cells == NX·NY·NZ |
| Units.RelaxationOf | GPGPUUtils_LBM.js:49-52 | tau > 1/2, tau·omega == 1, the lattice viscosity is (tau − 1/2)/3, and the two complements of omega |
| Units.ChosenRelaxation | GPGPUUtils_LBM.js:48-52 | for `nu_lbm` = 0.1: tau 0.8, omega 1.25, `omtauinv` −0.25, `omtauinv_2` 0.375 |
| Units.TimeStep | GPGPUUtils_LBM.js:192 | the physical time step is positive and satisfies dt·nu_phys == nu_lbm·dx^2 |
| Units.ToLattice | GPGPUUtils_LBM.js:192-216 | lattice velocity times dx is physical velocity times dt, lattice gravity times dx is physical gravity times dt^2, and rho0 is 1 |
| Units.VelocityRoundTrip | GPGPUUtils_LBM.js:203-205 | the lattice velocity times dx is the velocity times dt, and for dt > 0 converting it back (times dx, divided by dt) gives the velocity again |
| Units.GravityRoundTrip | GPGPUUtils_LBM.js:207-209 | the lattice gravity times dx is the gravity times dt², and for dt > 0 converting it back (times dx, divided by dt twice) gives the gravity again |
| Units.DefaultScene | main.js:71-74 | the 0.5 m box with NX = 64 gives a 64×64×64 grid of 262144 cells with dx = 1/128 m and dt = 625/1536 s |
| CavitySetup.CellFlag | GPGPUUtils_LBM.js:274-283 | the flag is 2 exactly on the top layer, 1 exactly on the other boundary cells, and 0 exactly on the interior |
| CavitySetup.SlotsPartition | GPGPUUtils_LBM.js:348-355 | the if-chain sends the 19 directions to distinct (texture, lane) slots; the only slot left free is lane 3 of the fifth texture, which holds the flag |
| CavitySetup.SlotIsDivMod | GPGPUUtils_LBM.js:348-352 | direction i goes to texture i div 4, lane i mod 4 |
| CavitySetup.WriteCellMacros | GPGPUUtils_LBM.js:304-321 | a lid cell gets the inlet velocity and any other cell zero, in `ux`, `vy`, `wz` and lanes 0..2 of `dataMacro`; both get rho0 in `rho` and lane 3; nothing else changes |
| CavitySetup.LanesFollowSlots | GPGPUUtils_LBM.js:348-355 | the four lanes of texture b of a cell hold the populations the if-chain writes there, and lane 3 of the fifth the flag |
| CavitySetup.BankHoldsCells | GPGPUUtils_LBM.js:336-355 | in the packed texture of every cell k, population i is at `4k + (i mod 4)` of texture i div 4 and the flag at `4k + 3` of the fifth |
| CavitySetup.StartBankHolds | GPGPUUtils_LBM.js:336-355 | the packed start textures hold, for every cell, the equilibrium of rho0 and its start velocity, and its flag |
| CavitySetup.StartFieldsPack | GPGPUUtils_LBM.js:218-236 | the fields `init_solid` and `init_macros` leave give exactly the start populations and flags that `init_equilibrium` packs |
| CavitySetup.WriteCellPopulations | GPGPUUtils_LBM.js:344-353 | the 19 populations of one cell land in their four-lane slots of the five textures, lane 3 of the fifth and all earlier texels unchanged |
| CavitySetup.PackCell | GPGPUUtils_LBM.js:336-355 | one cell step extends the packed prefix of the five textures by that cell |
| CavitySetup.PackRow | GPGPUUtils_LBM.js:334-357 | the x loop extends the packed prefix by one row of NX cells |
| CavitySetup.PackSlice | GPGPUUtils_LBM.js:333-358 | the y loop extends the packed prefix by one slice of NY·NX cells |
| CavitySetup.LatticeUtils.constructor | GPGPUUtils_LBM.js:8-80 | the grid follows `DeriveGrid`, the relaxation constants follow `RelaxationOf(0.1)`, the lattice units follow `ToLattice`, and the five textures are populated |
| CavitySetup.LatticeUtils.SetupGridDataCavity | GPGPUUtils_LBM.js:145-259 | the lattice units follow `ToLattice`, and the five textures hold the start populations and flags of every cell |
| CavitySetup.LatticeUtils.ConvertUnits | GPGPUUtils_LBM.js:192-216 | `dt_phys`, the lattice lid velocity, gravity and rho0 are those of `ToLattice` |
| CavitySetup.LatticeUtils.FillCavity | GPGPUUtils_LBM.js:218-236 | the five population arrays end as the packed start textures |
| CavitySetup.LatticeUtils.StartFields | GPGPUUtils_LBM.js:218-229 | every cell gets its flag, its start velocity and rho0 |
| CavitySetup.LatticeUtils.InitSolid | GPGPUUtils_LBM.js:261-289 | every slot k of `solid` holds the flag of the cell with linear index k |
| CavitySetup.LatticeUtils.InitMacros | GPGPUUtils_LBM.js:291-326 | every cell's velocity, density and `dataMacro` texel hold the lid or zero velocity and rho0 |
| CavitySetup.LatticeUtils.InitEquilibrium | GPGPUUtils_LBM.js:328-361 | each of the five arrays ends as the packed texture of the equilibria of the given fields and the flag lane |
| Bindings.BindTexturesKeys | GPUComputationRendererMRT.js:319-327 | binding textures adds exactly their names to the uniform table and leaves every other key alone |
| Bindings.BindTexturesHolds | GPUComputationRendererMRT.js:319-327 | each texture no later texture shadows is bound under its name, and every bound name holds a texture of that name |
| Bindings.BindDepsOk | GPUComputationRendererMRT.js:283-331 | the dependency loop succeeds exactly when no dependency is missing or blocked, and then binds every dependency's outputs in order |
| Bindings.BindDepsError | GPUComputationRendererMRT.js:305-309 | an error string names the variable and a dependency that is neither the variable nor registered |
| Bindings.BindDepsKeeps | GPUComputationRendererMRT.js:319-327 | whatever its outcome, the dependency loop never removes a uniform |
| InitOrder.Scan | GPUComputationRendererMRT.js:204-344 | the scan stops at a position in range, and succeeds exactly when it passes every variable |
| InitOrder.VarOutcomeMeans | GPUComputationRendererMRT.js:283-331 | one variable's check succeeds exactly when none of its dependencies fails; an error names a missing dependency |
| InitOrder.ScanMeans | GPUComputationRendererMRT.js:204-344 | `init`'s loop succeeds exactly when no dependency of any variable fails, and otherwise ends with the outcome of the first failing variable |
| InitOrder.InitErrorNamesMissing | GPUComputationRendererMRT.js:305-309 | an error from `init` names a variable and a dependency of it that is neither itself nor registered |
| InitOrder.NoMissingNoError | GPUComputationRendererMRT.js:289-311 | when every dependency is the variable itself or a registered name, `init` never returns the error string |
| InitOrder.AsWrittenBackwardOk | GPUComputationRendererMRT.js:204-344 | as written, `init` succeeds when every dependency is the variable itself or a variable registered before it |
| InitOrder.CorrectedRegisteredOk | GPUComputationRendererMRT.js:204-344 | with every render target allocated first, `init` succeeds whenever every dependency is registered |
| InitOrder.CorrectedNoWorse | GPUComputationRendererMRT.js:204-344 | allocating first never turns a success into a failure |
| InitOrder.BindDepsMatches | GPUComputationRendererMRT.js:313-327 | the dependency loop over the render targets dependencies actually hold ends as the per-variable outcome says |
| InitOrder.ForwardDependencyThrows | GPUComputationRendererMRT.js:316-320 | a variable depending on one registered after it throws on a first `init` as written, and succeeds with allocation first |
| ComputeRenderer.GPUComputationRendererMRT.constructor | GPUComputationRendererMRT.js:111-127 | no variables, index 0, pass-through slots `null`, nothing drawn |
| ComputeRenderer.GPUComputationRendererMRT.AddVariable | GPUComputationRendererMRT.js:155-177 | one new variable at the end of the list with its own fresh material, `null` dependencies, no render targets and count = number of attachments; earlier variables stay |
| ComputeRenderer.GPUComputationRendererMRT.SetVariableDependencies | GPUComputationRendererMRT.js:185-189 | replaces the variable's dependency list and nothing else |
| ComputeRenderer.GPUComputationRendererMRT.GetCurrentRenderTarget | GPUComputationRendererMRT.js:406-410 | the render target at the current index, `undefined` when the variable holds none there |
| ComputeRenderer.GPUComputationRendererMRT.GetAlternateRenderTarget | GPUComputationRendererMRT.js:418-422 | the render target at the other index, `undefined` when the variable holds none there |
| ComputeRenderer.GPUComputationRendererMRT.CreateRenderTarget | GPUComputationRendererMRT.js:499-539 | a fresh render target, size 0 falling back to the renderer's size; for count > 1, count fresh textures named after the attachments, otherwise one fresh texture named "" |
| ComputeRenderer.GPUComputationRendererMRT.RenderTexture | GPUComputationRendererMRT.js:561-579 | exactly one pass-through draw into output, slots 0..4 holding input[0..4] (`undefined` past its end) and slot 5 `null`; afterwards all slots are `null` again |
| ComputeRenderer.GPUComputationRendererMRT.BindOutputs | GPUComputationRendererMRT.js:319-327 | binds the first count textures of the render target under their names; throws with no render target, or after binding all textures when there are fewer than count |
| ComputeRenderer.GPUComputationRendererMRT.IsRegistered | GPUComputationRendererMRT.js:292-303 | found exactly when some registered variable has that name |
| ComputeRenderer.GPUComputationRendererMRT.BindDependencies | GPUComputationRendererMRT.js:283-342 | outcome and uniform table are those of `BindDeps` over the dependencies' render targets at the current index |
| ComputeRenderer.GPUComputationRendererMRT.RebindDependencies | GPUComputationRendererMRT.js:365-389 | the uniform table becomes the old table with every dependency's outputs at the index bound in order |
| ComputeRenderer.GPUComputationRendererMRT.DrawVariable | GPUComputationRendererMRT.js:362-392 | rebinds the variable's uniforms and appends exactly its compute draw |
| ComputeRenderer.GPUComputationRendererMRT.DrawAll | GPUComputationRendererMRT.js:360-394 | every variable, in list order, gets its rebound table and one draw into its render target at the next index |
| ComputeRenderer.GPUComputationRendererMRT.DrawStep | GPUComputationRendererMRT.js:360-394 | one pass of the draw loop: variable i draws its planned pass and holds its rebound table, the earlier variables keep theirs and the later ones still hold their old tables |
| ComputeRenderer.GPUComputationRendererMRT.DrawPasses | GPUComputationRendererMRT.js:357-394 | the log grows by exactly one compute draw per variable in list order, each writing the alternate render target with the current outputs of its dependencies bound |
| ComputeRenderer.GPUComputationRendererMRT.Flip | GPUComputationRendererMRT.js:396 | the index flips, so each variable's current render target is its old alternate one; nothing else changes |
| ComputeRenderer.GPUComputationRendererMRT.Compute | GPUComputationRendererMRT.js:355-398 | one draw per variable in order, from the current into the alternate render targets, then the index flips: the new current render target of every variable is the one just written |
| ComputeRenderer.GPUComputationRendererMRT.Allocate | GPUComputationRendererMRT.js:216-232 | the variable gets two distinct fresh render targets with a texture per output, each filled by one pass-through draw of its initial textures |
| ComputeRenderer.GPUComputationRendererMRT.InitVariable | GPUComputationRendererMRT.js:206-342 | one pass of `init`'s loop: two fresh render targets with their copies, then the dependency check, ending as the dependencies' views say, with the variable's uniform table the one its dependency loop leaves on the dependencies at the current index |
| ComputeRenderer.GPUComputationRendererMRT.InitLoop | GPUComputationRendererMRT.js:204-344 | the loop stops at the first failing variable, with its outcome, or after the last; every variable it reached holds new render targets, its copies are logged and its uniform table is the one its dependency loop leaves on the dependencies as found then (`WrittenTables`); later variables keep their render targets and tables |
| ComputeRenderer.GPUComputationRendererMRT.ResetIndex | GPUComputationRendererMRT.js:346 | only a loop that ends without failure resets the index to 0 |
| ComputeRenderer.GPUComputationRendererMRT.Init | GPUComputationRendererMRT.js:196-350 | returns the capability error when `maxVertexTextures` is 0; otherwise it ends with `InitOutcome(views, false)`. The variables up to the failing one hold new render targets filled by two copies each, the others keep theirs; each reached variable's uniform table is the one its dependency loop leaves on its dependencies as found then, the others keep theirs (`TablesAt`); the index is 0 exactly after a success |
| Bindings.BindDepsOutcome | GPUComputationRendererMRT.js:283-331 | the outcome of the dependency loop does not depend on the uniforms bound before it |
| ComputeRenderer.GPUComputationRendererMRT.AllocateAll | GPUComputationRendererMRT.js:216-232 | corrected `init`, first loop: every variable gets two distinct render targets with a texture per output, and the log grows by their copies in list order |
| ComputeRenderer.GPUComputationRendererMRT.DepsMatchAll | GPUComputationRendererMRT.js:313-327 | once every variable holds its render targets, a variable's dependency loop ends as the per-variable outcome with allocation first says |
| ComputeRenderer.GPUComputationRendererMRT.BindAll | GPUComputationRendererMRT.js:283-342 | corrected `init`, second loop: it stops at the first failing variable, with its outcome, or after the last; every variable reached has the uniform table its dependency loop leaves (`BoundTables`), the others keep theirs, and no render target or drawn pass changes |
| ComputeRenderer.GPUComputationRendererMRT.RegisteredDepsSucceed | GPUComputationRendererMRT.js:204-344 | with allocation first, `init` succeeds whenever every dependency of every variable is a registered variable |
| ComputeRenderer.GPUComputationRendererMRT.InitAllocatingFirst | GPUComputationRendererMRT.js:196-350 | corrected `init`: the capability error when `maxVertexTextures` is 0; otherwise it ends with `InitOutcome(views, true)`, every variable holds new render targets filled by two copies each, the variables up to the failing one have the tables their dependency loops leave on all render targets allocated (`BoundTables` over `FoundAll`), the others keep theirs, and the index is 0 exactly after a success |
| ComputeRenderer.OtherTwice | GPUComputationRendererMRT.js:358-396 | the alternate index differs from the current one, and two flips restore the index |
| ComputeRenderer.GPUComputationRendererMRT.CurrentNotAlternate | GPUComputationRendererMRT.js:406-422 | for a variable holding its render targets, the current and alternate render targets both exist and are distinct |
| ComputeRenderer.UpdatedAt | GPUComputationRendererMRT.js:319-327 | after the first n variables bind, table j is its new one when j < n and its old one otherwise |
| ComputeRenderer.WrittenTablesMean | GPUComputationRendererMRT.js:313-327 | a table `init` as written leaves keeps every uniform it had, and when every dependency as found is registered and has render targets it is the old table with their outputs bound in order |
| ComputeRenderer.BoundTablesMean | GPUComputationRendererMRT.js:313-327 | the same for the corrected `init`: no uniform lost, and every dependency's outputs bound in order when all of them are registered and allocated |
| ComputeRenderer.WrittenTablesGrow | GPUComputationRendererMRT.js:204-344 | a later pass of the loop adds its variable's table and changes none of the earlier variables' tables |
| ComputeRenderer.UpdatedBefore | GPUComputationRendererMRT.js:204-344 | variables the loop has not reached keep their tables |
| ComputeRenderer.GPUComputationRendererMRT.InitStep | GPUComputationRendererMRT.js:206-342 | one pass keeps the loop's state one variable on, binds that variable's table from its dependency loop and changes no other material's table |
| ComputeRenderer.GPUComputationRendererMRT.InitPass | GPUComputationRendererMRT.js:206-342 | one pass gives the outcome the variable's dependencies decide and keeps the loop's state and tables (`WrittenTables`) one variable on |
| ComputeRenderer.GPUComputationRendererMRT.LoopExit | GPUComputationRendererMRT.js:204-344 | where the loop stops is the first failure, and there the reached variables hold their new render targets and tables (`TablesAt`) and the others hold what they held |
| ComputeRenderer.GPUComputationRendererMRT.InitVariables | GPUComputationRendererMRT.js:204-344 | `init` after its capability check: the as-written outcome, the new render targets, the logged copies and the tables (`TablesAt`) |
| ComputeRenderer.GPUComputationRendererMRT.BindStep | GPUComputationRendererMRT.js:283-331 | one pass of the second loop gives the variable's planned outcome and table and changes no other material's table |
| ComputeRenderer.GPUComputationRendererMRT.BindPass | GPUComputationRendererMRT.js:283-331 | one pass of the second loop keeps the tables so far equal to `BoundTables` one variable on |
| InitOrder.FirstFailureIs | GPUComputationRendererMRT.js:204-344 | when the outcomes from k up to f are Ok and the one at f is not (or f is the end), the first failure from k is that outcome at f |
| ComputeRenderer.LoopStop | GPUComputationRendererMRT.js:204-344 | a loop that has run to outcome r after n passes, every earlier one Ok, and stopped stands at the first failure among the outcomes |
| ComputeRenderer.GPUComputationRendererMRT.BindExit | GPUComputationRendererMRT.js:283-342 | where the second loop stops is the first failure, and the reached variables have the tables of `BoundTables` |
| ComputeRenderer.GPUComputationRendererMRT.AllocatePlanned | GPUComputationRendererMRT.js:216-232 | the first loop leaves every variable holding its render targets, tables unchanged, and the dependencies as the second loop will find them (`FoundAll`) |
| ComputeRenderer.GPUComputationRendererMRT.BindFound | GPUComputationRendererMRT.js:283-342 | corrected `init`, second loop run to its end: the outcome and stopping point are the first failure among the outcomes, the render targets and drawn copies stay, and the tables up to there are those of `BoundTables` |
| ComputeRenderer.GPUComputationRendererMRT.AllocateThenBind | GPUComputationRendererMRT.js:204-344 | corrected `init` after its capability check: the allocate-first outcome, every variable's render targets and the tables of `BoundTables` over `FoundAll` |
| ComputeRenderer.GPUComputationRendererMRT.InitAllocated | GPUComputationRendererMRT.js:204-350 | the same, and the index is 0 exactly after a success |

## Left out

- Float32 storage: every `Float32Array` value is an exact `real`. The
  normalised offsets `eu`, `ev` (`rawEu / NX`, `rawEv / (NY·NZ)`) and
  `xyz_to_uv` are float scalings of `rawEu`, `rawEv` and `xyz_to_uv_idx`,
  which are modelled.
- WebGL: `WebGLRenderTarget`, `DataTexture`, wrap and filter modes, the
  data type, `setDataType`, `addResolutionDefine`, `createShaderMaterial`,
  `createTexture`, `doRenderTarget`'s renderer state, `dispose`, and
  `readRenderTargetPixelsMRT`. Draws are logged instead.
- GLSL: the pass-through and compute shaders are opaque strings, and the
  collision and streaming kernel does not run.
- `init`'s prefixing of `uniform sampler2D <name>;` to a material's
  fragment shader (GPUComputationRendererMRT.js:338) is not modelled.
  `Material.fragmentShader` is constant, and a compute draw records the
  shader as `addVariable` set it.
- The unused locals of `setupGridDataCavity`: the inlet speed and the
  inlet and outlet ratios.
- `setupVelocitiesData` and the tracer fields, which the cavity does not
  use.
- GPGPU_LBM.js and main.js, apart from the default box size in
  `Units.DefaultScene`.
- ComputeRenderer.GPUComputationRendererMRT.CreateRenderTarget requires
  at least count attachment names when count > 1. `init` always passes
  count equal to the number of attachments. A shorter list would name
  the extra textures `undefined`, which is not modelled.
- ComputeRenderer.GPUComputationRendererMRT.Compute requires that every
  variable holds its two render targets and that every dependency is
  unblocked. Without that, a dependency with no render target makes
  `rt.textures` throw at GPUComputationRendererMRT.js:378, part-way
  through the loop; the partial draw log of that throw is not modelled.
  A variable without render targets of its own passes `undefined` to
  `doRenderTarget` (line 391); what drawing into it does is three.js
  behaviour, which the model does not cover.
- CavitySetup.LatticeUtils.constructor requires NX > 0, Lx > 0 and
  Ly, Lz ≥ 0. The source divides by NX and takes floors; outside that
  range it produces NaN or Infinity, or, for Ly < 0 or Lz < 0, a
  negative NY or NZ. A negative or infinite `cells` then makes
  `new Uint8Array(cells)` throw a RangeError in `setupGridDataCavity`
  (GPGPUUtils_LBM.js:151). None of this is modelled.
- Units.DeriveGrid floors the exact quotient Ly/dx (and Lz/dx), while the
  source floors a double-precision quotient (GPGPUUtils_LBM.js:26-28).
  The model's NY and NZ can therefore exceed the source's by one: for
  NX = 11 and Lx = Ly = 0.1 the double quotient is just below 11, so the
  source gets NY = 10 where the model gets 11. The default scene's inputs
  (0.5 m and NX = 64) are dyadic, so both agree there.
- InitOrder: a dependency list is read as empty when it is `null`, as
  the source's `!== null` test does. A dependency that is `undefined`
  (an array hole) is not modelled.

## Findings

| source | as written | input that shows it | evidently intended | confidence | as-written member | corrected member |
|---|---|---|---|---|---|---|
| GPUComputationRendererMRT.js:316-320 | `init` binds each dependency's output textures through `getCurrentRenderTarget` inside the same loop that allocates render targets. On a first `init`, a dependency registered after its consumer has no render target yet, so `rt.textures` throws. | `a` depends on `b` (one output), `b` registered after `a`, first `init`. The dependency shape of the header's own example (`velVar` depending on `posVar`, registered after it) is such a case once attachment names are passed; as printed, the example calls `addVariable` with three arguments and throws at line 170 (`attachments.length` of `undefined`) before `init`. | every render target exists before any dependency is bound, so that a dependency on any registered variable succeeds | medium, not executed | InitOrder.ForwardDependencyThrows | ComputeRenderer.GPUComputationRendererMRT.InitAllocatingFirst |

In `InitOrder`, `InitOutcome(vs, false)` is the outcome as written and
`InitOutcome(vs, true)` is the outcome with every render target allocated
first. `InitOrder.CorrectedRegisteredOk` proves that the corrected
outcome is a success whenever every dependency is registered, and
`InitOrder.CorrectedNoWorse` shows that the correction never breaks a
configuration that worked.
`ComputeRenderer.GPUComputationRendererMRT.Init` keeps the source's
behaviour, and its contract ties it to the as-written outcome.
`ComputeRenderer.GPUComputationRendererMRT.InitAllocatingFirst` is the
corrected `init`: it allocates and fills every variable's render targets
in a first loop and binds dependencies in a second. Its contract ties it
to the corrected outcome, and
`ComputeRenderer.GPUComputationRendererMRT.RegisteredDepsSucceed` carries
the success property over to the renderer's own variables.
