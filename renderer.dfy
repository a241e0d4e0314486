/** The double-buffered multi-render-target compute renderer
    `GPUComputationRendererMRT`. The GPU is opaque: a render target is a set
    of output textures, and a full-screen pass is recorded, with the
    program, the textures bound to it and the render target it writes, in
    the list `passes` of draws issued so far. */
module ComputeRenderer {
  import opened Bindings
  import opened InitOrder

  /** A render target: the textures one pass writes, one per output. */
  class RenderTarget {
    const width: int
    const height: int
    const textures: seq<Texture>

    constructor (width: int, height: int, textures: seq<Texture>)
      ensures this.width == width && this.height == height && this.textures == textures
    {
      this.width := width;
      this.height := height;
      this.textures := textures;
    }
  }

  /** A shader material: the compute program and its texture uniforms, by
      uniform name. */
  class Material {
    const fragmentShader: string
    var uniforms: map<string, Texture>

    constructor (fragmentShader: string)
      ensures this.fragmentShader == fragmentShader && uniforms == map[]
    {
      this.fragmentShader := fragmentShader;
      uniforms := map[];
    }
  }

  /** A compute variable: its name, the textures it starts from, its
      material, the names of its outputs, its dependencies (`null` is None)
      and its two render targets once `init` has run. */
  class Variable {
    const name: string
    const initialValueTexture: seq<Texture>
    const material: Material
    const attachments: seq<string>
    const count: nat := |attachments|
    var dependencies: Option<seq<Variable>>
    var renderTargets: seq<RenderTarget>

    constructor (name: string, initialValueTexture: seq<Texture>, material: Material, attachments: seq<string>)
      ensures this.name == name && this.initialValueTexture == initialValueTexture
      ensures this.material == material && this.attachments == attachments && count == |attachments|
      ensures dependencies == None && renderTargets == []
    {
      this.name := name;
      this.initialValueTexture := initialValueTexture;
      this.material := material;
      this.attachments := attachments;
      dependencies := None;
      renderTargets := [];
    }
  }

  /** The dependency list of v; `null` reads as empty. */
  function DepsOf(v: Variable): seq<Variable>
    reads v`dependencies
  {
    if v.dependencies.Some? then v.dependencies.value else []
  }

  /** The materials of the variables vs. */
  function MaterialsOf(vs: seq<Variable>): set<Material>
  {
    set v | v in vs :: v.material
  }

  /** The uniform table of each variable of vs. */
  ghost function TablesOf(vs: seq<Variable>): (r: seq<map<string, Texture>>)
    reads MaterialsOf(vs)`uniforms
    ensures |r| == |vs| && forall j {:trigger r[j]} :: 0 <= j < |vs| ==> r[j] == vs[j].material.uniforms
  {
    if vs == [] then [] else TablesOf(vs[..|vs| - 1]) + [vs[|vs| - 1].material.uniforms]
  }

  /** The dependency list of each variable of vs. */
  function DepListsOf(vs: seq<Variable>): (r: seq<seq<Variable>>)
    reads vs`dependencies
    ensures |r| == |vs| && forall j {:trigger r[j]} :: 0 <= j < |vs| ==> r[j] == DepsOf(vs[j])
  {
    if vs == [] then [] else DepListsOf(vs[..|vs| - 1]) + [DepsOf(vs[|vs| - 1])]
  }

  /** Where `init`'s loop stands: before variable i, over the variables
      with dependency lists deps whose members held rts0, which held init,
      having given render targets rts and drawn copies after log0. */
  datatype LoopPoint = LoopPoint(i: int, deps: seq<seq<Variable>>, rts0: seq<seq<seq<RenderTarget>>>,
                                 init: seq<seq<RenderTarget>>, rts: seq<seq<RenderTarget>>, log0: seq<Pass>)

  /** Two distinct render targets, each with a texture for each of count
      outputs. */
  predicate Pair(rts: seq<RenderTarget>, count: int)
  {
    |rts| == 2 && rts[0] != rts[1] && |rts[0].textures| >= count && |rts[1].textures| >= count
  }

  /** The variable holds two distinct render targets, each with a texture
      for every output. */
  predicate Holding(v: Variable)
    reads v`renderTargets
  {
    Pair(v.renderTargets, v.count)
  }

  /** The dependency d as binding finds it when it holds the render targets
      rts and reads render target index. */
  function DepWith(d: Variable, rts: seq<RenderTarget>, index: int): Dep
  {
    Dep(d.name, d.count, if 0 <= index < |rts| then Some(rts[index].textures) else None)
  }

  /** The dependency d as binding finds it when reading render target index. */
  function DepOf(d: Variable, index: int): Dep
    reads d`renderTargets
  {
    DepWith(d, d.renderTargets, index)
  }

  function DepsAt(ds: seq<Variable>, index: int): (r: seq<Dep>)
    reads ds
    ensures |r| == |ds| && forall k :: 0 <= k < |ds| ==> r[k] == DepOf(ds[k], index)
  {
    seq(|ds|, k requires 0 <= k < |ds| reads ds => DepOf(ds[k], index))
  }

  /** The position pos gives d, -1 when it gives none. */
  function PositionIn(pos: map<Variable, int>, d: Variable): int
  {
    if d in pos then pos[d] else -1
  }

  /** Value of one of the six pass-through uniforms: `null`, `undefined`
      (read past the end of the input list), or a texture. */
  datatype SlotValue = Null | Undefined | Holds(texture: Texture)

  /** A full-screen draw: a variable's compute program with its texture
      uniforms, or the pass-through program with its six slots, into a
      render target. */
  datatype Pass =
    | ComputePass(program: string, uniforms: map<string, Texture>, target: RenderTarget)
    | CopyPass(slots: seq<SlotValue>, target: RenderTarget)

  /** The six pass-through slots all `null`. */
  const Idle: seq<SlotValue> := [Null, Null, Null, Null, Null, Null]

  /** Pass-through slot k while input is rendered. */
  function InputSlot(input: seq<Texture>, k: int): SlotValue
  {
    if 0 <= k < |input| then Holds(input[k]) else Undefined
  }

  /** The six pass-through slots while input is rendered: the first five
      inputs, the sixth slot `null`. */
  function CopySlots(input: seq<Texture>): seq<SlotValue>
  {
    [InputSlot(input, 0), InputSlot(input, 1), InputSlot(input, 2), InputSlot(input, 3), InputSlot(input, 4), Null]
  }

  /** The two copies `init` draws for one variable. */
  function Copies(v: Variable): seq<Pass>
    reads v`renderTargets
    requires |v.renderTargets| == 2
  {
    [CopyPass(CopySlots(v.initialValueTexture), v.renderTargets[0]), CopyPass(CopySlots(v.initialValueTexture), v.renderTargets[1])]
  }

  /** How many of count variables `init` gives render targets to when it
      stops at f: those up to and including f. */
  function Reached(f: int, count: int): (r: int)
    ensures -1 <= f && 0 <= count ==> 0 <= r <= count
    ensures f < count ==> r == f + 1
  {
    if f < count then f + 1 else count
  }

  /** The log `init` leaves when it starts from log0 and draws, for each
      of the first |rts| variables of vs in turn, its initial texture into
      each of the two render targets rts gives it. */
  function LoggedCopies(log0: seq<Pass>, vs: seq<Variable>, rts: seq<seq<RenderTarget>>): seq<Pass>
    requires |rts| <= |vs| && forall j :: 0 <= j < |rts| ==> Pair(rts[j], vs[j].count)
    decreases |rts|
  {
    if rts == [] then log0
    else
      var n := |rts| - 1;
      assert Pair(rts[n], vs[n].count);
      LoggedCopies(log0, vs, rts[..n]) +
      [CopyPass(CopySlots(vs[n].initialValueTexture), rts[n][0]), CopyPass(CopySlots(vs[n].initialValueTexture), rts[n][1])]
  }

  /** Logging one more variable's render targets appends its two copies. */
  lemma LoggedCopiesSnoc(log0: seq<Pass>, vs: seq<Variable>, rts: seq<seq<RenderTarget>>, rt: seq<RenderTarget>)
    requires |rts| < |vs| && (forall j :: 0 <= j < |rts| ==> Pair(rts[j], vs[j].count)) && Pair(rt, vs[|rts|].count)
    ensures LoggedCopies(log0, vs, rts + [rt]) ==
            LoggedCopies(log0, vs, rts) + [CopyPass(CopySlots(vs[|rts|].initialValueTexture), rt[0]),
                                           CopyPass(CopySlots(vs[|rts|].initialValueTexture), rt[1])]
  {
    assert (rts + [rt])[..|rts|] == rts;
  }

  /** The render targets dependency d holds when variable j binds it in
      `init` as written: those rts records for it when it is registered at
      a position up to j, and otherwise those it held before, rt0. */
  function HeldWhenBound(pos: map<Variable, int>, d: Variable, rt0: seq<RenderTarget>, rts: seq<seq<RenderTarget>>, j: int): seq<RenderTarget>
    requires j < |rts|
  {
    var p := PositionIn(pos, d);
    if 0 <= p <= j then rts[p] else rt0
  }

  /** The dependencies ds of variable j, which held rts0 before `init`, as
      `init` as written finds them when j binds, reading render target
      index. */
  function FoundDeps(pos: map<Variable, int>, ds: seq<Variable>, rts0: seq<seq<RenderTarget>>, rts: seq<seq<RenderTarget>>,
                     j: int, index: int): (r: seq<Dep>)
    requires |rts0| == |ds| && j < |rts|
    ensures |r| == |ds|
    ensures forall k {:trigger r[k]} :: 0 <= k < |ds| ==> r[k] == DepWith(ds[k], HeldWhenBound(pos, ds[k], rts0[k], rts, j), index)
  {
    seq(|ds|, k requires 0 <= k < |ds| => DepWith(ds[k], HeldWhenBound(pos, ds[k], rts0[k], rts, j), index))
  }

  /** Render targets given to later variables do not change what variable
      j found. */
  lemma FoundDepsGrow(pos: map<Variable, int>, ds: seq<Variable>, rts0: seq<seq<RenderTarget>>, rts: seq<seq<RenderTarget>>,
                      x: seq<RenderTarget>, j: int, index: int)
    requires |rts0| == |ds| && j < |rts|
    ensures FoundDeps(pos, ds, rts0, rts + [x], j, index) == FoundDeps(pos, ds, rts0, rts, j, index)
  {
    var a, b := FoundDeps(pos, ds, rts0, rts + [x], j, index), FoundDeps(pos, ds, rts0, rts, j, index);
    forall k | 0 <= k < |ds|
      ensures a[k] == b[k]
    {
      assert HeldWhenBound(pos, ds[k], rts0[k], rts + [x], j) == HeldWhenBound(pos, ds[k], rts0[k], rts, j);
    }
  }

  /** The tables m0 once the first n of them have been replaced by those
      of tabs, one at a time in list order. */
  function Updated(m0: seq<map<string, Texture>>, tabs: seq<map<string, Texture>>, n: int): (r: seq<map<string, Texture>>)
    requires 0 <= n <= |m0| && n <= |tabs|
    ensures |r| == |m0|
  {
    if n == 0 then m0 else Updated(m0, tabs, n - 1)[n - 1 := tabs[n - 1]]
  }

  /** Updating the first n tables leaves every later one as it was. */
  lemma {:induction false} UpdatedBefore(m0: seq<map<string, Texture>>, tabs: seq<map<string, Texture>>, n: int, j: int)
    requires 0 <= n <= j < |m0| && n <= |tabs|
    ensures Updated(m0, tabs, n)[j] == m0[j]
  {
    if n > 0 {
      UpdatedBefore(m0, tabs, n - 1, j);
    }
  }

  /** Only the first n tables of tabs take part in updating n tables. */
  lemma {:induction false} UpdatedSnoc(m0: seq<map<string, Texture>>, tabs: seq<map<string, Texture>>,
                                       t: map<string, Texture>, n: int)
    requires 0 <= n <= |m0| && n <= |tabs|
    ensures Updated(m0, tabs + [t], n) == Updated(m0, tabs, n)
  {
    if n > 0 {
      UpdatedSnoc(m0, tabs, t, n - 1);
      assert (tabs + [t])[n - 1] == tabs[n - 1];
    }
  }

  /** rts0 records render targets for each dependency in the lists deps. */
  predicate Shaped(deps: seq<seq<Variable>>, rts0: seq<seq<seq<RenderTarget>>>)
  {
    |rts0| == |deps| && forall j :: 0 <= j < |deps| ==> |rts0[j]| == |deps[j]|
  }

  /** The tables the first |rts| of the variables vs, with names
      registered, which held tables m0, are left with once `init` as
      written has given them the render targets rts: each binds into m0[j]
      the dependencies deps[j] as it found them (FoundDeps). */
  function WrittenTables(m0: seq<map<string, Texture>>, vs: seq<Variable>, registered: set<string>, pos: map<Variable, int>,
                         deps: seq<seq<Variable>>, rts0: seq<seq<seq<RenderTarget>>>, rts: seq<seq<RenderTarget>>,
                         index: int): (r: seq<map<string, Texture>>)
    requires |m0| == |vs| == |deps| == |rts0| && |rts| <= |vs|
    requires Shaped(deps, rts0)
    ensures |r| == |rts|
  {
    seq(|rts|, j requires 0 <= j < |rts| =>
      BindDeps(vs[j].name, registered, FoundDeps(pos, deps[j], rts0[j], rts, j, index), m0[j]).1)
  }

  /** One more pass of `init`'s loop, which gives variable |rts| the render
      targets x, adds the table its dependency loop leaves and changes no
      earlier one. */
  lemma WrittenTablesGrow(m0: seq<map<string, Texture>>, vs: seq<Variable>, registered: set<string>, pos: map<Variable, int>,
                          deps: seq<seq<Variable>>, rts0: seq<seq<seq<RenderTarget>>>, rts: seq<seq<RenderTarget>>,
                          x: seq<RenderTarget>, index: int)
    requires |m0| == |vs| == |deps| == |rts0| && |rts| < |vs|
    requires Shaped(deps, rts0)
    ensures var i := |rts|;
            WrittenTables(m0, vs, registered, pos, deps, rts0, rts + [x], index) ==
            WrittenTables(m0, vs, registered, pos, deps, rts0, rts, index) +
              [BindDeps(vs[i].name, registered, FoundDeps(pos, deps[i], rts0[i], rts + [x], i, index), m0[i]).1]
  {
    forall j | 0 <= j < |rts|
      ensures FoundDeps(pos, deps[j], rts0[j], rts + [x], j, index) == FoundDeps(pos, deps[j], rts0[j], rts, j, index)
    {
      FoundDepsGrow(pos, deps[j], rts0[j], rts, x, j, index);
    }
  }

  /** The uniform tables of the variables vs, which held tables m0, once
      `init` as written has given render targets rts to the first |rts| of
      them: each of those holds the table its dependency loop left
      (WrittenTables); every later variable keeps m0[j]. */
  function TablesAt(m0: seq<map<string, Texture>>, vs: seq<Variable>, registered: set<string>, pos: map<Variable, int>,
                    deps: seq<seq<Variable>>, rts0: seq<seq<seq<RenderTarget>>>, rts: seq<seq<RenderTarget>>,
                    index: int): (r: seq<map<string, Texture>>)
    requires |m0| == |vs| == |deps| == |rts0| && |rts| <= |vs|
    requires Shaped(deps, rts0)
    ensures |r| == |vs|
  {
    Updated(m0, WrittenTables(m0, vs, registered, pos, deps, rts0, rts, index), |rts|)
  }

  /** Before `init`'s loop gives any render targets, every variable keeps
      its table. */
  lemma TablesAtStart(m0: seq<map<string, Texture>>, vs: seq<Variable>, registered: set<string>, pos: map<Variable, int>,
                      deps: seq<seq<Variable>>, rts0: seq<seq<seq<RenderTarget>>>, index: int)
    requires |m0| == |vs| == |deps| == |rts0|
    requires Shaped(deps, rts0)
    ensures TablesAt(m0, vs, registered, pos, deps, rts0, [], index) == m0
  {
  }

  /** The table each of the variables vs, with names registered, which
      held tables m0, is left with by its dependency loop over the
      dependencies dss[j] as found. */
  function BoundTables(m0: seq<map<string, Texture>>, vs: seq<Variable>, registered: set<string>,
                       dss: seq<seq<Dep>>): (r: seq<map<string, Texture>>)
    requires |m0| == |vs| == |dss|
    ensures |r| == |vs|
  {
    seq(|vs|, j requires 0 <= j < |vs| => BindDeps(vs[j].name, registered, dss[j], m0[j]).1)
  }

  /** The dependency lists deps, whose members held rts0 before `init`, as
      the second loop of `init` with every render target allocated first
      finds them once the variables hold rts, reading render target
      index: a registered dependency holds its new render targets. */
  function FoundAll(pos: map<Variable, int>, deps: seq<seq<Variable>>, rts0: seq<seq<seq<RenderTarget>>>,
                    rts: seq<seq<RenderTarget>>, index: int): (r: seq<seq<Dep>>)
    requires Shaped(deps, rts0)
    ensures |r| == |deps|
  {
    seq(|deps|, j requires 0 <= j < |deps| => FoundDeps(pos, deps[j], rts0[j], rts, |rts| - 1, index))
  }

  /** Updating the first n tables replaces table j by tabs[j] when j < n
      and keeps m0[j] otherwise. */
  lemma {:induction false} UpdatedAt(m0: seq<map<string, Texture>>, tabs: seq<map<string, Texture>>, n: int, j: int)
    requires 0 <= n <= |m0| && n <= |tabs| && 0 <= j < |m0|
    ensures Updated(m0, tabs, n)[j] == if j < n then tabs[j] else m0[j]
  {
    if n > 0 {
      UpdatedAt(m0, tabs, n - 1, j);
    }
  }

  /** The table variable j, among the first |rts| of the variables vs, is
      left with by `init` as written keeps every key of m0[j]; whenever
      every dependency, as found, is registered and has its render targets,
      it is m0[j] with their outputs bound under their names. */
  lemma WrittenTablesMean(m0: seq<map<string, Texture>>, vs: seq<Variable>, registered: set<string>, pos: map<Variable, int>,
                          deps: seq<seq<Variable>>, rts0: seq<seq<seq<RenderTarget>>>, rts: seq<seq<RenderTarget>>,
                          index: int, j: int)
    requires |m0| == |vs| == |deps| == |rts0| && |rts| <= |vs| && Shaped(deps, rts0) && 0 <= j < |rts|
    ensures var found := FoundDeps(pos, deps[j], rts0[j], rts, j, index);
            var t := WrittenTables(m0, vs, registered, pos, deps, rts0, rts, index)[j];
            m0[j].Keys <= t.Keys &&
            ((forall d :: d in found ==> !Missing(vs[j].name, registered, d) && !Blocked(d)) ==>
             t == BindTextures(m0[j], Bound(found)))
  {
    var found := FoundDeps(pos, deps[j], rts0[j], rts, j, index);
    BindDepsKeeps(vs[j].name, registered, found, m0[j]);
    BindDepsOk(vs[j].name, registered, found, m0[j]);
  }

  /** The table variable j of the variables vs is left with by the second
      loop of `init` with every render target allocated first keeps every
      key of m0[j]; whenever every dependency in dss[j] is registered and
      has its render targets, it is m0[j] with their outputs bound under
      their names. */
  lemma BoundTablesMean(m0: seq<map<string, Texture>>, vs: seq<Variable>, registered: set<string>, dss: seq<seq<Dep>>, j: int)
    requires |m0| == |vs| == |dss| && 0 <= j < |vs|
    ensures var t := BoundTables(m0, vs, registered, dss)[j];
            m0[j].Keys <= t.Keys &&
            ((forall d :: d in dss[j] ==> !Missing(vs[j].name, registered, d) && !Blocked(d)) ==>
             t == BindTextures(m0[j], Bound(dss[j])))
  {
    BindDepsKeeps(vs[j].name, registered, dss[j], m0[j]);
    BindDepsOk(vs[j].name, registered, dss[j], m0[j]);
  }

  /** A loop over the outcomes outs that has made n passes, the last of
      which gave r: every earlier pass gave Ok. */
  predicate RanUntil(outs: seq<InitResult>, n: int, r: InitResult)
  {
    0 <= n <= |outs| && (n == 0 ==> r == Ok) && (0 < n ==> outs[n - 1] == r) &&
    forall j :: 0 <= j < n - 1 ==> outs[j] == Ok
  }

  /** A pass for position i after passes that all gave Ok, giving r =
      outs[i]. */
  lemma LoopNext(outs: seq<InitResult>, i: int, r: InitResult)
    requires RanUntil(outs, i, Ok) && i < |outs| && r == outs[i]
    ensures RanUntil(outs, i + 1, r)
  {
  }

  /** A loop over the outcomes outs that stops after n passes, because the
      last gave a failure r or no outcome is left, stops at the first
      failure, having reached the positions up to and including it. */
  lemma LoopStop(outs: seq<InitResult>, n: int, r: InitResult)
    requires RanUntil(outs, n, r) && !(n < |outs| && r == Ok)
    ensures (r, if r == Ok then n else n - 1) == FirstFailure(outs, 0)
    ensures n == Reached(FirstFailure(outs, 0).1, |outs|)
  {
    if r == Ok {
      FirstFailureIs(outs, 0, n);
    } else {
      FirstFailureIs(outs, 0, n - 1);
    }
  }

  /** Extending a log by the next element of a plan. */
  lemma AppendNext<T>(log: seq<T>, plan: seq<T>, i: int)
    requires 0 <= i < |plan|
    ensures (log + plan[..i]) + [plan[i]] == log + plan[..i + 1]
  {
    assert plan[..i + 1] == plan[..i] + [plan[i]];
  }

  /** The index `compute` and `getAlternateRenderTarget` read next: 1 for
      0, and 0 otherwise. */
  function Other(index: int): int
  {
    if index == 0 then 1 else 0
  }

  /** Flipping the index twice, as two calls of `compute` do, restores
      it. */
  lemma OtherTwice(index: int)
    requires index == 0 || index == 1
    ensures Other(index) != index && Other(Other(index)) == index
  {
  }

  /** Every dependency of v holds, at index, a render target with all its
      outputs. */
  predicate Unblocked(v: Variable, index: int)
    reads v, DepsOf(v)
  {
    forall k :: 0 <= k < |DepsOf(v)| ==> !Blocked(DepOf(DepsOf(v)[k], index))
  }

  lemma UnblockedBound(v: Variable, index: int)
    requires Unblocked(v, index)
    ensures forall e :: e in DepsAt(DepsOf(v), index) ==> !Blocked(e)
  {
    var ds := DepsAt(DepsOf(v), index);
    forall e | e in ds
      ensures !Blocked(e)
    {
      var k :| 0 <= k < |ds| && ds[k] == e;
    }
  }

  /** The uniform table of v once the outputs of its dependencies at index
      are bound into it. */
  ghost function Rebound(v: Variable, index: int): map<string, Texture>
    reads v, v.material, DepsOf(v)
    requires Unblocked(v, index)
  {
    UnblockedBound(v, index);
    BindTextures(v.material.uniforms, Bound(DepsAt(DepsOf(v), index)))
  }

  /** The draw `compute` issues for v: its program, with the outputs of its
      dependencies at index bound, into the render target it holds at the
      other index. */
  ghost function PassOf(v: Variable, index: int): Pass
    reads v, v.material, DepsOf(v)
    requires |v.renderTargets| == 2 && Unblocked(v, index)
  {
    ComputePass(v.material.fragmentShader, Rebound(v, index), v.renderTargets[Other(index)])
  }

  /** The dependencies ds, holding the render targets rts, as `init` finds
      them before it starts, against the variable list vs and the index it
      reads. */
  function DepViewsOf(pos: map<Variable, int>, ds: seq<Variable>, rts: seq<seq<RenderTarget>>, index: int): (r: seq<DepView>)
    requires |rts| == |ds|
    ensures |r| == |ds|
    ensures forall k {:trigger r[k]} :: 0 <= k < |ds| ==>
              r[k] == DepView(ds[k].name, ds[k].count, PositionIn(pos, ds[k]), !Blocked(DepWith(ds[k], rts[k], index)))
  {
    if ds == [] then []
    else
      var n := |ds| - 1;
      DepViewsOf(pos, ds[..n], rts[..n], index) + [DepView(ds[n].name, ds[n].count, PositionIn(pos, ds[n]), !Blocked(DepWith(ds[n], rts[n], index)))]
  }

  /** The first |deps| variables of vs, with dependency lists deps whose
      members hold the render targets rts, as `init` finds them. */
  function ViewsOf(vs: seq<Variable>, pos: map<Variable, int>, deps: seq<seq<Variable>>, rts: seq<seq<seq<RenderTarget>>>, index: int): (r: seq<VarView>)
    requires |deps| == |rts| <= |vs| && forall j :: 0 <= j < |deps| ==> |rts[j]| == |deps[j]|
    ensures |r| == |deps|
    ensures forall j {:trigger r[j]} :: 0 <= j < |deps| ==> r[j] == VarView(vs[j].name, DepViewsOf(pos, deps[j], rts[j], index))
  {
    if deps == [] then []
    else
      var n := |deps| - 1;
      ViewsOf(vs, pos, deps[..n], rts[..n], index) + [VarView(vs[n].name, DepViewsOf(pos, deps[n], rts[n], index))]
  }

  /** The registered names of a view list are the names of its variables. */
  lemma RegisteredViewsOf(vs: seq<Variable>, pos: map<Variable, int>, deps: seq<seq<Variable>>, rts: seq<seq<seq<RenderTarget>>>, index: int)
    requires |deps| == |rts| == |vs| && forall j :: 0 <= j < |vs| ==> |rts[j]| == |deps[j]|
    ensures Registered(ViewsOf(vs, pos, deps, rts, index)) == set v | v in vs :: v.name
  {
    var views := ViewsOf(vs, pos, deps, rts, index);
    forall x
      ensures x in Registered(views) <==> x in set v | v in vs :: v.name
    {
      if x in Registered(views) {
        var w :| w in views && w.name == x;
        var j :| 0 <= j < |views| && views[j] == w;
        assert vs[j] in vs;
      }
      if x in set v | v in vs :: v.name {
        var u :| u in vs && u.name == x;
        var j :| 0 <= j < |vs| && vs[j] == u;
        assert views[j] in views;
      }
    }
  }

  /** What `init`'s loop relies on throughout, for the variables vs at
      positions pos with names names, reading render target index, with
      dependency lists deps whose members held rts0 and which held init:
      outs gives each variable's outcome as its dependencies find them, and
      a registered dependency held what its own entry of init says. */
  ghost predicate Plan(outs: seq<InitResult>, deps: seq<seq<Variable>>, rts0: seq<seq<seq<RenderTarget>>>,
                       init: seq<seq<RenderTarget>>, vs: seq<Variable>, pos: map<Variable, int>, names: set<string>, index: int)
  {
    |outs| == |deps| == |rts0| == |init| == |vs| &&
    (forall j {:trigger rts0[j]} :: 0 <= j < |vs| ==>
       |rts0[j]| == |deps[j]| && outs[j] == VarOutcome(vs[j].name, names, DepViewsOf(pos, deps[j], rts0[j], index), j + 1)) &&
    (forall j, k {:trigger deps[j][k]} :: 0 <= j < |vs| && 0 <= k < |deps[j]| && deps[j][k] in pos ==>
       0 <= pos[deps[j][k]] < |vs| && rts0[j][k] == init[pos[deps[j][k]]])
  }

  /** The outcome of variable j of the views of vs. */
  lemma ViewOutcome(vs: seq<Variable>, pos: map<Variable, int>, deps: seq<seq<Variable>>, rts0: seq<seq<seq<RenderTarget>>>,
                    index: int, j: int, allocatedFirst: bool)
    requires |deps| == |rts0| == |vs| && (forall i :: 0 <= i < |vs| ==> |rts0[i]| == |deps[i]|) && 0 <= j < |vs|
    ensures Outcomes(ViewsOf(vs, pos, deps, rts0, index), allocatedFirst)[j] ==
            VarOutcome(vs[j].name, Registered(ViewsOf(vs, pos, deps, rts0, index)), DepViewsOf(pos, deps[j], rts0[j], index),
                       if allocatedFirst then |vs| else j + 1)
  {
    var views := ViewsOf(vs, pos, deps, rts0, index);
    assert views[j] == VarView(vs[j].name, DepViewsOf(pos, deps[j], rts0[j], index));
  }

  /** The outcomes outs that Plan asks for exist, and their first failure
      is the view-level outcome of `init` with the allocation inside the
      loop. */
  lemma SetupPlan(vs: seq<Variable>, pos: map<Variable, int>, deps: seq<seq<Variable>>, rts0: seq<seq<seq<RenderTarget>>>,
                  init: seq<seq<RenderTarget>>, names: set<string>, index: int)
    returns (outs: seq<InitResult>)
    requires |deps| == |rts0| == |init| == |vs| && forall j :: 0 <= j < |vs| ==> |rts0[j]| == |deps[j]|
    requires names == Registered(ViewsOf(vs, pos, deps, rts0, index))
    requires forall j, k {:trigger deps[j][k]} :: 0 <= j < |vs| && 0 <= k < |deps[j]| && deps[j][k] in pos ==>
               0 <= pos[deps[j][k]] < |vs| && rts0[j][k] == init[pos[deps[j][k]]]
    ensures Plan(outs, deps, rts0, init, vs, pos, names, index)
    ensures FirstFailure(outs, 0) == InitOutcome(ViewsOf(vs, pos, deps, rts0, index), false)
  {
    var views := ViewsOf(vs, pos, deps, rts0, index);
    outs := Outcomes(views, false);
    ScanFirstFailure(views, 0, false);
    forall j | 0 <= j < |vs|
      ensures outs[j] == VarOutcome(vs[j].name, names, DepViewsOf(pos, deps[j], rts0[j], index), j + 1)
    {
      ViewOutcome(vs, pos, deps, rts0, index, j, false);
    }
  }

  /** What `init` with every render target allocated first relies on, for
      the variables vs at positions pos with names names, reading render
      target index, with dependency lists deps whose members held rts0:
      outs gives each variable's outcome once every variable holds its
      render targets. */
  ghost predicate PlanFirst(outs: seq<InitResult>, deps: seq<seq<Variable>>, rts0: seq<seq<seq<RenderTarget>>>,
                            vs: seq<Variable>, pos: map<Variable, int>, names: set<string>, index: int)
  {
    |outs| == |deps| == |rts0| == |vs| &&
    forall j {:trigger rts0[j]} :: 0 <= j < |vs| ==>
      |rts0[j]| == |deps[j]| && outs[j] == VarOutcome(vs[j].name, names, DepViewsOf(pos, deps[j], rts0[j], index), |vs|)
  }

  /** The outcomes outs that PlanFirst asks for exist, and their first
      failure is the outcome of `init` with every render target allocated
      first. */
  lemma SetupPlanFirst(vs: seq<Variable>, pos: map<Variable, int>, deps: seq<seq<Variable>>, rts0: seq<seq<seq<RenderTarget>>>,
                       names: set<string>, index: int)
    returns (outs: seq<InitResult>)
    requires |deps| == |rts0| == |vs| && forall j :: 0 <= j < |vs| ==> |rts0[j]| == |deps[j]|
    requires names == Registered(ViewsOf(vs, pos, deps, rts0, index))
    ensures PlanFirst(outs, deps, rts0, vs, pos, names, index)
    ensures FirstFailure(outs, 0) == InitOutcome(ViewsOf(vs, pos, deps, rts0, index), true)
  {
    var views := ViewsOf(vs, pos, deps, rts0, index);
    outs := Outcomes(views, true);
    ScanFirstFailure(views, 0, true);
    forall j | 0 <= j < |vs|
      ensures outs[j] == VarOutcome(vs[j].name, names, DepViewsOf(pos, deps[j], rts0[j], index), |vs|)
    {
      ViewOutcome(vs, pos, deps, rts0, index, j, true);
    }
  }

  class GPUComputationRendererMRT {
    const sizeX: int
    const sizeY: int
    /** `renderer.capabilities.maxVertexTextures` of the WebGL renderer. */
    const maxVertexTextures: int
    var variables: seq<Variable>
    var currentTextureIndex: int
    var passThru: seq<SlotValue>
    var passes: seq<Pass>
    /** The position of each variable, and of each variable's material, in
        the list: one entry each, so variables and materials are distinct. */
    ghost var position: map<Variable, int>
    ghost var materialPosition: map<Material, int>

    ghost predicate Valid()
      reads this`currentTextureIndex, this`passThru, this`variables, this`position, this`materialPosition
      reads variables`renderTargets
    {
      (currentTextureIndex == 0 || currentTextureIndex == 1) &&
      passThru == Idle &&
      (forall j :: 0 <= j < |variables| ==>
        variables[j] in position && position[variables[j]] == j &&
        variables[j].material in materialPosition && materialPosition[variables[j].material] == j &&
        (variables[j].renderTargets == [] || Holding(variables[j]))) &&
      (forall d :: d in position ==> 0 <= position[d] < |variables| && variables[position[d]] == d)
    }

    function Materials(): set<Material>
      reads this`variables
    {
      set v | v in variables :: v.material
    }

    ghost function DepObjects(): set<Variable>
      reads this`variables, variables`dependencies
    {
      set i, d | 0 <= i < |variables| && d in DepsOf(variables[i]) :: d
    }

    function RegisteredNames(): set<string>
      reads this`variables
    {
      set v | v in variables :: v.name
    }

    /** The uniform table of every variable's material. */
    ghost function Uniforms(): (r: seq<map<string, Texture>>)
      reads this`variables, Materials()`uniforms
      ensures |r| == |variables| && forall j {:trigger r[j]} :: 0 <= j < |variables| ==> r[j] == variables[j].material.uniforms
    {
      TablesOf(variables)
    }

    constructor (sizeX: int, sizeY: int, maxVertexTextures: int)
      ensures Valid() && fresh(this)
      ensures this.sizeX == sizeX && this.sizeY == sizeY && this.maxVertexTextures == maxVertexTextures
      ensures variables == [] && currentTextureIndex == 0 && passes == []
    {
      this.sizeX := sizeX;
      this.sizeY := sizeY;
      this.maxVertexTextures := maxVertexTextures;
      variables := [];
      currentTextureIndex := 0;
      passThru := Idle;
      passes := [];
      position := map[];
      materialPosition := map[];
    }

    /** `addVariable`: one new variable at the end of the list, with its own
        fresh material, no dependencies, no render targets, and one output
        per attachment name. */
    method AddVariable(variableName: string, computeFragmentShader: string, initialValueTexture: seq<Texture>,
                       attachments: seq<string>) returns (v: Variable)
      requires Valid()
      modifies this`variables, this`position, this`materialPosition
      ensures Valid()
      ensures variables == old(variables) + [v]
      ensures fresh(v) && fresh(v.material)
      ensures v.name == variableName && v.material.fragmentShader == computeFragmentShader && v.material.uniforms == map[]
      ensures v.initialValueTexture == initialValueTexture && v.attachments == attachments && v.count == |attachments|
      ensures v.dependencies == None && v.renderTargets == []
    {
      var material := new Material(computeFragmentShader);
      v := new Variable(variableName, initialValueTexture, material, attachments);
      variables := variables + [v];
      position := position[v := |variables| - 1];
      materialPosition := materialPosition[material := |variables| - 1];
    }

    /** `setVariableDependencies`: replaces the dependency list of v and
        nothing else. */
    method SetVariableDependencies(v: Variable, dependencies: Option<seq<Variable>>)
      requires Valid()
      modifies v`dependencies
      ensures Valid()
      ensures v.dependencies == dependencies
    {
      v.dependencies := dependencies;
    }

    /** `getCurrentRenderTarget`: the render target v holds at the current
        index (None, `undefined`, before `init`). */
    function GetCurrentRenderTarget(v: Variable): (rt: Option<RenderTarget>)
      reads this`currentTextureIndex, v`renderTargets
      ensures rt.Some? <==> 0 <= currentTextureIndex < |v.renderTargets|
      ensures rt.Some? ==> rt.value == v.renderTargets[currentTextureIndex]
    {
      if 0 <= currentTextureIndex < |v.renderTargets| then Some(v.renderTargets[currentTextureIndex]) else None
    }

    /** `getAlternateRenderTarget`: the render target v holds at the other
        index. */
    function GetAlternateRenderTarget(v: Variable): (rt: Option<RenderTarget>)
      reads this`currentTextureIndex, v`renderTargets
      ensures rt.Some? <==> Other(currentTextureIndex) < |v.renderTargets|
      ensures rt.Some? ==> rt.value == v.renderTargets[Other(currentTextureIndex)]
    {
      var other := Other(currentTextureIndex);
      if other < |v.renderTargets| then Some(v.renderTargets[other]) else None
    }

    /** A registered variable holding its render targets reads from one
        and draws into the other: the current and the alternate render
        targets are both there and are distinct. */
    lemma CurrentNotAlternate(v: Variable)
      requires Valid() && v in variables && Holding(v)
      ensures GetCurrentRenderTarget(v).Some? && GetAlternateRenderTarget(v).Some?
      ensures GetCurrentRenderTarget(v) != GetAlternateRenderTarget(v)
    {
      OtherTwice(currentTextureIndex);
    }

    /** `createRenderTarget`: a fresh render target of the given size (0
        falls back to the renderer's size) with, for count > 1, one fresh
        texture per output named after its attachment, and otherwise a
        single fresh texture with the default name "". */
    method CreateRenderTarget(sizeXTexture: int, sizeYTexture: int, attachments: seq<string>, count: int)
      returns (rt: RenderTarget)
      requires count <= 1 || count <= |attachments|
      ensures fresh(rt)
      ensures rt.width == (if sizeXTexture != 0 then sizeXTexture else sizeX)
      ensures rt.height == (if sizeYTexture != 0 then sizeYTexture else sizeY)
      ensures count > 1 ==> |rt.textures| == count && forall i :: 0 <= i < count ==> rt.textures[i].name == attachments[i]
      ensures count <= 1 ==> |rt.textures| == 1 && rt.textures[0].name == ""
      ensures forall t :: t in rt.textures ==> fresh(t)
    {
      var width := if sizeXTexture != 0 then sizeXTexture else sizeX;
      var height := if sizeYTexture != 0 then sizeYTexture else sizeY;
      if count > 1 {
        var textures: seq<Texture> := [];
        for i := 0 to count
          invariant |textures| == i
          invariant forall k :: 0 <= k < i ==> textures[k].name == attachments[k]
          invariant forall t :: t in textures ==> fresh(t)
        {
          var t := new Texture(attachments[i]);
          textures := textures + [t];
        }
        rt := new RenderTarget(width, height, textures);
      } else {
        var t := new Texture("");
        rt := new RenderTarget(width, height, [t]);
      }
    }

    /** `renderTexture`: binds input[0..4] to pass-through slots 0..4 (slot
        5 stays `null`), draws the pass-through program into output, and
        resets the slots to `null`. */
    method RenderTexture(input: seq<Texture>, output: RenderTarget)
      requires Valid()
      modifies this`passThru, this`passes
      ensures Valid()
      ensures passes == old(passes) + [CopyPass([InputSlot(input, 0), InputSlot(input, 1), InputSlot(input, 2),
                                                 InputSlot(input, 3), InputSlot(input, 4), Null], output)]
    {
      passThru := passThru[0 := InputSlot(input, 0)][1 := InputSlot(input, 1)][2 := InputSlot(input, 2)]
                          [3 := InputSlot(input, 3)][4 := InputSlot(input, 4)];
      assert passThru == [InputSlot(input, 0), InputSlot(input, 1), InputSlot(input, 2),
                          InputSlot(input, 3), InputSlot(input, 4), Null];
      passes := passes + [CopyPass(passThru, output)];
      passThru := passThru[0 := Null][1 := Null][2 := Null][3 := Null][4 := Null];
    }

    /** The inner texture loop of `init` and `compute` for one dependency:
        binds the first count textures of rt into material's uniforms. The
        loop throws when there is no render target, or when it runs past its
        textures. */
    method BindOutputs(material: Material, rt: Option<RenderTarget>, count: nat) returns (thrown: bool)
      modifies material`uniforms
      ensures rt.None? ==> thrown == (count > 0) && material.uniforms == old(material.uniforms)
      ensures rt.Some? && |rt.value.textures| < count ==>
                thrown && material.uniforms == BindTextures(old(material.uniforms), rt.value.textures)
      ensures rt.Some? && |rt.value.textures| >= count ==>
                !thrown && material.uniforms == BindTextures(old(material.uniforms), rt.value.textures[..count])
    {
      thrown := false;
      for i := 0 to count
        invariant rt.None? ==> i == 0 && material.uniforms == old(material.uniforms)
        invariant rt.Some? ==>
                    i <= |rt.value.textures| && material.uniforms == BindTextures(old(material.uniforms), rt.value.textures[..i])
      {
        if rt.None? {
          thrown := true;
          return;
        }
        if i >= |rt.value.textures| {
          assert rt.value.textures[..i] == rt.value.textures;
          thrown := true;
          return;
        }
        var tex := rt.value.textures[i];
        assert rt.value.textures[..i + 1][..i] == rt.value.textures[..i];
        material.uniforms := material.uniforms[tex.name := tex];
      }
    }

    /** The name search of `init`: whether some registered variable is
        called name. */
    method IsRegistered(name: string) returns (found: bool)
      ensures found <==> name in RegisteredNames()
    {
      found := false;
      var j := 0;
      while j < |variables|
        invariant 0 <= j <= |variables|
        invariant forall k :: 0 <= k < j ==> variables[k].name != name
      {
        if name == variables[j].name {
          found := true;
          assert variables[j] in variables;
          break;
        }
        j := j + 1;
      }
    }

    /** The dependency loop of `init` for variable v: validates each
        dependency's name and binds the outputs of the render target it holds
        at the current index, stopping at the first failure. */
    method BindDependencies(v: Variable) returns (r: InitResult)
      modifies v.material`uniforms
      ensures (r, v.material.uniforms) ==
              BindDeps(v.name, RegisteredNames(), DepsAt(DepsOf(v), currentTextureIndex), old(v.material.uniforms))
    {
      var deps := if v.dependencies.Some? then v.dependencies.value else [];
      ghost var ds := DepsAt(deps, currentTextureIndex);
      ghost var registered := RegisteredNames();
      ghost var full := BindDeps(v.name, registered, ds, v.material.uniforms);
      assert full == BindDeps(v.name, RegisteredNames(), DepsAt(DepsOf(v), currentTextureIndex), old(v.material.uniforms));
      for d := 0 to |deps|
        invariant full == BindDeps(v.name, registered, ds[d..], v.material.uniforms)
      {
        var depVar := deps[d];
        assert ds[d..][0] == DepOf(depVar, currentTextureIndex) && ds[d..][1..] == ds[d + 1..];
        if depVar.name != v.name {
          var found := IsRegistered(depVar.name);
          if !found {
            r := Error(DependencyMessage(v.name, depVar.name));
            assert full == (r, v.material.uniforms);
            return;
          }
        }
        var rt := GetCurrentRenderTarget(depVar);
        var thrown := BindOutputs(v.material, rt, depVar.count);
        if thrown {
          r := Thrown;
          assert full == (r, v.material.uniforms);
          return;
        }
      }
      assert ds[|deps|..] == [];
      r := Ok;
    }

    /** Every variable holds its two render targets, and every dependency
        has a render target with all its outputs at the current index. */
    ghost predicate ReadyToCompute()
      reads this, variables, DepObjects()
    {
      Valid() &&
      (forall i :: 0 <= i < |variables| ==> Holding(variables[i])) &&
      (forall i :: 0 <= i < |variables| ==>
        (DepObjectsHold(i); Unblocked(variables[i], currentTextureIndex)))
    }

    lemma DepObjectsHold(i: int)
      requires 0 <= i < |variables|
      ensures forall d :: d in DepsOf(variables[i]) ==> d in DepObjects()
    {
    }

    /** The passes one `compute` draws: each variable's program, with its
        dependencies' current outputs bound, into its alternate render target. */
    ghost function ComputePasses(): (ps: seq<Pass>)
      reads this, variables, Materials(), DepObjects()
      requires ReadyToCompute()
      ensures |ps| == |variables|
      ensures forall i :: 0 <= i < |variables| ==> ps[i] == PassOf(variables[i], currentTextureIndex)
    {
      seq(|variables|, i requires 0 <= i < |variables| && ReadyToCompute()
                         reads this, variables, Materials(), DepObjects() =>
        assert forall d :: d in DepsOf(variables[i]) ==> d in DepObjects();
        PassOf(variables[i], currentTextureIndex))
    }

    /** The dependency loop of `compute` for variable v: binds the outputs
        every dependency holds at index. */
    method RebindDependencies(v: Variable, index: int)
      requires Unblocked(v, index)
      modifies v.material`uniforms
      ensures v.material.uniforms == old(Rebound(v, index))
    {
      var deps := if v.dependencies.Some? then v.dependencies.value else [];
      ghost var ds := DepsAt(deps, index);
      UnblockedBound(v, index);
      for d := 0 to |deps|
        invariant v.material.uniforms == BindTextures(old(v.material.uniforms), Bound(ds[..d]))
      {
        var depVar := deps[d];
        var rt := if 0 <= index < |depVar.renderTargets| then Some(depVar.renderTargets[index]) else None;
        assert ds[d] == DepOf(depVar, index) && ds[d] in ds;
        var thrown := BindOutputs(v.material, rt, depVar.count);
        BindBoundStep(old(v.material.uniforms), ds, d);
      }
      assert ds[..|deps|] == ds;
    }

    /** The dependencies of every variable as binding finds them at index. */
    ghost function DepsSnapshot(index: int): (r: seq<seq<Dep>>)
      reads this, variables, DepObjects()
      requires ReadyToCompute() && index == currentTextureIndex
      ensures |r| == |variables|
      ensures forall j :: 0 <= j < |variables| ==> r[j] == DepsAt(DepsOf(variables[j]), index)
      ensures forall j, e :: 0 <= j < |variables| && e in r[j] ==> !Blocked(e)
    {
      var r := seq(|variables|, j requires 0 <= j < |variables| reads this, variables, DepObjects() =>
        assert forall d :: d in DepsOf(variables[j]) ==> d in DepObjects();
        DepsAt(DepsOf(variables[j]), index));
      assert forall j, e :: 0 <= j < |variables| && e in r[j] ==> !Blocked(e) by {
        forall j | 0 <= j < |variables|
          ensures forall e :: e in r[j] ==> !Blocked(e)
        {
          UnblockedBound(variables[j], index);
        }
      }
      r
    }

    /** One step of `compute`: binds the outputs ds of v's dependencies,
        then draws v's program into target, the draw want. */
    method DrawVariable(v: Variable, index: int, target: RenderTarget, ghost ds: seq<Dep>, ghost want: Pass)
      requires ds == DepsAt(DepsOf(v), index) && forall e :: e in ds ==> !Blocked(e)
      requires want == ComputePass(v.material.fragmentShader, BindTextures(v.material.uniforms, Bound(ds)), target)
      modifies this`passes, v.material`uniforms
      ensures v.material.uniforms == want.uniforms
      ensures passes == old(passes) + [want]
    {
      assert Unblocked(v, index) by {
        forall k | 0 <= k < |DepsOf(v)|
          ensures !Blocked(DepOf(DepsOf(v)[k], index))
        {
          assert ds[k] in ds;
        }
      }
      RebindDependencies(v, index);
      passes := passes + [ComputePass(v.material.fragmentShader, v.material.uniforms, target)];
    }

    /** What the loop of `compute` is given: distinct materials, two render
        targets per variable, each variable j with table tables[j] and the
        outputs dss[j] of its dependencies at current, none of them blocked,
        and the draw plan[j] it is to make into its render target at next. */
    ghost predicate DrawPlan(current: int, next: int, tables: seq<map<string, Texture>>, dss: seq<seq<Dep>>,
                             plan: seq<Pass>)
      reads *
    {
      (next == 0 || next == 1) &&
      (forall i, j :: 0 <= i < j < |variables| ==> variables[i].material != variables[j].material) &&
      (forall j :: 0 <= j < |variables| ==> |variables[j].renderTargets| == 2) &&
      |tables| == |dss| == |plan| == |variables| &&
      (forall j :: 0 <= j < |variables| ==> DepsAt(DepsOf(variables[j]), current) == dss[j]) &&
      (forall j, e :: 0 <= j < |variables| && e in dss[j] ==> !Blocked(e)) &&
      forall j :: 0 <= j < |variables| ==>
        plan[j] == ComputePass(variables[j].material.fragmentShader, BindTextures(tables[j], Bound(dss[j])),
                               variables[j].renderTargets[next])
    }

    /** The loop of `compute` after i draws from the log log0: the first i
        variables have drawn plan[..i] and hold its tables, the others still
        hold tables. */
    ghost predicate DrawnUpTo(i: int, tables: seq<map<string, Texture>>, plan: seq<Pass>, log0: seq<Pass>)
      reads *
    {
      0 <= i <= |variables| == |tables| == |plan| && passes == log0 + plan[..i] &&
      (forall j :: 0 <= j < i ==> plan[j].ComputePass? && variables[j].material.uniforms == plan[j].uniforms) &&
      forall j :: i <= j < |variables| ==> variables[j].material.uniforms == tables[j]
    }

    /** One pass of the loop of `compute`: variable i draws plan[i]. */
    method DrawStep(i: int, current: int, next: int, ghost tables: seq<map<string, Texture>>, ghost dss: seq<seq<Dep>>,
                    ghost plan: seq<Pass>, ghost log0: seq<Pass>)
      requires DrawPlan(current, next, tables, dss, plan) && DrawnUpTo(i, tables, plan, log0) && i < |variables|
      modifies this`passes, Materials()`uniforms
      ensures DrawnUpTo(i + 1, tables, plan, log0)
    {
      var v := variables[i];
      assert forall j :: 0 <= j < |variables| && j != i ==> variables[j].material != v.material;
      DrawVariable(v, current, v.renderTargets[next], dss[i], plan[i]);
      AppendNext(log0, plan, i);
    }

    /** The loop of `compute`: draws every variable in order, variable j
        with its table tables[j] rebound with the outputs dss[j] of its
        dependencies, into its render target at next. */
    method DrawAll(current: int, next: int, ghost tables: seq<map<string, Texture>>, ghost dss: seq<seq<Dep>>,
                   ghost plan: seq<Pass>)
      requires DrawPlan(current, next, tables, dss, plan)
      requires forall j :: 0 <= j < |variables| ==> variables[j].material.uniforms == tables[j]
      modifies this`passes, Materials()`uniforms
      ensures forall j :: 0 <= j < |variables| ==> variables[j].material.uniforms == plan[j].uniforms
      ensures passes == old(passes) + plan
    {
      ghost var log0 := passes;
      for i := 0 to |variables|
        invariant DrawPlan(current, next, tables, dss, plan) && DrawnUpTo(i, tables, plan, log0)
      {
        DrawStep(i, current, next, tables, dss, plan, log0);
      }
      assert plan[..|variables|] == plan;
    }

    /** The draws of `compute`: every variable, in order, binds its
        dependencies' outputs from the current render targets and draws into
        its alternate render target. */
    method DrawPasses()
      requires ReadyToCompute()
      modifies this`passes, Materials()`uniforms
      ensures Valid()
      ensures forall i :: 0 <= i < |variables| ==>
                variables[i].material.uniforms == old(Rebound(variables[i], currentTextureIndex))
      ensures passes == old(passes) + old(ComputePasses())
    {
      var current := currentTextureIndex;
      var next := Other(current);
      ghost var expected := ComputePasses();
      ghost var dss := DepsSnapshot(current);
      ghost var tables := seq(|variables|, j requires 0 <= j < |variables| reads this, variables, Materials() =>
                                variables[j].material.uniforms);
      DrawAll(current, next, tables, dss, expected);
    }

    /** The last step of `compute`: the current and the alternate render
        targets of every variable trade places, and nothing else changes. */
    method Flip()
      requires Valid()
      modifies this`currentTextureIndex
      ensures Valid() && currentTextureIndex == Other(old(currentTextureIndex))
      ensures forall v :: v in variables ==> GetCurrentRenderTarget(v) == old(GetAlternateRenderTarget(v))
      ensures variables == old(variables) && passes == old(passes)
      ensures forall i :: 0 <= i < |variables| ==> variables[i].material.uniforms == old(variables[i].material.uniforms)
    {
      currentTextureIndex := Other(currentTextureIndex);
    }

    /** `compute`: the draws, then the index flips, once. */
    method Compute()
      requires ReadyToCompute()
      modifies this`currentTextureIndex, this`passes, Materials()`uniforms
      ensures Valid()
      ensures currentTextureIndex == Other(old(currentTextureIndex))
      ensures forall v :: v in variables ==> GetCurrentRenderTarget(v) == old(GetAlternateRenderTarget(v))
      ensures forall i :: 0 <= i < |variables| ==>
                variables[i].material.uniforms == old(Rebound(variables[i], currentTextureIndex))
      ensures passes == old(passes) + old(ComputePasses())
    {
      DrawPasses();
      Flip();
    }

    /** The dependency list of every variable. */
    function DepLists(): (r: seq<seq<Variable>>)
      reads this`variables, variables`dependencies
      ensures |r| == |variables| && forall j {:trigger r[j]} :: 0 <= j < |variables| ==> r[j] == DepsOf(variables[j])
    {
      DepListsOf(variables)
    }

    /** The render targets every dependency of every variable holds. */
    ghost function DepTargets(): (r: seq<seq<seq<RenderTarget>>>)
      reads this, variables, DepObjects()
      ensures |r| == |variables|
      ensures forall j {:trigger r[j]} :: 0 <= j < |variables| ==> |r[j]| == |DepsOf(variables[j])|
      ensures forall j, k {:trigger r[j][k]} :: 0 <= j < |variables| && 0 <= k < |DepsOf(variables[j])| ==>
                r[j][k] == DepsOf(variables[j])[k].renderTargets
      ensures Shaped(DepLists(), r)
    {
      seq(|variables|, j requires 0 <= j < |variables| reads this, variables, DepObjects() =>
        var ds := DepsOf(variables[j]);
        assert forall d :: d in ds ==> d in DepObjects();
        seq(|ds|, k requires 0 <= k < |ds| reads ds => ds[k].renderTargets))
    }

    /** The variable list as `init` finds it. */
    ghost function Views(): (r: seq<VarView>)
      reads this, variables, DepObjects()
    {
      ViewsOf(variables, position, DepLists(), DepTargets(), currentTextureIndex)
    }

    /** The two render targets `init` gives v, each filled from v's initial
        textures by the pass-through program. */
    method Allocate(v: Variable)
      requires Valid()
      modifies v`renderTargets, this`passThru, this`passes
      ensures Valid()
      ensures Holding(v) && fresh(v.renderTargets[0]) && fresh(v.renderTargets[1])
      ensures passes == old(passes) + Copies(v)
    {
      var rt0 := CreateRenderTarget(sizeX, sizeY, v.attachments, v.count);
      var rt1 := CreateRenderTarget(sizeX, sizeY, v.attachments, v.count);
      v.renderTargets := [rt0, rt1];
      RenderTexture(v.initialValueTexture, rt0);
      RenderTexture(v.initialValueTexture, rt1);
    }

    /** The render targets every variable holds. */
    ghost function Targets(): (r: seq<seq<RenderTarget>>)
      reads this, variables
      ensures |r| == |variables| && forall j {:trigger r[j]} :: 0 <= j < |variables| ==> r[j] == variables[j].renderTargets
    {
      seq(|variables|, j requires 0 <= j < |variables| reads this, variables => variables[j].renderTargets)
    }

    /** Once variable i holds its render targets, its dependencies deps, as
        binding finds them, fail exactly where their views say, when every
        dependency registered before i holds its render targets and every
        other one, i aside, holds rts0. */
    lemma DepsMatchViews(v: Variable, i: int, deps: seq<Variable>, rts0: seq<seq<RenderTarget>>, m: map<string, Texture>)
      requires Valid() && 0 <= i < |variables| && v == variables[i] && Holding(v) && |rts0| == |deps|
      requires forall k :: 0 <= k < |deps| && 0 <= PositionIn(position, deps[k]) < i ==> Holding(deps[k])
      requires forall k :: 0 <= k < |deps| && !(0 <= PositionIn(position, deps[k]) <= i) ==>
                 deps[k].renderTargets == rts0[k]
      ensures BindDeps(v.name, RegisteredNames(), DepsAt(deps, currentTextureIndex), m).0 ==
              VarOutcome(v.name, RegisteredNames(), DepViewsOf(position, deps, rts0, currentTextureIndex), i + 1)
    {
      var dvs := DepViewsOf(position, deps, rts0, currentTextureIndex);
      var ds := DepsAt(deps, currentTextureIndex);
      forall k | 0 <= k < |ds|
        ensures Blocked(ds[k]) <==> dvs[k].count > 0 && !Ready(dvs[k], i + 1)
      {
        var d := deps[k];
        var reg := dvs[k].reg;
        if 0 <= reg <= i {
          assert d == variables[reg];
        }
      }
      BindDepsMatches(v.name, RegisteredNames(), ds, dvs, i + 1, m);
    }

    /** One pass of `init`'s loop, for variable v, number i, with
        dependency list deps: allocate its render targets, then check and
        bind its dependencies. Every dependency registered before v holds
        its render targets already; every other one, v aside, holds rts0.
        It ends as the views of the dependencies say, and v's table is the
        one its dependency loop leaves on the dependencies as found. */
    method InitVariable(v: Variable, i: int, ghost deps: seq<Variable>, ghost rts0: seq<seq<RenderTarget>>)
      returns (r: InitResult, ghost found: seq<Dep>)
      requires Valid() && 0 <= i < |variables| && v == variables[i]
      requires DepsOf(v) == deps && |rts0| == |deps|
      requires forall k :: 0 <= k < |deps| && 0 <= PositionIn(position, deps[k]) < i ==> Holding(deps[k])
      requires forall k :: 0 <= k < |deps| && !(0 <= PositionIn(position, deps[k]) <= i) ==>
                 deps[k].renderTargets == rts0[k]
      modifies v`renderTargets, v.material`uniforms, this`passThru, this`passes
      ensures Valid()
      ensures Holding(v) && fresh(v.renderTargets[0]) && fresh(v.renderTargets[1])
      ensures passes == old(passes) + Copies(v)
      ensures r == VarOutcome(v.name, RegisteredNames(), DepViewsOf(position, deps, rts0, currentTextureIndex), i + 1)
      ensures found == DepsAt(deps, currentTextureIndex)
      ensures v.material.uniforms == BindDeps(v.name, RegisteredNames(), found, old(v.material.uniforms)).1
    {
      Allocate(v);
      DepsMatchViews(v, i, deps, rts0, v.material.uniforms);
      found := DepsAt(deps, currentTextureIndex);
      r := BindDependencies(v);
    }

    /** The state `init`'s loop keeps before variable i, for the variables
        with dependency lists deps whose members held rts0 and which held
        init: the variables before i hold the render targets rts it gave
        them, the others still hold init; every unregistered dependency
        still holds rts0; and the copies drawn so far follow log0. */
    ghost predicate LoopState(i: int, deps: seq<seq<Variable>>, rts0: seq<seq<seq<RenderTarget>>>,
                              init: seq<seq<RenderTarget>>, rts: seq<seq<RenderTarget>>, log0: seq<Pass>)
      reads *
    {
      Valid() && |deps| == |rts0| == |init| == |variables| && 0 <= i <= |variables| && |rts| == i &&
      (forall j {:trigger deps[j]} :: 0 <= j < |variables| ==> DepsOf(variables[j]) == deps[j]) &&
      (forall j, k {:trigger rts0[j][k]} :: 0 <= j < |variables| && 0 <= k < |deps[j]| && k < |rts0[j]| && deps[j][k] !in position ==>
         deps[j][k].renderTargets == rts0[j][k]) &&
      (forall j :: 0 <= j < i ==> variables[j].renderTargets == rts[j] && Pair(rts[j], variables[j].count)) &&
      (forall j :: i <= j < |variables| ==> variables[j].renderTargets == init[j]) &&
      passes == LoggedCopies(log0, variables, rts)
    }

    /** In the state `init`'s loop keeps before variable i, the
        dependencies of variable i registered before it hold their render
        targets, and every other one, i aside, still holds rts0. */
    lemma PendingTargets(i: int, deps: seq<seq<Variable>>, rts0: seq<seq<seq<RenderTarget>>>,
                         init: seq<seq<RenderTarget>>, rts: seq<seq<RenderTarget>>, log0: seq<Pass>)
      requires LoopState(i, deps, rts0, init, rts, log0) && i < |variables| && |rts0[i]| == |deps[i]|
      requires forall k :: 0 <= k < |deps[i]| && deps[i][k] in position ==> rts0[i][k] == init[position[deps[i][k]]]
      ensures forall k :: 0 <= k < |deps[i]| && 0 <= PositionIn(position, deps[i][k]) < i ==> Holding(deps[i][k])
      ensures forall k :: 0 <= k < |deps[i]| && !(0 <= PositionIn(position, deps[i][k]) <= i) ==>
                deps[i][k].renderTargets == rts0[i][k]
    {
      forall k | 0 <= k < |deps[i]| && deps[i][k] in position
        ensures variables[position[deps[i][k]]] == deps[i][k]
      {
      }
    }

    /** One pass of `init`'s loop from the state it keeps before variable
        i, whose registered dependencies held what init says: the pass ends
        with the outcome of variable i as its dependencies find them, the
        state holds before variable i + 1, and only variable i's table
        changes, to the one its dependency loop leaves. */
    method InitStep(v: Variable, i: int, ghost deps: seq<seq<Variable>>,
                    ghost rts0: seq<seq<seq<RenderTarget>>>, ghost init: seq<seq<RenderTarget>>,
                    ghost rts: seq<seq<RenderTarget>>, ghost log0: seq<Pass>)
      returns (r: InitResult, ghost rts': seq<seq<RenderTarget>>)
      requires LoopState(i, deps, rts0, init, rts, log0) && i < |variables| && v == variables[i] && |rts0[i]| == |deps[i]|
      requires forall k :: 0 <= k < |deps[i]| && deps[i][k] in position ==> rts0[i][k] == init[position[deps[i][k]]]
      modifies v`renderTargets, v.material`uniforms, this`passThru, this`passes
      ensures LoopState(i + 1, deps, rts0, init, rts', log0) && rts' == rts + [v.renderTargets]
      ensures v.material.uniforms == BindDeps(v.name, RegisteredNames(), DepsAt(deps[i], currentTextureIndex), old(v.material.uniforms)).1
      ensures forall m: Material {:trigger m.uniforms} :: old(allocated(m)) && m != v.material ==> m.uniforms == old(m.uniforms)
      ensures r == VarOutcome(v.name, RegisteredNames(), DepViewsOf(position, deps[i], rts0[i], currentTextureIndex), i + 1)
    {
      PendingTargets(i, deps, rts0, init, rts, log0);
      assert forall j :: 0 <= j < |variables| && j != i ==> variables[j] != v;
      ghost var found;
      r, found := InitVariable(v, i, deps[i], rts0[i]);
      rts' := rts + [v.renderTargets];
      LoopStateStep(LoopPoint(i, deps, rts0, init, rts, log0));
    }

    /** A pass of `init`'s loop that changed, of what the loop keeps, only
        variable t.i's render targets, to a pair, and drew its two copies,
        leaves the state the loop keeps before variable t.i + 1. */
    twostate lemma LoopStateStep(t: LoopPoint)
      requires old(LoopState(t.i, t.deps, t.rts0, t.init, t.rts, t.log0)) && 0 <= t.i < old(|variables|)
      requires unchanged(this`variables, this`position, this`materialPosition, this`currentTextureIndex)
      requires Valid() && Holding(variables[t.i]) && passes == old(passes) + Copies(variables[t.i])
      requires forall u: Variable {:trigger u.renderTargets} :: old(allocated(u)) && u != variables[t.i] ==>
                 u.renderTargets == old(u.renderTargets)
      requires forall u: Variable {:trigger u.dependencies} :: old(allocated(u)) ==> u.dependencies == old(u.dependencies)
      ensures LoopState(t.i + 1, t.deps, t.rts0, t.init, t.rts + [variables[t.i].renderTargets], t.log0)
    {
      LoggedCopiesSnoc(t.log0, variables, t.rts, variables[t.i].renderTargets);
    }

    /** Variable i's pass of `init`'s loop, from the state the loop keeps
        before it, with the first i tables updated to tabs, those the
        dependency loops of the variables before i left: the pass ends with
        the outcome outs gives variable i, and the state and the tables hold
        before variable i + 1. */
    method InitPass(v: Variable, i: int, ghost outs: seq<InitResult>, ghost deps: seq<seq<Variable>>,
                    ghost rts0: seq<seq<seq<RenderTarget>>>, ghost init: seq<seq<RenderTarget>>,
                    ghost rts: seq<seq<RenderTarget>>, ghost log0: seq<Pass>, ghost m0: seq<map<string, Texture>>,
                    ghost tabs: seq<map<string, Texture>>)
      returns (r: InitResult, ghost rts': seq<seq<RenderTarget>>, ghost tabs': seq<map<string, Texture>>)
      requires Plan(outs, deps, rts0, init, variables, position, RegisteredNames(), currentTextureIndex)
      requires i == |rts| && LoopState(|rts|, deps, rts0, init, rts, log0) && i < |variables| && v == variables[i]
      requires |m0| == |variables| && tabs == WrittenTables(m0, variables, RegisteredNames(), position, deps, rts0, rts, currentTextureIndex)
      requires Uniforms() == Updated(m0, tabs, |rts|) && RanUntil(outs, |rts|, Ok)
      modifies this`passThru, this`passes, variables`renderTargets, Materials()`uniforms
      ensures i + 1 == |rts'| && LoopState(|rts'|, deps, rts0, init, rts', log0)
      ensures tabs' == WrittenTables(m0, variables, RegisteredNames(), position, deps, rts0, rts', currentTextureIndex)
      ensures Uniforms() == Updated(m0, tabs', |rts'|) && RanUntil(outs, |rts'|, r)
    {
      UpdatedBefore(m0, tabs, i, i);
      r, rts' := InitStep(v, i, deps, rts0, init, rts, log0);
      OnlyTableChanged(i);
      FoundAsWritten(i, outs, deps, rts0, init, rts', log0);
      WrittenTablesGrow(m0, variables, RegisteredNames(), position, deps, rts0, rts, v.renderTargets, currentTextureIndex);
      tabs' := tabs + [v.material.uniforms];
      UpdatedSnoc(m0, tabs, v.material.uniforms, i);
      LoopNext(outs, i, r);
    }

    /** A step that changed no material's table but variable i's leaves
        every other variable's table as it was. */
    twostate lemma OnlyTableChanged(i: int)
      requires old(Valid()) && unchanged(this`variables, this`materialPosition) && 0 <= i < |variables|
      requires forall m: Material {:trigger m.uniforms} :: old(allocated(m)) && m != variables[i].material ==> m.uniforms == old(m.uniforms)
      ensures Uniforms() == old(Uniforms())[i := variables[i].material.uniforms]
    {
      assert forall j :: 0 <= j < |variables| && j != i ==> variables[j].material != variables[i].material;
    }

    /** Once variable i has run its pass of `init`'s loop, its dependencies
        as binding found them are those FoundDeps describes. */
    lemma FoundAsWritten(i: int, outs: seq<InitResult>, deps: seq<seq<Variable>>, rts0: seq<seq<seq<RenderTarget>>>,
                         init: seq<seq<RenderTarget>>, rts: seq<seq<RenderTarget>>, log0: seq<Pass>)
      requires Plan(outs, deps, rts0, init, variables, position, RegisteredNames(), currentTextureIndex)
      requires LoopState(i + 1, deps, rts0, init, rts, log0) && 0 <= i < |variables|
      ensures DepsAt(deps[i], currentTextureIndex) == FoundDeps(position, deps[i], rts0[i], rts, i, currentTextureIndex)
    {
      var a, b := DepsAt(deps[i], currentTextureIndex), FoundDeps(position, deps[i], rts0[i], rts, i, currentTextureIndex);
      forall k | 0 <= k < |deps[i]|
        ensures a[k] == b[k]
      {
        var d := deps[i][k];
        if d in position {
          assert variables[position[d]] == d;
        }
      }
    }

    /** `init`'s last step, reached once its loop ends with r == Ok:
        `compute` reads index 0 next. */
    method ResetIndex(r: InitResult)
      requires Valid()
      modifies this`currentTextureIndex
      ensures Valid() && variables == old(variables) && passes == old(passes)
      ensures forall j :: 0 <= j < |variables| ==> variables[j].renderTargets == old(variables[j].renderTargets)
      ensures Uniforms() == old(Uniforms())
      ensures currentTextureIndex == if r == Ok then 0 else old(currentTextureIndex)
    {
      if r == Ok {
        currentTextureIndex := 0;
      }
    }

    /** The loop of `init` as written, over the variables with dependency
        lists deps whose members held rts0 and which held init, where outs
        gives each variable's outcome as its dependencies find them: it
        stops after the first variable that fails, having given render
        targets rts to the variables up to and including that one and drawn
        their copies, and those variables' tables follow their dependency
        loops. */
    method InitLoop(ghost outs: seq<InitResult>, ghost deps: seq<seq<Variable>>,
                   ghost rts0: seq<seq<seq<RenderTarget>>>, ghost init: seq<seq<RenderTarget>>)
      returns (r: InitResult, ghost rts: seq<seq<RenderTarget>>, ghost tabs: seq<map<string, Texture>>)
      requires Plan(outs, deps, rts0, init, variables, position, RegisteredNames(), currentTextureIndex)
      requires LoopState(0, deps, rts0, init, [], passes)
      modifies this`passThru, this`passes, variables`renderTargets, Materials()`uniforms
      ensures LoopState(|rts|, deps, rts0, init, rts, old(passes)) && !(|rts| < |variables| && r == Ok)
      ensures tabs == WrittenTables(old(Uniforms()), variables, RegisteredNames(), position, deps, rts0, rts, currentTextureIndex)
      ensures Uniforms() == Updated(old(Uniforms()), tabs, |rts|)
      ensures RanUntil(outs, |rts|, r)
    {
      rts := [];
      r := Ok;
      var i := 0;
      tabs := [];
      while i < |variables| && r == Ok
        invariant i == |rts| && LoopState(|rts|, deps, rts0, init, rts, old(passes))
        invariant tabs == WrittenTables(old(Uniforms()), variables, RegisteredNames(), position, deps, rts0, rts, currentTextureIndex)
        invariant Uniforms() == Updated(old(Uniforms()), tabs, |rts|)
        invariant RanUntil(outs, |rts|, r)
      {
        r, rts, tabs := InitPass(variables[i], i, outs, deps, rts0, init, rts, old(passes), old(Uniforms()), tabs);
        i := i + 1;
      }
    }

    /** What `init`'s loop, over the variables with dependency lists deps
        whose members held rts0 and which held init and tables m0, leaves
        once it stops before variable |rts| with outcome r: r and the point
        it stopped at are the first failure among the outcomes outs; the
        variables it reached hold their new render targets rts and the
        tables their dependency loops left (TablesAt); the others still
        hold init. */
    lemma LoopExit(r: InitResult, outs: seq<InitResult>, deps: seq<seq<Variable>>, rts0: seq<seq<seq<RenderTarget>>>,
                   init: seq<seq<RenderTarget>>, rts: seq<seq<RenderTarget>>, log0: seq<Pass>, m0: seq<map<string, Texture>>)
      requires LoopState(|rts|, deps, rts0, init, rts, log0) && |outs| == |m0| == |variables|
      requires forall j :: 0 <= j < |variables| ==> |rts0[j]| == |deps[j]|
      requires !(|rts| < |variables| && r == Ok)
      requires RanUntil(outs, |rts|, r)
      requires Uniforms() == Updated(m0, WrittenTables(m0, variables, RegisteredNames(), position, deps, rts0, rts, currentTextureIndex),
                                     |rts|)
      ensures Valid() && r == FirstFailure(outs, 0).0 && 0 <= FirstFailure(outs, 0).1 <= |variables|
      ensures |rts| == Reached(FirstFailure(outs, 0).1, |variables|)
      ensures forall j :: 0 <= j < |rts| ==> variables[j].renderTargets == rts[j] && Pair(rts[j], variables[j].count)
      ensures forall j :: |rts| <= j < |variables| ==> variables[j].renderTargets == init[j]
      ensures passes == LoggedCopies(log0, variables, rts)
      ensures Uniforms() == TablesAt(m0, variables, RegisteredNames(), position, deps, rts0, rts, currentTextureIndex)
    {
      LoopStop(outs, |rts|, r);
    }

    /** `init` after its capability check and before it resets the index:
        (r, f) is the view-level outcome of `init` with the allocation
        inside the loop; the variables up to and including f hold the new
        render targets rts, each filled from its initial texture, and the
        tables their dependency loops leave; the others keep theirs. */
    method InitVariables() returns (r: InitResult, ghost f: int, ghost rts: seq<seq<RenderTarget>>)
      requires Valid()
      modifies this`passThru, this`passes, variables`renderTargets, Materials()`uniforms
      ensures Valid()
      ensures (r, f) == old(InitOutcome(Views(), false)) && 0 <= f <= |variables| && |rts| == Reached(f, |variables|)
      ensures forall j :: 0 <= j < |rts| ==> variables[j].renderTargets == rts[j] && Pair(rts[j], variables[j].count)
      ensures forall j :: |rts| <= j < |variables| ==> variables[j].renderTargets == old(variables[j].renderTargets)
      ensures passes == LoggedCopies(old(passes), variables, rts)
      ensures Uniforms() == TablesAt(old(Uniforms()), variables, RegisteredNames(), position, old(DepLists()), old(DepTargets()), rts,
                                     currentTextureIndex)
    {
      ghost var outs, deps, rts0, init;
      outs, deps, rts0, init := InitSetup();
      ghost var tabs;
      r, rts, tabs := InitLoop(outs, deps, rts0, init);
      LoopExit(r, outs, deps, rts0, init, rts, old(passes), old(Uniforms()));
      f := FirstFailure(outs, 0).1;
    }

    /** What `init` finds before it starts: each variable's dependency list
        deps, the render targets rts0 each dependency holds and the render
        targets init each variable holds, and each variable's outcome outs
        as its dependencies find them; the first failure in outs is the
        view-level outcome of `init`. */
    lemma InitSetup() returns (outs: seq<InitResult>, deps: seq<seq<Variable>>, rts0: seq<seq<seq<RenderTarget>>>,
                               init: seq<seq<RenderTarget>>)
      requires Valid()
      ensures Plan(outs, deps, rts0, init, variables, position, RegisteredNames(), currentTextureIndex)
      ensures LoopState(0, deps, rts0, init, [], passes)
      ensures forall j :: 0 <= j < |variables| ==> init[j] == variables[j].renderTargets
      ensures deps == DepLists() && rts0 == DepTargets()
      ensures FirstFailure(outs, 0) == InitOutcome(Views(), false)
    {
      deps, rts0, init := DepLists(), DepTargets(), Targets();
      forall j, k | 0 <= j < |variables| && 0 <= k < |deps[j]| && deps[j][k] in position
        ensures 0 <= position[deps[j][k]] < |variables| && rts0[j][k] == init[position[deps[j][k]]]
      {
        assert variables[position[deps[j][k]]] == deps[j][k];
      }
      RegisteredViewsOf(variables, position, deps, rts0, currentTextureIndex);
      outs := SetupPlan(variables, position, deps, rts0, init, RegisteredNames(), currentTextureIndex);
    }

    /** The uniform tables, which held m0, are those TablesAt gives the
        dependency lists deps whose members held rts0, once the variables up
        to |rts| have taken the render targets rts at index. */
    ghost predicate TablesFollow(m0: seq<map<string, Texture>>, deps: seq<seq<Variable>>, rts0: seq<seq<seq<RenderTarget>>>,
                                 rts: seq<seq<RenderTarget>>, index: int)
      reads *
    {
      |m0| == |variables| == |deps| == |rts0| && |rts| <= |variables| && Shaped(deps, rts0) &&
      Uniforms() == TablesAt(m0, variables, RegisteredNames(), position, deps, rts0, rts, index)
    }

    /** `init`, as written: after the capability check, each variable in
        turn gets its two render targets, filled from its initial textures,
        and then checks and binds its dependencies. The first failure ends
        `init` at that variable, f; r and f are the outcome InitOutcome
        gives the variables as `init` finds them, with the allocation inside
        the loop. The variables up to and including f hold the new render
        targets rts and the uniform tables their dependency loops leave, on
        the dependencies as found when each binds (TablesAt); the others
        keep theirs, and only a success resets the index to 0. */
    method Init() returns (r: InitResult, ghost f: int, ghost rts: seq<seq<RenderTarget>>)
      requires Valid()
      modifies this`passThru, this`passes, this`currentTextureIndex, variables`renderTargets, Materials()`uniforms
      ensures Valid() && -1 <= f <= |variables| && |rts| == Reached(f, |variables|)
      ensures maxVertexTextures == 0 ==> r == Error(CapabilityMessage) && f == -1
      ensures maxVertexTextures != 0 ==> (r, f) == old(InitOutcome(Views(), false))
      ensures forall j :: 0 <= j < |rts| ==> variables[j].renderTargets == rts[j] && Pair(rts[j], variables[j].count)
      ensures forall j :: |rts| <= j < |variables| ==> variables[j].renderTargets == old(variables[j].renderTargets)
      ensures passes == LoggedCopies(old(passes), variables, rts)
      ensures TablesFollow(old(Uniforms()), old(DepLists()), old(DepTargets()), rts, old(currentTextureIndex))
      ensures currentTextureIndex == if r == Ok then 0 else old(currentTextureIndex)
    {
      if maxVertexTextures == 0 {
        TablesAtStart(Uniforms(), variables, RegisteredNames(), position, DepLists(), DepTargets(), currentTextureIndex);
        return Error(CapabilityMessage), -1, [];
      }
      r, f, rts := InitVariables();
      ResetIndex(r);
    }

    /** Every dependency of every variable is a registered variable. */
    ghost predicate AllDepsRegistered()
      reads this, variables
    {
      forall j, k :: 0 <= j < |variables| && 0 <= k < |DepsOf(variables[j])| ==> DepsOf(variables[j])[k] in position
    }

    /** With every render target allocated first, `init` succeeds whenever
        every dependency is a registered variable. */
    lemma RegisteredDepsSucceed()
      requires Valid() && AllDepsRegistered()
      ensures InitOutcome(Views(), true).0 == Ok
    {
      var vs := Views();
      var deps, rts0 := DepLists(), DepTargets();
      assert vs == ViewsOf(variables, position, deps, rts0, currentTextureIndex);
      forall i, k | 0 <= i < |vs| && 0 <= k < |vs[i].deps|
        ensures 0 <= vs[i].deps[k].reg < |vs| && vs[vs[i].deps[k].reg].name == vs[i].deps[k].name
      {
        var d := deps[i][k];
        assert vs[i].deps[k] == DepViewsOf(position, deps[i], rts0[i], currentTextureIndex)[k];
        assert d in position && variables[position[d]] == d;
      }
      CorrectedRegisteredOk(vs);
    }

    /** Every variable holds the render targets rts, two distinct ones
        with a texture for each of its outputs, and the copies drawn since
        log0 are those that filled them. */
    ghost predicate AllHolding(rts: seq<seq<RenderTarget>>, log0: seq<Pass>)
      reads this`currentTextureIndex, this`passThru, this`variables, this`position, this`materialPosition, this`passes
      reads variables`renderTargets
    {
      Valid() && |rts| == |variables| &&
      (forall j :: 0 <= j < |variables| ==> variables[j].renderTargets == rts[j] && Pair(rts[j], variables[j].count)) &&
      passes == LoggedCopies(log0, variables, rts)
    }

    /** The first loop of `init` with every render target allocated first:
        every variable gets its two render targets, filled from its initial
        textures. */
    method AllocateAll() returns (ghost rts: seq<seq<RenderTarget>>)
      requires Valid()
      modifies this`passThru, this`passes, variables`renderTargets
      ensures AllHolding(rts, old(passes)) && Uniforms() == old(Uniforms())
    {
      rts := [];
      for i := 0 to |variables|
        invariant Valid() && |rts| == i
        invariant forall j :: 0 <= j < i ==> variables[j].renderTargets == rts[j] && Pair(rts[j], variables[j].count)
        invariant passes == LoggedCopies(old(passes), variables, rts)
        invariant Uniforms() == old(Uniforms())
      {
        rts := AllocStep(variables[i], i, rts, old(passes));
      }
    }

    /** One pass of the first loop of `init` with every render target
        allocated first: variable v, number i, gets its two render targets,
        which rts' records after those rts records, and the copies drawn
        since log0 grow by its two. */
    method AllocStep(v: Variable, i: int, ghost rts: seq<seq<RenderTarget>>, ghost log0: seq<Pass>)
      returns (ghost rts': seq<seq<RenderTarget>>)
      requires Valid() && 0 <= i == |rts| < |variables| && v == variables[i]
      requires forall j :: 0 <= j < i ==> variables[j].renderTargets == rts[j] && Pair(rts[j], variables[j].count)
      requires passes == LoggedCopies(log0, variables, rts)
      modifies v`renderTargets, this`passThru, this`passes
      ensures Valid() && |rts'| == i + 1
      ensures forall j :: 0 <= j <= i ==> variables[j].renderTargets == rts'[j] && Pair(rts'[j], variables[j].count)
      ensures passes == LoggedCopies(log0, variables, rts') && Uniforms() == old(Uniforms())
    {
      assert forall j :: 0 <= j < |variables| && j != i ==> variables[j] != v;
      Allocate(v);
      LoggedCopiesSnoc(log0, variables, rts, v.renderTargets);
      rts' := rts + [v.renderTargets];
    }

    /** Once every variable holds its render targets, the dependencies deps
        of variable i, as binding finds them, fail exactly where their views
        say with every render target allocated first, when every
        unregistered one holds rts0. */
    lemma DepsMatchAll(i: int, deps: seq<Variable>, rts0: seq<seq<RenderTarget>>)
      requires Valid() && 0 <= i < |variables| && |rts0| == |deps|
      requires forall j :: 0 <= j < |variables| ==> Holding(variables[j])
      requires forall k :: 0 <= k < |deps| && deps[k] !in position ==> deps[k].renderTargets == rts0[k]
      ensures BindDeps(variables[i].name, RegisteredNames(), DepsAt(deps, currentTextureIndex), map[]).0 ==
              VarOutcome(variables[i].name, RegisteredNames(), DepViewsOf(position, deps, rts0, currentTextureIndex), |variables|)
    {
      var dvs := DepViewsOf(position, deps, rts0, currentTextureIndex);
      var ds := DepsAt(deps, currentTextureIndex);
      forall k | 0 <= k < |ds|
        ensures Blocked(ds[k]) <==> dvs[k].count > 0 && !Ready(dvs[k], |variables|)
      {
        var d := deps[k];
        if d in position {
          assert d == variables[position[d]];
        }
      }
      BindDepsMatches(variables[i].name, RegisteredNames(), ds, dvs, |variables|, map[]);
    }

    /** The dependencies of every variable as binding finds them now,
        reading render target index. */
    ghost function DepsFound(index: int): (r: seq<seq<Dep>>)
      reads this`variables, variables, DepObjects()
      ensures |r| == |variables|
      ensures forall j :: 0 <= j < |variables| ==> r[j] == DepsAt(DepsOf(variables[j]), index)
    {
      var vs, objs := variables, DepObjects();
      assert forall j, d :: 0 <= j < |vs| && d in DepsOf(vs[j]) ==> d in objs;
      seq(|vs|, j requires 0 <= j < |vs| && forall d :: d in DepsOf(vs[j]) ==> d in objs reads vs, objs =>
        DepsAt(DepsOf(vs[j]), index))
    }

    /** Once every variable holds its render targets, the dependency lists
        deps, as binding finds them, give the outcomes outs. */
    lemma BindPlan(outs: seq<InitResult>, deps: seq<seq<Variable>>, rts0: seq<seq<seq<RenderTarget>>>)
      requires Valid() && PlanFirst(outs, deps, rts0, variables, position, RegisteredNames(), currentTextureIndex)
      requires forall j :: 0 <= j < |variables| ==> Holding(variables[j]) && DepsOf(variables[j]) == deps[j]
      requires forall j, k :: 0 <= j < |variables| && 0 <= k < |deps[j]| && deps[j][k] !in position ==>
                 deps[j][k].renderTargets == rts0[j][k]
      ensures forall j :: 0 <= j < |variables| ==>
                outs[j] == BindDeps(variables[j].name, RegisteredNames(), DepsAt(DepsOf(variables[j]), currentTextureIndex), map[]).0
    {
      forall j | 0 <= j < |variables|
        ensures outs[j] == BindDeps(variables[j].name, RegisteredNames(), DepsAt(DepsOf(variables[j]), currentTextureIndex), map[]).0
      {
        DepsMatchAll(j, deps[j], rts0[j]);
      }
    }

    /** The state the second loop of `init` with every render target
        allocated first keeps: every variable holds the render targets rts,
        drawn since log0, and the dependencies of every variable, as
        binding finds them, are dss, which give the outcomes outs. */
    ghost predicate BindState(outs: seq<InitResult>, dss: seq<seq<Dep>>, rts: seq<seq<RenderTarget>>, log0: seq<Pass>)
      reads *
    {
      AllHolding(rts, log0) && |dss| == |outs| == |variables| &&
      (forall j :: 0 <= j < |variables| ==> DepsAt(DepsOf(variables[j]), currentTextureIndex) == dss[j]) &&
      forall j :: 0 <= j < |variables| ==> outs[j] == BindDeps(variables[j].name, RegisteredNames(), dss[j], map[]).0
    }

    /** One pass of the second loop of `init` with every render target
        allocated first: variable i checks and binds its dependencies, with
        the outcome outs gives it, its table becomes the one its dependency
        loop leaves on dss[i], no other table changes, and the state the
        loop keeps holds still. */
    method BindStep(i: int, ghost outs: seq<InitResult>, ghost dss: seq<seq<Dep>>, ghost rts: seq<seq<RenderTarget>>,
                    ghost log0: seq<Pass>)
      returns (r: InitResult)
      requires BindState(outs, dss, rts, log0) && 0 <= i < |variables|
      modifies variables[i].material`uniforms
      ensures BindState(outs, dss, rts, log0) && r == outs[i]
      ensures variables[i].material.uniforms ==
              BindDeps(variables[i].name, RegisteredNames(), dss[i], old(variables[i].material.uniforms)).1
      ensures forall m: Material {:trigger m.uniforms} :: old(allocated(m)) && m != variables[i].material ==> m.uniforms == old(m.uniforms)
    {
      var v := variables[i];
      BindDepsOutcome(v.name, RegisteredNames(), dss[i], v.material.uniforms, map[]);
      r := BindDependencies(v);
    }

    /** The state the second loop of `init` with every render target
        allocated first keeps before variable i: BindState, and the tables
        of the variables, which held m0, follow the dependency loops of the
        variables before i. */
    ghost predicate Binding(i: int, outs: seq<InitResult>, dss: seq<seq<Dep>>, rts: seq<seq<RenderTarget>>,
                            log0: seq<Pass>, m0: seq<map<string, Texture>>, tabs: seq<map<string, Texture>>)
      reads *
    {
      BindState(outs, dss, rts, log0) && 0 <= i <= |variables| == |m0| &&
      tabs == BoundTables(m0, variables, RegisteredNames(), dss) && Uniforms() == Updated(m0, tabs, i)
    }

    /** One pass of the second loop of `init` with every render target
        allocated first: variable i's table follows its dependency loop,
        and the state the loop keeps moves on to i + 1. */
    method BindPass(i: int, ghost outs: seq<InitResult>, ghost dss: seq<seq<Dep>>, ghost rts: seq<seq<RenderTarget>>,
                    ghost log0: seq<Pass>, ghost m0: seq<map<string, Texture>>, ghost tabs: seq<map<string, Texture>>)
      returns (r: InitResult)
      requires Binding(i, outs, dss, rts, log0, m0, tabs) && i < |variables| && RanUntil(outs, i, Ok)
      modifies Materials()`uniforms
      ensures Binding(i + 1, outs, dss, rts, log0, m0, tabs) && RanUntil(outs, i + 1, r)
    {
      UpdatedBefore(m0, tabs, i, i);
      r := BindStep(i, outs, dss, rts, log0);
      OnlyTableChanged(i);
      LoopNext(outs, i, r);
    }

    /** The second loop of `init` with every render target allocated first:
        each variable in turn checks and binds its dependencies, found as
        dss, until the first failure among the outcomes outs ends the loop
        with outcome r before variable n, or every variable has bound; the
        first n tables follow their dependency loops (tabs), and the others
        keep theirs. */
    method BindAll(ghost outs: seq<InitResult>, ghost dss: seq<seq<Dep>>, ghost rts: seq<seq<RenderTarget>>,
                   ghost log0: seq<Pass>)
      returns (r: InitResult, n: int, ghost tabs: seq<map<string, Texture>>)
      requires BindState(outs, dss, rts, log0)
      modifies Materials()`uniforms
      ensures Binding(n, outs, dss, rts, log0, old(Uniforms()), tabs) && !(n < |variables| && r == Ok)
      ensures RanUntil(outs, n, r)
    {
      r := Ok;
      n := 0;
      ghost var m0 := Uniforms();
      tabs := BoundTables(m0, variables, RegisteredNames(), dss);
      while n < |variables| && r == Ok
        invariant Binding(n, outs, dss, rts, log0, m0, tabs) == true
        invariant RanUntil(outs, n, r) == true
      {
        r := BindPass(n, outs, dss, rts, log0, m0, tabs);
        n := n + 1;
      }
    }

    /** What the second loop of `init` with every render target allocated
        first leaves once it stops before variable n with outcome r: r and
        the point it stopped at are the first failure among the outcomes
        outs, and the first n tables, which held m0, follow their
        dependency loops. */
    lemma BindExit(r: InitResult, n: int, outs: seq<InitResult>, dss: seq<seq<Dep>>, rts: seq<seq<RenderTarget>>,
                   log0: seq<Pass>, m0: seq<map<string, Texture>>, tabs: seq<map<string, Texture>>)
      requires Binding(n, outs, dss, rts, log0, m0, tabs) && !(n < |variables| && r == Ok)
      requires RanUntil(outs, n, r)
      ensures (r, if r == Ok then n else n - 1) == FirstFailure(outs, 0) && n == Reached(FirstFailure(outs, 0).1, |variables|)
      ensures BindState(outs, dss, rts, log0) && AllHolding(rts, log0)
      ensures Uniforms() == Updated(m0, BoundTables(m0, variables, RegisteredNames(), dss), n)
    {
      LoopStop(outs, n, r);
    }

    /** The second loop of `init` with every render target allocated first,
        over the dependencies dss as found, run to the first failure: (r, f)
        is the first failure among the outcomes outs, and the tables up to f
        follow their dependency loops on dss. */
    method BindFound(ghost outs: seq<InitResult>, ghost dss: seq<seq<Dep>>, ghost rts: seq<seq<RenderTarget>>,
                     ghost log0: seq<Pass>)
      returns (r: InitResult, ghost f: int)
      requires BindState(outs, dss, rts, log0)
      modifies Materials()`uniforms
      ensures AllHolding(rts, log0)
      ensures (r, f) == FirstFailure(outs, 0) && 0 <= f <= |variables|
      ensures Uniforms() == Updated(old(Uniforms()), BoundTables(old(Uniforms()), variables, RegisteredNames(), dss),
                                    Reached(f, |variables|))
    {
      ghost var n, tabs;
      r, n, tabs := BindAll(outs, dss, rts, log0);
      BindExit(r, n, outs, dss, rts, log0, old(Uniforms()), tabs);
      f := if r == Ok then n else n - 1;
    }

    /** What `init` with every render target allocated first finds before
        it starts: each variable's dependency list deps, the render targets
        rts0 each dependency holds, and each variable's outcome outs; the
        first failure in outs is that of InitOutcome with allocation
        first. */
    lemma FirstSetup() returns (outs: seq<InitResult>, deps: seq<seq<Variable>>, rts0: seq<seq<seq<RenderTarget>>>)
      requires Valid()
      ensures PlanFirst(outs, deps, rts0, variables, position, RegisteredNames(), currentTextureIndex)
      ensures forall j :: 0 <= j < |variables| ==> DepsOf(variables[j]) == deps[j]
      ensures forall j, k :: 0 <= j < |variables| && 0 <= k < |deps[j]| ==> deps[j][k].renderTargets == rts0[j][k]
      ensures FirstFailure(outs, 0) == InitOutcome(Views(), true)
      ensures deps == DepLists() && rts0 == DepTargets()
    {
      deps, rts0 := DepLists(), DepTargets();
      RegisteredViewsOf(variables, position, deps, rts0, currentTextureIndex);
      outs := SetupPlanFirst(variables, position, deps, rts0, RegisteredNames(), currentTextureIndex);
    }

    /** `init` with every render target allocated first, after its
        capability check and before it resets the index: (r, f) is the
        view-level outcome of `init` with allocation first; every variable
        holds the new render targets rts, each filled from its initial
        texture. */
    method AllocateThenBind() returns (r: InitResult, ghost f: int, ghost rts: seq<seq<RenderTarget>>)
      requires Valid()
      modifies this`passThru, this`passes, variables`renderTargets, Materials()`uniforms
      ensures AllHolding(rts, old(passes))
      ensures (r, f) == old(InitOutcome(Views(), true)) && 0 <= f <= |variables|
      ensures BoundFollow(old(Uniforms()), old(DepLists()), old(DepTargets()), rts, currentTextureIndex, Reached(f, |variables|)) == true
    {
      ghost var outs, deps, rts0 := FirstSetup();
      ghost var dss;
      dss, rts := AllocatePlanned(outs, deps, rts0);
      r, f := BindFound(outs, dss, rts, old(passes));
    }

    /** The first loop of `init` with every render target allocated first,
        for the variables with dependency lists deps whose members held rts0
        and whose outcomes, once every variable holds its render targets,
        are outs: the second loop then finds the dependencies as dss. */
    method AllocatePlanned(ghost outs: seq<InitResult>, ghost deps: seq<seq<Variable>>,
                           ghost rts0: seq<seq<seq<RenderTarget>>>)
      returns (ghost dss: seq<seq<Dep>>, ghost rts: seq<seq<RenderTarget>>)
      requires Valid() && PlanFirst(outs, deps, rts0, variables, position, RegisteredNames(), currentTextureIndex)
      requires forall j :: 0 <= j < |variables| ==> DepsOf(variables[j]) == deps[j]
      requires forall j, k :: 0 <= j < |variables| && 0 <= k < |deps[j]| ==> deps[j][k].renderTargets == rts0[j][k]
      modifies this`passThru, this`passes, variables`renderTargets
      ensures BindState(outs, dss, rts, old(passes)) && dss == FoundAll(position, deps, rts0, rts, currentTextureIndex)
      ensures Uniforms() == old(Uniforms())
    {
      rts := AllocateAll();
      dss := StartBind(outs, deps, rts0, rts, old(passes));
    }

    /** Once every variable holds the render targets rts, drawn since log0,
        the second loop of `init` with every render target allocated first
        can start: the dependency lists deps, whose unregistered members
        still hold rts0, are found as dss and give the outcomes outs. */
    lemma StartBind(outs: seq<InitResult>, deps: seq<seq<Variable>>, rts0: seq<seq<seq<RenderTarget>>>,
                    rts: seq<seq<RenderTarget>>, log0: seq<Pass>)
      returns (dss: seq<seq<Dep>>)
      requires AllHolding(rts, log0)
      requires PlanFirst(outs, deps, rts0, variables, position, RegisteredNames(), currentTextureIndex)
      requires forall j :: 0 <= j < |variables| ==> DepsOf(variables[j]) == deps[j]
      requires forall j, k :: 0 <= j < |variables| && 0 <= k < |deps[j]| && deps[j][k] !in position ==>
                 deps[j][k].renderTargets == rts0[j][k]
      ensures BindState(outs, dss, rts, log0) && dss == FoundAll(position, deps, rts0, rts, currentTextureIndex)
    {
      BindPlan(outs, deps, rts0);
      dss := DepsFound(currentTextureIndex);
      FoundAllNow(deps, rts0, rts, log0);
    }

    /** Once every variable holds the render targets rts, the dependencies
        of every variable, as binding finds them, are those FoundAll gives
        for the dependency lists deps whose unregistered members hold
        rts0: every dependency holds its own render targets. */
    lemma FoundAllNow(deps: seq<seq<Variable>>, rts0: seq<seq<seq<RenderTarget>>>, rts: seq<seq<RenderTarget>>,
                      log0: seq<Pass>)
      requires AllHolding(rts, log0) && |deps| == |rts0| == |variables|
      requires forall j :: 0 <= j < |variables| ==> DepsOf(variables[j]) == deps[j] && |rts0[j]| == |deps[j]|
      requires forall j, k :: 0 <= j < |variables| && 0 <= k < |deps[j]| && deps[j][k] !in position ==>
                 deps[j][k].renderTargets == rts0[j][k]
      ensures DepsFound(currentTextureIndex) == FoundAll(position, deps, rts0, rts, currentTextureIndex)
    {
      var found := FoundAll(position, deps, rts0, rts, currentTextureIndex);
      forall j | 0 <= j < |variables|
        ensures DepsFound(currentTextureIndex)[j] == found[j]
      {
        forall k | 0 <= k < |deps[j]|
          ensures HeldWhenBound(position, deps[j][k], rts0[j][k], rts, |rts| - 1) == deps[j][k].renderTargets
        {
          if deps[j][k] in position {
            assert variables[position[deps[j][k]]] == deps[j][k];
          }
        }
      }
    }

    /** The first |rts| variables hold the render targets rts, two distinct
        ones each with a texture for every output, and the copies drawn
        since log0 are those that filled them. */
    ghost predicate Holds(rts: seq<seq<RenderTarget>>, log0: seq<Pass>)
      reads this`variables, this`passes, variables`renderTargets
    {
      |rts| <= |variables| &&
      (forall j :: 0 <= j < |rts| ==> variables[j].renderTargets == rts[j] && Pair(rts[j], variables[j].count)) &&
      passes == LoggedCopies(log0, variables, rts)
    }

    /** Before `init` with every render target allocated first gives any
        variable its render targets, no variable holds new ones and every
        table is as it was. */
    lemma BindStart()
      requires Valid()
      ensures Holds([], passes)
      ensures Uniforms() == Updated(Uniforms(), BoundTables(Uniforms(), variables, RegisteredNames(),
                                      FoundAll(position, DepLists(), DepTargets(), [], currentTextureIndex)),
                                    Reached(-1, |variables|))
    {
    }

    /** What AllHolding says, spelled out. */
    lemma HoldingExit(rts: seq<seq<RenderTarget>>, log0: seq<Pass>)
      requires AllHolding(rts, log0)
      ensures Holds(rts, log0)
      ensures Valid() && |rts| == |variables|
      ensures forall j :: 0 <= j < |variables| ==> variables[j].renderTargets == rts[j] && Pair(rts[j], variables[j].count)
      ensures passes == LoggedCopies(log0, variables, rts)
    {
    }

    /** The uniform tables, which held m0, are m0 with the first n replaced
        by the ones BoundTables gives the dependencies found (FoundAll) on the
        dependency lists deps whose members held rts0, once every variable
        holds its render targets rts at index. */
    ghost predicate BoundFollow(m0: seq<map<string, Texture>>, deps: seq<seq<Variable>>, rts0: seq<seq<seq<RenderTarget>>>,
                                rts: seq<seq<RenderTarget>>, index: int, n: int)
      reads *
    {
      |m0| == |variables| == |deps| == |rts0| && 0 <= n <= |variables| && Shaped(deps, rts0) &&
      Uniforms() == Updated(m0, BoundTables(m0, variables, RegisteredNames(), FoundAll(position, deps, rts0, rts, index)), n)
    }

    /** `init` with every render target allocated before any dependency is
        bound: after the capability check, every variable gets its two
        render targets, filled from its initial textures; then each in turn
        checks and binds its dependencies, and the first failure ends
        `init` at that variable, f. r and f are the outcome InitOutcome
        gives with allocation first, so a dependency on any registered
        variable, earlier or later in the list, is found; only a success
        resets the index to 0. */
    method InitAllocatingFirst() returns (r: InitResult, ghost f: int, ghost rts: seq<seq<RenderTarget>>)
      requires Valid()
      modifies this`passThru, this`passes, this`currentTextureIndex, variables`renderTargets, Materials()`uniforms
      ensures Valid() && -1 <= f <= |variables|
      ensures maxVertexTextures == 0 ==> r == Error(CapabilityMessage) && f == -1 && rts == []
      ensures maxVertexTextures != 0 ==> (r, f) == old(InitOutcome(Views(), true)) && |rts| == |variables|
      ensures Holds(rts, old(passes))
      ensures maxVertexTextures == 0 ==> forall j :: 0 <= j < |variables| ==> variables[j].renderTargets == old(variables[j].renderTargets)
      ensures currentTextureIndex == if r == Ok then 0 else old(currentTextureIndex)
      ensures BoundFollow(old(Uniforms()), old(DepLists()), old(DepTargets()), rts, old(currentTextureIndex), Reached(f, |variables|))
    {
      if maxVertexTextures == 0 {
        BindStart();
        return Error(CapabilityMessage), -1, [];
      }
      r, f, rts := InitAllocated();
    }

    /** `init` with every render target allocated first, once its
        capability check has passed: AllocateThenBind, then the index reset
        a success ends with. */
    method InitAllocated() returns (r: InitResult, ghost f: int, ghost rts: seq<seq<RenderTarget>>)
      requires Valid()
      modifies this`passThru, this`passes, this`currentTextureIndex, variables`renderTargets, Materials()`uniforms
      ensures Valid() && 0 <= f <= |variables|
      ensures (r, f) == old(InitOutcome(Views(), true)) && |rts| == |variables|
      ensures Holds(rts, old(passes))
      ensures currentTextureIndex == if r == Ok then 0 else old(currentTextureIndex)
      ensures Uniforms() == Updated(old(Uniforms()), BoundTables(old(Uniforms()), variables, RegisteredNames(),
                                      FoundAll(position, old(DepLists()), old(DepTargets()), rts, old(currentTextureIndex))),
                                    Reached(f, |variables|))
    {
      r, f, rts := AllocateThenBind();
      HoldingExit(rts, old(passes));
      ResetIndex(r);
    }
  }
}
