/** The outcome of the renderer's `init` as a function of the variables it
    finds: which variable first fails, and whether it fails with the error
    string or with an exception. `init` validates and binds each variable's
    dependencies in the same loop that allocates render targets, so a
    dependency on a variable registered later finds no render target yet. */
module InitOrder {
  import opened Bindings

  /** A dependency as `init` finds it before it starts: its name, its
      number of output textures, its position reg in the variable list (-1
      when it is not registered), and whether it already holds, at the index
      `init` reads, a render target with count textures (left by an earlier
      `init`). */
  datatype DepView = DepView(name: string, count: int, reg: int, held: bool)

  /** A registered variable: its name and its dependency list (empty for
      `null`). */
  datatype VarView = VarView(name: string, deps: seq<DepView>)

  function Registered(vs: seq<VarView>): set<string>
  {
    set v | v in vs :: v.name
  }

  /** Positions and names of registered dependencies agree with the list. */
  predicate WellFormed(vs: seq<VarView>)
  {
    forall i, k :: 0 <= i < |vs| && 0 <= k < |vs[i].deps| ==>
      -1 <= vs[i].deps[k].reg < |vs| &&
      (vs[i].deps[k].reg >= 0 ==> vs[vs[i].deps[k].reg].name == vs[i].deps[k].name)
  }

  /** The dependency holds a render target to read when the first holders
      variables have theirs. */
  predicate Ready(d: DepView, holders: int)
  {
    d.held || 0 <= d.reg < holders
  }

  /** The dependency stops `init`: its name is missing, or it has textures
      to bind but no render target yet. */
  predicate Fails(own: string, registered: set<string>, d: DepView, holders: int)
  {
    (d.name != own && d.name !in registered) || (d.count > 0 && !Ready(d, holders))
  }

  /** The first failure among the dependencies of the variable named own. */
  function VarOutcome(own: string, registered: set<string>, ds: seq<DepView>, holders: int): InitResult
    decreases |ds|
  {
    if ds == [] then Ok
    else if ds[0].name != own && ds[0].name !in registered then Error(DependencyMessage(own, ds[0].name))
    else if ds[0].count > 0 && !Ready(ds[0], holders) then Thrown
    else VarOutcome(own, registered, ds[1..], holders)
  }

  /** How many variables hold render targets when variable i binds: with
      the loop as written, variables 0..i; when every render target is
      allocated first, all of them. */
  function Allocated(vs: seq<VarView>, i: int, allocatedFirst: bool): int
  {
    if allocatedFirst then |vs| else i + 1
  }

  /** Scanning the variables from position i: the first failing variable's
      outcome and its position, or Ok and |vs|. */
  function Scan(vs: seq<VarView>, i: nat, allocatedFirst: bool): (r: (InitResult, int))
    ensures i <= |vs| ==> i <= r.1 <= |vs|
    ensures r.0 == Ok <==> r.1 >= |vs|
    decreases |vs| - i
  {
    if i >= |vs| then (Ok, i)
    else
      var r := VarOutcome(vs[i].name, Registered(vs), vs[i].deps, Allocated(vs, i, allocatedFirst));
      if r != Ok then (r, i) else Scan(vs, i + 1, allocatedFirst)
  }

  /** The outcome of `init` after its capability check, and the position of
      the variable it stops at (|vs| when it succeeds). */
  function InitOutcome(vs: seq<VarView>, allocatedFirst: bool): (r: (InitResult, int))
  {
    Scan(vs, 0, allocatedFirst)
  }

  /** The outcome of the dependency check of each of the first n
      variables, in list order. */
  function OutcomesUpTo(vs: seq<VarView>, n: nat, allocatedFirst: bool): (r: seq<InitResult>)
    requires n <= |vs|
    ensures |r| == n
    ensures forall j :: 0 <= j < n ==>
              r[j] == VarOutcome(vs[j].name, Registered(vs), vs[j].deps, Allocated(vs, j, allocatedFirst))
  {
    if n == 0 then []
    else OutcomesUpTo(vs, n - 1, allocatedFirst) + [VarOutcome(vs[n - 1].name, Registered(vs), vs[n - 1].deps, Allocated(vs, n - 1, allocatedFirst))]
  }

  /** The outcome of each variable's dependency check, in list order. */
  function Outcomes(vs: seq<VarView>, allocatedFirst: bool): (r: seq<InitResult>)
    ensures |r| == |vs|
    ensures forall j :: 0 <= j < |vs| ==>
              r[j] == VarOutcome(vs[j].name, Registered(vs), vs[j].deps, Allocated(vs, j, allocatedFirst))
  {
    OutcomesUpTo(vs, |vs|, allocatedFirst)
  }

  /** The first outcome from position i on that is not Ok, and its
      position; Ok and |outs| when there is none. */
  function FirstFailure(outs: seq<InitResult>, i: nat): (r: (InitResult, int))
    ensures i <= |outs| ==> i <= r.1 <= |outs|
    ensures r.0 == Ok <==> r.1 >= |outs|
    decreases |outs| - i
  {
    if i >= |outs| then (Ok, i)
    else if outs[i] != Ok then (outs[i], i)
    else FirstFailure(outs, i + 1)
  }

  /** FirstFailure from position k is the first outcome at or after k that
      is not Ok: when the outcomes k .. f - 1 are Ok and the one at f is
      not (or f is the end), it is that outcome and f. */
  lemma {:induction false} FirstFailureIs(outs: seq<InitResult>, k: nat, f: int)
    requires k <= f <= |outs| && (f < |outs| ==> outs[f] != Ok)
    requires forall j :: k <= j < f ==> outs[j] == Ok
    ensures FirstFailure(outs, k) == (if f < |outs| then outs[f] else Ok, f)
    decreases f - k
  {
    if k < f {
      FirstFailureIs(outs, k + 1, f);
    }
  }

  /** Scanning the variables is taking the first failing outcome. */
  lemma {:induction false} ScanFirstFailure(vs: seq<VarView>, i: nat, allocatedFirst: bool)
    ensures Scan(vs, i, allocatedFirst) == FirstFailure(Outcomes(vs, allocatedFirst), i)
    decreases |vs| - i
  {
    if i < |vs| {
      ScanFirstFailure(vs, i + 1, allocatedFirst);
    }
  }

  /** A variable's dependency check succeeds exactly when none of its
      dependencies fails; an error names a missing dependency. */
  lemma {:induction false} VarOutcomeMeans(own: string, registered: set<string>, ds: seq<DepView>, holders: int)
    ensures VarOutcome(own, registered, ds, holders) == Ok <==>
            forall k :: 0 <= k < |ds| ==> !Fails(own, registered, ds[k], holders)
    ensures VarOutcome(own, registered, ds, holders).Error? ==>
            exists k :: 0 <= k < |ds| && ds[k].name != own && ds[k].name !in registered &&
              VarOutcome(own, registered, ds, holders).message == DependencyMessage(own, ds[k].name)
    decreases |ds|
  {
    if ds != [] {
      VarOutcomeMeans(own, registered, ds[1..], holders);
      if VarOutcome(own, registered, ds, holders).Error? && !(ds[0].name != own && ds[0].name !in registered) {
        var k :| 0 <= k < |ds[1..]| && ds[1..][k].name != own && ds[1..][k].name !in registered &&
                 VarOutcome(own, registered, ds, holders).message == DependencyMessage(own, ds[1..][k].name);
        assert ds[k + 1] == ds[1..][k];
      }
      if forall k :: 0 <= k < |ds| ==> !Fails(own, registered, ds[k], holders) {
        assert forall k :: 0 <= k < |ds[1..]| ==> ds[1..][k] == ds[k + 1];
      }
    }
  }

  /** A scan from i succeeds exactly when no dependency of a variable at or
      after i fails, and stops at the first variable with a failing one. */
  lemma {:induction false} ScanMeans(vs: seq<VarView>, i: nat, allocatedFirst: bool)
    ensures Scan(vs, i, allocatedFirst).0 == Ok <==>
            forall j, k :: i <= j < |vs| && 0 <= k < |vs[j].deps| ==>
              !Fails(vs[j].name, Registered(vs), vs[j].deps[k], Allocated(vs, j, allocatedFirst))
    ensures Scan(vs, i, allocatedFirst).0 != Ok ==>
              Scan(vs, i, allocatedFirst).0 ==
              VarOutcome(vs[Scan(vs, i, allocatedFirst).1].name, Registered(vs), vs[Scan(vs, i, allocatedFirst).1].deps,
                         Allocated(vs, Scan(vs, i, allocatedFirst).1, allocatedFirst))
    decreases |vs| - i
  {
    if i < |vs| {
      VarOutcomeMeans(vs[i].name, Registered(vs), vs[i].deps, Allocated(vs, i, allocatedFirst));
      ScanMeans(vs, i + 1, allocatedFirst);
    }
  }

  /** When `init` fails with an error, the message names a registered
      variable and a dependency of it that is neither the variable itself
      nor any registered variable. */
  lemma InitErrorNamesMissing(vs: seq<VarView>, allocatedFirst: bool)
    requires InitOutcome(vs, allocatedFirst).0.Error?
    ensures exists i, k :: 0 <= i < |vs| && 0 <= k < |vs[i].deps| &&
              vs[i].deps[k].name != vs[i].name && vs[i].deps[k].name !in Registered(vs) &&
              InitOutcome(vs, allocatedFirst).0.message == DependencyMessage(vs[i].name, vs[i].deps[k].name)
  {
    ScanMeans(vs, 0, allocatedFirst);
    var i := InitOutcome(vs, allocatedFirst).1;
    VarOutcomeMeans(vs[i].name, Registered(vs), vs[i].deps, Allocated(vs, i, allocatedFirst));
  }

  /** A self-dependency, and a dependency on any registered name, never
      produces the error. */
  lemma NoMissingNoError(vs: seq<VarView>, allocatedFirst: bool)
    requires forall i, k :: 0 <= i < |vs| && 0 <= k < |vs[i].deps| ==>
               vs[i].deps[k].name == vs[i].name || vs[i].deps[k].name in Registered(vs)
    ensures !InitOutcome(vs, allocatedFirst).0.Error?
  {
    if InitOutcome(vs, allocatedFirst).0.Error? {
      InitErrorNamesMissing(vs, allocatedFirst);
    }
  }

  /** With every render target allocated first, registered dependencies
      never block: if every dependency is a registered variable, `init`
      succeeds. */
  lemma CorrectedRegisteredOk(vs: seq<VarView>)
    requires WellFormed(vs)
    requires forall i, k :: 0 <= i < |vs| && 0 <= k < |vs[i].deps| ==> vs[i].deps[k].reg >= 0
    ensures InitOutcome(vs, true).0 == Ok
  {
    forall i, k | 0 <= i < |vs| && 0 <= k < |vs[i].deps|
      ensures !Fails(vs[i].name, Registered(vs), vs[i].deps[k], Allocated(vs, i, true))
    {
      assert vs[vs[i].deps[k].reg] in vs;
    }
    ScanMeans(vs, 0, true);
  }

  /** As written, `init` succeeds when every dependency is the variable
      itself or a variable registered before it, as in the cavity
      simulation's single self-dependent variable. */
  lemma AsWrittenBackwardOk(vs: seq<VarView>)
    requires WellFormed(vs)
    requires forall i, k :: 0 <= i < |vs| && 0 <= k < |vs[i].deps| ==> 0 <= vs[i].deps[k].reg <= i
    ensures InitOutcome(vs, false).0 == Ok
  {
    forall i, k | 0 <= i < |vs| && 0 <= k < |vs[i].deps|
      ensures !Fails(vs[i].name, Registered(vs), vs[i].deps[k], Allocated(vs, i, false))
    {
      assert vs[vs[i].deps[k].reg] in vs;
    }
    ScanMeans(vs, 0, false);
  }

  /** Allocating first never turns a success into a failure. */
  lemma CorrectedNoWorse(vs: seq<VarView>)
    requires InitOutcome(vs, false).0 == Ok
    ensures InitOutcome(vs, true).0 == Ok
  {
    ScanMeans(vs, 0, false);
    ScanMeans(vs, 0, true);
  }

  /** The dependency loop, run on the render targets the dependencies
      actually hold, ends as the view-level check says whenever each
      dependency is blocked exactly when its view is not ready. */
  lemma {:induction false} BindDepsMatches(own: string, registered: set<string>, ds: seq<Dep>, dvs: seq<DepView>,
                                           holders: int, m: map<string, Texture>)
    requires |ds| == |dvs|
    requires forall k :: 0 <= k < |ds| ==> ds[k].name == dvs[k].name && ds[k].count == dvs[k].count
    requires forall k :: 0 <= k < |ds| ==> (Blocked(ds[k]) <==> dvs[k].count > 0 && !Ready(dvs[k], holders))
    ensures BindDeps(own, registered, ds, m).0 == VarOutcome(own, registered, dvs, holders)
    decreases |ds|
  {
    if ds != [] {
      var d := ds[0];
      var m' := if d.count <= 0 || d.textures.None? || |d.textures.value| < d.count then m
                else BindTextures(m, d.textures.value[..d.count]);
      BindDepsMatches(own, registered, ds[1..], dvs[1..], holders, m');
    }
  }

  /** Variable "a" depends on "b", registered after it, on a first `init`:
      as written, "a" binds while "b" has no render target yet and the
      access throws; with every render target allocated first, `init`
      succeeds. */
  lemma ForwardDependencyThrows()
    ensures InitOutcome([VarView("a", [DepView("b", 1, 1, false)]), VarView("b", [])], false) == (Thrown, 0)
    ensures InitOutcome([VarView("a", [DepView("b", 1, 1, false)]), VarView("b", [])], true).0 == Ok
  {
    var vs := [VarView("a", [DepView("b", 1, 1, false)]), VarView("b", [])];
    assert "b" in Registered(vs) by {
      assert vs[1] in vs;
    }
  }
}
