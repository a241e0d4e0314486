/** Uniform binding of the multi-render-target compute renderer: how the
    output textures of a variable's dependencies become entries of its
    material's uniform table, and the dependency validation `init` performs
    while binding. */
module Bindings {

  datatype Option<T> = None | Some(value: T)

  /** A texture handle. Its name is the key under which a dependent
      variable's material binds it. */
  class Texture {
    const name: string

    constructor (name: string)
      ensures this.name == name
    {
      this.name := name;
    }
  }

  /** What `init` ends with: `null` (Ok), an error string, or an exception
      thrown by a property access on `undefined`. */
  datatype InitResult = Ok | Error(message: string) | Thrown

  const CapabilityMessage: string := "No support for vertex shader textures."

  function DependencyMessage(variable: string, dependency: string): string
  {
    "Variable dependency not found. Variable=" + variable + ", dependency=" + dependency
  }

  /** A dependency as binding sees it: its name, its number of output
      textures, and the textures of the render target it holds at the index
      being read (None when it holds none there). */
  datatype Dep = Dep(name: string, count: int, textures: Option<seq<Texture>>)

  /** The names of the textures ts. */
  function Names(ts: seq<Texture>): set<string>
  {
    set t | t in ts :: t.name
  }

  /** The uniform table m after binding each texture of ts, in order, under
      its own name: a later texture of the same name replaces an earlier one. */
  function BindTextures(m: map<string, Texture>, ts: seq<Texture>): map<string, Texture>
    decreases |ts|
  {
    if ts == [] then m else BindTextures(m, ts[..|ts| - 1])[ts[|ts| - 1].name := ts[|ts| - 1]]
  }

  /** Binding adds exactly the names of ts to the table and leaves every
      other key as it was. */
  lemma {:induction false} BindTexturesKeys(m: map<string, Texture>, ts: seq<Texture>)
    ensures BindTextures(m, ts).Keys == m.Keys + Names(ts)
    ensures forall key :: key in m && key !in Names(ts) ==> BindTextures(m, ts)[key] == m[key]
    decreases |ts|
  {
    if ts != [] {
      var n := |ts| - 1;
      BindTexturesKeys(m, ts[..n]);
      assert Names(ts) == Names(ts[..n]) + {ts[n].name} by {
        assert ts == ts[..n] + [ts[n]];
      }
    }
  }

  /** Each texture of ts that no later texture shadows is bound under its
      name; every bound key holds a texture of that name. */
  lemma {:induction false} BindTexturesHolds(m: map<string, Texture>, ts: seq<Texture>)
    ensures forall k :: 0 <= k < |ts| && (forall j :: k < j < |ts| ==> ts[j].name != ts[k].name) ==>
              ts[k].name in BindTextures(m, ts) && BindTextures(m, ts)[ts[k].name] == ts[k]
    ensures forall key :: key in Names(ts) ==> key in BindTextures(m, ts) && BindTextures(m, ts)[key].name == key
    decreases |ts|
  {
    BindTexturesKeys(m, ts);
    if ts != [] {
      var n := |ts| - 1;
      BindTexturesHolds(m, ts[..n]);
      forall k | 0 <= k < |ts| && (forall j :: k < j < |ts| ==> ts[j].name != ts[k].name)
        ensures ts[k].name in BindTextures(m, ts) && BindTextures(m, ts)[ts[k].name] == ts[k]
      {
        if k < n {
          assert ts[n].name != ts[k].name;
          assert forall j :: k < j < n ==> ts[..n][j].name != ts[..n][k].name;
        }
      }
      forall key | key in Names(ts)
        ensures key in BindTextures(m, ts) && BindTextures(m, ts)[key].name == key
      {
        if key != ts[n].name {
          assert ts == ts[..n] + [ts[n]];
          assert key in Names(ts[..n]);
        }
      }
    }
  }

  /** Binding a + b binds a, then b. */
  lemma {:induction false} BindTexturesAppend(m: map<string, Texture>, a: seq<Texture>, b: seq<Texture>)
    ensures BindTextures(m, a + b) == BindTextures(BindTextures(m, a), b)
    decreases |b|
  {
    if b == [] {
      assert a + b == a;
    } else {
      var n := |b| - 1;
      var ab := a + b;
      assert ab[..|ab| - 1] == a + b[..n];
      assert ab[|ab| - 1] == b[n];
      BindTexturesAppend(m, a, b[..n]);
      assert BindTextures(m, ab) == BindTextures(m, a + b[..n])[b[n].name := b[n]];
    }
  }

  /** The dependency has output textures to bind but holds no render target
      with that many textures at the index being read. */
  predicate Blocked(d: Dep)
  {
    d.count > 0 && (d.textures.None? || |d.textures.value| < d.count)
  }

  /** The dependency names neither the variable itself nor any registered
      variable. */
  predicate Missing(own: string, registered: set<string>, d: Dep)
  {
    d.name != own && d.name !in registered
  }

  /** The textures one dependency contributes: the first count textures of
      the render target it holds. */
  function Outputs(d: Dep): (ts: seq<Texture>)
    requires !Blocked(d)
    ensures |ts| == if d.count > 0 then d.count else 0
    ensures d.count > 0 ==> ts == d.textures.value[..d.count]
  {
    if d.count <= 0 then [] else d.textures.value[..d.count]
  }

  /** All textures the dependencies ds contribute, dependency by dependency. */
  function Bound(ds: seq<Dep>): seq<Texture>
    requires forall d :: d in ds ==> !Blocked(d)
  {
    if ds == [] then [] else Bound(ds[..|ds| - 1]) + Outputs(ds[|ds| - 1])
  }

  /** Bound read from the front: the first dependency's outputs, then the rest. */
  lemma {:induction false} BoundCons(ds: seq<Dep>)
    requires ds != [] && forall d :: d in ds ==> !Blocked(d)
    ensures Bound(ds) == Outputs(ds[0]) + Bound(ds[1..])
    decreases |ds|
  {
    var n := |ds| - 1;
    if n > 0 {
      var front, rest := ds[..n], ds[1..];
      assert front[1..] == ds[1..n] == rest[..n - 1];
      assert rest[n - 1] == ds[n];
      assert forall d :: d in front ==> d in ds;
      BoundCons(front);
      calc {
        Bound(ds);
        Bound(front) + Outputs(ds[n]);
        (Outputs(ds[0]) + Bound(rest[..n - 1])) + Outputs(ds[n]);
        Outputs(ds[0]) + (Bound(rest[..n - 1]) + Outputs(rest[n - 1]));
        Outputs(ds[0]) + Bound(rest);
      }
    }
  }

  /** Binding the outputs of the first d + 1 dependencies binds those of
      the first d, then those of dependency d. */
  lemma BindBoundStep(m: map<string, Texture>, ds: seq<Dep>, d: int)
    requires 0 <= d < |ds| && forall e :: e in ds ==> !Blocked(e)
    ensures BindTextures(m, Bound(ds[..d + 1])) == BindTextures(BindTextures(m, Bound(ds[..d])), Outputs(ds[d]))
  {
    assert ds[..d + 1][..d] == ds[..d];
    BindTexturesAppend(m, Bound(ds[..d]), Outputs(ds[d]));
  }

  /** The dependency loop of `init` for one variable named own: dependency
      by dependency, a missing name returns the error naming both variables;
      a dependency without the render target to read from throws after
      binding what it could; otherwise its output textures are bound. The
      result and the uniform table it leaves. */
  function BindDeps(own: string, registered: set<string>, ds: seq<Dep>, m: map<string, Texture>):
    (r: (InitResult, map<string, Texture>))
    decreases |ds|
  {
    if ds == [] then (Ok, m)
    else
      var d := ds[0];
      if Missing(own, registered, d) then (Error(DependencyMessage(own, d.name)), m)
      else if d.count <= 0 then BindDeps(own, registered, ds[1..], m)
      else if d.textures.None? then (Thrown, m)
      else if |d.textures.value| < d.count then (Thrown, BindTextures(m, d.textures.value))
      else BindDeps(own, registered, ds[1..], BindTextures(m, d.textures.value[..d.count]))
  }

  /** The dependency loop succeeds exactly when no dependency is missing or
      blocked, and then it binds every dependency's outputs in order. */
  lemma {:induction false} BindDepsOk(own: string, registered: set<string>, ds: seq<Dep>, m: map<string, Texture>)
    ensures BindDeps(own, registered, ds, m).0 == Ok <==>
            forall d :: d in ds ==> !Missing(own, registered, d) && !Blocked(d)
    ensures BindDeps(own, registered, ds, m).0 == Ok ==>
            BindDeps(own, registered, ds, m).1 == BindTextures(m, Bound(ds))
    decreases |ds|
  {
    if ds == [] {
    } else {
      var d := ds[0];
      assert forall e :: e in ds <==> e == d || e in ds[1..] by {
        assert ds == [d] + ds[1..];
      }
      if Missing(own, registered, d) || Blocked(d) {
      } else {
        var m' := if d.count <= 0 then m else BindTextures(m, d.textures.value[..d.count]);
        assert m' == BindTextures(m, Outputs(d));
        BindDepsOk(own, registered, ds[1..], m');
        if BindDeps(own, registered, ds, m).0 == Ok {
          BoundCons(ds);
          BindTexturesAppend(m, Outputs(d), Bound(ds[1..]));
        }
      }
    }
  }

  /** An error names the variable and a dependency that is missing. */
  lemma {:induction false} BindDepsError(own: string, registered: set<string>, ds: seq<Dep>, m: map<string, Texture>)
    requires BindDeps(own, registered, ds, m).0.Error?
    ensures exists d :: d in ds && Missing(own, registered, d) &&
              BindDeps(own, registered, ds, m).0.message == DependencyMessage(own, d.name)
    decreases |ds|
  {
    var d := ds[0];
    if !Missing(own, registered, d) {
      if d.count <= 0 {
        BindDepsError(own, registered, ds[1..], m);
      } else {
        BindDepsError(own, registered, ds[1..], BindTextures(m, d.textures.value[..d.count]));
      }
      var e :| e in ds[1..] && Missing(own, registered, e) &&
               BindDeps(own, registered, ds, m).0.message == DependencyMessage(own, e.name);
      assert e in ds;
    }
  }

  /** Binding never forgets a key: the table after the loop, whatever its
      outcome, holds every key it held before. */
  lemma {:induction false} BindDepsKeeps(own: string, registered: set<string>, ds: seq<Dep>, m: map<string, Texture>)
    ensures m.Keys <= BindDeps(own, registered, ds, m).1.Keys
    decreases |ds|
  {
    if ds != [] {
      var d := ds[0];
      if !Missing(own, registered, d) && d.count > 0 && d.textures.Some? {
        if |d.textures.value| < d.count {
          BindTexturesKeys(m, d.textures.value);
        } else {
          var m' := BindTextures(m, d.textures.value[..d.count]);
          BindTexturesKeys(m, d.textures.value[..d.count]);
          BindDepsKeeps(own, registered, ds[1..], m');
        }
      } else if !Missing(own, registered, d) && d.count <= 0 {
        BindDepsKeeps(own, registered, ds[1..], m);
      }
    }
  }

  /** The outcome of the dependency loop does not depend on the table it
      binds into: only the dependencies decide it. */
  lemma {:induction false} BindDepsOutcome(own: string, registered: set<string>, ds: seq<Dep>,
                                           m: map<string, Texture>, m': map<string, Texture>)
    ensures BindDeps(own, registered, ds, m).0 == BindDeps(own, registered, ds, m').0
    decreases |ds|
  {
    if ds != [] {
      var d := ds[0];
      if !Missing(own, registered, d) {
        if d.count <= 0 {
          BindDepsOutcome(own, registered, ds[1..], m, m');
        } else if d.textures.Some? && |d.textures.value| >= d.count {
          BindDepsOutcome(own, registered, ds[1..], BindTextures(m, d.textures.value[..d.count]),
                          BindTextures(m', d.textures.value[..d.count]));
        }
      }
    }
  }
}
