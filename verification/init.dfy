/** The engine's top-level bookkeeping (`idem/init.py`): the process-wide
    run registry `RUNS`, the requisite behaviour map `RMAP`, and the fixed
    order in which one apply drives its stages.

Collaborators whose source is not part of this model (source gathering, the
compiler stages' bodies, the runtime start) appear only as events in a trace:
the model states when and with what they are invoked, not what they do. */
module Init {
  import opened Values
  import opened Seqs

  /** One run's configuration and state: a dictionary, as in the source,
      so that later stages may add keys such as `low` or `run_num`. */
  type Record = Dict

  /** `hub.idem.RUNS`: run name to run record. */
  type Runs = map<string, Record>

  /** The part of the hub this module reads and writes. */
  datatype Hub = Hub(runs: Runs, rmap: Dict)

  /** The keys `create` writes. */
  const ConfigKeys: set<string> :=
    {"sls_sources", "render", "runtime", "subs", "cache_dir", "states"}

  /** `create`: store a fresh record under `name`, overwriting any record
      already there. */
  function Create(runs: Runs, name: string, slsSources: Value, render: Value,
                  runtime: Value, subs: Value, cacheDir: Value): (r: Runs)
    ensures r.Keys == runs.Keys + {name}
    ensures r[name].Keys == ConfigKeys
    ensures r[name]["sls_sources"] == slsSources && r[name]["render"] == render
    ensures r[name]["runtime"] == runtime && r[name]["subs"] == subs
    ensures r[name]["cache_dir"] == cacheDir
    ensures r[name]["states"] == VMap(map[])
    ensures forall other :: other in runs && other != name ==> r[other] == runs[other]
  {
    runs[name := map[
      "sls_sources" := slsSources,
      "render" := render,
      "runtime" := runtime,
      "subs" := subs,
      "cache_dir" := cacheDir,
      "states" := VMap(map[])
    ]]
  }

  /** There is no conflict check: a second `create` under an existing name
      succeeds and leaves only the second configuration. */
  lemma CreateOverwrites(runs: Runs, name: string,
                         a1: Value, a2: Value, a3: Value, a4: Value, a5: Value,
                         b1: Value, b2: Value, b3: Value, b4: Value, b5: Value)
    ensures Create(Create(runs, name, a1, a2, a3, a4, a5), name, b1, b2, b3, b4, b5)
            == Create(runs, name, b1, b2, b3, b4, b5)
  {
  }

  /** The record `create` stores does not depend on what was there before:
      keys that later stages added to an earlier run of that name are gone. */
  lemma CreateForgetsPrevious(runs1: Runs, runs2: Runs, name: string,
                              a1: Value, a2: Value, a3: Value, a4: Value, a5: Value)
    ensures Create(runs1, name, a1, a2, a3, a4, a5)[name]
            == Create(runs2, name, a1, a2, a3, a4, a5)[name]
  {
  }

  /** Creating two runs under different names gives the same registry in
      either order. */
  lemma CreateCommutes(runs: Runs, n1: string, n2: string,
                       a1: Value, a2: Value, a3: Value, a4: Value, a5: Value,
                       b1: Value, b2: Value, b3: Value, b4: Value, b5: Value)
    requires n1 != n2
    ensures Create(Create(runs, n1, a1, a2, a3, a4, a5), n2, b1, b2, b3, b4, b5)
            == Create(Create(runs, n2, b1, b2, b3, b4, b5), n1, a1, a2, a3, a4, a5)
  {
    var l := Create(Create(runs, n1, a1, a2, a3, a4, a5), n2, b1, b2, b3, b4, b5);
    var r := Create(Create(runs, n2, b1, b2, b3, b4, b5), n1, a1, a2, a3, a4, a5);
    assert l.Keys == r.Keys;
    forall k | k in l
      ensures l[k] == r[k]
    {
    }
  }

  /** A module of the `idem.req` subsystem: its `__sub_name__`, and the value
      its `define()` returns when it has that attribute. */
  datatype ReqModule = ReqModule(subName: string, define: Option<Value>)

  /** Whether `req_map` enters the module into the map. */
  predicate Contributes(m: ReqModule)
  {
    m.subName != "init" && m.define.Some?
  }

  /** The map `req_map` builds, visiting the modules in order; a later module
      under an already-entered name overwrites the earlier entry. */
  function BuildReqMap(mods: seq<ReqModule>): (r: Dict)
    ensures forall n :: n in r <==>
      exists i :: 0 <= i < |mods| && Contributes(mods[i]) && mods[i].subName == n
  {
    if |mods| == 0 then map[]
    else
      var front := BuildReqMap(mods[..|mods| - 1]);
      var last := mods[|mods| - 1];
      if Contributes(last) then front[last.subName := last.define.value] else front
  }

  /** `req_map`: rebuild `RMAP` from the requisite modules, replacing the old
      map wholesale and leaving the run registry alone. */
  function ReqMap(hub: Hub, mods: seq<ReqModule>): (r: Hub)
    ensures r.runs == hub.runs
    ensures r.rmap == BuildReqMap(mods)
  {
    hub.(rmap := BuildReqMap(mods))
  }

  /** After `req_map`, `init` is never a key, names the modules no longer
      contribute are gone, and every contributing module is present. */
  lemma ReqMapWholesale(hub: Hub, mods: seq<ReqModule>)
    ensures "init" !in ReqMap(hub, mods).rmap
    ensures forall n :: n in hub.rmap && n !in BuildReqMap(mods) ==> n !in ReqMap(hub, mods).rmap
    ensures forall i :: 0 <= i < |mods| && Contributes(mods[i]) ==> mods[i].subName in ReqMap(hub, mods).rmap
  {
  }

  /** The value under a name is the `define()` result of the last
      contributing module of that name. */
  lemma {:induction false} ReqMapLastWins(mods: seq<ReqModule>, i: nat)
    requires i < |mods| && Contributes(mods[i])
    requires forall j :: i < j < |mods| && Contributes(mods[j]) ==> mods[j].subName != mods[i].subName
    ensures BuildReqMap(mods)[mods[i].subName] == mods[i].define.value
  {
    var n := |mods| - 1;
    if i < n {
      assert mods[..n][i] == mods[i];
      ReqMapLastWins(mods[..n], i);
    }
  }

  /** When the requisite modules have distinct names (as the modules of one
      subsystem do), every contributing module's `define()` result is found
      under its own name. */
  lemma ReqMapLookup(mods: seq<ReqModule>, i: nat)
    requires forall j, k :: 0 <= j < k < |mods| ==> mods[j].subName != mods[k].subName
    requires i < |mods| && Contributes(mods[i])
    ensures BuildReqMap(mods)[mods[i].subName] == mods[i].define.value
  {
    ReqMapLastWins(mods, i);
  }

  /** A module of the `idem.compiler` subsystem: its name, and whether it has
      a `stage` function. */
  datatype CompilerModule = CompilerModule(subName: string, hasStage: bool)

  predicate HasStage(m: CompilerModule)
  {
    m.hasStage
  }

  /** An invocation of a collaborator whose body is not modelled. */
  datatype Event =
    | Created(run: string)                    // `create` stored the run record
    | Gathered(run: string, sls: seq<Value>)  // `hub.idem.resolve.gather(name, *sls)`
    | Staged(mod: string, run: string)     // `mod.stage(name)` of one compiler module
    | Started(run: string)                    // `hub.idem.run.init.start(name)`

  /** `compile_`: the stage invocations, one per compiler module that has a
      `stage`, in iteration order, each awaited before the next. */
  function Compile(name: string, mods: seq<CompilerModule>): (r: seq<Event>)
    ensures |r| <= |mods|
    ensures forall k :: 0 <= k < |r| ==> r[k].Staged? && r[k].run == name
    ensures forall k :: 0 <= k < |r| ==>
      exists j :: 0 <= j < |mods| && mods[j].hasStage && r[k].mod == mods[j].subName
  {
    var ps := Positions(mods, |mods|, HasStage);
    assert forall k :: 0 <= k < |ps| ==> ps[k] < |mods| && HasStage(mods[ps[k]]);
    seq(|ps|, k requires 0 <= k < |ps| => Staged(mods[ps[k]].subName, name))
  }

  /** `compile_` is a left-to-right pass: a further module adds its stage
      call at the end when it has a `stage` and nothing otherwise. */
  lemma CompileSnoc(name: string, mods: seq<CompilerModule>, m: CompilerModule)
    ensures Compile(name, mods + [m])
            == Compile(name, mods) + (if m.hasStage then [Staged(m.subName, name)] else [])
  {
    PositionsSnoc(mods, m, HasStage);
    var ps := Positions(mods, |mods|, HasStage);
    var ps' := Positions(mods + [m], |mods| + 1, HasStage);
    var l := Compile(name, mods + [m]);
    var r := Compile(name, mods) + (if m.hasStage then [Staged(m.subName, name)] else []);
    assert |l| == |r|;
    forall k | 0 <= k < |l|
      ensures l[k] == r[k]
    {
      if k < |ps| {
        assert ps'[k] == ps[k];
        assert (mods + [m])[ps[k]] == mods[ps[k]];
      }
    }
  }

  /** Every compiler module with a `stage` is invoked, in module order. */
  lemma CompileInvokesEveryStage(name: string, mods: seq<CompilerModule>)
    ensures |Compile(name, mods)| == |Positions(mods, |mods|, HasStage)|
    ensures forall k :: 0 <= k < |Compile(name, mods)| ==>
      Compile(name, mods)[k].mod == mods[Positions(mods, |mods|, HasStage)[k]].subName
    ensures forall j :: 0 <= j < |mods| && mods[j].hasStage ==>
      exists k :: 0 <= k < |Compile(name, mods)| && Compile(name, mods)[k] == Staged(mods[j].subName, name)
  {
    var ps := Positions(mods, |mods|, HasStage);
    var r := Compile(name, mods);
    forall j | 0 <= j < |mods| && mods[j].hasStage
      ensures exists k :: 0 <= k < |r| && r[k] == Staged(mods[j].subName, name)
    {
      assert HasStage(mods[j]);
      var k :| 0 <= k < |ps| && ps[k] == j;
      assert r[k] == Staged(mods[j].subName, name);
    }
  }

  /** The observable effect of `apply`: the registry right after `create`,
      and the invocation trace of the steps that follow it. */
  datatype Applied = Applied(runs: Runs, trace: seq<Event>)

  /** `apply`: create the run, gather its sources, compile it, then start
      the runtime, each step awaited before the next. */
  function Apply(runs: Runs, name: string, slsSources: Value, render: Value,
                 runtime: Value, subs: Value, cacheDir: Value, sls: seq<Value>,
                 compilers: seq<CompilerModule>): (r: Applied)
    ensures r.runs == Create(runs, name, slsSources, render, runtime, subs, cacheDir)
    ensures r.runs.Keys == runs.Keys + {name} && r.runs[name].Keys == ConfigKeys
    ensures |r.trace| >= 3
    ensures r.trace[0] == Created(name)
    ensures r.trace[1] == Gathered(name, sls)
    ensures r.trace[|r.trace| - 1] == Started(name)
    ensures forall k :: 2 <= k < |r.trace| - 1 ==> r.trace[k].Staged? && r.trace[k].run == name
    ensures forall k :: 0 <= k < |r.trace| ==> r.trace[k].run == name
  {
    Applied(Create(runs, name, slsSources, render, runtime, subs, cacheDir),
            [Created(name), Gathered(name, sls)] + Compile(name, compilers) + [Started(name)])
  }

  /** The stage calls `apply` makes are exactly those of `compile_`, and they
      happen after the run is created and gathered and before it starts. */
  lemma ApplyOrdersSteps(runs: Runs, name: string, slsSources: Value, render: Value,
                         runtime: Value, subs: Value, cacheDir: Value, sls: seq<Value>,
                         compilers: seq<CompilerModule>)
    ensures var t := Apply(runs, name, slsSources, render, runtime, subs, cacheDir, sls, compilers).trace;
      && t[2..|t| - 1] == Compile(name, compilers)
      && (forall k :: 0 <= k < |t| && t[k].Created? ==> k == 0)
      && (forall k :: 0 <= k < |t| && t[k].Gathered? ==> k == 1)
      && (forall k :: 0 <= k < |t| && t[k].Started? ==> k == |t| - 1)
  {
    var t := Apply(runs, name, slsSources, render, runtime, subs, cacheDir, sls, compilers).trace;
    var c := Compile(name, compilers);
    assert t == [Created(name), Gathered(name, sls)] + c + [Started(name)];
    assert t[2..|t| - 1] == c;
  }
}
