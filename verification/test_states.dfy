/** The `test` state module (`tests/nest/test.py`): handlers that return a
    fixed kind of result, used to exercise the runtime's success, failure,
    change and watch paths, plus one handler that injects a low chunk into a
    running apply. */
module TestStates {
  import opened Values
  import opened Init
  import opened Serial

  /** The record every state handler returns. */
  datatype StateResult = StateResult(name: string, changes: Dict, result: bool, comment: string)

  /** The change report of the two `*_with_changes` handlers. */
  const PretendChanges: Dict :=
    map["testing" := VMap(map["old" := VStr("Unchanged"), "new" := VStr("Something pretended to change")])]

  /** A state has converged when it reports no changes. */
  predicate Converged(r: StateResult)
  {
    |r.changes| == 0
  }

  /** `succeed_without_changes`: success, nothing changed. */
  function SucceedWithoutChanges(name: string, kwargs: Dict): (r: StateResult)
    ensures r.name == name && r.result && Converged(r)
    ensures r.comment == "Success!"
  {
    StateResult(name, map[], true, "Success!")
  }

  /** `nop`: does nothing and says so, whatever it is passed. */
  function Nop(name: string, kwargs: Dict): (r: StateResult)
    ensures r.name == name && r.result && Converged(r)
    ensures r.comment == "Success!"
  {
    SucceedWithoutChanges(name, map[])
  }

  /** `fail_without_changes`: failure, nothing changed. */
  function FailWithoutChanges(name: string, kwargs: Dict): (r: StateResult)
    ensures r.name == name && !r.result && Converged(r)
    ensures r.comment == "Failure!"
  {
    StateResult(name, map[], false, "Failure!")
  }

  /** `succeed_with_changes`: success with a pretended change. */
  function SucceedWithChanges(name: string, kwargs: Dict): (r: StateResult)
    ensures r.name == name && r.result && !Converged(r)
    ensures r.changes == PretendChanges && r.comment == "Success!"
  {
    var ret := StateResult(name, map[], true, "Success!");
    ret.(changes := PretendChanges)
  }

  /** `fail_with_changes`: failure with a pretended change. */
  function FailWithChanges(name: string, kwargs: Dict): (r: StateResult)
    ensures r.name == name && !r.result && !Converged(r)
    ensures r.changes == PretendChanges && r.comment == "Failure!"
  {
    var ret := StateResult(name, map[], false, "Failure!");
    ret.(changes := PretendChanges)
  }

  /** `mod_watch`: the reaction handler, reporting that the watch ran. */
  function ModWatch(name: string, kwargs: Dict): (r: StateResult)
    ensures r.name == name && r.result && !Converged(r)
    ensures r.changes == map["watch" := VBool(true)] && r.comment == "Watch ran!"
  {
    StateResult(name, map["watch" := VBool(true)], true, "Watch ran!")
  }

  /** Keyword arguments never influence a handler's result. */
  lemma KwargsIgnored(name: string, kw1: Dict, kw2: Dict)
    ensures Nop(name, kw1) == SucceedWithoutChanges(name, kw2)
    ensures SucceedWithoutChanges(name, kw1) == SucceedWithoutChanges(name, kw2)
    ensures FailWithoutChanges(name, kw1) == FailWithoutChanges(name, kw2)
    ensures SucceedWithChanges(name, kw1) == SucceedWithChanges(name, kw2)
    ensures FailWithChanges(name, kw1) == FailWithChanges(name, kw2)
    ensures ModWatch(name, kw1) == ModWatch(name, kw2)
  {
  }

  /** The succeeding and failing handlers of each pair report the same
      changes and differ only in `result` and `comment`. */
  lemma PairsDifferInOutcomeOnly(name: string, kwargs: Dict)
    ensures FailWithoutChanges(name, kwargs)
            == SucceedWithoutChanges(name, kwargs).(result := false, comment := "Failure!")
    ensures FailWithChanges(name, kwargs)
            == SucceedWithChanges(name, kwargs).(result := false, comment := "Failure!")
  {
  }

  /** The reaction handler reports the same success as
      `succeed_without_changes`, with the watch marker as its change and its
      own comment. */
  lemma ModWatchMarksWatch(name: string, kwargs: Dict)
    ensures ModWatch(name, kwargs)
            == SucceedWithoutChanges(name, kwargs).(changes := map["watch" := VBool(true)],
                                                    comment := "Watch ran!")
  {
  }

  /** The low chunk `update_low` injects: a `test.nop` call. */
  const ExtraLow: Value :=
    VMap(map[
      "__sls__" := VStr("none"),
      "name" := VStr("totally_extra_alls"),
      "__id__" := VStr("king_arthur"),
      "state" := VStr("test"),
      "fun" := VStr("nop")
    ])

  /** `update_low`: append `ExtraLow` to the `low` list of the run named
      `runName`, then succeed without changes. The lookup raises when the run
      or its `low` key is missing, and `append` when `low` is not a list. */
  function UpdateLow(runs: Runs, name: string, runName: string): (r: Result<(Runs, StateResult)>)
    ensures runName !in runs ==> r == Failure(KeyError(runName))
    ensures runName in runs && "low" !in runs[runName] ==> r == Failure(KeyError("low"))
    ensures runName in runs && "low" in runs[runName] && !runs[runName]["low"].VList? ==>
      r == Failure(AttributeError("append"))
    ensures r.Success? <==> runName in runs && "low" in runs[runName] && runs[runName]["low"].VList?
    ensures r.Success? ==>
      && runName in runs && "low" in runs[runName] && runs[runName]["low"].VList?
      && var (runs', ret) := r.value;
      && runs'.Keys == runs.Keys
      && runs'[runName].Keys == runs[runName].Keys
      && runs'[runName]["low"] == VList(runs[runName]["low"].items + [ExtraLow])
      && (forall k :: k in runs[runName] && k != "low" ==> runs'[runName][k] == runs[runName][k])
      && (forall n :: n in runs && n != runName ==> runs'[n] == runs[n])
      && ret == SucceedWithoutChanges(name, map[])
  {
    if runName !in runs then Failure(KeyError(runName))
    else if "low" !in runs[runName] then Failure(KeyError("low"))
    else
      var low := runs[runName]["low"];
      if !low.VList? then Failure(AttributeError("append"))
      else
        var record := runs[runName]["low" := VList(low.items + [ExtraLow])];
        Success((runs[runName := record], SucceedWithoutChanges(name, map[])))
  }

  /** `create` writes no `low` list, so a run fresh from `create` cannot have
      a chunk injected before a later stage gives it one. */
  lemma UpdateLowNeedsCompiledRun(runs: Runs, name: string, runName: string,
                                  a1: Value, a2: Value, a3: Value, a4: Value, a5: Value)
    ensures UpdateLow(Create(runs, runName, a1, a2, a3, a4, a5), name, runName)
            == Failure(KeyError("low"))
  {
    assert "low" !in ConfigKeys;
  }

  /** Each successful call grows the run's `low` by exactly one chunk and
      leaves the earlier chunks in place. */
  lemma UpdateLowTwice(runs: Runs, name1: string, name2: string, runName: string)
    requires runName in runs && "low" in runs[runName] && runs[runName]["low"].VList?
    ensures UpdateLow(runs, name1, runName).Success?
    ensures var runs1 := UpdateLow(runs, name1, runName).value.0;
      && UpdateLow(runs1, name2, runName).Success?
      && UpdateLow(runs1, name2, runName).value.0[runName]["low"]
         == VList(runs[runName]["low"].items + [ExtraLow, ExtraLow])
  {
    var low := runs[runName]["low"].items;
    assert low + [ExtraLow] + [ExtraLow] == low + [ExtraLow, ExtraLow];
  }

  /** The `name` argument the example engine of `InjectionKeepsCounter`
      passes to `update_low`: the chunk's `name` string, or the empty string
      when the chunk has none. */
  function ChunkName(chunk: Dict): string
  {
    match Get(chunk, "name")
    case VStr(s) => s
    case _ => ""
  }

  /** A rule engine whose dispatched state is `update_low` against the run
      named `runName`: it writes the injected chunk into the registry, or
      raises what `update_low` raises. */
  function InjectingRule(runName: string): Rule
  {
    (rs: Runs, d: Dispatch) =>
      var r := UpdateLow(rs, ChunkName(d.chunk), runName);
      if r.Success? then Step(r.value.0, None) else Step(rs, Some(r.error))
  }

  /** Injecting a chunk never disturbs any run's counter, so the serial
      runtime keeps numbering dispatches consecutively while `update_low`
      grows a run's `low` list. */
  lemma InjectionKeepsCounter(runName: string, name: string)
    ensures KeepsCounter(InjectingRule(runName), name)
  {
    var rule := InjectingRule(runName);
    forall rs: Runs, d: Dispatch | HasIntCounter(rs, name)
      ensures HasIntCounter(rule(rs, d).runs, name)
      ensures rule(rs, d).runs[name]["run_num"] == rs[name]["run_num"]
    {
      var r := UpdateLow(rs, ChunkName(d.chunk), runName);
      if r.Success? {
        var runs' := r.value.0;
        if name == runName {
          assert "run_num" != "low";
          assert runs'[name]["run_num"] == rs[name]["run_num"];
        } else {
          assert runs'[name] == rs[name];
        }
      }
    }
  }

  /** The engine's write survives the increment that follows it: one pass of
      the runtime's loop with this engine completes and leaves the injected
      chunk at the end of the run's `low`. */
  lemma InjectionReachesRegistry(current: Runs, name: string, e: Entry, runName: string)
    ensures HasIntCounter(current, name) && runName in current && "low" in current[runName]
            && current[runName]["low"].VList? ==>
      var t := Turn(current, name, e, InjectingRule(runName));
      && t.raised.None?
      && runName in t.runs && "low" in t.runs[runName]
      && t.runs[runName]["low"] == VList(current[runName]["low"].items + [ExtraLow])
  {
    if HasIntCounter(current, name) && runName in current && "low" in current[runName]
       && current[runName]["low"].VList? {
      var r := UpdateLow(current, ChunkName(e.chunk), runName);
      var injected := r.value.0;
      assert "run_num" != "low";
      assert HasIntCounter(injected, name);
    }
  }
}
