/** The serial runtime (`idem/run/serial.py`): run every chunk of the
    current pass whose requisites are met, one after another, numbering each
    dispatch from the run's `run_num` counter.

The rule engine that executes a chunk (`hub.idem.rules.init.run`) is not part
of this model; each of its invocations is recorded as a `Dispatch`. */
module Serial {
  import opened Values
  import opened Seqs
  import opened Init

  /** One item of the `seq` dictionary handed to the runtime: its key and
      its chunk, in the dictionary's iteration order. */
  datatype Entry = Entry(ind: Value, chunk: Dict)

  /** One invocation of the rule engine: the chunk it ran and the run number
      it was given (whatever the registry held under `run_num`). */
  datatype Dispatch = Dispatch(ind: Value, chunk: Dict, runNum: Value)

  /** What one rule-engine call leaves behind: the registry as it then
      stands, and the exception it raised, if any. */
  datatype Step = Step(runs: Runs, raised: Option<Error>)

  /** The rule engine `hub.idem.rules.init.run`, seen through its effect on
      the registry. Its body is not part of this model, so `runtime` takes it
      as a parameter and promises nothing about what it writes. */
  type Rule = (Runs, Dispatch) -> Step

  /** What the runtime leaves behind: the registry, the dispatches made, and
      the exception that ended the call early, if any. */
  datatype Outcome = Outcome(runs: Runs, dispatched: seq<Dispatch>, raised: Option<Error>)

  /** `seq[ind].get('unmet')` is falsy: the chunk may run in this pass. */
  predicate Runnable(e: Entry)
  {
    !Truthy(Get(e.chunk, "unmet"))
  }

  /** The run's counter holds an integer. */
  predicate HasIntCounter(runs: Runs, name: string)
  {
    name in runs && "run_num" in runs[name] && runs[name]["run_num"].VInt?
  }

  /** The rule engine leaves the run's counter as it found it (it may write
      anything else, as `update_low` does). */
  ghost predicate KeepsCounter(rule: Rule, name: string)
  {
    forall rs: Runs, d: Dispatch :: HasIntCounter(rs, name) ==>
      HasIntCounter(rule(rs, d).runs, name) && rule(rs, d).runs[name]["run_num"] == rs[name]["run_num"]
  }

  /** The rule engine never raises. */
  ghost predicate NeverRaises(rule: Rule)
  {
    forall rs: Runs, d: Dispatch :: rule(rs, d).raised.None?
  }

  /** `hub.idem.RUNS[name]['run_num']`, as evaluated for the dispatch's
      argument list. */
  function ReadCounter(runs: Runs, name: string): (r: Result<Value>)
    ensures name !in runs ==> r == Failure(KeyError(name))
    ensures name in runs && "run_num" !in runs[name] ==> r == Failure(KeyError("run_num"))
    ensures name in runs && "run_num" in runs[name] ==> r == Success(runs[name]["run_num"])
  {
    if name !in runs then Failure(KeyError(name))
    else if "run_num" !in runs[name] then Failure(KeyError("run_num"))
    else Success(runs[name]["run_num"])
  }

  /** `hub.idem.RUNS[name]['run_num'] += 1`. Python adds 1 to an `int` or a
      `bool` and raises `TypeError` for any other value the model represents. */
  function Bump(runs: Runs, name: string): (r: Result<Runs>)
    ensures name !in runs ==> r == Failure(KeyError(name))
    ensures name in runs && "run_num" !in runs[name] ==> r == Failure(KeyError("run_num"))
    ensures name in runs && "run_num" in runs[name]
            && !runs[name]["run_num"].VInt? && !runs[name]["run_num"].VBool? ==>
      r == Failure(TypeError("+="))
    ensures name in runs && "run_num" in runs[name] && runs[name]["run_num"].VBool? ==>
      r == Success(runs[name := runs[name]["run_num" := VInt(if runs[name]["run_num"].b then 2 else 1)]])
    ensures r.Success? <==>
      name in runs && "run_num" in runs[name]
      && (runs[name]["run_num"].VInt? || runs[name]["run_num"].VBool?)
    ensures HasIntCounter(runs, name) ==>
      r == Success(runs[name := runs[name]["run_num" := VInt(runs[name]["run_num"].i + 1)]])
    ensures r.Success? ==>
      && name in runs && "run_num" in runs[name]
      && name in r.value && "run_num" in r.value[name] && r.value[name]["run_num"].VInt?
      && r.value == runs[name := runs[name]["run_num" := r.value[name]["run_num"]]]
  {
    if name !in runs then Failure(KeyError(name))
    else if "run_num" !in runs[name] then Failure(KeyError("run_num"))
    else
      match runs[name]["run_num"]
      case VInt(i) => Success(runs[name := runs[name]["run_num" := VInt(i + 1)]])
      case VBool(b) => Success(runs[name := runs[name]["run_num" := VInt(if b then 2 else 1)]])
      case _ => Failure(TypeError("+="))
  }

  /** The entries at the given positions, in that order. */
  function Pick(entries: seq<Entry>, inds: seq<nat>): (es: seq<Entry>)
    requires forall k :: 0 <= k < |inds| ==> inds[k] < |entries|
    ensures |es| == |inds|
  {
    seq(|inds|, k requires 0 <= k < |inds| => entries[inds[k]])
  }

  /** One pass of the dispatch loop's body on entry `e`: read the counter,
      call the rule engine on the registry as it stands, then increment the
      counter in the registry the engine left. An exception at any point
      ends the pass; the dispatch counts as made once the engine is called. */
  function Turn(current: Runs, name: string, e: Entry, rule: Rule): (t: Outcome)
    ensures |t.dispatched| <= 1
    ensures t.raised.None? ==> |t.dispatched| == 1
    ensures forall j :: 0 <= j < |t.dispatched| ==>
      t.dispatched[j].ind == e.ind && t.dispatched[j].chunk == e.chunk
    ensures name !in current ==> t == Outcome(current, [], Some(KeyError(name)))
    ensures name in current && "run_num" !in current[name] ==>
      t == Outcome(current, [], Some(KeyError("run_num")))
  {
    match ReadCounter(current, name)
    case Failure(err) => Outcome(current, [], Some(err))
    case Success(num) =>
      var d := Dispatch(e.ind, e.chunk, num);
      var step := rule(current, d);
      if step.raised.Some? then Outcome(step.runs, [d], step.raised)
      else
        match Bump(step.runs, name)
        case Failure(err) => Outcome(step.runs, [d], Some(err))
        case Success(next) => Outcome(next, [d], None)
  }

  /** While the rule engine keeps the counter, a pass hands the engine the
      counter it finds and adds one to it unless the engine raised. */
  lemma TurnCounts(current: Runs, name: string, e: Entry, rule: Rule)
    ensures HasIntCounter(current, name) && KeepsCounter(rule, name) ==>
      var t := Turn(current, name, e, rule);
      && t.dispatched == [Dispatch(e.ind, e.chunk, current[name]["run_num"])]
      && HasIntCounter(t.runs, name)
      && t.runs[name]["run_num"].i == current[name]["run_num"].i + (if t.raised.None? then 1 else 0)
    ensures HasIntCounter(current, name) && KeepsCounter(rule, name) && NeverRaises(rule) ==>
      Turn(current, name, e, rule).raised.None?
  {
  }

  /** The dispatch loop read as a recursion over its first `n` entries: each
      entry takes its turn against the registry the previous one left, and
      the first exception stops everything that follows. */
  function Serve(runs: Runs, name: string, es: seq<Entry>, n: nat, rule: Rule): Outcome
    requires n <= |es|
  {
    if n == 0 then Outcome(runs, [], None)
    else
      var prev := Serve(runs, name, es, n - 1, rule);
      if prev.raised.Some? then prev
      else
        var t := Turn(prev.runs, name, es[n - 1], rule);
        Outcome(t.runs, prev.dispatched + t.dispatched, t.raised)
  }

  /** Once an exception has ended the loop, later entries change nothing. */
  lemma {:induction false} ServeStops(runs: Runs, name: string, es: seq<Entry>, n: nat, m: nat, rule: Rule)
    requires n <= m <= |es|
    requires Serve(runs, name, es, n, rule).raised.Some?
    ensures Serve(runs, name, es, m, rule) == Serve(runs, name, es, n, rule)
  {
    if n < m {
      ServeStops(runs, name, es, n, m - 1, rule);
    }
  }

  /** The dispatches are made in entry order, one per entry until an
      exception, and one per entry when nothing raised. */
  lemma {:induction false} ServeShape(runs: Runs, name: string, es: seq<Entry>, n: nat, rule: Rule)
    requires n <= |es|
    ensures var o := Serve(runs, name, es, n, rule);
      && |o.dispatched| <= n
      && (o.raised.None? ==> |o.dispatched| == n)
      && (forall k :: 0 <= k < |o.dispatched| ==>
            o.dispatched[k].ind == es[k].ind && o.dispatched[k].chunk == es[k].chunk)
  {
    if n > 0 {
      ServeShape(runs, name, es, n - 1, rule);
    }
  }

  /** A missing run or counter raises `KeyError` at the first entry, before
      any dispatch and without touching the registry. */
  lemma ServeMissingCounter(runs: Runs, name: string, es: seq<Entry>, n: nat, rule: Rule)
    requires n <= |es|
    ensures 0 < n && name !in runs ==>
      Serve(runs, name, es, n, rule) == Outcome(runs, [], Some(KeyError(name)))
    ensures 0 < n && name in runs && "run_num" !in runs[name] ==>
      Serve(runs, name, es, n, rule) == Outcome(runs, [], Some(KeyError("run_num")))
  {
    if 0 < n && (name !in runs || "run_num" !in runs[name]) {
      ServeStops(runs, name, es, 1, n, rule);
    }
  }

  /** While the rule engine keeps the counter, the k-th dispatch gets run
      number `start + k`, so no two share one, and the counter ends at
      `start` plus the completed dispatches. */
  lemma {:induction false} ServeCounts(runs: Runs, name: string, es: seq<Entry>, n: nat, rule: Rule)
    requires n <= |es|
    ensures HasIntCounter(runs, name) && KeepsCounter(rule, name) ==>
      var start := runs[name]["run_num"].i;
      var o := Serve(runs, name, es, n, rule);
      var d := o.dispatched;
      && (forall k :: 0 <= k < |d| ==> d[k].runNum == VInt(start + k))
      && (forall k, l :: 0 <= k < l < |d| ==> d[k].runNum != d[l].runNum)
      && HasIntCounter(o.runs, name)
      && (o.raised.None? ==> o.runs[name]["run_num"] == VInt(start + |d|))
      && (o.raised.Some? ==> 0 < |d| && o.runs[name]["run_num"] == VInt(start + |d| - 1))
    ensures HasIntCounter(runs, name) && KeepsCounter(rule, name) && NeverRaises(rule) ==>
      Serve(runs, name, es, n, rule).raised.None?
  {
    if n > 0 {
      ServeCounts(runs, name, es, n - 1, rule);
      var prev := Serve(runs, name, es, n - 1, rule);
      TurnCounts(prev.runs, name, es[n - 1], rule);
    }
  }

  /** The reference reading of `runtime`: the runnable entries, in order,
      served one after another. */
  function RunPass(runs: Runs, name: string, entries: seq<Entry>, rule: Rule): Outcome
  {
    var inds := Positions(entries, |entries|, Runnable);
    Serve(runs, name, Pick(entries, inds), |inds|, rule)
  }

  /** With nothing runnable, nothing is dispatched and the registry is left
      as it was. */
  lemma RunPassIdle(runs: Runs, name: string, entries: seq<Entry>, rule: Rule)
    ensures (forall j :: 0 <= j < |entries| ==> !Runnable(entries[j])) ==>
      RunPass(runs, name, entries, rule) == Outcome(runs, [], None)
  {
  }

  /** A missing run or counter raises `KeyError` before any dispatch, and
      only when something is runnable. */
  lemma RunPassMissingCounter(runs: Runs, name: string, entries: seq<Entry>, rule: Rule)
    ensures (exists j :: 0 <= j < |entries| && Runnable(entries[j])) ==>
      var out := RunPass(runs, name, entries, rule);
      && (name !in runs ==> out == Outcome(runs, [], Some(KeyError(name))))
      && (name in runs && "run_num" !in runs[name] ==> out == Outcome(runs, [], Some(KeyError("run_num"))))
  {
    var inds := Positions(entries, |entries|, Runnable);
    ServeMissingCounter(runs, name, Pick(entries, inds), |inds|, rule);
  }

  /** The dispatches are a prefix of the runnable entries in order, none of
      them with unmet requisites, and all of them unless something raised. */
  lemma RunPassShape(runs: Runs, name: string, entries: seq<Entry>, rule: Rule)
    ensures var inds := Positions(entries, |entries|, Runnable);
      var out := RunPass(runs, name, entries, rule);
      var d := out.dispatched;
      && |d| <= |inds|
      && (forall k :: 0 <= k < |d| ==>
            d[k].ind == entries[inds[k]].ind && d[k].chunk == entries[inds[k]].chunk)
      && (forall k :: 0 <= k < |d| ==> !Truthy(Get(d[k].chunk, "unmet")))
      && (out.raised.None? ==> |d| == |KeptSet(entries, |entries|, Runnable)|)
  {
    var inds := Positions(entries, |entries|, Runnable);
    var es := Pick(entries, inds);
    ServeShape(runs, name, es, |inds|, rule);
    PositionsCount(entries, |entries|, Runnable);
    DispatchesAreRunnable(entries, RunPass(runs, name, entries, rule).dispatched);
  }

  /** While the rule engine keeps the counter, run numbers are consecutive
      from the starting counter, so no two dispatches share one, and the
      counter ends one above the last completed dispatch. */
  lemma RunPassCounts(runs: Runs, name: string, entries: seq<Entry>, rule: Rule)
    ensures HasIntCounter(runs, name) && KeepsCounter(rule, name) ==>
      var start := runs[name]["run_num"].i;
      var out := RunPass(runs, name, entries, rule);
      var d := out.dispatched;
      && (forall k :: 0 <= k < |d| ==> d[k].runNum == VInt(start + k))
      && (forall k, l :: 0 <= k < l < |d| ==> d[k].runNum != d[l].runNum)
      && HasIntCounter(out.runs, name)
      && (out.raised.None? ==> out.runs[name]["run_num"] == VInt(start + |KeptSet(entries, |entries|, Runnable)|))
      && (out.raised.Some? ==> 0 < |d| && out.runs[name]["run_num"] == VInt(start + |d| - 1))
    ensures HasIntCounter(runs, name) && KeepsCounter(rule, name) && NeverRaises(rule) ==>
      RunPass(runs, name, entries, rule).raised.None?
  {
    var inds := Positions(entries, |entries|, Runnable);
    var es := Pick(entries, inds);
    ServeShape(runs, name, es, |inds|, rule);
    ServeCounts(runs, name, es, |inds|, rule);
    PositionsCount(entries, |entries|, Runnable);
  }

  /** `runtime`: select the runnable entries in order, then dispatch each in
      turn, passing it the current `run_num` and incrementing the counter
      after the rule engine returns. Every rule-engine call sees the registry
      the previous call and increment left, and the returned registry is the
      one the last of them left; the first exception ends the call with the
      dispatches made so far. The properties of the result are the
      `RunPass` lemmas above. */
  method Runtime(runs: Runs, name: string, entries: seq<Entry>, rule: Rule) returns (out: Outcome)
    ensures out == RunPass(runs, name, entries, rule)
  {
    var inds := Select(entries, Runnable);
    out := DispatchAll(runs, name, entries, inds, rule);
  }

  /** The second loop of `runtime`: dispatch the selected entries in order,
      each against the registry the previous pass left. */
  method DispatchAll(runs: Runs, name: string, entries: seq<Entry>, inds: seq<nat>, rule: Rule)
    returns (out: Outcome)
    requires forall k :: 0 <= k < |inds| ==> inds[k] < |entries|
    ensures out == Serve(runs, name, Pick(entries, inds), |inds|, rule)
  {
    ghost var es := Pick(entries, inds);
    var current: Runs := runs;
    var dispatched: seq<Dispatch> := [];
    var k := 0;
    while k < |inds|
      invariant 0 <= k <= |inds|
      invariant Serve(runs, name, es, k, rule) == Outcome(current, dispatched, None)
    {
      var t := Turn(current, name, entries[inds[k]], rule);
      dispatched := dispatched + t.dispatched;
      if t.raised.Some? {
        ServeStops(runs, name, es, k + 1, |es|, rule);
        return Outcome(t.runs, dispatched, t.raised);
      }
      current := t.runs;
      k := k + 1;
    }
    return Outcome(current, dispatched, None);
  }

  /** No chunk whose requisites are unmet is ever dispatched. */
  lemma DispatchesAreRunnable(entries: seq<Entry>, d: seq<Dispatch>)
    requires |d| <= |Positions(entries, |entries|, Runnable)|
    requires forall k :: 0 <= k < |d| ==>
      d[k].chunk == entries[Positions(entries, |entries|, Runnable)[k]].chunk
    ensures forall k :: 0 <= k < |d| ==> !Truthy(Get(d[k].chunk, "unmet"))
  {
    var inds := Positions(entries, |entries|, Runnable);
    forall k | 0 <= k < |d|
      ensures !Truthy(Get(d[k].chunk, "unmet"))
    {
      assert Runnable(entries[inds[k]]);
    }
  }
}
