# idem engine bookkeeping, modelled in Dafny

This project models the bookkeeping that surrounds idem's compile-and-run
pipeline. idem is a declarative state engine: it renders state documents into
"low" chunks and runs them through state modules until the declared state holds.
Four pieces are modelled.

- **The run registry** (`idem/idem/init.py`). `create` writes one run record
  into the process-wide `RUNS` map. `req_map` rebuilds the requisite behaviour
  map `RMAP` from the requisite modules. `compile_` calls each compiler
  module's `stage`. `apply` runs create, gather, compile and the runtime start,
  in that order.
- **The serial runtime** (`idem/idem/run/serial.py`). It selects the chunks
  whose requisites are met and dispatches them one at a time. Each dispatch is
  numbered from the run's `run_num` counter.
- **The `test` state module** (`tests/nest/test.py`). Its handlers return fixed
  result records. `update_low` also appends a fixed chunk to a run's `low` list
  while the run is in progress.
- **Python values** (module `Values`). Python dictionaries become one dynamic
  `Value` datatype. `Truthy` gives Python's truth test. `Get` gives `dict.get`.
  A `Result` carries either a value or the exception the code would raise
  (`KeyError`, `AttributeError`, `TypeError`).

Modules: `Values` (values.dfy), `Seqs` (seqs.dfy), `Init` (init.dfy),
`Serial` (serial.dfy) and `TestStates` (test_states.dfy). `Seqs.Positions`
is the order-keeping filter behind two loops. One is the runnable-chunk
selection in `runtime`, which skips entries with `continue`. The other is the
stage selection in `compile_`, which calls `stage` only where `hasattr` holds.

Some collaborators are not part of this model: `hub.idem.resolve.gather`, the
compiler modules' `stage` bodies, `hub.idem.run.init.start`,
`hub.idem.rules.init.run` and each requisite module's `define`. The model
records their calls as events (`Init.Event`, `Serial.Dispatch`). The value a
`define()` call returns is an input (`ReqModule.define`). The rule engine is a
parameter of `Serial.Runtime` (`Serial.Rule`): any function from the registry
and the dispatch to the registry it leaves and the exception it raises, if
any. The model does not say what any of them does, but it does say what the
runtime does with the registry each call leaves: `Serial.RunPass` is a
recursive reading of the dispatch loop. In it, each call sees the registry
the previous call and increment left, and the loop method is proved equal
to it.

`create` has no conflict check: it silently replaces an existing run of the
same name (`Init.CreateOverwrites`).

## Model

| member | source | states |
|---|---|---|
| Init.Create | idem/idem/init.py:63-74 | The run gets a record with exactly the six configuration keys. `states` is an empty map. Every other run is unchanged. |
| Init.CreateOverwrites | idem/idem/init.py:67 | There is no conflict check. A second `create` under a name succeeds and leaves only the second configuration. |
| Init.CreateForgetsPrevious | idem/idem/init.py:67-74 | The stored record does not depend on what the registry held before, so keys later stages added to an earlier run of that name are gone. |
| Init.CreateCommutes | idem/idem/init.py:67 | Creating runs under two different names gives the same registry in either order. |
| Init.BuildReqMap | idem/idem/init.py:33-38 | A name is a key exactly when some module has that name, is not named `init` and has `define`. |
| Init.ReqMapLastWins | idem/idem/init.py:37-38 | A name's value is the `define()` result of the last contributing module with that name. |
| Init.ReqMapLookup | idem/idem/init.py:34-38 | If module names are distinct, each contributing module's `define()` result is stored under its own name. |
| Init.ReqMap | idem/idem/init.py:29-39 | `RMAP` is replaced wholesale by the freshly built map, whatever it held before, and `RUNS` is untouched. |
| Init.ReqMapWholesale | idem/idem/init.py:33-39 | After `req_map`, stale names are dropped, `init` is never a key and every contributing module is present. |
| Init.Compile | idem/idem/init.py:91-99 | Every event is a `stage` call on this run by a compiler module that has a `stage`. There are at most as many events as modules. |
| Init.CompileSnoc | idem/idem/init.py:95-99 | Compilation is one left-to-right pass. A further module adds its own stage call at the end if it has `stage`, and nothing if it does not. |
| Init.CompileInvokesEveryStage | idem/idem/init.py:95-97 | The k-th stage call belongs to the k-th module that has `stage`. Every such module is called. |
| Init.Apply | idem/idem/init.py:77-88 | The registry equals the one `create` leaves, so `Init.Create`'s contract carries over. The trace runs create, gather (with the `sls` targets), the stage calls and then start, all on this run. |
| Init.ApplyOrdersSteps | idem/idem/init.py:81-88 | The stage calls in `apply` are exactly those of `compile_`. Create, gather and start each happen once, in their fixed positions. |
| Seqs.Positions | idem/idem/run/serial.py:9-14 | Among the first `n` elements, the selected positions are strictly increasing. Each holds a kept element, and every kept element's position is included. |
| Seqs.Select | idem/idem/run/serial.py:9-14 | One pass from the front collects exactly the positions the filter accepts, in iteration order. `runtime` runs it with the test that `unmet` is absent or falsy. |
| Seqs.PositionsPrefixOnly | idem/idem/run/serial.py:10-14 | The selection after `n` iterations depends only on the first `n` entries. |
| Seqs.PositionsSnoc | idem/idem/run/serial.py:10-14 | Adding one more element extends the selection by its position exactly when it is kept. |
| Seqs.KeptSetSnoc | idem/idem/run/serial.py:10-14 | Adding one more element adds its position to the set of kept positions exactly when it is kept. |
| Seqs.PositionsCount | idem/idem/run/serial.py:10-14 | The selection has exactly one position per kept element. |
| Serial.ReadCounter | idem/idem/run/serial.py:20 | Reading `RUNS[name]['run_num']` raises `KeyError` for a missing run or counter, and otherwise succeeds with the stored value. |
| Serial.Bump | idem/idem/run/serial.py:21 | `+= 1` raises `KeyError` naming the run or `run_num` when either is missing. It raises `TypeError` when the counter is neither an `int` nor a `bool`. An integer counter goes up by one, and a `bool` counter becomes the integer 2 or 1. Nothing else in the registry changes. |
| Serial.Turn | idem/idem/run/serial.py:20-21 | One pass of the loop body makes at most one dispatch, of its own entry, and exactly one unless something raised. A missing run or counter raises `KeyError` before the engine is called, with the registry untouched. |
| Serial.TurnCounts | idem/idem/run/serial.py:20-21 | While the engine keeps the counter, the pass hands it the counter it finds and adds one to it unless the engine raised. If the engine never raises, the pass completes. |
| Serial.ServeStops | idem/idem/run/serial.py:19-21 | Once an exception has ended the loop, later entries change nothing: no further dispatch, registry or exception. |
| Serial.ServeShape | idem/idem/run/serial.py:19-21 | The k-th dispatch is of the k-th entry. There is at most one dispatch per entry, and exactly one per entry when nothing raised. |
| Serial.ServeMissingCounter | idem/idem/run/serial.py:20 | With at least one entry, a missing run or counter raises `KeyError` at once, with no dispatch and the registry untouched. |
| Serial.ServeCounts | idem/idem/run/serial.py:19-21 | While the engine keeps the counter, the k-th dispatch gets `start + k`, so no two share a number. The counter ends at `start` plus the completed dispatches, one fewer than those made when the last one raised. If the engine never raises, the loop finishes. |
| Serial.DispatchAll | idem/idem/run/serial.py:19-21 | The loop's outcome is exactly the recursive reference `Serve`. Each rule-engine call receives the registry the previous call and increment left, and its writes reach the returned registry. The first exception ends the loop. |
| Serial.RunPassIdle | idem/idem/run/serial.py:9-23 | With nothing runnable, nothing is dispatched and the registry is unchanged. |
| Serial.RunPassMissingCounter | idem/idem/run/serial.py:9-20 | A missing run or `run_num` raises `KeyError` before any dispatch, and only when something is runnable. |
| Serial.RunPassShape | idem/idem/run/serial.py:9-21 | Dispatches are a prefix of the runnable entries in order, none of them unmet, and all of them unless something raised. |
| Serial.RunPassCounts | idem/idem/run/serial.py:19-21 | If the rule engine keeps the counter, run numbers are consecutive from `start`, so no two dispatches share one. The counter then rises by the number of runnable entries, or stops one short of the dispatches made when the engine raised. If the engine also never raises, nothing is raised. |
| Serial.Runtime | idem/idem/run/serial.py:5-23 | The result is exactly `RunPass`: the runnable entries in order, served one after another against the live registry. The four `RunPass` lemmas state what that result satisfies. |
| Serial.DispatchesAreRunnable | idem/idem/run/serial.py:11-20 | No dispatched chunk has a truthy `unmet`. |
| TestStates.Nop | tests/nest/test.py:37-43 | Returns `name` unchanged, success, no changes and comment "Success!". |
| TestStates.SucceedWithoutChanges | tests/nest/test.py:46-57 | Returns `name` unchanged, success, no changes and comment "Success!". |
| TestStates.FailWithoutChanges | tests/nest/test.py:60-74 | Returns `name` unchanged, failure, no changes and comment "Failure!". |
| TestStates.SucceedWithChanges | tests/nest/test.py:77-98 | Returns success with non-empty changes: exactly `testing` from "Unchanged" to "Something pretended to change". The comment is "Success!". |
| TestStates.FailWithChanges | tests/nest/test.py:101-120 | Returns failure with the same non-empty `testing` changes and comment "Failure!". |
| TestStates.ModWatch | tests/nest/test.py:137-147 | Returns success, changes `{watch: True}` and comment "Watch ran!", echoing `name`. |
| TestStates.KwargsIgnored | tests/nest/test.py:37-147 | Keyword arguments never affect a handler's result. `nop` returns the `succeed_without_changes` record. |
| TestStates.PairsDifferInOutcomeOnly | tests/nest/test.py:46-120 | Each success/failure pair reports the same changes. They differ only in `result` and `comment`. |
| TestStates.ModWatchMarksWatch | tests/nest/test.py:137-147 | `mod_watch` reports the same success as `succeed_without_changes`. Its changes are the watch marker and its comment is "Watch ran!". |
| TestStates.UpdateLow | tests/nest/test.py:123-134 | The call succeeds exactly when the run exists and its `low` is a list. On success, exactly one fixed `test.nop` chunk is appended to the end of the run's `low`. Earlier chunks, other keys and other runs are unchanged, and the `succeed_without_changes` record is returned. A missing run or `low` raises `KeyError`. A non-list `low` raises `AttributeError`. |
| TestStates.UpdateLowNeedsCompiledRun | tests/nest/test.py:133 | A run fresh from `create` has no `low` list. Injecting into it raises `KeyError('low')`. |
| TestStates.UpdateLowTwice | tests/nest/test.py:127-133 | Two injections append two copies of the fixed chunk after the existing ones. |
| TestStates.InjectionKeepsCounter | tests/nest/test.py:133 | A rule engine whose dispatched state is `update_low` keeps every run's counter. It meets the counter assumption of `Serial.Runtime` while it writes to `RUNS`. |
| TestStates.InjectionReachesRegistry | tests/nest/test.py:133 | With this engine, one pass of the runtime's loop completes and leaves the injected chunk at the end of the run's `low`. The increment that follows does not undo the engine's write. |

## Left out

- `__init__` and `cli` (idem/idem/init.py:16-26, 42-60) are not modelled. They load the hub subsystems, merge configuration, start the event loop and pretty-print the result, so they have no logic to state.
- The bodies of `hub.idem.resolve.gather`, the compiler `stage` functions, `hub.idem.run.init.start`, `hub.idem.rules.init.run` and each requisite module's `define` are not part of this model. Their calls are recorded as events or dispatches, or their return value is taken as input.
- Init.Apply: the registry it returns is the one right after `create`. Changes that gather, compile and start make to the run record are not modelled, because their source is not part of this model.
- Serial.Runtime: the rule engine is modelled as a function of the registry and the dispatch. Its writes to `ctx`, the runtime's `low` argument, `running` and the `seq` dictionary are not modelled, and nor are hidden inputs. The run-number properties are promised only for an engine that keeps `run_num` (`Serial.KeepsCounter`). The engine's other writes to `RUNS` are allowed, and `Serial.RunPass` threads them into the next call and the returned registry.
- Init.Compile: assumes every `stage` call returns normally. A raising stage would stop the loop early, but the model always lists every stage call.
- Init.Apply: assumes `gather`, the stages and `start` return normally. If `gather` raised, compile and start would never run, but the trace always contains them.
- Init.ReqMap: assumes every `define()` returns normally. If one raised, the old `RMAP` would stay in place.
- Serial.Runtime: the closing `len(low) <= len(running)` test is not modelled. Both of its branches return, so it cannot skip pending chunks, and `low` and `running` only reach the opaque rule engine.
- The `asyncio` coroutine handling in `compile_`, `apply` and `runtime` is not modelled. Each awaited call finishes before the next one starts, so the model runs the steps in sequence.
- `seq` in `runtime` is an insertion-ordered dictionary. It is modelled as a sequence of (key, chunk) entries in that order. The model does not require the keys to be distinct.
- Dictionary keys are always strings in the model, and handler names are strings. The unused `random` import and the YAML examples in the `test` module's doc string are not modelled. `Value` has no `float`, so a `float` counter, which `+= 1` also increments, is not represented.
