# redux-autoloader, modelled in Dafny

redux-autoloader keeps one record per named *loader* in a Redux store:
loading and refreshing flags, the last data, the last error and their times.
Components issue commands (initialize, start or stop auto-refresh, a manual load,
reset). A saga layer turns those commands into API calls. It keeps at most one
auto-refresh task per loader, and that task re-fetches on a timer. While a
task is registered, the flow does not fetch a LOAD for its loader; the task
fetches it only if the LOAD arrives while the task waits in its race.

This project models that core and proves its properties:

- `JsValues.dfy` holds the JavaScript values the library moves around, and
  the three operations it relies on:
  - truthiness;
  - a property read, which throws a `TypeError` on `undefined` and `null`;
  - the object spread `{...v}`.
- `Actions.dfy` holds the action vocabulary and the nine action creators.
- `Reducer.dfy` holds the per-loader reducer, the name-routing wrapper, and the
  store's dispatch. A dispatch whose reducer throws leaves the state alone.
- `Selectors.dfy` holds the state readers. The one-entry `getData` cache is a
  class with two fields.
- `Sagas.dfy` models the generators by the effects they yield:
  - `fetchData` is a short effect list, fixed by whether `apiCall` is a function;
  - `autoRefresh` is a loop, proved against a run function;
  - the flow's task registry is a class whose `Handle` method updates a map in
    place, proved against a step function.

  Whatever the saga runtime would feed back is an explicit input: the API call's
  outcome, the race winner, the handle a fork returns, the selected state. On top
  of this sits an invariant over every run of the root saga: each loader has at
  most one live auto-refresh task.
- `Autoloader.dfy` holds the component's decision rules: the configuration
  checks, cache staleness, and the ordered command lists issued on mount, on a
  prop change, on unmount and by `startAutoRefresh`.
- `Collection.dfy` holds the module-level table from a collection member's name
  to its refresh callback. It is a class updated by the lifecycle methods, and its
  `Refresh` broadcast is a loop.
- `Coordination.dfy` ties the reducer to the sagas. Every dispatch goes first to
  the reducer, then to the root saga. Over any run, a loader's `refreshing` flag is
  truthy exactly when the flow has an auto-refresh task registered for it.

Apart from what "## Left out" lists, the model does what the code does. RESET stores
`undefined` under the loader's key and does not delete the key
(src/reducer.js:28-29). "Initialized" means the record is truthy. A fetch event
that arrives after a reset re-creates a record, because of the reducer's
`state = {}` default. That record has no `config` and no `refreshing` flag.

The current time (`Date.now()`) is a parameter `now`.

## Model

| member | source | states |
|---|---|---|
| Actions.Initialize | src/actions.js:13-14 | builds INITIALIZE for `loader`, no error flag; the config is read back as `payload.config` |
| Actions.FetchDataRequest | src/actions.js:16-17 | builds FETCH_DATA_REQUEST for `loader`; the payload has exactly the key `apiCall`, carrying the argument's `apiCall` |
| Actions.FetchDataSuccess | src/actions.js:19-20 | builds FETCH_DATA_SUCCESS for `loader`; the payload has exactly `data` (the argument's) and `dataReceivedAt`, which is the current time |
| Actions.FetchDataFailure | src/actions.js:22-27 | builds FETCH_DATA_FAILURE for `loader` with `error: true`; the payload has exactly `error` and `errorReceivedAt`, which is the current time |
| Actions.StartRefresh | src/actions.js:29-37 | builds START_REFRESH for `loader`; the payload keeps exactly `apiCall`, `newAutoRefreshInterval` and `loadImmediately` from the argument and drops every other field |
| Actions.StopRefresh | src/actions.js:39-40 | builds STOP_REFRESH for `loader` with no payload |
| Actions.Load | src/actions.js:42-43 | builds LOAD for `loader`; the payload has exactly `apiCall` |
| Actions.Reset | src/actions.js:45-46 | builds RESET for `loader` with no payload |
| Actions.SetConfig | src/actions.js:48-52 | builds SET_CONFIG for `loader`; the bare config is the payload, so spreading the payload yields the config's keys |
| Reducer.LoaderReducer | src/reducer.js:12-81 | the field-by-field effect of each type. It throws iff INITIALIZE, SUCCESS or FAILURE reads a payload that is `undefined` or `null`. INITIALIZE discards the prior record and sets both flags false and `config = payload.config`. RESET gives `undefined`. REQUEST, START and STOP change exactly one flag. SUCCESS sets data and its time, with `updatedAt` equal to that time, and clears the error. FAILURE sets the error and its time and leaves the data alone. SET_CONFIG merges with payload keys winning and the stored keys kept. LOAD and unknown types keep the record, and `undefined` becomes `{}` |
| Reducer.Reduce | src/reducer.js:83-92 | an untagged action (no `meta` or no `meta.loader`) returns the state unchanged; a tagged one throws iff the inner reducer does, and otherwise rewrites exactly the entry for `meta.loader`, leaving every other key as it was |
| Reducer.OtherLoadersUntouched | src/reducer.js:83-92 | any run of actions addressed to other loaders leaves a loader's entry exactly as it was, both whether the key is present and what it holds |
| Reducer.ResetKeepsKey | src/reducer.js:28-29 | RESET stores `undefined` under the key and keeps the key in the state |
| Reducer.LateFetchResultRecreatesRecord | src/reducer.js:20-91 | a FETCH_DATA_SUCCESS after RESET re-creates a record that holds the data but has no `config` and no `refreshing` |
| Reducer.FailureKeepsPriorData | src/reducer.js:37-55 | a failure after a success keeps the success's data and `dataReceivedAt`, records the error and its time, and moves `updatedAt` to the error time |
| Reducer.CreatorsMatchReducer | src/actions.js:13-52 | the creators' payload shapes line up with the reducer's reads. INITIALIZE stores exactly the given config. SET_CONFIG merges the bare payload over the stored config |
| Selectors.GetLoaderState | src/selectors.js:1-3 | the loader state is the slice mounted under `reduxAutoloader` |
| Selectors.IsInitialized | src/selectors.js:5-6 | true iff the state holds a record (not `undefined`, not absent) under the name |
| Selectors.IsLoading | src/selectors.js:8-9 | returns the record's `loading` field |
| Selectors.IsRefreshing | src/selectors.js:11-12 | returns the record's `refreshing` field |
| Selectors.GetData | src/selectors.js:14-15 | returns the record's `data` field |
| Selectors.GetDataReceivedAt | src/selectors.js:17-18 | returns the record's `dataReceivedAt` field |
| Selectors.GetError | src/selectors.js:20-21 | returns the record's `error` field |
| Selectors.GetErrorReceivedAt | src/selectors.js:23-24 | returns the record's `errorReceivedAt` field |
| Selectors.GetUpdatedAt | src/selectors.js:26-27 | returns the record's `updatedAt` field |
| Selectors.NeverSeenIsNotInitialized | src/selectors.js:5-6 | a name the state has never held is not initialized |
| Selectors.InitializeThenReset | src/reducer.js:22-29 | after INITIALIZE the loader is initialized, not loading and not refreshing; after a following RESET it is not initialized, although the key remains |
| Selectors.GettersAfterSuccess | src/selectors.js:8-27 | after a success built by its creator, the getters show the data, the time (also as the update time), no error and no loading |
| Selectors.MemoizedGetData.constructor | src/selectors.js:29-31 | both cached values start `undefined` |
| Selectors.MemoizedGetData.Get | src/selectors.js:33-45 | if `dataReceivedAt` is unchanged, returns the cached data even when the data differs; otherwise caches and returns the current data; afterwards the cached time equals the current one |
| Selectors.ConsecutiveCallsAgree | src/selectors.js:33-45 | two consecutive calls on the same state return the same value |
| Selectors.FreshCacheFirstCall | src/selectors.js:29-45 | a fresh cache called on a record without `dataReceivedAt` returns `undefined` |
| Sagas.FetchData | src/sagas.js:27-38 | a put of FETCH_DATA_REQUEST (carrying `apiCall`) comes first and exactly one result put comes last; nothing escapes. With a function `apiCall` it is called in between, and the result is SUCCESS with the data on resolution or FAILURE with the error on rejection. With any other `apiCall` nothing is called and the result is FAILURE with the error the `call` creator throws. Each result is stamped with the time |
| Sagas.Interval | src/sagas.js:46-49 | `newAutoRefreshInterval` when truthy; otherwise the stored `config.autoRefreshInterval`. That read throws iff the record is `undefined` or its config is `undefined` or `null` |
| Sagas.MatchesLoad | src/sagas.js:56 | the race's `take` accepts exactly a LOAD whose `meta.loader` is the task's loader |
| Sagas.Chosen | src/sagas.js:59-63 | a race won by a LOAD fetches with that LOAD; a race won by the delay fetches with the original START action |
| Sagas.AutoRefresh | src/sagas.js:40-65 | the loop's effects and whether it threw are exactly those of the run function `AutoRefreshRun` |
| Sagas.IterationsShape | src/sagas.js:45-64 | the loop throws iff some iteration cannot read its interval. Otherwise iteration `i` is exactly a select, then a race with that iteration's interval, then a fetch with the race's winner |
| Sagas.AutoRefreshFetches | src/sagas.js:40-65 | without a throw, one fetch per resolved race, plus one if `loadImmediately`; every fetch uses the original action or a LOAD for the same loader |
| Sagas.IterationFetches | src/sagas.js:45-64 | every loop iteration fetches exactly once, with the original START action or the same-loader LOAD that won the race |
| Sagas.CountFetchesAppend | src/sagas.js:45-64 | the fetches of two consecutive effect lists add up |
| Sagas.FirstFetchOnlyIfLoadImmediately | src/sagas.js:41-46 | a fetch comes before the first wait iff `loadImmediately` is truthy; otherwise the run opens with a select |
| Sagas.FlowStep | src/sagas.js:70-89 | forks (and registers the handle) iff START_REFRESH finds no task. STOP_REFRESH or RESET cancels a registered task and unregisters it. LOAD fetches iff no task is registered. Otherwise nothing happens. The loader's entry always exists afterwards, and every other loader's entry is unchanged |
| Sagas.RootSagaStep | src/sagas.js:92-96 | exactly START_REFRESH, STOP_REFRESH, LOAD and RESET reach the flow; any other action yields nothing and leaves the registry alone |
| Sagas.DataLoaderFlow.constructor | src/sagas.js:67-68 | the registry starts as a copy of `taskConf` |
| Sagas.DataLoaderFlow.Handle | src/sagas.js:70-89 | updates the registry in place; the effects and the new registry are those of `FlowStep` on the old registry |
| Sagas.DataLoaderFlow.TakeEvery | src/sagas.js:95 | the subscription: the effects and the new registry are those of `RootSagaStep` |
| Sagas.ApplyEffectsAppend | src/sagas.js:78-82 | carrying out two effect lists in turn is carrying out their concatenation |
| Sagas.AtMostOneLiveTask | src/sagas.js:71-84 | under a registry consistent with the live tasks, two live tasks of one loader are the same task |
| Sagas.StepKeepsConsistent | src/sagas.js:70-96 | one root-saga step with a fresh handle keeps the registry consistent with the live tasks |
| Sagas.RunKeepsConsistent | src/sagas.js:67-96 | a whole run of the root saga with fresh handles keeps the registry consistent with the live tasks |
| Sagas.AtMostOneTaskPerLoader | src/sagas.js:67-96 | starting from an empty registry, no run ever has two live auto-refresh tasks for one loader |
| Sagas.SecondStartIsNoop | src/sagas.js:77-79 | a second START_REFRESH for the same loader yields nothing and leaves the registry alone |
| Sagas.StartThenStopFetchesNothing | src/sagas.js:41-84 | START_REFRESH without `loadImmediately`, stopped before its first race resolves, forks and cancels the same task and fetches nothing |
| Sagas.LoadWhileRefreshingFetchesOnce | src/sagas.js:54-88 | a LOAD while a task is registered is not fetched by the flow; if the task's race is won by that LOAD, the iteration fetches it exactly once |
| Autoloader.Configure | src/reduxAutoloader.js:35-53 | accepts iff `name` is truthy and a string or function, the selector is a function, and `reloadOnMount` is boolean. The first failing check names the error. Defaults: `reloadOnMount` and `resetOnUnmount` true, `cacheExpiresIn` and `autoRefreshInterval` 0 |
| Autoloader.ApiCallIsNotValidated | src/reduxAutoloader.js:51-53 | whether a configuration is accepted does not depend on `apiCall` |
| Autoloader.CacheIsStale | src/reduxAutoloader.js:27-33 | stale when `dataReceivedAt` or `expiresIn` is falsy; otherwise stale iff `now > dataReceivedAt + expiresIn`, strictly |
| Autoloader.StalenessPersists | src/reduxAutoloader.js:27-33 | once stale, a cache stays stale as time goes on |
| Autoloader.ShouldReload | src/reduxAutoloader.js:169-171 | reload iff `reloadOnMount`, or the loader is not initialized, or `cacheExpiresIn` is set and the data time is falsy or `now` is past its expiry |
| Autoloader.Init | src/reduxAutoloader.js:159-189 | `initialize` iff not initialized, first. `startRefresh` with `autoRefreshInterval` iff `apiCall` and `autoRefreshInterval` are truthy. `manualRefresh` iff `apiCall` and should-reload, which is `reloadOnMount`, or not initialized, or `cacheExpiresIn` set and the cache stale. `startRefresh` comes before `manualRefresh`. Every command is for the loader, each is issued at most once, and there is never a stop or a reset |
| Autoloader.ReceiveProps | src/reduxAutoloader.js:107-113 | commands are issued iff `reinitialize` holds or the record is gone; they are `stopRefresh`, `reset`, then `init` of the next props, all for the next props' loader |
| Autoloader.ReinitializeOfInitializedLoaderSkipsInitialize | src/reduxAutoloader.js:107-167 | reinitializing a loader whose record existed resets it without issuing `initialize` |
| Autoloader.Unmount | src/reduxAutoloader.js:115-121 | always `stopRefresh` first; `reset` iff `resetOnUnmount` is truthy, and nothing else |
| Autoloader.StartAutoRefresh | src/reduxAutoloader.js:147-153 | one `startRefresh` for the loader with `apiCall` and interval `newTimeout` if truthy, else `autoRefreshInterval` |
| Autoloader.CacheWindowScenario | src/reduxAutoloader.js:169-188 | with a 1000 ms cache and no reload on mount, a remount 500 ms after data arrived issues nothing, and one 1100 ms after issues exactly one manual refresh |
| Collection.Mounted | src/collection.js:30-32 | registers `$name -> $refresh` and keeps every other entry |
| Collection.PropsChanged | src/collection.js:34-42 | an unchanged `$refresh` leaves the table untouched even if `$name` changed. A new one removes the old name iff the name changed, then maps the next name to the next callback; other entries are kept |
| Collection.Unmounted | src/collection.js:44-46 | removes the component's `$name` and keeps every other entry |
| Collection.UnmountUndoesMount | src/collection.js:30-46 | unmounting a freshly mounted name restores the table |
| Collection.RenameWithSameCallbackKeepsOldEntry | src/collection.js:34-46 | a rename under an unchanged `$refresh` followed by unmount leaves the old name registered |
| Collection.CollectionRegistry.constructor | src/collection.js:12 | the table starts empty |
| Collection.CollectionRegistry.ComponentDidMount | src/collection.js:30-32 | the table becomes `Mounted` of the old table |
| Collection.CollectionRegistry.ComponentWillReceiveProps | src/collection.js:34-42 | the table becomes `PropsChanged` of the old table |
| Collection.CollectionRegistry.ComponentWillUnmount | src/collection.js:44-46 | the table becomes `Unmounted` of the old table |
| Collection.CollectionRegistry.Refresh | src/collection.js:65-67 | every registered callback is invoked exactly once: the names visited are distinct, are exactly the table's keys, and each invocation is that name's callback |
| Collection.WrappedProps | src/collection.js:48-50 | the wrapped component gets every prop except `$name` and `$refresh`, with its value |
| Coordination.DispatchKeepsInStep | src/sagas.js:70-96 | one dispatch through the reducer and the root saga keeps a loader's `refreshing` flag truthy exactly when a task is registered for it, provided INITIALIZE only goes to a loader without a record |
| Coordination.RunKeepsInStep | src/sagas.js:67-96 | the same agreement over any run of guarded dispatches |
| Coordination.UnguardedInitializeBreaksInStep | src/reducer.js:22-26 | an INITIALIZE sent to a refreshing loader clears its flag while the flow keeps the task, so the guard is needed |
| Coordination.ResetTearsDownBoth | src/sagas.js:81-84 | RESET makes the record `undefined` and leaves no task registered; a registered task is cancelled, and with none nothing is yielded |
| Coordination.FetchDataLoadingWindow | src/sagas.js:27-38 | after `fetchData`'s request the loader is loading; after its result it is not, and holds the data, the API error or the not-a-function error, with the time |

## Left out

- React rendering, `connect`, PropTypes, `displayName`, the `getMappedProps` prop plumbing, the `ReduxAutoloader` wrapper class and `withCollection`. These are UI binding, not decision logic.
- The redux-saga runtime is left out: `takeEvery` scheduling, the real `fork` and `cancel`, `delay` timers and race timing. A race outcome, an API call outcome, a fork handle and the selected state are inputs instead, and the root saga processes one action at a time.
- The cancellation point of `autoRefresh` is not modelled: a cancelled task ends after its last resolved race, and the pending race of the cancelled iteration is not emitted as an effect.
- `Date.now()` is the integer parameter `now`.
- The command stream of src/reduxAutoloader.js is abstract (`Command`). The file imports a `manualRefresh` that src/actions.js does not export. It also calls `startRefresh` positionally, while src/actions.js takes an object. The model does not reconcile the two.
- `refresh` and `stopAutoRefresh`, the props handed to the wrapped component (src/reduxAutoloader.js:139-145, 155-157), each issue one command (`manualRefresh` and `stopRefresh` for the loader). They are not separate members. `componentWillMount` is `init(this.props)`, i.e. `Autoloader.Init`.
- `reinitialize(prev, next)` is a user callback; its result is the parameter `reinitialize`. A function-valued `name` is likewise resolved before the model sees it: commands carry the resolved loader name.
- The configuration asserts that `collection` repeats (src/collection.js:17-19) are the first three checks of `Autoloader.Configure`. They are not modelled a second time.
- src/actionTypes.js holds string constants only; they are the `ActionType` constructors. src/utils.js's `assert` is the `AssertionFailed` outcome of `Autoloader.Configure`.
- A loader name is a string. `meta.loader` that is missing or falsy is `meta.loader == ""`. Non-string loader keys are not modelled.
- Objects are compared by contents, and functions by an identity number. JavaScript's `===` on objects compares references.
- JsValues.Spread: a string spreads into no keys, whereas JavaScript spreads it into its indexed characters.
- `Object.values` order in the collection's `refresh` is not fixed by the model: `Refresh` visits the keys in an unspecified order.
- The flow's `taskConf` is copied shallowly (src/sagas.js:68). Sharing of the entry objects inside `taskConf` with the caller is not modelled.
- Sagas.FetchData, Sagas.Interval and Sagas.AutoRefresh require an action with a `meta` and a readable `payload`. An action without them makes the saga throw on its first read; that path is not modelled.
- The flow needs `meta` as well (`Sagas.Deliverable`). A subscribed action without `meta` throws in the flow and is not modelled.
- Coordination.DispatchKeepsInStep and Coordination.RunKeepsInStep hold only for loaders with a non-empty name, and only when INITIALIZE is not sent to a loader that has a record. The reducer ignores a falsy loader name, while the flow does not. The component sends INITIALIZE only when the loader has no record (src/reduxAutoloader.js:165-167).
- Sagas.LoadWhileRefreshingFetchesOnce: a LOAD that arrives while the task is not waiting in its race (it is inside `call(fetchData, …)`, src/sagas.js:42, 60, 62) is skipped by the flow because a task is registered (src/sagas.js:86), and no `take` is waiting for it, so it is lost. The model's race outcomes are inputs, so it cannot express when a LOAD arrives relative to the race.
- Collection.CollectionRegistry.Refresh: records which callbacks are called without running them. In src/collection.js:66 `forEach` stops at the first callback that throws, so "every callback once" holds only when no callback throws.
- Sagas.RunKeepsConsistent: a task that throws (its interval read fails, `Sagas.Iterations` sets `threw`) stays registered and counted live. The redux-saga error propagation is not modelled either: the error travels through the flow and `takeEvery` to `rootSaga`, which then cancels every task and handles no further action. `Sagas.RunRootSaga` goes on handling later actions.
- Sagas.FetchData: the not-a-function error is a fixed value (`Sagas.NotAFunctionError`); the text of redux-saga's message is not modelled. A value is callable exactly when it is `Fn`; the `call` creator's `[context, fn]` and `{context, fn}` forms are not modelled.
- Sagas.MatchesLoad: a LOAD without `meta` makes the source's `take` pattern throw (src/sagas.js:56); the model treats it as not matching.
- Loader and collection names that are `Object.prototype` properties (`constructor`, `toString`, `__proto__`, …) are not modelled. The state, the task registry and the collection table are maps without a prototype. In the source, `state[name]`, `tasks[name]` and `hashTable[name]` fall back to `Object.prototype` (src/selectors.js:5-6, src/sagas.js:71-74, src/collection.js:31-45). So `isInitialized(state, "constructor")` is true on a fresh state, which `Selectors.NeverSeenIsNotInitialized` does not reflect.
