/** The coordination engine of src/sagas.js. Each generator is modelled by
    the effects it yields; what the saga runtime would feed back into it (the
    outcome of `apiCall`, the winner of a race, the handle a `fork` returns,
    the state a `select` reads) is an explicit input. */
module Sagas {
  import opened JsValues
  import opened Actions
  import opened Reducer

  /** The handle of a forked task, as the runtime returns it from `fork`. */
  datatype TaskId = TaskId(id: nat)

  /** How the `apiCall` promise settled. */
  datatype CallResult = Resolved(data: Value) | Rejected(err: Value)

  /** Which side won a race between `delay(interval)` and `take(LOAD for the loader)`. */
  datatype RaceResult = Delayed | LoadAction(action: Action)

  /** An effect yielded to the runtime. `Fork` also records the task handle it
      returned; `Race` stands for the race of a delay of `interval` against a
      LOAD for `loader`. */
  datatype Effect =
    | Put(action: Action)
    | CallApi(apiCall: Value)
    | CallFetchData(action: Action)
    | Fork(action: Action, task: TaskId)
    | Cancel(task: TaskId)
    | SelectLoaderState
    | Race(interval: Value, loader: string)

  // ---------------------------------------------------------------------------
  // fetchData

  /** The error the `call` effect creator throws when its argument is not a
      function; the text of its message is not modelled. */
  const NotAFunctionError: Value := Obj(map["name" := Str("Error")])

  /** `fetchData(action)` when `apiCall` settles with `outcome` at time `now`:
      the request is put first, and the last effect is exactly one put of
      success or failure; nothing escapes. When `apiCall` is a function it is
      called between the two puts. When it is not, building the `call` effect
      throws inside the `try`: nothing is called, and the failure carries that
      error whatever `outcome` says. */
  function FetchData(a: Action, outcome: CallResult, now: int): (r: seq<Effect>)
    requires a.meta.Some? && Readable(a.payload)
    ensures |r| == (if Get(a.payload, "apiCall").Fn? then 3 else 2)
    ensures r[0].Put? && r[0].action.kind == FETCH_DATA_REQUEST && r[0].action.meta == a.meta
    ensures Get(r[0].action.payload, "apiCall") == Get(a.payload, "apiCall")
    ensures forall i :: 1 <= i < |r| - 1 ==> r[i] == CallApi(Get(a.payload, "apiCall"))
    ensures r[|r| - 1].Put? && r[|r| - 1].action.meta == a.meta
    ensures Get(a.payload, "apiCall").Fn? && outcome.Resolved? ==>
              r[2].action.kind == FETCH_DATA_SUCCESS && Get(r[2].action.payload, "data") == outcome.data
              && Get(r[2].action.payload, "dataReceivedAt") == Num(now)
    ensures Get(a.payload, "apiCall").Fn? && outcome.Rejected? ==>
              r[2].action.kind == FETCH_DATA_FAILURE && Get(r[2].action.payload, "error") == outcome.err
              && Get(r[2].action.payload, "errorReceivedAt") == Num(now)
    ensures !Get(a.payload, "apiCall").Fn? ==>
              r[1].action.kind == FETCH_DATA_FAILURE && Get(r[1].action.payload, "error") == NotAFunctionError
              && Get(r[1].action.payload, "errorReceivedAt") == Num(now)
  {
    var loader := LoaderOf(a);
    var apiCall := Get(a.payload, "apiCall");
    var request := Put(FetchDataRequest(loader, map["apiCall" := apiCall]));
    if !apiCall.Fn? then
      [request, Put(FetchDataFailure(loader, map["error" := NotAFunctionError], now))]
    else
      [request,
       CallApi(apiCall),
       match outcome
       case Resolved(data) => Put(FetchDataSuccess(loader, map["data" := data], now))
       case Rejected(err) => Put(FetchDataFailure(loader, map["error" := err], now))]
  }

  // ---------------------------------------------------------------------------
  // autoRefresh

  /** The interval of one iteration: `newAutoRefreshInterval` when truthy, else
      the stored `config.autoRefreshInterval`, whose read throws when the record
      or its config is `undefined`. */
  function Interval(a: Action, loaderState: LoaderState): (r: Result<Value>)
    requires a.meta.Some? && Readable(a.payload)
    ensures Truthy(Get(a.payload, "newAutoRefreshInterval")) ==>
              r == Ok(Get(a.payload, "newAutoRefreshInterval"))
    ensures !Truthy(Get(a.payload, "newAutoRefreshInterval")) ==>
              && (r.Ok? <==> SlotOf(loaderState, LoaderOf(a)).Rec?
                             && Readable(SlotOf(loaderState, LoaderOf(a)).record.config))
              && (r.Ok? ==> r.value == Get(SlotOf(loaderState, LoaderOf(a)).record.config, "autoRefreshInterval"))
  {
    var newInterval := Get(a.payload, "newAutoRefreshInterval");
    if Truthy(newInterval) then Ok(newInterval)
    else
      match SlotOf(loaderState, LoaderOf(a))
      case Undef => TypeError
      case Rec(rec) => ReadProp(rec.config, "autoRefreshInterval")
  }

  /** The action an iteration fetches with: the LOAD that won the race, or the
      original START_REFRESH action when the delay won. */
  function Chosen(a: Action, race: RaceResult): (r: Action)
    ensures race.Delayed? ==> r == a
    ensures race.LoadAction? ==> r == race.action
  {
    match race
    case LoadAction(l) => l
    case Delayed => a
  }

  /** The `take` pattern of the race: a LOAD for `loader`. */
  function MatchesLoad(candidate: Action, loader: string): (r: bool)
    ensures r <==> candidate.kind == LOAD && candidate.meta == Some(Meta(loader))
  {
    candidate.kind == LOAD && candidate.meta.Some? && candidate.meta.value.loader == loader
  }

  predicate RacesMatch(races: seq<RaceResult>, loader: string) {
    forall i :: 0 <= i < |races| ==> races[i].LoadAction? ==> MatchesLoad(races[i].action, loader)
  }

  /** The effects of a run, and whether it ended by throwing. */
  datatype Run = Run(effects: seq<Effect>, threw: bool)

  /** The iterations of the `while (true)` loop, one per race that resolved
      before the task was cancelled; iteration `i` selects `states[i]`. */
  function Iterations(a: Action, states: seq<LoaderState>, races: seq<RaceResult>): Run
    requires a.meta.Some? && Readable(a.payload) && |states| == |races|
    decreases |races|
  {
    if races == [] then Run([], false)
    else
      match Interval(a, states[0])
      case TypeError => Run([SelectLoaderState], true)
      case Ok(interval) =>
        var rest := Iterations(a, states[1..], races[1..]);
        Run([SelectLoaderState, Race(interval, LoaderOf(a)), CallFetchData(Chosen(a, races[0]))] + rest.effects,
            rest.threw)
  }

  /** `autoRefresh(action)`: an optional fetch first, then the iterations. */
  function AutoRefreshRun(a: Action, states: seq<LoaderState>, races: seq<RaceResult>): Run
    requires a.meta.Some? && Readable(a.payload) && |states| == |races|
  {
    var it := Iterations(a, states, races);
    Run((if Truthy(Get(a.payload, "loadImmediately")) then [CallFetchData(a)] else []) + it.effects, it.threw)
  }

  /** The `autoRefresh` loop, run until the races run out (the task is
      cancelled while waiting on the next one) or a read throws. */
  method AutoRefresh(a: Action, states: seq<LoaderState>, races: seq<RaceResult>)
    returns (effects: seq<Effect>, threw: bool)
    requires a.meta.Some? && Readable(a.payload) && |states| == |races|
    ensures Run(effects, threw) == AutoRefreshRun(a, states, races)
  {
    effects := [];
    if Truthy(Get(a.payload, "loadImmediately")) {
      effects := [CallFetchData(a)];
    }
    ghost var total := AutoRefreshRun(a, states, races);
    var i := 0;
    while i < |races|
      invariant 0 <= i <= |races|
      invariant total.effects == effects + Iterations(a, states[i..], races[i..]).effects
      invariant total.threw == Iterations(a, states[i..], races[i..]).threw
    {
      var interval := Interval(a, states[i]);
      if interval.TypeError? {
        effects := effects + [SelectLoaderState];
        threw := true;
        return;
      }
      assert states[i..][1..] == states[i + 1..] && races[i..][1..] == races[i + 1..];
      effects := effects + [SelectLoaderState, Race(interval.value, LoaderOf(a)), CallFetchData(Chosen(a, races[i]))];
      i := i + 1;
    }
    threw := false;
  }

  /** Without a throw, iteration `i` is exactly: select, race with the interval
      of `states[i]`, fetch with the race's winner. A throw happens exactly when
      some iteration cannot read its interval. */
  lemma {:induction false} IterationsShape(a: Action, states: seq<LoaderState>, races: seq<RaceResult>)
    requires a.meta.Some? && Readable(a.payload) && |states| == |races|
    ensures var r := Iterations(a, states, races);
            && (!r.threw <==> forall i :: 0 <= i < |races| ==> Interval(a, states[i]).Ok?)
            && (!r.threw ==>
                  && |r.effects| == 3 * |races|
                  && forall i :: 0 <= i < |races| ==>
                       && r.effects[3 * i] == SelectLoaderState
                       && r.effects[3 * i + 1] == Race(Interval(a, states[i]).value, LoaderOf(a))
                       && r.effects[3 * i + 2] == CallFetchData(Chosen(a, races[i])))
    decreases |races|
  {
    if races != [] {
      var iv := Interval(a, states[0]);
      if iv.Ok? {
        IterationsShape(a, states[1..], races[1..]);
        var r := Iterations(a, states, races);
        var rest := Iterations(a, states[1..], races[1..]);
        assert r.threw == rest.threw;
        assert (forall i :: 0 <= i < |races| ==> Interval(a, states[i]).Ok?) <==>
               (forall i :: 0 <= i < |races[1..]| ==> Interval(a, states[1..][i]).Ok?) by {
          if forall i :: 0 <= i < |races[1..]| ==> Interval(a, states[1..][i]).Ok? {
            forall i | 0 <= i < |races| ensures Interval(a, states[i]).Ok? {
              if i > 0 { assert states[i] == states[1..][i - 1]; }
            }
          }
        }
        if !r.threw {
          forall i | 0 <= i < |races|
            ensures r.effects[3 * i] == SelectLoaderState
            ensures r.effects[3 * i + 1] == Race(Interval(a, states[i]).value, LoaderOf(a))
            ensures r.effects[3 * i + 2] == CallFetchData(Chosen(a, races[i]))
          {
            if i > 0 {
              assert states[i] == states[1..][i - 1] && races[i] == races[1..][i - 1];
              assert r.effects[3 * i] == rest.effects[3 * (i - 1)];
              assert r.effects[3 * i + 1] == rest.effects[3 * (i - 1) + 1];
              assert r.effects[3 * i + 2] == rest.effects[3 * (i - 1) + 2];
            }
          }
        }
      }
    }
  }

  /** The number of fetches among `effects`. */
  function CountFetches(effects: seq<Effect>): nat
    decreases |effects|
  {
    if effects == [] then 0
    else (if effects[0].CallFetchData? then 1 else 0) + CountFetches(effects[1..])
  }

  lemma {:induction false} CountFetchesAppend(e1: seq<Effect>, e2: seq<Effect>)
    ensures CountFetches(e1 + e2) == CountFetches(e1) + CountFetches(e2)
    decreases |e1|
  {
    if e1 != [] {
      assert (e1 + e2)[0] == e1[0] && (e1 + e2)[1..] == e1[1..] + e2;
      CountFetchesAppend(e1[1..], e2);
    } else {
      assert e1 + e2 == e2;
    }
  }

  /** Every resolved race leads to exactly one fetch, and `loadImmediately`
      adds one before the first wait. Every fetch is for the task's loader: the
      original action or a LOAD addressed to the same loader. */
  lemma {:induction false} AutoRefreshFetches(a: Action, states: seq<LoaderState>, races: seq<RaceResult>)
    requires a.meta.Some? && Readable(a.payload) && |states| == |races|
    requires RacesMatch(races, LoaderOf(a))
    ensures var r := AutoRefreshRun(a, states, races);
            && (!r.threw ==>
                  CountFetches(r.effects) == |races| + (if Truthy(Get(a.payload, "loadImmediately")) then 1 else 0))
            && (forall i :: 0 <= i < |r.effects| && r.effects[i].CallFetchData? ==>
                  r.effects[i].action == a || MatchesLoad(r.effects[i].action, LoaderOf(a)))
  {
    var it := Iterations(a, states, races);
    var first := if Truthy(Get(a.payload, "loadImmediately")) then [CallFetchData(a)] else [];
    CountFetchesAppend(first, it.effects);
    IterationFetches(a, states, races);
  }

  lemma {:induction false} IterationFetches(a: Action, states: seq<LoaderState>, races: seq<RaceResult>)
    requires a.meta.Some? && Readable(a.payload) && |states| == |races|
    requires RacesMatch(races, LoaderOf(a))
    ensures var r := Iterations(a, states, races);
            && (!r.threw ==> CountFetches(r.effects) == |races|)
            && (forall i :: 0 <= i < |r.effects| && r.effects[i].CallFetchData? ==>
                  r.effects[i].action == a || MatchesLoad(r.effects[i].action, LoaderOf(a)))
    decreases |races|
  {
    if races != [] && Interval(a, states[0]).Ok? {
      var rest := Iterations(a, states[1..], races[1..]);
      var head := [SelectLoaderState, Race(Interval(a, states[0]).value, LoaderOf(a)), CallFetchData(Chosen(a, races[0]))];
      assert RacesMatch(races[1..], LoaderOf(a)) by {
        forall i | 0 <= i < |races[1..]| ensures races[1..][i].LoadAction? ==> MatchesLoad(races[1..][i].action, LoaderOf(a)) {
          assert races[1..][i] == races[i + 1];
        }
      }
      IterationFetches(a, states[1..], races[1..]);
      CountFetchesAppend(head, rest.effects);
      assert CountFetches(head) == 1 by {
        assert head[1..][1..][1..] == [];
        assert CountFetches(head[1..][1..]) == 1;
      }
      assert races[0].LoadAction? ==> MatchesLoad(races[0].action, LoaderOf(a));
    }
  }

  /** A fetch precedes the first wait exactly when `loadImmediately` is truthy:
      otherwise the run opens with a select. */
  lemma FirstFetchOnlyIfLoadImmediately(a: Action, states: seq<LoaderState>, races: seq<RaceResult>)
    requires a.meta.Some? && Readable(a.payload) && |states| == |races|
    ensures var r := AutoRefreshRun(a, states, races);
            && (Truthy(Get(a.payload, "loadImmediately")) ==> r.effects[0] == CallFetchData(a))
            && (!Truthy(Get(a.payload, "loadImmediately")) ==> r.effects == [] || r.effects[0] == SelectLoaderState)
  {
  }

  // ---------------------------------------------------------------------------
  // createDataLoaderFlow

  /** A registry entry `tasks[loader]`: `{}` or `{autoRefresh: task}`. */
  datatype LoaderTasks = LoaderTasks(autoRefresh: Option<TaskId>)

  type Registry = map<string, LoaderTasks>

  /** `tasks[name] || {}`. */
  function Entry(tasks: Registry, name: string): LoaderTasks {
    if name in tasks then tasks[name] else LoaderTasks(None)
  }

  predicate Registered(tasks: Registry, name: string) {
    Entry(tasks, name).autoRefresh.Some?
  }

  /** The effects of one flow step and the registry it leaves. */
  datatype Step = Step(effects: seq<Effect>, tasks: Registry)

  /** One run of `dataLoaderFlow(action)`, with `forked` the handle a fork would return. */
  function FlowStep(tasks: Registry, a: Action, forked: TaskId): (r: Step)
    requires a.meta.Some?
    ensures r.tasks.Keys == tasks.Keys + {LoaderOf(a)}
    ensures forall k :: k in tasks && k != LoaderOf(a) ==> r.tasks[k] == tasks[k]
    ensures a.kind == START_REFRESH && !Registered(tasks, LoaderOf(a)) ==>
              r.effects == [Fork(a, forked)] && r.tasks[LoaderOf(a)].autoRefresh == Some(forked)
    ensures (a.kind == RESET || a.kind == STOP_REFRESH) && Registered(tasks, LoaderOf(a)) ==>
              r.effects == [Cancel(Entry(tasks, LoaderOf(a)).autoRefresh.value)]
              && !Registered(r.tasks, LoaderOf(a))
    ensures a.kind == LOAD && !Registered(tasks, LoaderOf(a)) ==>
              r.effects == [CallFetchData(a)] && r.tasks[LoaderOf(a)] == Entry(tasks, LoaderOf(a))
    // every other case does nothing but make sure the entry exists
    ensures !(a.kind == START_REFRESH && !Registered(tasks, LoaderOf(a)))
            && !((a.kind == RESET || a.kind == STOP_REFRESH) && Registered(tasks, LoaderOf(a)))
            && !(a.kind == LOAD && !Registered(tasks, LoaderOf(a))) ==>
              r.effects == [] && r.tasks[LoaderOf(a)] == Entry(tasks, LoaderOf(a))
  {
    var name := LoaderOf(a);
    var loaderTasks := Entry(tasks, name);
    var tasks1 := tasks[name := loaderTasks];
    if a.kind == START_REFRESH && loaderTasks.autoRefresh.None? then
      Step([Fork(a, forked)], tasks1[name := LoaderTasks(Some(forked))])
    else if (a.kind == RESET || a.kind == STOP_REFRESH) && loaderTasks.autoRefresh.Some? then
      Step([Cancel(loaderTasks.autoRefresh.value)], tasks1[name := LoaderTasks(None)])
    else if a.kind == LOAD && loaderTasks.autoRefresh.None? then
      Step([CallFetchData(a)], tasks1)
    else
      Step([], tasks1)
  }

  /** The types `rootSaga` subscribes the flow to. */
  const RootSagaTypes: set<ActionType> := {START_REFRESH, STOP_REFRESH, LOAD, RESET}

  /** The flow reads `action.meta.loader`, so a subscribed action needs a `meta`. */
  predicate Deliverable(a: Action) {
    a.kind in RootSagaTypes ==> a.meta.Some?
  }

  /** `rootSaga`: `takeEvery` hands exactly the four subscribed types to the
      flow; every other action leaves the registry alone and yields nothing. */
  function RootSagaStep(tasks: Registry, a: Action, forked: TaskId): (r: Step)
    requires Deliverable(a)
    ensures a.kind !in RootSagaTypes ==> r == Step([], tasks)
    ensures a.kind in RootSagaTypes ==> r == FlowStep(tasks, a, forked)
  {
    if a.kind in RootSagaTypes then FlowStep(tasks, a, forked) else Step([], tasks)
  }

  /** The flow closure with its task registry (`createDataLoaderFlow(taskConf)`). */
  class DataLoaderFlow {
    var tasks: Registry

    constructor (taskConf: Registry)
      ensures tasks == taskConf
    {
      tasks := taskConf;
    }

    /** `dataLoaderFlow(action)`: updates the registry in place. */
    method Handle(a: Action, forked: TaskId) returns (effects: seq<Effect>)
      requires a.meta.Some?
      modifies this
      ensures Step(effects, tasks) == FlowStep(old(tasks), a, forked)
    {
      var name := LoaderOf(a);
      var loaderTasks := if name in tasks then tasks[name] else LoaderTasks(None);
      if name !in tasks {
        tasks := tasks[name := LoaderTasks(None)];
      }
      effects := [];
      if a.kind == START_REFRESH && loaderTasks.autoRefresh.None? {
        effects := effects + [Fork(a, forked)];
        tasks := tasks[name := LoaderTasks(Some(forked))];
      }
      if (a.kind == RESET || a.kind == STOP_REFRESH) && loaderTasks.autoRefresh.Some? {
        effects := effects + [Cancel(loaderTasks.autoRefresh.value)];
        tasks := tasks[name := LoaderTasks(None)];
      }
      if a.kind == LOAD && loaderTasks.autoRefresh.None? {
        effects := effects + [CallFetchData(a)];
      }
    }

    /** The `takeEvery` subscription of `rootSaga`. */
    method TakeEvery(a: Action, forked: TaskId) returns (effects: seq<Effect>)
      requires Deliverable(a)
      modifies this
      ensures Step(effects, tasks) == RootSagaStep(old(tasks), a, forked)
    {
      if a.kind in RootSagaTypes {
        effects := Handle(a, forked);
      } else {
        effects := [];
      }
    }
  }

  // ---------------------------------------------------------------------------
  // At most one live auto-refresh task per loader

  /** Live tasks and the loader each was forked for. */
  type LiveTasks = map<TaskId, string>

  function ApplyEffect(live: LiveTasks, e: Effect): LiveTasks {
    match e
    case Fork(a, t) => if a.meta.Some? then live[t := LoaderOf(a)] else live
    case Cancel(t) => live - {t}
    case _ => live
  }

  /** The live tasks after the effects were carried out. */
  function ApplyEffects(live: LiveTasks, effects: seq<Effect>): LiveTasks
    decreases |effects|
  {
    if effects == [] then live else ApplyEffects(ApplyEffect(live, effects[0]), effects[1..])
  }

  lemma {:induction false} ApplyEffectsAppend(live: LiveTasks, e1: seq<Effect>, e2: seq<Effect>)
    ensures ApplyEffects(live, e1 + e2) == ApplyEffects(ApplyEffects(live, e1), e2)
    decreases |e1|
  {
    if e1 != [] {
      assert (e1 + e2)[0] == e1[0] && (e1 + e2)[1..] == e1[1..] + e2;
      ApplyEffectsAppend(ApplyEffect(live, e1[0]), e1[1..], e2);
    } else {
      assert e1 + e2 == e2;
    }
  }

  /** The registry names exactly the live tasks, each under its own loader. */
  predicate Consistent(tasks: Registry, live: LiveTasks) {
    && (forall n :: n in tasks && tasks[n].autoRefresh.Some? ==>
          tasks[n].autoRefresh.value in live && live[tasks[n].autoRefresh.value] == n)
    && (forall t :: t in live ==> live[t] in tasks && tasks[live[t]].autoRefresh == Some(t))
  }

  /** Under a consistent registry, two live tasks of one loader are the same task. */
  lemma AtMostOneLiveTask(tasks: Registry, live: LiveTasks, t1: TaskId, t2: TaskId)
    requires Consistent(tasks, live)
    requires t1 in live && t2 in live && live[t1] == live[t2]
    ensures t1 == t2
  {
  }

  /** One step of the root saga, given a handle that is not already live, keeps
      the registry consistent with the live tasks and adds at most that handle. */
  lemma StepKeepsConsistent(tasks: Registry, live: LiveTasks, a: Action, forked: TaskId)
    requires Consistent(tasks, live) && Deliverable(a) && forked !in live
    ensures var s := RootSagaStep(tasks, a, forked);
            && Consistent(s.tasks, ApplyEffects(live, s.effects))
            && ApplyEffects(live, s.effects).Keys <= live.Keys + {forked}
  {
    var s := RootSagaStep(tasks, a, forked);
    if s.effects != [] {
      assert s.effects == [s.effects[0]];
      assert ApplyEffects(live, s.effects) == ApplyEffect(live, s.effects[0]) by {
        assert s.effects[1..] == [];
      }
    }
  }

  /** The effects and final registry of a run of the root saga over `actions`,
      `handles[i]` being the handle a fork at step `i` would return. */
  function RunRootSaga(tasks: Registry, actions: seq<Action>, handles: seq<TaskId>): Step
    requires |actions| == |handles|
    requires forall i :: 0 <= i < |actions| ==> Deliverable(actions[i])
    decreases |actions|
  {
    if actions == [] then Step([], tasks)
    else
      var s := RootSagaStep(tasks, actions[0], handles[0]);
      var rest := RunRootSaga(s.tasks, actions[1..], handles[1..]);
      Step(s.effects + rest.effects, rest.tasks)
  }

  /** Fresh handles: pairwise distinct and none of them already live. */
  predicate FreshHandles(handles: seq<TaskId>, live: LiveTasks) {
    && (forall i, j :: 0 <= i < j < |handles| ==> handles[i] != handles[j])
    && (forall i :: 0 <= i < |handles| ==> handles[i] !in live)
  }

  /** The central coordination invariant: over any run with fresh task
      handles, the registry stays consistent with the tasks that are alive. */
  lemma {:induction false} RunKeepsConsistent(tasks: Registry, live: LiveTasks, actions: seq<Action>, handles: seq<TaskId>)
    requires |actions| == |handles|
    requires forall i :: 0 <= i < |actions| ==> Deliverable(actions[i])
    requires Consistent(tasks, live) && FreshHandles(handles, live)
    ensures var r := RunRootSaga(tasks, actions, handles);
            Consistent(r.tasks, ApplyEffects(live, r.effects))
    decreases |actions|
  {
    if actions != [] {
      var s := RootSagaStep(tasks, actions[0], handles[0]);
      StepKeepsConsistent(tasks, live, actions[0], handles[0]);
      var live1 := ApplyEffects(live, s.effects);
      assert forall i :: 0 <= i < |actions[1..]| ==> Deliverable(actions[1..][i]) by {
        forall i | 0 <= i < |actions[1..]| ensures Deliverable(actions[1..][i]) {
          assert actions[1..][i] == actions[i + 1];
        }
      }
      assert FreshHandles(handles[1..], live1) by {
        forall i | 0 <= i < |handles[1..]| ensures handles[1..][i] !in live1 {
          assert handles[1..][i] == handles[i + 1];
          assert handles[0] != handles[i + 1];
        }
      }
      RunKeepsConsistent(s.tasks, live1, actions[1..], handles[1..]);
      var rest := RunRootSaga(s.tasks, actions[1..], handles[1..]);
      ApplyEffectsAppend(live, s.effects, rest.effects);
    }
  }

  /** Starting from `createDataLoaderFlow()` with no task alive, no run of the
      root saga ever has two live auto-refresh tasks for one loader. */
  lemma AtMostOneTaskPerLoader(actions: seq<Action>, handles: seq<TaskId>, t1: TaskId, t2: TaskId)
    requires |actions| == |handles| && FreshHandles(handles, map[])
    requires forall i :: 0 <= i < |actions| ==> Deliverable(actions[i])
    ensures var live := ApplyEffects(map[], RunRootSaga(map[], actions, handles).effects);
            t1 in live && t2 in live && live[t1] == live[t2] ==> t1 == t2
  {
    RunKeepsConsistent(map[], map[], actions, handles);
  }

  /** A second START_REFRESH for a loader that already refreshes is a no-op. */
  lemma SecondStartIsNoop(tasks: Registry, a: Action, b: Action, h1: TaskId, h2: TaskId)
    requires a.kind == START_REFRESH && b.kind == START_REFRESH
    requires a.meta.Some? && b.meta == a.meta
    ensures var s1 := FlowStep(tasks, a, h1);
            var s2 := FlowStep(s1.tasks, b, h2);
            s2.effects == [] && s2.tasks == s1.tasks
  {
  }

  /** A START_REFRESH without `loadImmediately` that is stopped before its first
      race resolves fetches nothing: the flow forks then cancels the same task. */
  lemma StartThenStopFetchesNothing(loader: string, opts: map<string, Value>, h: TaskId)
    requires !Truthy(Lookup(opts, "loadImmediately"))
    ensures var start := StartRefresh(loader, opts);
            var r := RunRootSaga(map[], [start, StopRefresh(loader)], [h, h]);
            && r.effects == [Fork(start, h), Cancel(h)]
            && !Registered(r.tasks, loader)
            && CountFetches(r.effects + AutoRefreshRun(start, [], []).effects) == 0
  {
    var start := StartRefresh(loader, opts);
    var stop := StopRefresh(loader);
    var s1 := RootSagaStep(map[], start, h);
    var s2 := RootSagaStep(s1.tasks, stop, h);
    assert s1.effects == [Fork(start, h)];
    assert s2.effects == [Cancel(h)];
    var r2 := RunRootSaga(s1.tasks, [stop], [h]);
    assert r2 == Step(s2.effects, s2.tasks) by {
      assert [stop][1..] == [] && [h][1..] == [];
      assert RunRootSaga(s2.tasks, [], []) == Step([], s2.tasks);
    }
    assert RunRootSaga(map[], [start, stop], [h, h]) == Step(s1.effects + r2.effects, r2.tasks) by {
      assert [start, stop][1..] == [stop] && [h, h][1..] == [h];
    }
    var all := [Fork(start, h), Cancel(h)] + AutoRefreshRun(start, [], []).effects;
    assert all == [Fork(start, h), Cancel(h)];
    assert CountFetches(all) == 0 by {
      assert all[1..] == [Cancel(h)] && all[1..][1..] == [];
      assert CountFetches(all[1..]) == 0;
    }
  }

  /** A LOAD while an auto-refresh task is registered is not fetched by the
      flow; when the task is waiting in its race and the race takes that LOAD,
      the iteration fetches it exactly once. */
  lemma LoadWhileRefreshingFetchesOnce(tasks: Registry, start: Action, load: Action, h: TaskId, st: LoaderState)
    requires start.kind == START_REFRESH && start.meta.Some? && Readable(start.payload)
    requires MatchesLoad(load, LoaderOf(start)) && Registered(tasks, LoaderOf(start))
    requires Interval(start, st).Ok?
    ensures RootSagaStep(tasks, load, h).effects == []
    ensures var it := Iterations(start, [st], [LoadAction(load)]).effects;
            CountFetches(it) == 1 && it[2] == CallFetchData(load)
  {
    var it := Iterations(start, [st], [LoadAction(load)]).effects;
    assert Iterations(start, [st][1..], [LoadAction(load)][1..]) == Run([], false);
    assert it == [SelectLoaderState, Race(Interval(start, st).value, LoaderOf(start)), CallFetchData(load)];
    assert CountFetches(it) == 1 by {
      assert it[1..][1..][1..] == [];
      assert CountFetches(it[1..][1..]) == 1;
    }
  }
}
