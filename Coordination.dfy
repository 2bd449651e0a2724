/** How the reducer and the sagas of src/reducer.js and src/sagas.js keep in
    step. The store hands every dispatched action first to the reducer and then
    to the root saga; the `refreshing` flag the reducer keeps for a loader and
    the auto-refresh task the flow registers for it then agree. */
module Coordination {
  import opened JsValues
  import opened Actions
  import opened Reducer
  import opened Sagas

  /** The reducer's view: the loader has a record whose `refreshing` is truthy. */
  predicate MarkedRefreshing(state: LoaderState, name: string) {
    SlotOf(state, name).Rec? && Truthy(SlotOf(state, name).record.refreshing)
  }

  /** The flag and the registry agree on loader `name`. */
  predicate InStep(state: LoaderState, tasks: Registry, name: string) {
    MarkedRefreshing(state, name) <==> Registered(tasks, name)
  }

  /** An action the component may send: INITIALIZE goes only to a loader that
      has no record, which is how `init` guards it. */
  predicate GuardedFor(state: LoaderState, a: Action, name: string) {
    a.kind == INITIALIZE && AddressedTo(a, name) ==> !SlotOf(state, name).Rec?
  }

  /** One dispatch, through the reducer and then the root saga, keeps the flag
      and the registry in step for every loader with a non-empty name. */
  lemma DispatchKeepsInStep(state: LoaderState, tasks: Registry, a: Action, forked: TaskId, name: string)
    requires name != "" && Deliverable(a)
    requires InStep(state, tasks, name) && GuardedFor(state, a, name)
    ensures InStep(Dispatch(state, a), RootSagaStep(tasks, a, forked).tasks, name)
  {
    var s := RootSagaStep(tasks, a, forked);
    if !AddressedTo(a, name) {
      assert Dispatch(state, a)[name := SlotOf(state, name)] == Dispatch(state, a)[name := SlotOf(Dispatch(state, a), name)];
      assert SlotOf(Dispatch(state, a), name) == SlotOf(state, name);
      assert Entry(s.tasks, name) == Entry(tasks, name);
    } else {
      var slot := LoaderReducer(SlotOf(state, name), a);
      if a.kind == INITIALIZE || a.kind == FETCH_DATA_SUCCESS || a.kind == FETCH_DATA_FAILURE || a.kind == SET_CONFIG {
        assert s.tasks == tasks;
      }
      if slot.Ok? && a.kind != RESET && a.kind != INITIALIZE {
        assert FieldOf(slot.value.record, Refreshing) == slot.value.record.refreshing;
        assert FieldOf(Defaulted(SlotOf(state, name)), Refreshing) == Defaulted(SlotOf(state, name)).refreshing;
      }
    }
  }

  /** The actions of a run may each be sent: INITIALIZE only to a loader without
      a record in the state the run has reached. */
  predicate GuardedRun(state: LoaderState, actions: seq<Action>, name: string) {
    forall i :: 0 <= i < |actions| ==> GuardedFor(DispatchAll(state, actions[..i]), actions[i], name)
  }

  /** The central agreement: over any run of dispatches, the loader is marked as
      refreshing exactly when an auto-refresh task is registered for it. */
  lemma {:induction false} RunKeepsInStep(state: LoaderState, tasks: Registry, actions: seq<Action>,
                                          handles: seq<TaskId>, name: string)
    requires name != "" && |actions| == |handles|
    requires forall i :: 0 <= i < |actions| ==> Deliverable(actions[i])
    requires InStep(state, tasks, name) && GuardedRun(state, actions, name)
    ensures InStep(DispatchAll(state, actions), RunRootSaga(tasks, actions, handles).tasks, name)
    decreases |actions|
  {
    if actions != [] {
      assert actions[..0] == [];
      assert GuardedFor(state, actions[0], name);
      DispatchKeepsInStep(state, tasks, actions[0], handles[0], name);
      var next := Dispatch(state, actions[0]);
      var s := RootSagaStep(tasks, actions[0], handles[0]);
      assert forall i :: 0 <= i < |actions[1..]| ==> Deliverable(actions[1..][i]) by {
        forall i | 0 <= i < |actions[1..]| ensures Deliverable(actions[1..][i]) {
          assert actions[1..][i] == actions[i + 1];
        }
      }
      assert GuardedRun(next, actions[1..], name) by {
        forall i | 0 <= i < |actions[1..]|
          ensures GuardedFor(DispatchAll(next, actions[1..][..i]), actions[1..][i], name)
        {
          assert actions[1..][i] == actions[i + 1];
          assert actions[..i + 1][0] == actions[0] && actions[..i + 1][1..] == actions[1..][..i];
          assert DispatchAll(state, actions[..i + 1]) == DispatchAll(next, actions[1..][..i]);
        }
      }
      RunKeepsInStep(next, s.tasks, actions[1..], handles[1..], name);
    }
  }

  /** An INITIALIZE sent to a loader that refreshes breaks the agreement: its
      flag is cleared while the flow keeps the task. */
  lemma UnguardedInitializeBreaksInStep(state: LoaderState, tasks: Registry, name: string, config: Value, h: TaskId)
    requires name != "" && Registered(tasks, name) && InStep(state, tasks, name)
    ensures !InStep(Dispatch(state, Initialize(name, config)), RootSagaStep(tasks, Initialize(name, config), h).tasks, name)
  {
  }

  /** RESET tears down both sides: the record becomes `undefined` and a
      registered task is cancelled and unregistered. */
  lemma ResetTearsDownBoth(state: LoaderState, tasks: Registry, name: string, h: TaskId)
    requires name != ""
    ensures var s := RootSagaStep(tasks, Reset(name), h);
            && SlotOf(Dispatch(state, Reset(name)), name) == Undef
            && !Registered(s.tasks, name)
            && (Registered(tasks, name) ==> s.effects == [Cancel(Entry(tasks, name).autoRefresh.value)])
            && (!Registered(tasks, name) ==> s.effects == [])
  {
  }

  /** The state after dispatching the actions that `effects` put, in order. */
  function ApplyPuts(state: LoaderState, effects: seq<Effect>): LoaderState
    decreases |effects|
  {
    if effects == [] then state
    else ApplyPuts(if effects[0].Put? then Dispatch(state, effects[0].action) else state, effects[1..])
  }

  /** `fetchData` opens a loading window and closes it: after its request the
      loader is loading, and once its result is put it no longer is, and holds
      the data or the error, each stamped with the time. */
  lemma FetchDataLoadingWindow(state: LoaderState, a: Action, outcome: CallResult, now: int)
    requires a.meta.Some? && a.meta.value.loader != "" && Readable(a.payload)
    ensures var r := FetchData(a, outcome, now);
            var during := ApplyPuts(state, r[..1]);
            var after := ApplyPuts(state, r);
            var name := LoaderOf(a);
            var callable := Get(a.payload, "apiCall").Fn?;
            && SlotOf(during, name).Rec? && SlotOf(during, name).record.loading == Bool(true)
            && SlotOf(after, name).Rec? && SlotOf(after, name).record.loading == Bool(false)
            && (callable && outcome.Resolved? ==>
                  && SlotOf(after, name).record.data == outcome.data
                  && SlotOf(after, name).record.dataReceivedAt == Num(now))
            && (callable && outcome.Rejected? ==>
                  && SlotOf(after, name).record.error == outcome.err
                  && SlotOf(after, name).record.errorReceivedAt == Num(now))
            && (!callable ==>
                  && SlotOf(after, name).record.error == NotAFunctionError
                  && SlotOf(after, name).record.errorReceivedAt == Num(now))
  {
    var r := FetchData(a, outcome, now);
    var s1 := Dispatch(state, r[0].action);
    var last := r[|r| - 1];
    var s2 := Dispatch(s1, last.action);
    assert r[..1] == [r[0]] && [r[0]][1..] == [];
    assert ApplyPuts(state, r[..1]) == s1;
    assert [last][1..] == [];
    assert ApplyPuts(s1, [last]) == s2;
    if |r| == 3 {
      assert r[1..] == [r[1], last] && [r[1], last][1..] == [last];
      assert !r[1].Put?;
      assert ApplyPuts(s1, [r[1], last]) == ApplyPuts(s1, [last]);
    } else {
      assert r[1..] == [last];
    }
    assert ApplyPuts(state, r) == s2;
  }
}
