/** The loader-state reducer of src/reducer.js: an inner switch that computes
    one loader's record from an action, and an outer router that applies it to
    the entry named by `action.meta.loader`. */
module Reducer {
  import opened JsValues
  import opened Actions

  /** A loader record. A field the record does not have reads as `Undefined`;
      in particular there is no `initialized` field. */
  datatype LoaderRecord = LoaderRecord(
    refreshing: Value,
    loading: Value,
    data: Value,
    dataReceivedAt: Value,
    error: Value,
    errorReceivedAt: Value,
    updatedAt: Value,
    config: Value)

  /** What the state holds under a loader name: `undefined` (after RESET) or a record. */
  datatype Slot = Undef | Rec(record: LoaderRecord)

  /** The reducer's state: loader name to slot; a missing key reads as `undefined`. */
  type LoaderState = map<string, Slot>

  /** The fields of a record, to say which of them an action changes. */
  datatype Field = Refreshing | Loading | Data | DataReceivedAt | Error | ErrorReceivedAt | UpdatedAt | Config

  function FieldOf(r: LoaderRecord, f: Field): Value {
    match f
    case Refreshing => r.refreshing
    case Loading => r.loading
    case Data => r.data
    case DataReceivedAt => r.dataReceivedAt
    case Error => r.error
    case ErrorReceivedAt => r.errorReceivedAt
    case UpdatedAt => r.updatedAt
    case Config => r.config
  }

  /** `r1` and `r2` agree on every field outside `changed`. */
  predicate AgreeExcept(r1: LoaderRecord, r2: LoaderRecord, changed: set<Field>) {
    forall f :: f !in changed ==> FieldOf(r1, f) == FieldOf(r2, f)
  }

  /** `{}`: a record with no fields at all. */
  const EmptyRecord := LoaderRecord(Undefined, Undefined, Undefined, Undefined,
                                    Undefined, Undefined, Undefined, Undefined)

  /** `initialState` (src/reducer.js:12-18): both flags false, everything else undefined. */
  const InitialState := EmptyRecord.(refreshing := Bool(false), loading := Bool(false))

  /** `state[name]`. */
  function SlotOf(state: LoaderState, name: string): Slot {
    if name in state then state[name] else Undef
  }

  /** The inner reducer's `state = {}` default: an `undefined` slot is read as `{}`. */
  function Defaulted(s: Slot): LoaderRecord {
    match s
    case Undef => EmptyRecord
    case Rec(r) => r
  }

  /** The inner `reducer(state, action)` switch. The only way it throws is a
      read of `action.payload.<key>` from a payload that is `undefined` or `null`. */
  function LoaderReducer(s: Slot, a: Action): (r: Result<Slot>)
    ensures r.TypeError? <==>
              (a.kind == INITIALIZE || a.kind == FETCH_DATA_SUCCESS || a.kind == FETCH_DATA_FAILURE)
              && !Readable(a.payload)
    ensures a.kind == RESET ==> r == Ok(Undef)
    ensures r.Ok? && a.kind != RESET ==> r.value.Rec?
    // INITIALIZE: the prior record is discarded
    ensures a.kind == INITIALIZE && r.Ok? ==>
              var n := r.value.record;
              && n.refreshing == Bool(false) && n.loading == Bool(false)
              && n.data == Undefined && n.dataReceivedAt == Undefined
              && n.error == Undefined && n.errorReceivedAt == Undefined
              && n.updatedAt == Undefined
              && n.config == Get(a.payload, "config")
    ensures a.kind == FETCH_DATA_REQUEST ==>
              r.Ok? && r.value.record.loading == Bool(true)
              && AgreeExcept(r.value.record, Defaulted(s), {Loading})
    ensures a.kind == FETCH_DATA_SUCCESS && r.Ok? ==>
              var n := r.value.record;
              && n.loading == Bool(false)
              && n.data == Get(a.payload, "data")
              && n.dataReceivedAt == Get(a.payload, "dataReceivedAt")
              && n.updatedAt == n.dataReceivedAt
              && n.error == Undefined && n.errorReceivedAt == Undefined
              && AgreeExcept(n, Defaulted(s), {Loading, Data, DataReceivedAt, Error, ErrorReceivedAt, UpdatedAt})
    ensures a.kind == FETCH_DATA_FAILURE && r.Ok? ==>
              var n := r.value.record;
              && n.loading == Bool(false)
              && n.error == Get(a.payload, "error")
              && n.errorReceivedAt == Get(a.payload, "errorReceivedAt")
              && n.updatedAt == n.errorReceivedAt
              && AgreeExcept(n, Defaulted(s), {Loading, Error, ErrorReceivedAt, UpdatedAt})
    ensures a.kind == START_REFRESH ==>
              r.Ok? && r.value.record.refreshing == Bool(true)
              && AgreeExcept(r.value.record, Defaulted(s), {Refreshing})
    ensures a.kind == STOP_REFRESH ==>
              r.Ok? && r.value.record.refreshing == Bool(false)
              && AgreeExcept(r.value.record, Defaulted(s), {Refreshing})
    // SET_CONFIG: payload keys win over the stored config's, which are otherwise kept
    ensures a.kind == SET_CONFIG ==>
              r.Ok? && var c := r.value.record.config;
              && c.Obj?
              && c.fields.Keys == Spread(Defaulted(s).config).Keys + Spread(a.payload).Keys
              && (forall k :: k in Spread(a.payload) ==> c.fields[k] == Spread(a.payload)[k])
              && (forall k :: k in Spread(Defaulted(s).config) && k !in Spread(a.payload) ==>
                    c.fields[k] == Spread(Defaulted(s).config)[k])
              && AgreeExcept(r.value.record, Defaulted(s), {Config})
    // every other type (LOAD among them) keeps the record; an `undefined` one becomes `{}`
    ensures (a.kind == LOAD || a.kind.Other?) ==> r == Ok(Rec(Defaulted(s)))
  {
    var st := Defaulted(s);
    match a.kind
    case INITIALIZE =>
      if !Readable(a.payload) then TypeError
      else Ok(Rec(InitialState.(config := Get(a.payload, "config"))))
    case RESET =>
      Ok(Undef)
    case FETCH_DATA_REQUEST =>
      Ok(Rec(st.(loading := Bool(true))))
    case FETCH_DATA_SUCCESS =>
      if !Readable(a.payload) then TypeError
      else
        Ok(Rec(st.(loading := Bool(false),
                    data := Get(a.payload, "data"),
                    dataReceivedAt := Get(a.payload, "dataReceivedAt"),
                    error := Undefined,
                    errorReceivedAt := Undefined,
                    updatedAt := Get(a.payload, "dataReceivedAt"))))
    case FETCH_DATA_FAILURE =>
      if !Readable(a.payload) then TypeError
      else
        Ok(Rec(st.(loading := Bool(false),
                    errorReceivedAt := Get(a.payload, "errorReceivedAt"),
                    error := Get(a.payload, "error"),
                    updatedAt := Get(a.payload, "errorReceivedAt"))))
    case START_REFRESH =>
      Ok(Rec(st.(refreshing := Bool(true))))
    case STOP_REFRESH =>
      Ok(Rec(st.(refreshing := Bool(false))))
    case SET_CONFIG =>
      Ok(Rec(st.(config := Obj(Spread(st.config) + Spread(a.payload)))))
    case _ =>
      Ok(Rec(st))
  }

  /** The default export: untagged actions leave the state alone; a tagged one
      rewrites the entry for its loader and no other. */
  function Reduce(state: LoaderState, a: Action): (r: Result<LoaderState>)
    ensures !Tagged(a) ==> r == Ok(state)
    ensures Tagged(a) ==> (r.Ok? <==> LoaderReducer(SlotOf(state, LoaderOf(a)), a).Ok?)
    ensures Tagged(a) && r.Ok? ==>
              && r.value.Keys == state.Keys + {LoaderOf(a)}
              && r.value[LoaderOf(a)] == LoaderReducer(SlotOf(state, LoaderOf(a)), a).value
              && (forall k :: k in state && k != LoaderOf(a) ==> r.value[k] == state[k])
  {
    if !Tagged(a) then Ok(state)
    else
      var name := LoaderOf(a);
      match LoaderReducer(SlotOf(state, name), a)
      case Ok(slot) => Ok(state[name := slot])
      case TypeError => TypeError
  }

  /** What the store holds after dispatching `a`: a dispatch whose reducer throws
      leaves the state as it was. */
  function Dispatch(state: LoaderState, a: Action): LoaderState {
    match Reduce(state, a)
    case Ok(s) => s
    case TypeError => state
  }

  /** The state after dispatching `actions` one after the other. */
  function DispatchAll(state: LoaderState, actions: seq<Action>): LoaderState
    decreases |actions|
  {
    if actions == [] then state else DispatchAll(Dispatch(state, actions[0]), actions[1..])
  }

  /** The action is addressed to loader `name`. */
  predicate AddressedTo(a: Action, name: string) {
    Tagged(a) && LoaderOf(a) == name
  }

  /** Any run of actions addressed to other loaders leaves the entry for `name`
      exactly as it was, present or absent. */
  lemma {:induction false} OtherLoadersUntouched(state: LoaderState, actions: seq<Action>, name: string)
    requires forall i :: 0 <= i < |actions| ==> !AddressedTo(actions[i], name)
    ensures name in DispatchAll(state, actions) <==> name in state
    ensures SlotOf(DispatchAll(state, actions), name) == SlotOf(state, name)
    decreases |actions|
  {
    if actions != [] {
      var next := Dispatch(state, actions[0]);
      assert name in next <==> name in state;
      assert SlotOf(next, name) == SlotOf(state, name);
      assert forall i :: 0 <= i < |actions[1..]| ==> !AddressedTo(actions[1..][i], name) by {
        forall i | 0 <= i < |actions[1..]| ensures !AddressedTo(actions[1..][i], name) {
          assert actions[1..][i] == actions[i + 1];
        }
      }
      OtherLoadersUntouched(next, actions[1..], name);
    }
  }

  /** RESET keeps the key and stores `undefined` under it. */
  lemma ResetKeepsKey(state: LoaderState, name: string)
    requires name != ""
    ensures Reduce(state, Reset(name)) == Ok(state[name := Undef])
    ensures name in Dispatch(state, Reset(name))
  {
  }

  /** A fetch result arriving after RESET re-creates a record, and that record
      has no `config` and no `refreshing` flag. */
  lemma LateFetchResultRecreatesRecord(state: LoaderState, name: string, opts: map<string, Value>, now: int)
    requires name != ""
    ensures var s := Dispatch(Dispatch(state, Reset(name)), FetchDataSuccess(name, opts, now));
            && s[name].Rec?
            && s[name].record.config == Undefined
            && s[name].record.refreshing == Undefined
            && s[name].record.data == Lookup(opts, "data")
  {
  }

  /** A failure after a success keeps the data of the success and records the
      error and its time, which is now the update time. */
  lemma FailureKeepsPriorData(state: LoaderState, name: string, ok: map<string, Value>, t1: int,
                              bad: map<string, Value>, t2: int)
    requires name != ""
    ensures var s := Dispatch(Dispatch(state, FetchDataSuccess(name, ok, t1)), FetchDataFailure(name, bad, t2));
            var r := s[name].record;
            && s[name].Rec?
            && r.data == Lookup(ok, "data") && r.dataReceivedAt == Num(t1)
            && r.error == Lookup(bad, "error") && r.errorReceivedAt == Num(t2)
            && r.updatedAt == Num(t2) && r.loading == Bool(false)
  {
  }

  /** The creators' payload shapes line up with the reducer's reads: INITIALIZE
      stores `payload.config` and SET_CONFIG merges the bare payload. */
  lemma CreatorsMatchReducer(s: Slot, loader: string, config: Value, partial: Value)
    ensures LoaderReducer(s, Initialize(loader, config)) == Ok(Rec(InitialState.(config := config)))
    ensures LoaderReducer(s, SetConfig(loader, partial)).value.record.config
              == Obj(Spread(Defaulted(s).config) + Spread(partial))
  {
  }
}
