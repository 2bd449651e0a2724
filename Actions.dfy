/** The action vocabulary (src/actionTypes.js) and the nine action creators
    of src/actions.js. An action is `{type, meta: {loader}, payload, error}`. */
module Actions {
  import opened JsValues

  /** The nine type constants; `Other` stands for any type string that is none
      of them (an action of some other part of the application). */
  datatype ActionType =
    | INITIALIZE
    | FETCH_DATA_REQUEST
    | FETCH_DATA_SUCCESS
    | FETCH_DATA_FAILURE
    | START_REFRESH
    | STOP_REFRESH
    | LOAD
    | RESET
    | SET_CONFIG
    | Other(name: string)

  /** `meta: {loader}`; a `meta` object without a truthy `loader` has `loader == ""`. */
  datatype Meta = Meta(loader: string)

  /** `kind` is the action's `type` field; an absent `payload` is `Undefined`;
      `error` is the top-level `error: true` flag of a failure. */
  datatype Action = Action(kind: ActionType, meta: Option<Meta>, payload: Value, error: bool)

  /** `action.meta && action.meta.loader`: the action is addressed to a loader. */
  predicate Tagged(a: Action) {
    a.meta.Some? && a.meta.value.loader != ""
  }

  /** `action.meta.loader`, for an action that has a `meta`. */
  function LoaderOf(a: Action): string
    requires a.meta.Some?
  {
    a.meta.value.loader
  }

  /** `initialize(loader, config)`: the config travels as `payload.config`. */
  function Initialize(loader: string, config: Value): (a: Action)
    ensures a.kind == INITIALIZE && a.meta == Some(Meta(loader)) && !a.error
    ensures ReadProp(a.payload, "config") == Ok(config)
  {
    Action(INITIALIZE, Some(Meta(loader)), Obj(map["config" := config]), false)
  }

  /** `fetchDataRequest(loader, {apiCall})`. */
  function FetchDataRequest(loader: string, opts: map<string, Value>): (a: Action)
    ensures a.kind == FETCH_DATA_REQUEST && a.meta == Some(Meta(loader)) && !a.error
    ensures a.payload.Obj? && a.payload.fields.Keys == {"apiCall"}
    ensures ReadProp(a.payload, "apiCall") == Ok(Lookup(opts, "apiCall"))
  {
    Action(FETCH_DATA_REQUEST, Some(Meta(loader)), Obj(map["apiCall" := Lookup(opts, "apiCall")]), false)
  }

  /** `fetchDataSuccess(loader, {data})`, stamped with the current time `now`. */
  function FetchDataSuccess(loader: string, opts: map<string, Value>, now: int): (a: Action)
    ensures a.kind == FETCH_DATA_SUCCESS && a.meta == Some(Meta(loader)) && !a.error
    ensures a.payload.Obj? && a.payload.fields.Keys == {"data", "dataReceivedAt"}
    ensures ReadProp(a.payload, "data") == Ok(Lookup(opts, "data"))
    ensures ReadProp(a.payload, "dataReceivedAt") == Ok(Num(now))
  {
    Action(FETCH_DATA_SUCCESS, Some(Meta(loader)),
           Obj(map["data" := Lookup(opts, "data"), "dataReceivedAt" := Num(now)]), false)
  }

  /** `fetchDataFailure(loader, {error})`, stamped with the current time `now`
      and flagged `error: true`. */
  function FetchDataFailure(loader: string, opts: map<string, Value>, now: int): (a: Action)
    ensures a.kind == FETCH_DATA_FAILURE && a.meta == Some(Meta(loader)) && a.error
    ensures a.payload.Obj? && a.payload.fields.Keys == {"error", "errorReceivedAt"}
    ensures ReadProp(a.payload, "error") == Ok(Lookup(opts, "error"))
    ensures ReadProp(a.payload, "errorReceivedAt") == Ok(Num(now))
  {
    Action(FETCH_DATA_FAILURE, Some(Meta(loader)),
           Obj(map["error" := Lookup(opts, "error"), "errorReceivedAt" := Num(now)]), true)
  }

  /** The three keys `startRefresh` keeps from its argument. */
  const StartRefreshKeys: set<string> := {"apiCall", "newAutoRefreshInterval", "loadImmediately"}

  /** `startRefresh(loader, {apiCall, newAutoRefreshInterval, loadImmediately})`:
      every other field of the argument is dropped. */
  function StartRefresh(loader: string, opts: map<string, Value>): (a: Action)
    ensures a.kind == START_REFRESH && a.meta == Some(Meta(loader)) && !a.error
    ensures a.payload.Obj? && a.payload.fields.Keys == StartRefreshKeys
    ensures forall k :: k in StartRefreshKeys ==> ReadProp(a.payload, k) == Ok(Lookup(opts, k))
    ensures forall k :: k in opts && k !in StartRefreshKeys ==> k !in a.payload.fields
  {
    Action(START_REFRESH, Some(Meta(loader)),
           Obj(map["apiCall" := Lookup(opts, "apiCall"),
                   "newAutoRefreshInterval" := Lookup(opts, "newAutoRefreshInterval"),
                   "loadImmediately" := Lookup(opts, "loadImmediately")]), false)
  }

  /** `stopRefresh(loader)`: no payload. */
  function StopRefresh(loader: string): (a: Action)
    ensures a.kind == STOP_REFRESH && a.meta == Some(Meta(loader)) && !a.error
    ensures a.payload == Undefined
  {
    Action(STOP_REFRESH, Some(Meta(loader)), Undefined, false)
  }

  /** `load(loader, {apiCall})`. */
  function Load(loader: string, opts: map<string, Value>): (a: Action)
    ensures a.kind == LOAD && a.meta == Some(Meta(loader)) && !a.error
    ensures a.payload.Obj? && a.payload.fields.Keys == {"apiCall"}
    ensures ReadProp(a.payload, "apiCall") == Ok(Lookup(opts, "apiCall"))
  {
    Action(LOAD, Some(Meta(loader)), Obj(map["apiCall" := Lookup(opts, "apiCall")]), false)
  }

  /** `reset(loader)`: no payload. */
  function Reset(loader: string): (a: Action)
    ensures a.kind == RESET && a.meta == Some(Meta(loader)) && !a.error
    ensures a.payload == Undefined
  {
    Action(RESET, Some(Meta(loader)), Undefined, false)
  }

  /** `setConfig(loader, config)`: the config itself is the payload, so its keys
      are what a spread of the payload yields. */
  function SetConfig(loader: string, config: Value): (a: Action)
    ensures a.kind == SET_CONFIG && a.meta == Some(Meta(loader)) && !a.error
    ensures Spread(a.payload) == Spread(config)
  {
    Action(SET_CONFIG, Some(Meta(loader)), config, false)
  }
}
