/** The decision rules of src/reduxAutoloader.js: the configuration checks,
    cache staleness, and which commands the component issues, in which order,
    on mount, on a prop change, on unmount and through the functions it hands
    to the wrapped component. Commands are abstract: each names the loader and
    the arguments the component passes. */
module Autoloader {
  import opened JsValues

  /** The options object given to `reduxAutoloader`. `Undefined` (or `None`)
      stands for an option that was not given, so that its default applies. */
  datatype Options = Options(
    name: Value,
    apiCall: Value,
    reloadOnMount: Value,
    resetOnUnmount: Value,
    cacheExpiresIn: Option<int>,
    autoRefreshInterval: Option<int>)

  /** The options once the defaults are in place and the checks have passed. */
  datatype Settings = Settings(
    name: Value,
    apiCall: Value,
    reloadOnMount: bool,
    resetOnUnmount: Value,
    cacheExpiresIn: int,
    autoRefreshInterval: int)

  /** The failed `assert` of the configuration checks, in the order they run. */
  datatype ConfigError =
    | NameRequired
    | NameNotFunctionOrString
    | SelectorNotFunction
    | ReloadOnMountNotBoolean

  datatype Configured = Configured(settings: Settings) | AssertionFailed(error: ConfigError)

  /** `reduxAutoloader(options, mapStateToProps)`: fills in the defaults and
      fails fast on the first check that does not hold; `apiCall` is only
      ever tested for truthiness, never validated. */
  function Configure(opts: Options, mapStateToProps: Value): (r: Configured)
    ensures r.Configured? <==>
              && Truthy(opts.name) && (opts.name.Fn? || opts.name.Str?)
              && (mapStateToProps.Undefined? || mapStateToProps.Fn?)
              && (opts.reloadOnMount.Undefined? || opts.reloadOnMount.Bool?)
    ensures !Truthy(opts.name) ==> r == AssertionFailed(NameRequired)
    ensures Truthy(opts.name) && !opts.name.Fn? && !opts.name.Str? ==> r == AssertionFailed(NameNotFunctionOrString)
    ensures (&& Truthy(opts.name) && (opts.name.Fn? || opts.name.Str?)
             && !(mapStateToProps.Undefined? || mapStateToProps.Fn?))
            ==> r == AssertionFailed(SelectorNotFunction)
    ensures (&& Truthy(opts.name) && (opts.name.Fn? || opts.name.Str?)
             && (mapStateToProps.Undefined? || mapStateToProps.Fn?)
             && !(opts.reloadOnMount.Undefined? || opts.reloadOnMount.Bool?))
            ==> r == AssertionFailed(ReloadOnMountNotBoolean)
    ensures r.Configured? ==>
              && r.settings.name == opts.name && r.settings.apiCall == opts.apiCall
              && r.settings.reloadOnMount == (opts.reloadOnMount.Undefined? || opts.reloadOnMount.b)
              && r.settings.resetOnUnmount == (if opts.resetOnUnmount.Undefined? then Bool(true) else opts.resetOnUnmount)
              && r.settings.cacheExpiresIn == (if opts.cacheExpiresIn.Some? then opts.cacheExpiresIn.value else 0)
              && r.settings.autoRefreshInterval == (if opts.autoRefreshInterval.Some? then opts.autoRefreshInterval.value else 0)
  {
    var reloadOnMount := if opts.reloadOnMount.Undefined? then Bool(true) else opts.reloadOnMount;
    var selector := if mapStateToProps.Undefined? then Fn(0) else mapStateToProps;
    if !Truthy(opts.name) then AssertionFailed(NameRequired)
    else if !(opts.name.Fn? || opts.name.Str?) then AssertionFailed(NameNotFunctionOrString)
    else if !selector.Fn? then AssertionFailed(SelectorNotFunction)
    else if !reloadOnMount.Bool? then AssertionFailed(ReloadOnMountNotBoolean)
    else
      Configured(Settings(
        opts.name,
        opts.apiCall,
        reloadOnMount.b,
        if opts.resetOnUnmount.Undefined? then Bool(true) else opts.resetOnUnmount,
        if opts.cacheExpiresIn.Some? then opts.cacheExpiresIn.value else 0,
        if opts.autoRefreshInterval.Some? then opts.autoRefreshInterval.value else 0))
  }

  /** Whether a configuration is accepted does not depend on `apiCall`. */
  lemma ApiCallIsNotValidated(opts: Options, mapStateToProps: Value, apiCall: Value)
    ensures Configure(opts.(apiCall := apiCall), mapStateToProps).Configured?
            == Configure(opts, mapStateToProps).Configured?
  {
  }

  /** `cacheIsStale(dataReceivedAt, expiresIn)` at time `now`: stale when either
      value is falsy (an absent or zero time, a zero lifetime), else strictly
      after the expiry time. */
  function CacheIsStale(dataReceivedAt: Option<int>, expiresIn: int, now: int): (r: bool)
    ensures dataReceivedAt.None? || dataReceivedAt == Some(0) || expiresIn == 0 ==> r
    ensures dataReceivedAt.Some? && dataReceivedAt.value != 0 && expiresIn != 0 ==>
              (r <==> now > dataReceivedAt.value + expiresIn)
  {
    if dataReceivedAt.None? || dataReceivedAt.value == 0 || expiresIn == 0 then true
    else now > dataReceivedAt.value + expiresIn
  }

  /** Once stale, a cache stays stale as time goes on. */
  lemma StalenessPersists(dataReceivedAt: Option<int>, expiresIn: int, t1: int, t2: int)
    requires t1 <= t2 && CacheIsStale(dataReceivedAt, expiresIn, t1)
    ensures CacheIsStale(dataReceivedAt, expiresIn, t2)
  {
  }

  /** The props `init` reads: whether the record exists, and its `dataReceivedAt`. */
  datatype LoaderProps = LoaderProps(hasBeenInitialized: bool, dataReceivedAt: Option<int>)

  /** A command the component issues through its connected action props. */
  datatype Command =
    | Initialize(loader: string)
    | StartRefresh(loader: string, apiCall: Value, interval: Value)
    | ManualRefresh(loader: string, apiCall: Value)
    | StopRefresh(loader: string)
    | Reset(loader: string)

  /** `shouldReload` in `init`. */
  function ShouldReload(s: Settings, props: LoaderProps, now: int): (r: bool)
    // with a lifetime set, an initialized loader reloads on a falsy time or past expiry
    ensures r <==>
              || s.reloadOnMount
              || !props.hasBeenInitialized
              || (&& s.cacheExpiresIn != 0
                  && (|| props.dataReceivedAt.None? || props.dataReceivedAt == Some(0)
                      || now > props.dataReceivedAt.value + s.cacheExpiresIn))
  {
    || s.reloadOnMount
    || !props.hasBeenInitialized
    || (s.cacheExpiresIn != 0 && CacheIsStale(props.dataReceivedAt, s.cacheExpiresIn, now))
  }

  /** `init(props)` for the loader named `loader`; `componentWillMount` is `init(this.props)`. */
  function Init(s: Settings, loader: string, props: LoaderProps, now: int): (r: seq<Command>)
    ensures forall i :: 0 <= i < |r| ==> r[i].loader == loader
    ensures Initialize(loader) in r <==> !props.hasBeenInitialized
    ensures !props.hasBeenInitialized ==> r[0] == Initialize(loader)
    ensures StartRefresh(loader, s.apiCall, Num(s.autoRefreshInterval)) in r <==>
              Truthy(s.apiCall) && s.autoRefreshInterval != 0
    ensures forall i :: 0 <= i < |r| && r[i].StartRefresh? ==>
              r[i] == StartRefresh(loader, s.apiCall, Num(s.autoRefreshInterval))
    ensures forall i :: 0 <= i < |r| && r[i].ManualRefresh? ==> r[i] == ManualRefresh(loader, s.apiCall)
    ensures ManualRefresh(loader, s.apiCall) in r <==> Truthy(s.apiCall) && ShouldReload(s, props, now)
    ensures forall i, j :: 0 <= i < |r| && 0 <= j < |r| && r[i].StartRefresh? && r[j].ManualRefresh? ==> i < j
    ensures forall i :: 0 <= i < |r| ==> !r[i].StopRefresh? && !r[i].Reset?
    // each command at most once
    ensures |r| == (if !props.hasBeenInitialized then 1 else 0)
                 + (if Truthy(s.apiCall) && s.autoRefreshInterval != 0 then 1 else 0)
                 + (if Truthy(s.apiCall) && ShouldReload(s, props, now) then 1 else 0)
  {
    (if !props.hasBeenInitialized then [Initialize(loader)] else [])
    + (if Truthy(s.apiCall) && s.autoRefreshInterval != 0
       then [StartRefresh(loader, s.apiCall, Num(s.autoRefreshInterval))] else [])
    + (if Truthy(s.apiCall) && ShouldReload(s, props, now) then [ManualRefresh(loader, s.apiCall)] else [])
  }

  /** `componentWillReceiveProps(nextProps)`, where `reinitialize` is what the
      configured `reinitialize(this.props, nextProps)` returned: stop, reset and
      init again, or nothing at all. */
  function ReceiveProps(s: Settings, reinitialize: bool, nextLoader: string, next: LoaderProps, now: int)
    : (r: seq<Command>)
    ensures r != [] <==> reinitialize || !next.hasBeenInitialized
    ensures r != [] ==>
              && |r| >= 2 && r[0] == StopRefresh(nextLoader) && r[1] == Reset(nextLoader)
              && r[2..] == Init(s, nextLoader, next, now)
  {
    if reinitialize || !next.hasBeenInitialized then
      [StopRefresh(nextLoader), Reset(nextLoader)] + Init(s, nextLoader, next, now)
    else []
  }

  /** `init` reads the props from before the reset, so a reinitialization of a
      loader whose record existed resets it without issuing `initialize`. */
  lemma ReinitializeOfInitializedLoaderSkipsInitialize(s: Settings, loader: string, next: LoaderProps, now: int)
    requires next.hasBeenInitialized
    ensures var r := ReceiveProps(s, true, loader, next, now);
            Reset(loader) in r && Initialize(loader) !in r
  {
    var r := ReceiveProps(s, true, loader, next, now);
    assert r[1] == Reset(loader);
  }

  /** `componentWillUnmount`: always stop, reset only when `resetOnUnmount`. */
  function Unmount(s: Settings, loader: string): (r: seq<Command>)
    ensures |r| >= 1 && r[0] == StopRefresh(loader)
    ensures Reset(loader) in r <==> Truthy(s.resetOnUnmount)
    ensures |r| == if Truthy(s.resetOnUnmount) then 2 else 1
  {
    [StopRefresh(loader)] + (if Truthy(s.resetOnUnmount) then [Reset(loader)] else [])
  }

  /** The `startAutoRefresh(newTimeout)` prop: `newTimeout || autoRefreshInterval`. */
  function StartAutoRefresh(s: Settings, loader: string, newTimeout: Value): (r: seq<Command>)
    ensures |r| == 1 && r[0].StartRefresh? && r[0].loader == loader && r[0].apiCall == s.apiCall
    ensures Truthy(newTimeout) ==> r[0].interval == newTimeout
    ensures !Truthy(newTimeout) ==> r[0].interval == Num(s.autoRefreshInterval)
  {
    [StartRefresh(loader, s.apiCall, if Truthy(newTimeout) then newTimeout else Num(s.autoRefreshInterval))]
  }

  /** With `cacheExpiresIn = 1000` and `reloadOnMount = false`, a remount 500 ms
      after data arrived issues no refresh, and one 1100 ms after issues exactly
      one manual refresh. */
  lemma CacheWindowScenario(s: Settings, loader: string, receivedAt: int)
    requires receivedAt != 0 && Truthy(s.apiCall)
    requires !s.reloadOnMount && s.cacheExpiresIn == 1000 && s.autoRefreshInterval == 0
    ensures Init(s, loader, LoaderProps(true, Some(receivedAt)), receivedAt + 500) == []
    ensures Init(s, loader, LoaderProps(true, Some(receivedAt)), receivedAt + 1100)
              == [ManualRefresh(loader, s.apiCall)]
  {
  }
}
