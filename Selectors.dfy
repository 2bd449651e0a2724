/** The selectors of src/selectors.js: reads of one loader's record in the
    store, and the one-entry cache behind `createMemoizedGetData`. */
module Selectors {
  import opened JsValues
  import opened Actions
  import opened Reducer

  /** The store's root state; the loader state is mounted under `reduxAutoloader`.
      The root's other slices are never read here. */
  datatype RootState = RootState(reduxAutoloader: LoaderState)

  /** `getLoaderState(state)`. */
  function GetLoaderState(root: RootState): (r: LoaderState)
    ensures r == root.reduxAutoloader
  {
    root.reduxAutoloader
  }

  /** `isInitialized(state, name)`: the record under `name` is truthy. */
  function IsInitialized(root: RootState, name: string): (r: bool)
    ensures r <==> name in root.reduxAutoloader && root.reduxAutoloader[name].Rec?
  {
    SlotOf(GetLoaderState(root), name).Rec?
  }

  /** The record a getter reads; the getters throw on a loader that is not initialized. */
  function RecordOf(root: RootState, name: string): LoaderRecord
    requires IsInitialized(root, name)
  {
    GetLoaderState(root)[name].record
  }

  function IsLoading(root: RootState, name: string): (r: Value)
    requires IsInitialized(root, name)
    ensures r == FieldOf(RecordOf(root, name), Loading)
  {
    GetLoaderState(root)[name].record.loading
  }

  function IsRefreshing(root: RootState, name: string): (r: Value)
    requires IsInitialized(root, name)
    ensures r == FieldOf(RecordOf(root, name), Refreshing)
  {
    GetLoaderState(root)[name].record.refreshing
  }

  function GetData(root: RootState, name: string): (r: Value)
    requires IsInitialized(root, name)
    ensures r == FieldOf(RecordOf(root, name), Data)
  {
    GetLoaderState(root)[name].record.data
  }

  function GetDataReceivedAt(root: RootState, name: string): (r: Value)
    requires IsInitialized(root, name)
    ensures r == FieldOf(RecordOf(root, name), DataReceivedAt)
  {
    GetLoaderState(root)[name].record.dataReceivedAt
  }

  function GetError(root: RootState, name: string): (r: Value)
    requires IsInitialized(root, name)
    ensures r == FieldOf(RecordOf(root, name), Error)
  {
    GetLoaderState(root)[name].record.error
  }

  function GetErrorReceivedAt(root: RootState, name: string): (r: Value)
    requires IsInitialized(root, name)
    ensures r == FieldOf(RecordOf(root, name), ErrorReceivedAt)
  {
    GetLoaderState(root)[name].record.errorReceivedAt
  }

  function GetUpdatedAt(root: RootState, name: string): (r: Value)
    requires IsInitialized(root, name)
    ensures r == FieldOf(RecordOf(root, name), UpdatedAt)
  {
    GetLoaderState(root)[name].record.updatedAt
  }

  /** A name the state has never seen is not initialized. */
  lemma NeverSeenIsNotInitialized(root: RootState, name: string)
    requires name !in root.reduxAutoloader
    ensures !IsInitialized(root, name)
  {
  }

  /** INITIALIZE makes the loader initialized; RESET makes it not initialized,
      although its key stays in the state. */
  lemma InitializeThenReset(state: LoaderState, name: string, config: Value)
    requires name != ""
    ensures var s1 := Dispatch(state, Initialize(name, config));
            && IsInitialized(RootState(s1), name)
            && IsLoading(RootState(s1), name) == Bool(false)
            && IsRefreshing(RootState(s1), name) == Bool(false)
    ensures var s2 := Dispatch(Dispatch(state, Initialize(name, config)), Reset(name));
            !IsInitialized(RootState(s2), name) && name in s2
  {
  }

  /** What the getters show after a FETCH_DATA_SUCCESS built by its creator:
      the data and its time, which is also the update time, and no error. */
  lemma GettersAfterSuccess(state: LoaderState, name: string, opts: map<string, Value>, now: int)
    requires name != ""
    ensures var root := RootState(Dispatch(state, FetchDataSuccess(name, opts, now)));
            && IsInitialized(root, name)
            && IsLoading(root, name) == Bool(false)
            && GetData(root, name) == Lookup(opts, "data")
            && GetDataReceivedAt(root, name) == Num(now)
            && GetUpdatedAt(root, name) == Num(now)
            && GetError(root, name) == Undefined
            && GetErrorReceivedAt(root, name) == Undefined
  {
  }

  /** `createMemoizedGetData()`: the closure's two variables `memData` and
      `memDataReceivedAt` become the fields of an object. */
  class MemoizedGetData {
    var memData: Value
    var memDataReceivedAt: Value

    /** Both cached values start out `undefined`. */
    constructor ()
      ensures memData == Undefined && memDataReceivedAt == Undefined
    {
      memData := Undefined;
      memDataReceivedAt := Undefined;
    }

    /** A call of the returned selector: on an unchanged `dataReceivedAt` the
        cached data is returned, whatever the current data; otherwise both cached
        values are replaced and the current data is returned. */
    method Get(root: RootState, name: string) returns (r: Value)
      requires IsInitialized(root, name)
      modifies this
      ensures old(memDataReceivedAt) == GetDataReceivedAt(root, name) ==>
                r == old(memData) && memData == old(memData)
      ensures old(memDataReceivedAt) != GetDataReceivedAt(root, name) ==>
                r == GetData(root, name) && memData == GetData(root, name)
      ensures memDataReceivedAt == GetDataReceivedAt(root, name)
      ensures r == memData
    {
      var data := GetData(root, name);
      var dataReceivedAt := GetDataReceivedAt(root, name);
      if memDataReceivedAt == dataReceivedAt {
        return memData;
      }
      memData := data;
      memDataReceivedAt := dataReceivedAt;
      return data;
    }
  }

  /** Two consecutive calls on the same state return the same value. */
  method ConsecutiveCallsAgree(m: MemoizedGetData, root: RootState, name: string)
    returns (first: Value, second: Value)
    requires IsInitialized(root, name)
    modifies m
    ensures first == second
  {
    first := m.Get(root, name);
    second := m.Get(root, name);
  }

  /** A fresh cache called on a record without `dataReceivedAt` returns
      `undefined`, even when the record holds data. */
  method FreshCacheFirstCall(root: RootState, name: string) returns (r: Value)
    requires IsInitialized(root, name)
    requires GetDataReceivedAt(root, name) == Undefined
    ensures r == Undefined
  {
    var m := new MemoizedGetData();
    r := m.Get(root, name);
  }
}
