/** The collection registry of src/collection.js: the module-level
    `hashTable` from a loader's `$name` to its `$refresh` callback, kept up to
    date by the collection component's lifecycle, and the `refresh` broadcast
    that calls every registered callback. */
module Collection {
  import opened JsValues

  /** The table: `$name` to `$refresh`. */
  type Table = map<string, Value>

  /** `componentDidMount`: `hashTable[$name] = $refresh`. */
  function Mounted(t: Table, name: string, refresh: Value): (r: Table)
    ensures r.Keys == t.Keys + {name} && r[name] == refresh
    ensures forall k :: k in t && k != name ==> r[k] == t[k]
  {
    t[name := refresh]
  }

  /** `componentWillReceiveProps(nextProps)`: only a new `$refresh` touches the
      table; then the old name's entry goes if the name changed, and the next
      name maps to the next callback. */
  function PropsChanged(t: Table, prevName: string, prevRefresh: Value, nextName: string, nextRefresh: Value)
    : (r: Table)
    ensures nextRefresh == prevRefresh ==> r == t
    ensures nextRefresh != prevRefresh ==>
              && r.Keys == (t.Keys - (if prevName != nextName then {prevName} else {})) + {nextName}
              && r[nextName] == nextRefresh
              && (forall k :: k in t && k != prevName && k != nextName ==> r[k] == t[k])
  {
    if nextRefresh == prevRefresh then t
    else (if prevName != nextName then t - {prevName} else t)[nextName := nextRefresh]
  }

  /** `componentWillUnmount`: `delete hashTable[$name]`. */
  function Unmounted(t: Table, name: string): (r: Table)
    ensures r.Keys == t.Keys - {name}
    ensures forall k :: k in r ==> r[k] == t[k]
  {
    t - {name}
  }

  /** Unmounting undoes a mount of a name that was not registered. */
  lemma UnmountUndoesMount(t: Table, name: string, refresh: Value)
    requires name !in t
    ensures Unmounted(Mounted(t, name, refresh), name) == t
  {
  }

  /** A rename under an unchanged `$refresh` leaves the table as it was, so the
      unmount that follows deletes the new name and the old entry stays. */
  lemma RenameWithSameCallbackKeepsOldEntry(t: Table, oldName: string, newName: string, refresh: Value)
    requires oldName != newName
    ensures var after := Unmounted(PropsChanged(Mounted(t, oldName, refresh), oldName, refresh, newName, refresh), newName);
            oldName in after && after[oldName] == refresh
  {
  }

  /** The table as a class: the module-level dictionary that every collection
      component updates in place. */
  class CollectionRegistry {
    var hashTable: Table

    /** `const hashTable = {}`. */
    constructor ()
      ensures hashTable == map[]
    {
      hashTable := map[];
    }

    method ComponentDidMount(name: string, refresh: Value)
      modifies this
      ensures hashTable == Mounted(old(hashTable), name, refresh)
    {
      hashTable := hashTable[name := refresh];
    }

    method ComponentWillReceiveProps(prevName: string, prevRefresh: Value, nextName: string, nextRefresh: Value)
      modifies this
      ensures hashTable == PropsChanged(old(hashTable), prevName, prevRefresh, nextName, nextRefresh)
    {
      if nextRefresh != prevRefresh {
        if prevName != nextName {
          hashTable := hashTable - {prevName};
        }
        hashTable := hashTable[nextName := nextRefresh];
      }
    }

    method ComponentWillUnmount(name: string)
      modifies this
      ensures hashTable == Unmounted(old(hashTable), name)
    {
      hashTable := hashTable - {name};
    }

    /** `refresh()`: calls every registered callback once. `called` lists the
        names in the order visited, `invoked` the callbacks called. */
    method Refresh() returns (called: seq<string>, invoked: seq<Value>)
      ensures |called| == |hashTable|
      ensures forall k :: k in hashTable <==> k in called
      ensures forall i, j :: 0 <= i < j < |called| ==> called[i] != called[j]
      ensures |invoked| == |called|
      ensures forall i :: 0 <= i < |called| ==> called[i] in hashTable && invoked[i] == hashTable[called[i]]
    {
      var remaining := hashTable.Keys;
      called, invoked := [], [];
      while remaining != {}
        invariant remaining <= hashTable.Keys
        invariant forall k :: k in hashTable ==> (k in remaining <==> k !in called)
        invariant forall i :: 0 <= i < |called| ==> called[i] in hashTable
        invariant forall i, j :: 0 <= i < j < |called| ==> called[i] != called[j]
        invariant |called| + |remaining| == |hashTable.Keys|
        invariant |invoked| == |called|
        invariant forall i :: 0 <= i < |called| ==> invoked[i] == hashTable[called[i]]
        decreases remaining
      {
        var name :| name in remaining;
        called := called + [name];
        invoked := invoked + [hashTable[name]];
        remaining := remaining - {name};
      }
    }
  }

  /** `render`: the wrapped component gets every prop except `$name` and `$refresh`. */
  function WrappedProps(props: map<string, Value>): (r: map<string, Value>)
    ensures "$name" !in r && "$refresh" !in r
    ensures forall k :: k in r ==> k in props && r[k] == props[k]
    ensures forall k :: k in props && k != "$name" && k != "$refresh" ==> k in r
  {
    props - {"$name", "$refresh"}
  }
}
