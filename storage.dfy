/** StorageService: a key-value store that creates its backing engine lazily,
    once, and answers null for a key it does not hold. The engine itself
    (IndexedDB or localStorage) is the map `data`. */
module Storage {
  import opened Common
  import opened Entities

  /** The values the application stores. */
  datatype Value =
    | Bool(b: bool)
    | Str(s: string)
    | TrackList(tracks: seq<Track>)
    | UserRecord(user: User)

  /** JavaScript truthiness of what `get` returns: null, false and "" are falsy;
      arrays and objects, even empty ones, are truthy. */
  predicate Truthy(v: Option<Value>) {
    match v
    case None => false
    case Some(Bool(b)) => b
    case Some(Str(s)) => s != ""
    case Some(TrackList(_)) => true
    case Some(UserRecord(_)) => true
  }

  /** The value held under a key of a map of stored values, or null. */
  function Find(data: map<string, Value>, key: string): (r: Option<Value>)
    ensures r.Some? <==> key in data
    ensures r.Some? ==> r.value == data[key]
  {
    if key in data then Some(data[key]) else None
  }

  class Store {
    /** The `initialized` flag of the service. */
    var initialized: bool
    /** The contents of the backing engine. */
    var data: map<string, Value>
    /** How many times the backing engine has been created. */
    ghost var creations: nat

    /** The engine is created exactly when the flag is set, and never twice. */
    ghost predicate Valid()
      reads this
    {
      creations == if initialized then 1 else 0
    }

    /** `get`'s answer for a key: the stored value, or null. */
    function Lookup(key: string): (r: Option<Value>)
      reads this
      ensures r.Some? <==> key in data
      ensures r.Some? ==> r.value == data[key]
      ensures r == Find(data, key)
    {
      Find(data, key)
    }

    /** A fresh service over an engine that already holds `persisted`. */
    constructor (persisted: map<string, Value>)
      ensures Valid() && !initialized && data == persisted
    {
      initialized := false;
      data := persisted;
      creations := 0;
    }

    /** `init`: creates the engine unless the flag says it exists. */
    method Init()
      requires Valid()
      modifies this
      ensures Valid() && initialized && data == old(data)
      ensures creations == if old(initialized) then old(creations) else old(creations) + 1
    {
      if initialized {
        return;
      }
      creations := creations + 1;
      initialized := true;
    }

    method Set(key: string, value: Value)
      requires Valid()
      modifies this
      ensures Valid() && initialized
      ensures data == old(data)[key := value]
    {
      Init();
      data := data[key := value];
    }

    method Get(key: string) returns (r: Option<Value>)
      requires Valid()
      modifies this
      ensures Valid() && initialized && data == old(data)
      ensures r == old(Lookup(key))
    {
      Init();
      r := if key in data then Some(data[key]) else None;
    }

    method Remove(key: string)
      requires Valid()
      modifies this
      ensures Valid() && initialized
      ensures data == old(data) - {key}
    {
      Init();
      data := data - {key};
    }

    method Clear()
      requires Valid()
      modifies this
      ensures Valid() && initialized
      ensures data == map[]
    {
      Init();
      data := map[];
    }

    /** `keys`: every stored key exactly once, in the engine's own order. */
    method Keys() returns (ks: seq<string>)
      requires Valid()
      modifies this
      ensures Valid() && initialized && data == old(data)
      ensures forall k :: k in ks <==> k in data
      ensures |ks| == |data|
      ensures forall i, j :: 0 <= i < j < |ks| ==> ks[i] != ks[j]
    {
      Init();
      ks := [];
      var rest := data.Keys;
      while rest != {}
        invariant rest <= data.Keys
        invariant forall k :: k in ks <==> k in data.Keys - rest
        invariant |ks| + |rest| == |data.Keys|
        invariant forall i, j :: 0 <= i < j < |ks| ==> ks[i] != ks[j]
        decreases rest
      {
        var k :| k in rest;
        ks := ks + [k];
        rest := rest - {k};
      }
    }

    method Length() returns (n: nat)
      requires Valid()
      modifies this
      ensures Valid() && initialized && data == old(data)
      ensures n == |data|
    {
      Init();
      n := |data|;
    }
  }

  /** A value written under a key is what `get` answers for it next. */
  method SetThenGet(s: Store, key: string, v: Value) returns (r: Option<Value>)
    requires s.Valid()
    modifies s
    ensures r == Some(v)
  {
    s.Set(key, v);
    r := s.Get(key);
  }

  /** After `remove`, `get` answers null. */
  method RemoveThenGet(s: Store, key: string) returns (r: Option<Value>)
    requires s.Valid()
    modifies s
    ensures r == None
  {
    s.Remove(key);
    r := s.Get(key);
  }

  /** After `clear`, there are no keys and the length is zero; the engine was
      still created at most once. */
  method ClearThenCount(s: Store) returns (ks: seq<string>, n: nat)
    requires s.Valid()
    modifies s
    ensures ks == [] && n == 0
    ensures s.creations <= 1
  {
    s.Clear();
    ks := s.Keys();
    n := s.Length();
  }
}
