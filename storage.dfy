/** Browser-storage state of `utils/index.ts`: the durable key-value store, the hook that mirrors
    one key of it in a state cell, and the single-endpoint case of endpoint selection. */
module Storage {
  import opened Shared

  /** `localStorage`: string values under string keys. */
  class KeyValueStore {
    var items: map<string, string>

    constructor (items: map<string, string>)
      ensures this.items == items
    {
      this.items := items;
    }

    /** `getItem(key)`: the stored string, or `null`. */
    function GetItem(key: string): Option<string>
      reads this
    {
      if key in items then Some(items[key]) else None
    }

    method SetItem(key: string, value: string)
      modifies this
      ensures items == old(items)[key := value]
    {
      items := items[key := value];
    }

    method RemoveItem(key: string)
      modifies this
      ensures items == old(items) - {key}
    {
      items := items - {key};
    }
  }

  /** A state value: `undefined`, `null`, or a JSON value of type `T`. */
  datatype JsValue<T> = Undefined | Null | Value(v: T)

  /** `JSON.stringify` and `JSON.parse`; `parse` gives `None` where it throws. */
  datatype Serializer<!T> = Serializer(stringify: T -> string, parse: string -> Option<JsValue<T>>)

  /** What the hook relies on of the serialiser pair: parsing a serialised value gives it back,
      and a serialised value is never the empty string. */
  ghost predicate RoundTrips<T(!new)>(ser: Serializer<T>)
  {
    forall t :: ser.parse(ser.stringify(t)) == Some(Value(t)) && ser.stringify(t) != ""
  }

  /** The hook's initialiser: a non-empty stored string is parsed (a parse error throws),
      anything else gives the default. */
  function InitialState<T>(stored: Option<string>, default: JsValue<T>, ser: Serializer<T>): (r: Result<JsValue<T>, string>)
    ensures !Truthy(stored) ==> r == Ok(default)
    ensures Truthy(stored) ==> (r.Ok? <==> ser.parse(stored.value).Some?)
    ensures Truthy(stored) && r.Ok? ==> Some(r.value) == ser.parse(stored.value)
  {
    if Truthy(stored) then
      match ser.parse(stored.value)
      case Some(v) => Ok(v)
      case None => Err("SyntaxError: stored value is not JSON")
    else Ok(default)
  }

  /** The store's contents after the setter writes `v` under `key`: `null` removes the key,
      `undefined` is stored as the text `undefined` (`setItem` converts its argument to a string),
      a value is stored serialised. No other key changes. */
  function StoredAfter<T>(items: map<string, string>, key: string, v: JsValue<T>, ser: Serializer<T>): (r: map<string, string>)
    ensures key in r <==> !v.Null?
    ensures v.Undefined? ==> r[key] == "undefined"
    ensures v.Value? ==> r[key] == ser.stringify(v.v)
    ensures forall k :: k != key ==> (k in r <==> k in items)
    ensures forall k :: k in r && k != key ==> r[k] == items[k]
  {
    match v
    case Null => items - {key}
    case Undefined => items[key := "undefined"]
    case Value(t) => items[key := ser.stringify(t)]
  }

  /** Reading back after a write: a non-null, defined value written by the setter is what a fresh
      initialiser on the same key produces, whatever the default. */
  lemma ReloadAfterSet<T(!new)>(items: map<string, string>, key: string, t: T, default: JsValue<T>, ser: Serializer<T>)
    requires RoundTrips(ser)
    ensures InitialState(Some(StoredAfter(items, key, Value(t), ser)[key]), default, ser) == Ok(Value(t))
  {
    assert ser.parse(ser.stringify(t)) == Some(Value(t)) && ser.stringify(t) != "";
  }

  /** After `null` is written, a fresh initialiser falls back to the default. */
  lemma ReloadAfterClear<T>(items: map<string, string>, key: string, default: JsValue<T>, ser: Serializer<T>)
    ensures var after := StoredAfter(items, key, Null, ser);
      InitialState(if key in after then Some(after[key]) else None, default, ser) == Ok(default)
  {
  }

  /** The state cell of `useLocalStorageState` together with the store it mirrors. */
  class LocalStorageState<T(==)> {
    const key: string
    const store: KeyValueStore
    var state: JsValue<T>

    constructor (key: string, store: KeyValueStore, initial: JsValue<T>)
      ensures this.key == key && this.store == store && state == initial
    {
      this.key := key;
      this.store := store;
      this.state := initial;
    }

    /** The setter. A value equal to the current state changes nothing; otherwise the state
        becomes the value and the store is written as `StoredAfter` says. */
    method SetState(newState: JsValue<T>, ser: Serializer<T>)
      modifies this, store
      ensures newState == old(state) ==> state == old(state) && store.items == old(store.items)
      ensures newState != old(state) ==> state == newState && store.items == StoredAfter(old(store.items), key, newState, ser)
    {
      if state == newState {
        return;
      }
      state := newState;
      match newState {
        case Null => store.RemoveItem(key);
        case Undefined => store.SetItem(key, "undefined");
        case Value(t) => store.SetItem(key, ser.stringify(t));
      }
    }
  }

  /** The hook's first render: the state cell is initialised from the store, which is not
      written. A stored string that does not parse makes the render throw. */
  method UseLocalStorageState<T(==)>(key: string, default: JsValue<T>, store: KeyValueStore, ser: Serializer<T>)
    returns (r: Result<LocalStorageState<T>, string>)
    ensures var init := InitialState(store.GetItem(key), default, ser);
      (r.Ok? <==> init.Ok?) &&
      (r.Ok? ==> fresh(r.value) && r.value.key == key && r.value.store == store && r.value.state == init.value)
    ensures r.Err? ==> r.error == InitialState(store.GetItem(key), default, ser).error
  {
    var init := InitialState(store.GetItem(key), default, ser);
    match init {
      case Ok(v) =>
        var s := new LocalStorageState(key, store, v);
        r := Ok(s);
      case Err(e) =>
        r := Err(e);
    }
  }

  /** The endpoint `getFastestEndpoint` settles on without a network race. */
  datatype EndpointChoice = Immediate(endpoint: Option<string>) | Race(candidates: seq<string>)

  /** `getFastestEndpoint`: a single endpoint, or no `Promise.any`, gives the first endpoint at
      once (`undefined` for an empty list); otherwise every endpoint is raced. */
  function FastestEndpoint(endpoints: seq<string>, hasPromiseAny: bool): (r: EndpointChoice)
    ensures |endpoints| == 1 ==> r == Immediate(Some(endpoints[0]))
    ensures r.Immediate? <==> |endpoints| == 1 || !hasPromiseAny
    ensures r.Immediate? ==> (r.endpoint.Some? <==> endpoints != []) && (endpoints != [] ==> r.endpoint.value == endpoints[0])
    ensures r.Race? ==> r.candidates == endpoints
  {
    if |endpoints| == 1 || !hasPromiseAny then
      Immediate(if endpoints != [] then Some(endpoints[0]) else None)
    else Race(endpoints)
  }
}
