/** The persistence hook of src/hooks/useLocalStorage.ts: a state value
    initialised from the browser's key-value storage and written back to it
    on every update. The JSON codec is a pair of parameters. */
module LocalStorage {
  import opened Common

  /** `window.localStorage`. */
  class Storage {
    var items: map<string, string>

    constructor (initial: map<string, string>)
      ensures items == initial
    {
      items := initial;
    }

    /** `getItem(key)`: null when the key is absent. */
    method GetItem(key: string) returns (value: Option<string>)
      ensures value.Some? <==> key in items
      ensures value.Some? ==> value.value == items[key]
    {
      value := if key in items then Some(items[key]) else None;
    }

    /** `setItem(key, value)`. */
    method SetItem(key: string, value: string)
      modifies this
      ensures items == old(items)[key := value]
    {
      items := items[key := value];
    }
  }

  /** What `JSON.parse` makes of a stored string: a value, `null`, or a
      syntax error. */
  datatype Parsed<T> = Value(v: T) | Null | Invalid

  /** The outcome of `getFromLocalStorage`: a value, `null`, or a thrown
      parse error. */
  datatype Read<T> = Found(v: T) | NotFound | Throws

  /** `getFromLocalStorage(key)`: an absent or empty entry reads as null,
      any other entry is parsed. */
  function GetFromLocalStorage<T>(items: map<string, string>, key: string, decode: string -> Parsed<T>): (r: Read<T>)
    ensures key !in items || items[key] == "" ==> r == NotFound
    ensures r.Found? ==> key in items && decode(items[key]) == Value(r.v)
    ensures r.Throws? <==> key in items && items[key] != "" && decode(items[key]).Invalid?
    ensures key in items && items[key] != "" && decode(items[key]).Value? ==> r == Found(decode(items[key]).v)
    ensures key in items && items[key] != "" && decode(items[key]).Null? ==> r == NotFound
  {
    if key in items && items[key] != "" then
      match decode(items[key])
      case Value(v) => Found(v)
      case Null => NotFound
      case Invalid => Throws
    else NotFound
  }

  /** The state initialiser: `item ?? initialValue`, or None when reading
      throws. */
  function InitialValue<T>(items: map<string, string>, key: string, initialValue: T, decode: string -> Parsed<T>): (r: Option<T>)
    ensures r.None? <==> GetFromLocalStorage(items, key, decode).Throws?
    ensures GetFromLocalStorage(items, key, decode).Found? ==> r == Some(GetFromLocalStorage(items, key, decode).v)
    ensures GetFromLocalStorage(items, key, decode).NotFound? ==> r == Some(initialValue)
  {
    match GetFromLocalStorage(items, key, decode)
    case Found(v) => Some(v)
    case NotFound => Some(initialValue)
    case Throws => None
  }

  /** The argument of `setValue`: a value, or a function of the current
      value. */
  datatype Update<!T> = Plain(v: T) | Functional(f: T -> T)

  function Apply<T>(u: Update<T>, current: T): T
  {
    match u
    case Plain(v) => v
    case Functional(f) => f(current)
  }

  class LocalStorageHook<T> {
    const key: string
    const storage: Storage
    const encode: T -> string
    var storedValue: T

    constructor (storage: Storage, key: string, value: T, encode: T -> string)
      ensures this.storage == storage && this.key == key && this.encode == encode && storedValue == value
    {
      this.storage := storage;
      this.key := key;
      this.encode := encode;
      storedValue := value;
    }

    /** `setValue(value)`: the state and the stored entry both take the new
        value; no other entry is written. */
    method SetValue(u: Update<T>)
      modifies this, storage
      ensures storedValue == Apply(u, old(storedValue))
      ensures storage.items == old(storage.items)[key := encode(storedValue)]
      ensures forall k :: k != key ==> (k in storage.items <==> k in old(storage.items))
      ensures forall k :: k != key && k in storage.items ==> storage.items[k] == old(storage.items)[k]
    {
      var valueToStore := Apply(u, storedValue);
      storedValue := valueToStore;
      storage.SetItem(key, encode(valueToStore));
    }
  }

  /** `useLocalStorage(key, initialValue)` on first render: a hook holding
      the initial value, or None when the stored entry fails to parse. */
  method UseLocalStorage<T>(storage: Storage, key: string, initialValue: T, encode: T -> string, decode: string -> Parsed<T>)
    returns (hook: Option<LocalStorageHook<T>>)
    ensures hook.None? <==> InitialValue(storage.items, key, initialValue, decode).None?
    ensures hook.Some? ==> fresh(hook.value) && hook.value.storage == storage && hook.value.key == key
    ensures hook.Some? ==> hook.value.storedValue == InitialValue(storage.items, key, initialValue, decode).value
  {
    var item := storage.GetItem(key);
    if item.Some? && item.value != "" {
      match decode(item.value)
      case Value(v) =>
        var h := new LocalStorageHook(storage, key, v, encode);
        return Some(h);
      case Null =>
      case Invalid =>
        return None;
    }
    var h := new LocalStorageHook(storage, key, initialValue, encode);
    hook := Some(h);
  }

  /** A hook created after `setValue(v)` starts from v, when the codec
      round-trips v to a non-empty string. */
  lemma StoredValueRoundTrip<T>(items: map<string, string>, key: string, v: T, initialValue: T,
                                encode: T -> string, decode: string -> Parsed<T>)
    requires decode(encode(v)) == Value(v) && encode(v) != ""
    ensures InitialValue(items[key := encode(v)], key, initialValue, decode) == Some(v)
  {
  }

  /** Writing one key leaves what a hook on another key reads unchanged. */
  lemma OtherKeysUnaffected<T>(items: map<string, string>, key: string, other: string, s: string,
                               initialValue: T, decode: string -> Parsed<T>)
    requires other != key
    ensures InitialValue(items[key := s], other, initialValue, decode) == InitialValue(items, other, initialValue, decode)
  {
  }
}
