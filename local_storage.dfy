/**
 * `useLocalStorageState`: a state variable whose initial value is read from
 * the browser's key-value storage and whose every new value (and every new
 * key) is written back as its JSON text.
 *
 * JSON is kept abstract: a `Codec` is a pair of functions, and the hook is
 * used only with codecs that are faithful, that is whose `parse` inverts
 * `serialize` and whose text is never empty (as `JSON.stringify` of an array
 * or object never is).
 */
module LocalStorage {
  import opened Wrappers

  /** The page's `localStorage`. */
  class Storage {
    var items: map<string, string>

    constructor (items: map<string, string>)
      ensures this.items == items
    {
      this.items := items;
    }

    /** `getItem(key)`, which gives null for a missing key. */
    function GetItem(key: string): (r: Option<string>)
      reads this
      ensures r.Some? <==> key in items
      ensures r.Some? ==> r.value == items[key]
    {
      if key in items then Some(items[key]) else None
    }

    /** `setItem(key, value)`. */
    method SetItem(key: string, value: string)
      modifies this
      ensures items == old(items)[key := value]
    {
      items := items[key := value];
    }
  }

  /** `JSON.stringify` and `JSON.parse` for one type of value; `parse` fails where `JSON.parse` throws. */
  datatype Codec<!T> = Codec(serialize: T -> string, parse: string -> Option<T>)

  /** The codec writes `v` as non-empty text and parses that text back to `v`. */
  ghost predicate FaithfulOn<T>(c: Codec<T>, v: T)
  {
    c.serialize(v) != "" && c.parse(c.serialize(v)) == Some(v)
  }

  /** `JSON.parse` threw on the stored text. */
  datatype LoadError = ParseError

  /**
   * The `useState` initialiser `storedValue ? JSON.parse(storedValue) : initialState`:
   * both a missing entry and an empty string (falsy) give `initialState`.
   */
  function InitialValue<T>(stored: Option<string>, initialState: T, c: Codec<T>): (r: Result<T, LoadError>)
    ensures (stored.None? || stored == Some("")) ==> r == Success(initialState)
    ensures stored.Some? && stored.value != "" ==>
      (r.Success? <==> c.parse(stored.value).Some?) &&
      (r.Success? ==> Some(r.value) == c.parse(stored.value))
  {
    match stored
    case None => Success(initialState)
    case Some(text) =>
      if text == "" then Success(initialState)
      else match c.parse(text)
        case None => Failure(ParseError)
        case Some(v) => Success(v)
  }

  /** Reading back what was written under the key gives the written value, whatever the default. */
  lemma InitialValueAfterWrite<T>(items: map<string, string>, key: string, v: T, initialState: T, c: Codec<T>)
    requires FaithfulOn(c, v)
    ensures var written := items[key := c.serialize(v)];
      InitialValue(Some(written[key]), initialState, c) == Success(v)
  {
  }

  /** A hook instance: its key, its value and the storage it mirrors the value into. */
  class LocalStorageState<T(==)> {
    const store: Storage
    const codec: Codec<T>
    var key: string
    var value: T

    /** The stored text under the current key is the serialisation of the current value. */
    ghost predicate Valid()
      reads this, store
    {
      key in store.items && store.items[key] == codec.serialize(value)
    }

    /** Mounting: the initialiser reads storage, then the effect writes the value back. */
    constructor (initialState: T, key: string, store: Storage, codec: Codec<T>)
      requires InitialValue(store.GetItem(key), initialState, codec).Success?
      modifies store
      ensures this.store == store && this.codec == codec && this.key == key
      ensures value == InitialValue(old(store.GetItem(key)), initialState, codec).value
      ensures store.items == old(store.items)[key := codec.serialize(value)]
      ensures Valid()
    {
      this.store := store;
      this.codec := codec;
      this.key := key;
      value := InitialValue(store.GetItem(key), initialState, codec).value;
      new;
      store.SetItem(key, codec.serialize(value));
    }

    /** `setValue(v)`; the write effect runs when the value changed and would write the same text otherwise. */
    method SetValue(v: T)
      requires Valid()
      modifies this`value, store
      ensures Valid()
      ensures value == v && key == old(key)
      ensures store.items == old(store.items)[key := codec.serialize(v)]
    {
      if v != value {
        value := v;
        store.SetItem(key, codec.serialize(value));
      } else {
        assert store.items == store.items[key := codec.serialize(v)];
      }
    }

    /** `setValue(prev => f(prev))`, the form the app's add and delete handlers use. */
    method Update(f: T -> T)
      requires Valid()
      modifies this`value, store
      ensures Valid()
      ensures value == f(old(value)) && key == old(key)
      ensures store.items == old(store.items)[key := codec.serialize(value)]
    {
      SetValue(f(value));
    }

    /** A new `key` argument re-runs the write effect under the new key; the old entry stays. */
    method SetKey(k: string)
      requires Valid()
      modifies this`key, store
      ensures Valid()
      ensures key == k && value == old(value)
      ensures store.items == old(store.items)[k := codec.serialize(value)]
    {
      if k != key {
        key := k;
        store.SetItem(key, codec.serialize(value));
      } else {
        assert store.items == store.items[k := codec.serialize(value)];
      }
    }

    /** A reload that mounts the hook again with the same key starts from the current value. */
    lemma ReloadRestores(initialState: T)
      requires Valid() && FaithfulOn(codec, value)
      ensures InitialValue(store.GetItem(key), initialState, codec) == Success(value)
    {
    }
  }
}
