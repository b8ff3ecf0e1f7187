/**
 * The browser's per-origin key-value store (`localStorage`) as the site uses it. Values are
 * held in parsed form: the two shapes the site writes, or text that `JSON.parse` rejects.
 */
module BrowserStorage {

  /** A JavaScript value as `JSON.parse` yields it, plus `undefined` (a property that is absent). */
  datatype Json =
    | Undefined
    | Null
    | Bool(b: bool)
    | Num(n: int)
    | Str(s: string)
    | Arr(elems: seq<Json>)
    | Obj(fields: map<string, Json>)

  /** JavaScript truthiness: `undefined`, `null`, `false`, `0` and `""` are falsy. */
  predicate Truthy(v: Json) {
    match v
    case Undefined => false
    case Null => false
    case Bool(b) => b
    case Num(n) => n != 0
    case Str(s) => s != ""
    case Arr(_) => true
    case Obj(_) => true
  }

  /** Per-question flags of the DSA tracker. */
  datatype ProgressRecord = ProgressRecord(completed: bool, starred: bool)

  /** What a stored string parses to. */
  datatype Item =
    | CacheEntry(data: Json, timestamp: int, expires: int)  // `{data, timestamp, expires}` of the content cache
    | ProgressEntry(records: map<int, ProgressRecord>)       // the DSA tracker's whole progress map
    | Garbled(text: string)                                  // text that `JSON.parse` rejects

  /** `localStorage.getItem(key)` is truthy: the key is present and its text is not empty. */
  predicate Holds(items: map<string, Item>, key: string) {
    key in items && items[key] != Garbled("")
  }

  class Storage {
    var items: map<string, Item>

    constructor()
      ensures items == map[]
    {
      items := map[];
    }

    /** `setItem`; `fits` is whether the write stays within the quota (`setItem` throws when not). */
    method SetItem(key: string, item: Item, fits: bool) returns (ok: bool)
      modifies this
      ensures ok == fits
      ensures items == if fits then old(items)[key := item] else old(items)
    {
      ok := fits;
      if fits {
        items := items[key := item];
      }
    }

    method RemoveItem(key: string)
      modifies this
      ensures items == old(items) - {key}
    {
      items := items - {key};
    }
  }
}
