/**
 * The browser's `localStorage`, as an abstract map from key to stored value. Values are kept as
 * the slices the widget writes rather than as JSON text.
 */
module Storage {
  import opened Wrappers
  import opened Types

  /**
   * A stored value. `TextValue` is a plain string (the empty string is JavaScript-falsy);
   * `Corrupt` stands for text on which `JSON.parse` throws.
   */
  datatype Entry =
    | SettingsValue(settings: Settings)
    | TasksValue(tasks: seq<Task>)
    | ListsValue(lists: seq<TodoList>)
    | FavoritesValue(favorites: seq<FavoriteChannel>)
    | TextValue(text: string)
    | Corrupt

  /** `if (stored)`: JavaScript truthiness of what `getItem` returned (null when absent). */
  predicate Truthy(e: Option<Entry>) {
    e.Some? && e.value != TextValue("")
  }

  /** `getItem` on the contents `items`: the stored value, or nothing (null) for a missing key. */
  function Lookup(items: map<string, Entry>, key: string): Option<Entry> {
    if key in items then Some(items[key]) else None
  }

  class LocalStorage {
    var items: map<string, Entry>
    /** Keys whose `setItem` throws (for instance because the quota is exceeded). */
    const rejected: set<string>
    /** False when `window` is undefined (server-side rendering). */
    const available: bool

    constructor (initial: map<string, Entry>, rejected: set<string>, available: bool)
      ensures items == initial && this.rejected == rejected && this.available == available
    {
      items := initial;
      this.rejected := rejected;
      this.available := available;
    }

    /** `localStorage.getItem(key)`. */
    function Get(key: string): (e: Option<Entry>)
      reads this
      ensures e.Some? <==> key in items
      ensures e.Some? ==> e.value == items[key]
    {
      Lookup(items, key)
    }

    /** `localStorage.setItem(key, value)`; `ok` is false when the call throws. */
    method SetItem(key: string, value: Entry) returns (ok: bool)
      modifies this
      ensures ok <==> key !in rejected
      ensures items == if ok then old(items)[key := value] else old(items)
    {
      ok := key !in rejected;
      if ok {
        items := items[key := value];
      }
    }
  }
}
