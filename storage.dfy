/** The browser's `localStorage`, as an abstract key-value store. JSON text is
    not modelled: a stored value is either the encoding of a cart or of a user,
    or some other text (a session token, or anything `JSON.parse` rejects). */
module Storage {
  import opened Basics
  import opened Types

  datatype Stored = CartJson(items: seq<CartItem>) | UserJson(user: User) | Text(text: string)

  /** `getItem(key)` is truthy: the key is present and its text is not empty. */
  predicate IsPresent(entries: map<string, Stored>, key: string) {
    key in entries && entries[key] != Text("")
  }

  class Store {
    var entries: map<string, Stored>

    constructor (initial: map<string, Stored>)
      ensures entries == initial
    {
      entries := initial;
    }

    predicate Present(key: string)
      reads this
    {
      IsPresent(entries, key)
    }

    method SetItem(key: string, value: Stored)
      modifies this
      ensures entries == old(entries)[key := value]
    {
      entries := entries[key := value];
    }

    method RemoveItem(key: string)
      modifies this
      ensures entries == old(entries) - {key}
    {
      entries := entries - {key};
    }
  }
}
