/** The key-value cache the services write through: a map from string keys to a
    cached value and the TTL it was written with. Expiry is not modelled; the TTL
    is kept as data. */
module KeyValue {
  import opened Common
  import opened Books
  import opened SearchDto

  /** What the services keep in the cache: one book, a list of books, or a page of
      search results. */
  datatype CachedValue =
    | BookValue(book: Book)
    | BookList(books: seq<Book>)
    | SearchValue(response: SearchResponse<Book>)

  datatype Entry = Entry(value: CachedValue, ttl: nat)

  /** The cache as a mutable store: `get`, `set` with a TTL, and `del`. */
  class KeyValueStore {
    var entries: map<string, Entry>

    constructor ()
      ensures entries == map[]
    {
      entries := map[];
    }

    /** `get(key)`: the cached value, or null when the key is absent. */
    function Get(key: string): (r: Option<CachedValue>)
      reads this
      ensures r.Some? <==> key in entries
      ensures r.Some? ==> entries[key].value == r.value
    {
      if key in entries then Some(entries[key].value) else None
    }

    /** `set(key, value, ttl)` */
    method Set(key: string, value: CachedValue, ttl: nat)
      modifies this
      ensures entries == old(entries)[key := Entry(value, ttl)]
    {
      entries := entries[key := Entry(value, ttl)];
    }

    /** `del(key)` */
    method Del(key: string)
      modifies this
      ensures entries == old(entries) - {key}
    {
      entries := entries - {key};
    }
  }
}
