/**
 * The edge's in-memory store (`edgeCache`, a JavaScript `Map`): entries keyed
 * by cache key, remembering the order in which keys were first inserted, which
 * is the order `entries()` lists them in.
 */
module CacheStore {
  import opened Wrappers

  /** One stored response. `cachedAt` and `expiresAt` are clock readings in milliseconds. */
  datatype Entry = Entry(content: string, contentType: string, etag: string, expiresAt: int, cachedAt: int)

  /** `order` holds each key once, in first-insertion order; `entries` holds the values. */
  datatype Store = Store(order: seq<string>, entries: map<string, Entry>)

  /** One line of the stats listing; `size` is the length of the stored body. */
  datatype Row = Row(url: string, size: nat, contentType: string, cachedAt: int, expiresAt: int)

  ghost predicate Distinct(keys: seq<string>) {
    forall i, j :: 0 <= i < j < |keys| ==> keys[i] != keys[j]
  }

  ghost predicate Valid(s: Store) {
    Distinct(s.order) && forall k :: k in s.entries <==> k in s.order
  }

  /** `edgeCache.size`. */
  function Size(s: Store): (n: nat)
    ensures n == 0 <==> s.entries == map[]
  {
    |s.entries|
  }

  /** `edgeCache.get(key)`; `None` plays the part of `undefined`. */
  function Get(s: Store, key: string): (r: Option<Entry>)
    ensures r.Some? <==> key in s.entries
    ensures r.Some? ==> r.value == s.entries[key]
    ensures Valid(s) ==> (r.Some? <==> key in s.order)
  {
    if key in s.entries then Some(s.entries[key]) else None
  }

  /** A new, or just cleared, store. */
  function Empty(): (s: Store)
    ensures Valid(s) && Size(s) == 0
    ensures forall k :: Get(s, k) == None
  {
    Store([], map[])
  }

  /**
   * `edgeCache.set(key, e)`: the key now maps to `e`, no other key changes, an
   * existing key keeps its place in the listing and a new key goes last.
   */
  function Set(s: Store, key: string, e: Entry): (r: Store)
    requires Valid(s)
    ensures Valid(r)
    ensures Get(r, key) == Some(e)
    ensures forall k :: k != key ==> Get(r, k) == Get(s, k)
    ensures key in s.entries ==> r.order == s.order
    ensures key !in s.entries ==> r.order == s.order + [key]
  {
    if key in s.entries then Store(s.order, s.entries[key := e])
    else Store(s.order + [key], s.entries[key := e])
  }

  /** Distinct keys naming exactly the keys of a map are as many as the map's entries. */
  lemma {:induction false} DistinctKeysCount(keys: seq<string>, m: map<string, Entry>)
    requires Distinct(keys)
    requires forall k :: k in m <==> k in keys
    ensures |m| == |keys|
  {
    if keys == [] {
      assert m == map[];
    } else {
      var last := keys[|keys| - 1];
      var init := keys[..|keys| - 1];
      assert Distinct(init) && last !in init by {
        forall i | 0 <= i < |init| ensures init[i] == keys[i] && keys[i] != last {
          assert i < |keys| - 1;
        }
      }
      var rest := m - {last};
      forall k ensures k in rest <==> k in init {
        assert k in keys <==> k in init || k == last;
      }
      DistinctKeysCount(init, rest);
      assert m.Keys == rest.Keys + {last};
    }
  }

  /** The listing order has one key per stored entry. */
  lemma OrderMatchesSize(s: Store)
    requires Valid(s)
    ensures |s.order| == Size(s)
  {
    DistinctKeysCount(s.order, s.entries);
  }

  /** The listing row for a key: its URL, body length, content type and both timestamps. */
  function RowFor(key: string, e: Entry): (row: Row)
    ensures row.url == key && row.size == |e.content|
    ensures row.contentType == e.contentType
    ensures row.cachedAt == e.cachedAt && row.expiresAt == e.expiresAt
  {
    Row(key, |e.content|, e.contentType, e.cachedAt, e.expiresAt)
  }

  /** `keys.map(k => RowFor(k, entries.get(k)))`. */
  function RowsOf(keys: seq<string>, entries: map<string, Entry>): (rows: seq<Row>)
    requires forall k :: k in keys ==> k in entries
    ensures |rows| == |keys|
    ensures forall i :: 0 <= i < |keys| ==> rows[i] == RowFor(keys[i], entries[keys[i]])
  {
    if keys == [] then []
    else [RowFor(keys[0], entries[keys[0]])] + RowsOf(keys[1..], entries)
  }

  /**
   * The stats listing: one row per stored key, in insertion order, each
   * describing that key's entry, no key twice.
   */
  function Rows(s: Store): (rows: seq<Row>)
    requires Valid(s)
    ensures |rows| == Size(s) == |s.order|
    ensures forall i :: 0 <= i < |rows| ==> rows[i] == RowFor(s.order[i], s.entries[s.order[i]])
    ensures forall i :: 0 <= i < |rows| ==>
      rows[i].url in s.entries && rows[i] == RowFor(rows[i].url, s.entries[rows[i].url])
    ensures forall k :: k in s.entries ==> exists i :: 0 <= i < |rows| && rows[i].url == k
    ensures forall i, j :: 0 <= i < j < |rows| ==> rows[i].url != rows[j].url
  {
    OrderMatchesSize(s);
    RowsOf(s.order, s.entries)
  }
}
