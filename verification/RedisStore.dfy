/** The part of Redis the service relies on: keys whose entries may carry an expiry time.
    An entry is live strictly before its expiry and reads as absent from then on.
    The clock is an integer number of seconds that the caller passes in. */
module RedisStore {
  import opened Wrappers

  datatype Cell<+V> = Cell(value: V, expiry: Option<int>)

  predicate Live<V>(cell: Cell<V>, now: int) {
    cell.expiry.None? || now < cell.expiry.value
  }

  /** The entry of `key` when it is live, whatever is stored otherwise reads as absent. */
  function LiveCell<K, V>(cells: map<K, Cell<V>>, key: K, now: int): Option<Cell<V>> {
    if key in cells && Live(cells[key], now) then Some(cells[key]) else None
  }

  function Lookup<K, V>(cells: map<K, Cell<V>>, key: K, now: int): Option<V> {
    var cell := LiveCell(cells, key, now);
    if cell.Some? then Some(cell.value.value) else None
  }

  /** SET: the new entry replaces value and expiry together. */
  function Written<K, V>(cells: map<K, Cell<V>>, key: K, value: V, ttl: Option<int>, now: int): map<K, Cell<V>> {
    cells[key := Cell(value, if ttl.Some? then Some(now + ttl.value) else None)]
  }

  /** INCR: a live counter keeps its expiry, an absent one starts at 1 without any. */
  function Incremented<K>(cells: map<K, Cell<int>>, key: K, now: int): map<K, Cell<int>> {
    var cell := LiveCell(cells, key, now);
    cells[key := if cell.Some? then Cell(cell.value.value + 1, cell.value.expiry) else Cell(1, None)]
  }

  /** EXPIRE: does nothing to an absent key. */
  function Expiring<K, V>(cells: map<K, Cell<V>>, key: K, ttl: int, now: int): map<K, Cell<V>> {
    if LiveCell(cells, key, now).Some? then cells[key := cells[key].(expiry := Some(now + ttl))] else cells
  }

  class Store<K(==), V> {
    var cells: map<K, Cell<V>>

    constructor ()
      ensures cells == map[]
    {
      cells := map[];
    }

    method Get(key: K, now: int) returns (value: Option<V>)
      ensures value == Lookup(cells, key, now)
    {
      if key in cells && Live(cells[key], now) {
        value := Some(cells[key].value);
      } else {
        value := None;
      }
    }

    method Set(key: K, value: V, ttl: Option<int>, now: int)
      modifies this
      ensures cells == Written(old(cells), key, value, ttl, now)
    {
      var expiry: Option<int> := None;
      if ttl.Some? {
        expiry := Some(now + ttl.value);
      }
      cells := cells[key := Cell(value, expiry)];
    }

    method Delete(key: K)
      modifies this
      ensures cells == old(cells) - {key}
    {
      cells := cells - {key};
    }

    method Expire(key: K, ttl: int, now: int)
      modifies this
      ensures cells == Expiring(old(cells), key, ttl, now)
    {
      if key in cells && Live(cells[key], now) {
        cells := cells[key := cells[key].(expiry := Some(now + ttl))];
      }
    }
  }

  method Incr<K(==)>(store: Store<K, int>, key: K, now: int) returns (value: int)
    modifies store
    ensures store.cells == Incremented(old(store.cells), key, now)
    ensures value == store.cells[key].value
  {
    if key in store.cells && Live(store.cells[key], now) {
      value := store.cells[key].value + 1;
      store.cells := store.cells[key := Cell(value, store.cells[key].expiry)];
    } else {
      value := 1;
      store.cells := store.cells[key := Cell(1, None)];
    }
  }
}
