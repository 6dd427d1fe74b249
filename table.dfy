/** One `TreeMap<UUID, E>` of the registry, as a Dafny map, with the three
    operations the registry applies to it: `get`, `put` and `remove`. */
module Table {
  import opened Entities

  /** `TreeMap.get`: the entry under `id`, or null. */
  function Get<E>(m: map<Uuid, E>, id: Uuid): (r: Option<E>)
    ensures r.Some? <==> id in m
    ensures r.Some? ==> r.value == m[id]
  {
    if id in m then Some(m[id]) else None
  }

  /** `m'` answers every lookup but the one for `id` exactly as `m` does. */
  ghost predicate SameElsewhere<E>(m: map<Uuid, E>, m': map<Uuid, E>, id: Uuid) {
    forall k :: k != id ==> Get(m', k) == Get(m, k)
  }

  /** `TreeMap.put`: afterwards `id` finds `e`, whatever it found before, and
      every other key finds what it found before. */
  function Put<E>(m: map<Uuid, E>, id: Uuid, e: E): (r: map<Uuid, E>)
    ensures Get(r, id) == Some(e)
    ensures SameElsewhere(m, r, id)
    ensures r.Keys == m.Keys + {id}
  {
    m[id := e]
  }

  /** `TreeMap.remove`: afterwards `id` finds nothing and every other key finds
      what it found before; removing an absent key changes nothing. */
  function Delete<E>(m: map<Uuid, E>, id: Uuid): (r: map<Uuid, E>)
    ensures Get(r, id) == None
    ensures SameElsewhere(m, r, id)
    ensures r.Keys == m.Keys - {id}
    ensures id !in m ==> r == m
  {
    m - {id}
  }

  /** A table is determined by its lookups: two tables that answer every
      `get` alike are the same table. */
  lemma {:induction false} LookupsDetermineTable<E>(m: map<Uuid, E>, m': map<Uuid, E>)
    requires forall k :: Get(m, k) == Get(m', k)
    ensures m == m'
  {
    forall k | k in m ensures k in m' && m[k] == m'[k] {
      assert Get(m, k) == Get(m', k);
    }
    forall k | k in m' ensures k in m {
      assert Get(m, k) == Get(m', k);
    }
  }

  /** Removing a key that a `put` just added gives back the table as it was. */
  lemma {:induction false} DeleteUndoesPut<E>(m: map<Uuid, E>, id: Uuid, e: E)
    requires id !in m
    ensures Delete(Put(m, id, e), id) == m
  {
    var r := Delete(Put(m, id, e), id);
    forall k ensures Get(r, k) == Get(m, k) {
      if k != id {
        assert Get(r, k) == Get(Put(m, id, e), k);
      }
    }
    LookupsDetermineTable(r, m);
  }

  /** A second `put` under the same key overwrites the first one completely. */
  lemma {:induction false} PutOverwrites<E>(m: map<Uuid, E>, id: Uuid, a: E, b: E)
    ensures Put(Put(m, id, a), id, b) == Put(m, id, b)
  {
    var r := Put(Put(m, id, a), id, b);
    forall k ensures Get(r, k) == Get(Put(m, id, b), k) {
      if k != id {
        assert Get(r, k) == Get(Put(m, id, a), k);
      }
    }
    LookupsDetermineTable(r, Put(m, id, b));
  }
}
