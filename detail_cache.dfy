/** The page-lifetime detail cache (`pokemonInfoMap`) and the memoising fetch `getPokemon`.
    The upstream detail endpoint is an oracle: each call that would reach the network is given
    the `Response` the service produced for it. */
module DetailCache {
  import opened Records

  /** What the detail request for one name produced: a parsed body, or a failure of any kind
      (non-ok status, network error, unparsable body). */
  datatype Response = Ok(body: Record) | Failed

  /** The result of one lookup: the record returned, the cache afterwards, and whether the
      network was consulted. */
  datatype Outcome = Outcome(record: Record, entries: map<string, Record>, fetched: bool)

  /** Every entry is stored under the name its own record carries. The only write is
      `pokemonInfoMap[resJson.name] = resJson`, so every cache the page can reach has this shape. */
  predicate Consistent(m: map<string, Record>) {
    forall k :: k in m ==> Key(m[k]) == k
  }

  /** `getPokemon(name)` as a function of the cache and of the service's answer. */
  function Lookup(m: map<string, Record>, name: string, response: Response): (o: Outcome)
    // the network is consulted exactly when the query name is not a key of the cache
    ensures o.fetched <==> name !in m
    // nothing is ever evicted, and no key but the returned record's own one changes
    ensures m.Keys <= o.entries.Keys
    ensures o.entries.Keys <= m.Keys + {Key(o.record)}
    ensures forall k :: k in m && k != Key(o.record) ==> o.entries[k] == m[k]
    // a consistent cache stays consistent
    ensures Consistent(m) ==> Consistent(o.entries)
  {
    if name in m then
      Outcome(m[name], m, false)
    else
      match response
      case Ok(body) => Outcome(body, m[Key(body) := body], true)
      case Failed => Outcome(EmptyRecord(), m, true)
  }

  /** Hit: the cached record comes back, with no fetch and no change to the cache. */
  lemma LookupHit(m: map<string, Record>, name: string, response: Response)
    requires name in m
    ensures Lookup(m, name, response) == Outcome(m[name], m, false)
  {
  }

  /** Miss answered by the service: the parsed body is stored under the name the body carries
      (not under the query name), overwriting whatever was there, and is returned. */
  lemma LookupMissStores(m: map<string, Record>, name: string, body: Record)
    requires name !in m
    ensures var o := Lookup(m, name, Ok(body));
      && o.fetched && o.record == body
      && o.entries.Keys == m.Keys + {Key(body)}
      && o.entries[Key(body)] == body
      && forall k :: k in m && k != Key(body) ==> o.entries[k] == m[k]
  {
  }

  /** Miss that fails: the empty record comes back and the cache is unchanged. */
  lemma LookupMissFails(m: map<string, Record>, name: string)
    requires name !in m
    ensures Lookup(m, name, Failed) == Outcome(EmptyRecord(), m, true)
  {
  }

  /** Whatever a lookup returns other than a failure's fallback is afterwards cached under its
      own key, so looking that key up again is a hit on the same record: this is why the sprite
      lookup inside the detail builder never reaches the network on the search path. */
  lemma ReturnedRecordIsCached(m: map<string, Record>, name: string, response: Response, later: Response)
    requires Consistent(m)
    requires name in m || response.Ok?
    ensures var o := Lookup(m, name, response);
      Lookup(o.entries, Key(o.record), later) == Outcome(o.record, o.entries, false)
  {
  }

  /** Asking twice for the same name reaches the network a second time exactly when the first
      call neither hit nor stored its answer under that very name: a failure, or an answer whose
      canonical name differs from the query (asking for "Bulbasaur" stores "bulbasaur"). */
  lemma RepeatedLookup(m: map<string, Record>, name: string, first: Response, second: Response)
    ensures var o1 := Lookup(m, name, first);
      var o2 := Lookup(o1.entries, name, second);
      && (o2.fetched <==> (name !in m && (first.Failed? || Key(first.body) != name)))
      && (!o2.fetched ==> o2.record == o1.record && o2.entries == o1.entries)
  {
  }

  /** Storing is a plain assignment, not first-write-wins: a query that differs from the
      canonical name misses, and its answer replaces the record already held under that name. */
  lemma CaseVariantQueryOverwrites()
    ensures var held := Record(Some("bulbasaur"), Some(1), None, None, None);
      var answer := Record(Some("bulbasaur"), Some(2), None, None, None);
      var o := Lookup(map["bulbasaur" := held], "Bulbasaur", Ok(answer));
      o.fetched && o.entries == map["bulbasaur" := answer] && o.entries["bulbasaur"] != held
  {
  }

  /** The cache object: a mutable map from name to detail record that lives as long as the page. */
  class Cache {
    var entries: map<string, Record>

    ghost predicate Valid()
      reads this
    {
      Consistent(entries)
    }

    /** `const pokemonInfoMap = {}` */
    constructor ()
      ensures entries == map[] && Valid()
    {
      entries := map[];
    }

    /** `getPokemon(name)`: `response` is what the detail endpoint answers if it is asked. */
    method Get(name: string, response: Response) returns (r: Record, fetched: bool)
      modifies this
      ensures var o := Lookup(old(entries), name, response);
        r == o.record && fetched == o.fetched && entries == o.entries
      ensures old(Valid()) ==> Valid()
    {
      if name in entries {
        r, fetched := entries[name], false;
        return;
      }
      fetched := true;
      match response
      case Failed =>
        r := EmptyRecord();
      case Ok(body) =>
        r := body;
        entries := entries[Key(body) := body];
    }
  }
}
