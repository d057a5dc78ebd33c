/** The records the upstream detail endpoint returns, as far as the viewer reads them.
    Every field is optional because the viewer reads parsed JSON whose fields may be absent;
    `{}` (the value the fetcher falls back to on failure) is the record with no field at all. */
module Records {

  datatype Option<T> = None | Some(value: T)

  /** One entry of `stats`: `{stat: {name}, base_stat}`. */
  datatype Stat = Stat(statName: string, baseStat: int)

  /** One entry of `types`: `{type: {name}}`. */
  datatype TypeSlot = TypeSlot(typeName: string)

  /** A detail record: `name`, `order`, `stats`, `types` and `sprites` (sprite key to image URL). */
  datatype Record = Record(
    name: Option<string>,
    order: Option<int>,
    stats: Option<seq<Stat>>,
    types: Option<seq<TypeSlot>>,
    sprites: Option<map<string, string>>)

  /** The empty record `{}`. */
  function EmptyRecord(): Record {
    Record(None, None, None, None, None)
  }

  /** The property name a record is stored under (`pokemonInfoMap[resJson.name]`):
      a missing name is coerced to the string "undefined". */
  function Key(r: Record): string {
    match r.name
    case Some(n) => n
    case None => "undefined"
  }
}
