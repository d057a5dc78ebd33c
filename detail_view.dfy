/** The detail view builder `createPokemonInfo` and its sprite grid `getPokemonSprites`.
    A panel is described by its content rather than by DOM nodes: the placeholder's message,
    or the ordered stat lines, the ordered type names and the sprite grid. */
module DetailView {
  import opened Records
  import opened Numerals
  import opened DetailCache

  const UnableMessage := "Unable to display Pokemon details."

  /** Outer and inner loop of the sprite grid: one column per point of view, one image per effect. */
  const Povs: seq<string> := ["front", "back"]
  const Effects: seq<string> := ["default", "shiny"]

  /** One stat row: the name span `"<name>: "` and the value span holding `base_stat`. */
  datatype StatLine = StatLine(nameText: string, valueText: string)

  /** What `createPokemonInfo` resolves to: the error div, or the full panel.
      `sprites[i][j]` is the source of the image for `Povs[i]` and `Effects[j]`; `None` is a
      missing sprite, which renders as a broken image. */
  datatype Panel =
    | Placeholder(message: string)
    | Details(stats: seq<StatLine>, types: seq<string>, sprites: seq<seq<Option<string>>>)

  /** The guard of `createPokemonInfo`: both `stats` and `types` are present. */
  predicate HasDetails(r: Record) {
    r.stats.Some? && r.types.Some?
  }

  function StatLineOf(s: Stat): StatLine {
    StatLine(s.statName + ": ", IntText(s.baseStat))
  }

  function StatLines(stats: seq<Stat>): seq<StatLine> {
    seq(|stats|, i requires 0 <= i < |stats| => StatLineOf(stats[i]))
  }

  function TypeNames(types: seq<TypeSlot>): seq<string> {
    seq(|types|, i requires 0 <= i < |types| => types[i].typeName)
  }

  function SpriteKey(i: nat, j: nat): string
    requires i < |Povs| && j < |Effects|
  {
    Povs[i] + "_" + Effects[j]
  }

  /** `sprites[key]`: absent keys give no image source. */
  function SpriteSource(sprites: map<string, string>, key: string): Option<string> {
    if key in sprites then Some(sprites[key]) else None
  }

  function SpriteColumn(sprites: map<string, string>, i: nat): seq<Option<string>>
    requires i < |Povs|
  {
    seq(|Effects|, j requires 0 <= j < |Effects| => SpriteSource(sprites, SpriteKey(i, j)))
  }

  function SpriteColumns(sprites: map<string, string>): seq<seq<Option<string>>> {
    seq(|Povs|, i requires 0 <= i < |Povs| => SpriteColumn(sprites, i))
  }

  /** The panel `createPokemonInfo(r)` resolves to, when the sprite lookup for `r`'s name
      returned `spriteSource`; `None` when that record has no `sprites`, where reading
      `pokemonInfo.sprites[...]` throws and the promise rejects. */
  function Detail(r: Record, spriteSource: Record): Option<Panel> {
    if !HasDetails(r) then Some(Placeholder(UnableMessage))
    else if spriteSource.sprites.None? then None
    else Some(Details(StatLines(r.stats.value), TypeNames(r.types.value), SpriteColumns(spriteSource.sprites.value)))
  }

  /** The guard: the placeholder comes out exactly when `stats` or `types` is missing. */
  lemma DetailGuard(r: Record, spriteSource: Record)
    ensures Detail(r, spriteSource) == Some(Placeholder(UnableMessage)) <==> !(r.stats.Some? && r.types.Some?)
  {
  }

  /** The full panel: one stat line per entry of `stats` in input order, each labelled
      `"<name>: "` and showing a numeral that reads back as `base_stat`; the type names in input
      order; and the sprite grid of the looked-up record. */
  lemma DetailContent(r: Record, spriteSource: Record)
    requires r.stats.Some? && r.types.Some? && spriteSource.sprites.Some?
    ensures Detail(r, spriteSource).Some? && Detail(r, spriteSource).value.Details?
    ensures var p := Detail(r, spriteSource).value;
      var stats := r.stats.value;
      var types := r.types.value;
      && |p.stats| == |stats|
      && (forall i :: 0 <= i < |stats| ==>
            p.stats[i].nameText == stats[i].statName + ": "
            && IsNumeral(p.stats[i].valueText) && NumeralValue(p.stats[i].valueText) == stats[i].baseStat)
      && |p.types| == |types|
      && (forall i :: 0 <= i < |types| ==> p.types[i] == types[i].typeName)
      && p.sprites == SpriteColumns(spriteSource.sprites.value)
  {
    var stats := r.stats.value;
    forall i | 0 <= i < |stats|
      ensures NumeralValue(StatLines(stats)[i].valueText) == stats[i].baseStat
    {
      IntTextValue(stats[i].baseStat);
    }
  }

  /** A record with `stats` and `types` whose sprite lookup has no `sprites` makes the builder throw. */
  lemma DetailThrows(r: Record, spriteSource: Record)
    requires HasDetails(r) && spriteSource.sprites.None?
    ensures Detail(r, spriteSource).None?
  {
  }

  /** The grid holds exactly four images, in the order front_default, front_shiny (first
      column), back_default, back_shiny (second column). */
  lemma SpriteColumnsOrder(sprites: map<string, string>)
    ensures SpriteColumns(sprites) ==
      [[SpriteSource(sprites, "front_default"), SpriteSource(sprites, "front_shiny")],
       [SpriteSource(sprites, "back_default"), SpriteSource(sprites, "back_shiny")]]
  {
    assert SpriteKey(0, 0) == "front_default" && SpriteKey(0, 1) == "front_shiny";
    assert SpriteKey(1, 0) == "back_default" && SpriteKey(1, 1) == "back_shiny";
    assert SpriteColumn(sprites, 0) == [SpriteSource(sprites, "front_default"), SpriteSource(sprites, "front_shiny")];
    assert SpriteColumn(sprites, 1) == [SpriteSource(sprites, "back_default"), SpriteSource(sprites, "back_shiny")];
  }

  /** The stats loop of `createPokemonInfo`: one row per entry, in order. */
  method RenderStats(stats: seq<Stat>) returns (lines: seq<StatLine>)
    ensures lines == StatLines(stats)
  {
    lines := [];
    for i := 0 to |stats|
      invariant |lines| == i
      invariant forall k :: 0 <= k < i ==> lines[k] == StatLineOf(stats[k])
    {
      lines := lines + [StatLine(stats[i].statName + ": ", IntText(stats[i].baseStat))];
    }
  }

  /** The types loop of `createPokemonInfo`: one list item per entry, in order. */
  method RenderTypes(types: seq<TypeSlot>) returns (names: seq<string>)
    ensures names == TypeNames(types)
  {
    names := [];
    for i := 0 to |types|
      invariant |names| == i
      invariant forall k :: 0 <= k < i ==> names[k] == types[k].typeName
    {
      names := names + [types[i].typeName];
    }
  }

  /** The two nested loops of `getPokemonSprites` over the points of view and the effects. */
  method BuildSpriteColumns(sprites: map<string, string>) returns (columns: seq<seq<Option<string>>>)
    ensures columns == SpriteColumns(sprites)
  {
    columns := [];
    for i := 0 to |Povs|
      invariant |columns| == i
      invariant forall k :: 0 <= k < i ==> columns[k] == SpriteColumn(sprites, k)
    {
      var column := [];
      for j := 0 to |Effects|
        invariant |column| == j
        invariant forall k :: 0 <= k < j ==> column[k] == SpriteSource(sprites, SpriteKey(i, k))
      {
        var key := Povs[i] + "_" + Effects[j];
        column := column + [if key in sprites then Some(sprites[key]) else None];
      }
      columns := columns + [column];
    }
  }

  /** `getPokemonSprites(name)`: looks the name up through the cache, then builds the grid from
      the record's `sprites`; `None` when that record has none (the read throws). */
  method GetPokemonSprites(cache: Cache, name: string, response: Response)
    returns (columns: Option<seq<seq<Option<string>>>>)
    modifies cache
    ensures var o := Lookup(old(cache.entries), name, response);
      && cache.entries == o.entries
      && columns == (if o.record.sprites.Some? then Some(SpriteColumns(o.record.sprites.value)) else None)
    ensures old(cache.Valid()) ==> cache.Valid()
  {
    var info, _ := cache.Get(name, response);
    if info.sprites.None? {
      return None;
    }
    var grid := BuildSpriteColumns(info.sprites.value);
    columns := Some(grid);
  }

  /** `createPokemonInfo(r)`: the guard, the stats and types loops, then the sprite grid for
      `r`'s name. `spriteResponse` answers the sprite lookup if it misses the cache. */
  method CreatePokemonInfo(cache: Cache, r: Record, spriteResponse: Response) returns (p: Option<Panel>)
    modifies cache
    ensures !HasDetails(r) ==> p == Some(Placeholder(UnableMessage)) && cache.entries == old(cache.entries)
    ensures HasDetails(r) ==>
      var o := Lookup(old(cache.entries), Key(r), spriteResponse);
      cache.entries == o.entries && p == Detail(r, o.record)
    ensures old(cache.Valid()) ==> cache.Valid()
  {
    if r.stats.None? || r.types.None? {
      return Some(Placeholder(UnableMessage));
    }
    var lines := RenderStats(r.stats.value);
    var names := RenderTypes(r.types.value);
    var columns := GetPokemonSprites(cache, Key(r), spriteResponse);
    if columns.None? {
      return None;
    }
    p := Some(Details(lines, names, columns.value));
  }

  /** `searchForPokemonByName(name)`: fetch through the cache, then build. The sprite lookup
      inside the builder is always a hit on the record just returned, so the panel depends
      only on that record and `spriteResponse` is never consulted. `None` means the returned
      promise rejects: the builder's promise is returned without being awaited, so its
      rejection is not caught here but passes to the caller. */
  method SearchForPokemonByName(cache: Cache, name: string, response: Response, spriteResponse: Response)
    returns (p: Option<Panel>)
    requires cache.Valid()
    modifies cache
    ensures cache.Valid()
    ensures var o := Lookup(old(cache.entries), name, response);
      cache.entries == o.entries && p == Detail(o.record, o.record)
  {
    ghost var before := cache.entries;
    var info, _ := cache.Get(name, response);
    if HasDetails(info) {
      ReturnedRecordIsCached(before, name, response, spriteResponse);
    }
    p := CreatePokemonInfo(cache, info, spriteResponse);
  }
}
