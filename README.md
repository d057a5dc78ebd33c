# Pokémon catalog viewer: detail cache and panel state

This project models the logic of `app.js`, a browser page that lists creatures from a public
creature-data web service, shows a detail panel for one of them (stats, types, four sprites)
and searches by name. With the network and the DOM abstracted away, two things are left, and
both are modelled here:

* **The detail cache** (`pokemonInfoMap`, `getPokemon`). This is a page-lifetime map from name
  to detail record. A lookup hits when the query name is a key. A miss asks the upstream
  service. The parsed answer is stored under the name the answer carries, which may differ from
  the query, and is returned. A failure returns the empty record `{}`. The service is an
  oracle: every call that could reach the network gets a `Response` parameter (`Ok(record)` or
  `Failed`), and `Cache.Get` reports whether the network was consulted.
* **The detail builder and the two-panel view.** `createPokemonInfo` has a guard (`stats` and
  `types` must both be present). It turns a record into ordered stat lines, ordered type names
  and a 2×2 sprite grid, which it reads through a second cache lookup. The view is a class with
  the list panel's and the detail panel's display flags and the detail panel's ordered children.
  The back button sits first. The back, search and tile-click handlers are methods.

Files:

* `records.dfy` (module `Records`): the detail record. Every field is optional, as in parsed JSON.
* `numerals.dfy` (module `Numerals`): the decimal text a text node shows for `base_stat`, and its
  round trip.
* `detail_cache.dfy` (module `DetailCache`): the `Lookup` specification function, its
  properties, and the `Cache` class.
* `detail_view.dfy` (module `DetailView`): the guard, the panel content as functions, and the
  loops of `createPokemonInfo` and `getPokemonSprites` as methods proved against those functions.
* `panels.dfy` (module `Panels`): the back-button filter `Backs`, its lemmas, and the `Viewer`
  class with the handlers.

Invariants the model keeps:

* The cache is `Consistent`: every record is stored under its own name. This holds because
  the only write is `pokemonInfoMap[resJson.name] = resJson`.
* A `Viewer` is `Valid` when all of these hold:
  * exactly one panel is visible;
  * the back button heads the detail panel's children, and every later child is a built panel;
  * while the list is visible, the detail panel holds only the back button.

Two expectations one might have of such a page do not hold of this code: a first-write-wins
cache, and an alert when a searched name is unknown. The model follows the code:

* Storing is a plain assignment, not first-write-wins. A query such as `"Bulbasaur"` misses the
  canonical key `"bulbasaur"`, fetches again, and its answer replaces the cached record
  (`CaseVariantQueryOverwrites`, `RepeatedLookup`). So "a second call for the same name makes no
  network call" holds only when the first call hit, or stored its answer under that very name.
* `createPokemonInfo` never resolves to a falsy value: it resolves to an element or rejects. For a name the service does not know,
  `getPokemon` returns `{}`, the guard fails, and the search handler appends the "Unable to
  display Pokemon details." div and switches panels. It does not alert "Pokemon not found!"
  (`UnknownNameShowsPlaceholder`). No search ever raises that alert. When building rejects
  (the record has `stats` and `types` but no `sprites`), `searchForPokemonByName` returns the
  rejected promise without awaiting it, so the rejection escapes its `catch`. The search
  handler's own `catch` then alerts "Something went wrong while searching for the Pokémon!"
  (`SpritelessSearchRejects`).
* A tile click does not clear the detail panel. Clicked from the list it still ends with at most
  one built panel, because the list is visible only while the detail panel holds just the back
  button.
* For bodies that are objects, `getPokemon` never returns a falsy value, so the error-tile branch of the list loop cannot be
  reached.

## Model

| member | source | states |
|---|---|---|
| `DetailCache.Lookup` | app.js:31-53 | The network is consulted exactly when the name is not a key. No key is evicted. No key changes except the returned record's own one. A consistent cache stays consistent. |
| `DetailCache.LookupHit` | app.js:34-35 | On a hit the cached record is returned, nothing is fetched and the cache is unchanged. |
| `DetailCache.LookupMissStores` | app.js:37-47 | A miss answered by the service stores the body under the body's own name, even over an existing entry, leaves every other key alone and returns the body. |
| `DetailCache.LookupMissFails` | app.js:40-52 | A miss that fails returns the empty record and leaves the cache unchanged. |
| `DetailCache.ReturnedRecordIsCached` | app.js:34-47 | Any record returned by a hit or a successful miss is then cached under its own name, so looking that name up again is a hit without fetch. |
| `DetailCache.RepeatedLookup` | app.js:34-47 | A second lookup of the same name fetches again exactly when the first one failed or stored its answer under a different name. Otherwise it returns the same record and changes nothing. |
| `DetailCache.CaseVariantQueryOverwrites` | app.js:46 | A case-variant query replaces the record already held under the canonical name. |
| `DetailCache.Cache.constructor` | app.js:20 | The cache starts empty and consistent. |
| `DetailCache.Cache.Get` | app.js:31-53 | `getPokemon`: the returned record, the new map and the fetch flag are those of `Lookup`. Consistency is preserved. |
| `Numerals.NatText` | app.js:104 | Decimal digits: at least one digit, and a leading zero only for zero. |
| `Numerals.IntText` | app.js:104 | The text of `base_stat` is a numeral, with a minus sign exactly for negatives. |
| `Numerals.NatTextValue` | app.js:104 | Reading the digits of `n` back gives `n`. |
| `Numerals.IntTextValue` | app.js:104 | Reading the text of an integer back gives the integer. |
| `Numerals.IntTextInjective` | app.js:104 | Different values show different texts. |
| `DetailView.DetailGuard` | app.js:80-87 | The placeholder "Unable to display Pokemon details." comes out exactly when `stats` or `types` is missing. |
| `DetailView.DetailContent` | app.js:95-123 | With the guard passed and sprites found: one stat line per entry of `stats`, in input order, each `"<name>: "` with a numeral that reads back as `base_stat`. The type names are in input order. The grid comes from the looked-up record. |
| `DetailView.DetailThrows` | app.js:69 | With the guard passed but no `sprites` in the looked-up record, building throws (no panel). |
| `DetailView.SpriteColumnsOrder` | app.js:62-75 | Exactly four images: column one is front_default and front_shiny, column two is back_default and back_shiny. A missing key gives no source. |
| `DetailView.RenderStats` | app.js:95-108 | The stats loop yields `StatLines(stats)`. |
| `DetailView.RenderTypes` | app.js:118-123 | The types loop yields the type names in order. |
| `DetailView.BuildSpriteColumns` | app.js:62-75 | The nested point-of-view and effect loops yield `SpriteColumns(sprites)`. |
| `DetailView.GetPokemonSprites` | app.js:55-77 | The cache changes as `Lookup` says. The grid is that of the looked-up record's sprites, or none when it has no sprites. |
| `DetailView.CreatePokemonInfo` | app.js:79-133 | Guard failure gives the placeholder and no lookup. Otherwise the panel is `Detail(r, s)`, where `s` is the record the cache lookup of `r`'s name returns. |
| `DetailView.SearchForPokemonByName` | app.js:22-29 | The cache changes only by the lookup of the query, and the panel is built from the record returned (the sprite lookup is always a hit). |
| `Panels.BackButtonRetained` | app.js:164-170 | Clearing keeps only back buttons, and keeps the back button whenever there was one. |
| `Panels.BacksIdempotent` | app.js:239-243 | Clearing an already cleared panel changes nothing. |
| `Panels.BacksOfBackFirst` | app.js:173-174 | A child list headed by the back button, followed by built panels, clears to the back button alone. |
| `Panels.Viewer.constructor` | app.js:152-174 | The list is shown, the detail panel is hidden and holds only the back button. |
| `Panels.Viewer.RemoveDetails` | app.js:164-170 | Removing non-back children over a snapshot leaves `Backs` of the old list. The flags are unchanged. |
| `Panels.Viewer.OnBack` | app.js:161-171 | The list is shown, the detail panel is hidden, and the children are the old ones filtered to the back button. |
| `Panels.Viewer.OnSearch` | app.js:235-264 | Empty input: only the "Input is empty!" alert; flags, children and cache unchanged. Otherwise the cache changes by the lookup of the query and the detail panel is cleared. The built panel is then appended and shown; or, if building rejected, "Something went wrong while searching for the Pokémon!" is alerted with the cleared panel and the flags unchanged. "Pokemon not found!" is never alerted. |
| `Panels.SpritelessSearchRejects` | app.js:244-258 | A searched record with `stats` and `types` but no `sprites` is fetched and stored, and building it rejects, which sends the search to the handler's `catch`. |
| `Panels.Viewer.OnTileClick` | app.js:221-227 | The detail panel is shown. The built panel is appended without clearing, or nothing is appended if building threw. Clicked from the list, at most one built panel results. |
| `Panels.UnknownNameShowsPlaceholder` | app.js:244-253 | A search for a name the service fails on builds the placeholder panel, so no alert is raised. |
| `Panels.SingleStatPanel` | app.js:95-123 | A record with stat hp 45, type grass and one front sprite shows "hp: " with "45", the type "grass" and one image source. |

## Left out

- `fetch`, `res.json()` and the upstream JSON: each call that may reach the network takes a `Response` parameter instead. The body is always an object. A `null` body makes reading `resJson.name` throw, and counts as `Failed`. A body that is another non-object is also treated as `Failed`; the source would store it under "undefined" and return it, and a falsy one would reach the error tile of the list loop.
- `getAllPokemons`, the `DOMContentLoaded` bootstrap and the construction of the list tiles are network I/O and DOM plumbing. They are not modelled, except that a tile's click handler takes the record the tile was built with.
- `async`/`await`: each handler is one sequential step, so interleaved double clicks are not modelled.
- Styling, class names other than `goBackButton`, the "types: " caption, `console.*` logging and `window.alert` are left out. An alert is modelled as the message the search handler returns.
- The `catch` of `searchForPokemonByName` and the "Pokemon not found!" branch of the search handler cannot be reached. The `catch` guards only `await getPokemon(name)`, which never rejects. The branch needs a falsy result, and the builder either resolves to an element or rejects. Both appear only as the statement that the alert is never raised.
- Reading `pokemonInfo.sprites[...]` of a record without `sprites` is modelled as building throwing (`None`), not as a precondition. On a tile click the panels have already switched by then, so the model switches them and appends nothing.
- The cache is a map. Property names inherited through the JavaScript object prototype (such as `"toString"`, which would look like a hit) are not modelled.
- `base_stat` is an integer. Non-integral JSON numbers and the sprite URL values `null` are not modelled. A missing sprite and a `null` one both yield no image source.
- `Numerals.IntText`: agrees with JavaScript's number-to-string conversion only for integers of magnitude below 1e21. From 1e21 up, JavaScript prints exponent form (`"1e+21"`). Above 2^53, `res.json()` has already rounded the value before it is shown. Non-integral numbers are not modelled.
