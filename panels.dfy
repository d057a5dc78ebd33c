/** The two-panel view of `showPokemons`: the list panel (`mainMenu`), the detail panel
    (`pokemonMenu`) with its ordered children, and the back, search and tile-click handlers.
    Each handler runs as one sequential step. */
module Panels {
  import opened Records
  import opened DetailCache
  import opened DetailView

  const InputEmptyAlert := "Input is empty!"
  const SearchFailedAlert := "Something went wrong while searching for the Pokémon!"
  /** The alert of the handler's `else` branch after a falsy result, which no search reaches. */
  const NotFoundAlert := "Pokemon not found!"

  /** A child of the detail panel: the back button (class `goBackButton`) or a built panel. */
  datatype Child = BackButton | Shown(panel: Panel)

  /** The children that carry the `goBackButton` class, in order. */
  function Backs(s: seq<Child>): seq<Child>
    decreases |s|
  {
    if s == [] then [] else Backs(s[..|s| - 1]) + (if s[|s| - 1].BackButton? then [s[|s| - 1]] else [])
  }

  lemma BacksStep(s: seq<Child>, i: nat)
    requires i < |s|
    ensures Backs(s[..i + 1]) == Backs(s[..i]) + (if s[i].BackButton? then [s[i]] else [])
  {
    assert s[..i + 1][..i] == s[..i];
  }

  /** Removing the child at the front of the unvisited part of the list. */
  lemma RemovalStep(kept: seq<Child>, rest: seq<Child>)
    requires |rest| > 0
    ensures (kept + rest)[..|kept|] + (kept + rest)[|kept| + 1..] == kept + rest[1..]
    ensures kept + rest == (kept + [rest[0]]) + rest[1..]
  {
    assert (kept + rest)[..|kept|] == kept;
    assert (kept + rest)[|kept| + 1..] == rest[1..];
  }

  lemma {:induction false} BacksAppend(s: seq<Child>, t: seq<Child>)
    ensures Backs(s + t) == Backs(s) + Backs(t)
    decreases |t|
  {
    if t == [] {
      assert s + t == s;
    } else {
      var u := t[..|t| - 1];
      assert (s + t)[..|s + t| - 1] == s + u;
      BacksAppend(s, u);
    }
  }

  /** Clearing keeps the back buttons and nothing else: every child kept is a back button, and
      a back button present before is present after. */
  lemma {:induction false} BackButtonRetained(s: seq<Child>)
    ensures forall c :: c in Backs(s) ==> c == BackButton
    ensures BackButton in s <==> BackButton in Backs(s)
    decreases |s|
  {
    if s != [] {
      var u := s[..|s| - 1];
      BackButtonRetained(u);
      assert s == u + [s[|s| - 1]];
      assert BackButton in s <==> BackButton in u || s[|s| - 1] == BackButton;
    }
  }

  /** A list already holding only back buttons is left as it is, so clearing twice clears once. */
  lemma {:induction false} BacksIdempotent(s: seq<Child>)
    ensures Backs(Backs(s)) == Backs(s)
    decreases |s|
  {
    if s != [] {
      var u := s[..|s| - 1];
      BacksIdempotent(u);
      BacksAppend(Backs(u), if s[|s| - 1].BackButton? then [s[|s| - 1]] else []);
      var last := if s[|s| - 1].BackButton? then [s[|s| - 1]] else [];
      assert Backs(last) == last by {
        if last != [] {
          assert last[..0] == [];
        }
      }
    }
  }

  /** The shape every reachable child list has: the back button first, then built panels only. */
  predicate BackFirst(s: seq<Child>) {
    |s| >= 1 && s[0] == BackButton && forall i :: 1 <= i < |s| ==> s[i].Shown?
  }

  /** Clearing a list of that shape leaves the back button alone. */
  lemma {:induction false} BacksOfBackFirst(s: seq<Child>)
    requires BackFirst(s)
    ensures Backs(s) == [BackButton]
    decreases |s|
  {
    if |s| > 1 {
      var u := s[..|s| - 1];
      assert BackFirst(u);
      BacksOfBackFirst(u);
    } else {
      assert s[..0] == [];
    }
  }

  /** The page: the cache, the list panel's and the detail panel's display flags, and the
      detail panel's children. */
  class Viewer {
    const cache: Cache
    var mainVisible: bool
    var detailVisible: bool
    var children: seq<Child>

    /** Exactly one panel is shown; the back button heads the detail panel's children; while
        the list is shown the detail panel holds nothing else. */
    ghost predicate Valid()
      reads this, cache
    {
      && cache.Valid()
      && mainVisible == !detailVisible
      && BackFirst(children)
      && (mainVisible ==> children == [BackButton])
    }

    /** The set-up of `showPokemons`: the detail panel starts hidden, holding the back button. */
    constructor (cache: Cache)
      requires cache.Valid()
      ensures Valid() && this.cache == cache
      ensures mainVisible && !detailVisible && children == [BackButton]
    {
      this.cache := cache;
      mainVisible := true;
      detailVisible := false;
      children := [BackButton];
    }

    /** Removes, over a snapshot of the children, every child that is not the back button. */
    method RemoveDetails()
      modifies this
      ensures children == Backs(old(children))
      ensures mainVisible == old(mainVisible) && detailVisible == old(detailVisible)
    {
      var snapshot := children;
      var pos := 0;
      ghost var kept: seq<Child> := [];
      for i := 0 to |snapshot|
        invariant kept == Backs(snapshot[..i])
        invariant pos == |kept|
        invariant children == kept + snapshot[i..]
        invariant mainVisible == old(mainVisible) && detailVisible == old(detailVisible)
      {
        BacksStep(snapshot, i);
        RemovalStep(kept, snapshot[i..]);
        if !snapshot[i].BackButton? {
          children := children[..pos] + children[pos + 1..];
        } else {
          pos := pos + 1;
          kept := kept + [snapshot[i]];
        }
      }
      assert snapshot[..|snapshot|] == snapshot;
    }

    /** The back button's click handler. */
    method OnBack()
      requires Valid()
      modifies this
      ensures Valid()
      ensures mainVisible && !detailVisible
      ensures children == Backs(old(children)) && children == [BackButton]
    {
      mainVisible := true;
      detailVisible := false;
      BacksOfBackFirst(children);
      RemoveDetails();
    }

    /** The search button's click handler. `response` answers the detail request for `query`
        and `spriteResponse` the sprite lookup, should either miss the cache. On an empty query
        only the alert is raised. Otherwise the detail panel is cleared, the built panel is
        appended and shown. When building rejects, the rejection is returned un-awaited by
        `searchForPokemonByName`, so it escapes that function's `catch` and reaches the
        handler's own `catch`, which raises the "Something went wrong" alert. The
        "Pokemon not found!" branch needs a falsy result, which the search never produces:
        `getPokemon` never rejects and the builder either resolves to an element or rejects. */
    method OnSearch(query: string, response: Response, spriteResponse: Response) returns (alert: Option<string>)
      requires Valid()
      modifies this, cache
      ensures Valid()
      ensures alert != Some(NotFoundAlert)
      ensures query == "" ==>
        && alert == Some(InputEmptyAlert)
        && children == old(children) && cache.entries == old(cache.entries)
        && mainVisible == old(mainVisible) && detailVisible == old(detailVisible)
      ensures query != "" ==>
        var o := Lookup(old(cache.entries), query, response);
        var built := Detail(o.record, o.record);
        && cache.entries == o.entries
        && (built.Some? ==>
              && alert == None
              && children == Backs(old(children)) + [Shown(built.value)]
              && children == [BackButton, Shown(built.value)]
              && !mainVisible && detailVisible)
        && (built.None? ==>
              && alert == Some(SearchFailedAlert)
              && children == Backs(old(children)) && children == [BackButton]
              && mainVisible == old(mainVisible) && detailVisible == old(detailVisible))
    {
      if query == "" {
        return Some(InputEmptyAlert);
      }
      BacksOfBackFirst(children);
      RemoveDetails();
      var built := SearchForPokemonByName(cache, query, response, spriteResponse);
      if built.Some? {
        children := children + [Shown(built.value)];
        mainVisible := false;
        detailVisible := true;
        alert := None;
      } else {
        alert := Some(SearchFailedAlert);
      }
    }

    /** A list tile's click handler for the record `tile` fetched when the list was built: the
        panels switch first, then the built panel is appended without clearing. When building
        throws nothing is appended. */
    method OnTileClick(tile: Record, spriteResponse: Response)
      requires Valid()
      modifies this, cache
      ensures Valid()
      ensures !mainVisible && detailVisible
      ensures !HasDetails(tile) ==>
        && cache.entries == old(cache.entries)
        && children == old(children) + [Shown(Placeholder(UnableMessage))]
      ensures HasDetails(tile) ==>
        var o := Lookup(old(cache.entries), Key(tile), spriteResponse);
        var built := Detail(tile, o.record);
        && cache.entries == o.entries
        && children == old(children) + (if built.Some? then [Shown(built.value)] else [])
      // clicked from the list, the detail panel ends with at most one built panel
      ensures old(mainVisible) ==> |children| <= 2
    {
      mainVisible := false;
      detailVisible := true;
      var built := CreatePokemonInfo(cache, tile, spriteResponse);
      if built.Some? {
        children := children + [Shown(built.value)];
      }
    }
  }

  /** A search for a name the service does not know shows the placeholder panel: the fallback
      `{}` fails the guard and the error div is appended like any panel, so no alert is raised. */
  lemma UnknownNameShowsPlaceholder(m: map<string, Record>, query: string)
    requires query !in m
    ensures var o := Lookup(m, query, Failed);
      o.entries == m && Detail(o.record, o.record) == Some(Placeholder(UnableMessage))
  {
  }

  /** A record with `stats` and `types` but no `sprites` makes the build reject, so a search
      for it alerts "Something went wrong while searching for the Pokémon!". */
  lemma SpritelessSearchRejects()
    ensures var answer := Record(Some("x"), None, Some([]), Some([]), None);
      var o := Lookup(map[], "x", Ok(answer));
      o.entries == map["x" := answer] && o.record == answer && Detail(o.record, o.record).None?
  {
  }

  /** A detail record with one stat and one type builds a panel showing "hp: " with "45" and
      the type "grass". */
  lemma SingleStatPanel()
    ensures var r := Record(Some("bulbasaur"), Some(1), Some([Stat("hp", 45)]), Some([TypeSlot("grass")]),
                            Some(map["front_default" := "url1"]));
      var p := Detail(r, r);
      && p.Some? && p.value.Details?
      && p.value.stats == [StatLine("hp: ", "45")]
      && p.value.types == ["grass"]
      && p.value.sprites == [[Some("url1"), None], [None, None]]
  {
    var sprites := map["front_default" := "url1"];
    SpriteColumnsOrder(sprites);
    assert Numerals.NatText(45) == "45";
    assert Numerals.IntText(45) == "45";
    assert "hp" + ": " == "hp: ";
    assert StatLines([Stat("hp", 45)]) == [StatLine("hp: ", "45")];
    assert TypeNames([TypeSlot("grass")]) == ["grass"];
  }
}
