/**
 * `MissionBuilderViewModel`: the set of locations picked for a custom
 * mission, and the category and region filters over the inventory.
 */
module MissionBuilder {
  import opened Wrappers
  import opened Lists
  import opened Domain

  /** `toggleLocation`'s new selection. */
  function ToggledSelection(selected: set<int>, id: int): (r: set<int>)
    ensures id in r <==> id !in selected
    ensures forall other | other != id :: other in r <==> other in selected
  {
    if id in selected then selected - {id} else selected + {id}
  }

  /** Toggling the same id twice restores the selection. */
  lemma ToggleTwice(selected: set<int>, id: int)
    ensures ToggledSelection(ToggledSelection(selected, id), id) == selected
  {
  }

  /** `setCategory` / `setRegion`: choosing the active filter again clears it. */
  function ToggledFilter(current: Option<string>, choice: Option<string>): (r: Option<string>)
    ensures r.None? <==> current == choice || choice.None?
    ensures r.Some? ==> r == choice
  {
    if current == choice then None else choice
  }

  /** Choosing the same filter twice from a cleared state clears it again. */
  lemma ChooseTwiceClears(choice: Option<string>)
    ensures ToggledFilter(ToggledFilter(None, choice), choice) == None
  {
  }

  /** `isNullOrEmpty`. */
  predicate IsSet(f: Option<string>) {
    f.Some? && f.value != ""
  }

  /** An item passes both active filters. */
  function Matches(cat: Option<string>, reg: Option<string>): LocationEntity -> bool {
    (e: LocationEntity) => (IsSet(cat) ==> e.kind == cat.value) && (IsSet(reg) ==> e.region == reg.value)
  }

  function KindIs(cat: string): LocationEntity -> bool {
    (e: LocationEntity) => e.kind == cat
  }

  function RegionIs(reg: string): LocationEntity -> bool {
    (e: LocationEntity) => e.region == reg
  }

  class Builder {
    var selectedIds: set<int>
    var activeCategory: Option<string>
    var activeRegion: Option<string>

    constructor ()
      ensures selectedIds == {} && activeCategory == None && activeRegion == None
    {
      selectedIds := {};
      activeCategory := None;
      activeRegion := None;
    }

    method ToggleLocation(id: int)
      modifies this
      ensures selectedIds == ToggledSelection(old(selectedIds), id)
      ensures activeCategory == old(activeCategory) && activeRegion == old(activeRegion)
    {
      var current := selectedIds;
      selectedIds := if id in current then current - {id} else current + {id};
    }

    method SetCategory(cat: Option<string>)
      modifies this
      ensures activeCategory == ToggledFilter(old(activeCategory), cat)
      ensures selectedIds == old(selectedIds) && activeRegion == old(activeRegion)
    {
      activeCategory := if activeCategory == cat then None else cat;
    }

    method SetRegion(reg: Option<string>)
      modifies this
      ensures activeRegion == ToggledFilter(old(activeRegion), reg)
      ensures selectedIds == old(selectedIds) && activeCategory == old(activeCategory)
    {
      activeRegion := if activeRegion == reg then None else reg;
    }

    /**
     * The inventory shown: the items of the active category and region, in
     * inventory order; an unset or empty filter keeps everything.
     */
    method FilteredInventory(inventory: seq<LocationEntity>) returns (filtered: seq<LocationEntity>)
      ensures filtered == Filter(inventory, Matches(activeCategory, activeRegion))
    {
      var cat := activeCategory;
      var reg := activeRegion;
      filtered := inventory;
      if IsSet(cat) {
        filtered := Filter(filtered, KindIs(cat.value));
      }
      if IsSet(reg) {
        filtered := Filter(filtered, RegionIs(reg.value));
      }
      FilterSteps(inventory, cat, reg);
    }
  }

  /** The two filter passes of the view model amount to one pass with `Matches`. */
  lemma FilterSteps(inventory: seq<LocationEntity>, cat: Option<string>, reg: Option<string>)
    ensures var byCat := if IsSet(cat) then Filter(inventory, KindIs(cat.value)) else inventory;
      var byReg := if IsSet(reg) then Filter(byCat, RegionIs(reg.value)) else byCat;
      byReg == Filter(inventory, Matches(cat, reg))
  {
    if IsSet(cat) && IsSet(reg) {
      FilterFilter(inventory, KindIs(cat.value), RegionIs(reg.value), Matches(cat, reg));
    } else if IsSet(cat) {
      FilterSame(inventory, KindIs(cat.value), Matches(cat, reg));
    } else if IsSet(reg) {
      FilterSame(inventory, RegionIs(reg.value), Matches(cat, reg));
    } else {
      FilterAll(inventory, Matches(cat, reg));
    }
  }

  /** With neither filter set (null or empty) the whole inventory is shown. */
  lemma NoFilterKeepsInventory(inventory: seq<LocationEntity>, cat: Option<string>, reg: Option<string>)
    requires !IsSet(cat) && !IsSet(reg)
    ensures Filter(inventory, Matches(cat, reg)) == inventory
  {
    FilterAll(inventory, Matches(cat, reg));
  }
}
