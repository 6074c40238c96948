/** The catalog filter slice: a record of named filter values, where
    `setFilter` toggles a value in a list-valued entry and overwrites any
    other entry, and `clearFilters` restores the initial record. */
module FilterSlice {
  import opened Common

  /** A filter value as the payload carries it. */
  datatype Value = Num(n: int) | Bool(b: bool) | Str(s: string) | List(items: seq<Value>)

  /** The state, keyed by entry name (`state[name]`). */
  type Filters = map<string, Value>

  const InitialFilters: Filters := map[
    "width" := Num(150), "height" := Num(150), "inStock" := Bool(false),
    "category" := List([]), "subCategory" := List([]), "color" := List([])]

  /** `exists ? filter(item => item !== value) : [...list, value]`. */
  function Toggle(items: seq<Value>, v: Value): (r: seq<Value>)
    ensures v in items ==> v !in r
    ensures v in items ==> forall k :: 0 <= k < |items| && items[k] != v ==> items[k] in r
    ensures v in items ==> forall k :: 0 <= k < |r| ==> r[k] in items
    ensures v in items ==> r == Without(items, v)
    ensures v !in items ==> r == items + [v]
  {
    if v in items then Without(items, v) else items + [v]
  }

  /** `Array.isArray(state[name])`: the entry exists and holds a list. */
  predicate IsList(s: Filters, name: string)
  {
    name in s && s[name].List?
  }

  /** `setFilter({ name, value })`. */
  function SetFilter(s: Filters, name: string, value: Value): (r: Filters)
    ensures r.Keys == s.Keys + {name}
    ensures forall n :: n in s && n != name ==> r[n] == s[n]
    ensures !IsList(s, name) ==> r[name] == value
    ensures IsList(s, name) ==> r[name] == List(Toggle(s[name].items, value))
  {
    if IsList(s, name) then s[name := List(Toggle(s[name].items, value))]
    else s[name := value]
  }

  /** Toggling keeps a list free of duplicates. */
  lemma ToggleNoDuplicates(items: seq<Value>, v: Value)
    requires NoDuplicates(items)
    ensures NoDuplicates(Toggle(items, v))
  {
    if v in items {
      WithoutNoDuplicates(items, v);
    }
  }

  /** Toggling a value twice: an absent value leaves the list exactly as it
      was; a present value comes back at the end, so the same values are
      listed. */
  lemma ToggleTwice(items: seq<Value>, v: Value)
    ensures v !in items ==> Toggle(Toggle(items, v), v) == items
    ensures v in items ==> Toggle(Toggle(items, v), v) == Without(items, v) + [v]
    ensures forall x :: x in Toggle(Toggle(items, v), v) <==> x in items
  {
    if v !in items {
      WithoutAppended(items, v);
    }
  }

  /** Every list-valued entry is duplicate-free. */
  predicate ListsDuplicateFree(s: Filters)
  {
    forall n :: n in s && s[n].List? ==> NoDuplicates(s[n].items)
  }

  /** `setFilter` keeps every list duplicate-free, as long as a list is not
      written over an entry with duplicates already in it. */
  lemma SetFilterKeepsListsDuplicateFree(s: Filters, name: string, value: Value)
    requires ListsDuplicateFree(s)
    requires value.List? ==> NoDuplicates(value.items)
    ensures ListsDuplicateFree(SetFilter(s, name, value))
  {
    if IsList(s, name) {
      ToggleNoDuplicates(s[name].items, value);
    }
  }

  /** The initial record has its three lists empty and the scalar defaults. */
  lemma InitialFiltersShape()
    ensures ListsDuplicateFree(InitialFilters)
    ensures IsList(InitialFilters, "category") && IsList(InitialFilters, "subCategory") && IsList(InitialFilters, "color")
    ensures !IsList(InitialFilters, "width") && !IsList(InitialFilters, "height") && !IsList(InitialFilters, "inStock")
  {
  }

  /** Overwriting a scalar entry twice is overwriting it once. */
  lemma SetScalarTwice(s: Filters, name: string, v: Value, w: Value)
    requires !IsList(s, name) && !w.List?
    ensures SetFilter(SetFilter(s, name, w), name, v) == SetFilter(s, name, v)
  {
  }

  class FilterStore {
    var filters: Filters

    constructor ()
      ensures filters == InitialFilters
    {
      filters := InitialFilters;
    }

    method SetFilterAction(name: string, value: Value)
      modifies this
      ensures filters == SetFilter(old(filters), name, value)
    {
      if name in filters && filters[name].List? {
        var list := filters[name].items;
        var present := value in list;
        if present {
          filters := filters[name := List(Without(list, value))];
        } else {
          filters := filters[name := List(list + [value])];
        }
      } else {
        filters := filters[name := value];
      }
    }

    /** `clearFilters`: the initial record, from any state; clearing again
      changes nothing. */
    method ClearFilters()
      modifies this
      ensures filters == InitialFilters
    {
      filters := InitialFilters;
    }
  }
}
