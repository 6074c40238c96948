/** The query the Curtains & Drapes page sends with its filter state, as the
    listing endpoint reads it. The page keeps `{ width, height, inStock,
    category, subCategory, color }` and passes the object as the request's
    params: a boolean is sent as "true"/"false", a list as repeated `key[]`
    entries (none when empty). The endpoint reads other names (`minWidth`,
    `maxWidth`, `subcategory`, `colors`, ...), so only `inStock` gets
    through. */
module CurtainsPage {
  import opened Common
  import opened ProductController

  /** The page's filter state, with the values its controls give it (the
      sliders' values are not read by the endpoint and are kept as numbers). */
  datatype PageFilters = PageFilters(
    width: int, height: int, inStock: bool,
    category: seq<string>, subCategory: seq<string>, color: seq<string>)

  const InitialPageFilters := PageFilters(150, 150, false, [], [], [])

  /** As written: the parameters of the request, under the names the handler
      destructures. */
  function SentQuery(pf: PageFilters): (q: CurtainsQuery)
    ensures q.inStock == Some(if pf.inStock then "true" else "false")
    ensures q.subcategory.None? && q.colors.None?
    ensures q.minWidth.None? && q.maxWidth.None? && q.minHeight.None? && q.maxHeight.None?
    ensures q.minPrice.None? && q.maxPrice.None?
  {
    CurtainsQuery(None, None, None, None, Some(if pf.inStock then "true" else "false"), None, None, None, None)
  }

  /** As written, the listing depends only on the checkbox: unchecked (the
      initial state) lists out-of-stock curtains only, and the size, type and
      colour selections never narrow it. */
  lemma SentQueryReadsOnlyInStock(pf: PageFilters, parseInt: string -> int, p: Product)
    ensures SpecMatches(SentQuery(pf), parseInt, p)
        <==> InCategory(p, "Curtains & Drapes") && p.fields.inStock == Some(pf.inStock)
    ensures pf == InitialPageFilters && p.fields.inStock == Some(true) ==> !SpecMatches(SentQuery(pf), parseInt, p)
  {
  }

  /** A label a checkbox can carry: non-empty and without a comma. */
  predicate Label(s: string)
  {
    |s| > 0 && ',' !in s
  }

  /** The list as one comma-joined parameter, absent when empty. */
  function JoinedParam(xs: seq<string>): Option<string>
  {
    if |xs| == 0 then None else Some(Join(xs, ','))
  }

  /** Corrected: an unchecked box sends no `inStock`, and the type and colour
      lists go under `subcategory` and `colors`, comma-joined. */
  function IntendedQuery(pf: PageFilters): CurtainsQuery
  {
    CurtainsQuery(None, None, None, None, if pf.inStock then Some("true") else None,
                  JoinedParam(pf.subCategory), JoinedParam(pf.color), None, None)
  }

  /** The joined parameter is non-empty and splits back into the list. */
  lemma JoinedParamSplits(xs: seq<string>)
    requires forall k :: 0 <= k < |xs| ==> Label(xs[k])
    ensures TruthyStr(JoinedParam(xs)) <==> |xs| > 0
    ensures |xs| > 0 ==> Split(JoinedParam(xs).value, ',') == xs
  {
    if |xs| > 0 {
      SplitJoin(xs, ',');
    }
  }

  /** With the corrected query, every selection narrows the listing as its
      control says, and the initial state lists every curtain product. */
  lemma IntendedQueryMatches(pf: PageFilters, parseInt: string -> int, p: Product)
    requires forall k :: 0 <= k < |pf.subCategory| ==> Label(pf.subCategory[k])
    requires forall k :: 0 <= k < |pf.color| ==> Label(pf.color[k])
    ensures SpecMatches(IntendedQuery(pf), parseInt, p) <==>
      && InCategory(p, "Curtains & Drapes")
      && (pf.inStock ==> p.fields.inStock == Some(true))
      && (|pf.subCategory| > 0 ==> AnyIn(p.fields.subcategory, pf.subCategory))
      && (|pf.color| > 0 ==> AnyIn(p.fields.colors, pf.color))
    ensures pf == InitialPageFilters ==>
      (SpecMatches(IntendedQuery(pf), parseInt, p) <==> InCategory(p, "Curtains & Drapes"))
  {
    JoinedParamSplits(pf.subCategory);
    JoinedParamSplits(pf.color);
  }
}
