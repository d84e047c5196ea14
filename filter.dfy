/** The brand and category filters, frontend/src/components/Filter.tsx.
    The selection lives in the page's query parameters as comma-joined ids;
    parameters are modelled as a map from key to value. */
module Filter {
  import opened Wrappers
  import opened JsStrings

  type SearchParams = map<string, string>

  const BrandsKey := "brands"
  const CategoriesKey := "categories"

  /** An option shown in the filter modal. */
  datatype FilterOption = FilterOption(id: string, brandName: string)

  /** An id that survives being comma-joined and split again. */
  predicate Joinable(id: string) { id != "" && ',' !in id }

  // ---------------------------------------------------------------------
  // Reading the selection back

  /** The ids selected under `key`: the parameter's value split at commas
      with the empty pieces dropped, or none when the parameter is absent. */
  function ParseSelected(params: SearchParams, key: string): (ids: seq<string>)
    ensures "" !in ids
    ensures forall id :: id in ids ==> ',' !in id
    ensures key !in params ==> ids == []
  {
    if key in params then NonEmpty(Split(params[key], ',')) else []
  }

  // ---------------------------------------------------------------------
  // Writing the selection

  /** `updateFilters(type, values)`: a copy of the parameters in which
      `type` holds the comma-joined values (or is deleted when there are
      none), and `categories` is deleted whenever the brands change. */
  method UpdateFilters(searchParams: SearchParams, filterType: string, values: seq<string>)
    returns (newParams: SearchParams)
    ensures |values| > 0 ==> filterType in newParams && newParams[filterType] == Join(values, ',')
    ensures |values| == 0 ==> filterType !in newParams
    ensures filterType == BrandsKey ==> CategoriesKey !in newParams
    ensures forall k :: k != filterType && !(filterType == BrandsKey && k == CategoriesKey) ==>
      (k in newParams <==> k in searchParams) && (k in newParams ==> newParams[k] == searchParams[k])
    ensures (forall v :: v in values ==> Joinable(v)) ==> ParseSelected(newParams, filterType) == values
  {
    newParams := searchParams;
    if |values| > 0 {
      newParams := newParams[filterType := Join(values, ',')];
    } else {
      newParams := newParams - {filterType};
    }
    if filterType == BrandsKey {
      newParams := newParams - {CategoriesKey};
    }
    if forall v :: v in values ==> Joinable(v) {
      ReadBackJoined(values);
    }
  }

  /** What is written is what is read: comma-joining ids that are
      non-empty and comma-free, then splitting and dropping empty pieces,
      gives the same ids in the same order. No ids join to "", which
      splits to one empty piece and so reads back as no ids. */
  lemma ReadBackJoined(values: seq<string>)
    requires forall v :: v in values ==> Joinable(v)
    ensures NonEmpty(Split(Join(values, ','), ',')) == values
  {
    if |values| > 0 {
      SplitJoin(values, ',');
      NonEmptyKeepsNonEmpty(values);
    }
  }

  // ---------------------------------------------------------------------
  // The checkbox toggle

  /** Every occurrence of `id` removed, the rest in order (the unchecking
      `filter`). */
  function Without(ids: seq<string>, id: string): (r: seq<string>)
    ensures |r| <= |ids|
    ensures forall x :: x in r <==> x in ids && x != id
  {
    if |ids| == 0 then []
    else if ids[0] == id then Without(ids[1..], id)
    else [ids[0]] + Without(ids[1..], id)
  }

  /** The checkbox `onChange`: checking appends the option's id at the
      end; unchecking removes every occurrence of it. */
  function ToggleSelection(selected: seq<string>, id: string, checked: bool): seq<string> {
    if checked then selected + [id] else Without(selected, id)
  }

  /** A checkbox shows checked exactly when its id is selected. */
  predicate IsChecked(selected: seq<string>, id: string) { id in selected }

  /** Checking shows the box checked with the id as the last selection;
      unchecking shows it unchecked and keeps exactly the other ids. */
  lemma ToggleEffect(selected: seq<string>, id: string)
    ensures var on := ToggleSelection(selected, id, true);
      IsChecked(on, id) && on[..|selected|] == selected && on[|selected|] == id
    ensures var off := ToggleSelection(selected, id, false);
      !IsChecked(off, id) && forall x :: x != id ==> (IsChecked(off, x) <==> IsChecked(selected, x))
  {
  }

  /** Unchecking keeps the remaining ids in their order: the filter
      distributes over concatenation. */
  lemma {:induction false} WithoutKeepsOrder(a: seq<string>, b: seq<string>, id: string)
    ensures Without(a + b, id) == Without(a, id) + Without(b, id)
    decreases |a|
  {
    if |a| > 0 {
      assert (a + b)[0] == a[0] && (a + b)[1..] == a[1..] + b;
      WithoutKeepsOrder(a[1..], b, id);
    } else {
      assert a + b == b;
    }
  }

  /** Checking an unselected option and unchecking it again restores the
      selection. */
  lemma {:induction false} CheckThenUncheck(selected: seq<string>, id: string)
    requires id !in selected
    ensures ToggleSelection(ToggleSelection(selected, id, true), id, false) == selected
  {
    WithoutKeepsOrder(selected, [id], id);
    WithoutAbsent(selected, id);
    assert Without([id], id) == [];
  }

  lemma {:induction false} WithoutAbsent(ids: seq<string>, id: string)
    requires id !in ids
    ensures Without(ids, id) == ids
    decreases |ids|
  {
    if |ids| > 0 {
      assert id !in ids[1..];
      WithoutAbsent(ids[1..], id);
      assert [ids[0]] + ids[1..] == ids;
    }
  }

  // ---------------------------------------------------------------------
  // The search box of the modal

  /** The modal's search: the lower-cased name contains the lower-cased
      term. */
  predicate MatchesSearch(option: FilterOption, searchTerm: string) {
    Includes(ToLower(option.brandName), ToLower(searchTerm))
  }

  function MatchingOptions(options: seq<FilterOption>, searchTerm: string): (r: seq<FilterOption>)
    ensures |r| <= |options|
    ensures forall o :: o in r <==> o in options && MatchesSearch(o, searchTerm)
  {
    if |options| == 0 then []
    else if MatchesSearch(options[0], searchTerm) then [options[0]] + MatchingOptions(options[1..], searchTerm)
    else MatchingOptions(options[1..], searchTerm)
  }

  /** `filteredOptions`: the matching options in their order, or none
      while the options have not arrived. */
  function FilteredOptions(options: Option<seq<FilterOption>>, searchTerm: string): seq<FilterOption> {
    match options
    case None => []
    case Some(opts) => MatchingOptions(opts, searchTerm)
  }

  /** The search term, lowercased, occurs somewhere in the option's
      lowercased name. */
  ghost predicate NameContains(option: FilterOption, searchTerm: string) {
    exists i :: OccursAt(ToLower(option.brandName), ToLower(searchTerm), i)
  }

  /** An option is listed exactly when its lowercased name contains the
      lowercased search term somewhere. */
  lemma FilteredIff(opts: seq<FilterOption>, searchTerm: string, o: FilterOption)
    ensures o in FilteredOptions(Some(opts), searchTerm) <==> o in opts && NameContains(o, searchTerm)
  {
    IncludesIffOccurs(ToLower(o.brandName), ToLower(searchTerm));
  }

  /** The filter keeps the options' order. */
  lemma {:induction false} FilteredKeepsOrder(a: seq<FilterOption>, b: seq<FilterOption>, searchTerm: string)
    ensures MatchingOptions(a + b, searchTerm) == MatchingOptions(a, searchTerm) + MatchingOptions(b, searchTerm)
    decreases |a|
  {
    if |a| > 0 {
      assert (a + b)[0] == a[0] && (a + b)[1..] == a[1..] + b;
      FilteredKeepsOrder(a[1..], b, searchTerm);
    } else {
      assert a + b == b;
    }
  }

  /** An empty search term lists every option. */
  lemma {:induction false} EmptySearchKeepsAll(opts: seq<FilterOption>)
    ensures FilteredOptions(Some(opts), "") == opts
    decreases |opts|
  {
    if |opts| > 0 {
      IncludesEmpty(ToLower(opts[0].brandName));
      EmptySearchKeepsAll(opts[1..]);
      assert [opts[0]] + opts[1..] == opts;
    }
  }

  // ---------------------------------------------------------------------
  // The category request

  /** `brandsQuery` of `fetchCategories`. */
  function BrandsQuery(selectedBrands: seq<string>): string {
    if |selectedBrands| > 0 then "?brands=" + Join(selectedBrands, ',') else ""
  }

  /** No brands give no query string; otherwise the query is "?brands="
      followed by the comma-joined ids, which read back as the same ids. */
  lemma BrandsQueryShape(selectedBrands: seq<string>)
    requires forall v :: v in selectedBrands ==> Joinable(v)
    ensures |selectedBrands| == 0 ==> BrandsQuery(selectedBrands) == ""
    ensures |selectedBrands| > 0 ==>
      var q := BrandsQuery(selectedBrands);
      && q[..8] == "?brands="
      && NonEmpty(Split(q[8..], ',')) == selectedBrands
  {
    if |selectedBrands| > 0 {
      var q := BrandsQuery(selectedBrands);
      assert q[8..] == Join(selectedBrands, ',');
      ReadBackJoined(selectedBrands);
    }
  }

  // ---------------------------------------------------------------------
  // Clear All

  /** The "Clear All" button is shown while some brand or category is
      selected. */
  predicate ClearAllVisible(params: SearchParams) {
    |ParseSelected(params, BrandsKey)| > 0 || |ParseSelected(params, CategoriesKey)| > 0
  }

  /** "Clear All" replaces the parameters by none: every parameter goes; no selection is left and
      the button hides itself. */
  function ClearAll(params: SearchParams): (cleared: SearchParams)
    ensures forall k :: k !in cleared
    ensures ParseSelected(cleared, BrandsKey) == [] && ParseSelected(cleared, CategoriesKey) == []
    ensures !ClearAllVisible(cleared)
  {
    map[]
  }
}
