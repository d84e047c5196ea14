/** The home page's brand strip, frontend/src/components/BrandScroll.tsx:
    what it renders for each state of the brand query, the first four
    brands until "See More" is pressed, and the path a brand links to. */
module BrandScroll {
  import opened Wrappers

  datatype Brand = Brand(brandName: string, img: string)

  /** The query result as the component sees it; `data` is `None` while
      absent. */
  datatype BrandQuery = BrandQuery(isLoading: bool, isError: bool, data: Option<seq<Brand>>)

  /** The four things the component can render. */
  datatype BrandView =
    | Spinner
    | LoadError
    | NoBrands
    | BrandGrid(shown: seq<Brand>, seeMore: bool)

  const CollapsedCount := 4

  /** The brands listed: all of them once expanded, else the first four. */
  function DisplayBrands(brands: seq<Brand>, showAll: bool): (shown: seq<Brand>)
    ensures showAll ==> shown == brands
    ensures !showAll ==> |shown| == if |brands| < CollapsedCount then |brands| else CollapsedCount
    ensures shown == brands[..|shown|]
  {
    if showAll then brands
    else if |brands| <= CollapsedCount then brands
    else brands[..CollapsedCount]
  }

  /** "See More" is offered while collapsed and more than four brands exist. */
  predicate SeeMoreVisible(brands: seq<Brand>, showAll: bool) {
    !showAll && |brands| > CollapsedCount
  }

  /** The component's output: loading first, then the error, then the
      empty or missing list, then the grid. */
  function Render(query: BrandQuery, showAll: bool): BrandView {
    if query.isLoading then Spinner
    else if query.isError then LoadError
    else if query.data.None? || |query.data.value| == 0 then NoBrands
    else BrandGrid(DisplayBrands(query.data.value, showAll), SeeMoreVisible(query.data.value, showAll))
  }

  /** `handleCategoryClick`: the path navigated to. */
  function BrandPath(brandName: string): (path: string)
    ensures |path| == 7 + |brandName| && path[..7] == "/brand=" && path[7..] == brandName
  {
    "/brand=" + brandName
  }

  /** Each view appears exactly under its condition, in precedence order. */
  lemma RenderPrecedence(query: BrandQuery, showAll: bool)
    ensures Render(query, showAll) == Spinner <==> query.isLoading
    ensures Render(query, showAll) == LoadError <==> !query.isLoading && query.isError
    ensures Render(query, showAll) == NoBrands <==>
      !query.isLoading && !query.isError && (query.data.None? || query.data.value == [])
    ensures Render(query, showAll).BrandGrid? <==>
      !query.isLoading && !query.isError && query.data.Some? && query.data.value != []
  {
  }

  /** The button is offered exactly when some brand is hidden: the grid
      shows all brands or offers "See More", never both and never neither. */
  lemma SeeMoreIffHidden(brands: seq<Brand>, showAll: bool)
    ensures SeeMoreVisible(brands, showAll) <==> DisplayBrands(brands, showAll) != brands
  {
  }

  /** Once "See More" has been pressed the grid lists every brand and the
      button is gone. */
  lemma ExpandedShowsAll(query: BrandQuery)
    requires !query.isLoading && !query.isError && query.data.Some? && query.data.value != []
    ensures Render(query, true) == BrandGrid(query.data.value, false)
  {
  }

  /** Different brand names lead to different paths. */
  lemma BrandPathInjective(a: string, b: string)
    ensures BrandPath(a) == BrandPath(b) <==> a == b
  {
    if BrandPath(a) == BrandPath(b) {
      assert a == BrandPath(a)[7..];
    }
  }

  class BrandScrollState {
    var showAll: bool

    constructor ()
      ensures !showAll
    {
      showAll := false;
    }

    /** `handleSeeMore`: the strip is expanded from now on. */
    method HandleSeeMore()
      modifies this
      ensures showAll
    {
      showAll := true;
    }
  }
}
