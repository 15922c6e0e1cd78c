/**
 * The provider list screen of app/index.tsx: the state it keeps (the store's
 * providers, the fetched categories, `loading`, `selectedCat`), the
 * normalisation applied to a fetch result, the category filter, the chip
 * handlers, and which provider rows the list renders.
 *
 * The screen's state writes are single-cell setters, so each handler is a
 * function from the old state to the new one.
 */
module Home {
  import opened Types
  import opened JsNumbers

  // ----- sequences -----

  /** a can be obtained from b by deleting elements (greedy matching). */
  predicate IsSubsequence<T(==)>(a: seq<T>, b: seq<T>)
    decreases |b|
  {
    if a == [] then true
    else if b == [] then false
    else if a[0] == b[0] then IsSubsequence(a[1..], b[1..])
    else IsSubsequence(a, b[1..])
  }

  // ----- normalisation of a fetch result (app/index.tsx:29-37) -----

  /** `{ ...prov, categoryId: Number(prov.categoryId) }` */
  function NormaliseProvider(p: Provider): Provider {
    p.(categoryId := Number(ToNumber(p.categoryId)))
  }

  /** `{ ...cat, id: Number(cat.id) }` */
  function NormaliseCategory(c: Category): Category {
    c.(id := Number(ToNumber(c.id)))
  }

  function NormaliseProviders(ps: seq<Provider>): seq<Provider> {
    if ps == [] then [] else [NormaliseProvider(ps[0])] + NormaliseProviders(ps[1..])
  }

  function NormaliseCategories(cs: seq<Category>): seq<Category> {
    if cs == [] then [] else [NormaliseCategory(cs[0])] + NormaliseCategories(cs[1..])
  }

  /**
   * Normalising keeps length and order and changes nothing but `categoryId`,
   * which becomes the number `Number()` makes of it.
   */
  lemma {:induction false} NormaliseProvidersOnlyCoerces(ps: seq<Provider>)
    ensures |NormaliseProviders(ps)| == |ps|
    ensures forall i :: 0 <= i < |ps| ==>
      NormaliseProviders(ps)[i] == ps[i].(categoryId := Number(ToNumber(ps[i].categoryId)))
  {
    if ps != [] {
      NormaliseProvidersOnlyCoerces(ps[1..]);
    }
  }

  /** Normalising keeps length and order and changes nothing but the category `id`. */
  lemma {:induction false} NormaliseCategoriesOnlyCoerces(cs: seq<Category>)
    ensures |NormaliseCategories(cs)| == |cs|
    ensures forall i :: 0 <= i < |cs| ==>
      NormaliseCategories(cs)[i] == cs[i].(id := Number(ToNumber(cs[i].id)))
  {
    if cs != [] {
      NormaliseCategoriesOnlyCoerces(cs[1..]);
    }
  }

  /** Coercing records whose ids are already numbers changes nothing. */
  lemma {:induction false} NormaliseProvidersIdempotent(ps: seq<Provider>)
    ensures NormaliseProviders(NormaliseProviders(ps)) == NormaliseProviders(ps)
  {
    if ps != [] {
      NormaliseProvidersIdempotent(ps[1..]);
    }
  }

  lemma {:induction false} NormaliseCategoriesIdempotent(cs: seq<Category>)
    ensures NormaliseCategories(NormaliseCategories(cs)) == NormaliseCategories(cs)
  {
    if cs != [] {
      NormaliseCategoriesIdempotent(cs[1..]);
    }
  }

  // ----- screen state and the fetch on mount (app/index.tsx:17-44) -----

  datatype HomeState = HomeState(
    providers: seq<Provider>,    // the store's providers
    categories: seq<Category>,
    loading: bool,
    selectedCat: Option<JsNum>   // `number | null`
  )

  /** Both collections of a successful `Promise.all` of the two fetches. */
  datatype FetchResult = FetchResult(providers: seq<Provider>, categories: seq<Category>)

  /** The state on mount: the store's providers, no categories, loading, nothing selected. */
  function Mount(storeProviders: seq<Provider>): (r: HomeState)
    ensures r.providers == storeProviders && r.categories == [] && r.selectedCat == None
    ensures View(r) == Spinner
  {
    HomeState(storeProviders, [], true, None)
  }

  /**
   * The end of the mount effect: on success both collections are replaced by
   * their normalised copies; on failure (None) they keep their previous
   * values; either way `loading` becomes false.
   */
  function FinishLoad(s: HomeState, fetched: Option<FetchResult>): (r: HomeState)
    ensures !r.loading && r.selectedCat == s.selectedCat
    ensures fetched.None? ==> r.providers == s.providers && r.categories == s.categories
    ensures fetched.Some? ==>
      r.providers == NormaliseProviders(fetched.value.providers) &&
      r.categories == NormaliseCategories(fetched.value.categories)
    ensures fetched.Some? ==>
      |r.providers| == |fetched.value.providers| && |r.categories| == |fetched.value.categories|
    ensures fetched.Some? ==>
      (forall i :: 0 <= i < |r.providers| ==> r.providers[i].categoryId.Number?) &&
      (forall i :: 0 <= i < |r.categories| ==> r.categories[i].id.Number?)
  {
    match fetched
    case None => s.(loading := false)
    case Some(res) =>
      NormaliseProvidersOnlyCoerces(res.providers);
      NormaliseCategoriesOnlyCoerces(res.categories);
      s.(providers := NormaliseProviders(res.providers),
         categories := NormaliseCategories(res.categories),
         loading := false)
  }

  // ----- the category filter (app/index.tsx:46-48) -----

  /** `selectedCat ? ... : providers`: only a non-zero number selects; null, 0 and NaN mean all. */
  predicate Selects(sel: Option<JsNum>) {
    sel.Some? && Truthy(sel.value)
  }

  /** `Number(item.categoryId) === selectedCat` */
  predicate InCategory(p: Provider, c: JsNum) {
    StrictEquals(ToNumber(p.categoryId), c)
  }

  /** `providers.filter((item) => Number(item.categoryId) === c)` */
  function FilterByCategory(ps: seq<Provider>, c: JsNum): (r: seq<Provider>)
    ensures |r| <= |ps|
    ensures forall p :: p in r <==> p in ps && InCategory(p, c)
  {
    if ps == [] then []
    else if InCategory(ps[0], c) then [ps[0]] + FilterByCategory(ps[1..], c)
    else FilterByCategory(ps[1..], c)
  }

  /** `filteredProviders`: everything unless the selection is a non-zero number. */
  function FilteredProviders(providers: seq<Provider>, sel: Option<JsNum>): (r: seq<Provider>)
    ensures !Selects(sel) ==> r == providers
    ensures Selects(sel) ==> forall p :: p in r <==> p in providers && InCategory(p, sel.value)
    ensures |r| <= |providers|
  {
    if Selects(sel) then FilterByCategory(providers, sel.value) else providers
  }

  /** The filter keeps the providers it keeps in their original relative order. */
  lemma {:induction false} FilterIsSubsequence(ps: seq<Provider>, c: JsNum)
    ensures IsSubsequence(FilterByCategory(ps, c), ps)
  {
    if ps != [] {
      FilterIsSubsequence(ps[1..], c);
      var rest := FilterByCategory(ps[1..], c);
      if !InCategory(ps[0], c) && rest != [] {
        assert rest[0] in rest;
        assert rest[0] != ps[0];
      }
    }
  }

  /** Each matching provider is kept as often as it occurs; no other one is kept. */
  lemma {:induction false} FilterMultiplicity(ps: seq<Provider>, c: JsNum)
    ensures forall p ::
      multiset(FilterByCategory(ps, c))[p] == (if InCategory(p, c) then multiset(ps)[p] else 0)
  {
    if ps != [] {
      FilterMultiplicity(ps[1..], c);
      assert ps == [ps[0]] + ps[1..];
      assert multiset(ps) == multiset([ps[0]]) + multiset(ps[1..]);
    }
  }

  /** Filtering an already filtered list by the same category changes nothing. */
  lemma {:induction false} FilterIdempotent(ps: seq<Provider>, c: JsNum)
    ensures FilterByCategory(FilterByCategory(ps, c), c) == FilterByCategory(ps, c)
  {
    if ps != [] {
      FilterIdempotent(ps[1..], c);
    }
  }

  // ----- the category chips (app/index.tsx:77, 94-98) -----

  /** "All": `setSelectedCat(null)` */
  function SelectAll(s: HomeState): (r: HomeState)
    ensures r.selectedCat == None && r.providers == s.providers && r.categories == s.categories
    ensures FilteredProviders(r.providers, r.selectedCat) == s.providers
  {
    s.(selectedCat := None)
  }

  /** `category.id === selectedCat ? null : Number(category.id)` */
  function Toggle(sel: Option<JsNum>, categoryId: Scalar): (r: Option<JsNum>)
    ensures r == None ==> sel.Some? && categoryId.Number?
    ensures r != None ==> r == Some(ToNumber(categoryId))
    ensures categoryId.Text? ==> r != None
  {
    if categoryId.Number? && sel.Some? && StrictEquals(categoryId.num, sel.value) then None
    else Some(ToNumber(categoryId))
  }

  /** A tap on a category chip. */
  function TapCategory(s: HomeState, category: Category): (r: HomeState)
    ensures r.providers == s.providers && r.categories == s.categories && r.loading == s.loading
    ensures r.selectedCat == None ==> s.selectedCat != None
  {
    s.(selectedCat := Toggle(s.selectedCat, category.id))
  }

  /**
   * On a normalised category id the toggle clears exactly when the chip is
   * the selected one, and otherwise selects it; a NaN id never clears.
   */
  lemma ToggleClearsOnlySelected(sel: Option<JsNum>, n: JsNum)
    ensures Toggle(sel, Number(n)) == None <==> sel.Some? && StrictEquals(n, sel.value)
    ensures Toggle(sel, Number(n)) != None ==> Toggle(sel, Number(n)) == Some(n)
    ensures n == NaN ==> Toggle(sel, Number(n)) == Some(NaN)
  {
  }

  /**
   * Tapping a finite-id chip twice clears the selection, unless that chip was
   * the selected one before the first tap, in which case it is selected again.
   */
  lemma TapTwiceClears(s: HomeState, category: Category)
    requires category.id.Number? && category.id.num.Finite?
    ensures TapCategory(TapCategory(s, category), category).selectedCat ==
      if s.selectedCat == Some(category.id.num) then Some(category.id.num) else None
  {
  }

  /** After tapping an unselected chip with a non-zero id, the list is that category's providers. */
  lemma TapShowsCategory(s: HomeState, category: Category)
    requires category.id.Number? && Truthy(category.id.num)
    requires !(s.selectedCat.Some? && StrictEquals(category.id.num, s.selectedCat.value))
    ensures var t := TapCategory(s, category);
      forall p :: p in FilteredProviders(t.providers, t.selectedCat) <==>
        p in s.providers && InCategory(p, category.id.num)
  {
  }

  // ----- which rows the list renders (app/index.tsx:123-146) -----

  datatype Row = Row(provider: Provider, category: Category)

  /** `Number(cat.id) === n` */
  predicate HasId(cat: Category, n: JsNum) {
    StrictEquals(ToNumber(cat.id), n)
  }

  /** `categories.find((cat) => Number(cat.id) === n)`: the first category with that id. */
  function FindCategory(cats: seq<Category>, n: JsNum): (r: Option<Category>)
    ensures r.None? <==> forall i :: 0 <= i < |cats| ==> !HasId(cats[i], n)
    ensures r.Some? ==> exists i ::
      0 <= i < |cats| && cats[i] == r.value && HasId(cats[i], n) &&
      forall j :: 0 <= j < i ==> !HasId(cats[j], n)
  {
    if cats == [] then None
    else if HasId(cats[0], n) then
      assert cats[0] == cats[0];
      Some(cats[0])
    else
      var r := FindCategory(cats[1..], n);
      if r.Some? then
        var k :| 0 <= k < |cats[1..]| && cats[1..][k] == r.value && HasId(cats[1..][k], n) &&
          forall j :: 0 <= j < k ==> !HasId(cats[1..][j], n);
        assert cats[k + 1] == r.value;
        r
      else r
  }

  /**
   * The rendered rows: each provider paired with the first category whose id
   * equals its `categoryId`; a provider with no such category renders nothing.
   */
  function RenderRows(ps: seq<Provider>, cats: seq<Category>): (r: seq<Row>)
    ensures |r| <= |ps|
    ensures forall i :: 0 <= i < |r| ==> r[i].provider in ps && r[i].category in cats
  {
    if ps == [] then []
    else match FindCategory(cats, ToNumber(ps[0].categoryId))
      case None => RenderRows(ps[1..], cats)
      case Some(c) => [Row(ps[0], c)] + RenderRows(ps[1..], cats)
  }

  function RowProviders(rows: seq<Row>): seq<Provider> {
    if rows == [] then [] else [rows[0].provider] + RowProviders(rows[1..])
  }

  /** Every row pairs a listed provider with the first category matching it. */
  lemma {:induction false} RowsUseFirstMatch(ps: seq<Provider>, cats: seq<Category>)
    ensures forall row :: row in RenderRows(ps, cats) ==>
      row.provider in ps && FindCategory(cats, ToNumber(row.provider.categoryId)) == Some(row.category)
  {
    if ps != [] {
      RowsUseFirstMatch(ps[1..], cats);
    }
  }

  /** A provider is rendered exactly when some category has its id; rows keep the list's order. */
  lemma {:induction false} RowsDropOnlyUnmatched(ps: seq<Provider>, cats: seq<Category>)
    ensures forall p :: p in RowProviders(RenderRows(ps, cats)) <==>
      p in ps && exists i :: 0 <= i < |cats| && HasId(cats[i], ToNumber(p.categoryId))
    ensures IsSubsequence(RowProviders(RenderRows(ps, cats)), ps)
  {
    if ps != [] {
      RowsDropOnlyUnmatched(ps[1..], cats);
      var rest := RowProviders(RenderRows(ps[1..], cats));
      match FindCategory(cats, ToNumber(ps[0].categoryId))
      case None =>
        if rest != [] {
          assert rest[0] in rest;
        }
      case Some(c) =>
        assert RowProviders(RenderRows(ps, cats)) == [ps[0]] + rest;
    }
  }

  /** What the screen shows. */
  datatype Screen = Spinner | NoProviders | Listing(rows: seq<Row>)

  /** The three render branches of the screen (app/index.tsx:50-64, 123-146). */
  function View(s: HomeState): (v: Screen)
    ensures s.loading <==> v == Spinner
    ensures v == NoProviders <==> !s.loading && s.providers == []
  {
    if s.loading then Spinner
    else if |s.providers| == 0 then NoProviders
    else Listing(RenderRows(FilteredProviders(s.providers, s.selectedCat), s.categories))
  }

  /**
   * A listed provider is one from the store that is in the selected category
   * (when a non-zero one is selected) and has a category to show with it.
   */
  lemma ListingShowsSelectedKnown(s: HomeState)
    requires View(s).Listing?
    ensures forall p :: p in RowProviders(View(s).rows) <==>
      p in s.providers &&
      (Selects(s.selectedCat) ==> InCategory(p, s.selectedCat.value)) &&
      exists i :: 0 <= i < |s.categories| && HasId(s.categories[i], ToNumber(p.categoryId))
  {
    RowsDropOnlyUnmatched(FilteredProviders(s.providers, s.selectedCat), s.categories);
  }
}
