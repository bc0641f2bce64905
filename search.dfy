/**
 * The search page: its server side turns query-string parameters into a
 * conjunctive product filter, a sort order and skip/limit paging; its
 * client side (`filterSearch`) rewrites the router's query in place and
 * navigates.
 *
 * The case-insensitive name regex is the parameter `nameMatches(name,
 * pattern)`: its semantics are not modelled.
 */
module Search {
  import opened Common
  import opened Types
  import opened JsNumber
  import opened ProductQuery

  /** A parsed query string: parameter name to (single) value. */
  type Query = map<string, string>

  const PageSize: int := 3

  /** `query.x || ""`: an absent parameter reads as the empty string. */
  function Text(q: Query, key: string): string {
    if key in q then q[key] else ""
  }

  /** A parameter constrains the search when it is neither empty nor "all". */
  predicate Active(v: string) {
    v != "" && v != "all"
  }

  /** The page size and page number, each `Number(...) || default`. */
  function PageSizeOf(q: Query): int { NumberOr(Lookup(q, "pageSize"), PageSize) }

  function PageOf(q: Query): int { NumberOr(Lookup(q, "page"), 1) }

  lemma PagingDefaults(q: Query, key: string)
    requires key == "pageSize" || key == "page"
    requires key !in q || q[key] == "" || q[key] == "0" || Number(Some(q[key])).None?
    ensures key == "pageSize" ==> PageSizeOf(q) == 3
    ensures key == "page" ==> PageOf(q) == 1
  {
    if key in q && q[key] == "0" {
      assert DigitsValue("0") == 10 * DigitsValue("") + 0;
      assert Number(Some(q[key])) == Some(0);
    }
  }

  lemma PagingReadsDigits(q: Query, key: string, n: nat)
    requires key == "pageSize" || key == "page"
    requires n > 0 && key in q && q[key] == NatToString(n)
    ensures key == "pageSize" ==> PageSizeOf(q) == n
    ensures key == "page" ==> PageOf(q) == n
  {
    DigitsValueOfNatToString(n);
  }

  /** An inclusive price range `$gte lo, $lte hi`. */
  datatype Range = Range(lo: int, hi: int)

  /**
   * The product filter after the document layer has cast its bounds to
   * numbers. `None` fields add no constraint.
   */
  datatype Filter = Filter(
    name: Option<string>,
    category: Option<string>,
    brand: Option<string>,
    price: Option<Range>,
    minRating: Option<int>)

  /**
   * The bounds of a price value `a-b`: `Number` of the text before and after
   * the first `-`. `None` when either bound is `NaN` (a missing second part
   * included), which the document layer refuses to cast.
   */
  function PriceRange(v: string): Option<Range> {
    var parts := Split(v, '-');
    var lo := Number(Some(parts[0]));
    var hi := Number(if |parts| > 1 then Some(parts[1]) else None);
    if lo.Some? && hi.Some? then Some(Range(lo.value, hi.value)) else None
  }

  /** A price value without a `-` has no second bound, so it gives no range. */
  lemma PriceWithoutDashHasNoRange(v: string)
    requires '-' !in v
    ensures PriceRange(v).None?
  {
    SplitNoSep(v, '-');
  }

  /** A price value written as two decimal numbers gives exactly those bounds. */
  lemma PriceRangeOfDigits(a: nat, b: nat)
    ensures PriceRange(NatToString(a) + "-" + NatToString(b)) == Some(Range(a, b))
  {
    var sa, sb := NatToString(a), NatToString(b);
    assert '-' !in sa by { assert forall i :: 0 <= i < |sa| ==> IsDigit(sa[i]); }
    assert '-' !in sb by { assert forall i :: 0 <= i < |sb| ==> IsDigit(sb[i]); }
    SplitPair(sa, sb, '-');
    assert sa + "-" + sb == sa + ['-'] + sb;
    DigitsValueOfNatToString(a);
    DigitsValueOfNatToString(b);
  }

  /**
   * The filter built from the query, or `None` when a price or rating bound
   * is `NaN`: the cast fails and the page errors.
   */
  function BuildFilter(q: Query): (r: Option<Filter>)
    ensures r.None? <==>
      || (Active(Text(q, "price")) && PriceRange(Text(q, "price")).None?)
      || (Active(Text(q, "rating")) && Number(Some(Text(q, "rating"))).None?)
  {
    var searchQuery := Text(q, "searchQuery");
    var category := Text(q, "category");
    var brand := Text(q, "brand");
    var price := Text(q, "price");
    var rating := Text(q, "rating");
    var priceRange := if Active(price) then PriceRange(price) else None;
    var minRating := if Active(rating) then Number(Some(rating)) else None;
    if (Active(price) && priceRange.None?) || (Active(rating) && minRating.None?) then None
    else Some(Filter(
      if Active(searchQuery) then Some(searchQuery) else None,
      if Active(category) then Some(category) else None,
      if Active(brand) then Some(brand) else None,
      priceRange,
      minRating))
  }

  /** The document-level meaning of the filter: every present field must hold. */
  predicate Admits(f: Filter, nameMatches: (string, string) -> bool, p: Product) {
    && (f.name.Some? ==> nameMatches(p.name, f.name.value))
    && (f.category.Some? ==> p.category == f.category.value)
    && (f.brand.Some? ==> p.brand == f.brand.value)
    && (f.price.Some? ==> f.price.value.lo as real <= p.price <= f.price.value.hi as real)
    && (f.minRating.Some? ==> p.rating >= f.minRating.value as real)
  }

  /** Each filter field is present exactly when its parameter is active. */
  lemma {:induction false} FilterFieldsFollowParameters(q: Query)
    requires BuildFilter(q).Some?
    ensures var f := BuildFilter(q).value;
      && (f.name.Some? <==> Active(Text(q, "searchQuery")))
      && (f.name.Some? ==> f.name.value == Text(q, "searchQuery"))
      && (f.category.Some? <==> Active(Text(q, "category")))
      && (f.category.Some? ==> f.category.value == Text(q, "category"))
      && (f.brand.Some? <==> Active(Text(q, "brand")))
      && (f.brand.Some? ==> f.brand.value == Text(q, "brand"))
      && (f.price.Some? <==> Active(Text(q, "price")))
      && (f.minRating.Some? <==> Active(Text(q, "rating")))
  {
  }

  /** With every parameter empty, absent or "all" the filter admits every product. */
  lemma InactiveParametersAdmitAll(q: Query, nameMatches: (string, string) -> bool, p: Product)
    requires !Active(Text(q, "searchQuery")) && !Active(Text(q, "category"))
    requires !Active(Text(q, "brand")) && !Active(Text(q, "price")) && !Active(Text(q, "rating"))
    ensures BuildFilter(q).Some? && Admits(BuildFilter(q).value, nameMatches, p)
  {
  }

  /** A rating value `r` admits exactly the products rated `r` or more. */
  lemma RatingFilterIsLowerBound(q: Query, r: nat, nameMatches: (string, string) -> bool, p: Product)
    requires Text(q, "rating") == NatToString(r)
    requires BuildFilter(q).Some?
    ensures var f := BuildFilter(q).value;
      Admits(f, nameMatches, p) <==> Admits(f.(minRating := None), nameMatches, p) && p.rating >= r as real
  {
    DigitsValueOfNatToString(r);
  }

  /** A price value `a-b` admits exactly the products priced from a to b. */
  lemma PriceFilterIsClosedRange(q: Query, a: nat, b: nat, nameMatches: (string, string) -> bool, p: Product)
    requires Text(q, "price") == NatToString(a) + "-" + NatToString(b)
    requires BuildFilter(q).Some?
    ensures var f := BuildFilter(q).value;
      Admits(f, nameMatches, p) <==> Admits(f.(price := None), nameMatches, p) && a as real <= p.price <= b as real
  {
    PriceRangeOfDigits(a, b);
  }

  /** A non-numeric rating cannot be cast: the whole search fails. */
  lemma NonNumericRatingFails(q: Query)
    requires Active(Text(q, "rating")) && Number(Some(Text(q, "rating"))).None?
    ensures BuildFilter(q).None?
  {
  }

  /** The sort parameter chooses the order; anything else sorts by `_id` descending. */
  function SortOrder(sort: string): (o: Order)
    ensures sort == "featured" ==> o == Order(Featured, Descending)
    ensures sort == "lowest" ==> o == Order(Price, Ascending)
    ensures sort == "highest" ==> o == Order(Price, Descending)
    ensures sort == "toprated" ==> o == Order(Rating, Descending)
    ensures sort == "newest" ==> o == Order(CreatedAt, Descending)
    ensures sort !in {"featured", "lowest", "highest", "toprated", "newest"} ==> o == Order(Id, Descending)
  {
    if sort == "featured" then Order(Featured, Descending)
    else if sort == "lowest" then Order(Price, Ascending)
    else if sort == "highest" then Order(Price, Descending)
    else if sort == "toprated" then Order(Rating, Descending)
    else if sort == "newest" then Order(CreatedAt, Descending)
    else Order(Id, Descending)
  }

  /**
   * `Math.ceil(count / size)` for a non-zero size. `CeilDivBounds` and
   * `CeilDivOfNegativeSize` show it is the ceiling for either sign.
   */
  function CeilDiv(count: nat, size: int): int
    requires size != 0
  {
    if size > 0 then (count + size - 1) / size else -(count / -size)
  }

  /**
   * A negative page size (`pageSize=-3`, say) still gives the ceiling of the
   * negative quotient: the least integer at or above `count / size`.
   */
  lemma CeilDivOfNegativeSize(count: nat, size: int)
    requires size < 0
    ensures CeilDiv(count, size) * size <= count < (CeilDiv(count, size) - 1) * size
  {
    var n := -size;
    var k := count / n;
    assert count == k * n + count % n;
    assert CeilDiv(count, size) == -k;
    assert -k * size == k * n;
    assert (-k - 1) * size == k * n + n;
  }

  /** The props the page renders. */
  datatype SearchProps = SearchProps(
    products: seq<Product>,
    countProducts: nat,
    page: int,
    pages: int,
    categories: set<string>,
    brands: set<string>)

  /** The catalogue products the filter admits, in collection order. */
  function Matching(catalog: seq<Product>, f: Filter, nameMatches: (string, string) -> bool): (r: seq<Product>)
    ensures forall p :: p in r <==> p in catalog && Admits(f, nameMatches, p)
    ensures forall p :: multiset(r)[p] == if Admits(f, nameMatches, p) then multiset(catalog)[p] else 0
  {
    Where(catalog, (p: Product) => Admits(f, nameMatches, p))
  }

  /**
   * The server side of the page. `None` is the error page: a bound the
   * document layer cannot cast, or a negative skip.
   */
  function GetServerSideProps(catalog: seq<Product>, q: Query, nameMatches: (string, string) -> bool): (r: Option<SearchProps>)
    ensures r.None? <==> BuildFilter(q).None? || PageSizeOf(q) * (PageOf(q) - 1) < 0
    ensures r.Some? ==> r.value.page == PageOf(q)
    ensures r.Some? ==> r.value.categories == (set p | p in catalog :: p.category)
    ensures r.Some? ==> r.value.brands == (set p | p in catalog :: p.brand)
  {
    var pageSize := PageSizeOf(q);
    var page := PageOf(q);
    var skip := pageSize * (page - 1);
    var filter := BuildFilter(q);
    if filter.None? || skip < 0 then None
    else
      var matching := Matching(catalog, filter.value, nameMatches);
      var ordered := Sort(SortOrder(Text(q, "sort")), matching);
      Some(SearchProps(
        Window(ordered, skip, Abs(pageSize)),
        |matching|,
        page,
        CeilDiv(|matching|, pageSize),
        set p | p in catalog :: p.category,
        set p | p in catalog :: p.brand))
  }

  /**
   * What a rendered search page holds: the sorted matches with the first
   * `pageSize * (page - 1)` dropped and cut to a page, so only products the
   * filter admits, sorted by the chosen order and at most a page of them;
   * counted with the same filter, and enough pages to show every match.
   */
  lemma {:induction false} SearchPageContents(catalog: seq<Product>, q: Query, nameMatches: (string, string) -> bool)
    requires GetServerSideProps(catalog, q, nameMatches).Some?
    ensures var props := GetServerSideProps(catalog, q, nameMatches).value;
      props.products == Window(Sort(SortOrder(Text(q, "sort")), Matching(catalog, BuildFilter(q).value, nameMatches)),
                               PageSizeOf(q) * (PageOf(q) - 1), Abs(PageSizeOf(q)))
    ensures var props := GetServerSideProps(catalog, q, nameMatches).value;
      forall p :: p in props.products ==> p in catalog && Admits(BuildFilter(q).value, nameMatches, p)
    ensures var props := GetServerSideProps(catalog, q, nameMatches).value;
      SortedBy(SortOrder(Text(q, "sort")), props.products)
    ensures var props := GetServerSideProps(catalog, q, nameMatches).value;
      |props.products| <= Min(Abs(PageSizeOf(q)), props.countProducts)
    ensures var props := GetServerSideProps(catalog, q, nameMatches).value;
      props.countProducts == |Matching(catalog, BuildFilter(q).value, nameMatches)|
    ensures var props := GetServerSideProps(catalog, q, nameMatches).value;
      PageSizeOf(q) > 0 ==> props.pages * PageSizeOf(q) >= props.countProducts
    ensures var props := GetServerSideProps(catalog, q, nameMatches).value;
      PageSizeOf(q) > 0 && props.countProducts > 0 ==> (props.pages - 1) * PageSizeOf(q) < props.countProducts
  {
    var pageSize := PageSizeOf(q);
    PageIsTheWindow(catalog, q, nameMatches);
    PageCounts(catalog, q, nameMatches);
    WindowOfMatches(catalog, BuildFilter(q).value, nameMatches, SortOrder(Text(q, "sort")),
                    pageSize * (PageOf(q) - 1), Abs(pageSize));
    if pageSize > 0 {
      CeilDivBounds(|Matching(catalog, BuildFilter(q).value, nameMatches)|, pageSize);
    }
  }

  /** A page of the sorted matches holds only admitted catalogue products, sorted, at most `limit` and at most the matches. */
  lemma WindowOfMatches(catalog: seq<Product>, f: Filter, nameMatches: (string, string) -> bool, o: Order, skip: nat, limit: nat)
    ensures var matching := Matching(catalog, f, nameMatches);
      var w := Window(Sort(o, matching), skip, limit);
      && (forall p :: p in w ==> p in catalog && Admits(f, nameMatches, p))
      && SortedBy(o, w)
      && |w| <= Min(limit, |matching|)
  {
    WindowOfSort(o, Matching(catalog, f, nameMatches), skip, limit);
  }

  /** The count is the number of matches, and the page count is its ceiling quotient by the page size. */
  lemma PageCounts(catalog: seq<Product>, q: Query, nameMatches: (string, string) -> bool)
    requires GetServerSideProps(catalog, q, nameMatches).Some?
    ensures var props := GetServerSideProps(catalog, q, nameMatches).value;
      var n := |Matching(catalog, BuildFilter(q).value, nameMatches)|;
      props.countProducts == n && props.pages == CeilDiv(n, PageSizeOf(q))
  {
  }

  /** The props' products are the sorted matches, `skip(pageSize * (page - 1))`, `limit(pageSize)`. */
  lemma PageIsTheWindow(catalog: seq<Product>, q: Query, nameMatches: (string, string) -> bool)
    requires GetServerSideProps(catalog, q, nameMatches).Some?
    ensures GetServerSideProps(catalog, q, nameMatches).value.products
      == Window(Sort(SortOrder(Text(q, "sort")), Matching(catalog, BuildFilter(q).value, nameMatches)),
                PageSizeOf(q) * (PageOf(q) - 1), Abs(PageSizeOf(q)))
  {
  }

  lemma CeilDivBounds(count: nat, size: int)
    requires size > 0
    ensures CeilDiv(count, size) * size >= count
    ensures count > 0 ==> (CeilDiv(count, size) - 1) * size < count
    ensures count == 0 ==> CeilDiv(count, size) == 0
  {
    var k := CeilDiv(count, size);
    assert k == (count + size - 1) / size;
    var r := (count + size - 1) % size;
    assert count + size - 1 == k * size + r;
  }

  /**
   * Paging covers every match: with a positive page size, the match at
   * position i of the ordered list is item i % size of page i / size + 1,
   * and that page number is at most the page count.
   */
  lemma {:induction false} EveryMatchIsOnItsPage(ordered: seq<Product>, size: int, i: nat)
    requires size > 0 && i < |ordered|
    ensures var page := i / size + 1;
      && page <= CeilDiv(|ordered|, size)
      && size * (page - 1) >= 0
      && i % size < |Window(ordered, size * (page - 1), size)|
      && Window(ordered, size * (page - 1), size)[i % size] == ordered[i]
  {
    var n := |ordered|;
    var qi, ri := i / size, i % size;
    assert i == size * qi + ri && 0 <= ri < size;
    assert qi >= 0;
    var skip := size * qi;
    assert 0 <= skip <= i;
    CeilDivBounds(n, size);
    var k := CeilDiv(n, size);
    assert k * size >= n > i >= skip;
    assert skip + ri == i;
  }

  /** A query whose page and page size make the skip negative fails. */
  lemma NegativeSkipFails(catalog: seq<Product>, q: Query, nameMatches: (string, string) -> bool)
    requires "page" in q && q["page"] == "-1"
    requires "pageSize" !in q
    ensures GetServerSideProps(catalog, q, nameMatches).None?
  {
    assert Number(Some("-1")) == Some(-1) by {
      assert !AllDigits("-1") by { assert !IsDigit("-1"[0]); }
      assert DigitsValue("1") == 1;
    }
  }

  // ---------------------------------------------------------------------
  // The price options offered by the page's price selector.

  datatype PriceOption = PriceOption(name: string, value: string)

  /** The options as the page lists them: the third value reads `201-100`. */
  const PriceOptionsAsWritten: seq<PriceOption> := [
    PriceOption("$1 to $50", "1-50"),
    PriceOption("$51 to $200", "51-200"),
    PriceOption("$201 to $1000", "201-100")
  ]

  /** The options as their labels describe them. */
  const PriceOptions: seq<PriceOption> := [
    PriceOption("$1 to $50", "1-50"),
    PriceOption("$51 to $200", "51-200"),
    PriceOption("$201 to $1000", "201-1000")
  ]

  /** Choosing "$201 to $1000" as written admits no product at all. */
  lemma ThirdPriceOptionAdmitsNothing(nameMatches: (string, string) -> bool, f: Filter, p: Product)
    requires f.price == PriceRange(PriceOptionsAsWritten[2].value)
    ensures !Admits(f, nameMatches, p)
  {
    assert PriceOptionsAsWritten[2].value == "201" + "-" + "100";
    PriceRangeOfDigitStrings("201", "100");
    DigitsValueOfLiterals();
  }

  /** `Number` of the two halves of `a-b` when both are digit strings. */
  lemma PriceRangeOfDigitStrings(a: string, b: string)
    requires |a| > 0 && AllDigits(a) && |b| > 0 && AllDigits(b)
    ensures PriceRange(a + "-" + b) == Some(Range(DigitsValue(a), DigitsValue(b)))
  {
    assert '-' !in a by { assert forall i :: 0 <= i < |a| ==> IsDigit(a[i]); }
    assert '-' !in b by { assert forall i :: 0 <= i < |b| ==> IsDigit(b[i]); }
    SplitPair(a, b, '-');
    assert a + "-" + b == a + ['-'] + b;
  }

  /** The values of the digit strings the price options use. */
  lemma DigitsValueOfLiterals()
    ensures DigitsValue("1") == 1 && DigitsValue("50") == 50 && DigitsValue("51") == 51
    ensures DigitsValue("100") == 100 && DigitsValue("200") == 200
    ensures DigitsValue("201") == 201 && DigitsValue("1000") == 1000
  {
    assert "50"[..1] == "5" && "51"[..1] == "5" && "10"[..1] == "1" && "20"[..1] == "2";
    assert "100"[..2] == "10" && "200"[..2] == "20" && "201"[..2] == "20" && "1000"[..3] == "100";
    assert "1"[..0] == "" && "5"[..0] == "" && "2"[..0] == "";
  }

  /** Each corrected option's bounds are the prices its label names. */
  lemma PriceOptionsMatchTheirLabels(i: nat)
    requires i < |PriceOptions|
    ensures PriceRange(PriceOptions[i].value) == Some(Range([1, 51, 201][i], [50, 200, 1000][i]))
  {
    DigitsValueOfLiterals();
    if i == 0 {
      assert PriceOptions[0].value == "1" + "-" + "50";
      PriceRangeOfDigitStrings("1", "50");
    } else if i == 1 {
      assert PriceOptions[1].value == "51" + "-" + "200";
      PriceRangeOfDigitStrings("51", "200");
    } else {
      assert PriceOptions[2].value == "201" + "-" + "1000";
      PriceRangeOfDigitStrings("201", "1000");
    }
  }

  // ---------------------------------------------------------------------
  // The client side: `filterSearch` and the parameters the page displays.

  /** The argument of `filterSearch`: each field optional. */
  datatype FilterData = FilterData(
    page: Option<int>,
    searchQuery: Option<string>,
    sort: Option<string>,
    category: Option<string>,
    brand: Option<string>,
    price: Option<string>,
    rating: Option<string>,
    min: Option<string>,
    max: Option<string>)

  const NoFilterData := FilterData(None, None, None, None, None, None, None, None, None)

  /** `${data.page}` when `data.page` is truthy, nothing otherwise. */
  function PageText(page: Option<int>): (r: Option<string>)
    ensures TruthyText(r) <==> page.Some? && page.value != 0
  {
    if page.Some? && page.value != 0 then Some(IntToString(page.value)) else None
  }

  /** The one-entry map `{key: v}` when `v` is truthy, empty otherwise. */
  function Only(key: string, v: Option<string>): map<string, string> {
    if TruthyText(v) then map[key := v.value] else map[]
  }

  /** The parameters `filterSearch` writes for the given data: its truthy fields. */
  function Written(d: FilterData): map<string, string> {
    Only("page", PageText(d.page)) + Only("searchQuery", d.searchQuery) + Only("sort", d.sort)
    + Only("category", d.category) + Only("brand", d.brand) + Only("price", d.price)
    + Only("rating", d.rating)
  }

  /** The seven parameters `filterSearch` can write. */
  const WrittenKeys := {"page", "searchQuery", "sort", "category", "brand", "price", "rating"}

  function SetIfTruthy(q: Query, key: string, v: Option<string>): Query {
    if TruthyText(v) then q[key := v.value] else q
  }

  /**
   * The query after `filterSearch(d)`. The `min` and `max` branches are
   * expressions whose value is discarded, so they never write.
   */
  function ApplyFilterData(q: Query, d: FilterData): (r: Query)
    ensures forall k :: k !in WrittenKeys ==> (k in r <==> k in q) && (k in q ==> r[k] == q[k])
  {
    var q1 := SetIfTruthy(q, "page", PageText(d.page));
    var q2 := SetIfTruthy(q1, "searchQuery", d.searchQuery);
    var q3 := SetIfTruthy(q2, "sort", d.sort);
    var q4 := SetIfTruthy(q3, "category", d.category);
    var q5 := SetIfTruthy(q4, "brand", d.brand);
    var q6 := SetIfTruthy(q5, "price", d.price);
    SetIfTruthy(q6, "rating", d.rating)
  }

  lemma SetIsMerge(q: Query, key: string, v: Option<string>)
    ensures SetIfTruthy(q, key, v) == q + Only(key, v)
  {
  }

  lemma MergeAssociates(a: Query, b: Query, c: Query)
    ensures (a + b) + c == a + (b + c)
  {
  }

  /**
   * `filterSearch` overrides the query with exactly the truthy fields of its
   * argument and keeps every other parameter.
   */
  lemma {:induction false} FilterSearchMergesTruthyFields(q: Query, d: FilterData)
    ensures ApplyFilterData(q, d) == q + Written(d)
  {
    var o1, o2 := Only("page", PageText(d.page)), Only("searchQuery", d.searchQuery);
    var o3, o4 := Only("sort", d.sort), Only("category", d.category);
    var o5, o6, o7 := Only("brand", d.brand), Only("price", d.price), Only("rating", d.rating);
    SetIsMerge(q, "page", PageText(d.page));
    SetIsMerge(q + o1, "searchQuery", d.searchQuery);
    SetIsMerge(q + o1 + o2, "sort", d.sort);
    SetIsMerge(q + o1 + o2 + o3, "category", d.category);
    SetIsMerge(q + o1 + o2 + o3 + o4, "brand", d.brand);
    SetIsMerge(q + o1 + o2 + o3 + o4 + o5, "price", d.price);
    SetIsMerge(q + o1 + o2 + o3 + o4 + o5 + o6, "rating", d.rating);
    MergeAssociates(q, o1, o2);
    MergeAssociates(q, o1 + o2, o3);
    MergeAssociates(q, o1 + o2 + o3, o4);
    MergeAssociates(q, o1 + o2 + o3 + o4, o5);
    MergeAssociates(q, o1 + o2 + o3 + o4 + o5, o6);
    MergeAssociates(q, o1 + o2 + o3 + o4 + o5 + o6, o7);
  }

  /** The parameter names the page reads and writes are distinct strings. */
  lemma ParameterNamesDistinct()
    ensures "page" != "searchQuery" && "page" != "sort" && "page" != "category" && "page" != "brand"
    ensures "page" != "price" && "page" != "rating" && "page" != "min" && "page" != "max"
    ensures "page" != "query" && "searchQuery" != "sort" && "searchQuery" != "category" && "searchQuery" != "brand"
    ensures "searchQuery" != "price" && "searchQuery" != "rating" && "searchQuery" != "min" && "searchQuery" != "max"
    ensures "searchQuery" != "query" && "sort" != "category" && "sort" != "brand" && "sort" != "price"
    ensures "sort" != "rating" && "sort" != "min" && "sort" != "max" && "sort" != "query"
    ensures "category" != "brand" && "category" != "price" && "category" != "rating" && "category" != "min"
    ensures "category" != "max" && "category" != "query" && "brand" != "price" && "brand" != "rating"
    ensures "brand" != "min" && "brand" != "max" && "brand" != "query" && "price" != "rating"
    ensures "price" != "min" && "price" != "max" && "price" != "query" && "rating" != "min"
    ensures "rating" != "max" && "rating" != "query" && "min" != "max" && "min" != "query"
    ensures "max" != "query"
  {
    assert "page"[0] != "sort"[0];
    assert "brand"[0] != "price"[0];
    assert "brand"[0] != "query"[0];
    assert "price"[0] != "query"[0];
    assert "min"[1] != "max"[1];
  }

  /** `min` and `max` have no effect on the query. */
  lemma MinMaxAreIgnored(q: Query, d: FilterData)
    ensures ApplyFilterData(q, d) == ApplyFilterData(q, d.(min := None, max := None))
    ensures "min" in ApplyFilterData(q, d) <==> "min" in q
    ensures "max" in ApplyFilterData(q, d) <==> "max" in q
    ensures "min" in q ==> ApplyFilterData(q, d)["min"] == q["min"]
    ensures "max" in q ==> ApplyFilterData(q, d)["max"] == q["max"]
  {
    ParameterNamesDistinct();
    FilterSearchMergesTruthyFields(q, d);
  }

  /** The search text the page shows: parameter `query`, "all" when absent. */
  function DisplayedQuery(q: Query): string {
    if "query" in q then q["query"] else "all"
  }

  /**
   * The page displays `query`, but the server filters on `searchQuery`:
   * a search written through `filterSearch` reaches the server and never
   * changes what the page displays.
   */
  lemma SearchTextIsNeverDisplayed(q: Query, s: string)
    requires Active(s)
    ensures var r := ApplyFilterData(q, NoFilterData.(searchQuery := Some(s)));
      && DisplayedQuery(r) == DisplayedQuery(q)
      && (BuildFilter(r).Some? ==> BuildFilter(r).value.name == Some(s))
  {
    var r := ApplyFilterData(q, NoFilterData.(searchQuery := Some(s)));
    assert Text(r, "searchQuery") == s;
    if BuildFilter(r).Some? {
      FilterFieldsFollowParameters(r);
    }
  }

  /** Choosing a category in the selector narrows the server's filter to it. */
  lemma ChosenCategoryReachesFilter(q: Query, c: string)
    requires BuildFilter(q).Some? && c != ""
    ensures var r := ApplyFilterData(q, NoFilterData.(category := Some(c)));
      && BuildFilter(r).Some?
      && BuildFilter(r).value.category == (if c == "all" then None else Some(c))
  {
    var r := ApplyFilterData(q, NoFilterData.(category := Some(c)));
    assert Text(r, "price") == Text(q, "price") && Text(r, "rating") == Text(q, "rating");
    FilterFieldsFollowParameters(r);
  }

  /** A navigation: a path with its query. */
  datatype Location = Location(pathname: string, query: Query)

  /** The router: its path, its query object (mutated in place) and the pushed locations. */
  class Router {
    const pathname: string
    var query: Query
    var pushed: seq<Location>

    constructor (pathname: string, query: Query)
      ensures this.pathname == pathname && this.query == query && pushed == []
    {
      this.pathname := pathname;
      this.query := query;
      pushed := [];
    }

    /** `filterSearch(data)`: update the query field by field, then push it. */
    method FilterSearch(data: FilterData)
      modifies this
      ensures query == ApplyFilterData(old(query), data)
      ensures query == old(query) + Written(data)
      ensures pushed == old(pushed) + [Location(pathname, query)]
    {
      FilterSearchMergesTruthyFields(query, data);
      var q := query;
      if data.page.Some? && data.page.value != 0 {
        q := q["page" := IntToString(data.page.value)];
      }
      if TruthyText(data.searchQuery) { q := q["searchQuery" := data.searchQuery.value]; }
      if TruthyText(data.sort) { q := q["sort" := data.sort.value]; }
      if TruthyText(data.category) { q := q["category" := data.category.value]; }
      if TruthyText(data.brand) { q := q["brand" := data.brand.value]; }
      if TruthyText(data.price) { q := q["price" := data.price.value]; }
      if TruthyText(data.rating) { q := q["rating" := data.rating.value]; }
      // The `min` and `max` branches compute a value and discard it.
      query := q;
      pushed := pushed + [Location(pathname, query)];
    }
  }
}
