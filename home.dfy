/**
 * The home page's server-side selection: the six best-rated products for
 * "Popular Products" and up to three featured products for the carousel.
 */
module Home {
  import opened Common
  import opened Types
  import opened ProductQuery

  const TopRatedLimit := 6
  const FeaturedLimit := 3

  const ByRatingDesc := Order(Rating, Descending)

  /** `find({}).sort({ rating: -1 }).limit(6)`. */
  function TopRated(catalog: seq<Product>): (r: seq<Product>)
    ensures |r| <= TopRatedLimit && |r| <= |catalog|
    ensures forall i, j :: 0 <= i < j < |r| ==> r[i].rating >= r[j].rating
    ensures forall p :: p in r ==> p in catalog
  {
    WindowOfSort(ByRatingDesc, catalog, 0, TopRatedLimit);
    var r := Window(Sort(ByRatingDesc, catalog), 0, TopRatedLimit);
    assert forall i, j :: 0 <= i < j < |r| ==> Before(ByRatingDesc, r[i], r[j]);
    r
  }

  /**
   * No product left out of the top-rated list is rated higher than one in
   * it, and a product is left out only when the list is full.
   */
  lemma {:induction false} TopRatedAreTheBest(catalog: seq<Product>, p: Product)
    requires p in catalog && p !in TopRated(catalog)
    ensures |TopRated(catalog)| == TopRatedLimit
    ensures forall q :: q in TopRated(catalog) ==> q.rating >= p.rating
  {
    var sorted := Sort(ByRatingDesc, catalog);
    var r := TopRated(catalog);
    assert |sorted| == |catalog| by { assert |multiset(sorted)| == |multiset(catalog)|; }
    assert p in sorted by { assert p in multiset(catalog); }
    var k :| 0 <= k < |sorted| && sorted[k] == p;
    assert k >= TopRatedLimit;
    forall q | q in r ensures q.rating >= p.rating {
      var i :| 0 <= i < |r| && r[i] == q;
      assert q == sorted[i] && Before(ByRatingDesc, sorted[i], sorted[k]);
    }
  }

  /** `find({ isFeatured: true }).limit(3)`, in collection order. */
  function Featured(catalog: seq<Product>): (r: seq<Product>)
    ensures |r| <= FeaturedLimit
    ensures forall p :: p in r ==> p in catalog && p.isFeatured
  {
    var all := Where(catalog, (p: Product) => p.isFeatured);
    all[..Min(FeaturedLimit, |all|)]
  }

  /** A featured product is left out of the carousel only when the carousel is full. */
  lemma FeaturedLeavesOutOnlyWhenFull(catalog: seq<Product>, p: Product)
    requires p in catalog && p.isFeatured && p !in Featured(catalog)
    ensures |Featured(catalog)| == FeaturedLimit
  {
    var all := Where(catalog, (p: Product) => p.isFeatured);
    assert p in all;
  }

  /** The props `getServerSideProps` hands to the home page. */
  datatype HomeProps = HomeProps(featuredProducts: seq<Product>, topRatedProducts: seq<Product>)

  function GetServerSideProps(catalog: seq<Product>): (props: HomeProps)
    ensures |props.featuredProducts| <= FeaturedLimit && |props.topRatedProducts| <= TopRatedLimit
    ensures forall p :: p in props.featuredProducts ==> p.isFeatured
  {
    HomeProps(Featured(catalog), TopRated(catalog))
  }
}
