/**
 * The client's list of businesses: the search box, the category buttons, and the price
 * and distance sliders, with the filter that keeps a business only when it passes all
 * four tests. The distance between two points is a parameter of the model.
 */
module BusinessList {
  import opened Common
  import opened Seqs
  import opened Texts
  import opened Domain

  /** The filters state: the price slider's two ends, the distance slider and the
      selected category (`'all'` for every category). */
  datatype Criteria = Criteria(minPrice: real, maxPrice: real, maxDistance: real, category: string)

  /** The filters a page starts with. */
  const Initial: Criteria := Criteria(0.0, 500.0, 20.0, "all")

  /** The products of one business. */
  function OfBusiness(businessId: string): Product -> bool {
    (p: Product) => p.businessId == businessId
  }

  function ProductPrice(p: Product): real {
    p.price
  }

  /** The business's average product price, 0 with no products. */
  function AveragePrice(b: Business, products: seq<Product>): real {
    var own := Filter(products, OfBusiness(b.id));
    Average(Sum(own, ProductPrice), |own|)
  }

  /** The search test: the lowercased term occurs in the lowercased name, in the
      category when there is a non-empty one, or in some product name of the business. */
  predicate SearchHit(b: Business, products: seq<Product>, term: string) {
    var t := Lower(term);
    || Contains(Lower(b.name), t)
    || (Filled(b.category) && Contains(Lower(b.category.value), t))
    || (exists p :: p in products && p.businessId == b.id && Contains(Lower(p.name), t))
  }

  /** The distance from the user to the business; `None` stands for `Infinity`, the
      value when either location is unknown. */
  function DistanceTo(b: Business, user: Option<LatLng>, distance: (LatLng, LatLng) -> real): (d: Option<real>)
    ensures d.Some? <==> user.Some? && b.location.Some?
  {
    if user.Some? && b.location.Some? then Some(distance(user.value, b.location.value)) else None
  }

  /** The four tests of `filteredBusinesses`. */
  predicate Matches(b: Business, products: seq<Product>, term: string, f: Criteria,
                    user: Option<LatLng>, distance: (LatLng, LatLng) -> real) {
    var d := DistanceTo(b, user, distance);
    && SearchHit(b, products, term)
    && (f.category == "all" || b.category == Some(f.category))
    && f.minPrice <= AveragePrice(b, products) <= f.maxPrice
    && d.Some? && d.value <= f.maxDistance
  }

  function MatchesOf(products: seq<Product>, term: string, f: Criteria,
                     user: Option<LatLng>, distance: (LatLng, LatLng) -> real): Business -> bool {
    (b: Business) => Matches(b, products, term, f, user, distance)
  }

  /** `filteredBusinesses`: the businesses that pass every test, in the order they are
      stored. */
  function Filtered(businesses: seq<Business>, products: seq<Product>, term: string, f: Criteria,
                    user: Option<LatLng>, distance: (LatLng, LatLng) -> real): (r: seq<Business>)
    ensures Subsequence(r, businesses)
    ensures forall b :: b in r <==>
      && b in businesses
      && SearchHit(b, products, term)
      && (f.category == "all" || b.category == Some(f.category))
      && f.minPrice <= AveragePrice(b, products) <= f.maxPrice
      && user.Some? && b.location.Some? && distance(user.value, b.location.value) <= f.maxDistance
  {
    FilterIsSubsequence(businesses, MatchesOf(products, term, f, user, distance));
    Filter(businesses, MatchesOf(products, term, f, user, distance))
  }

  /** An empty search term, the category `'all'`, an unbounded price range and an
      unbounded distance keep every business that has a location, once the user's
      location is known. */
  lemma EmptySearchKeepsAll(businesses: seq<Business>, products: seq<Product>, f: Criteria,
                            user: LatLng, distance: (LatLng, LatLng) -> real)
    requires f.category == "all"
    requires forall b :: b in businesses ==>
      && b.location.Some?
      && f.minPrice <= AveragePrice(b, products) <= f.maxPrice
      && distance(user, b.location.value) <= f.maxDistance
    ensures Filtered(businesses, products, "", f, Some(user), distance) == businesses
  {
    forall b | b in businesses
      ensures Matches(b, products, "", f, Some(user), distance)
    {
      assert Lower("") == "";
      assert Contains(Lower(b.name), "");
    }
    FilterKeepsAll(businesses, MatchesOf(products, "", f, Some(user), distance));
  }

  /** Without the user's location no business is shown. */
  lemma NoLocationNoBusinesses(businesses: seq<Business>, products: seq<Product>, term: string, f: Criteria,
                               distance: (LatLng, LatLng) -> real)
    ensures Filtered(businesses, products, term, f, None, distance) == []
  {
    FilterKeepsNone(businesses, MatchesOf(products, term, f, None, distance));
  }

  /** A category other than `'all'` keeps only businesses of exactly that category. */
  lemma CategoryIsExact(businesses: seq<Business>, products: seq<Product>, term: string, f: Criteria,
                        user: Option<LatLng>, distance: (LatLng, LatLng) -> real)
    requires f.category != "all"
    ensures forall b :: b in Filtered(businesses, products, term, f, user, distance) ==> b.category == Some(f.category)
  {
  }

  /** A business without products has the average price 0: it is kept only when the
      price range reaches down to 0. */
  lemma NoProductsPricedZero(b: Business, products: seq<Product>)
    requires forall p :: p in products ==> p.businessId != b.id
    ensures AveragePrice(b, products) == 0.0
  {
    FilterKeepsNone(products, OfBusiness(b.id));
  }

  /** The page's filter state. */
  class FilterPanel {
    var searchTerm: string
    var filters: Criteria

    constructor()
      ensures searchTerm == "" && filters == Initial
    {
      searchTerm := "";
      filters := Initial;
    }

    /** Typing in the search box. */
    method SetSearchTerm(term: string)
      modifies this
      ensures searchTerm == term && filters == old(filters)
    {
      searchTerm := term;
    }

    /** `handlePriceChange(value)`: only a two-element value sets the range. */
    method PriceChange(value: seq<real>)
      modifies this
      ensures searchTerm == old(searchTerm)
      ensures |value| == 2 ==> filters == old(filters).(minPrice := value[0], maxPrice := value[1])
      ensures |value| != 2 ==> filters == old(filters)
    {
      if |value| == 2 {
        filters := filters.(minPrice := value[0], maxPrice := value[1]);
      }
    }

    /** `handleDistanceChange(value)`: only a one-element value sets the distance. */
    method DistanceChange(value: seq<real>)
      modifies this
      ensures searchTerm == old(searchTerm)
      ensures |value| == 1 ==> filters == old(filters).(maxDistance := value[0])
      ensures |value| != 1 ==> filters == old(filters)
    {
      if |value| == 1 {
        filters := filters.(maxDistance := value[0]);
      }
    }

    /** A category button. */
    method SelectCategory(category: string)
      modifies this
      ensures searchTerm == old(searchTerm)
      ensures filters == old(filters).(category := category)
    {
      filters := filters.(category := category);
    }

    /** The list the page shows for the current state. */
    function Shown(businesses: seq<Business>, products: seq<Product>, user: Option<LatLng>,
                   distance: (LatLng, LatLng) -> real): (r: seq<Business>)
      reads this
      ensures Subsequence(r, businesses)
      ensures forall b :: b in r ==> Matches(b, products, searchTerm, filters, user, distance)
      ensures forall b :: b in businesses && Matches(b, products, searchTerm, filters, user, distance) ==> b in r
    {
      Filtered(businesses, products, searchTerm, filters, user, distance)
    }
  }
}
