/**
 * The public home page: the carousel whose arrows step through its items and wrap
 * around at both ends, the business search, the five featured products, and the
 * promotion images of every business.
 */
module HomePage {
  import opened Common
  import opened Seqs
  import opened Texts
  import opened Domain
  import BusinessList
  import OrderHistory

  /** `handleNext`: the last index goes back to the first. */
  function Next(i: int, n: nat): int {
    if i == n - 1 then 0 else i + 1
  }

  /** `handlePrev`: the first index goes on to the last. */
  function Prev(i: int, n: nat): int {
    if i == 0 then n - 1 else i - 1
  }

  /** Both arrows stay among the items and agree with counting modulo the number of
      items. */
  lemma StepsAreModular(i: int, n: nat)
    requires 0 <= i < n
    ensures 0 <= Next(i, n) < n && Next(i, n) == (i + 1) % n
    ensures 0 <= Prev(i, n) < n && Prev(i, n) == (i - 1 + n) % n
  {
  }

  /** Each arrow undoes the other. */
  lemma PrevUndoesNext(i: int, n: nat)
    requires 0 <= i < n
    ensures Prev(Next(i, n), n) == i
    ensures Next(Prev(i, n), n) == i
  {
  }

  /** `k` presses of the right arrow. */
  function NextTimes(i: int, n: nat, k: nat): int
    decreases k
  {
    if k == 0 then i else Next(NextTimes(i, n, k - 1), n)
  }

  /** `k` presses of the right arrow move `k` places round the circle, so `n` presses
      come back to where they started. */
  lemma {:induction false} NextTimesIsModular(i: int, n: nat, k: nat)
    requires 0 <= i < n
    ensures NextTimes(i, n, k) == (i + k) % n
    decreases k
  {
    if k > 0 {
      NextTimesIsModular(i, n, k - 1);
      StepsAreModular((i + k - 1) % n, n);
      ModuloStep(i + k - 1, n);
    }
  }

  lemma ModuloStep(x: int, n: nat)
    requires n > 0
    ensures (x % n + 1) % n == (x + 1) % n
  {
    if x % n + 1 < n {
      ModuloUnique(x + 1, x / n, x % n + 1, n);
      ModuloUnique(x % n + 1, 0, x % n + 1, n);
    } else {
      ModuloUnique(x + 1, x / n + 1, 0, n);
    }
  }

  /** The remainder is the one value in `[0, n)` that differs from `x` by a multiple of
      `n`. */
  lemma ModuloUnique(x: int, a: int, r: int, n: nat)
    requires n > 0 && 0 <= r < n && x == a * n + r
    ensures x % n == r
  {
    var k := a - x / n;
    assert k * n == x % n - r;
    SmallMultiple(k, n);
  }

  lemma SmallMultiple(k: int, n: int)
    requires n > 0 && -n < k * n < n
    ensures k == 0
  {
  }

  /** A full round of presses comes back to the first item. */
  lemma FullRound(i: int, n: nat)
    requires 0 <= i < n
    ensures NextTimes(i, n, n) == i
  {
    NextTimesIsModular(i, n, n);
    ModuloUnique(i + n, 1, i, n);
  }

  /** The carousel's state over a fixed list of `size` items. */
  class Carousel {
    const size: nat
    var index: int

    /** With items, the index points at one of them. */
    predicate Valid()
      reads this
    {
      size > 0 ==> 0 <= index < size
    }

    constructor(n: nat)
      ensures size == n && index == 0 && Valid()
    {
      size := n;
      index := 0;
    }

    method HandleNext()
      requires Valid()
      modifies this
      ensures Valid()
      ensures index == Next(old(index), size)
      ensures size > 0 ==> index == (old(index) + 1) % size
    {
      if size > 0 {
        StepsAreModular(index, size);
      }
      index := Next(index, size);
    }

    method HandlePrev()
      requires Valid()
      modifies this
      ensures Valid()
      ensures index == Prev(old(index), size)
      ensures size > 0 ==> index == (old(index) - 1 + size) % size
    {
      if size > 0 {
        StepsAreModular(index, size);
      }
      index := Prev(index, size);
    }

    /** Nothing is drawn without items. */
    predicate Renders()
      reads this
    {
      size > 0
    }

    /** The arrows are drawn only with more than one item. */
    predicate ShowsArrows()
      reads this
    {
      size > 1
    }
  }

  /** The home page's search test: the lowercased term occurs in the lowercased name
      or in a non-empty category. Products are not searched here. */
  predicate HomeMatch(b: Business, term: string) {
    var t := Lower(term);
    Contains(Lower(b.name), t) || (Filled(b.category) && Contains(Lower(b.category.value), t))
  }

  function HomeMatchOf(term: string): Business -> bool {
    (b: Business) => HomeMatch(b, term)
  }

  /** `filteredBusinesses` of the home page: the matching businesses in stored order. */
  function HomeFiltered(businesses: seq<Business>, term: string): (r: seq<Business>)
    ensures Subsequence(r, businesses)
    ensures forall b :: b in r <==> (b in businesses
      && (Contains(Lower(b.name), Lower(term)) || (Filled(b.category) && Contains(Lower(b.category.value), Lower(term)))))
  {
    FilterIsSubsequence(businesses, HomeMatchOf(term));
    Filter(businesses, HomeMatchOf(term))
  }

  /** The empty search keeps every business. */
  lemma EmptyTermKeepsAll(businesses: seq<Business>)
    ensures HomeFiltered(businesses, "") == businesses
  {
    forall b | b in businesses
      ensures HomeMatch(b, "")
    {
      assert Lower("") == "";
      assert Contains(Lower(b.name), "");
    }
    FilterKeepsAll(businesses, HomeMatchOf(""));
  }

  /** Whatever the home search finds, the business list's search finds too. */
  lemma HomeMatchIsSearchHit(b: Business, products: seq<Product>, term: string)
    requires HomeMatch(b, term)
    ensures BusinessList.SearchHit(b, products, term)
  {
  }

  /** A featured product with the name of its business. */
  datatype Featured = Featured(product: Product, businessName: string)

  /** The label of a product's business: the name of the first business with its id,
      or "Negocio Desconocido". */
  function BusinessOf(businesses: seq<Business>, p: Product): (name: string)
    ensures (forall b :: b in businesses ==> b.id != p.businessId) ==> name == "Negocio Desconocido"
    ensures name == "Negocio Desconocido" || exists b :: b in businesses && b.id == p.businessId && b.name == name
    ensures var f := Find(businesses, OwnerOf(p)); f.Some? && f.value.name != "" ==> name == f.value.name
  {
    OrderHistory.BusinessName(Find(businesses, OwnerOf(p)))
  }

  /** The `find` test for a product's business. */
  function OwnerOf(p: Product): Business -> bool {
    (b: Business) => b.id == p.businessId
  }

  /** `featuredProducts`: the first five products, in order, each labelled. */
  function FeaturedProducts(products: seq<Product>, businesses: seq<Business>): (r: seq<Featured>)
    ensures |r| == if |products| <= 5 then |products| else 5
    ensures forall i :: 0 <= i < |r| ==> r[i].product == products[i]
    ensures forall i :: 0 <= i < |r| ==> r[i].businessName == BusinessOf(businesses, products[i])
  {
    Map(Take(products, 5), (p: Product) => Featured(p, BusinessOf(businesses, p)))
  }

  /** The file name of an image: it ends, in any letter case, in ".jpg", ".jpeg",
      ".png" or ".gif". */
  predicate IsImageName(name: string) {
    var n := Lower(name);
    EndsWith(n, ".jpg") || EndsWith(n, ".jpeg") || EndsWith(n, ".png") || EndsWith(n, ".gif")
  }

  /** The test ignores letter case. */
  lemma ImageNameIgnoresCase(name: string)
    ensures IsImageName(Lower(name)) <==> IsImageName(name)
  {
    LowerIdempotent(name);
  }

  /** A promotion with the business it belongs to. */
  datatype Tagged = Tagged(promotion: Promotion, businessId: string, businessName: string)

  predicate IsImage(p: Promotion) {
    Filled(p.name) && IsImageName(p.name.value)
  }

  /** The image promotions of one business, tagged. */
  function ImagesOf(b: Business): (r: seq<Tagged>)
    ensures forall t :: t in r <==>
      t.promotion in b.promotions && IsImage(t.promotion) && t.businessId == b.id && t.businessName == b.name
  {
    var kept := Filter(b.promotions, IsImage);
    var r := Map(kept, (p: Promotion) => Tagged(p, b.id, b.name));
    assert forall t :: t in r ==> t.promotion in kept && t.businessId == b.id && t.businessName == b.name;
    assert forall p :: p in kept ==> Tagged(p, b.id, b.name) in r by {
      forall p | p in kept
        ensures Tagged(p, b.id, b.name) in r
      {
        var i :| 0 <= i < |kept| && kept[i] == p;
        assert r[i] == Tagged(p, b.id, b.name);
      }
    }
    r
  }

  /** `promotionalImages`: business by business, each business's image promotions, with
      its id and name. */
  function PromotionalImages(businesses: seq<Business>): (r: seq<Tagged>)
    ensures forall t :: t in r <==> exists b :: b in businesses && t in ImagesOf(b)
    decreases |businesses|
  {
    if businesses == [] then []
    else
      var rest := PromotionalImages(businesses[1..]);
      assert forall b :: b in businesses[1..] ==> b in businesses;
      assert forall b :: b in businesses ==> b == businesses[0] || b in businesses[1..];
      ImagesOf(businesses[0]) + rest
  }

  /** Every image shown is an image promotion of the business it names, and every image
      promotion of every business is shown. */
  lemma ImagesAreExactlyImagePromotions(businesses: seq<Business>)
    ensures forall t :: t in PromotionalImages(businesses) ==>
      IsImage(t.promotion) && exists b :: b in businesses && b.id == t.businessId && t.promotion in b.promotions
    ensures forall b, p :: b in businesses && p in b.promotions && IsImage(p) ==>
      Tagged(p, b.id, b.name) in PromotionalImages(businesses)
  {
  }
}
