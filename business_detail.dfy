/**
 * A business's public menu: adding a product to the saved cart, which only ever holds
 * one business's products, and the menu's sections, one per product category.
 */
module BusinessDetail {
  import opened Common
  import opened Seqs
  import opened Domain
  import opened Cart

  /** `{ ...product, quantity: 1, businessId, businessName: business.name }`. */
  function NewLine(p: Product, businessId: string, businessName: string): (l: Line)
    ensures l.productId == p.id && l.name == p.name && l.price == p.price && l.category == p.category
    ensures l.quantity == 1 && l.businessId == businessId && l.businessName == businessName
  {
    Line(p.id, p.name, p.price, p.category, businessId, businessName, 1)
  }

  /** The saved cart holds another business's products. */
  predicate OtherBusinessInCart(cart: seq<Line>, businessId: string) {
    cart != [] && cart[0].businessId != businessId
  }

  /** One more unit on every line of the product. */
  function Incremented(cart: seq<Line>, productId: string): (r: seq<Line>)
    ensures |r| == |cart|
    ensures forall i :: 0 <= i < |cart| ==>
      r[i] == if cart[i].productId == productId then cart[i].(quantity := cart[i].quantity + 1) else cart[i]
  {
    Map(cart, (l: Line) => if l.productId == productId then l.(quantity := l.quantity + 1) else l)
  }

  /**
   * `handleAddToCart(product)`: with another business's products in the cart, the cart
   * is replaced by the product alone if the client confirms and is left as it is
   * otherwise; for the same business, a product already there gets one more unit and a
   * new product is appended with one unit.
   */
  function Added(cart: seq<Line>, p: Product, businessId: string, businessName: string, confirmed: bool): (r: seq<Line>)
    ensures OtherBusinessInCart(cart, businessId) && !confirmed ==> r == cart
    ensures OtherBusinessInCart(cart, businessId) && confirmed ==> r == [NewLine(p, businessId, businessName)]
    ensures !OtherBusinessInCart(cart, businessId) && (exists l :: l in cart && l.productId == p.id) ==>
      r == Incremented(cart, p.id)
    ensures !OtherBusinessInCart(cart, businessId) && (forall l :: l in cart ==> l.productId != p.id) ==>
      r == cart + [NewLine(p, businessId, businessName)]
  {
    if OtherBusinessInCart(cart, businessId) then
      if confirmed then [NewLine(p, businessId, businessName)] else cart
    else
      match Find(cart, (l: Line) => l.productId == p.id)
      case Some(_) => Incremented(cart, p.id)
      case None => cart + [NewLine(p, businessId, businessName)]
  }

  /** Every line is of the same business. */
  predicate SingleBusiness(cart: seq<Line>) {
    forall i, j :: 0 <= i < |cart| && 0 <= j < |cart| ==> cart[i].businessId == cart[j].businessId
  }

  /** A cart of one business stays a cart of one business, and a cart that changes
      belongs entirely to the business whose menu is open. */
  lemma AddKeepsOneBusiness(cart: seq<Line>, p: Product, businessId: string, businessName: string, confirmed: bool)
    requires SingleBusiness(cart)
    ensures var r := Added(cart, p, businessId, businessName, confirmed);
      && SingleBusiness(r)
      && (r != cart ==> forall i :: 0 <= i < |r| ==> r[i].businessId == businessId)
  {
    var r := Added(cart, p, businessId, businessName, confirmed);
    if !OtherBusinessInCart(cart, businessId) {
      assert forall i :: 0 <= i < |cart| ==> cart[i].businessId == businessId;
      if forall l :: l in cart ==> l.productId != p.id {
        assert forall i :: 0 <= i < |r| ==> r[i].businessId == businessId by {
          forall i | 0 <= i < |r|
            ensures r[i].businessId == businessId
          {
            if i < |cart| {
              assert r[i] == cart[i];
            }
          }
        }
      }
    }
  }

  /** One more unit through the menu is one more unit through the cart's "+" button. */
  lemma {:induction false} IncrementIsCartPlus(cart: seq<Line>, productId: string)
    requires forall l :: l in cart && l.productId == productId ==> l.quantity >= 0
    ensures Incremented(cart, productId) == WithQuantityChange(cart, productId, 1)
    decreases |cart|
  {
    if cart != [] {
      IncrementIsCartPlus(cart[1..], productId);
      ChangeUnfold(cart, productId, 1);
      IncrementedUnfold(cart, productId);
      assert cart[0] in cart;
    }
  }

  lemma IncrementedUnfold(cart: seq<Line>, productId: string)
    requires cart != []
    ensures Incremented(cart, productId)
         == [if cart[0].productId == productId then cart[0].(quantity := cart[0].quantity + 1) else cart[0]]
            + Incremented(cart[1..], productId)
  {
  }

  /** The cart kept across pages. */
  class SavedCart {
    var lines: seq<Line>

    constructor(lines: seq<Line>)
      ensures this.lines == lines
    {
      this.lines := lines;
    }

    /** The handler once the client is signed in; `confirmed` is the answer to the
        replace-the-cart question, asked only when the cart holds another business. */
    method AddToCart(p: Product, businessId: string, businessName: string, confirmed: bool)
      modifies this`lines
      ensures lines == Added(old(lines), p, businessId, businessName, confirmed)
    {
      if lines != [] && lines[0].businessId != businessId {
        if !confirmed {
          return;
        }
        lines := [NewLine(p, businessId, businessName)];
      } else {
        var existing := Find(lines, (l: Line) => l.productId == p.id);
        if existing.Some? {
          lines := Incremented(lines, p.id);
        } else {
          lines := lines + [NewLine(p, businessId, businessName)];
        }
      }
    }
  }

  /** `product.category || "General"`. */
  function Section(p: Product): string {
    if Filled(p.category) then p.category.value else "General"
  }

  /** `products.filter(p => p.business_id === businessId)`. */
  function BusinessProducts(products: seq<Product>, businessId: string): (r: seq<Product>)
    ensures Subsequence(r, products)
    ensures forall p :: p in r <==> p in products && p.businessId == businessId
  {
    var ofBusiness := (p: Product) => p.businessId == businessId;
    FilterIsSubsequence(products, ofBusiness);
    Filter(products, ofBusiness)
  }

  /** `categories`: each section once, in the order its first product comes. */
  function Sections(products: seq<Product>): (cs: seq<string>)
    ensures NoDuplicates(cs)
    ensures forall c :: c in cs <==> exists p :: p in products && Section(p) == c
    ensures forall c :: c in cs ==> c in Map(products, Section)
    ensures forall i, j :: 0 <= i < j < |cs| ==>
      FirstIndex(Map(products, Section), cs[i]) < FirstIndex(Map(products, Section), cs[j])
  {
    var all := Map(products, Section);
    DistinctInFirstOrder(all);
    assert forall p :: p in products ==> Section(p) in all by {
      forall p | p in products
        ensures Section(p) in all
      {
        var i :| 0 <= i < |products| && products[i] == p;
        assert all[i] == Section(p);
      }
    }
    Distinct(all)
  }

  function SectionIs(c: string): Product -> bool {
    (p: Product) => Section(p) == c
  }

  /** The products listed under section `c`. */
  function InSection(products: seq<Product>, c: string): (r: seq<Product>)
    ensures forall p :: p in r <==> p in products && Section(p) == c
  {
    Filter(products, SectionIs(c))
  }

  /** Each product is listed under its own section and under no other. */
  lemma ProductUnderItsSection(products: seq<Product>, p: Product)
    requires p in products
    ensures Section(p) in Sections(products)
    ensures p in InSection(products, Section(p))
    ensures forall c :: c in Sections(products) && c != Section(p) ==> p !in InSection(products, c)
  {
  }

  /** The lengths of the sections listed under `cs`, added up. */
  function SectionSizes(products: seq<Product>, cs: seq<string>): nat
    decreases |cs|
  {
    if cs == [] then 0 else |InSection(products, cs[0])| + SectionSizes(products, cs[1..])
  }

  /** The sections together list every product exactly once. */
  lemma SectionsListEveryProductOnce(products: seq<Product>)
    ensures SectionSizes(products, Sections(products)) == |products|
  {
    var cs := Sections(products);
    forall i | 0 <= i < |products|
      ensures Section(products[i]) in cs
    {
      assert products[i] in products;
    }
    GroupsCoverAll(products, Section, cs);
    SizesAreGroups(products, cs);
  }

  lemma {:induction false} SizesAreGroups(products: seq<Product>, cs: seq<string>)
    ensures SectionSizes(products, cs) == GroupTotal(products, Section, cs)
    decreases |cs|
  {
    if cs != [] {
      SizesAreGroups(products, cs[1..]);
      CountKeyIsFilter(products, Section, cs[0], SectionIs(cs[0]));
    }
  }
}
