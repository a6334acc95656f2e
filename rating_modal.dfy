/**
 * The dialog in which a client rates a delivered order: two rows of five clickable
 * stars that light up under the mouse, the courier row only when the order has a
 * courier, and the submit button that needs at least one score.
 */
module RatingModal {
  import opened Common
  import opened Domain
  import OrderHistory

  /** The stars a row has. */
  const StarCount: nat := 5

  /** `ratingValue <= (hover || rating)`: star `i` is lit up to the star under the
      mouse, or up to the score when the mouse is elsewhere. */
  predicate Highlighted(i: int, rating: int, hover: int) {
    i <= if hover != 0 then hover else rating
  }

  /** One `StarRating` row: the score it sets and the star under the mouse (0 for
      none). */
  class StarRating {
    var rating: int
    var hover: int

    predicate Valid()
      reads this
    {
      0 <= rating <= StarCount && 0 <= hover <= StarCount
    }

    constructor()
      ensures rating == 0 && hover == 0 && Valid()
    {
      rating := 0;
      hover := 0;
    }

    /** Clicking star `i` scores `i`. */
    method Click(i: int)
      requires Valid() && 1 <= i <= StarCount
      modifies this
      ensures Valid() && rating == i && hover == old(hover)
    {
      rating := i;
    }

    /** The mouse enters star `i`. */
    method MouseEnter(i: int)
      requires Valid() && 1 <= i <= StarCount
      modifies this
      ensures Valid() && hover == i && rating == old(rating)
    {
      hover := i;
    }

    /** The mouse leaves a star. */
    method MouseLeave()
      requires Valid()
      modifies this
      ensures Valid() && hover == 0 && rating == old(rating)
    {
      hover := 0;
    }

    /** The row as drawn, star 1 first: which stars are lit. */
    function Lit(): (lit: seq<bool>)
      reads this
      requires Valid()
      ensures |lit| == StarCount
      ensures forall k :: 0 <= k < StarCount ==> (lit[k] <==> Highlighted(k + 1, rating, hover))
      ensures hover == 0 ==> forall k :: 0 <= k < StarCount ==> (lit[k] <==> k < rating)
      ensures hover != 0 ==> forall k :: 0 <= k < StarCount ==> (lit[k] <==> k < hover)
    {
      var r, h := rating, hover;
      seq(StarCount, k => Highlighted(k + 1, r, h))
    }
  }

  /** `disabled={!businessRating && !deliveryRating}`. */
  predicate SubmitDisabled(businessRating: int, deliveryRating: int) {
    businessRating == 0 && deliveryRating == 0
  }

  /** What `onSubmit` receives. */
  datatype Payload = Payload(businessRating: int, deliveryRating: int, comment: string)

  /** `handleSubmit`, from the button: nothing while the button is disabled, otherwise
      exactly the two scores and the comment. */
  function Submit(businessRating: int, deliveryRating: int, comment: string): (p: Option<Payload>)
    ensures p.None? <==> businessRating == 0 && deliveryRating == 0
    ensures p.Some? ==>
      p.value.businessRating == businessRating && p.value.deliveryRating == deliveryRating && p.value.comment == comment
  {
    if SubmitDisabled(businessRating, deliveryRating) then None
    else Some(Payload(businessRating, deliveryRating, comment))
  }

  /** A payload the dialog sends, once stored on the order, marks the order as rated,
      so its card no longer offers the rate button. */
  lemma SubmittedMeansRated(o: Order, businessRating: int, deliveryRating: int, comment: string)
    requires Submit(businessRating, deliveryRating, comment).Some?
    requires o.status == Delivered
    ensures var p := Submit(businessRating, deliveryRating, comment).value;
      && OrderHistory.IsRated(Apply(o, SetRatings(p.businessRating, p.deliveryRating)))
      && !OrderHistory.ActionsOf(Apply(o, SetRatings(p.businessRating, p.deliveryRating))).rateEnabled
  {
  }

  /** What the dialog draws. */
  datatype View = Hidden | Form(businessLabel: string, courierRow: bool, courierLabel: string)

  /** The dialog draws nothing without an order; the courier row appears only with a
      courier; the labels fall back to "Negocio" and "Repartidor". */
  function ViewOf(order: Option<Order>, business: Option<Business>, courier: Option<Courier>): (v: View)
    ensures v == Hidden <==> order.None?
    ensures v.Form? ==> (v.courierRow <==> courier.Some?)
    ensures v.Form? && business.Some? && business.value.name != "" ==> v.businessLabel == business.value.name
    ensures v.Form? && (business.None? || business.value.name == "") ==> v.businessLabel == "Negocio"
    ensures v.Form? && courier.Some? && courier.value.name != "" ==> v.courierLabel == courier.value.name
  {
    if order.None? then Hidden
    else
      Form(if business.Some? && business.value.name != "" then business.value.name else "Negocio",
           courier.Some?,
           if courier.Some? && courier.value.name != "" then courier.value.name else "Repartidor")
  }

  /** Without a courier row the courier score stays 0, so the submit needs a business
      score. */
  lemma NoCourierNeedsBusinessScore(businessRating: int, comment: string)
    ensures Submit(businessRating, 0, comment).Some? <==> businessRating != 0
  {
  }
}
