/**
 * The delivery-time estimate shown to businesses, couriers and clients: a business's
 * free-text `delivery_time` ("25-35", "30", anything else) combined with an order's
 * preparation minutes.
 */
module DeliveryEstimate {
  import opened Common
  import opened Texts
  import opened Domain

  const NA: string := "N/A"

  /** Whether `(\d+)-(\d+)` matches at `i`: a digit run, a dash, then a digit. The
      greedy first group can only end where the run ends, since a dash is no digit. */
  predicate MatchesAt(s: string, i: nat)
    requires i <= |s|
  {
    var j := DigitRunEnd(s, i);
    i < j && j + 1 < |s| && s[j] == '-' && IsDigit(s[j + 1])
  }

  /** The two numbers a delivery-time range denotes. */
  datatype Range = Range(lo: nat, hi: nat)

  /** The groups of a match at `i`, read as numbers (the second group is greedy too). */
  function GroupsAt(s: string, i: nat): Range
    requires i <= |s| && MatchesAt(s, i)
  {
    var j := DigitRunEnd(s, i);
    var k := DigitRunEnd(s, j + 1);
    assert AllDigits(s[i..j]) && AllDigits(s[j + 1..k]);
    Range(DigitsValue(s[i..j]), DigitsValue(s[j + 1..k]))
  }

  /** `s.match(/(\d+)-(\d+)/)` searched from `i`: the groups of the leftmost match. */
  function FirstRange(s: string, i: nat): Option<Range>
    requires i <= |s|
    decreases |s| - i
  {
    if i == |s| then None
    else if MatchesAt(s, i) then Some(GroupsAt(s, i))
    else FirstRange(s, i + 1)
  }

  /** The search finds nothing exactly when nothing matches, and otherwise reports the
      groups of the leftmost match. */
  lemma FirstRangeIsLeftmost(s: string, i: nat)
    requires i <= |s|
    ensures FirstRange(s, i).None? <==> forall k :: i <= k < |s| ==> !MatchesAt(s, k)
    ensures FirstRange(s, i).Some? ==>
      exists k :: i <= k < |s| && MatchesAt(s, k) && FirstRange(s, i).value == GroupsAt(s, k)
                  && forall l :: i <= l < k ==> !MatchesAt(s, l)
  {
    NoneWhenNoMatch(s, i);
    if FirstRange(s, i).Some? {
      var k := LeftmostMatch(s, i);
    }
  }

  /** The search finds nothing exactly when nothing matches. */
  lemma {:induction false} NoneWhenNoMatch(s: string, i: nat)
    requires i <= |s|
    ensures FirstRange(s, i).None? <==> forall k :: i <= k < |s| ==> !MatchesAt(s, k)
    decreases |s| - i
  {
    if i < |s| && !MatchesAt(s, i) {
      NoneWhenNoMatch(s, i + 1);
    }
  }

  /** The position of the match the search reports: it matches, the search reports its
      groups, and nothing to its left matches. */
  lemma {:induction false} LeftmostMatch(s: string, i: nat) returns (k: nat)
    requires i <= |s| && FirstRange(s, i).Some?
    ensures i <= k < |s| && MatchesAt(s, k) && FirstRange(s, i).value == GroupsAt(s, k)
    ensures forall l :: i <= l < k ==> !MatchesAt(s, l)
    decreases |s| - i
  {
    if MatchesAt(s, i) {
      k := i;
    } else {
      k := LeftmostMatch(s, i + 1);
    }
  }

  /** `(order && order.preparation_time) ? parseInt(order.preparation_time, 10) : 0`;
      the column holds a number, which `parseInt` reads back unchanged (`ParseIntOfString`). */
  function PrepMinutes(order: Option<Order>): int {
    if order.Some? && NonZero(order.value.prepTime) then order.value.prepTime.value else 0
  }

  /** `calculateTotalDeliveryTime(order, business)`. */
  function Estimate(order: Option<Order>, business: Option<Business>): (r: string)
    ensures business.None? ==> r == NA
    ensures business.Some? && order.Some? && !NonZero(order.value.prepTime) ==> r == NA
    ensures r == NA || EndsWith(r, " min") || (business.Some? && business.value.deliveryTime == Some(r))
  {
    if business.None? then NA
    else if order.Some? && !NonZero(order.value.prepTime) then NA
    else
      var p := PrepMinutes(order);
      var s := business.value.deliveryTime.GetOr("");
      match FirstRange(s, 0)
      case Some(m) => RangeText(m.lo + p, m.hi + p)
      case None =>
        match ParseInt(s)
        case Some(n) => if n + p > 0 then MinutesText(n + p) else NA
        case None => if s == "" then NA else s
  }

  function RangeText(lo: int, hi: int): (r: string)
    ensures EndsWith(r, " min")
  {
    IntToString(lo) + "-" + IntToString(hi) + " min"
  }

  function MinutesText(n: int): (r: string)
    ensures EndsWith(r, " min")
  {
    IntToString(n) + " min"
  }

  /** No dash, no match. */
  lemma {:induction false} NoDashNoRange(s: string, i: nat)
    requires i <= |s|
    requires '-' !in s
    ensures FirstRange(s, i) == None
    decreases |s| - i
  {
    if i < |s| {
      NoDashNoRange(s, i + 1);
    }
  }

  /** A printed range is read back as the same two numbers. */
  lemma ReadPrintedRange(lo: nat, hi: nat)
    ensures FirstRange(RangeText(lo, hi), 0) == Some(Range(lo, hi))
  {
    var x := NatToString(lo);
    var y := NatToString(hi);
    var r := RangeText(lo, hi);
    assert r == x + "-" + y + " min";
    var j := |x|;
    var k := |x| + 1 + |y|;
    assert r[..j] == x;
    assert r[j + 1..k] == y;
    assert r[j] == '-' && r[k] == ' ';
    DigitRunEndIs(r, 0, j);
    DigitRunEndIs(r, j + 1, k);
    NatToStringRoundTrip(lo);
    NatToStringRoundTrip(hi);
    assert MatchesAt(r, 0);
  }

  /**
   * When the business states a range, the estimate is that range shifted by the
   * preparation minutes; with a non-negative shift, reading it back gives the shifted
   * bounds, so the width of the range is kept whatever the preparation time.
   */
  lemma RangeEstimate(order: Option<Order>, b: Business, m: Range)
    requires order.None? || NonZero(order.value.prepTime)
    requires FirstRange(b.deliveryTime.GetOr(""), 0) == Some(m)
    ensures Estimate(order, Some(b)) == RangeText(m.lo + PrepMinutes(order), m.hi + PrepMinutes(order))
    ensures PrepMinutes(order) >= 0 ==>
      FirstRange(Estimate(order, Some(b)), 0) == Some(Range(m.lo + PrepMinutes(order), m.hi + PrepMinutes(order)))
  {
    var p := PrepMinutes(order);
    assert Estimate(order, Some(b)) == RangeText(m.lo + p, m.hi + p);
    if p >= 0 {
      ReadPrintedRange(m.lo + p, m.hi + p);
    }
  }

  /** Without a range, a leading integer `n` gives `n + p` minutes when positive and
      "N/A" otherwise; a printed number of minutes reads back as that number. */
  lemma SingleEstimate(order: Option<Order>, b: Business, n: int)
    requires order.None? || NonZero(order.value.prepTime)
    requires FirstRange(b.deliveryTime.GetOr(""), 0) == None
    requires ParseInt(b.deliveryTime.GetOr("")) == Some(n)
    ensures var t := n + PrepMinutes(order);
      && Estimate(order, Some(b)) == (if t > 0 then MinutesText(t) else NA)
      && (t > 0 ==> ParseInt(Estimate(order, Some(b))) == Some(t))
  {
    var t := n + PrepMinutes(order);
    if t > 0 {
      ParseIntOfPrinted(t, " min");
    }
  }

  /** A printed number of minutes holds no range. */
  lemma MinutesTextHasNoRange(n: nat)
    ensures FirstRange(MinutesText(n), 0) == None
  {
    var r := MinutesText(n);
    assert r == NatToString(n) + " min";
    assert forall i :: 0 <= i < |NatToString(n)| ==> r[i] == NatToString(n)[i];
    assert forall i :: |NatToString(n)| <= i < |r| ==> r[i] in " min";
    NoDashNoRange(r, 0);
  }

  /** The order-less estimate for a business whose delivery time is `t`. */
  function Restated(b: Business, t: string): string {
    Estimate(None, Some(b.(deliveryTime := Some(t))))
  }

  lemma RestatedRange(b: Business, lo: nat, hi: nat)
    ensures Restated(b, RangeText(lo, hi)) == RangeText(lo, hi)
  {
    ReadPrintedRange(lo, hi);
  }

  lemma RestatedMinutes(b: Business, n: nat)
    requires n > 0
    ensures Restated(b, MinutesText(n)) == MinutesText(n)
  {
    MinutesTextHasNoRange(n);
    ParseIntOfPrinted(n, " min");
  }

  lemma RestatedNA(b: Business)
    ensures Restated(b, NA) == NA
  {
    assert '-' !in NA;
    NoDashNoRange(NA, 0);
    assert SkipSpaces(NA, 0) == 0;
    assert DigitRunEnd(NA, 0) == 0;
  }

  /**
   * The estimate is stable: a business whose delivery time is an estimate already shown
   * (with a non-negative preparation time) gets that same text back for an order-less
   * query. This holds for every branch: ranges, single numbers, "N/A" and raw text.
   */
  lemma EstimateIsStable(order: Option<Order>, business: Option<Business>, b: Business)
    requires order.None? || !NonZero(order.value.prepTime) || order.value.prepTime.value >= 0
    ensures Restated(b, Estimate(order, business)) == Estimate(order, business)
  {
    if business.None? || (order.Some? && !NonZero(order.value.prepTime)) {
      RestatedNA(b);
    } else {
      StableWithTime(order, business.value, b);
    }
  }

  /** The estimate is stable when the business is known and the order, if any, has a
      positive preparation time. */
  lemma StableWithTime(order: Option<Order>, business: Business, b: Business)
    requires order.None? || (NonZero(order.value.prepTime) && order.value.prepTime.value >= 0)
    ensures Restated(b, Estimate(order, Some(business))) == Estimate(order, Some(business))
  {
    var s := business.deliveryTime.GetOr("");
    match FirstRange(s, 0)
    case Some(m) =>
      StableRange(order, business, b, m);
    case None =>
      match ParseInt(s)
      case Some(n) =>
        StableSingle(order, business, b, n);
      case None =>
        StableRaw(order, business, b);
  }

  lemma StableRange(order: Option<Order>, business: Business, b: Business, m: Range)
    requires order.None? || (NonZero(order.value.prepTime) && order.value.prepTime.value >= 0)
    requires FirstRange(business.deliveryTime.GetOr(""), 0) == Some(m)
    ensures Restated(b, Estimate(order, Some(business))) == Estimate(order, Some(business))
  {
    var p := PrepMinutes(order);
    RangeEstimate(order, business, m);
    RestatedRange(b, m.lo + p, m.hi + p);
  }

  lemma StableSingle(order: Option<Order>, business: Business, b: Business, n: int)
    requires order.None? || (NonZero(order.value.prepTime) && order.value.prepTime.value >= 0)
    requires FirstRange(business.deliveryTime.GetOr(""), 0) == None
    requires ParseInt(business.deliveryTime.GetOr("")) == Some(n)
    ensures Restated(b, Estimate(order, Some(business))) == Estimate(order, Some(business))
  {
    var t := n + PrepMinutes(order);
    SingleEstimate(order, business, n);
    if t > 0 {
      RestatedMinutes(b, t);
    } else {
      RestatedNA(b);
    }
  }

  lemma StableRaw(order: Option<Order>, business: Business, b: Business)
    requires order.None? || (NonZero(order.value.prepTime) && order.value.prepTime.value >= 0)
    requires FirstRange(business.deliveryTime.GetOr(""), 0) == None
    requires ParseInt(business.deliveryTime.GetOr("")) == None
    ensures Restated(b, Estimate(order, Some(business))) == Estimate(order, Some(business))
  {
    var s := business.deliveryTime.GetOr("");
    if s == "" {
      RestatedNA(b);
    } else {
      RestatedRaw(b, s);
    }
  }

  /** Text that holds neither a range nor a number is shown as it is. */
  lemma RestatedRaw(b: Business, s: string)
    requires s != "" && FirstRange(s, 0).None? && ParseInt(s).None?
    ensures Restated(b, s) == s
  {
  }

  /** The texts of the range examples. */
  lemma RangeExampleTexts()
    ensures "25-35" == NatToString(25) + "-" + NatToString(35)
    ensures RangeText(25, 35) == "25-35 min" && RangeText(35, 45) == "35-45 min"
  {
    TwoDigitNumbers(25);
    TwoDigitNumbers(35);
    TwoDigitNumbers(45);
  }

  /** "25-35" with no order reads "25-35 min". */
  lemma ExampleRange(b: Business)
    ensures Estimate(None, Some(b.(deliveryTime := Some("25-35")))) == "25-35 min"
  {
    RangeExampleTexts();
    ReadPrintedRangeIn("25-35", 25, 35);
    RangeEstimate(None, b.(deliveryTime := Some("25-35")), Range(25, 35));
  }

  /** "25-35" with 10 preparation minutes reads "35-45 min". */
  lemma ExampleRangeWithPrep(b: Business, o: Order)
    ensures Estimate(Some(o.(prepTime := Some(10))), Some(b.(deliveryTime := Some("25-35")))) == "35-45 min"
  {
    var order := Some(o.(prepTime := Some(10)));
    assert PrepMinutes(order) == 10;
    RangeExampleTexts();
    ReadPrintedRangeIn("25-35", 25, 35);
    RangeEstimate(order, b.(deliveryTime := Some("25-35")), Range(25, 35));
  }

  /** "30" with 5 preparation minutes reads "35 min". */
  lemma ExampleSingle(b: Business, o: Order)
    ensures Estimate(Some(o.(prepTime := Some(5))), Some(b.(deliveryTime := Some("30")))) == "35 min"
  {
    var order := Some(o.(prepTime := Some(5)));
    assert PrepMinutes(order) == 5;
    ReadThirty();
    TwoDigitNumbers(35);
    assert MinutesText(35) == "35 min";
  }

  /** "30" holds no range and reads as 30. */
  lemma ReadThirty()
    ensures FirstRange("30", 0) == None && ParseInt("30") == Some(30)
  {
    TwoDigitNumbers(30);
    ParseIntOfPrinted(30, "");
    assert IntToString(30) + "" == "30";
    NoDashNoRange("30", 0);
  }

  /** A known order without preparation time reads "N/A" whatever the business says. */
  lemma ExampleNoPrep(b: Business, o: Order)
    ensures Estimate(Some(o.(prepTime := None)), Some(b)) == NA
    ensures Estimate(Some(o.(prepTime := Some(0))), Some(b)) == NA
  {
  }

  /** A bare "lo-hi" reads as that range. */
  lemma ReadPrintedRangeIn(s: string, lo: nat, hi: nat)
    requires s == NatToString(lo) + "-" + NatToString(hi)
    ensures FirstRange(s, 0) == Some(Range(lo, hi))
  {
    var x := NatToString(lo);
    var y := NatToString(hi);
    var j := |x|;
    assert s[..j] == x;
    assert s[j + 1..] == y;
    assert s[j] == '-';
    DigitRunEndIs(s, 0, j);
    DigitRunEndIs(s, j + 1, |s|);
    NatToStringRoundTrip(lo);
    NatToStringRoundTrip(hi);
    assert MatchesAt(s, 0);
    assert s[0..j] == x;
    assert s[j + 1..|s|] == y;
    assert GroupsAt(s, 0) == Range(lo, hi);
  }
}
