/**
 * The pricing section: the early-bird discount, the per-tier monthly total
 * with the optional leaf clean-up, the approximate price per visit, the
 * price display rule, the per-tier leaf toggles and the plan each button
 * hands to the booking form. Amounts are exact reals; the discount is 9/10.
 */
module Pricing {
  import opened Text
  import opened Types
  import opened Constants

  // ---------------------------------------------------------------------------
  // Arithmetic
  // ---------------------------------------------------------------------------

  /** The early-bird price: ten per cent off when the offer is on. */
  function ApplyDiscount(price: real, isEarlyBird: bool): (r: real)
    ensures r == price - (if isEarlyBird then price / 10.0 else 0.0)
  {
    if isEarlyBird then price * 0.9 else price
  }

  /** The one factor applies to a sum as to its parts, so base and add-on are discounted alike. */
  lemma DiscountDistributes(a: real, b: real, isEarlyBird: bool)
    ensures ApplyDiscount(a + b, isEarlyBird) == ApplyDiscount(a, isEarlyBird) + ApplyDiscount(b, isEarlyBird)
  {
  }

  /** `Math.round`: the nearest integer, halves rounded up. */
  function Round(x: real): (r: int)
    ensures r as real - 0.5 <= x < r as real + 0.5
  {
    (x + 0.5).Floor
  }

  const SeasonMonths: int := 6
  const VisitsPerSeason: int := 24

  /** About what one visit costs: six months of the monthly price spread over 24 visits, to the dollar. */
  function CalculatePerVisit(monthlyPrice: real): (r: int)
    ensures r as real - 0.5 <= monthlyPrice * (SeasonMonths as real) / (VisitsPerSeason as real) < r as real + 0.5
  {
    Round(monthlyPrice * (SeasonMonths as real) / (VisitsPerSeason as real))
  }

  // ---------------------------------------------------------------------------
  // Display
  // ---------------------------------------------------------------------------

  predicate IsWhole(x: real) {
    x.Floor as real == x
  }

  /** Decimal rendering of an integer, with a minus sign when negative. */
  function IntToString(i: int): string {
    if i < 0 then "-" + NatToString(-i) else NatToString(i)
  }

  /** Two-decimal rendering of a non-negative amount: the nearest cent, halves rounded up. */
  function FixedTwoOfNonNegative(x: real): string
    requires x >= 0.0
  {
    CentsText(Round(x * 100.0))
  }

  /** Two-decimal rendering, as JavaScript's fixed-point conversion gives it: the sign, then the magnitude to the cent. */
  function FixedTwo(x: real): string {
    if x < 0.0 then "-" + FixedTwoOfNonNegative(-x) else FixedTwoOfNonNegative(x)
  }

  /** A whole amount is shown bare, any other with exactly two decimals. */
  function FormatPrice(price: real): string {
    if IsWhole(price) then IntToString(price.Floor) else FixedTwo(price)
  }

  /** The amount rounded to the nearest cent. */
  function RoundToCents(x: real): real {
    (Round(x * 100.0) as real) / 100.0
  }

  /** Reads a displayed amount back: digits, optionally followed by a point and two digits. */
  function ParseDisplay(s: string): Option<real> {
    if |s| >= 4 && s[|s| - 3] == '.' && AllDigits(s[..|s| - 3]) && AllDigits(s[|s| - 2..]) then
      Some(ParseNat(s[..|s| - 3]) as real + (ParseNat(s[|s| - 2..]) as real) / 100.0)
    else if |s| >= 1 && AllDigits(s) then
      Some(ParseNat(s) as real)
    else
      None
  }

  lemma ParseTwoDigits(m: nat)
    requires m < 100
    ensures ParseNat([DigitChar(m / 10), DigitChar(m % 10)]) == m
  {
    var s := [DigitChar(m / 10), DigitChar(m % 10)];
    var first := s[..1];
    assert first == [DigitChar(m / 10)];
    assert first[..0] == [];
    assert DigitValue(DigitChar(m / 10)) == m / 10;
    assert ParseNat(first) == m / 10;
    assert DigitValue(DigitChar(m % 10)) == m % 10;
    assert s[..|s| - 1] == first;
    assert ParseNat(s) == ParseNat(first) * 10 + DigitValue(s[1]);
  }

  lemma FormatWholePrice(price: real)
    requires price >= 0.0 && IsWhole(price)
    ensures AllDigits(FormatPrice(price))
    ensures ParseDisplay(FormatPrice(price)) == Some(price)
  {
    var r := FormatPrice(price);
    assert r == NatToString(price.Floor);
    ParseNatToString(price.Floor);
    if |r| >= 4 {
      assert IsDigit(r[|r| - 3]);
    }
  }

  /** `n` cents written as whole units, a point and two digits. */
  function CentsText(n: nat): string {
    NatToString(n / 100) + "." + [DigitChar((n % 100) / 10), DigitChar(n % 10)]
  }

  /** Where the point and the two decimals of `CentsText(n)` sit. */
  lemma CentsTextParts(n: nat)
    ensures var r := CentsText(n);
            && |r| >= 4 && r[|r| - 3] == '.'
            && r[..|r| - 3] == NatToString(n / 100)
            && r[|r| - 2..] == [DigitChar((n % 100) / 10), DigitChar(n % 10)]
  {
    var r := CentsText(n);
    var head := NatToString(n / 100);
    var tail := [DigitChar((n % 100) / 10), DigitChar(n % 10)];
    assert r == head + "." + tail;
    assert |r| == |head| + 3;
    assert r[..|r| - 3] == head;
    assert r[|r| - 2..] == tail;
  }

  /** A display with a point reads back as its whole part plus its cents. */
  lemma ParseDisplayWithPoint(head: string, tail: string)
    requires |head| >= 1 && AllDigits(head) && AllDigits(tail) && |tail| == 2
    ensures var r := head + "." + tail;
            && r[..|r| - 3] == head && r[|r| - 2..] == tail
            && ParseDisplay(r) == Some(ParseNat(head) as real + (ParseNat(tail) as real) / 100.0)
  {
    var r := head + "." + tail;
    assert r[..|r| - 3] == head;
    assert r[|r| - 2..] == tail;
    assert r[|r| - 3] == '.';
  }

  lemma CentsTextReadsBack(n: nat)
    ensures var r := CentsText(n);
            && |r| >= 4 && r[|r| - 3] == '.'
            && AllDigits(r[..|r| - 3]) && AllDigits(r[|r| - 2..])
            && ParseDisplay(r) == Some((n as real) / 100.0)
  {
    var q, m := n / 100, n % 100;
    var head := NatToString(q);
    var tail := [DigitChar(m / 10), DigitChar(m % 10)];
    assert m % 10 == n % 10;
    assert CentsText(n) == head + "." + tail;
    CentsTextParts(n);
    ParseDisplayWithPoint(head, tail);
    ParseNatToString(q);
    ParseTwoDigits(m);
    assert n as real == (q as real) * 100.0 + m as real;
  }

  lemma FormatFractionalPrice(price: real)
    requires price >= 0.0 && !IsWhole(price)
    ensures var r := FormatPrice(price);
            && |r| >= 4 && r[|r| - 3] == '.'
            && AllDigits(r[..|r| - 3]) && AllDigits(r[|r| - 2..])
            && ParseDisplay(r) == Some(RoundToCents(price))
  {
    var n := Round(price * 100.0);
    assert FormatPrice(price) == CentsText(n);
    CentsTextReadsBack(n);
  }

  /**
   * The display rule: a whole non-negative amount is shown as bare digits and
   * reads back as itself; any other is shown with a point and exactly two
   * decimals and reads back as the amount rounded to the cent.
   */
  lemma FormatPriceShape(price: real)
    requires price >= 0.0
    ensures var r := FormatPrice(price);
            && (IsWhole(price) ==> AllDigits(r) && ParseDisplay(r) == Some(price))
            && (!IsWhole(price) ==>
                  && |r| >= 4 && r[|r| - 3] == '.'
                  && AllDigits(r[..|r| - 3]) && AllDigits(r[|r| - 2..])
                  && ParseDisplay(r) == Some(RoundToCents(price)))
  {
    if IsWhole(price) {
      FormatWholePrice(price);
    } else {
      FormatFractionalPrice(price);
    }
  }

  /** An amount in whole cents is displayed exactly: reading the display back gives the amount. */
  lemma FormatPriceExactForCents(price: real)
    requires price >= 0.0 && IsWhole(price * 100.0)
    ensures ParseDisplay(FormatPrice(price)) == Some(price)
  {
    FormatPriceShape(price);
    if !IsWhole(price) {
      assert Round(price * 100.0) == (price * 100.0).Floor;
    }
  }

  // ---------------------------------------------------------------------------
  // A tier's card
  // ---------------------------------------------------------------------------

  /** What a tier's card shows. */
  datatype TierCard = TierCard(
    totalPrice: real,
    displayPrice: string,
    perVisitPrice: int,
    leafPrice: real,
    leafDisplay: string)

  function CardFor(tier: PricingTier, isEarlyBird: bool, hasLeaves: bool): TierCard {
    var baseMonthly := ApplyDiscount(tier.monthlyPrice, isEarlyBird);
    var leafPrice := ApplyDiscount(tier.leafOptionPrice, isEarlyBird);
    var totalPrice := baseMonthly + (if hasLeaves then leafPrice else 0.0);
    TierCard(totalPrice, FormatPrice(totalPrice), CalculatePerVisit(baseMonthly),
             leafPrice, FormatPrice(leafPrice))
  }

  /**
   * The total is the discounted base plus, when the leaf option is ticked, the
   * add-on discounted by the same factor; the per-visit figure comes from the
   * discounted base alone.
   */
  lemma CardTotals(tier: PricingTier, isEarlyBird: bool, hasLeaves: bool)
    ensures var c := CardFor(tier, isEarlyBird, hasLeaves);
            && c.totalPrice == ApplyDiscount(tier.monthlyPrice + (if hasLeaves then tier.leafOptionPrice else 0.0), isEarlyBird)
            && c.leafPrice == ApplyDiscount(tier.leafOptionPrice, isEarlyBird)
            && c.perVisitPrice == CalculatePerVisit(ApplyDiscount(tier.monthlyPrice, isEarlyBird))
            && c.perVisitPrice == CardFor(tier, isEarlyBird, !hasLeaves).perVisitPrice
  {
    DiscountDistributes(tier.monthlyPrice, if hasLeaves then tier.leafOptionPrice else 0.0, isEarlyBird);
  }

  /** The town-house tier at the regular price, without leaves: 175 a month, about 44 a visit. */
  lemma JumeleRegularCard()
    ensures CardFor(JumeleTier, false, false).displayPrice == "175"
    ensures CardFor(JumeleTier, false, false).perVisitPrice == 44
    ensures CardFor(JumeleTier, false, false).leafDisplay == "40"
  {
    var c := CardFor(JumeleTier, false, false);
    assert c.totalPrice == 175.0 && c.leafPrice == 40.0;
    assert IsWhole(175.0) && (175.0).Floor == 175;
    NatToStringThreeDigits(175);
    assert IsWhole(40.0) && (40.0).Floor == 40;
    NatToStringTwoDigits(40);
    assert Round(175.0 * 6.0 / 24.0) == 44;
  }

  /** Early bird with leaves on the 195 tier: 175.50 plus a 45 add-on, 220.50 in total... */
  lemma DetacheEarlyBirdTotal()
    ensures var c := CardFor(DetacheTier, true, true);
            c.totalPrice == 220.5 && c.leafPrice == 45.0
            && c.perVisitPrice == CalculatePerVisit(175.5)
  {
    assert ApplyDiscount(195.0, true) == 175.5;
    assert ApplyDiscount(50.0, true) == 45.0;
  }

  /** ...shown as `220.50`... */
  lemma FormatPrice220_50()
    ensures FormatPrice(220.5) == "220.50"
  {
    assert !IsWhole(220.5);
    assert Round(220.5 * 100.0) == 22050;
    NatToStringThreeDigits(220);
    assert CentsText(22050) == NatToString(220) + "." + [DigitChar(5), DigitChar(0)];
  }

  /** The detached tier at the early-bird price with leaves: 175.50 + 45, shown as `220.50`. */
  lemma DetacheEarlyBirdWithLeavesCard()
    ensures CardFor(DetacheTier, true, true).totalPrice == 220.5
    ensures CardFor(DetacheTier, true, true).displayPrice == "220.50"
    ensures CardFor(DetacheTier, true, true).leafDisplay == "45"
    ensures CardFor(DetacheTier, true, true).perVisitPrice == 44
  {
    DetacheEarlyBirdTotal();
    FormatPrice220_50();
    assert IsWhole(45.0) && (45.0).Floor == 45;
    NatToStringTwoDigits(45);
    assert Round(175.5 * 6.0 / 24.0) == 44;
  }

  // ---------------------------------------------------------------------------
  // The seasonal leaf pick-up offer
  // ---------------------------------------------------------------------------

  const LeavesOnlyJumelePrice: real := 275.0
  const LeavesOnlyDetachePrice: real := 350.0

  /** "Réserver feuilles seulement" always books the leaf pick-up for a detached house. */
  const LeavesOnlyPlan: (LawnType, ServiceType) := (Detache, FeuillesOnly)

  /** The two seasonal prices, discounted like the monthly ones. */
  function LeavesOnlyDisplays(isEarlyBird: bool): (string, string) {
    (FormatPrice(ApplyDiscount(LeavesOnlyJumelePrice, isEarlyBird)),
     FormatPrice(ApplyDiscount(LeavesOnlyDetachePrice, isEarlyBird)))
  }

  lemma FormatWholeThreeDigits(price: real, n: nat)
    requires 100 <= n < 1000 && price == n as real
    ensures FormatPrice(price) == [DigitChar(n / 100), DigitChar((n / 10) % 10), DigitChar(n % 10)]
  {
    assert IsWhole(price) && price.Floor == n;
    NatToStringThreeDigits(n);
  }

  lemma FormatPrice247_50()
    ensures FormatPrice(247.5) == "247.50"
  {
    assert !IsWhole(247.5);
    assert Round(247.5 * 100.0) == 24750;
    NatToStringThreeDigits(247);
    assert CentsText(24750) == NatToString(247) + "." + [DigitChar(5), DigitChar(0)];
  }

  lemma LeavesOnlyRegular()
    ensures LeavesOnlyDisplays(false) == ("275", "350")
  {
    FormatWholeThreeDigits(275.0, 275);
    assert FormatPrice(275.0) == "275";
    FormatWholeThreeDigits(350.0, 350);
    assert FormatPrice(350.0) == "350";
  }

  lemma LeavesOnlyEarlyBird()
    ensures LeavesOnlyDisplays(true) == ("247.50", "315")
  {
    assert ApplyDiscount(275.0, true) == 247.5;
    FormatPrice247_50();
    assert ApplyDiscount(350.0, true) == 315.0;
    FormatWholeThreeDigits(315.0, 315);
    assert FormatPrice(315.0) == "315";
  }

  /** 275 and 350 at the regular price, 247.50 and 315 at the early-bird price. */
  lemma LeavesOnlySeasonPrices()
    ensures LeavesOnlyDisplays(false) == ("275", "350")
    ensures LeavesOnlyDisplays(true) == ("247.50", "315")
  {
    LeavesOnlyRegular();
    LeavesOnlyEarlyBird();
  }

  // ---------------------------------------------------------------------------
  // The section's state: leaf toggles and the early-bird switch
  // ---------------------------------------------------------------------------

  /** The tier's flag flipped and every other tier's flag kept; a tier with no entry counts as unset. */
  function Toggled(m: map<LawnType, bool>, id: LawnType): (r: map<LawnType, bool>)
    ensures r.Keys == m.Keys + {id}
    ensures r[id] == !(id in m && m[id])
    ensures forall k :: k in m && k != id ==> r[k] == m[k]
  {
    m[id := !(id in m && m[id])]
  }

  /** Toggling a tier twice restores the map. */
  lemma ToggleTwice(m: map<LawnType, bool>, id: LawnType)
    requires id in m
    ensures Toggled(Toggled(m, id), id) == m
  {
    assert Toggled(Toggled(m, id), id).Keys == m.Keys;
  }

  class PricingPanel {
    var selectedLeaves: map<LawnType, bool>
    var isEarlyBird: bool

    /** Every tier has a leaf flag. */
    ghost predicate Valid()
      reads this
    {
      Jumele in selectedLeaves && Detache in selectedLeaves
    }

    /** Both leaf options unticked, regular prices. */
    constructor ()
      ensures Valid()
      ensures selectedLeaves == map[Jumele := false, Detache := false]
      ensures !isEarlyBird
    {
      selectedLeaves := map[Jumele := false, Detache := false];
      isEarlyBird := false;
    }

    /** Clicking a tier's leaf option flips that tier's flag only. */
    method ToggleLeaves(id: LawnType)
      requires Valid()
      modifies this
      ensures Valid()
      ensures selectedLeaves == Toggled(old(selectedLeaves), id)
      ensures isEarlyBird == old(isEarlyBird)
    {
      selectedLeaves := selectedLeaves[id := !selectedLeaves[id]];
    }

    /** Clicking the price switch flips the early-bird offer. */
    method ToggleEarlyBird()
      requires Valid()
      modifies this
      ensures Valid()
      ensures isEarlyBird == !old(isEarlyBird)
      ensures selectedLeaves == old(selectedLeaves)
    {
      isEarlyBird := !isEarlyBird;
    }

    function HasLeaves(id: LawnType): bool
      reads this
    {
      id in selectedLeaves && selectedLeaves[id]
    }

    /** The card of a tier under the current switch and leaf flag. */
    function Card(tier: PricingTier): (c: TierCard)
      reads this
      ensures c.totalPrice == ApplyDiscount(tier.monthlyPrice, isEarlyBird)
                              + (if HasLeaves(tier.id) then ApplyDiscount(tier.leafOptionPrice, isEarlyBird) else 0.0)
      ensures c.perVisitPrice == CalculatePerVisit(ApplyDiscount(tier.monthlyPrice, isEarlyBird))
    {
      CardFor(tier, isEarlyBird, HasLeaves(tier.id))
    }

    /** "Choisir ce forfait": the tier's property type, with leaves exactly when the option is ticked. */
    function ChoosePlan(tier: PricingTier): (plan: (LawnType, ServiceType))
      reads this
      ensures plan.0 == tier.id
      ensures plan.1 == TonteFeuilles <==> HasLeaves(tier.id)
      ensures plan.1 != FeuillesOnly
    {
      (tier.id, if HasLeaves(tier.id) then TonteFeuilles else Tonte)
    }

    /** The seasonal leaf pick-up prices under the current switch. */
    function LeavesOnlyDisplay(): (string, string)
      reads this
    {
      LeavesOnlyDisplays(isEarlyBird)
    }
  }
}
