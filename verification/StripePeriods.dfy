/**
 Stripe subscription objects and the billing-period boundary read from their items
 (apps/integrations/stripe/subscriptions.py, apps/integrations/stripe/utils.py).
 */
module StripePeriods {
  import opened Options

  type Time = int

  /** An id minted by Stripe; Stripe never mints an empty one. */
  type StripeId = s: string | s != "" witness "sub"

  datatype Item = Item(priceId: string, periodStart: Option<int>, periodEnd: Option<int>)

  datatype Subscription = Subscription(
    id: StripeId,
    customer: string,
    status: string,
    startDate: Option<int>,
    items: seq<Item>,
    cancelAtPeriodEnd: bool,
    canceledAt: Option<int>,
    endedAt: Option<int>)

  /** Which boundary of the billing period is asked for. */
  datatype Boundary = PeriodStart | PeriodEnd

  /** A missing timestamp and a zero one both read as "no date". */
  function FromStripeTimestamp(value: Option<int>): Option<Time> {
    if value == Some(0) then None else value
  }

  function ItemBoundary(item: Item, which: Boundary): Option<Time> {
    FromStripeTimestamp(if which.PeriodStart? then item.periodStart else item.periodEnd)
  }

  /** A date is read off a timestamp that is there and not zero, and nothing else is. */
  lemma TimestampReads(value: Option<int>, t: Time)
    ensures FromStripeTimestamp(value) == Some(t) <==> value == Some(t) && t != 0
  {
  }

  /** Each boundary is read off its own field of the item. */
  lemma ItemReads(item: Item, t: Time)
    ensures ItemBoundary(item, PeriodStart) == Some(t) <==> item.periodStart == Some(t) && t != 0
    ensures ItemBoundary(item, PeriodEnd) == Some(t) <==> item.periodEnd == Some(t) && t != 0
  {
  }

  /** The first item sold at the given price. */
  function FindPrice(items: seq<Item>, price: string): (found: Option<nat>)
    ensures found.Some? ==> found.value < |items| && items[found.value].priceId == price
    ensures forall k :: 0 <= k < (if found.Some? then found.value else |items|) ==> items[k].priceId != price
  {
    if items == [] then None
    else if items[0].priceId == price then Some(0)
    else
      match FindPrice(items[1..], price)
      case None =>
        assert forall k :: 1 <= k < |items| ==> items[k] == items[1..][k - 1];
        None
      case Some(k) =>
        assert forall j :: 1 <= j < |items| ==> items[j] == items[1..][j - 1];
        Some(k + 1)
  }

  /** The smallest readable boundary across the items. */
  function Earliest(items: seq<Item>, which: Boundary): (least: Option<Time>)
    ensures least.Some? ==> exists item :: item in items && ItemBoundary(item, which) == least
    ensures forall item :: item in items && ItemBoundary(item, which).Some? ==>
      least.Some? && least.value <= ItemBoundary(item, which).value
  {
    if items == [] then None
    else
      assert forall item :: item in items <==> item == items[0] || item in items[1..];
      var rest := Earliest(items[1..], which);
      var head := ItemBoundary(items[0], which);
      if head.Some? && (rest.None? || head.value <= rest.value) then head else rest
  }

  function PeriodBoundary(items: seq<Item>, proPrice: string, which: Boundary): Option<Time> {
    if items == [] then None
    else
      var pro := if proPrice != "" then FindPrice(items, proPrice) else None;
      match pro
      case Some(k) => ItemBoundary(items[k], which)
      case None => Earliest(items, which)
  }

  /**
   What the boundary promises: the first Pro item's own date when a Pro price is configured and sold,
   otherwise the minimum of the readable dates, and nothing only when there is none to read.
   */
  ghost predicate IsReportedBoundary(items: seq<Item>, proPrice: string, which: Boundary, reported: Option<Time>) {
    if proPrice != "" && exists item :: item in items && item.priceId == proPrice then
      exists k :: 0 <= k < |items| && items[k].priceId == proPrice
        && (forall j :: 0 <= j < k ==> items[j].priceId != proPrice)
        && reported == ItemBoundary(items[k], which)
    else
      && (reported.None? <==> forall item :: item in items ==> ItemBoundary(item, which).None?)
      && (reported.Some? ==>
        && (exists item :: item in items && ItemBoundary(item, which) == reported)
        && forall item :: item in items && ItemBoundary(item, which).Some? ==>
             reported.value <= ItemBoundary(item, which).value)
  }

  /** The promise leaves no choice. */
  lemma BoundaryIsUnique(items: seq<Item>, proPrice: string, which: Boundary, reported: Option<Time>)
    requires IsReportedBoundary(items, proPrice, which, reported)
    ensures reported == PeriodBoundary(items, proPrice, which)
  {
    BoundaryIsReported(items, proPrice, which);
  }

  lemma BoundaryIsReported(items: seq<Item>, proPrice: string, which: Boundary)
    ensures IsReportedBoundary(items, proPrice, which, PeriodBoundary(items, proPrice, which))
  {
    if items != [] && proPrice != "" {
      var found := FindPrice(items, proPrice);
      if found.Some? {
        assert items[found.value] in items;
      }
    }
  }
}
