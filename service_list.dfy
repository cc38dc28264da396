/** The provider's service list page (src/app/dashboard/service-list/page.tsx):
    the price label of each service, its tag chips, the payload of the
    active/inactive switch, and the statistics under the list. The page's
    requests are not part of this module. */
module ServiceList {
  import opened Common
  import opened Text
  import opened ServiceModel

  const VisibleTags: nat := 3

  /** `formatPrice(min, max, model)`; `show` is JavaScript's rendering of a
      number in a template string. The model is not used. */
  function FormatPrice(min: real, max: real, model: PricingModel, show: real -> string): (r: string)
    ensures StartsWith(r, "$")
  {
    if min == max then "$" + show(min) else "$" + show(min) + "-$" + show(max)
  }

  /** The model argument never changes the text. */
  lemma FormatPriceIgnoresModel(min: real, max: real, m: PricingModel, m': PricingModel, show: real -> string)
    ensures FormatPrice(min, max, m, show) == FormatPrice(min, max, m', show)
  {
  }

  /** For whole-dollar prices the label reads back as the range: it has a
      dash exactly when the bounds differ, and the numbers around the dash
      are the bounds. */
  lemma {:induction false} WholePriceReadsBack(min: nat, max: nat, m: PricingModel, show: real -> string)
    requires show(min as real) == NatToString(min) && show(max as real) == NatToString(max)
    ensures var r := FormatPrice(min as real, max as real, m, show);
            var k := |NatToString(min)| + 1;
            && ('-' in r <==> min != max)
            && (min == max ==> IsDigits(r[1..]) && ParseDigits(r[1..]) == min)
            && (min != max ==> && k + 2 <= |r| && r[k] == '-' && r[k + 1] == '$'
                               && IsDigits(r[1..k]) && ParseDigits(r[1..k]) == min
                               && IsDigits(r[k + 2..]) && ParseDigits(r[k + 2..]) == max)
  {
    var r := FormatPrice(min as real, max as real, m, show);
    var a, b := NatToString(min), NatToString(max);
    var k := |a| + 1;
    NatToStringRoundTrip(min);
    NatToStringRoundTrip(max);
    if min == max {
      assert r == "$" + a && r[1..] == a;
      assert forall i :: 0 <= i < |r| ==> r[i] != '-';
    } else {
      assert r == "$" + a + "-$" + b;
      assert r[1..k] == a && r[k + 2..] == b;
      assert r[k] == '-';
    }
  }

  /** The model as the page shows it: its first letter upper-cased. */
  function ModelLabel(m: PricingModel): string
  {
    Capitalize(PricingModelName(m))
  }

  lemma ModelLabels()
    ensures ModelLabel(Hourly) == "Hourly" && ModelLabel(Fixed) == "Fixed" && ModelLabel(Package) == "Package"
  {
  }

  /** `getPricingText`: the price, then the model label in brackets. */
  function PricingText(s: Service, show: real -> string): (r: string)
    ensures var price := FormatPrice(s.priceRange.min, s.priceRange.max, s.pricingModel, show);
            && |r| == |price| + |PricingModelName(s.pricingModel)| + 3
            && r[..|price|] == price
            && r[|price|..|price| + 2] == " ("
            && r[|r| - 1] == ')'
            && r[|price| + 2] == ToUpperChar(PricingModelName(s.pricingModel)[0])
            && r[|price| + 3..|r| - 1] == PricingModelName(s.pricingModel)[1..]
  {
    var price := FormatPrice(s.priceRange.min, s.priceRange.max, s.pricingModel, show);
    var modelText := ModelLabel(s.pricingModel);
    assert |PricingModelName(s.pricingModel)| > 0;
    var r := price + " (" + modelText + ")";
    assert r[|price| + 3..|r| - 1] == modelText[1..];
    r
  }

  /** The chips under a service: at most three tags, then `+N more` when some
      are hidden. */
  datatype TagChips = TagChips(shown: seq<string>, more: Option<nat>)

  function Chips(tags: seq<string>): (c: TagChips)
    ensures |c.shown| == if |tags| < VisibleTags then |tags| else VisibleTags
    ensures c.shown == tags[..|c.shown|]
    ensures c.more.Some? <==> |tags| > VisibleTags
    ensures c.more.Some? ==> |c.shown| + c.more.value == |tags|
  {
    TagChips(Take(tags, VisibleTags), if |tags| > VisibleTags then Some(|tags| - VisibleTags) else None)
  }

  /** The text of the last chip. */
  function MoreText(n: nat): string
  {
    "+" + NatToString(n) + " more"
  }

  /** The chips account for every tag: the ones shown and the count of the rest. */
  lemma ChipsAccountForAllTags(tags: seq<string>)
    ensures var c := Chips(tags);
            c.shown + tags[|c.shown|..] == tags
            && |tags[|c.shown|..]| == (if c.more.Some? then c.more.value else 0)
  {
  }

  /** The `isActive` value the switch sends, and the toast after it. */
  function ToggledActive(currentStatus: bool): (r: bool)
    ensures r != currentStatus
  {
    !currentStatus
  }

  function ToggleMessage(currentStatus: bool): string
  {
    "Service " + (if ToggledActive(currentStatus) then "activated" else "deactivated") + " successfully"
  }

  /** Switching twice gives back the state the service started in. */
  lemma ToggleTwice(currentStatus: bool)
    ensures ToggledActive(ToggledActive(currentStatus)) == currentStatus
    ensures ToggleMessage(currentStatus) != ToggleMessage(ToggledActive(currentStatus))
  {
    assert ToggleMessage(true)[8] != ToggleMessage(false)[8];
  }

  /** The four numbers under the list. */
  datatype Statistics = Statistics(total: nat, active: nat, remote: nat, instant: nat)

  predicate IsActive(s: Service) { s.isActive }
  predicate IsRemote(s: Service) { s.location.kind == Remote }
  predicate IsInstant(s: Service) { s.booking.kind == Instant }

  function StatisticsOf(services: seq<Service>): (r: Statistics)
    ensures r.total == |services|
    ensures r.active <= r.total && r.remote <= r.total && r.instant <= r.total
  {
    CountSplit(services, IsActive, (s: Service) => !IsActive(s));
    CountSplit(services, IsRemote, (s: Service) => !IsRemote(s));
    CountSplit(services, IsInstant, (s: Service) => !IsInstant(s));
    Statistics(|services|, Count(services, IsActive), Count(services, IsRemote), Count(services, IsInstant))
  }

  /** The active services and the inactive ones make up the total. */
  lemma ActiveAndInactiveMakeTotal(services: seq<Service>)
    ensures StatisticsOf(services).active + Count(services, (s: Service) => !IsActive(s)) == StatisticsOf(services).total
  {
    CountSplit(services, IsActive, (s: Service) => !IsActive(s));
  }
}
