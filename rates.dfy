/** Rate normalisation: the part of get_shipping_rates that turns the
    carrier's quote list into the five-tier rate map, after the HTTP call.

    Costs are reals: the float rounding of the markups is not modelled. */
module Rates {
  import opened Common

  /** One quote of the carrier's response, with its cost already numeric. */
  datatype Quote = Quote(serviceCode: string, shipmentCost: real, deliveryDays: Option<int>)

  /** The services the normaliser dispatches on; every other code is
      `Unrecognised`. */
  datatype Service =
    | GroundAdvantage   // usps_ground_advantage
    | GroundSaver       // ups_ground_saver
    | Ground            // ups_ground
    | PriorityMail      // usps_priority_mail
    | PriorityMailIntl  // usps_priority_mail_international
    | WorldwideSaver    // ups_worldwide_saver
    | Unrecognised

  /** The service codes the normaliser compares against, in the order of
      its dispatch. */
  const ServiceCodes: seq<(string, Service)> :=
    [("usps_ground_advantage", GroundAdvantage), ("ups_ground_saver", GroundSaver),
     ("ups_ground", Ground), ("usps_priority_mail", PriorityMail),
     ("usps_priority_mail_international", PriorityMailIntl), ("ups_worldwide_saver", WorldwideSaver)]

  /** The first entry of `table` whose code is `code`, if any. */
  function ServiceIn(code: string, table: seq<(string, Service)>): Service {
    if table == [] then Unrecognised
    else if table[0].0 == code then table[0].1
    else ServiceIn(code, table[1..])
  }

  /** The string dispatch on a quote's service code. */
  function ServiceOf(code: string): Service {
    ServiceIn(code, ServiceCodes)
  }

  /** Each of the six codes, and only that code, selects its service; every
      other code is unrecognised. */
  lemma DispatchTable(code: string)
    ensures ServiceOf(code) == GroundAdvantage <==> code == "usps_ground_advantage"
    ensures ServiceOf(code) == GroundSaver <==> code == "ups_ground_saver"
    ensures ServiceOf(code) == Ground <==> code == "ups_ground"
    ensures ServiceOf(code) == PriorityMail <==> code == "usps_priority_mail"
    ensures ServiceOf(code) == PriorityMailIntl <==> code == "usps_priority_mail_international"
    ensures ServiceOf(code) == WorldwideSaver <==> code == "ups_worldwide_saver"
  {
    var t := ServiceCodes;
    assert t[1..][1..][1..][1..][1..][1..] == [];
    assert ServiceIn(code, t[1..][1..][1..][1..][1..]) == if code == "ups_worldwide_saver" then WorldwideSaver else Unrecognised;
    assert ServiceIn(code, t[1..][1..][1..][1..]) == if code == "usps_priority_mail_international" then PriorityMailIntl
      else ServiceIn(code, t[1..][1..][1..][1..][1..]);
    assert ServiceIn(code, t[1..][1..][1..]) == if code == "usps_priority_mail" then PriorityMail
      else ServiceIn(code, t[1..][1..][1..][1..]);
    assert ServiceIn(code, t[1..][1..]) == if code == "ups_ground" then Ground
      else ServiceIn(code, t[1..][1..][1..]);
    assert ServiceIn(code, t[1..]) == if code == "ups_ground_saver" then GroundSaver
      else ServiceIn(code, t[1..][1..]);
  }

  /** The keys of the rate map: "no_rush", "ups_ground", "usps_priority",
      "usps_priority_intl" and "ups_worldwide". */
  datatype Tier = NoRush | UpsGroundTier | UspsPriority | UspsPriorityIntl | UpsWorldwide

  const AllTiers: set<Tier> := {NoRush, UpsGroundTier, UspsPriority, UspsPriorityIntl, UpsWorldwide}

  /** A tier of the rate map: the empty dict `{}`, or an amount with the
      quote's delivery days (`None` when the quote had none). */
  datatype Slot = Empty | Filled(amount: real, deliveryDays: Option<int>)

  type RateMap = map<Tier, Slot>

  /** The tier a service writes, if any. */
  function TierOf(s: Service): Option<Tier> {
    match s
    case GroundAdvantage => Some(NoRush)
    case GroundSaver => Some(NoRush)
    case Ground => Some(UpsGroundTier)
    case PriorityMail => Some(UspsPriority)
    case PriorityMailIntl => Some(UspsPriorityIntl)
    case WorldwideSaver => Some(UpsWorldwide)
    case Unrecognised => None
  }

  /** The two services kept for an international destination. */
  predicate IsInternationalService(s: Service) {
    s == PriorityMailIntl || s == WorldwideSaver
  }

  /** The services that fill a tier of their own, the last such quote winning. */
  predicate IsOneToOne(s: Service) {
    s == Ground || s == PriorityMail || s == PriorityMailIntl || s == WorldwideSaver
  }

  /** A destination is international unless its country is "US" or missing. */
  predicate IsInternational(country: Option<string>) {
    country != Some("US") && country != None
  }

  /** The international surcharge. */
  function Surcharged(q: Quote): Quote {
    q.(shipmentCost := q.shipmentCost + 4.00)
  }

  /** The per-code markup. */
  function MarkedUp(q: Quote): Quote {
    match ServiceOf(q.serviceCode)
    case GroundAdvantage => q.(shipmentCost := q.shipmentCost * 1.06)
    case GroundSaver => q.(shipmentCost := q.shipmentCost * 1.06)
    case PriorityMail => q.(shipmentCost := q.shipmentCost + 2.00)
    case Ground => q.(shipmentCost := q.shipmentCost + 2.00)
    case _ => q
  }

  /** What becomes of one raw quote: dropped, or kept with its adjusted cost.
      This is the per-quote reference for the filter-then-adjust pipeline. */
  function AdjustOne(q: Quote, international: bool): seq<Quote> {
    if !international then [MarkedUp(q)]
    else if IsInternationalService(ServiceOf(q.serviceCode)) then [MarkedUp(Surcharged(q))]
    else []
  }

  /** The quotes that reach the tier map, in response order. */
  function Adjusted(rates: seq<Quote>, international: bool): seq<Quote> {
    if rates == [] then []
    else Adjusted(rates[..|rates| - 1], international) + AdjustOne(rates[|rates| - 1], international)
  }

  /** The international filter. */
  function InternationalOnly(rates: seq<Quote>): seq<Quote> {
    if rates == [] then []
    else
      var last := rates[|rates| - 1];
      InternationalOnly(rates[..|rates| - 1])
        + (if IsInternationalService(ServiceOf(last.serviceCode)) then [last] else [])
  }

  function SurchargeAll(s: seq<Quote>): seq<Quote> {
    seq(|s|, i requires 0 <= i < |s| => Surcharged(s[i]))
  }

  function MarkUpAll(s: seq<Quote>): seq<Quote> {
    seq(|s|, i requires 0 <= i < |s| => MarkedUp(s[i]))
  }

  /** The rate map before any quote is placed. */
  const InitialMap: RateMap :=
    map[NoRush := Empty, UpsGroundTier := Empty, UspsPriority := Empty,
        UspsPriorityIntl := Empty, UpsWorldwide := Empty]

  /** One step of the tier loop: where one adjusted quote lands. */
  function Place(m: RateMap, q: Quote): RateMap
    requires NoRush in m
  {
    var entry := Filled(q.shipmentCost, q.deliveryDays);
    match ServiceOf(q.serviceCode)
    case GroundAdvantage => m[NoRush := entry]
    case GroundSaver =>
      if m[NoRush].Empty? || q.shipmentCost < m[NoRush].amount then m[NoRush := entry] else m
    case Ground => m[UpsGroundTier := entry]
    case PriorityMail => m[UspsPriority := entry]
    case PriorityMailIntl => m[UspsPriorityIntl := entry]
    case WorldwideSaver => m[UpsWorldwide := entry]
    case Unrecognised => m
  }

  /** The rate map after placing every quote of `s` in order. Whatever the
      quotes, the map has exactly the five tier keys. */
  function Placed(s: seq<Quote>): (m: RateMap)
    ensures m.Keys == AllTiers
  {
    if s == [] then InitialMap else Place(Placed(s[..|s| - 1]), s[|s| - 1])
  }

  /** The rate map get_shipping_rates returns for a successful response. */
  function Normalized(rates: seq<Quote>, country: Option<string>): RateMap {
    Placed(Adjusted(rates, IsInternational(country)))
  }

  /** The list comprehension that keeps only the international services. */
  method FilterInternational(rates: seq<Quote>) returns (kept: seq<Quote>)
    ensures kept == InternationalOnly(rates)
  {
    kept := [];
    for i := 0 to |rates|
      invariant kept == InternationalOnly(rates[..i])
    {
      assert rates[..i + 1][..i] == rates[..i];
      var service := ServiceOf(rates[i].serviceCode);
      if service == PriorityMailIntl || service == WorldwideSaver {
        kept := kept + [rates[i]];
      }
    }
    assert rates[..|rates|] == rates;
  }

  /** The loop adding the international surcharge to each quote in place. */
  method AddSurcharge(rates: seq<Quote>) returns (quotes: seq<Quote>)
    ensures quotes == SurchargeAll(rates)
  {
    quotes := rates;
    for i := 0 to |quotes|
      invariant |quotes| == |rates|
      invariant forall k :: 0 <= k < i ==> quotes[k] == Surcharged(rates[k])
      invariant forall k :: i <= k < |rates| ==> quotes[k] == rates[k]
    {
      quotes := quotes[i := quotes[i].(shipmentCost := quotes[i].shipmentCost + 4.00)];
    }
  }

  /** The loop applying the per-code markup to each quote in place. */
  method ApplyMarkups(rates: seq<Quote>) returns (quotes: seq<Quote>)
    ensures quotes == MarkUpAll(rates)
  {
    quotes := rates;
    for i := 0 to |quotes|
      invariant |quotes| == |rates|
      invariant forall k :: 0 <= k < i ==> quotes[k] == MarkedUp(rates[k])
      invariant forall k :: i <= k < |rates| ==> quotes[k] == rates[k]
    {
      var rate := quotes[i];
      var service := ServiceOf(rate.serviceCode);
      if service == GroundAdvantage || service == GroundSaver {
        rate := rate.(shipmentCost := rate.shipmentCost * 1.06);
      } else if service == PriorityMail || service == Ground {
        rate := rate.(shipmentCost := rate.shipmentCost + 2.00);
      }
      assert rate == MarkedUp(rates[i]);
      quotes := quotes[i := rate];
    }
  }

  /** The loop filling the rate map quote by quote. */
  method FillRateMap(quotes: seq<Quote>) returns (rateMap: RateMap)
    ensures rateMap == Placed(quotes)
    ensures rateMap.Keys == AllTiers
  {
    rateMap := map[NoRush := Empty, UpsGroundTier := Empty, UspsPriority := Empty,
                   UspsPriorityIntl := Empty, UpsWorldwide := Empty];
    for i := 0 to |quotes|
      invariant rateMap == Placed(quotes[..i])
    {
      assert quotes[..i + 1][..i] == quotes[..i];
      var entry := Filled(quotes[i].shipmentCost, quotes[i].deliveryDays);
      match ServiceOf(quotes[i].serviceCode)
      case GroundAdvantage =>
        rateMap := rateMap[NoRush := entry];
      case GroundSaver =>
        if rateMap[NoRush].Empty? || quotes[i].shipmentCost < rateMap[NoRush].amount {
          rateMap := rateMap[NoRush := entry];
        }
      case Ground =>
        rateMap := rateMap[UpsGroundTier := entry];
      case PriorityMail =>
        rateMap := rateMap[UspsPriority := entry];
      case PriorityMailIntl =>
        rateMap := rateMap[UspsPriorityIntl := entry];
      case WorldwideSaver =>
        rateMap := rateMap[UpsWorldwide := entry];
      case Unrecognised =>
    }
    assert quotes[..|quotes|] == quotes;
  }

  /** get_shipping_rates from the parsed response on: filter and surcharge
      for an international destination, mark up, then fill the rate map. */
  method Normalize(rates: seq<Quote>, country: Option<string>) returns (rateMap: RateMap)
    ensures rateMap == Normalized(rates, country)
    ensures rateMap.Keys == AllTiers
  {
    var isInternational := country != Some("US") && country != None;
    var quotes := rates;
    if isInternational {
      quotes := FilterInternational(quotes);
      quotes := AddSurcharge(quotes);
    }
    quotes := ApplyMarkups(quotes);
    AdjustedPipeline(rates, isInternational);
    rateMap := FillRateMap(quotes);
  }

  /** Filtering, surcharging and marking up the whole list in three passes
      gives, quote by quote, what AdjustOne prescribes: each kept quote is
      adjusted once. */
  lemma {:induction false} AdjustedPipeline(rates: seq<Quote>, international: bool)
    ensures Adjusted(rates, international)
            == MarkUpAll(if international then SurchargeAll(InternationalOnly(rates)) else rates)
  {
    if rates != [] {
      var init, last := rates[..|rates| - 1], rates[|rates| - 1];
      AdjustedPipeline(init, international);
      if international {
        var kept := InternationalOnly(init);
        if IsInternationalService(ServiceOf(last.serviceCode)) {
          assert SurchargeAll(kept + [last]) == SurchargeAll(kept) + [Surcharged(last)];
          assert MarkUpAll(SurchargeAll(kept) + [Surcharged(last)])
                 == MarkUpAll(SurchargeAll(kept)) + [MarkedUp(Surcharged(last))];
        }
      } else {
        assert rates == init + [last];
        assert MarkUpAll(init + [last]) == MarkUpAll(init) + [MarkedUp(last)];
      }
    }
  }

  /** The markup table: 6% on the two economy-ground services, 2.00 on
      ups_ground and usps_priority_mail, nothing on any other code. */
  function MarkedUpCost(code: string, cost: real): real {
    if code in ["usps_ground_advantage", "ups_ground_saver"] then cost * 1.06
    else if code in ["usps_priority_mail", "ups_ground"] then cost + 2.00
    else cost
  }

  /** The markup never touches the two international services, so abroad
      a kept quote gets the 4.00 surcharge and nothing else; at home every
      quote gets exactly its code's markup from the table. */
  lemma AdjustedOnce(q: Quote, international: bool)
    ensures international && IsInternationalService(ServiceOf(q.serviceCode)) ==>
      AdjustOne(q, international) == [q.(shipmentCost := q.shipmentCost + 4.00)]
    ensures international && !IsInternationalService(ServiceOf(q.serviceCode)) ==>
      AdjustOne(q, international) == []
    ensures !international ==>
      AdjustOne(q, international) == [q.(shipmentCost := MarkedUpCost(q.serviceCode, q.shipmentCost))]
  {
    DispatchTable(q.serviceCode);
  }

  /** Code `code` writes tier `t` when placed. */
  predicate Fills(code: string, t: Tier) {
    TierOf(ServiceOf(code)) == Some(t)
  }

  function SlotOf(q: Option<Quote>): Slot {
    match q
    case None => Empty
    case Some(q) => Filled(q.shipmentCost, q.deliveryDays)
  }

  /** What placing one quote does to one tier: it is either left alone or
      set to that quote's entry, and only a quote whose code fills the tier
      can set it. */
  lemma PlaceEffect(m: RateMap, q: Quote, t: Tier)
    requires m.Keys == AllTiers
    ensures Place(m, q)[t] == m[t] || (Fills(q.serviceCode, t) && Place(m, q)[t] == SlotOf(Some(q)))
    ensures !Fills(q.serviceCode, t) ==> Place(m, q)[t] == m[t]
    ensures Fills(q.serviceCode, t) && m[t].Empty? ==> Place(m, q)[t].Filled?
  {
  }

  /** The last quote of `s` of service `service`, if any. */
  function LastWith(s: seq<Quote>, service: Service): (r: Option<Quote>)
    ensures r.Some? ==> ServiceOf(r.value.serviceCode) == service
  {
    if s == [] then None
    else if ServiceOf(s[|s| - 1].serviceCode) == service then Some(s[|s| - 1])
    else LastWith(s[..|s| - 1], service)
  }

  /** LastWith finds the quote at the last position with that service. */
  lemma {:induction false} LastWithIsLast(s: seq<Quote>, service: Service)
    ensures LastWith(s, service).None? <==> forall j :: 0 <= j < |s| ==> ServiceOf(s[j].serviceCode) != service
    ensures LastWith(s, service).Some? ==>
      exists j :: 0 <= j < |s| && s[j] == LastWith(s, service).value
        && forall k :: j < k < |s| ==> ServiceOf(s[k].serviceCode) != service
  {
    if s != [] {
      var init, last := s[..|s| - 1], s[|s| - 1];
      LastWithIsLast(init, service);
      if ServiceOf(last.serviceCode) == service {
        assert s[|s| - 1] == LastWith(s, service).value;
      } else {
        assert LastWith(s, service) == LastWith(init, service);
        assert forall j :: 0 <= j < |init| ==> s[j] == init[j];
        if LastWith(init, service).Some? {
          var j :| 0 <= j < |init| && init[j] == LastWith(init, service).value
                   && forall k :: j < k < |init| ==> ServiceOf(init[k].serviceCode) != service;
          assert s[j] == LastWith(s, service).value;
        }
      }
    }
  }

  /** For the four one-to-one tiers the last quote of the service wins, and
      the tier stays empty when there is none. */
  lemma {:induction false} LastWins(s: seq<Quote>, service: Service)
    requires IsOneToOne(service)
    ensures Placed(s)[TierOf(service).value] == SlotOf(LastWith(s, service))
  {
    if s != [] {
      LastWins(s[..|s| - 1], service);
    }
  }

  /** Every filled tier holds a quote of `s` whose code fills that tier, with
      that quote's cost and delivery days; a tier is empty exactly when no
      quote's code fills it. Nothing else is ever written. */
  lemma {:induction false} PlacedProvenance(s: seq<Quote>, t: Tier)
    ensures Placed(s)[t].Empty? <==> forall j :: 0 <= j < |s| ==> !Fills(s[j].serviceCode, t)
    ensures Placed(s)[t].Filled? ==>
      exists j :: 0 <= j < |s| && Fills(s[j].serviceCode, t) && Placed(s)[t] == SlotOf(Some(s[j]))
  {
    if s != [] {
      var init, last := s[..|s| - 1], s[|s| - 1];
      PlacedProvenance(init, t);
      PlaceEffect(Placed(init), last, t);
      if Placed(s)[t] != Placed(init)[t] {
        assert Placed(s)[t] == SlotOf(Some(s[|s| - 1]));
      } else if Placed(init)[t].Filled? {
        var j :| 0 <= j < |init| && Fills(init[j].serviceCode, t) && Placed(init)[t] == SlotOf(Some(init[j]));
        assert s[j] == init[j];
      }
    }
  }

  /** The quotes of `s` whose code fills some tier. */
  function Recognised(s: seq<Quote>): seq<Quote> {
    if s == [] then []
    else
      var last := s[|s| - 1];
      Recognised(s[..|s| - 1]) + (if ServiceOf(last.serviceCode) != Unrecognised then [last] else [])
  }

  /** Quotes with an unrecognised service code never affect the rate map. */
  lemma {:induction false} UnrecognisedIgnored(s: seq<Quote>)
    ensures Placed(s) == Placed(Recognised(s))
  {
    if s != [] {
      var init, last := s[..|s| - 1], s[|s| - 1];
      UnrecognisedIgnored(init);
      var r := Recognised(init);
      assert Placed(s) == Place(Placed(init), last);
      if ServiceOf(last.serviceCode) != Unrecognised {
        assert Recognised(s) == r + [last];
        assert (r + [last])[..|r|] == r;
        assert Placed(r + [last]) == Place(Placed(r), last);
      } else {
        assert Recognised(s) == r;
        assert Place(Placed(init), last) == Placed(init);
      }
    }
  }

  /** A usps_ground_advantage quote overwrites no_rush whatever it holds. */
  lemma NoRushAdvantage(m: RateMap, q: Quote)
    requires m.Keys == AllTiers
    requires ServiceOf(q.serviceCode) == GroundAdvantage
    ensures Place(m, q)[NoRush] == SlotOf(Some(q))
  {
  }

  /** One placement seen from no_rush, for a quote that is not
      usps_ground_advantage: the entry changes only for a saver quote while
      no_rush is empty or for a strictly cheaper one; a saver quote that
      costs the same as the entry or more leaves it alone. */
  lemma NoRushStep(m: RateMap, q: Quote)
    requires m.Keys == AllTiers
    requires ServiceOf(q.serviceCode) != GroundAdvantage
    ensures Place(m, q)[NoRush] == m[NoRush]
            || (ServiceOf(q.serviceCode) == GroundSaver && Place(m, q)[NoRush] == SlotOf(Some(q)))
    ensures Place(m, q)[NoRush] != m[NoRush] ==>
            ServiceOf(q.serviceCode) == GroundSaver && (m[NoRush].Empty? || q.shipmentCost < m[NoRush].amount)
    ensures ServiceOf(q.serviceCode) == GroundSaver && m[NoRush].Filled? && m[NoRush].amount <= q.shipmentCost ==>
            Place(m, q)[NoRush] == m[NoRush]
    ensures Place(m, q)[NoRush].Empty? <==> m[NoRush].Empty? && ServiceOf(q.serviceCode) != GroundSaver
    ensures Place(m, q)[NoRush].Filled? && m[NoRush].Filled? ==> Place(m, q)[NoRush].amount <= m[NoRush].amount
    ensures Place(m, q)[NoRush].Filled? && ServiceOf(q.serviceCode) == GroundSaver ==>
            Place(m, q)[NoRush].amount <= q.shipmentCost
  {
  }

  /** The no_rush tie-break. After the last usps_ground_advantage quote only
      saver quotes can write no_rush: if `b` holds no advantage quote, no_rush
      after `a + b` is the entry after `a` or one of b's saver quotes. */
  lemma {:induction false} NoRushSince(a: seq<Quote>, b: seq<Quote>)
    requires forall i :: 0 <= i < |b| ==> ServiceOf(b[i].serviceCode) != GroundAdvantage
    ensures Placed(a + b)[NoRush] == Placed(a)[NoRush]
            || exists i :: 0 <= i < |b| && ServiceOf(b[i].serviceCode) == GroundSaver
                 && Placed(a + b)[NoRush] == SlotOf(Some(b[i]))
    decreases |b|
  {
    if b == [] {
      assert a + b == a;
    } else {
      var init, last := b[..|b| - 1], b[|b| - 1];
      assert forall i :: 0 <= i < |init| ==> init[i] == b[i];
      NoRushSince(a, init);
      assert (a + b)[..|a + b| - 1] == a + init;
      assert (a + b)[|a + b| - 1] == last;
      var mid, after := Placed(a + init), Placed(a + b);
      assert after == Place(mid, last);
      NoRushStep(mid, last);
    }
  }

  /** With no advantage quote in `b`, no_rush after `a + b` is empty only if
      it was empty after `a` and `b` holds no saver quote. */
  lemma {:induction false} NoRushEmptySince(a: seq<Quote>, b: seq<Quote>)
    requires forall i :: 0 <= i < |b| ==> ServiceOf(b[i].serviceCode) != GroundAdvantage
    ensures Placed(a + b)[NoRush].Empty? <==>
            Placed(a)[NoRush].Empty? && forall i :: 0 <= i < |b| ==> ServiceOf(b[i].serviceCode) != GroundSaver
    decreases |b|
  {
    if b == [] {
      assert a + b == a;
    } else {
      var init, last := b[..|b| - 1], b[|b| - 1];
      assert forall i :: 0 <= i < |init| ==> init[i] == b[i];
      NoRushEmptySince(a, init);
      assert (a + b)[..|a + b| - 1] == a + init;
      assert (a + b)[|a + b| - 1] == last;
      var mid, after := Placed(a + init), Placed(a + b);
      assert after == Place(mid, last);
      assert (forall i :: 0 <= i < |b| ==> ServiceOf(b[i].serviceCode) != GroundSaver)
             <==> (forall i :: 0 <= i < |init| ==> ServiceOf(init[i].serviceCode) != GroundSaver)
                  && ServiceOf(last.serviceCode) != GroundSaver;
      NoRushStep(mid, last);
    }
  }

  /** With no advantage quote in `b`, a saver quote replaces the entry only
      when strictly cheaper, so no_rush after `a + b` is no dearer than the
      entry after `a`. */
  lemma {:induction false} NoRushNoDearer(a: seq<Quote>, b: seq<Quote>)
    requires forall i :: 0 <= i < |b| ==> ServiceOf(b[i].serviceCode) != GroundAdvantage
    ensures Placed(a + b)[NoRush].Filled? && Placed(a)[NoRush].Filled? ==>
            Placed(a + b)[NoRush].amount <= Placed(a)[NoRush].amount
    decreases |b|
  {
    if b == [] {
      assert a + b == a;
    } else {
      var init, last := b[..|b| - 1], b[|b| - 1];
      assert forall i :: 0 <= i < |init| ==> init[i] == b[i];
      NoRushNoDearer(a, init);
      NoRushEmptySince(a, init);
      assert (a + b)[..|a + b| - 1] == a + init;
      assert (a + b)[|a + b| - 1] == last;
      var mid, after := Placed(a + init), Placed(a + b);
      assert after == Place(mid, last);
      NoRushStep(mid, last);
    }
  }

  /** With no advantage quote in `b`, a filled no_rush after `a + b` is no
      dearer than any saver quote of `b`. */
  lemma {:induction false} NoRushBelowSavers(a: seq<Quote>, b: seq<Quote>)
    requires forall i :: 0 <= i < |b| ==> ServiceOf(b[i].serviceCode) != GroundAdvantage
    ensures Placed(a + b)[NoRush].Filled? ==>
            forall i :: 0 <= i < |b| && ServiceOf(b[i].serviceCode) == GroundSaver ==>
              Placed(a + b)[NoRush].amount <= b[i].shipmentCost
    decreases |b|
  {
    if b == [] {
      assert a + b == a;
    } else {
      var init, last := b[..|b| - 1], b[|b| - 1];
      assert forall i :: 0 <= i < |init| ==> init[i] == b[i];
      NoRushBelowSavers(a, init);
      NoRushEmptySince(a, init);
      assert (a + b)[..|a + b| - 1] == a + init;
      assert (a + b)[|a + b| - 1] == last;
      var mid, after := Placed(a + init), Placed(a + b);
      assert after == Place(mid, last);
      NoRushStep(mid, last);
    }
  }

  /** No usps_ground_advantage quote sits strictly between positions `lo`
      and `hi` of `s`. */
  predicate NoAdvantageBetween(s: seq<Quote>, lo: int, hi: int) {
    forall k :: 0 <= k < |s| && lo < k < hi ==> ServiceOf(s[k].serviceCode) != GroundAdvantage
  }

  /** The whole no_rush rule, stated without the tier loop: quote `w` of `s`
      is the economy-ground quote no_rush ends up holding. No advantage quote
      follows it, no later saver quote is strictly cheaper, and a saver
      quote only wins when it is strictly cheaper than every economy quote
      since the last advantage quote before it. */
  predicate NoRushWinner(s: seq<Quote>, w: int) {
    && 0 <= w < |s|
    && IsEconomy(ServiceOf(s[w].serviceCode))
    && NoAdvantageBetween(s, w, |s|)
    && (forall k :: w < k < |s| && ServiceOf(s[k].serviceCode) == GroundSaver ==>
          s[w].shipmentCost <= s[k].shipmentCost)
    && (ServiceOf(s[w].serviceCode) == GroundSaver ==>
          forall k :: 0 <= k < w && IsEconomy(ServiceOf(s[k].serviceCode)) && NoAdvantageBetween(s, k, w) ==>
            s[w].shipmentCost < s[k].shipmentCost)
  }

  /** The rule picks one quote: two winners are the same position. */
  lemma NoRushWinnerUnique(s: seq<Quote>, w1: int, w2: int)
    requires NoRushWinner(s, w1) && NoRushWinner(s, w2)
    ensures w1 == w2
  {
    if w1 < w2 {
      assert NoAdvantageBetween(s, w1, w2);
    } else if w2 < w1 {
      assert NoAdvantageBetween(s, w2, w1);
    }
  }

  /** The winner is no dearer than any economy quote since the last
      advantage quote. */
  lemma WinnerNoDearer(s: seq<Quote>, w: int, k: int)
    requires NoRushWinner(s, w)
    requires 0 <= k < |s| && IsEconomy(ServiceOf(s[k].serviceCode)) && NoAdvantageBetween(s, k, |s|)
    ensures s[w].shipmentCost <= s[k].shipmentCost
  {
    if k < w {
      assert ServiceOf(s[w].serviceCode) != GroundAdvantage;
      assert NoAdvantageBetween(s, k, w);
    }
  }

  /** no_rush is empty exactly when no economy-ground quote is placed. */
  lemma NoRushEmptyIff(s: seq<Quote>)
    ensures Placed(s)[NoRush].Empty? <==> forall j :: 0 <= j < |s| ==> !IsEconomy(ServiceOf(s[j].serviceCode))
  {
    PlacedProvenance(s, NoRush);
    forall j | 0 <= j < |s|
      ensures Fills(s[j].serviceCode, NoRush) <==> IsEconomy(ServiceOf(s[j].serviceCode))
    {
      EconomyFillsNoRush(s[j]);
    }
  }

  /** A quote appended after the winner that is neither an advantage quote
      nor a strictly cheaper saver quote leaves the winner in place. */
  lemma WinnerKept(init: seq<Quote>, q: Quote, w: int)
    requires NoRushWinner(init, w)
    requires ServiceOf(q.serviceCode) != GroundAdvantage
    requires ServiceOf(q.serviceCode) == GroundSaver ==> init[w].shipmentCost <= q.shipmentCost
    ensures NoRushWinner(init + [q], w)
  {
    var s := init + [q];
    assert forall k :: 0 <= k < |init| ==> s[k] == init[k];
    assert NoAdvantageBetween(s, w, |s|);
    assert forall k :: 0 <= k < w ==> (NoAdvantageBetween(s, k, w) <==> NoAdvantageBetween(init, k, w));
  }

  /** An appended advantage quote wins. */
  lemma AdvantageWins(init: seq<Quote>, q: Quote)
    requires ServiceOf(q.serviceCode) == GroundAdvantage
    ensures NoRushWinner(init + [q], |init|)
  {
  }

  /** An appended saver quote wins when no economy quote came before it, or
      when it is strictly cheaper than the winner so far. */
  lemma SaverWins(init: seq<Quote>, q: Quote, w: int)
    requires ServiceOf(q.serviceCode) == GroundSaver
    requires (forall j :: 0 <= j < |init| ==> !IsEconomy(ServiceOf(init[j].serviceCode)))
             || (NoRushWinner(init, w) && q.shipmentCost < init[w].shipmentCost)
    ensures NoRushWinner(init + [q], |init|)
  {
    var s, n := init + [q], |init|;
    assert forall j :: 0 <= j < n ==> s[j] == init[j];
    forall k | 0 <= k < n && IsEconomy(ServiceOf(s[k].serviceCode)) && NoAdvantageBetween(s, k, n)
      ensures q.shipmentCost < s[k].shipmentCost
    {
      assert IsEconomy(ServiceOf(init[k].serviceCode));
      assert NoAdvantageBetween(init, k, |init|);
      WinnerNoDearer(init, w, k);
    }
  }

  /** A filled no_rush holds the entry of the quote the no_rush rule picks. */
  lemma {:induction false} PlacedNoRush(s: seq<Quote>)
    ensures Placed(s)[NoRush].Filled? ==>
      exists w :: NoRushWinner(s, w) && Placed(s)[NoRush] == SlotOf(Some(s[w]))
  {
    if s != [] {
      var init, q := s[..|s| - 1], s[|s| - 1];
      assert s == init + [q];
      PlacedNoRush(init);
      NoRushEmptyIff(init);
      var m := Placed(init)[NoRush];
      var svc := ServiceOf(q.serviceCode);
      var after := Place(Placed(init), q);
      assert Placed(s) == after;
      if svc == GroundAdvantage {
        AdvantageWins(init, q);
        assert after[NoRush] == SlotOf(Some(s[|init|]));
      } else if m.Empty? {
        if svc == GroundSaver {
          SaverWins(init, q, 0);
          assert after[NoRush] == SlotOf(Some(s[|init|]));
        }
      } else {
        var w :| NoRushWinner(init, w) && m == SlotOf(Some(init[w]));
        if svc == GroundSaver && q.shipmentCost < m.amount {
          SaverWins(init, q, w);
          assert after[NoRush] == SlotOf(Some(s[|init|]));
        } else {
          WinnerKept(init, q, w);
          assert after[NoRush] == m && s[w] == init[w];
        }
      }
    }
  }

  /** The 6% markup keeps the service and multiplies economy costs by the
      same positive factor, so it does not change which quote wins no_rush. */
  lemma WinnerUnderMarkup(raw: seq<Quote>, s: seq<Quote>, w: int)
    requires |s| == |raw|
    requires forall k :: 0 <= k < |s| ==> ServiceOf(s[k].serviceCode) == ServiceOf(raw[k].serviceCode)
    requires forall k :: 0 <= k < |s| && IsEconomy(ServiceOf(raw[k].serviceCode)) ==>
      s[k].shipmentCost == raw[k].shipmentCost * 1.06
    requires NoRushWinner(s, w)
    ensures NoRushWinner(raw, w)
  {
    assert forall lo, hi :: NoAdvantageBetween(s, lo, hi) ==> NoAdvantageBetween(raw, lo, hi);
    assert forall k :: 0 <= k < w && NoAdvantageBetween(raw, k, w) ==> NoAdvantageBetween(s, k, w);
  }

  /** Domestic no_rush, from the raw quotes: when filled it is the quote the
      no_rush rule picks among the raw quotes, at its cost times 1.06 and
      with its delivery days. */
  lemma DomesticNoRushWinner(rates: seq<Quote>, country: Option<string>)
    requires !IsInternational(country)
    ensures Normalized(rates, country)[NoRush].Filled? ==>
      exists w :: NoRushWinner(rates, w)
        && Normalized(rates, country)[NoRush] == Filled(rates[w].shipmentCost * 1.06, rates[w].deliveryDays)
  {
    var s := Adjusted(rates, false);
    if rates == [] {
      assert s == [];
    } else {
      AdjustedKeepsAll(rates, 0);
    }
    PlacedNoRush(s);
    if Placed(s)[NoRush].Filled? {
      var w :| NoRushWinner(s, w) && Placed(s)[NoRush] == SlotOf(Some(s[w]));
      forall k | 0 <= k < |rates|
        ensures ServiceOf(s[k].serviceCode) == ServiceOf(rates[k].serviceCode)
        ensures IsEconomy(ServiceOf(rates[k].serviceCode)) ==> s[k].shipmentCost == rates[k].shipmentCost * 1.06
      {
        AdjustedKeepsAll(rates, k);
        EconomyFillsNoRush(rates[k]);
      }
      WinnerUnderMarkup(rates, s, w);
      AdjustedKeepsAll(rates, w);
      EconomyFillsNoRush(rates[w]);
      assert Normalized(rates, country)[NoRush] == Filled(rates[w].shipmentCost * 1.06, rates[w].deliveryDays);
    }
  }

  /** The adjusted quote list only holds quotes that came from the response:
      each is what AdjustOne makes of some raw quote. */
  lemma {:induction false} AdjustedFrom(rates: seq<Quote>, international: bool)
    ensures forall i :: 0 <= i < |Adjusted(rates, international)| ==>
      exists j :: 0 <= j < |rates| && AdjustOne(rates[j], international) == [Adjusted(rates, international)[i]]
  {
    if rates != [] {
      var init, last := rates[..|rates| - 1], rates[|rates| - 1];
      AdjustedFrom(init, international);
      var prefix := Adjusted(init, international);
      var s := Adjusted(rates, international);
      assert s == prefix + AdjustOne(last, international);
      forall i | 0 <= i < |s|
        ensures exists j :: 0 <= j < |rates| && AdjustOne(rates[j], international) == [s[i]]
      {
        if i < |prefix| {
          var j :| 0 <= j < |init| && AdjustOne(init[j], international) == [prefix[i]];
          assert rates[j] == init[j] && s[i] == prefix[i];
        } else {
          var tail := AdjustOne(last, international);
          assert s[i] == tail[i - |prefix|];
          assert |tail| == 1 && tail == [s[i]];
          assert rates[|rates| - 1] == last;
        }
      }
    } else {
      assert Adjusted(rates, international) == [];
    }
  }

  /** For an international destination the tier loop only sees the two
      international services, so the three domestic tiers stay empty. */
  lemma InternationalGating(rates: seq<Quote>, country: Option<string>)
    requires IsInternational(country)
    ensures Normalized(rates, country)[NoRush] == Empty
    ensures Normalized(rates, country)[UpsGroundTier] == Empty
    ensures Normalized(rates, country)[UspsPriority] == Empty
  {
    var s := Adjusted(rates, true);
    AdjustedFrom(rates, true);
    forall t | t in {NoRush, UpsGroundTier, UspsPriority}
      ensures Placed(s)[t] == Empty
    {
      PlacedProvenance(s, t);
      forall i | 0 <= i < |s| ensures !Fills(s[i].serviceCode, t) {
        var j :| 0 <= j < |rates| && AdjustOne(rates[j], true) == [s[i]];
      }
    }
  }

  /** The entry a one-to-one tier gets from its last raw quote: the adjusted
      cost and the quote's delivery days. */
  function AdjustedSlot(q: Option<Quote>, international: bool): Slot {
    match q
    case None => Empty
    case Some(q) =>
      var adjusted := AdjustOne(q, international);
      if adjusted == [] then Empty else SlotOf(Some(adjusted[0]))
  }

  /** Adjusting keeps the service code, so the last adjusted quote of a
      service is the adjusted last raw quote of that service. */
  lemma {:induction false} LastWithAdjusted(rates: seq<Quote>, international: bool, service: Service)
    ensures SlotOf(LastWith(Adjusted(rates, international), service))
            == AdjustedSlot(LastWith(rates, service), international)
  {
    if rates != [] {
      var init, last := rates[..|rates| - 1], rates[|rates| - 1];
      var prefix := Adjusted(init, international);
      var s := Adjusted(rates, international);
      LastWithAdjusted(init, international, service);
      if AdjustOne(last, international) != [] {
        var y := AdjustOne(last, international)[0];
        assert y.serviceCode == last.serviceCode;
        assert s == prefix + [y];
        assert s[..|s| - 1] == prefix;
      } else {
        assert s == prefix;
        var earlier := LastWith(init, service);
        if ServiceOf(last.serviceCode) == service && earlier.Some? {
          assert ServiceOf(earlier.value.serviceCode) == ServiceOf(last.serviceCode);
          assert AdjustOne(earlier.value, international) == [];
        }
      }
    }
  }

  /** One-to-one tiers of the returned map: the last quote of the service
      wins, with its cost adjusted once. */
  lemma NormalizedLastWins(rates: seq<Quote>, country: Option<string>, service: Service)
    requires IsOneToOne(service)
    ensures Normalized(rates, country)[TierOf(service).value]
            == AdjustedSlot(LastWith(rates, service), IsInternational(country))
  {
    LastWins(Adjusted(rates, IsInternational(country)), service);
    LastWithAdjusted(rates, IsInternational(country), service);
  }

  /** International destination: each international tier holds the last
      quote of its service with 4.00 added and no other markup. */
  lemma InternationalTiers(rates: seq<Quote>, country: Option<string>)
    requires IsInternational(country)
    ensures var intl := LastWith(rates, PriorityMailIntl);
      Normalized(rates, country)[UspsPriorityIntl]
      == if intl.None? then Empty else Filled(intl.value.shipmentCost + 4.00, intl.value.deliveryDays)
    ensures var ups := LastWith(rates, WorldwideSaver);
      Normalized(rates, country)[UpsWorldwide]
      == if ups.None? then Empty else Filled(ups.value.shipmentCost + 4.00, ups.value.deliveryDays)
  {
    NormalizedLastWins(rates, country, PriorityMailIntl);
    NormalizedLastWins(rates, country, WorldwideSaver);
  }

  /** Domestic destination: ups_ground and usps_priority_mail get 2.00
      added, and an international service code, not being filtered out,
      fills its tier at the carrier's cost with no surcharge. */
  lemma DomesticTiers(rates: seq<Quote>, country: Option<string>)
    requires !IsInternational(country)
    ensures var g := LastWith(rates, Ground);
      Normalized(rates, country)[UpsGroundTier]
      == if g.None? then Empty else Filled(g.value.shipmentCost + 2.00, g.value.deliveryDays)
    ensures var p := LastWith(rates, PriorityMail);
      Normalized(rates, country)[UspsPriority]
      == if p.None? then Empty else Filled(p.value.shipmentCost + 2.00, p.value.deliveryDays)
    ensures var intl := LastWith(rates, PriorityMailIntl);
      Normalized(rates, country)[UspsPriorityIntl]
      == if intl.None? then Empty else Filled(intl.value.shipmentCost, intl.value.deliveryDays)
    ensures var ups := LastWith(rates, WorldwideSaver);
      Normalized(rates, country)[UpsWorldwide]
      == if ups.None? then Empty else Filled(ups.value.shipmentCost, ups.value.deliveryDays)
  {
    NormalizedLastWins(rates, country, Ground);
    NormalizedLastWins(rates, country, PriorityMail);
    NormalizedLastWins(rates, country, PriorityMailIntl);
    NormalizedLastWins(rates, country, WorldwideSaver);
  }

  /** Domestically every quote reaches the tier loop, in order. */
  lemma {:induction false} AdjustedKeepsAll(rates: seq<Quote>, j: nat)
    requires j < |rates|
    ensures |Adjusted(rates, false)| == |rates|
    ensures Adjusted(rates, false)[j] == MarkedUp(rates[j])
  {
    var init := rates[..|rates| - 1];
    if j < |init| {
      AdjustedKeepsAll(init, j);
    } else if init != [] {
      AdjustedKeepsAll(init, 0);
    }
  }

  /** The economy ground services, the two that compete for no_rush. */
  predicate IsEconomy(s: Service) {
    s == GroundAdvantage || s == GroundSaver
  }

  /** Only the economy services fill no_rush, and their markup is 6%. */
  lemma EconomyFillsNoRush(q: Quote)
    ensures Fills(q.serviceCode, NoRush) <==> IsEconomy(ServiceOf(q.serviceCode))
    ensures IsEconomy(ServiceOf(q.serviceCode)) ==>
      MarkedUp(q) == q.(shipmentCost := q.shipmentCost * 1.06)
  {
  }

  /** Domestic no_rush is empty exactly when no economy-ground quote came
      back. */
  lemma DomesticNoRushEmpty(rates: seq<Quote>, country: Option<string>)
    requires !IsInternational(country)
    ensures Normalized(rates, country)[NoRush].Empty? <==>
      forall j :: 0 <= j < |rates| ==> !IsEconomy(ServiceOf(rates[j].serviceCode))
  {
    var s := Adjusted(rates, false);
    PlacedProvenance(s, NoRush);
    if rates != [] {
      AdjustedKeepsAll(rates, 0);
    } else {
      assert s == [];
    }
    forall j | 0 <= j < |rates|
      ensures IsEconomy(ServiceOf(rates[j].serviceCode)) <==> Fills(s[j].serviceCode, NoRush)
    {
      AdjustedKeepsAll(rates, j);
      EconomyFillsNoRush(rates[j]);
    }
  }

  /** A filled domestic no_rush is one economy-ground quote's cost times 1.06,
      with that quote's delivery days. */
  lemma DomesticNoRushSource(rates: seq<Quote>, country: Option<string>)
    requires !IsInternational(country)
    requires Normalized(rates, country)[NoRush].Filled?
    ensures exists j :: (0 <= j < |rates| && IsEconomy(ServiceOf(rates[j].serviceCode))
      && Normalized(rates, country)[NoRush] == Filled(rates[j].shipmentCost * 1.06, rates[j].deliveryDays))
  {
    var s := Adjusted(rates, false);
    PlacedProvenance(s, NoRush);
    var i :| 0 <= i < |s| && Fills(s[i].serviceCode, NoRush) && Placed(s)[NoRush] == SlotOf(Some(s[i]));
    AdjustedKeepsAll(rates, 0);
    AdjustedKeepsAll(rates, i);
    EconomyFillsNoRush(rates[i]);
    assert s[i] == MarkedUp(rates[i]);
  }

  /** Two domestic economy quotes reach the tier loop marked up by 6%, in
      order. */
  lemma EconomyPair(a: Quote, b: Quote)
    requires IsEconomy(ServiceOf(a.serviceCode))
    requires IsEconomy(ServiceOf(b.serviceCode))
    ensures Adjusted([a, b], false)
            == [a.(shipmentCost := a.shipmentCost * 1.06), b.(shipmentCost := b.shipmentCost * 1.06)]
  {
    assert [a, b][..1] == [a];
    assert [a][..0] == [];
    assert MarkedUp(a) == a.(shipmentCost := a.shipmentCost * 1.06);
    assert MarkedUp(b) == b.(shipmentCost := b.shipmentCost * 1.06);
    assert Adjusted([a], false) == [MarkedUp(a)];
  }

  /** Advantage at 5.00 then saver at 4.50, domestic: the saver is cheaper
      after the 6% markup and wins, 4.50 * 1.06 = 4.77. */
  lemma SaverCheaperAfterAdvantage()
    ensures Normalized([Quote("usps_ground_advantage", 5.00, None), Quote("ups_ground_saver", 4.50, None)],
                       Some("US"))[NoRush]
            == Filled(4.77, None)
  {
    var adv, saver := Quote("usps_ground_advantage", 5.00, None), Quote("ups_ground_saver", 4.50, None);
    EconomyPair(adv, saver);
    assert Placed([adv.(shipmentCost := 5.30)]) == InitialMap[NoRush := Filled(5.30, None)];
  }

  /** The same two services in the other order: the advantage quote comes
      last and overwrites no_rush although the saver is cheaper, so the
      economy tier is not always the cheaper quote. */
  lemma AdvantageOverwritesCheaperSaver()
    ensures Normalized([Quote("ups_ground_saver", 6.00, None), Quote("usps_ground_advantage", 6.40, None)],
                       Some("US"))[NoRush]
            == Filled(6.784, None)
  {
    var saver, adv := Quote("ups_ground_saver", 6.00, None), Quote("usps_ground_advantage", 6.40, None);
    EconomyPair(saver, adv);
  }

  /** A saver quote that merely equals the current no_rush amount does not
      replace it: the advantage quote's delivery days stay. */
  lemma EqualSaverKeepsAdvantage()
    ensures Normalized([Quote("usps_ground_advantage", 5.00, Some(3)), Quote("ups_ground_saver", 5.00, Some(5))],
                       None)[NoRush]
            == Filled(5.30, Some(3))
  {
    var adv, saver := Quote("usps_ground_advantage", 5.00, Some(3)), Quote("ups_ground_saver", 5.00, Some(5));
    EconomyPair(adv, saver);
    assert Placed([adv.(shipmentCost := 5.30)]) == InitialMap[NoRush := Filled(5.30, Some(3))];
  }

  /** International detection is not an allow-list: any two countries other
      than "US" get the same rate map, and a missing country is treated as
      "US". */
  lemma OnlyUSIsDomestic(rates: seq<Quote>, c: string, d: string)
    requires c != "US" && d != "US"
    ensures Normalized(rates, Some(c)) == Normalized(rates, Some(d))
    ensures Normalized(rates, None) == Normalized(rates, Some("US"))
    ensures IsInternational(Some(c))
  {
  }

  /** The same priority-international quote costs 30.00 for a "US"
      destination and 34.00 for "CA". */
  lemma InternationalSurchargeOnlyAbroad()
    ensures Normalized([Quote("usps_priority_mail_international", 30.00, Some(7))], Some("US"))[UspsPriorityIntl]
            == Filled(30.00, Some(7))
    ensures Normalized([Quote("usps_priority_mail_international", 30.00, Some(7))], Some("CA"))[UspsPriorityIntl]
            == Filled(34.00, Some(7))
  {
    var rates := [Quote("usps_priority_mail_international", 30.00, Some(7))];
    assert rates[..0] == [];
    InternationalTiers(rates, Some("CA"));
    DomesticTiers(rates, Some("US"));
  }
}
