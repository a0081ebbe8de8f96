/** The service catalog of the negotiation panel and the offer total:
    per-traveler price overrides with fixed defaults, a lookup by id, and the
    `reduce` that adds the price of every selected id to the base price. */
module Pricing {
  import opened Optional
  import opened Lists
  import opened Numbers

  /** A traveler's own prices for the extra services; each may be missing. */
  datatype TripPricing = TripPricing(insurance: Option<int>, priority: Option<int>, tracking: Option<int>)

  /** The part of a traveler's active trip the panel reads. */
  datatype Trip = Trip(pricing: Option<TripPricing>)

  /** The other party of the chat: its role and, for a traveler, its active trip. */
  datatype ChatUser = ChatUser(role: string, activeTrip: Option<Trip>)

  /** An extra service offered with a delivery (the icon is left out). */
  datatype Service = Service(id: string, name: string, price: int, description: string)

  const DefaultInsurance := 5
  const DefaultPriority := 10
  const DefaultTracking := 3

  /** The trip whose prices apply: the other user's active trip when that user
      is a traveler, and none otherwise. */
  function TravelerTrip(other: ChatUser): (t: Option<Trip>)
    ensures other.role != "traveler" ==> t == None
    ensures other.role == "traveler" ==> t == other.activeTrip
  {
    if other.role == "traveler" then other.activeTrip else None
  }

  /** `travelerTrip?.pricing`: missing when there is no trip or the trip has no prices. */
  function PricingOf(trip: Option<Trip>): (p: Option<TripPricing>)
    ensures trip.None? ==> p.None?
    ensures trip.Some? ==> p == trip.value.pricing
  {
    match trip
    case None => None
    case Some(t) => t.pricing
  }

  /** `travelerTrip?.pricing?.insurance` */
  function InsuranceOverride(trip: Option<Trip>): (o: Option<int>)
    ensures PricingOf(trip).None? ==> o.None?
    ensures PricingOf(trip).Some? ==> o == PricingOf(trip).value.insurance
  {
    match PricingOf(trip)
    case None => None
    case Some(p) => p.insurance
  }

  /** `travelerTrip?.pricing?.priority` */
  function PriorityOverride(trip: Option<Trip>): (o: Option<int>)
    ensures PricingOf(trip).None? ==> o.None?
    ensures PricingOf(trip).Some? ==> o == PricingOf(trip).value.priority
  {
    match PricingOf(trip)
    case None => None
    case Some(p) => p.priority
  }

  /** `travelerTrip?.pricing?.tracking` */
  function TrackingOverride(trip: Option<Trip>): (o: Option<int>)
    ensures PricingOf(trip).None? ==> o.None?
    ensures PricingOf(trip).Some? ==> o == PricingOf(trip).value.tracking
  {
    match PricingOf(trip)
    case None => None
    case Some(p) => p.tracking
  }

  /** The three services, each priced at the trip's override when it is
      truthy and at its default otherwise. */
  function Catalog(trip: Option<Trip>): (c: seq<Service>)
    ensures |c| == 3
    ensures c[0].id == "insurance" && c[1].id == "priority" && c[2].id == "tracking"
    ensures c[0].price == Or(InsuranceOverride(trip), DefaultInsurance)
    ensures c[1].price == Or(PriorityOverride(trip), DefaultPriority)
    ensures c[2].price == Or(TrackingOverride(trip), DefaultTracking)
  {
    [ Service("insurance", "Insurance", Or(InsuranceOverride(trip), DefaultInsurance),
              "Full coverage for your package"),
      Service("priority", "Priority Delivery", Or(PriorityOverride(trip), DefaultPriority),
              "Faster delivery time"),
      Service("tracking", "Live Tracking", Or(TrackingOverride(trip), DefaultTracking),
              "Real-time package location") ]
  }

  /** `services.find(s => s.id === id)`: the first service with that id. */
  function Find(catalog: seq<Service>, id: string): (r: Option<Service>)
    ensures r.None? <==> forall k :: 0 <= k < |catalog| ==> catalog[k].id != id
    ensures r.Some? ==> r.value in catalog
    ensures r.Some? ==> r.value.id == id
  {
    if catalog == [] then None
    else if catalog[0].id == id then Some(catalog[0])
    else
      var r := Find(catalog[1..], id);
      assert forall k :: 1 <= k < |catalog| ==> catalog[k] == catalog[1..][k - 1];
      r
  }

  /** Find returns the first service whose id matches, not merely some matching one. */
  lemma {:induction false} FindFirst(catalog: seq<Service>, id: string, k: nat)
    requires k < |catalog| && catalog[k].id == id
    requires forall j :: 0 <= j < k ==> catalog[j].id != id
    ensures Find(catalog, id) == Some(catalog[k])
  {
    if k > 0 {
      FindFirst(catalog[1..], id, k - 1);
    }
  }

  /** `service?.price || 0`: what one selected id adds to the total. */
  function ServicePrice(catalog: seq<Service>, id: string): (p: int)
    ensures (forall k :: 0 <= k < |catalog| ==> catalog[k].id != id) ==> p == 0
    ensures Find(catalog, id).Some? ==> p == Find(catalog, id).value.price
  {
    Or(match Find(catalog, id) case None => None case Some(s) => Some(s.price), 0)
  }

  /** The reference sum: the catalog prices of the selected ids, added up. */
  function SumPrices(catalog: seq<Service>, selected: seq<string>): int
  {
    if selected == [] then 0
    else SumPrices(catalog, selected[..|selected| - 1]) + ServicePrice(catalog, selected[|selected| - 1])
  }

  /** `selected.reduce((total, id) => total + price(id), acc)`: the left fold
      the panel runs, one id at a time from the front. */
  function ServicesTotal(catalog: seq<Service>, selected: seq<string>, acc: int): (t: int)
    ensures t == acc + SumPrices(catalog, selected)
  {
    if selected == [] then acc
    else
      SumCons(catalog, selected);
      ServicesTotal(catalog, selected[1..], acc + ServicePrice(catalog, selected[0]))
  }

  /** `calculateTotal()`: the base price plus the price of every selected id. */
  function CalculateTotal(catalog: seq<Service>, price: string, selected: seq<string>): (t: int)
    ensures t == BasePrice(price) + SumPrices(catalog, selected)
    ensures selected == [] ==> t == BasePrice(price)
    ensures price == "" && selected == [] ==> t == 0
  {
    BasePrice(price) + ServicesTotal(catalog, selected, 0)
  }

  /** `prev.filter(x => x !== id)`: the selection with every occurrence of `id` removed. */
  function Unselect(selected: seq<string>, id: string): (r: seq<string>)
    ensures id !in r
    ensures forall x :: x != id ==> multiset(r)[x] == multiset(selected)[x]
  {
    var r := Filter(selected, Other(id));
    forall x ensures multiset(r)[x] == if x != id then multiset(selected)[x] else 0 {
      FilterCount(selected, Other(id), x);
    }
    r
  }

  /** The filter predicate `x => x !== id`. */
  function Other(id: string): (keep: string -> bool)
    ensures !keep(id)
    ensures forall x :: x != id ==> keep(x)
  {
    x => x != id
  }

  lemma {:induction false} SumAppend(catalog: seq<Service>, a: seq<string>, b: seq<string>)
    ensures SumPrices(catalog, a + b) == SumPrices(catalog, a) + SumPrices(catalog, b)
  {
    if b == [] {
      assert a + b == a;
    } else {
      var b' := b[..|b| - 1];
      assert (a + b)[..|a + b| - 1] == a + b';
      SumAppend(catalog, a, b');
    }
  }

  lemma SumCons(catalog: seq<Service>, s: seq<string>)
    requires s != []
    ensures SumPrices(catalog, s) == ServicePrice(catalog, s[0]) + SumPrices(catalog, s[1..])
  {
    assert s == [s[0]] + s[1..];
    SumAppend(catalog, [s[0]], s[1..]);
  }

  /** The total does not depend on the order in which services were selected:
      any two selections that are permutations of each other sum alike. */
  lemma {:induction false} SumPermutation(catalog: seq<Service>, a: seq<string>, b: seq<string>)
    requires multiset(a) == multiset(b)
    ensures SumPrices(catalog, a) == SumPrices(catalog, b)
    decreases |a|
  {
    if a != [] {
      var n := |a| - 1;
      var x := a[n];
      assert a == a[..n] + [x];
      assert x in multiset(b);
      var j :| 0 <= j < |b| && b[j] == x;
      var b' := b[..j] + b[j + 1..];
      assert b == b[..j] + [x] + b[j + 1..];
      calc {
        multiset(a[..n]);
        multiset(a) - multiset{x};
        multiset(b) - multiset{x};
        { assert multiset(b) == multiset(b[..j]) + multiset{x} + multiset(b[j + 1..]); }
        multiset(b[..j]) + multiset(b[j + 1..]);
        multiset(b');
      }
      SumPermutation(catalog, a[..n], b');
      SumAppend(catalog, b[..j] + [x], b[j + 1..]);
      SumAppend(catalog, b[..j], [x]);
      SumAppend(catalog, b[..j], b[j + 1..]);
      SumSingle(catalog, x);
    }
  }

  /** Removing every occurrence of `id` takes its price off once per occurrence. */
  lemma UnselectSnoc(s: seq<string>, x: string, id: string)
    ensures Unselect(s + [x], id) == Unselect(s, id) + (if x != id then [x] else [])
  {
    assert (s + [x])[..|s|] == s;
  }

  lemma {:induction false} SumUnselect(catalog: seq<Service>, selected: seq<string>, id: string)
    ensures SumPrices(catalog, Unselect(selected, id))
            + multiset(selected)[id] * ServicePrice(catalog, id)
            == SumPrices(catalog, selected)
  {
    if selected != [] {
      var n := |selected| - 1;
      var front, last := selected[..n], selected[n];
      SumUnselect(catalog, front, id);
      SumUnselectStep(catalog, selected, id);
      CountStep(selected, id);
      OneMore(multiset(front)[id], last == id, ServicePrice(catalog, id));
    }
  }

  /** One step of SumUnselect: the last id is kept, or dropped when it is `id`. */
  lemma SumUnselectStep(catalog: seq<Service>, s: seq<string>, id: string)
    requires s != []
    ensures var front, last := s[..|s| - 1], s[|s| - 1];
            && SumPrices(catalog, s) == SumPrices(catalog, front) + ServicePrice(catalog, last)
            && SumPrices(catalog, Unselect(s, id))
               == SumPrices(catalog, Unselect(front, id)) + (if last != id then ServicePrice(catalog, last) else 0)
  {
    var front, last := s[..|s| - 1], s[|s| - 1];
    var kept := if last != id then [last] else [];
    assert s == front + [last];
    UnselectSnoc(front, last, id);
    SumAppend(catalog, Unselect(front, id), kept);
    if last != id {
      SumSingle(catalog, last);
    }
  }

  lemma CountStep(s: seq<string>, id: string)
    requires s != []
    ensures multiset(s)[id] == multiset(s[..|s| - 1])[id] + (if s[|s| - 1] == id then 1 else 0)
  {
    assert s == s[..|s| - 1] + [s[|s| - 1]];
  }

  lemma SumSingle(catalog: seq<Service>, x: string)
    ensures SumPrices(catalog, [x]) == ServicePrice(catalog, x)
  {
    assert [x][..0] == [];
  }

  lemma OneMore(m: int, b: bool, p: int)
    ensures (m + (if b then 1 else 0)) * p == m * p + (if b then p else 0)
  {
  }

  /** Checking a service raises the total by exactly its catalog price. */
  lemma TotalAfterSelect(catalog: seq<Service>, price: string, selected: seq<string>, id: string)
    ensures CalculateTotal(catalog, price, selected + [id])
            == CalculateTotal(catalog, price, selected) + ServicePrice(catalog, id)
  {
    assert (selected + [id])[..|selected|] == selected;
  }

  /** Unchecking a service lowers the total by its price once per occurrence. */
  lemma TotalAfterUnselect(catalog: seq<Service>, price: string, selected: seq<string>, id: string)
    ensures CalculateTotal(catalog, price, Unselect(selected, id))
            == CalculateTotal(catalog, price, selected) - multiset(selected)[id] * ServicePrice(catalog, id)
  {
    SumUnselect(catalog, selected, id);
  }

  /** An id that names no service adds nothing, wherever it sits in the selection. */
  lemma UnknownIdAddsNothing(trip: Option<Trip>, price: string, a: seq<string>, b: seq<string>, id: string)
    requires id != "insurance" && id != "priority" && id != "tracking"
    ensures CalculateTotal(Catalog(trip), price, a + [id] + b) == CalculateTotal(Catalog(trip), price, a + b)
  {
    var c := Catalog(trip);
    assert ServicePrice(c, id) == 0;
    SumAppend(c, a + [id], b);
    SumAppend(c, a, b);
    assert (a + [id])[..|a|] == a;
  }

  /** The price of each id in the catalog: the override when truthy, else the
      default; 0 for any other id. A zero override therefore falls back. */
  lemma CatalogPrice(trip: Option<Trip>, id: string)
    ensures ServicePrice(Catalog(trip), id) ==
      if id == "insurance" then Or(InsuranceOverride(trip), DefaultInsurance)
      else if id == "priority" then Or(PriorityOverride(trip), DefaultPriority)
      else if id == "tracking" then Or(TrackingOverride(trip), DefaultTracking)
      else 0
    ensures ServicePrice(Catalog(trip), id) != 0 <==> id in ["insurance", "priority", "tracking"]
  {
    var c := Catalog(trip);
    if id == "insurance" {
      assert Find(c, id) == Some(c[0]);
    } else if id == "priority" {
      assert Find(c, id) == Some(c[1]);
    } else if id == "tracking" {
      assert Find(c, id) == Some(c[2]);
    }
  }

  /** With no trip prices, an offer at 100 with insurance and tracking comes to 108. */
  lemma DefaultTotalExample()
    ensures CalculateTotal(Catalog(None), "100", ["insurance", "tracking"]) == 108
  {
    CatalogPrice(None, "insurance");
    CatalogPrice(None, "tracking");
    assert ["insurance", "tracking"][..1] == ["insurance"];
    assert DigitsValue("100") == 100 by {
      assert "100"[..2] == "10";
      assert "10"[..1] == "1";
    }
  }
}
