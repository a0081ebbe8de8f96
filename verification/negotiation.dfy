/** The offer form of the negotiation panel: four pieces of form state that
    the input handlers overwrite, the checkbox handlers that add and remove a
    service id, and the offer assembled on submit. */
module Negotiation {
  import opened Optional
  import opened Numbers
  import opened Lists
  import opened Pricing

  /** The package under negotiation, as far as the form reads it. */
  datatype Package = Package(price: int, date: string)

  /** The record handed to the chat on submit. */
  datatype Offer = Offer(price: int, date: string, services: seq<string>, note: string)

  /** No id occurs twice. */
  predicate NoDuplicates(s: seq<string>)
  {
    forall i, j :: 0 <= i < j < |s| ==> s[i] != s[j]
  }

  /** In a selection without duplicates every id occurs at most once. */
  lemma {:induction false} NoDuplicatesCount(s: seq<string>, x: string)
    requires NoDuplicates(s)
    ensures multiset(s)[x] == if x in s then 1 else 0
  {
    if s != [] {
      var n := |s| - 1;
      assert s == s[..n] + [s[n]];
      assert NoDuplicates(s[..n]);
      NoDuplicatesCount(s[..n], x);
      assert s[n] !in s[..n];
    }
  }

  /** A selection of catalog ids, each at most once. */
  predicate WellFormedSelection(services: seq<Service>, s: seq<string>)
  {
    && NoDuplicates(s)
    && forall k :: 0 <= k < |s| ==> Find(services, s[k]).Some?
  }

  class NegotiationForm {
    /** The service catalog, priced for the traveler of this chat. */
    const services: seq<Service>
    var price: string
    var date: string
    var selectedServices: seq<string>
    var note: string

    /** The state the checkboxes keep: only catalog ids, each at most once. */
    predicate WellFormed()
      reads this
    {
      WellFormedSelection(services, selectedServices)
    }

    /** The form as the panel first renders it: the package's price as text
        and its date (`''` for both when no package is there yet), no service
        selected and an empty note. Its total is then the package's price, or
        0 without a package. */
    constructor (pkg: Option<Package>, other: ChatUser)
      ensures services == Catalog(TravelerTrip(other))
      ensures pkg.Some? ==> price == Decimal(pkg.value.price) && date == pkg.value.date
      ensures pkg.None? ==> price == "" && date == ""
      ensures selectedServices == [] && note == ""
      ensures WellFormed()
      ensures CalculateTotal(services, price, selectedServices) == if pkg.Some? then pkg.value.price else 0
    {
      services := Catalog(TravelerTrip(other));
      match pkg {
        case Some(p) =>
          price := Decimal(p.price);
          date := p.date;
          BasePriceOfDecimal(p.price);
        case None =>
          price := "";
          date := "";
      }
      selectedServices := [];
      note := "";
    }

    method SetPrice(value: string)
      modifies this`price
      ensures price == value
    {
      price := value;
    }

    method SetDate(value: string)
      modifies this`date
      ensures date == value
    {
      date := value;
    }

    method SetNote(value: string)
      modifies this`note
      ensures note == value
    {
      note := value;
    }

    /** Checking a box appends its id and raises the total by that service's price. */
    method Check(id: string)
      modifies this`selectedServices
      ensures selectedServices == old(selectedServices) + [id]
      ensures CalculateTotal(services, price, selectedServices)
              == old(CalculateTotal(services, price, selectedServices)) + ServicePrice(services, id)
      ensures old(WellFormed()) && Find(services, id).Some? && id !in old(selectedServices)
              ==> WellFormed()
    {
      TotalAfterSelect(services, price, selectedServices, id);
      selectedServices := selectedServices + [id];
    }

    /** Unchecking a box removes every occurrence of its id, keeping the rest in
        order; on a well-formed selection the total drops by that price once. */
    method Uncheck(id: string)
      modifies this`selectedServices
      ensures selectedServices == Unselect(old(selectedServices), id)
      ensures CalculateTotal(services, price, selectedServices)
              == old(CalculateTotal(services, price, selectedServices))
                 - multiset(old(selectedServices))[id] * ServicePrice(services, id)
      ensures old(WellFormed()) ==> WellFormed()
      ensures old(WellFormed()) ==>
                CalculateTotal(services, price, selectedServices)
                == old(CalculateTotal(services, price, selectedServices))
                   - (if id in old(selectedServices) then ServicePrice(services, id) else 0)
    {
      var before := selectedServices;
      TotalAfterUnselect(services, price, before, id);
      selectedServices := Unselect(before, id);
      if WellFormedSelection(services, before) {
        NoDuplicatesCount(before, id);
        UnselectKeepsWellFormed(services, before, id);
      }
    }

    /** The checkbox's change handler. Each box carries a catalog id and shows
        as checked exactly when its id is selected, so a click asks to check
        an id that is absent or to uncheck one that is present; either keeps
        the selection well formed. */
    method OnServiceChange(id: string, checked: bool)
      modifies this`selectedServices
      ensures checked ==> selectedServices == old(selectedServices) + [id]
      ensures !checked ==> selectedServices == Unselect(old(selectedServices), id)
      ensures old(WellFormed()) && Find(services, id).Some? && checked == (id !in old(selectedServices))
              ==> WellFormed()
    {
      if checked {
        Check(id);
      } else {
        Uncheck(id);
      }
    }

    /** The offer sent on submit: the computed total, and the date, services
        and note exactly as the form holds them. The price and date inputs are
        required, so the form submits only when both are filled in. */
    method Submit() returns (offer: Offer)
      requires price != "" && date != ""
      ensures offer.price == BasePrice(price) + SumPrices(services, selectedServices)
      ensures offer.date == date && offer.services == selectedServices && offer.note == note
    {
      offer := Offer(CalculateTotal(services, price, selectedServices), date, selectedServices, note);
    }
  }

  /** Removing an id keeps a selection duplicate-free and inside the catalog. */
  lemma UnselectKeepsWellFormed(services: seq<Service>, s: seq<string>, id: string)
    requires WellFormedSelection(services, s)
    ensures WellFormedSelection(services, Unselect(s, id))
  {
    var r := Unselect(s, id);
    var idx := KeptIndices(s, Other(id));
    forall i, j | 0 <= i < j < |r| ensures r[i] != r[j] {
      assert r[i] == s[idx[i]] && r[j] == s[idx[j]] && idx[i] < idx[j];
    }
    forall k | 0 <= k < |r| ensures Find(services, r[k]).Some? {
      assert r[k] == s[idx[k]];
    }
  }
}
