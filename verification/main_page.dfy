/** What the main page derives from the store before rendering: the city
    name it trusts, the correction it dispatches for an unknown city, the
    sorted view of the city's offers, the "N place(s)" heading, the map
    centre, and the actions behind the retry button. */
module MainPage {
  import opened Offers
  import opened Options
  import opened OfferSort

  /** The supported cities and the one an unknown name falls back to. */
  const Cities: seq<string> := ["Paris", "Cologne", "Brussels", "Amsterdam", "Hamburg", "Dusseldorf"]
  const DefaultCity: string := "Paris"

  /** Where the map looks when the city has no offer to take a centre from. */
  const FallbackLocation: Location := Location(48.85661, 2.351499, 12)

  /** The sort menu's labels; the page switches on these strings. */
  const PopularLabel: string := "Popular"
  const PriceLowToHighLabel: string := "Price: low to high"
  const PriceHighToLowLabel: string := "Price: high to low"
  const TopRatedFirstLabel: string := "Top rated first"

  /** The store actions the page dispatches. */
  datatype Action = ChangeCity(city: string) | ResetOffersError | FetchOffers

  /** The store data the page selects. */
  datatype MainState = MainState(
    currentCityName: string,
    currentCityOffers: seq<Offer>,
    offersError: bool
  )

  /** The "N places to stay in C" heading. */
  datatype FoundHeading = FoundHeading(count: nat, word: string, city: string)

  /** What the page renders. */
  datatype MainView =
    | ServerError(onRetry: seq<Action>)
    | NoPlaces(emptyCity: string)
    | Places(tabCity: string, heading: FoundHeading, listed: seq<Offer>,
             mapCity: City, mapOffers: seq<Offer>)

  /** The city the page shows: the store's name when it is supported,
      the default city otherwise. */
  function ValidCityName(name: string): (r: string)
    ensures r in Cities
    ensures r == name <==> name in Cities
    ensures name !in Cities ==> r == DefaultCity
  {
    if name in Cities then name else DefaultCity
  }

  /** The actions the correction effect dispatches for the store's city name. */
  function CityCorrection(name: string): (dispatched: seq<Action>)
    ensures |dispatched| <= 1
    ensures dispatched == [] <==> name in Cities
    ensures forall a :: a in dispatched ==> a == ChangeCity(DefaultCity)
  {
    if name !in Cities then [ChangeCity(DefaultCity)] else []
  }

  /** The correction moves the store to the very city the page already
      shows, and a corrected name triggers no further correction. */
  lemma CorrectionAgreesWithFallback(name: string)
    ensures forall a :: a in CityCorrection(name) ==> a.ChangeCity? && a.city == ValidCityName(name) && a.city != name
    ensures CityCorrection(ValidCityName(name)) == []
  {
  }

  /** The sort comparator a menu option selects; `None` is the "Popular"
      case, which every unrecognised option reaches through `default`. */
  function SortKeyOf(option: string): (k: Option<SortKey>)
    ensures k.None? <==> option !in {PriceLowToHighLabel, PriceHighToLowLabel, TopRatedFirstLabel}
  {
    if option == PriceLowToHighLabel then Some(PriceAscending)
    else if option == PriceHighToLowLabel then Some(PriceDescending)
    else if option == TopRatedFirstLabel then Some(RatingDescending)
    else None
  }

  /** The offers in the order the chosen sort option lists them. */
  function SortedOffers(offers: seq<Offer>, option: string): (r: seq<Offer>)
    ensures multiset(r) == multiset(offers)
    ensures |r| == |offers|
    ensures option == PriceLowToHighLabel ==>
      forall i, j :: 0 <= i < j < |r| ==> r[i].price <= r[j].price
    ensures option == PriceHighToLowLabel ==>
      forall i, j :: 0 <= i < j < |r| ==> r[i].price >= r[j].price
    ensures option == TopRatedFirstLabel ==>
      forall i, j :: 0 <= i < j < |r| ==> r[i].rating >= r[j].rating
    ensures SortKeyOf(option).Some? ==>
      forall i, j :: 0 <= i < j < |r| ==> Compare(SortKeyOf(option).value, r[i], r[j]) <= 0
    ensures SortKeyOf(option).Some? ==>
      forall k :: Ties(SortKeyOf(option).value, r, k) == Ties(SortKeyOf(option).value, offers, k)
    ensures SortKeyOf(option).None? ==> r == offers
  {
    match SortKeyOf(option)
    case None => offers
    case Some(order) =>
      var r := InsertionSort(order, offers);
      assert forall i, j :: 0 <= i < j < |r| ==> Key(order, r[i]) <= Key(order, r[j]);
      assert |r| == |multiset(r)| == |multiset(offers)| == |offers|;
      r
  }

  /** Equal prices under a price order, equal ratings under the rating
      order, keep their input order: stability stated on the offers. */
  lemma SortedOffersStable(offers: seq<Offer>, option: string, p: int)
    requires option == PriceLowToHighLabel || option == PriceHighToLowLabel
    ensures OffersPriced(SortedOffers(offers, option), p) == OffersPriced(offers, p)
  {
    var order := SortKeyOf(option).value;
    var k := if order == PriceAscending then p else -p;
    TiesArePriced(order, SortedOffers(offers, option), p, k);
    TiesArePriced(order, offers, p, k);
  }

  /** The offers of `s` priced `p`, in order. */
  function OffersPriced(s: seq<Offer>, p: int): (t: seq<Offer>)
    ensures forall x :: x in t ==> x in s && x.price == p
  {
    if |s| == 0 then []
    else (if s[0].price == p then [s[0]] else []) + OffersPriced(s[1..], p)
  }

  lemma {:induction false} TiesArePriced(order: SortKey, s: seq<Offer>, p: int, k: int)
    requires order == PriceAscending || order == PriceDescending
    requires k == (if order == PriceAscending then p else -p)
    ensures Ties(order, s, k) == OffersPriced(s, p)
    decreases |s|
  {
    if |s| > 0 {
      TiesArePriced(order, s[1..], p, k);
    }
  }

  lemma SortedOffersStableByRating(offers: seq<Offer>, q: int)
    ensures OffersRated(SortedOffers(offers, TopRatedFirstLabel), q) == OffersRated(offers, q)
  {
    TiesAreRated(SortedOffers(offers, TopRatedFirstLabel), q);
    TiesAreRated(offers, q);
  }

  /** The offers of `s` rated `q`, in order. */
  function OffersRated(s: seq<Offer>, q: int): (t: seq<Offer>)
    ensures forall x :: x in t ==> x in s && x.rating == q
  {
    if |s| == 0 then []
    else (if s[0].rating == q then [s[0]] else []) + OffersRated(s[1..], q)
  }

  lemma {:induction false} TiesAreRated(s: seq<Offer>, q: int)
    ensures Ties(RatingDescending, s, -q) == OffersRated(s, q)
    decreases |s|
  {
    if |s| > 0 {
      TiesAreRated(s[1..], q);
    }
  }

  /** "Popular" lists the city's offers in the order the store holds them. */
  lemma SortedOffersPopular(offers: seq<Offer>)
    ensures SortedOffers(offers, PopularLabel) == offers
  {
  }

  /** A second sort by the same option leaves the view as it was. */
  lemma SortedOffersIdempotent(offers: seq<Offer>, option: string)
    ensures SortedOffers(SortedOffers(offers, option), option) == SortedOffers(offers, option)
  {
    if SortKeyOf(option).Some? {
      SortIdempotent(SortKeyOf(option).value, offers);
    }
  }

  /** The `isEmpty` flag: an error, or no offers in the city. */
  function IsEmpty(offersError: bool, cityOffers: seq<Offer>): (empty: bool)
    ensures empty <==> offersError || cityOffers == []
    ensures !offersError ==> (empty <==> cityOffers == [])
  {
    offersError || |cityOffers| == 0
  }

  /** The heading's noun, singular only for exactly one place. */
  function PlacesWord(count: nat): (w: string)
    ensures w == "place" <==> count == 1
    ensures w == "places" <==> count != 1
  {
    if count == 1 then "place" else "places"
  }

  /** The map's centre: the first offer's city, or the fallback location
      named after the city the page shows. */
  function CurrentCity(cityOffers: seq<Offer>, validName: string): (c: City)
    ensures |cityOffers| > 0 ==> c == cityOffers[0].city
    ensures |cityOffers| == 0 ==> c == City(validName, FallbackLocation)
  {
    if |cityOffers| > 0 then cityOffers[0].city
    else City(validName, FallbackLocation)
  }

  /** When the offers are the city's own (all carry the store's city name),
      the map is centred on the city the tabs show, whichever branch fires. */
  lemma MapCentreMatchesTabs(cityOffers: seq<Offer>, name: string)
    requires forall o :: o in cityOffers ==> o.city.name == name
    requires |cityOffers| == 0 || name in Cities
    ensures CurrentCity(cityOffers, ValidCityName(name)).name == ValidCityName(name)
  {
    if |cityOffers| > 0 {
      assert cityOffers[0] in cityOffers;
    }
  }

  /** Before the correction effect has run, a store holding an unsupported
      city name with offers renders the tabs on the default city while the
      map is centred on the store's city. */
  lemma MapCentreBeforeCorrection(name: string, cityOffers: seq<Offer>, sortOption: string)
    requires name !in Cities && |cityOffers| > 0
    requires forall o :: o in cityOffers ==> o.city.name == name
    ensures var v := MainPageView(MainState(name, cityOffers, false), sortOption);
            v.Places? && v.tabCity == DefaultCity && v.mapCity.name == name && v.tabCity != v.mapCity.name
  {
    assert cityOffers[0] in cityOffers;
  }

  /** The retry button's dispatches: the error is cleared before the new
      fetch starts, and each is dispatched once. */
  function RetryActions(): (r: seq<Action>)
    ensures multiset(r) == multiset{ResetOffersError, FetchOffers}
    ensures forall i, j :: 0 <= i < |r| && 0 <= j < |r| && r[i] == ResetOffersError && r[j] == FetchOffers ==> i < j
  {
    [ResetOffersError, FetchOffers]
  }

  /** The whole page: the server-error screen on an error, the empty screen
      when the city has no offers, the listing otherwise. */
  function MainPageView(state: MainState, sortOption: string): (v: MainView)
    ensures v.ServerError? <==> state.offersError
    ensures v.ServerError? ==> v.onRetry == RetryActions()
    ensures v.ServerError? || v.NoPlaces? <==> IsEmpty(state.offersError, state.currentCityOffers)
    ensures v.NoPlaces? ==> v.emptyCity == ValidCityName(state.currentCityName)
    ensures v.Places? ==>
      && v.tabCity == v.heading.city == ValidCityName(state.currentCityName)
      && v.heading.count == |v.listed| == |state.currentCityOffers| > 0
      && (v.heading.word == "place" <==> |state.currentCityOffers| == 1)
      && (v.heading.word == "places" <==> |state.currentCityOffers| != 1)
      && v.listed == SortedOffers(state.currentCityOffers, sortOption)
      && v.mapOffers == state.currentCityOffers
      && v.mapCity == state.currentCityOffers[0].city
  {
    var validName := ValidCityName(state.currentCityName);
    if state.offersError then ServerError(RetryActions())
    else if IsEmpty(state.offersError, state.currentCityOffers) then NoPlaces(validName)
    else
      var sorted := SortedOffers(state.currentCityOffers, sortOption);
      Places(validName, FoundHeading(|sorted|, PlacesWord(|sorted|), validName), sorted,
             CurrentCity(state.currentCityOffers, validName), state.currentCityOffers)
  }
}
