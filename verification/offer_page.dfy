/** What the offer page derives before rendering: the offer the route names
    (or the not-found page), up to three nearby offers, the first six
    gallery images, and the list the map marks. */
module OfferPage {
  import opened Options
  import opened Offers

  /** At most this many nearby offers and gallery images are shown. */
  const NearLimit: nat := 3
  const GalleryLimit: nat := 6

  datatype OfferView =
    | NotFound
    | Details(offer: Offer, gallery: seq<string>, nearOffers: seq<Offer>,
              mapCity: City, mapOffers: seq<Offer>, selectedId: string)

  /** Position of the first offer whose id is `id`, as `Array.prototype.find` scans. */
  function FirstWithId(offers: seq<Offer>, id: string): (r: Option<nat>)
    ensures r.Some? ==> r.value < |offers| && offers[r.value].id == id
    ensures r.Some? ==> forall j :: 0 <= j < r.value ==> offers[j].id != id
    ensures r.None? <==> forall j :: 0 <= j < |offers| ==> offers[j].id != id
  {
    if |offers| == 0 then None
    else if offers[0].id == id then Some(0)
    else match FirstWithId(offers[1..], id)
      case None => None
      case Some(i) => Some(i + 1)
  }

  /** The offer the route parameter names; a missing parameter matches nothing. */
  function FindOffer(offers: seq<Offer>, routeId: Option<string>): (r: Option<Offer>)
    ensures r.None? <==> routeId.None? || forall o :: o in offers ==> o.id != routeId.value
    ensures r.Some? ==> routeId.Some? && r.value in offers && r.value.id == routeId.value
    ensures r.Some? ==> exists i :: 0 <= i < |offers| && offers[i] == r.value &&
                          forall j :: 0 <= j < i ==> offers[j].id != routeId.value
  {
    match routeId
    case None => None
    case Some(id) =>
      match FirstWithId(offers, id)
      case None => None
      case Some(i) => Some(offers[i])
  }

  /** An offer counts as nearby when it is another offer in the same city. */
  predicate IsNear(o: Offer, id: string, cityName: string)
  {
    o.id != id && o.city.name == cityName
  }

  /** The order-preserving filter of the offers that count as nearby. */
  function NearCandidates(offers: seq<Offer>, id: string, cityName: string): (r: seq<Offer>)
    ensures |r| <= |offers|
    ensures forall o :: o in r <==> o in offers && IsNear(o, id, cityName)
  {
    if |offers| == 0 then []
    else (if IsNear(offers[0], id, cityName) then [offers[0]] else [])
         + NearCandidates(offers[1..], id, cityName)
  }

  /** The filter keeps order: filtering a concatenation concatenates the
      filtered parts. */
  lemma {:induction false} NearCandidatesOfConcat(a: seq<Offer>, b: seq<Offer>, id: string, cityName: string)
    ensures NearCandidates(a + b, id, cityName) == NearCandidates(a, id, cityName) + NearCandidates(b, id, cityName)
    decreases |a|
  {
    if |a| == 0 {
      assert a + b == b;
    } else {
      assert (a + b)[1..] == a[1..] + b;
      NearCandidatesOfConcat(a[1..], b, id, cityName);
    }
  }

  /** The nearby offers: the first three candidates, in their order. */
  function NearOffers(offers: seq<Offer>, current: Offer): (r: seq<Offer>)
    ensures |r| <= NearLimit
    ensures forall o :: o in r ==> o in offers && o.id != current.id && o.city.name == current.city.name
    ensures r <= NearCandidates(offers, current.id, current.city.name)
    ensures |NearCandidates(offers, current.id, current.city.name)| <= NearLimit ==>
              r == NearCandidates(offers, current.id, current.city.name)
    ensures |r| == Min(NearLimit, |NearCandidates(offers, current.id, current.city.name)|)
  {
    var candidates := NearCandidates(offers, current.id, current.city.name);
    var r := candidates[..Min(NearLimit, |candidates|)];
    assert forall o :: o in r ==> o in candidates;
    r
  }

  /** The gallery: the first six images, in their order. */
  function Gallery(images: seq<string>): (r: seq<string>)
    ensures r <= images
    ensures |r| == Min(GalleryLimit, |images|)
    ensures |images| <= GalleryLimit ==> r == images
  {
    images[..Min(GalleryLimit, |images|)]
  }

  /** The map's offers: the current one first, then the nearby ones. */
  function MapOffers(current: Offer, nearOffers: seq<Offer>): (r: seq<Offer>)
    ensures |r| == |nearOffers| + 1
    ensures r[0] == current && r[1..] == nearOffers
  {
    [current] + nearOffers
  }

  /** The page for the route parameter `routeId`. */
  function OfferPageView(offers: seq<Offer>, routeId: Option<string>): (v: OfferView)
    ensures v.NotFound? <==> routeId.None? || forall o :: o in offers ==> o.id != routeId.value
    ensures v.Details? ==>
      && routeId.Some? && v.offer.id == routeId.value && v.offer in offers
      && (exists i :: 0 <= i < |offers| && offers[i] == v.offer &&
            forall j :: 0 <= j < i ==> offers[j].id != routeId.value)
      && v.gallery <= v.offer.images && |v.gallery| == Min(GalleryLimit, |v.offer.images|)
      && v.nearOffers <= NearCandidates(offers, routeId.value, v.offer.city.name)
      && |v.nearOffers| == Min(NearLimit, |NearCandidates(offers, routeId.value, v.offer.city.name)|)
      && |v.nearOffers| <= NearLimit
      && (forall o :: o in v.nearOffers ==> o in offers && o.id != routeId.value && o.city.name == v.offer.city.name)
      && v.mapCity == v.offer.city
      && |v.mapOffers| == |v.nearOffers| + 1 <= NearLimit + 1
      && v.mapOffers[0] == v.offer && v.mapOffers[1..] == v.nearOffers
      && v.selectedId == v.offer.id
  {
    match FindOffer(offers, routeId)
    case None => NotFound
    case Some(current) =>
      var near := NearOffers(offers, current);
      Details(current, Gallery(current.images), near, current.city, MapOffers(current, near), current.id)
  }
}
