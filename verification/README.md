# Six cities: page derivations

A model of the pure logic the "6 cities" rental-listing front end computes
from its store before rendering a page. The store, the network and React are
outside the model; what they hand the pages (the current city name, the
city's offers, the error flag, the authorisation status, the user data, the
favourites) are parameters.

- `Offers` — the listing record (`Offer`, `City`, `Location`).
- `OfferSort` — the three comparators of the sort menu and a stable
  insertion sort, with permutation, sortedness and stability proved, and a
  uniqueness lemma: any sorted sequence whose groups of tied offers match the
  input's equals the insertion sort's result. So the model agrees with any
  stable `Array.prototype.sort`, as ECMA-262 requires it to be stable.
- `MainPage` — the city-name fallback and its correction effect, the sort
  view, the "N place(s)" heading, the map centre, the retry dispatch order,
  and the whole main view (server error / empty / listing).
- `OfferPage` — the offer lookup by route id with its not-found page, the
  nearby-offers filter and cap of 3, the gallery cap of 6, and the map's
  offer list.
- `Layout` — the page class table (including the empty `offer` entry that
  JavaScript's truthiness keeps), header visibility, and the choice between
  the profile navigation and the sign-in link.
- `Options` — `Option` for JavaScript's `undefined`, and `Min`.

The supported city list and the default city live in `src/const.ts`, which
is not part of this model. The model uses the six cities the application
serves (Paris, Cologne, Brussels, Amsterdam, Hamburg, Dusseldorf) and Paris
as the default, which the fallback map coordinates in
`src/pages/main-page/main-page.tsx` (lines 96-100) point at.

## Model

| member | source | states |
|---|---|---|
| MainPage.ValidCityName | src/pages/main-page/main-page.tsx:26-29 | the shown city is always a supported city; it is the store's name exactly when that name is supported, otherwise the default city |
| MainPage.CityCorrection | src/pages/main-page/main-page.tsx:33-37 | nothing is dispatched iff the store's name is supported; otherwise exactly one `changeCity(DEFAULT_CITY)` |
| MainPage.CorrectionAgreesWithFallback | src/pages/main-page/main-page.tsx:26-37 | the correction moves the store to the city the page already shows, never to the name it had, and a corrected name needs no further correction |
| MainPage.SortKeyOf | src/pages/main-page/main-page.tsx:48-60 | the three sort labels select a comparator; "Popular" and every unrecognised label fall to the default branch |
| MainPage.SortedOffers | src/pages/main-page/main-page.tsx:45-62 | the view is a permutation of the city's offers of the same length; price ascending, price descending and rating descending orders hold for every pair; tie groups keep input order; "Popular" and any other label return the input as it is |
| MainPage.SortedOffersStable | src/pages/main-page/main-page.tsx:49-53 | under both price orders, the offers of any one price appear in their input order |
| MainPage.SortedOffersStableByRating | src/pages/main-page/main-page.tsx:55-56 | under "Top rated first", the offers of any one rating appear in their input order |
| MainPage.SortedOffersPopular | src/pages/main-page/main-page.tsx:58-60 | the "Popular" label returns the city's offers in their store order |
| MainPage.SortedOffersIdempotent | src/pages/main-page/main-page.tsx:45-62 | sorting an already sorted view by the same option changes nothing |
| OfferSort.Compare | src/pages/main-page/main-page.tsx:50-56 | each comparator puts `a` first or ties it exactly when its price is not larger (ascending), not smaller (descending), or its rating is not smaller (rating); it returns 0 exactly for equal prices or ratings |
| OfferSort.InsertionSort | src/pages/main-page/main-page.tsx:50-56 | the sort returns a permutation, sorted by the comparator's key for every pair, with each group of ties in input order |
| OfferSort.StableSortUnique | src/pages/main-page/main-page.tsx:50-56 | two sequences sorted by the same comparator with the same tie groups are equal, so a stable sort's result is determined |
| OfferSort.AnyStableSortAgrees | src/pages/main-page/main-page.tsx:50-56 | any stable sorted arrangement of the offers is the insertion sort's result |
| OfferSort.SortIdempotent | src/pages/main-page/main-page.tsx:50-56 | re-sorting a sorted sequence by the same comparator returns it unchanged |
| MainPage.IsEmpty | src/pages/main-page/main-page.tsx:31 | the page is empty iff offers failed to load or the city has no offers; without an error, iff there are no offers |
| MainPage.PlacesWord | src/pages/main-page/main-page.tsx:154 | the heading says "place" iff the count is exactly 1, "places" otherwise |
| MainPage.CurrentCity | src/pages/main-page/main-page.tsx:92-101 | the map centre is the first offer's city when there is one, else the fallback location named after the shown city |
| MainPage.MapCentreMatchesTabs | src/pages/main-page/main-page.tsx:92-101 | when all offers belong to the store's city and that city is supported (or there are no offers), the map centre's name is the city the tabs show, in both branches |
| MainPage.MapCentreBeforeCorrection | src/pages/main-page/main-page.tsx:26-101 | for every unsupported store city whose offers all carry that name, the listing puts the tabs on the default city but centres the map on the store's city, so the two differ until the correction effect changes the store's city |
| MainPage.RetryActions | src/pages/main-page/main-page.tsx:87-90 | retry dispatches `resetOffersError` and `fetchOffers` once each, the reset strictly before the fetch |
| MainPage.MainPageView | src/pages/main-page/main-page.tsx:31-184 | the error screen shows iff the error flag is set, with the retry actions; the empty screen or the error screen iff `isEmpty`; the empty screen names the shown city; the listing's heading counts all of the city's offers, says "place" for exactly one and "places" otherwise, names the shown city, lists the sorted view and gives the map the unsorted offers centred on the first one's city |
| OfferPage.FirstWithId | src/pages/offer-page/offer-page.tsx:17 | the index found holds the route id and no earlier offer does; nothing is found iff no offer has the id |
| OfferPage.FindOffer | src/pages/offer-page/offer-page.tsx:17-21 | the offer found is the first one with the route id; none is found iff the route id is absent or no offer has it |
| OfferPage.NearCandidates | src/pages/offer-page/offer-page.tsx:23-24 | an offer is kept iff it is in the list, has a different id and is in the same city |
| OfferPage.NearCandidatesOfConcat | src/pages/offer-page/offer-page.tsx:24 | the filter preserves order: filtering a concatenation concatenates the filtered parts |
| OfferPage.NearOffers | src/pages/offer-page/offer-page.tsx:23-25 | at most 3 offers, all from the list, none with the current id, all in the current city; they are the first min(3, n) candidates, and all of them when fewer than 3 qualify |
| OfferPage.Gallery | src/pages/offer-page/offer-page.tsx:37 | the gallery is a prefix of the images of length min(6, number of images), all of them when there are at most 6 |
| OfferPage.MapOffers | src/pages/offer-page/offer-page.tsx:127 | the map list is the current offer followed by the nearby offers |
| OfferPage.OfferPageView | src/pages/offer-page/offer-page.tsx:17-129 | the not-found page shows iff no offer has the route id; otherwise the offer is the first one with that id, the gallery is the first min(6, n) images, the nearby list is the first min(3, n) offers of the same city with another id, the map gets at most 4 offers starting with the current one, centred on its city, with its id selected |
| Layout.ExtraClasses | src/components/layout/layout.tsx:42 | the table entry is used whenever the key is present, even when it is empty; the gray fallback only for a missing key |
| Layout.PageClasses | src/components/layout/layout.tsx:40-45 | the class list always begins with `page` and holds it only once |
| Layout.PageClassesTable | src/components/layout/layout.tsx:15-20 | main, login, favorites, offer and no type give `[page, page--gray, page--main]`, `[page, page--gray, page--login]`, `[page, page--gray]`, `[page]` and `[page, page--gray]` |
| Layout.GrayExceptOffer | src/components/layout/layout.tsx:15-45 | `page--gray` is present iff the page type is not `offer` |
| Layout.Avatar | src/components/layout/layout.tsx:69-74 | an avatar is drawn iff user data is present with a non-empty URL, and it shows that URL |
| Layout.UserName | src/components/layout/layout.tsx:76 | the name shown is the user's email, or "" when there is no user data |
| Layout.LayoutOf | src/components/layout/layout.tsx:54-105 | the header is drawn iff the page is not the login page; it holds the profile navigation iff the status is `Auth` (`Unknown` and `NoAuth` get the sign-in link); that navigation counts all favourites, shows the email or "" without user data, and an avatar iff a non-empty URL is present |

## Left out

- The store's reducers and selectors (`changeCity`, `resetOffersError`,
  `getCurrentCityOffers`, ...) are not part of this model; their results are
  parameters and the actions the pages dispatch are returned as a list.
- The network thunks of `src/store/api-actions.ts`, the toasts, token
  storage and the sign-out promise chain: I/O and side effects.
- Markup, React state (hovered offer, sort menu open or closed), Helmet and
  the map widget: rendering only. The sort option is a parameter.
- The review list and review items: locale date formatting and
  floating-point star widths.
- Offer fields no derivation reads (host, description, goods, bedrooms,
  occupants, type): carried by the markup only.
- The supported city list and the default city come from `src/const.ts`,
  which is not part of this model: the six cities and Paris as the default
  are an assumption, supported only by the Paris fallback coordinates of the
  main page.
- Prices are JavaScript numbers in the source and unbounded integers
  here; the application's prices are whole euros.
- Ratings are whole tenths of a star rather than floating-point numbers.
  This keeps every comparison the comparators make only for ratings given
  to one decimal place, which is how the application's ratings are given.
- MainPage.MapCentreMatchesTabs: holds only when the store's city is supported or has no
  offers; for an unsupported name with offers the tabs and the map disagree
  on the first render (see MainPage.MapCentreBeforeCorrection) until the
  correction effect updates the store.
- Sorting a copy leaves the store's sequence unchanged; with immutable
  sequences this needs no statement.
