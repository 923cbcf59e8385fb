/** The rental-listing records the pages derive their views from. Only the
    fields a derivation looks at are kept; the rest of an offer (host,
    description, goods, bedrooms, ...) is markup data and is left out. */
module Offers {

  /** Map coordinates. They are only ever passed through to the map widget,
      so they are kept as exact values and never computed with. */
  datatype Location = Location(latitude: real, longitude: real, zoom: int)

  datatype City = City(name: string, location: Location)

  /** One listing. `price` is whole euros a night; `rating` is in tenths of
      a star (4.8 stars is 48), which preserves every comparison the
      sort comparators make. */
  datatype Offer = Offer(
    id: string,
    title: string,
    price: int,
    rating: int,
    isPremium: bool,
    isFavorite: bool,
    city: City,
    images: seq<string>
  )
}
