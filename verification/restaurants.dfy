/** The restaurant record the API returns and the page displays; read-only here. */
module Restaurants {
  import opened Wrappers

  datatype Restaurant = Restaurant(
    id: int,
    name: string,
    cuisine: Option<string>,
    city: Option<string>,
    rating: Option<real>,
    avgPrice: Option<real>,
    coverImage: Option<string>,
    detail: Option<string>)
}
