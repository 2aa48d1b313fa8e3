/** The read-only catalog rows that the home page and the category page share.
    Ratings are whole numbers here; the store's floating-point ratings are
    not modelled. */
module Catalog {

  datatype Category = Category(id: string, name: string, slug: string, description: string, icon: string)

  datatype Destination = Destination(
    id: string,
    name: string,
    description: string,
    location: string,
    priceRange: string,
    images: seq<string>,
    features: seq<string>,
    categoryId: string,
    rating: int,
    isFeatured: bool)
}
