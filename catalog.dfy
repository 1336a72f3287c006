/** The catalog entity the shell and the collection page read. The catalog itself
    (`data/products` and `getProductBySlug`) is not part of this model: callers pass
    the product list, and the lookup as a function. */
module Catalog {

  /** A catalog product, reduced to the fields the modelled logic reads. */
  datatype Product = Product(id: string, slug: string, title: string, images: seq<string>)
}
