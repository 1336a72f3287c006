/** Which page tree the application shell renders (App.tsx:129-130, 159-204). */
module Pages {
  import opened Wrappers
  import opened Router
  import Catalog

  datatype Page =
    | HomePage
    | InspirationPage
    | AboutPage
    | ProductDetailPage(product: Catalog.Product)
    | FullCollectionPage

  /** `currentProduct` (App.tsx:130): the catalog lookup of a truthy slug, or null.
      The catalog's `getProductBySlug` is the parameter `lookup`. */
  function CurrentProduct(slug: Option<string>, lookup: string -> Option<Catalog.Product>): Option<Catalog.Product>
  {
    if slug.Some? && slug.value != "" then lookup(slug.value) else None
  }

  /** The view dispatch (App.tsx:160-204). */
  function RenderedPage(view: View, current: Option<Catalog.Product>): Page
  {
    if view == Home then HomePage
    else if view == Inspiration then InspirationPage
    else if view == About then AboutPage
    else if view == Product && current.Some? then ProductDetailPage(current.value)
    else FullCollectionPage
  }

  /** The product page renders exactly when the view is the product view and the
      lookup found a product, and then it renders the product the slug names. */
  lemma ProductDetailIffFound(view: View, slug: Option<string>, lookup: string -> Option<Catalog.Product>)
    ensures var page := RenderedPage(view, CurrentProduct(slug, lookup));
      (page.ProductDetailPage? <==> view == Product && CurrentProduct(slug, lookup).Some?) &&
      (page.ProductDetailPage? ==> slug.Some? && slug.value != "" && lookup(slug.value) == Some(page.product))
  {
  }

  /** A product view whose lookup is null renders the same page as the collection
      view, and the full collection page is rendered for exactly those two cases. */
  lemma NullProductShowsCollection(view: View, current: Option<Catalog.Product>)
    ensures RenderedPage(Product, None) == RenderedPage(Collection, current) == FullCollectionPage
    ensures RenderedPage(view, current) == FullCollectionPage <==>
      view == Collection || (view == Product && current.None?)
  {
  }

  /** Visiting the URL of an unknown product does not render a product page: it
      falls back to the full collection. */
  lemma UnknownProductFallsBack(path: string, view: View, slug: Option<string>, lookup: string -> Option<Catalog.Product>)
    requires IsProductPath(path) && lookup(LastSegment(path)) == None
    ensures var r := Route(path, view, slug);
      r.0 == Product && RenderedPage(r.0, CurrentProduct(r.1, lookup)) == FullCollectionPage
  {
  }
}
