/** The layout arithmetic of the full collection page (components/FullCollection.tsx):
    one hero curtain plus one curtain per product, stacked in document order, each
    owning an equal share of the page's scroll progress. Shares are exact `real`s
    here where the browser computes doubles. */
module FullCollection {
  import opened Wrappers
  import opened Catalog

  /** The collection-page artwork of a slug (components/FullCollection.tsx:11-40). */
  datatype ImagePair = ImagePair(desktop: string, mobile: string)

  const CollectionImages: map<string, ImagePair> := map[
    "dior-eloise" := ImagePair("/selected-dior-eloise.jpeg", "/m_collectionpage_dior_eloise.png"),
    "fendi-vittoria" := ImagePair("/selected-fendi-vittoria.jpeg", "/m.collectionpage.lv-fendi.png"),
    "lv-aurele" := ImagePair("/selected-lv-aurele.jpeg", "/m_collectionpage_lv_aurele.png"),
    "lv-benoit" := ImagePair("/collectionpage_lv_benoit.png", "/m_collectionpage_lv_benoit.png"),
    "hermes-henrietta" := ImagePair("/collectionpage_hermes_henrietta.png", "/m_collectionpage_hermes_henrietta.png"),
    "harrods-william" := ImagePair("/collectionpage_harrods_william.png", "/m_collectionpage_harrods_william.png"),
    "fortnum-reginald" := ImagePair("/collectionpage_fm_reginald.png", "/m_collectionpage_fm_reginald.png")
  ]

  /** Editorial descriptions by slug (components/FullCollection.tsx:43-51). */
  const ProductDescriptions: map<string, string> := map[
    "dior-eloise" := "A sculptural homage to Parisian elegance, rendered in signature Toile de Jouy.",
    "fendi-vittoria" := "Bold geometry meets Italian craftsmanship in verdant monogram.",
    "lv-aurele" := "The quiet confidence of Maison heritage, elevated in gold.",
    "lv-benoit" := "A statement of refined luxury, accented with timeless marquetry.",
    "hermes-henrietta" := "The spirit of the saddle, reimagined for the modern collector.",
    "harrods-william" := "British elegance, distilled into an iconic silhouette.",
    "fortnum-reginald" := "London heritage embodied in the crown jewel of the collection."
  ]

  const DefaultDescription: string := "A masterpiece of craftsmanship."

  /** `getDisplayImage` (components/FullCollection.tsx:54-56): the mapped desktop
      image when it is truthy, else the first fallback image, which is `undefined`
      (None) for an empty list. */
  function DisplayImage(slug: string, fallbackImages: seq<string>): (img: Option<string>)
    ensures slug in CollectionImages && CollectionImages[slug].desktop != "" ==>
      img == Some(CollectionImages[slug].desktop)
    ensures !(slug in CollectionImages && CollectionImages[slug].desktop != "") ==>
      img == if |fallbackImages| > 0 then Some(fallbackImages[0]) else None
  {
    if slug in CollectionImages && CollectionImages[slug].desktop != "" then Some(CollectionImages[slug].desktop)
    else if |fallbackImages| > 0 then Some(fallbackImages[0])
    else None
  }

  /** Every mapped slug shows its collection artwork, whatever its own images are. */
  lemma MappedSlugShowsCollectionArt(slug: string, fallbackImages: seq<string>)
    requires slug in CollectionImages
    ensures DisplayImage(slug, fallbackImages) == Some(CollectionImages[slug].desktop)
  {
    assert forall s :: s in CollectionImages ==> CollectionImages[s].desktop != "";
  }

  /** The description shown on a panel (components/FullCollection.tsx:154): the
      mapped text, or the default for an unmapped slug; it is never empty. */
  function Description(slug: string): (d: string)
    ensures d != ""
    ensures slug in ProductDescriptions ==> d == ProductDescriptions[slug]
    ensures slug !in ProductDescriptions ==> d == DefaultDescription
  {
    assert forall s :: s in ProductDescriptions ==> ProductDescriptions[s] != "";
    if slug in ProductDescriptions && ProductDescriptions[slug] != "" then ProductDescriptions[slug]
    else DefaultDescription
  }

  /** `handleNavigate` (components/FullCollection.tsx:94-96): the slug handed to
      `onNavigateProduct`, or nothing when no callback was given. */
  function HandleNavigate(hasCallback: bool, slug: string): (forwarded: Option<string>)
    ensures forwarded.Some? <==> hasCallback
    ensures forwarded.Some? ==> forwarded.value == slug
  {
    if hasCallback then Some(slug) else None
  }

  /** A scroll-progress interval `[start, end]` of the page. */
  datatype Range = Range(start: real, end: real)

  /** `totalSections` (components/FullCollection.tsx:99). */
  function TotalSections(products: seq<Product>): nat
  {
    1 + |products|
  }

  /** `step` (components/FullCollection.tsx:100). */
  function Step(products: seq<Product>): real
  {
    1.0 / (TotalSections(products) as real)
  }

  /** The container height in viewport heights (components/FullCollection.tsx:110). */
  function ContainerHeightVh(products: seq<Product>): nat
  {
    TotalSections(products) * 100
  }

  /** A curtain's exit band (components/FullCollection.tsx:68). */
  function ExitRange(range: Range): Range
  {
    Range(range.end, range.end + 0.1)
  }

  /** The panel background class: none for the hero, `bg-[#0a0a0a]` (Ink) or
      `bg-white` (Paper) for a product (components/FullCollection.tsx:162). */
  datatype Background = Plain | Ink | Paper

  datatype Content =
    | Genesis
    | Showcase(slug: string, title: string, image: Option<string>, description: string)

  /** What one `Curtain` is given: its z-index, range, background and content. */
  datatype Curtain = Curtain(zIndex: nat, range: Range, background: Background, content: Content)

  /** The hero curtain (components/FullCollection.tsx:113). */
  function HeroCurtain(products: seq<Product>): Curtain
  {
    Curtain(0, Range(0.0, Step(products)), Plain, Genesis)
  }

  /** The curtain of product `index` (components/FullCollection.tsx:150-162). */
  function ProductCurtain(products: seq<Product>, index: nat): Curtain
    requires index < |products|
  {
    var product := products[index];
    var panelIndex := index + 1;
    var step := Step(products);
    Curtain(
      panelIndex,
      Range(panelIndex as real * step, (panelIndex + 1) as real * step),
      if index % 2 == 0 then Ink else Paper,
      Showcase(product.slug, product.title, DisplayImage(product.slug, product.images), Description(product.slug)))
  }

  /** The curtains of the page in document order. */
  function Curtains(products: seq<Product>): (cs: seq<Curtain>)
    ensures |cs| == TotalSections(products)
  {
    [HeroCurtain(products)] + seq(|products|, i requires 0 <= i < |products| => ProductCurtain(products, i))
  }

  /** Curtain `k` (the hero is 0, product `i` is `i + 1`) has z-index `k` and
      owns the `k`-th share of the progress. */
  lemma CurtainAt(products: seq<Product>, k: nat)
    requires k < TotalSections(products)
    ensures var c := Curtains(products)[k]; var step := Step(products);
      c.zIndex == k && c.range == Range(k as real * step, (k + 1) as real * step)
  {
    if k > 0 {
      assert Curtains(products)[k] == ProductCurtain(products, k - 1);
    }
  }

  /** Every range is one `step` wide. */
  lemma RangeWidth(products: seq<Product>, k: nat)
    requires k < TotalSections(products)
    ensures var r := Curtains(products)[k].range; r.end - r.start == Step(products)
  {
    CurtainAt(products, k);
    var step := Step(products);
    assert (k + 1) as real * step == k as real * step + step;
  }

  /** The last range ends at exactly 1. */
  lemma LastRangeEndsAtOne(products: seq<Product>)
    ensures Curtains(products)[TotalSections(products) - 1].range.end == 1.0
  {
    var n := TotalSections(products);
    CurtainAt(products, n - 1);
    assert (n as real) * (1.0 / n as real) == 1.0;
  }

  /** Each range ends where the next one starts. */
  lemma RangesMeet(products: seq<Product>, k: nat)
    requires k + 1 < TotalSections(products)
    ensures Curtains(products)[k].range.end == Curtains(products)[k + 1].range.start
  {
    CurtainAt(products, k);
    CurtainAt(products, k + 1);
  }

  /** The ranges tile [0, 1]: the hero starts at 0, every range ends where the
      next one starts, every range has the positive width `step`, and the last
      ends at exactly 1. */
  lemma RangesTileUnitInterval(products: seq<Product>)
    ensures var cs := Curtains(products); var step := Step(products);
      step > 0.0 &&
      cs[0].range.start == 0.0 &&
      (forall k :: 0 <= k < |cs| ==> cs[k].range.end - cs[k].range.start == step) &&
      (forall k :: 0 <= k < |cs| - 1 ==> cs[k].range.end == cs[k + 1].range.start) &&
      cs[|cs| - 1].range.end == 1.0
  {
    var cs := Curtains(products);
    forall k | 0 <= k < |cs|
      ensures cs[k].range.end - cs[k].range.start == Step(products)
    {
      RangeWidth(products, k);
    }
    forall k | 0 <= k < |cs| - 1
      ensures cs[k].range.end == cs[k + 1].range.start
    {
      RangesMeet(products, k);
    }
    CurtainAt(products, 0);
    LastRangeEndsAtOne(products);
  }

  /** Curtain `k` covers `[k / N, (k + 1) / N]` of the progress, `N` being the
      number of sections. */
  lemma RangeIsFraction(products: seq<Product>, k: nat)
    requires k < TotalSections(products)
    ensures var n := TotalSections(products) as real;
      Curtains(products)[k].range == Range(k as real / n, (k + 1) as real / n)
  {
    CurtainAt(products, k);
  }

  /** Later curtains stack over earlier ones: z-index strictly increases in
      document order. */
  lemma ZIndexIncreases(products: seq<Product>, i: nat, j: nat)
    requires i < j < TotalSections(products)
    ensures Curtains(products)[i].zIndex < Curtains(products)[j].zIndex
  {
    CurtainAt(products, i);
    CurtainAt(products, j);
  }

  /** Every curtain starts receding exactly where its own range ends, for a band
      0.1 wide. */
  lemma ExitStartsAtRangeEnd(products: seq<Product>, k: nat)
    requires k < TotalSections(products)
    ensures var c := Curtains(products)[k];
      ExitRange(c.range).start == c.range.end &&
      ExitRange(c.range).end == (k + 1) as real * Step(products) + 0.1
  {
    CurtainAt(products, k);
  }

  /** The hero panel has no background of its own; product panel `i` (curtain
      `i + 1`) is dark when `i` is even and white when it is odd. */
  lemma BackgroundsAlternate(products: seq<Product>)
    ensures var cs := Curtains(products);
      cs[0].background == Plain &&
      forall k :: 1 <= k < |cs| ==> cs[k].background == if (k - 1) % 2 == 0 then Ink else Paper
  {
    var cs := Curtains(products);
    assert forall k :: 1 <= k < |cs| ==> cs[k] == ProductCurtain(products, k - 1);
  }

  /** Neighbouring product panels never share a background, and none of them is
      the hero's plain one. */
  lemma AdjacentPanelsDiffer(products: seq<Product>, k: nat)
    requires 1 <= k < TotalSections(products) - 1
    ensures var cs := Curtains(products);
      cs[k].background != cs[k + 1].background &&
      cs[k].background != Plain && cs[k + 1].background != Plain
  {
    BackgroundsAlternate(products);
  }

  /** Product panels show the product's own slug and title, with the chosen image
      and description. */
  lemma ShowcaseOfProduct(products: seq<Product>, i: nat)
    requires i < |products|
    ensures var p := products[i];
      Curtains(products)[i + 1].content ==
        Showcase(p.slug, p.title, DisplayImage(p.slug, p.images), Description(p.slug))
  {
    assert Curtains(products)[i + 1] == ProductCurtain(products, i);
  }

  /** With eight products the page is nine screens tall and curtain `k` covers
      `[k / 9, (k + 1) / 9]`. */
  lemma EightProducts(products: seq<Product>, k: nat)
    requires |products| == 8 && k < 9
    ensures ContainerHeightVh(products) == 900
    ensures Curtains(products)[k].range == Range(k as real / 9.0, (k + 1) as real / 9.0)
  {
    RangeIsFraction(products, k);
  }
}
