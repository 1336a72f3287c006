# ZIZI storefront shell, curtain layout and social feed — a Dafny model

The ZIZI site is a single-page React storefront for a design brand. Most of it is
presentation. This project models the three parts that hold real logic, and proves
properties of them:

- **The application shell** (`App.tsx`).
  - The client-side router maps a URL path to one of five views, plus a product
    slug. In-app navigation pushes URLs that the router must read back.
  - An IntersectionObserver callback picks the active home section and the theme.
  - The brand wordmark is derived from the first-viewport scroll progress: its
    docked flag, colour, text shadow and transform.
  - A dispatch chooses which page tree to render.
- **The full collection page** (`components/FullCollection.tsx`). It stacks one hero
  "curtain" and one curtain per product. Each curtain is a full-screen panel that
  owns an equal share of the page's scroll progress. It has a z-index, an exit band,
  an image, a description and a background.
- **The social-feed widget** (`components/InstagramArchive.tsx`). It shows four
  fallback posts at once. A single fetch can replace them with up to four live posts.

Files, one module each:

| file | module | models |
|---|---|---|
| `wrappers.dfy` | `Wrappers` | `Option` (for `null`/`undefined`), integer `Min` |
| `catalog.dfy` | `Catalog` | the `Product` record the shell and collection page read |
| `router.dfy` | `Router` | `View`, `handleLocationChange` as `Route`, the URLs pushed by `navigateTo`/`navigateToProduct` |
| `sections.dfy` | `Sections` | the tagged home sections, observer entries, the section/theme fold |
| `logo.dfy` | `Logo` | scroll progress, `isDocked`, wordmark colour, shadow, transform |
| `pages.dfy` | `Pages` | `currentProduct` and the render dispatch |
| `shell.dfy` | `Shell` | class `App`: the shell's state and its handlers |
| `full_collection.dfy` | `FullCollection` | curtain ranges, z-indices, exit bands, image/description fallbacks, backgrounds |
| `instagram_archive.dfy` | `InstagramArchive` | feed state, fetch outcomes, label and image-source choice, class `Archive` |

Modelling choices:

- **Shell state.** The shell's React state becomes the fields of class `Shell.App`,
  with the browser's `location.pathname` as one more field. A `popstate` event is a
  call to `OnLocationChange(path)`. `Route` is the pure path-to-view decision that
  the methods are specified by.
- **Observer callback.** `ObserverCallback` is a loop over a given sequence of
  entries. It is proved equal to the folds `NameAfter`/`ThemeAfter`, and lemmas
  characterise those folds.
- **Section attributes.** In an `Entry`, `""` stands for a `data-section-name` that
  is missing or empty, since both are falsy. A missing or empty `data-theme` is
  `None`.
- **Numbers.** Scroll progress and curtain ranges are exact `real`s. The browser
  computes IEEE doubles, so in JavaScript, for example, `step * N` need not be
  exactly 1.
- **Catalog.** The catalog lookup `getProductBySlug` is an arbitrary function
  parameter. The product list is an arbitrary `seq<Product>`.
- **Fetch.** The fetch is an input value:
  `NoToken | NetworkError | HttpError | Ok(data: Option<seq<Media>>)`. `Ok(None)`
  is a body without a `data` field.

Where the code does something other than its comments or a reader would expect:

- **Unmatched paths.** A path that no rule matches (`/about`, `/inspiration`,
  `/collection/`, `/product/x/`, `/product`) leaves view and slug unchanged
  (App.tsx:61-68). No rule maps an unknown path to any view. So a first load of `/about` shows the home view, and a
  `popstate` back to `/about` from a product leaves the product on screen
  (`Shell.FirstLoadOfAbout`, `Shell.BackToAboutAfterProduct`).
- **Scroll reset.** `navigateTo`, `navigateToProduct` and a `popstate` to a product
  path scroll to the top, and the scroll listener stays attached for the whole life
  of the shell. So returning home by the wordmark or the menu undocks the wordmark
  and turns it white again, even if the home page had been scrolled before
  (`Shell.ReturnHomeUndocks`). The code itself does not scroll on a `popstate` to
  `/` (App.tsx:68). The model does not include the browser's scroll restoration, so
  in the model such a return keeps the last progress: after a product page was
  scrolled past the band, the home wordmark stays docked and black
  (`Shell.BackHomeKeepsProgress`).
- **Initial theme.** The theme starts as light (App.tsx:31), although the first home
  section, "The Beginning", is tagged dark.
- **Scroll progress.** Progress is clamped above only (App.tsx:39). A negative scroll
  position gives a negative progress.

## Model

| member | source | states |
|---|---|---|
| `Router.StartsWith` | App.tsx:51 | `String.prototype.startsWith`: the string begins with the prefix |
| `Router.LastSegment` | App.tsx:52 | the result of `split('/').pop()` is a suffix of the path with no '/', and is either the whole path or preceded by a '/' |
| `Router.IsProductPath` | App.tsx:51-53 | the first routing rule: a `/product/` or `/collection/` path whose last segment is non-empty |
| `Router.Route` | App.tsx:49-69 | a product path gives the product view with its last segment as slug; otherwise the slug is kept, and the view changes only to collection on `/collection` or to home on `/` |
| `Router.ViewName` | App.tsx:112 | the path segment `navigateTo` writes for each view: its name in lower case |
| `Router.NavigationPath` | App.tsx:112 | `navigateTo` pushes a path beginning with '/' |
| `Router.ProductPath` | App.tsx:118 | `navigateToProduct` pushes a path beginning with `/collection/` from which the slug reads back unchanged |
| `Router.LastSegmentAfterSlash` | App.tsx:52 | after a prefix ending in '/', the last segment of `prefix + s` is the last segment of `s` |
| `Router.ProductPathSegment` | App.tsx:118 | the pushed product URL has the slug's own last segment |
| `Router.ProductPathRecognised` | App.tsx:51-53 | a pushed product URL is routed as a product path iff the slug is non-empty and does not end in '/' |
| `Router.ProductRoundTrip` | App.tsx:117-122 | routing the pushed `/collection/<slug>` of a URL-safe slug (non-empty; letters a-z, digits, '-') gives the product view with that slug |
| `Router.ProductUrlRoute` | App.tsx:51-58 | for any slug, routing its pushed URL keeps only the slug's last segment, and an empty last segment routes to nothing |
| `Router.NavigateRoundTrip` | App.tsx:111-115 | for every non-product view, routing the URL `navigateTo` pushed keeps that view and the slug |
| `Router.ExactRoutes` | App.tsx:62-68 | `/collection` gives the collection view and `/` the home view, neither changing the slug |
| `Router.UnmatchedUnchanged` | App.tsx:49-69 | every path that is no product path, not `/collection` and not `/` leaves view and slug unchanged |
| `Router.UnmatchedExamples` | App.tsx:51-68 | `/about`, `/inspiration`, `/collection/`, `/product/x/` and `/product` change nothing |
| `Router.NestedProductPath` | App.tsx:51-57 | `/collection/a/b` gives the product view with slug `b` |
| `Router.RouteIdempotent` | App.tsx:49-69 | handling the same location twice equals handling it once |
| `Sections.ForcesLight` | App.tsx:79 | the collection, about and product views force the light theme |
| `Sections.SetsName` | App.tsx:92-96 | an entry sets the active section iff it intersects and has a truthy name |
| `Sections.SetsTheme` | App.tsx:92-97 | an entry sets the theme iff it intersects and has a truthy theme |
| `Sections.NameAfter` | App.tsx:90-100 | the active section after the callback is the previous one or the name one of the entries carries |
| `Sections.ThemeAfter` | App.tsx:90-100 | the theme after the callback is the previous one or the theme one of the entries carries |
| `Sections.NameAfterIsLastNamed` | App.tsx:90-100 | after the callback, the active section is the name of the last intersecting entry that has one |
| `Sections.NameAfterNoneNamed` | App.tsx:90-100 | with no intersecting named entry, the active section is unchanged |
| `Sections.ThemeAfterIsLastThemed` | App.tsx:90-100 | after the callback, the theme is that of the last intersecting entry that has one |
| `Sections.ThemeAfterNoneThemed` | App.tsx:90-100 | with no intersecting themed entry, the theme is unchanged |
| `Sections.NonIntersectingIgnored` | App.tsx:92 | removing the non-intersecting entries changes neither the resulting section nor the theme |
| `Sections.HomeSectionNamesUnique` | App.tsx:162-180 | the seven tagged home sections have pairwise distinct names |
| `Sections.EntryOf` | App.tsx:93-94 | the entry for a tagged section carries its theme, and sets the active section iff it intersects and its name is non-empty |
| `Sections.CrossingSectionActivates` | App.tsx:90-100 | a home section crossing on its own becomes the active section with its theme, and the active section then tells which section crossed |
| `Logo.MinReal` | App.tsx:39 | `Math.min` of two numbers: at most each of them, and equal to one of them |
| `Logo.ScrollProgress` | App.tsx:39 | progress is at most 1, equals 1 iff `scrollY >= 0.4 * innerHeight`, is negative iff `scrollY` is, and is otherwise `scrollY` over the band |
| `Logo.ProgressMonotone` | App.tsx:39 | progress never decreases as `scrollY` grows |
| `Logo.ProgressAtTop` | App.tsx:39 | at the top of the page the progress is 0, for every viewport height |
| `Logo.IsDocked` | App.tsx:125 | the wordmark is docked at full progress or on any view but home |
| `Logo.LogoColour` | App.tsx:150 | the wordmark is white on home below progress 0.15, else black |
| `Logo.TextShadow` | App.tsx:152 | the wordmark has the drop shadow on home below progress 0.5, else none |
| `Logo.LogoTransform` | App.tsx:145-147 | the docked preset when docked, else the progress-linear translation and scale |
| `Logo.DockedIffScrolledPastBand` | App.tsx:125 | the wordmark is docked iff the view is not home or the page is scrolled through 40% of the viewport |
| `Logo.WhiteImpliesShadowAndUndocked` | App.tsx:150-152 | a white wordmark has the shadow, and a shadowed wordmark is not docked |
| `Logo.DockingIsContinuous` | App.tsx:145-147 | the undocked transform at progress 1 equals the docked preset (-50vh + 2.2rem, scale 0.12) |
| `Logo.UndockedScaleShrinks` | App.tsx:147 | on [0, 1] the undocked scale strictly decreases and stays between 0.12 and 1 |
| `Pages.CurrentProduct` | App.tsx:130 | a truthy slug is looked up in the catalog; a null or empty slug gives no product |
| `Pages.RenderedPage` | App.tsx:160-204 | the render dispatch: home, inspiration, about, the product page for a found product, else the full collection |
| `Pages.ProductDetailIffFound` | App.tsx:192-199 | the product page renders iff the view is product and the lookup of a truthy slug found a product, which is the one rendered |
| `Pages.NullProductShowsCollection` | App.tsx:200-203 | a product view with a null lookup renders the same full collection page as the collection view, and only those two cases render it |
| `Pages.UnknownProductFallsBack` | App.tsx:130 | a product path whose slug the catalog does not know routes to the product view and renders the full collection |
| `Shell.App.constructor` | App.tsx:29-71 | the initial state (home, the first home section, light, progress 0, no slug), then routing the loaded path |
| `Shell.App.OnLocationChange` | App.tsx:49-72 | a popstate sets the location and re-routes view and slug with `Route`; a product path also scrolls to the top, resetting progress to 0 |
| `Shell.App.NavigateTo` | App.tsx:111-115 | pushes `NavigationPath(v)`, sets the view and scrolls to the top (progress 0), leaving the slug and the rest alone |
| `Shell.App.NavigateToProduct` | App.tsx:117-122 | pushes `/collection/<slug>`, sets the slug and the product view, and scrolls to the top (progress 0) |
| `Shell.App.OnScroll` | App.tsx:37-41 | stores `ScrollProgress(scrollY, innerHeight)` |
| `Shell.App.ObserverCallback` | App.tsx:90-100 | the loop over the entries leaves the section and theme the folds `NameAfter`/`ThemeAfter` give |
| `Shell.App.SectionEffect` | App.tsx:77-109 | collection, about and product force light and process no entries; other views apply the callback |
| `Shell.App.Docked` | App.tsx:125 | the wordmark's docked flag for the current state |
| `Shell.App.Rendered` | App.tsx:130-204 | the page the current state renders |
| `Shell.RehandleAfterNavigate` | App.tsx:111-115 | navigating to a view and handling the just-pushed location again still shows that view |
| `Shell.RehandleAfterProduct` | App.tsx:117-122 | opening a URL-safe slug and handling the just-pushed location again still shows that product |
| `Shell.FirstLoadOfAbout` | App.tsx:29-71 | loading `/about` directly shows the home view |
| `Shell.BackToAboutAfterProduct` | App.tsx:49-72 | about, then a product, then `popstate` to `/about` leaves the product view |
| `Shell.BackHomeKeepsProgress` | App.tsx:49-72 | without scroll restoration: a product page scrolled past the band, then a `popstate` to `/`, leaves the home wordmark docked and black |
| `Shell.ReturnHomeUndocks` | App.tsx:111-125 | after scrolling home past the band the wordmark is docked; opening a product and clicking back home leaves it undocked and white |
| `FullCollection.DisplayImage` | components/FullCollection.tsx:54-56 | a mapped, non-empty desktop image wins; otherwise the first fallback image, or none for an empty list |
| `FullCollection.MappedSlugShowsCollectionArt` | components/FullCollection.tsx:11-56 | every slug in the image map shows its mapped desktop image, whatever its own images |
| `FullCollection.Description` | components/FullCollection.tsx:154 | the mapped text for a mapped slug, else 'A masterpiece of craftsmanship.'; never empty |
| `FullCollection.HandleNavigate` | components/FullCollection.tsx:94-96 | the slug is forwarded iff a callback is present |
| `FullCollection.TotalSections` | components/FullCollection.tsx:99 | one hero section plus one per product |
| `FullCollection.Step` | components/FullCollection.tsx:100 | each section's share of the scroll progress, `1 / totalSections` |
| `FullCollection.ContainerHeightVh` | components/FullCollection.tsx:110 | the container is 100vh per section |
| `FullCollection.ExitRange` | components/FullCollection.tsx:68 | the exit band runs from the range's end to 0.1 past it |
| `FullCollection.HeroCurtain` | components/FullCollection.tsx:113-147 | the hero curtain: z-index 0, range `[0, step]`, no background class |
| `FullCollection.ProductCurtain` | components/FullCollection.tsx:150-162 | product i's curtain: z-index i+1, range `[(i+1)*step, (i+2)*step]`, dark for even i, white for odd |
| `FullCollection.Curtains` | components/FullCollection.tsx:99-152 | there is one curtain more than there are products |
| `FullCollection.CurtainAt` | components/FullCollection.tsx:113-159 | curtain k (hero 0, product i at i+1) has z-index k and range `[k*step, (k+1)*step]` |
| `FullCollection.RangeWidth` | components/FullCollection.tsx:152 | every range is one step wide |
| `FullCollection.RangesMeet` | components/FullCollection.tsx:152 | each panel's range ends where the next panel's range starts |
| `FullCollection.LastRangeEndsAtOne` | components/FullCollection.tsx:99-152 | the last range ends at exactly 1 |
| `FullCollection.RangesTileUnitInterval` | components/FullCollection.tsx:99-152 | the ranges start at 0, are contiguous, have positive width step and end at 1 |
| `FullCollection.RangeIsFraction` | components/FullCollection.tsx:100-152 | curtain k covers `[k/N, (k+1)/N]` for N sections |
| `FullCollection.ZIndexIncreases` | components/FullCollection.tsx:151-159 | z-index strictly increases in document order |
| `FullCollection.ExitStartsAtRangeEnd` | components/FullCollection.tsx:68 | each exit band starts where the curtain's own range ends and is 0.1 wide |
| `FullCollection.BackgroundsAlternate` | components/FullCollection.tsx:150-162 | the hero has no background class; product panel i (curtain i+1) is dark for even i and white for odd i |
| `FullCollection.AdjacentPanelsDiffer` | components/FullCollection.tsx:162 | neighbouring product panels differ in background, and neither is plain |
| `FullCollection.ShowcaseOfProduct` | components/FullCollection.tsx:150-154 | product panel i+1 shows product i's slug and title with the chosen image and description |
| `FullCollection.EightProducts` | components/FullCollection.tsx:99-110 | with eight products the container is 900vh and curtain k covers `[k/9, (k+1)/9]` |
| `Wrappers.Min` | components/InstagramArchive.tsx:66 | the bound of `slice(0, 4)`: at most each argument, and equal to one of them |
| `InstagramArchive.FirstFour` | components/InstagramArchive.tsx:66 | `slice(0, 4)` keeps the first `min(4, n)` posts in order |
| `InstagramArchive.Delivers` | components/InstagramArchive.tsx:63-65 | an OK response whose `data` field is present and non-empty replaces the feed |
| `InstagramArchive.FeedInvariant` | components/InstagramArchive.tsx:50-67 | every reachable feed has one to four posts, and a non-live feed shows the fallback set |
| `InstagramArchive.ApplyOutcome` | components/InstagramArchive.tsx:54-74 | an OK response with non-empty data makes the feed live with its first min(4, n) posts; every other outcome changes nothing |
| `InstagramArchive.OutcomePreservesInvariant` | components/InstagramArchive.tsx:50-67 | the initial state and every update keep 1 to 4 posts, and a non-live feed shows the fallback set |
| `InstagramArchive.LiveOnlyFromResponse` | components/InstagramArchive.tsx:50-74 | after the mount effect the feed is live iff the fetch delivered posts, and then it shows their first four |
| `InstagramArchive.Label` | components/InstagramArchive.tsx:85 | 'Live Feed' when live, else 'Collected Moments' |
| `InstagramArchive.LabelReflectsFetch` | components/InstagramArchive.tsx:85 | the label is 'Live Feed' iff the fetch delivered posts, else 'Collected Moments' |
| `InstagramArchive.ImageSource` | components/InstagramArchive.tsx:111 | a video with a non-empty thumbnail shows the thumbnail; every other post shows its media URL |
| `InstagramArchive.FallbackGridWellFormed` | components/InstagramArchive.tsx:22-47 | the four fallback posts have distinct ids (the grid's React keys), each shows its own media URL and links to the profile |
| `InstagramArchive.Archive.constructor` | components/InstagramArchive.tsx:50-51 | the widget starts on the four fallback posts, not live |
| `InstagramArchive.Archive.FetchInstagramMedia` | components/InstagramArchive.tsx:54-74 | the in-place update equals `ApplyOutcome` and keeps the invariant; a live feed shows the first posts of the response that made it live |

## Left out

- **Browser history.** The back/forward stack is not modelled. `pushState` sets the
  `location` field to the string given. A `popstate` is `OnLocationChange` with the
  new path.
- Shell.App.OnLocationChange: does not model the browser's scroll restoration
  (`history.scrollRestoration` is left at `auto`). After a `popstate` the browser
  restores the scroll position it saved for that history entry, and the scroll
  listener then records the progress of that position. The model keeps the previous
  progress, or sets 0 on a product path.
- Shell.BackHomeKeepsProgress: holds for the model without scroll restoration. In a
  browser, going back to `/` restores that entry's saved scroll, so the wordmark
  shows the progress saved for home, not the product page's.
- Shell.App.constructor: progress 0 is the initial state. On a reload the browser
  may restore the saved scroll position, and the following scroll event is not
  modelled.
- Router.ProductRoundTrip: promised only for URL-safe slugs (`Router.PathSafeSlug`),
  because the browser parses a pushed URL (percent-encoding, `?` and `#`, `.`/`..`
  segments, `\` read as `/`) and the model does not.
- Shell.RehandleAfterProduct: promised only for URL-safe slugs, for the same reason.
- Shell.App.NavigateToProduct: `location` holds the unparsed `/collection/<slug>`
  string, not the path the browser would read back from it.
- **Scrolling.** A scroll to the top is modelled by its end state: the attached
  scroll listener records progress 0 (`Logo.ProgressAtTop`). The intermediate
  progress values of the smooth scroll are not modelled. When the page already sits
  at the top no scroll event fires; the model still sets progress 0, the value the
  listener records at the top.
- **IntersectionObserver.** Its geometry (`rootMargin: -50%`), the 100 ms
  `setTimeout` before sections are observed, and registration and teardown are left
  out. The callback's entries are an input sequence.
- **Effect timing.** React re-runs the section effect when the view changes. The
  model makes this the caller's job: call `SectionEffect` after a view change.
- **`data-theme` values.** A value other than `light` or `dark` is accepted by an
  unchecked TypeScript cast. The model has no such value.
- **Zero viewport height.** `Logo.ScrollProgress` and `Shell.App.OnScroll` require
  `innerHeight > 0`. In JavaScript, a zero height divides by zero and gives
  Infinity or NaN, which `real` cannot express.
- **Transform as CSS text.** The wordmark transform is modelled as numbers, not as
  the CSS string built from them. For a negative progress (an overscroll),
  App.tsx:147 writes `calc(--5vh + ...)`. That is invalid CSS, and the browser drops
  the declaration. `Logo.LogoTransform` still gives a number there.
- **Wordmark opacity and transitions.** The constant `logoOpacity` and the CSS
  transition timings are left out.
- **framer-motion.** `useScroll`, `useSpring` and `useTransform` are left out: this
  covers the curtains' scale, opacity and brightness curves inside the exit band and
  the hero title transforms. They are library interpolation and spring physics
  whose code is not shown. Only the ranges and exit bands passed to them are
  modelled.
- **Doubles.** Every number is an exact `real`, not an IEEE double.
- **Catalog data.** `data/products` and `getProductBySlug` are not part of this
  model. They are an arbitrary list and an arbitrary lookup function.
- **Mobile images.** The mobile image paths in the collection image map are
  carried in the data but never read, as in the source.
- **Object-key lookups.** JavaScript looks up object keys along the prototype chain
  (a key such as `constructor` finds an inherited property). The model looks up
  exactly the listed slugs.
- **The fetch itself.** The request URL, the environment token, JSON parsing and
  validation, `console.warn`, and the fact that the fetch resolves after the first
  render are left out. The response's posts are taken as well-formed `Media`.
- **Lazy loading.** React `lazy`/`Suspense` loading is framework plumbing.
- **Presentation-only files.** JSX markup and CSS classes are left out, except the
  background class of a product curtain. So are `components/Navbar.tsx`,
  `components/Inspiration.tsx`, `components/ProductDetailPage.tsx`,
  `components/Hero.tsx`, `components/Testimonials.tsx` and `tailwind.config.js`,
  which hold no logic of the modelled core.
