/** The client-side router of the application shell (App.tsx): the path-to-view
    decision made on load and on every `popstate`, and the URLs pushed by in-app
    navigation, which that decision has to read back. */
module Router {
  import opened Wrappers

  /** The closed set of top-level views (App.tsx:29). */
  datatype View = Home | Collection | Inspiration | About | Product

  /** `String.prototype.startsWith`. */
  predicate StartsWith(s: string, prefix: string)
  {
    |prefix| <= |s| && s[..|prefix|] == prefix
  }

  /** A string does not start with `prefix` once they differ at some position of `prefix`. */
  lemma DiffersAt(s: string, prefix: string, i: nat)
    requires i < |prefix| && (i >= |s| || s[i] != prefix[i])
    ensures !StartsWith(s, prefix)
  {
    if |prefix| <= |s| {
      assert s[..|prefix|][i] == s[i];
    }
  }

  /** `path.split('/').pop()`: the text after the last '/', or the whole path when it
      holds none. The three postconditions characterise it: a suffix, free of '/',
      and either the whole path or preceded by a '/'. */
  function LastSegment(path: string): (seg: string)
    ensures |seg| <= |path| && path[|path| - |seg|..] == seg
    ensures forall i :: 0 <= i < |seg| ==> seg[i] != '/'
    ensures |seg| < |path| ==> path[|path| - |seg| - 1] == '/'
  {
    if |path| == 0 || path[|path| - 1] == '/' then ""
    else LastSegment(path[..|path| - 1]) + [path[|path| - 1]]
  }

  /** The first routing rule (App.tsx:51-53): a `/product/` or `/collection/` path
      whose last segment is non-empty (a truthy string). */
  predicate IsProductPath(path: string)
  {
    (StartsWith(path, "/product/") || StartsWith(path, "/collection/")) && LastSegment(path) != ""
  }

  /** `handleLocationChange` (App.tsx:49-69) as a function of the path and the
      current `(currentView, currentProductSlug)`; it returns the new pair. A path
      matched by no rule leaves both unchanged, and the slug changes only on a
      product path, to a non-empty, '/'-free tail of that path. */
  function Route(path: string, view: View, slug: Option<string>): (r: (View, Option<string>))
    ensures r.1 == slug || (r.0 == Product && r.1.Some? && r.1.value != "" && IsProductPath(path))
    ensures r.1.Some? && r.1 != slug ==>
      (forall i :: 0 <= i < |r.1.value| ==> r.1.value[i] != '/') &&
      |r.1.value| <= |path| && path[|path| - |r.1.value|..] == r.1.value
    ensures IsProductPath(path) ==> r == (Product, Some(LastSegment(path)))
    ensures r.0 != view ==>
      (r.0 == Product && IsProductPath(path)) || (r.0 == Collection && path == "/collection") ||
      (r.0 == Home && path == "/")
  {
    if IsProductPath(path) then (Product, Some(LastSegment(path)))
    else if path == "/collection" then (Collection, slug)
    else if path == "/" then (Home, slug)
    else (view, slug)
  }

  /** The path segment for a view, as written into the URL by `navigateTo`. */
  function ViewName(v: View): string
  {
    match v
    case Home => "home"
    case Collection => "collection"
    case Inspiration => "inspiration"
    case About => "about"
    case Product => "product"
  }

  /** The URL `navigateTo(view)` pushes (App.tsx:112); `navigateTo` never takes the
      product view. */
  function NavigationPath(v: View): (p: string)
    requires v != Product
    ensures |p| > 0 && p[0] == '/'
  {
    if v == Home then "/" else "/" + ViewName(v)
  }

  /** The URL `navigateToProduct(slug)` pushes (App.tsx:118). */
  function ProductPath(slug: string): (p: string)
    ensures StartsWith(p, "/collection/") && p[|"/collection/"|..] == slug
  {
    "/collection/" + slug
  }

  /** Splitting after a '/' keeps only what follows it: when `prefix` ends in '/',
      the last segment of `prefix + s` is the last segment of `s`. */
  lemma {:induction false} LastSegmentAfterSlash(prefix: string, s: string)
    requires |prefix| > 0 && prefix[|prefix| - 1] == '/'
    ensures LastSegment(prefix + s) == LastSegment(s)
  {
    var p := prefix + s;
    if s == [] {
      assert p == prefix;
    } else {
      var s', c := s[..|s| - 1], s[|s| - 1];
      var q := prefix + s';
      assert p == q + [c];
      assert p[..|p| - 1] == q;
      LastSegmentAfterSlash(prefix, s');
      if c != '/' {
        calc {
          LastSegment(p);
          LastSegment(q) + [c];
          LastSegment(s') + [c];
          LastSegment(s);
        }
      }
    }
  }

  /** A '/'-free string is its own last segment. */
  lemma LastSegmentOfPlain(s: string)
    requires forall i :: 0 <= i < |s| ==> s[i] != '/'
    ensures LastSegment(s) == s
  {
  }

  /** The last segment of a pushed product URL is that of the slug. */
  lemma ProductPathSegment(slug: string)
    ensures LastSegment(ProductPath(slug)) == LastSegment(slug)
  {
    var prefix := "/collection/";
    assert prefix[|prefix| - 1] == '/';
    LastSegmentAfterSlash(prefix, slug);
  }

  /** A pushed product URL is a product path exactly when the slug neither is
      empty nor ends in '/'. */
  lemma ProductPathRecognised(slug: string)
    ensures IsProductPath(ProductPath(slug)) <==> slug != "" && slug[|slug| - 1] != '/'
  {
    ProductPathSegment(slug);
  }

  /** A slug the browser keeps verbatim in a URL path: non-empty and made of
      lower-case letters, digits and '-', so no percent-encoding, query, fragment,
      dot segment or backslash can alter it when the URL is pushed. */
  predicate PathSafeSlug(slug: string)
  {
    slug != "" &&
    forall i :: 0 <= i < |slug| ==> 'a' <= slug[i] <= 'z' || '0' <= slug[i] <= '9' || slug[i] == '-'
  }

  /** Routing the URL `navigateToProduct(slug)` pushed: for a URL-safe slug the
      round trip gives the product view with that very slug (App.tsx:117-122,
      51-57). */
  lemma ProductRoundTrip(slug: string, view: View, prior: Option<string>)
    requires PathSafeSlug(slug)
    ensures Route(ProductPath(slug), view, prior) == (Product, Some(slug))
  {
    ProductPathSegment(slug);
    LastSegmentOfPlain(slug);
    assert IsProductPath(ProductPath(slug));
  }

  /** For any slug, routing the pushed product URL keeps only its last segment, and
      a slug with an empty last segment routes to nothing. */
  lemma ProductUrlRoute(slug: string, view: View, prior: Option<string>)
    ensures Route(ProductPath(slug), view, prior) ==
      if LastSegment(slug) != "" then (Product, Some(LastSegment(slug))) else (view, prior)
  {
    var p := ProductPath(slug);
    ProductPathSegment(slug);
    assert |p| >= 12;
  }

  /** Routing the URL `navigateTo(v)` pushed leaves the view at `v` and the slug
      untouched (App.tsx:111-115, 49-69). For the inspiration and about views this
      holds only because an unmatched path changes nothing. */
  lemma NavigateRoundTrip(v: View, slug: Option<string>)
    requires v != Product
    ensures Route(NavigationPath(v), v, slug) == (v, slug)
  {
    var p := NavigationPath(v);
    if v != Home {
      DiffersAt(p, "/product/", 1);
    }
    if v == Inspiration || v == About {
      DiffersAt(p, "/collection/", 1);
    } else if v == Collection {
      DiffersAt(p, "/collection/", 11);
    }
  }

  /** The two exact routes: `/collection` and `/` set their view and leave the slug
      alone (App.tsx:62-68). */
  lemma ExactRoutes(path: string, view: View, slug: Option<string>)
    requires path == "/collection" || path == "/"
    ensures Route(path, view, slug) == (if path == "/" then Home else Collection, slug)
  {
    if path == "/" {
      DiffersAt(path, "/product/", 1);
      DiffersAt(path, "/collection/", 1);
    } else {
      DiffersAt(path, "/product/", 1);
      DiffersAt(path, "/collection/", 11);
    }
  }

  /** Every path that matches no rule leaves view and slug unchanged. */
  lemma UnmatchedUnchanged(path: string, view: View, slug: Option<string>)
    requires !IsProductPath(path) && path != "/collection" && path != "/"
    ensures Route(path, view, slug) == (view, slug)
  {
  }

  /** The paths `/about`, `/inspiration`, `/collection/`, `/product/x/` and `/product`
      change nothing. */
  lemma UnmatchedExamples(view: View, slug: Option<string>)
    ensures Route("/about", view, slug) == (view, slug)
    ensures Route("/inspiration", view, slug) == (view, slug)
    ensures Route("/collection/", view, slug) == (view, slug)
    ensures Route("/product/x/", view, slug) == (view, slug)
    ensures Route("/product", view, slug) == (view, slug)
  {
    DiffersAt("/about", "/product/", 1);
    DiffersAt("/about", "/collection/", 1);
    DiffersAt("/inspiration", "/product/", 1);
    DiffersAt("/inspiration", "/collection/", 1);
    DiffersAt("/product", "/product/", 8);
    DiffersAt("/product", "/collection/", 1);
    assert LastSegment("/collection/") == "";
    assert LastSegment("/product/x/") == "";
  }

  /** A nested product path routes by its last segment: `/collection/a/b` gives `b`. */
  lemma NestedProductPath(view: View, slug: Option<string>)
    ensures Route("/collection/a/b", view, slug) == (Product, Some("b"))
  {
    assert LastSegment("/collection/a/b") == "b";
    assert "/collection/a/b"[..12] == "/collection/";
  }

  /** Handling the same location twice is the same as handling it once. */
  lemma RouteIdempotent(path: string, view: View, slug: Option<string>)
    ensures var r := Route(path, view, slug); Route(path, r.0, r.1) == r
  {
  }
}
