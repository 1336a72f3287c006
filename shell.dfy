/** The application shell of App.tsx: the five pieces of React state (plus the
    browser location the router reads and writes) held as the fields of one
    object, and the handlers that update them. */
module Shell {
  import opened Wrappers
  import opened Router
  import opened Sections
  import opened Logo
  import opened Pages
  import Catalog

  class App {
    var currentView: View
    var activeSection: string
    var theme: Theme
    var scrollProgress: real
    var currentProductSlug: Option<string>
    /** `window.location.pathname`. */
    var location: string

    /** Mounting the shell: the initial state (App.tsx:29-33), then
        `handleLocationChange` on the path the page was loaded with (App.tsx:71).
        The initial active section is the first one of the home page. */
    constructor (path: string)
      ensures location == path
      ensures (currentView, currentProductSlug) == Route(path, Home, None)
      ensures activeSection == HomeSections[0].name && theme == Light && scrollProgress == 0.0
    {
      location := path;
      activeSection := "The Beginning";
      theme := Light;
      scrollProgress := 0.0;
      var r := Route(path, Home, None);
      currentView, currentProductSlug := r.0, r.1;
    }

    /** A `popstate` to `path`: the location changes and `handleLocationChange`
        re-derives view and slug from it without pushing history (App.tsx:49-72).
        A recognised product path also scrolls to the top (App.tsx:56), and the
        scroll listener, still attached, then records progress 0. */
    method OnLocationChange(path: string)
      modifies this`location, this`currentView, this`currentProductSlug, this`scrollProgress
      ensures location == path
      ensures (currentView, currentProductSlug) == Route(path, old(currentView), old(currentProductSlug))
      ensures scrollProgress == if IsProductPath(path) then 0.0 else old(scrollProgress)
    {
      location := path;
      var r := Route(path, currentView, currentProductSlug);
      currentView, currentProductSlug := r.0, r.1;
      if IsProductPath(path) {
        scrollProgress := 0.0;
      }
    }

    /** `navigateTo` (App.tsx:111-115): push `/` or `/<view>`, scroll to the top and
        switch view; the slug is kept. The scroll ends at the top, where the scroll
        listener records progress 0 (see `Logo.ProgressAtTop`). */
    method NavigateTo(v: View)
      requires v != Product
      modifies this`location, this`currentView, this`scrollProgress
      ensures location == NavigationPath(v) && currentView == v
      ensures scrollProgress == 0.0
    {
      location := NavigationPath(v);
      scrollProgress := 0.0;
      currentView := v;
    }

    /** `navigateToProduct` (App.tsx:117-122): push `/collection/<slug>`, record the
        slug, switch to the product view and jump to the top, which the scroll
        listener records as progress 0. */
    method NavigateToProduct(slug: string)
      modifies this`location, this`currentView, this`currentProductSlug, this`scrollProgress
      ensures location == ProductPath(slug)
      ensures currentProductSlug == Some(slug) && currentView == Product
      ensures scrollProgress == 0.0
    {
      location := ProductPath(slug);
      currentProductSlug := Some(slug);
      currentView := Product;
      scrollProgress := 0.0;
    }

    /** `handleScroll` (App.tsx:37-41). */
    method OnScroll(scrollY: real, innerHeight: real)
      requires innerHeight > 0.0
      modifies this`scrollProgress
      ensures scrollProgress == ScrollProgress(scrollY, innerHeight)
    {
      scrollProgress := MinReal(scrollY / (innerHeight * 0.4), 1.0);
    }

    /** The IntersectionObserver callback (App.tsx:90-100): every intersecting
        entry with a section name makes it the active section, and every one with a
        theme makes it the theme, in the order the entries arrive. The observer
        exists only while the view is home or inspiration (App.tsx:79-82, 108). */
    method ObserverCallback(entries: seq<Entry>)
      requires !ForcesLight(currentView)
      modifies this`activeSection, this`theme
      ensures activeSection == NameAfter(entries, old(activeSection))
      ensures theme == ThemeAfter(entries, old(theme))
    {
      for i := 0 to |entries|
        invariant activeSection == NameAfter(entries[..i], old(activeSection))
        invariant theme == ThemeAfter(entries[..i], old(theme))
      {
        var entry := entries[i];
        if entry.isIntersecting {
          if entry.sectionName != "" {
            activeSection := entry.sectionName;
          }
          if entry.sectionTheme.Some? {
            theme := entry.sectionTheme.value;
          }
        }
        assert entries[..i + 1][..i] == entries[..i];
      }
      assert entries[..|entries|] == entries;
    }

    /** The section-and-theme effect for the current view (App.tsx:77-109): the
        collection, about and product views force the light theme and observe
        nothing; the other views hand the observed entries to the callback. */
    method SectionEffect(entries: seq<Entry>)
      modifies this`activeSection, this`theme
      ensures ForcesLight(currentView) ==> theme == Light && activeSection == old(activeSection)
      ensures !ForcesLight(currentView) ==>
        activeSection == NameAfter(entries, old(activeSection)) && theme == ThemeAfter(entries, old(theme))
    {
      if ForcesLight(currentView) {
        theme := Light;
        return;
      }
      ObserverCallback(entries);
    }

    /** `isDocked` of the current state (App.tsx:125). */
    predicate Docked()
      reads this
    {
      IsDocked(scrollProgress, currentView)
    }

    /** The page the current state renders (App.tsx:130, 160-204). */
    function Rendered(lookup: string -> Option<Catalog.Product>): Page
      reads this
    {
      RenderedPage(currentView, CurrentProduct(currentProductSlug, lookup))
    }
  }

  /** Navigating to a view and then handling the location the shell just pushed
      again keeps that view: the pushed URL routes back to where the shell already
      is. This is not what a reload of that URL shows (see `FirstLoadOfAbout`) nor
      what a later `popstate` back to it shows (see `BackToAboutAfterProduct`). */
  method RehandleAfterNavigate(start: string, v: View) returns (shown: View)
    requires v != Product
    ensures shown == v
  {
    var app := new App(start);
    app.NavigateTo(v);
    NavigateRoundTrip(v, app.currentProductSlug);
    app.OnLocationChange(app.location);
    shown := app.currentView;
  }

  /** Opening a product and then handling the pushed location again keeps the
      product view and the slug, for a slug made of URL-safe characters. */
  method RehandleAfterProduct(start: string, slug: string) returns (shown: View, shownSlug: Option<string>)
    requires PathSafeSlug(slug)
    ensures shown == Product && shownSlug == Some(slug)
  {
    var app := new App(start);
    app.NavigateToProduct(slug);
    ProductRoundTrip(slug, app.currentView, app.currentProductSlug);
    app.OnLocationChange(app.location);
    shown, shownSlug := app.currentView, app.currentProductSlug;
  }

  /** A first load of `/about` shows the home view: the router only recognises
      product paths, `/collection` and `/`, and the initial view is home. */
  method FirstLoadOfAbout() returns (shown: View)
    ensures shown == Home
  {
    UnmatchedExamples(Home, None);
    var app := new App("/about");
    shown := app.currentView;
  }

  /** Going to about, then to a product, then back (a `popstate` to `/about`)
      leaves the product view on screen: `/about` is not a path the router
      recognises, so the view stays where it was. */
  method BackToAboutAfterProduct(start: string, slug: string) returns (shown: View)
    ensures shown == Product
  {
    var app := new App(start);
    app.NavigateTo(About);
    app.NavigateToProduct(slug);
    UnmatchedExamples(app.currentView, app.currentProductSlug);
    app.OnLocationChange("/about");
    shown := app.currentView;
  }

  /** Scrolling the home page past the band docks the wordmark; opening a product
      and then clicking the wordmark back to home leaves it undocked and white
      again, because both navigations scroll to the top. */
  method ReturnHomeUndocks(start: string, innerHeight: real, slug: string)
    returns (dockedBefore: bool, dockedAfter: bool, colour: Colour)
    requires innerHeight > 0.0
    ensures dockedBefore && !dockedAfter && colour == White
  {
    var app := new App(start);
    app.NavigateTo(Home);
    app.OnScroll(innerHeight, innerHeight);
    dockedBefore := app.Docked();
    app.NavigateToProduct(slug);
    app.NavigateTo(Home);
    dockedAfter := app.Docked();
    colour := LogoColour(app.currentView, app.scrollProgress);
  }

  /** The code does not scroll on a `popstate` to `/` (App.tsx:68), so without
      the browser's scroll restoration, which is not modelled, a return home keeps
      the progress a product page was scrolled to: after scrolling it past the band
      the home wordmark stays docked and black. */
  method BackHomeKeepsProgress(start: string, innerHeight: real, slug: string)
    returns (docked: bool, colour: Colour)
    requires innerHeight > 0.0
    ensures docked && colour == Black
  {
    var app := new App(start);
    app.NavigateToProduct(slug);
    app.OnScroll(innerHeight, innerHeight);
    ExactRoutes("/", app.currentView, app.currentProductSlug);
    app.OnLocationChange("/");
    docked := app.Docked();
    colour := LogoColour(app.currentView, app.scrollProgress);
  }
}
