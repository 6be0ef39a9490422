/**
 * The page selector of the top-level app component (App.tsx): which of the
 * five pages is shown, the three navigation handlers that replace it, the
 * string keys the page is stored under, and the dispatch from the stored key
 * to the view that is rendered.
 */
module Navigation {
  import opened Wrappers
  import opened ServiceData

  /** The five values of `PageType`. */
  datatype Page = Home | Booking | ServicePage(service: ServiceType)

  const ServicePrefix := "service-"

  /**
   * The string literal a page is stored as. A service page's key is built
   * as the template `service-${serviceType}`.
   */
  function PageKey(p: Page): string {
    match p
    case Home => "home"
    case Booking => "booking"
    case ServicePage(t) => ServicePrefix + Key(t)
  }

  /** Distinct pages are stored under distinct keys. */
  lemma PageKeyInjective(p: Page, q: Page)
    ensures PageKey(p) == PageKey(q) ==> p == q
  {
  }

  /**
   * `String.prototype.replace` with a string pattern: the first occurrence
   * of `pat` is replaced by `rep`; without one, `s` is returned unchanged.
   */
  function ReplaceFirst(s: string, pat: string, rep: string): string
    decreases |s|
  {
    if pat <= s then rep + s[|pat|..]
    else if |s| == 0 then s
    else [s[0]] + ReplaceFirst(s[1..], pat, rep)
  }

  /** A string with no occurrence of the pattern comes back unchanged. */
  lemma {:induction false} ReplaceFirstWithout(s: string, pat: string, rep: string)
    requires forall i :: 0 <= i <= |s| ==> !(pat <= s[i..])
    ensures ReplaceFirst(s, pat, rep) == s
    decreases |s|
  {
    assert s[0..] == s;
    if |s| > 0 {
      forall i | 0 <= i <= |s[1..]|
        ensures !(pat <= s[1..][i..])
      {
        assert s[1..][i..] == s[i + 1..];
      }
      ReplaceFirstWithout(s[1..], pat, rep);
    }
  }

  /** Removing the prefix a key was built with gives back the rest exactly. */
  lemma ReplaceFirstOfPrefixed(pat: string, rest: string)
    ensures ReplaceFirst(pat + rest, pat, "") == rest
  {
  }

  /** The subtree the app renders for the stored key. */
  datatype View = HomeView | BookingView | ServiceView(serviceType: string)

  /**
   * The conditional rendering: 'home' and 'booking' by comparison, every
   * other key as a service page whose kind is the key with 'service-' removed.
   */
  function Render(currentPage: string): View {
    if currentPage == "home" then HomeView
    else if currentPage == "booking" then BookingView
    else ServiceView(ReplaceFirst(currentPage, ServicePrefix, ""))
  }

  /** The scroll progress bar is mounted only on the home page. */
  predicate ShowsProgressBar(currentPage: string) {
    currentPage == "home"
  }

  /** The view a page is meant to show. */
  function Intended(p: Page): View {
    match p
    case Home => HomeView
    case Booking => BookingView
    case ServicePage(t) => ServiceView(Key(t))
  }

  /**
   * Dispatch is exhaustive and exact: every page's key renders that page's
   * view, a service page's kind string reads back as its own kind, and the
   * progress bar shows exactly on the home page.
   */
  lemma RenderDispatch(p: Page)
    ensures Render(PageKey(p)) == Intended(p)
    ensures p.ServicePage? ==> ParseServiceType(Render(PageKey(p)).serviceType) == Some(p.service)
    ensures ShowsProgressBar(PageKey(p)) <==> p == Home
  {
  }

  /** The three navigation handlers, as actions. */
  datatype Nav = ToHome | ToBooking | ToService(service: ServiceType)

  function Target(n: Nav): Page {
    match n
    case ToHome => Home
    case ToBooking => Booking
    case ToService(t) => ServicePage(t)
  }

  /** The page after a sequence of navigation calls from page p. */
  function Run(p: Page, navs: seq<Nav>): Page
    decreases |navs|
  {
    if navs == [] then p else Run(Target(navs[0]), navs[1..])
  }

  /**
   * Last write wins: after any non-empty sequence of navigation calls the
   * page is the last call's target, whatever the page was before.
   */
  lemma {:induction false} LastWriteWins(p: Page, navs: seq<Nav>)
    requires navs != []
    ensures Run(p, navs) == Target(navs[|navs| - 1])
    decreases |navs|
  {
    if |navs| > 1 {
      LastWriteWins(Target(navs[0]), navs[1..]);
    }
  }

  /** The on-screen controls that call a navigation handler. */
  datatype Control =
    | NavbarBooking | HeroBooking | ContactBooking      // onOpenBooking on the home page
    | ExploreService(service: ServiceType)              // "Explore Service" on each service card
    | BookingBack                                       // BookingPage's onBack
    | ServiceBack | ServiceBooking                      // ServicePageLayout's onBack / onOpenBooking

  /** The controls each view renders. */
  function Controls(v: View): (cs: set<Control>)
    ensures !v.HomeView? ==> forall c :: c in cs ==> !c.ExploreService?
    ensures cs != {}
  {
    match v
    case HomeView =>
      {NavbarBooking, HeroBooking, ContactBooking,
       ExploreService(Kitchens), ExploreService(MediaPanels), ExploreService(InteriorDecor)}
    case BookingView => {BookingBack}
    case ServiceView(_) => {ServiceBack, ServiceBooking}
  }

  /** Every service has its card on the home page, and only there. */
  lemma ServiceCardsOnHome(v: View, t: ServiceType)
    ensures ExploreService(t) in Controls(v) <==> v.HomeView?
  {
  }

  /**
   * The handler each control is evidently meant to call, with the service
   * cards wired to `handleNavigateToService`.
   */
  function Handler(c: Control): (n: Nav)
    ensures c.ExploreService? ==> n == ToService(c.service)
    ensures c == BookingBack || c == ServiceBack ==> n == ToHome
    ensures c == NavbarBooking || c == HeroBooking || c == ContactBooking || c == ServiceBooking ==> n == ToBooking
  {
    match c
    case NavbarBooking => ToBooking
    case HeroBooking => ToBooking
    case ContactBooking => ToBooking
    case ExploreService(t) => ToService(t)
    case BookingBack => ToHome
    case ServiceBack => ToHome
    case ServiceBooking => ToBooking
  }

  /**
   * The handler as the code is written: the services section takes no
   * props, so its "Explore Service" buttons call nothing.
   */
  function HandlerAsWritten(c: Control): (n: Option<Nav>)
    ensures n.None? <==> c.ExploreService?
    ensures !c.ExploreService? ==> n == Some(Handler(c))
  {
    if c.ExploreService? then None else Some(Handler(c))
  }

  /** One click on control c from page p; a control not on screen does nothing. */
  function Click(p: Page, c: Control, asWritten: bool): Page {
    if c !in Controls(Render(PageKey(p))) then p
    else if asWritten then
      match HandlerAsWritten(c)
      case None => p
      case Some(n) => Target(n)
    else Target(Handler(c))
  }

  function Clicks(p: Page, cs: seq<Control>, asWritten: bool): Page
    decreases |cs|
  {
    if cs == [] then p else Clicks(Click(p, cs[0], asWritten), cs[1..], asWritten)
  }

  /**
   * As written, no sequence of clicks starting on the home page ever reaches
   * a service page.
   */
  lemma {:induction false} ServicePagesUnreachableAsWritten(p: Page, cs: seq<Control>)
    requires !p.ServicePage?
    ensures !Clicks(p, cs, true).ServicePage?
    decreases |cs|
  {
    if cs != [] {
      RenderDispatch(p);
      ServicePagesUnreachableAsWritten(Click(p, cs[0], true), cs[1..]);
    }
  }

  /** With the service cards wired, one click from home opens each service page. */
  lemma ServicePageReachable(t: ServiceType)
    ensures Clicks(Home, [ExploreService(t)], false) == ServicePage(t)
  {
  }

  /** What `window.scrollTo` and `setCurrentPage` did, in order. */
  datatype Effect = ScrollToTop | SetPage(key: string)

  /** The app component's state: the stored page key. */
  class App {
    var currentPage: string
    ghost var page: Page
    /** The side effects performed so far, oldest first. */
    var effects: seq<Effect>

    ghost predicate Valid()
      reads this
    {
      currentPage == PageKey(page)
    }

    /** `useState<PageType>('home')` */
    constructor ()
      ensures Valid() && page == Home && currentPage == "home" && effects == []
    {
      currentPage := "home";
      page := Home;
      effects := [];
    }

    /** What is on screen for the stored key. */
    function CurrentView(): (v: View)
      reads this
      requires Valid()
      ensures v == Intended(page)
    {
      RenderDispatch(page);
      Render(currentPage)
    }

    /** `handleNavigateToBooking` */
    method NavigateToBooking()
      modifies this
      ensures Valid() && page == Booking
      ensures effects == old(effects) + [ScrollToTop, SetPage("booking")]
    {
      effects := effects + [ScrollToTop];
      currentPage := "booking";
      page := Booking;
      effects := effects + [SetPage(currentPage)];
    }

    /** `handleNavigateToHome` */
    method NavigateToHome()
      modifies this
      ensures Valid() && page == Home
      ensures effects == old(effects) + [ScrollToTop, SetPage("home")]
    {
      effects := effects + [ScrollToTop];
      currentPage := "home";
      page := Home;
      effects := effects + [SetPage(currentPage)];
    }

    /** `handleNavigateToService`: the key is `service-` followed by the kind. */
    method NavigateToService(t: ServiceType)
      modifies this
      ensures Valid() && page == ServicePage(t)
      ensures currentPage == ServicePrefix + Key(t)
      ensures effects == old(effects) + [ScrollToTop, SetPage(currentPage)]
    {
      effects := effects + [ScrollToTop];
      currentPage := ServicePrefix + Key(t);
      page := ServicePage(t);
      effects := effects + [SetPage(currentPage)];
    }

    /** Calls the handler for n; the page becomes n's target whatever it was. */
    method Navigate(n: Nav)
      modifies this
      ensures Valid() && page == Target(n)
      ensures effects == old(effects) + [ScrollToTop, SetPage(PageKey(Target(n)))]
    {
      match n
      case ToHome => NavigateToHome();
      case ToBooking => NavigateToBooking();
      case ToService(t) => NavigateToService(t);
    }
  }
}
