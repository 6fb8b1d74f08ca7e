/**
 * The client's static route table: the home page, two service pages and
 * three program pages, each detail page bound to a fixed slug. Every page
 * is wrapped in the layout, whose footer is shown unless the route turns it off.
 */
module Routes {
  import opened Types
  import Fallback

  datatype View = HomePage | ServiceDetailPage(slug: string) | ProgramDetailPage(slug: string)

  datatype Route = Route(path: string, view: View, showFooter: bool)

  /** The layout's `showFooter` when a route does not pass one. */
  const DefaultShowFooter: bool := true

  const Table: seq<Route> := [
    Route("/", HomePage, DefaultShowFooter),
    Route("/psiquiatria", ServiceDetailPage("psiquiatria"), DefaultShowFooter),
    Route("/psicologia", ServiceDetailPage("psicologia"), DefaultShowFooter),
    Route("/programa-angustia", ProgramDetailPage("programa-angustia"), false),
    Route("/programa-culpa", ProgramDetailPage("programa-culpa"), false),
    Route("/programa-irritabilidad", ProgramDetailPage("programa-irritabilidad"), false)
  ]

  function RoutePath(r: Route): string { r.path }

  /**
   * The route of the table whose path is exactly `path`, if any: the
   * router's choice for a path written as in the table (case, trailing
   * slash and percent escapes are not normalised).
   */
  function Match(path: string): (r: Option<Route>)
    ensures r.Some? ==> r.value in Table && r.value.path == path
    ensures r.None? <==> forall i :: 0 <= i < |Table| ==> Table[i].path != path
  {
    Find(Table, RoutePath, path)
  }

  /** The six paths are pairwise distinct. */
  lemma PathsDistinct()
    ensures forall a, b :: 0 <= a < b < |Table| ==> Table[a].path != Table[b].path
  {
  }

  /** The service routes' paths are "/" followed by the slug their view receives. */
  lemma ServicePathsAreSlugs()
    ensures forall i :: 1 <= i < 3 ==> Table[i].view.ServiceDetailPage? && Table[i].path == "/" + Table[i].view.slug
  {
    assert Table[1].path == "/" + Table[1].view.slug;
    assert Table[2].path == "/" + Table[2].view.slug;
  }

  /** The program routes' paths are "/" followed by the slug their view receives. */
  lemma ProgramPathsAreSlugs()
    ensures forall i :: 3 <= i < 6 ==> Table[i].view.ProgramDetailPage? && Table[i].path == "/" + Table[i].view.slug
  {
    assert Table[3].path == "/" + Table[3].view.slug;
    assert Table[4].path == "/" + Table[4].view.slug;
    assert Table[5].path == "/" + Table[5].view.slug;
  }

  /** Each detail route's path is "/" followed by the slug its view receives. */
  lemma DetailPathIsSlug(r: Route)
    requires r in Table && !r.view.HomePage?
    ensures r.path == "/" + r.view.slug
  {
    ServicePathsAreSlugs();
    ProgramPathsAreSlugs();
  }

  /** Program pages hide the footer; the home and service pages keep the default. */
  lemma FooterOnlyOffForPrograms(r: Route)
    requires r in Table
    ensures r.showFooter <==> !r.view.ProgramDetailPage?
  {
  }

  /** Every slug a route binds names an entry of the matching compiled-in table. */
  lemma BoundSlugsHaveFallback(r: Route)
    requires r in Table
    ensures r.view.ServiceDetailPage? ==> HasKey(Fallback.FallbackServices, ServiceSlug, r.view.slug)
    ensures r.view.ProgramDetailPage? ==> HasKey(Fallback.FallbackPrograms, ProgramSlug, r.view.slug)
  {
    var i :| 0 <= i < |Table| && Table[i] == r;
    if i == 1 || i == 2 {
      assert ServiceSlug(Fallback.FallbackServices[i - 1]) == r.view.slug;
    } else if i >= 3 {
      assert ProgramSlug(Fallback.FallbackPrograms[i - 3]) == r.view.slug;
    }
  }

  /** Each route is the one `Match` selects for its own path. */
  lemma {:induction false} MatchOwnPath(j: nat)
    requires j < |Table|
    ensures Match(Table[j].path) == Some(Table[j])
  {
    PathsDistinct();
    FindUnique(Table, RoutePath, j);
  }

  /** The last three routes bind the compiled-in programs, in table order. */
  lemma ProgramRouteAt(i: nat)
    requires i < |Fallback.FallbackPrograms|
    ensures i + 3 < |Table|
    ensures Table[i + 3] == Route("/" + Fallback.FallbackPrograms[i].slug, ProgramDetailPage(Fallback.FallbackPrograms[i].slug), false)
  {
    Fallback.Slugs();
    ProgramPathsAreSlugs();
  }

  /** The second and third routes bind the compiled-in services, in table order. */
  lemma ServiceRouteAt(i: nat)
    requires i < |Fallback.FallbackServices|
    ensures i + 1 < |Table|
    ensures Table[i + 1] == Route("/" + Fallback.FallbackServices[i].slug, ServiceDetailPage(Fallback.FallbackServices[i].slug), true)
  {
    Fallback.Slugs();
    ServicePathsAreSlugs();
  }

  /** "/" followed by a compiled-in program's slug opens that program's page without a footer. */
  lemma {:induction false} ProgramPathOpensProgram(i: nat)
    requires i < |Fallback.FallbackPrograms|
    ensures Match("/" + Fallback.FallbackPrograms[i].slug) ==
            Some(Route("/" + Fallback.FallbackPrograms[i].slug, ProgramDetailPage(Fallback.FallbackPrograms[i].slug), false))
  {
    ProgramRouteAt(i);
    MatchOwnPath(i + 3);
  }

  /** "/" followed by a compiled-in service's slug opens that service's page with the footer. */
  lemma {:induction false} ServicePathOpensService(i: nat)
    requires i < |Fallback.FallbackServices|
    ensures Match("/" + Fallback.FallbackServices[i].slug) ==
            Some(Route("/" + Fallback.FallbackServices[i].slug, ServiceDetailPage(Fallback.FallbackServices[i].slug), true))
  {
    ServiceRouteAt(i);
    MatchOwnPath(i + 1);
  }
}
