/**
 * The client and the server together: a server reply, received intact and
 * decoded, is the fetch outcome the client's lookup maps to a value. With
 * the content service up, the client sees exactly the server's list and the
 * server's first match, never the compiled-in tables.
 */
module EndToEnd {
  import opened Types
  import Api
  import ProgramController
  import ServiceController
  import Routes

  /**
   * A slug that reaches the by-slug handler unchanged when spliced into the
   * request path: non-empty and made only of lower-case letters, digits and
   * dashes, so that neither a separator ('/', '\\', '?', '#'), nor an escape
   * ('%'), nor a dot segment, nor whitespace the URL parser strips can occur.
   */
  predicate PathSafe(slug: string)
  {
    slug != "" && forall i :: 0 <= i < |slug| ==> 'a' <= slug[i] <= 'z' || '0' <= slug[i] <= '9' || slug[i] == '-'
  }

  /** The slugs the two service routes bind are path-safe. */
  lemma ServiceRouteSlugsArePathSafe()
    ensures forall i :: 1 <= i < 3 ==> Routes.Table[i].view.ServiceDetailPage? && PathSafe(Routes.Table[i].view.slug)
  {
    assert PathSafe(Routes.Table[1].view.slug);
    assert PathSafe(Routes.Table[2].view.slug);
  }

  /** The slugs the three program routes bind are path-safe. */
  lemma ProgramRouteSlugsArePathSafe()
    ensures forall i :: 3 <= i < 6 ==> Routes.Table[i].view.ProgramDetailPage? && PathSafe(Routes.Table[i].view.slug)
  {
    assert PathSafe(Routes.Table[3].view.slug);
    assert PathSafe(Routes.Table[4].view.slug);
    assert PathSafe(Routes.Table[5].view.slug);
  }

  /** Every slug the route table binds is path-safe. */
  lemma RouteSlugsArePathSafe(r: Routes.Route)
    requires r in Routes.Table && !r.view.HomePage?
    ensures PathSafe(r.view.slug)
  {
    ServiceRouteSlugsArePathSafe();
    ProgramRouteSlugsArePathSafe();
  }

  /** A reply as the client receives it: the same status, the body decoded. */
  function Deliver<T>(reply: Reply<T>): (o: Api.Fetch<T>)
    ensures o.Response? && o.status == reply.status && o.body == Api.Parsed(reply.body)
  {
    Api.Response(reply.status, Api.Parsed(reply.body))
  }

  /** Listing programs with the service up yields the server's list, in order. */
  lemma ProgramListFromServer(programs: seq<Program>, now: string)
    ensures Api.GetPrograms(Deliver(ProgramController.GetAllPrograms(programs, now))) == programs
  {
  }

  /** Looking a path-safe program slug up with the service up yields the server's first match, whose slug is the one requested. */
  lemma ProgramFromServer(programs: seq<Program>, slug: string, now: string)
    requires PathSafe(slug)
    ensures Api.GetProgramBySlug(slug, Deliver(ProgramController.GetProgramBySlug(programs, slug, now))) ==
            Find(programs, ProgramSlug, slug)
    ensures Api.GetProgramBySlug(slug, Deliver(ProgramController.GetProgramBySlug(programs, slug, now))).Some? ==>
            Api.GetProgramBySlug(slug, Deliver(ProgramController.GetProgramBySlug(programs, slug, now))).value.slug == slug
  {
  }

  /** Listing services with the service up yields the server's list, in order. */
  lemma ServiceListFromServer(services: seq<Service>, now: string)
    ensures Api.GetServices(Deliver(ServiceController.GetAllServices(services, now))) == services
  {
  }

  /** Looking a path-safe service slug up with the service up yields the server's first match, whose slug is the one requested. */
  lemma ServiceFromServer(services: seq<Service>, slug: string, now: string)
    requires PathSafe(slug)
    ensures Api.GetServiceBySlug(slug, Deliver(ServiceController.GetServiceBySlug(services, slug, now))) ==
            Find(services, ServiceSlug, slug)
    ensures Api.GetServiceBySlug(slug, Deliver(ServiceController.GetServiceBySlug(services, slug, now))).Some? ==>
            Api.GetServiceBySlug(slug, Deliver(ServiceController.GetServiceBySlug(services, slug, now))).value.slug == slug
  {
  }
}
