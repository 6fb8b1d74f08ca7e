/**
 * The server's service handlers. The in-memory `services` list and the
 * clock reading that fills `timestamp` are parameters: the list comes from
 * a module that is not part of this model, and the clock is outside it.
 */
module ServiceController {
  import opened Types

  /** `GET /services`: the whole list, in order, in a success envelope. */
  function GetAllServices(services: seq<Service>, now: string): (r: Reply<seq<Service>>)
    ensures r.status == DefaultStatus
    ensures r.body.success && r.body.data == services && r.body.timestamp == now
  {
    Reply(DefaultStatus, ApiResponse(true, services, now))
  }

  /**
   * `GET /services/:slug`: the first service with that slug in a success
   * envelope, or a 404 with `success = false` and `data = null`. The
   * function yields one reply, as the early return makes the handler send one.
   */
  function GetServiceBySlug(services: seq<Service>, slug: string, now: string): (r: Reply<Option<Service>>)
    ensures r.status == 404 <==> !HasKey(services, ServiceSlug, slug)
    ensures r.status == 404 ==> !r.body.success && r.body.data == None
    ensures r.status != 404 ==> r.status == DefaultStatus && r.body.success
    ensures r.status != 404 ==> r.body.data == Find(services, ServiceSlug, slug)
    ensures r.body.data.Some? ==> r.body.data.value.slug == slug
    ensures r.body.timestamp == now
  {
    match Find(services, ServiceSlug, slug)
    case None => Reply(404, ApiResponse(false, None, now))
    case Some(s) => Reply(DefaultStatus, ApiResponse(true, Some(s), now))
  }
}
