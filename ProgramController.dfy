/**
 * The server's program handlers. The in-memory `programs` list and the
 * clock reading that fills `timestamp` are parameters: the list comes from
 * a module that is not part of this model, and the clock is outside it.
 */
module ProgramController {
  import opened Types

  /** `GET /programs`: the whole list, in order, in a success envelope. */
  function GetAllPrograms(programs: seq<Program>, now: string): (r: Reply<seq<Program>>)
    ensures r.status == DefaultStatus
    ensures r.body.success && r.body.data == programs && r.body.timestamp == now
  {
    Reply(DefaultStatus, ApiResponse(true, programs, now))
  }

  /**
   * `GET /programs/:slug`: the first program with that slug in a success
   * envelope, or a 404 with `success = false` and `data = null`. The
   * function yields one reply, as the early return makes the handler send one.
   */
  function GetProgramBySlug(programs: seq<Program>, slug: string, now: string): (r: Reply<Option<Program>>)
    ensures r.status == 404 <==> !HasKey(programs, ProgramSlug, slug)
    ensures r.status == 404 ==> !r.body.success && r.body.data == None
    ensures r.status != 404 ==> r.status == DefaultStatus && r.body.success
    ensures r.status != 404 ==> r.body.data == Find(programs, ProgramSlug, slug)
    ensures r.body.data.Some? ==> r.body.data.value.slug == slug
    ensures r.body.timestamp == now
  {
    match Find(programs, ProgramSlug, slug)
    case None => Reply(404, ApiResponse(false, None, now))
    case Some(p) => Reply(DefaultStatus, ApiResponse(true, Some(p), now))
  }
}
