/**
 * The client's hydration layer: one fetch attempt per call, whose outcome is
 * abstracted as `Fetch`, mapped to a value by a fixed policy. A by-slug
 * lookup answers with the payload on success, with `None` on a 404, and with
 * a search of the compiled-in table on any other failure; a list lookup
 * answers with the payload on success and with the whole compiled-in table
 * on any failure. No call lets a failure escape.
 */
module Api {
  import opened Types
  import Fallback

  /** What `res.json()` produced: the decoded envelope, or a decode failure. */
  datatype Body<T> = Parsed(envelope: ApiResponse<T>) | Malformed

  /** What the single `fetch` produced: a thrown request, or a response with its status and body. */
  datatype Fetch<T> = NetworkError | Response(status: int, body: Body<T>)

  /** `res.ok`: the status lies in 200..299. */
  predicate IsOk(status: int)
    ensures IsOk(status) ==> status != 404
  {
    200 <= status <= 299
  }

  /** The response was ok and its body decoded. */
  predicate Served<T>(o: Fetch<T>)
    ensures Served(o) ==> o.Response? && IsOk(o.status) && !Absent(o)
  {
    o.Response? && IsOk(o.status) && o.body.Parsed?
  }

  /** The content service answered 404. */
  predicate Absent<T>(o: Fetch<T>)
    ensures Absent(o) ==> o.Response? && !IsOk(o.status)
  {
    o.Response? && o.status == 404
  }

  /** Every way the attempt can fail other than a 404. */
  predicate Failed<T>(o: Fetch<T>)
    ensures Failed(o) <==> !Served(o) && !Absent(o)
  {
    || o.NetworkError?
    || (o.Response? && !IsOk(o.status) && o.status != 404)
    || (o.Response? && IsOk(o.status) && o.body.Malformed?)
  }

  /** Every outcome falls in exactly one of the three classes. */
  lemma Trichotomy<T>(o: Fetch<T>)
    ensures Served(o) || Absent(o) || Failed(o)
    ensures !(Served(o) && Absent(o)) && !(Served(o) && Failed(o)) && !(Absent(o) && Failed(o))
  {
  }

  /**
   * The by-slug policy, over any fallback table: the payload when served,
   * `None` on a 404, the first table entry with that slug otherwise.
   */
  function ResolveOne<T>(table: seq<T>, key: T -> string, slug: string, o: Fetch<Option<T>>): (r: Option<T>)
    ensures Served(o) ==> r == o.body.envelope.data
    ensures Absent(o) ==> r == None
    ensures Failed(o) ==> r == Find(table, key, slug)
  {
    match o
    case NetworkError => Find(table, key, slug)
    case Response(status, body) =>
      if !IsOk(status) then
        if status == 404 then None else Find(table, key, slug)
      else
        match body
        case Parsed(envelope) => envelope.data
        case Malformed => Find(table, key, slug)
  }

  /** The list policy, over any fallback table: the payload when served, the whole table otherwise. */
  function ResolveAll<T>(table: seq<T>, o: Fetch<seq<T>>): (r: seq<T>)
    ensures Served(o) ==> r == o.body.envelope.data
    ensures !Served(o) ==> r == table
  {
    if Served(o) then o.body.envelope.data else table
  }

  /** The fallback table is consulted only on a failure other than a 404. */
  lemma {:induction false} TableOnlyOnFailure<T>(t1: seq<T>, t2: seq<T>, key: T -> string, slug: string, o: Fetch<Option<T>>)
    requires !Failed(o)
    ensures ResolveOne(t1, key, slug, o) == ResolveOne(t2, key, slug, o)
  {
    Trichotomy(o);
  }

  /** A 404 answers `None` even when the table holds an entry with that slug. */
  lemma {:induction false} NotFoundIsDefinitive<T>(table: seq<T>, key: T -> string, slug: string, o: Fetch<Option<T>>)
    requires Absent(o)
    requires HasKey(table, key, slug)
    ensures ResolveOne(table, key, slug, o) == None
    ensures Find(table, key, slug).Some?
  {
  }

  /** `api.getPrograms`. */
  function GetPrograms(o: Fetch<seq<Program>>): (r: seq<Program>)
    ensures Served(o) ==> r == o.body.envelope.data
    ensures !Served(o) ==> r == Fallback.FallbackPrograms
  {
    ResolveAll(Fallback.FallbackPrograms, o)
  }

  /** `api.getProgramBySlug`. */
  function GetProgramBySlug(slug: string, o: Fetch<Option<Program>>): (r: Option<Program>)
    ensures Served(o) ==> r == o.body.envelope.data
    ensures Absent(o) ==> r == None
    ensures Failed(o) ==> r == Find(Fallback.FallbackPrograms, ProgramSlug, slug)
    ensures Failed(o) && r.Some? ==> r.value.slug == slug && r.value in Fallback.FallbackPrograms
  {
    ResolveOne(Fallback.FallbackPrograms, ProgramSlug, slug, o)
  }

  /** `api.getServices`. */
  function GetServices(o: Fetch<seq<Service>>): (r: seq<Service>)
    ensures Served(o) ==> r == o.body.envelope.data
    ensures !Served(o) ==> r == Fallback.FallbackServices
  {
    ResolveAll(Fallback.FallbackServices, o)
  }

  /** `api.getServiceBySlug`. */
  function GetServiceBySlug(slug: string, o: Fetch<Option<Service>>): (r: Option<Service>)
    ensures Served(o) ==> r == o.body.envelope.data
    ensures Absent(o) ==> r == None
    ensures Failed(o) ==> r == Find(Fallback.FallbackServices, ServiceSlug, slug)
    ensures Failed(o) && r.Some? ==> r.value.slug == slug && r.value in Fallback.FallbackServices
  {
    ResolveOne(Fallback.FallbackServices, ServiceSlug, slug, o)
  }

  /** With the content service unreachable, every compiled-in program is still found by its slug. */
  lemma {:induction false} ProgramDegradesToFallback(i: nat, o: Fetch<Option<Program>>)
    requires i < |Fallback.FallbackPrograms|
    requires Failed(o)
    ensures GetProgramBySlug(Fallback.FallbackPrograms[i].slug, o) == Some(Fallback.FallbackPrograms[i])
  {
    Fallback.ProgramSlugsUnique();
    FindUnique(Fallback.FallbackPrograms, ProgramSlug, i);
  }

  /** With the content service unreachable, every compiled-in service is still found by its slug. */
  lemma {:induction false} ServiceDegradesToFallback(i: nat, o: Fetch<Option<Service>>)
    requires i < |Fallback.FallbackServices|
    requires Failed(o)
    ensures GetServiceBySlug(Fallback.FallbackServices[i].slug, o) == Some(Fallback.FallbackServices[i])
  {
    Fallback.ServiceSlugsUnique();
    FindUnique(Fallback.FallbackServices, ServiceSlug, i);
  }

  /** With the content service down, "programa-culpa" still resolves to "Redefinir la Culpa" at 250000. */
  lemma CulpaWhileOffline()
    ensures GetProgramBySlug("programa-culpa", NetworkError).Some?
    ensures GetProgramBySlug("programa-culpa", NetworkError).value.title == "Redefinir la Culpa"
    ensures GetProgramBySlug("programa-culpa", NetworkError).value.price == 250000
  {
    Fallback.CulpaLookup();
  }
}
