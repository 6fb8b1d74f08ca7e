/**
 * The content records shared by the client and the server: authors, grid
 * items, services, programs and the response envelope, plus the optional
 * value that stands for JavaScript's `null`/`undefined` and the first-match
 * search that `Array.prototype.find` performs.
 */
module Types {

  /** `T | null` (and `T | undefined`) of the TypeScript source. */
  datatype Option<+T> = None | Some(value: T)

  datatype Author = Author(name: string, role: string, imageUrl: string)

  datatype GridItem = GridItem(title: string, description: string)

  datatype Service = Service(
    id: string,
    slug: string,
    title: string,
    subtitle: string,
    description: string,
    interventionPoints: seq<string>,
    imageUrl: string,
    ctaText: string,
    ctaMessage: string)

  /** Prices are JavaScript numbers; every price here is a whole number of pesos. */
  datatype Program = Program(
    id: string,
    slug: string,
    title: string,
    subtitle: string,
    price: int,
    shortDescription: string,
    longDescription: string,
    problemTitle: string,
    problemPoints: seq<string>,
    solutionGrid: seq<GridItem>,
    structure: seq<GridItem>,
    duration: string,
    isOnline: bool,
    imageUrl: string,
    author: Author)

  /** The `{ success, data, timestamp }` envelope every endpoint answers with. */
  datatype ApiResponse<T> = ApiResponse(success: bool, data: T, timestamp: string)

  /** What a server handler sends: the HTTP status and the JSON envelope. */
  datatype Reply<T> = Reply(status: int, body: ApiResponse<T>)

  /** The status Express sends when the handler does not set one. */
  const DefaultStatus: int := 200

  function ProgramSlug(p: Program): string { p.slug }

  function ServiceSlug(s: Service): string { s.slug }

  /** Some element of `xs` has key `slug`. */
  ghost predicate HasKey<T>(xs: seq<T>, key: T -> string, slug: string)
  {
    exists i :: 0 <= i < |xs| && key(xs[i]) == slug
  }

  /**
   * `xs.find(x => key(x) === slug)`: the first element whose key is `slug`,
   * or `None` when no element has that key.
   */
  function Find<T>(xs: seq<T>, key: T -> string, slug: string): (r: Option<T>)
    ensures r.None? <==> !HasKey(xs, key, slug)
    ensures r.Some? ==> key(r.value) == slug
    ensures r.Some? ==> exists i :: 0 <= i < |xs| && xs[i] == r.value &&
                          forall j :: 0 <= j < i ==> key(xs[j]) != slug
  {
    if |xs| == 0 then None
    else if key(xs[0]) == slug then Some(xs[0])
    else
      var r := Find(xs[1..], key, slug);
      assert forall i :: 0 < i < |xs| ==> xs[i] == xs[1..][i - 1];
      assert r.Some? ==> exists i :: 0 <= i < |xs[1..]| && xs[1..][i] == r.value &&
                          forall j :: 0 <= j < i ==> key(xs[1..][j]) != slug;
      assert r.Some? ==> exists i :: 0 < i < |xs| && xs[i] == r.value &&
                          forall j :: 0 <= j < i ==> key(xs[j]) != slug by {
        if r.Some? {
          var i :| 0 <= i < |xs[1..]| && xs[1..][i] == r.value &&
                   forall j :: 0 <= j < i ==> key(xs[1..][j]) != slug;
          assert xs[i + 1] == r.value;
          forall j | 0 <= j < i + 1 ensures key(xs[j]) != slug {
            if j > 0 { assert xs[j] == xs[1..][j - 1]; }
          }
        }
      }
      r
  }

  /** Within a list whose keys are pairwise distinct, `Find` returns the one element with that key. */
  lemma {:induction false} FindUnique<T>(xs: seq<T>, key: T -> string, i: nat)
    requires i < |xs|
    requires forall a, b :: 0 <= a < b < |xs| ==> key(xs[a]) != key(xs[b])
    ensures Find(xs, key, key(xs[i])) == Some(xs[i])
  {
    if i > 0 {
      assert key(xs[0]) != key(xs[i]);
      assert xs[i] == xs[1..][i - 1];
      FindUnique(xs[1..], key, i - 1);
    }
  }
}
