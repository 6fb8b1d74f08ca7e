/**
 * The program detail page: a loading flag and an optional program, hydrated
 * by one asynchronous lookup per slug, rendered as Loading, NotFound or Ready;
 * once Ready, an intersection observer over six full-viewport sections drives
 * `currentPage`. The asynchronous lookup is split at its `await`: `Begin` is
 * what runs before it, `Complete` what runs when the lookup resolves. Nothing
 * ties a completion to the request that started it, so whichever completion
 * is applied last decides the state.
 */
module ProgramDetail {
  import opened Types
  import opened Strings
  import Api
  import Fallback

  /** The sections carry `data-index` 0 to 5. */
  const PageCount: int := 6

  /** One intersection entry: its section's `data-index` and whether it intersects. */
  datatype Entry = Entry(index: int, isIntersecting: bool)

  datatype Screen = Loading | NotFound(shownSlug: string) | Ready(program: Program)

  /** The image an author's `imageUrl` resolves to: the bundled portrait, or the name as given. */
  datatype ImageSrc = AuthorPortrait | Named(name: string)

  /** How `{slug}` renders: the slug, or nothing when it is undefined. */
  function Shown(slug: Option<string>): (r: string)
    ensures slug.Some? ==> r == slug.value
    ensures slug.None? ==> r == ""
  {
    if slug.Some? then slug.value else ""
  }

  /** The observer callback: each intersecting entry, in order, sets the page. */
  function PageAfter(current: int, entries: seq<Entry>): (r: int)
    ensures r == current || exists i :: 0 <= i < |entries| && entries[i].isIntersecting && entries[i].index == r
    decreases |entries|
  {
    if |entries| == 0 then current
    else
      var last := entries[|entries| - 1];
      if last.isIntersecting then last.index else PageAfter(current, entries[..|entries| - 1])
  }

  /** A batch with no intersecting entry leaves the page as it was. */
  lemma {:induction false} PageAfterNoneIntersecting(current: int, entries: seq<Entry>)
    requires forall i :: 0 <= i < |entries| ==> !entries[i].isIntersecting
    ensures PageAfter(current, entries) == current
    decreases |entries|
  {
    if |entries| > 0 {
      PageAfterNoneIntersecting(current, entries[..|entries| - 1]);
    }
  }

  /** The last intersecting entry of a batch decides the page. */
  lemma {:induction false} PageAfterLastWins(current: int, entries: seq<Entry>, k: nat)
    requires k < |entries| && entries[k].isIntersecting
    requires forall j :: k < j < |entries| ==> !entries[j].isIntersecting
    ensures PageAfter(current, entries) == entries[k].index
    decreases |entries|
  {
    if k < |entries| - 1 {
      PageAfterLastWins(current, entries[..|entries| - 1], k);
    }
  }

  /** With entries from the six sections, the page stays in 0..5. */
  lemma {:induction false} PageAfterInRange(current: int, entries: seq<Entry>)
    requires 0 <= current < PageCount
    requires forall i :: 0 <= i < |entries| ==> 0 <= entries[i].index < PageCount
    ensures 0 <= PageAfter(current, entries) < PageCount
    decreases |entries|
  {
    if |entries| > 0 && !entries[|entries| - 1].isIntersecting {
      PageAfterInRange(current, entries[..|entries| - 1]);
    }
  }

  /**
   * `scrollToPage(index)`: with a container, a scroll to `innerHeight * index`;
   * without one, nothing.
   */
  function ScrollTop(index: int, innerHeight: int, hasContainer: bool): (r: Option<int>)
    ensures r.Some? <==> hasContainer
    ensures r.Some? ==> r.value == innerHeight * index
  {
    if hasContainer then Some(innerHeight * index) else None
  }

  /**
   * The top of section `i` among full-viewport sections of height `h`
   * stacked from 0: each section starts where the previous one ends.
   */
  function SectionTop(i: nat, h: int): int
  {
    if i == 0 then 0 else SectionTop(i - 1, h) + h
  }

  /** With a container, `scrollToPage(index)` scrolls to the top of section `index`. */
  lemma {:induction false} ScrollTargetIsSectionTop(index: nat, innerHeight: int)
    ensures ScrollTop(index, innerHeight, true) == Some(SectionTop(index, innerHeight))
  {
    if index > 0 {
      ScrollTargetIsSectionTop(index - 1, innerHeight);
      assert innerHeight * index == innerHeight * (index - 1) + innerHeight;
    }
  }

  /** With a viewport of positive height, later sections start strictly lower. */
  lemma {:induction false} SectionTopIncreasing(i: nat, j: nat, h: int)
    requires h > 0 && i < j
    ensures SectionTop(i, h) < SectionTop(j, h)
    decreases j
  {
    if i < j - 1 {
      SectionTopIncreasing(i, j - 1, h);
    }
  }

  /** `program.duration?.split(' ')[0] || '4'`. */
  function DurationBadge(duration: Option<string>): (r: string)
    ensures r != "" && ' ' !in r
    ensures duration.None? || duration.value == "" || duration.value[0] == ' ' ==> r == "4"
    ensures duration.Some? && duration.value != "" && duration.value[0] != ' ' ==>
              r <= duration.value && (|r| == |duration.value| || duration.value[|r|] == ' ')
  {
    var token := if duration.Some? then FirstToken(duration.value) else "";
    if token == "" then "4" else token
  }

  /** Every compiled-in program shows "4" weeks. */
  lemma FallbackDurationBadge(p: Program)
    requires p in Fallback.FallbackPrograms
    ensures DurationBadge(Some(p.duration)) == "4"
  {
    Fallback.ProgramShape(p);
    assert FirstToken("4 Semanas") == "4";
  }

  /** `program.isOnline ? '100%' : 'Mix'`. */
  function OnlineBadge(isOnline: bool): (r: string)
    ensures isOnline <==> r == "100%"
    ensures !isOnline <==> r == "Mix"
  {
    if isOnline then "100%" else "Mix"
  }

  /** `resolveImage`: absent stays absent, a name mentioning "claudio" is the bundled portrait, any other name is kept. */
  function ResolveImage(imgName: Option<string>): (r: Option<ImageSrc>)
    ensures r.None? <==> !Truthy(imgName)
    ensures r == Some(AuthorPortrait) <==> Truthy(imgName) && Contains(imgName.value, "claudio")
    ensures Truthy(imgName) && !Contains(imgName.value, "claudio") ==> r == Some(Named(imgName.value))
  {
    if !Truthy(imgName) then None
    else if Contains(imgName.value, "claudio") then Some(AuthorPortrait)
    else Some(Named(imgName.value))
  }

  /** The compiled-in author's picture resolves to the bundled portrait. */
  lemma FallbackAuthorPortrait(p: Program)
    requires p in Fallback.FallbackPrograms
    ensures ResolveImage(Some(p.author.imageUrl)) == Some(AuthorPortrait)
  {
    Fallback.ProgramShape(p);
    assert OccursAt(Fallback.ClaudioReyes.imageUrl, "claudio", 0);
  }

  class ProgramDetailView {
    var loading: bool
    var program: Option<Program>
    var currentPage: int
    /** Whether an intersection observer is connected. */
    var observing: bool

    ghost predicate Valid()
      reads this
    {
      0 <= currentPage < PageCount
    }

    /** The first render: loading, no program, page 0, no observer. */
    constructor ()
      ensures Valid()
      ensures loading && program == None && currentPage == 0 && !observing
    {
      loading, program, currentPage, observing := true, None, 0, false;
    }

    /**
     * The part of the hydration effect that runs before the lookup: with no
     * slug, loading ends and no request is made; with one, loading starts.
     * The program is not reset.
     */
    method Begin(slug: Option<string>) returns (requested: bool)
      requires Valid()
      modifies this`loading
      ensures Valid()
      ensures requested <==> Truthy(slug)
      ensures loading == requested
    {
      if !Truthy(slug) {
        loading := false;
        return false;
      }
      loading := true;
      return true;
    }

    /** The lookup for `slug` resolved with outcome `o`: its result becomes the program and loading ends. */
    method Complete(slug: string, o: Api.Fetch<Option<Program>>)
      requires Valid()
      modifies this`loading, this`program
      ensures Valid()
      ensures program == Api.GetProgramBySlug(slug, o)
      ensures !loading
    {
      program := Api.GetProgramBySlug(slug, o);
      loading := false;
    }

    /** What the page renders for the current `slug`. */
    function View(slug: Option<string>): (s: Screen)
      reads this
      ensures s.Loading? <==> loading
      ensures s.NotFound? <==> !loading && program.None?
      ensures s.NotFound? ==> s.shownSlug == Shown(slug)
      ensures s.Ready? ==> program == Some(s.program)
    {
      if loading then Loading
      else if program.None? then NotFound(Shown(slug))
      else Ready(program.value)
    }

    /**
     * The scroll effect, re-run after `loading` or `program` changes: the
     * previous observer is disconnected, and a new one is connected only
     * when the page is Ready.
     */
    method SyncObserver()
      requires Valid()
      modifies this`observing
      ensures Valid()
      ensures observing <==> !loading && program.Some?
    {
      observing := !loading && program.Some?;
    }

    /** A batch of entries delivered to the observer; a disconnected observer delivers nothing. */
    method OnIntersect(entries: seq<Entry>)
      requires Valid()
      requires forall i :: 0 <= i < |entries| ==> 0 <= entries[i].index < PageCount
      modifies this`currentPage
      ensures Valid()
      ensures currentPage == if observing then PageAfter(old(currentPage), entries) else old(currentPage)
    {
      if !observing {
        return;
      }
      var i := 0;
      while i < |entries|
        invariant 0 <= i <= |entries|
        invariant currentPage == PageAfter(old(currentPage), entries[..i])
        invariant Valid()
      {
        assert entries[..i + 1][..i] == entries[..i];
        if entries[i].isIntersecting {
          currentPage := entries[i].index;
        }
        i := i + 1;
      }
      assert entries[..i] == entries;
    }
  }

  /**
   * Two slugs requested in turn, the first lookup resolving last: the page
   * shows the first lookup's program while the slug is the second.
   */
  method StaleCompletionWins(first: string, second: string,
                             o1: Api.Fetch<Option<Program>>, o2: Api.Fetch<Option<Program>>)
    returns (s: Screen)
    requires first != "" && second != ""
    ensures Api.GetProgramBySlug(first, o1).Some? ==> s == Ready(Api.GetProgramBySlug(first, o1).value)
    ensures Api.GetProgramBySlug(first, o1).None? ==> s == NotFound(second)
  {
    var view := new ProgramDetailView();
    var _ := view.Begin(Some(first));
    var _ := view.Begin(Some(second));
    view.Complete(second, o2);
    view.Complete(first, o1);
    s := view.View(Some(second));
  }

  /**
   * The route's `slug` prop "programa-culpa", with no URL parameter and the
   * content service down, renders Ready with "Redefinir la Culpa" at 250000.
   */
  method OfflineCulpa() returns (s: Screen)
    ensures s.Ready? && s.program.title == "Redefinir la Culpa" && s.program.price == 250000
  {
    var view := new ProgramDetailView();
    var slug := Or(Some("programa-culpa"), None);
    var requested := view.Begin(slug);
    Api.CulpaWhileOffline();
    view.Complete(slug.value, Api.NetworkError);
    s := view.View(slug);
  }

  /**
   * On a Ready page, section 3 intersecting makes it the current page; a
   * jump to page 1 leaves the page alone until section 1 reports.
   */
  method ScrollScenario(p: Program, innerHeight: int) returns (afterThree: int, afterJump: int, afterOne: int)
    ensures afterThree == 3 && afterJump == 3 && afterOne == 1
  {
    var view := new ProgramDetailView();
    var o := Api.Response(200, Api.Parsed(ApiResponse(true, Some(p), "")));
    var _ := view.Begin(Some("programa-angustia"));
    view.Complete("programa-angustia", o);
    view.SyncObserver();
    view.OnIntersect([Entry(3, true)]);
    afterThree := view.currentPage;
    var target := ScrollTop(1, innerHeight, true);
    ScrollTargetIsSectionTop(1, innerHeight);
    assert target == Some(innerHeight);
    afterJump := view.currentPage;
    view.OnIntersect([Entry(1, true)]);
    afterOne := view.currentPage;
  }
}
