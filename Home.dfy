/**
 * The home page: a three-slide hero carousel advanced by a timer or by its
 * indicators, and the program cards filled from one list lookup. The timer
 * and the asynchronous lookup are outside the model; `Tick` is one timer
 * firing and `ProgramsLoaded` is the lookup resolving.
 */
module Home {
  import opened Types
  import opened Strings
  import Api
  import Fallback
  import Routes

  /** The carousel has three slides. */
  const SlideCount: int := 3

  /** The three bundled program pictures. */
  datatype ProgramImage = AngustiaImage | CulpaImage | IrritabilidadImage

  /** One program card: the program, its picture, its corner badge, its column order and its link. */
  datatype Card = Card(program: Program, image: ProgramImage, badge: string, imageOnRight: bool, link: string)

  /**
   * `resolveProgramImage(slug)`: the first of "angustia", "culpa",
   * "irritabilidad" found in the slug picks the picture; none of them picks
   * the angustia picture.
   */
  function ResolveProgramImage(slug: string): (r: ProgramImage)
    ensures r == CulpaImage <==> !Contains(slug, "angustia") && Contains(slug, "culpa")
    ensures r == IrritabilidadImage <==>
              !Contains(slug, "angustia") && !Contains(slug, "culpa") && Contains(slug, "irritabilidad")
    ensures r == AngustiaImage <==>
              Contains(slug, "angustia") || (!Contains(slug, "culpa") && !Contains(slug, "irritabilidad"))
  {
    if Contains(slug, "angustia") then AngustiaImage
    else if Contains(slug, "culpa") then CulpaImage
    else if Contains(slug, "irritabilidad") then IrritabilidadImage
    else AngustiaImage
  }

  /** The card at position `index`; odd positions put the picture in the right-hand column. */
  function CardAt(p: Program, index: nat): (c: Card)
    ensures c.program == p && c.image == ResolveProgramImage(p.slug)
    ensures c.badge == "SOLO 5 CUPOS" <==> index == 2
    ensures index != 2 ==> c.badge == "PREMIUM"
    ensures c.imageOnRight <==> index % 2 == 1
    ensures c.link == "/" + p.slug
  {
    Card(p, ResolveProgramImage(p.slug),
         if index == 2 then "SOLO 5 CUPOS" else "PREMIUM",
         index % 2 == 1,
         "/" + p.slug)
  }

  class HomeView {
    var currentSlide: int
    var programs: seq<Program>
    var loadingPrograms: bool

    ghost predicate Valid()
      reads this
    {
      0 <= currentSlide < SlideCount
    }

    /** The first render: slide 0, no programs, still loading them. */
    constructor ()
      ensures Valid()
      ensures currentSlide == 0 && programs == [] && loadingPrograms
    {
      currentSlide, programs, loadingPrograms := 0, [], true;
    }

    /** One firing of the slide timer: the next slide, wrapping after the last. */
    method Tick()
      requires Valid()
      modifies this`currentSlide
      ensures Valid()
      ensures currentSlide == (old(currentSlide) + 1) % SlideCount
    {
      currentSlide := (currentSlide + 1) % SlideCount;
    }

    /** A click on the indicator of slide `index`. */
    method SelectSlide(index: int)
      requires Valid()
      requires 0 <= index < SlideCount
      modifies this`currentSlide
      ensures Valid()
      ensures currentSlide == index
    {
      currentSlide := index;
    }

    /** The program list lookup resolved with outcome `o`: its list replaces the programs and loading ends. */
    method ProgramsLoaded(o: Api.Fetch<seq<Program>>)
      modifies this`programs, this`loadingPrograms
      ensures programs == Api.GetPrograms(o)
      ensures !loadingPrograms
    {
      programs := Api.GetPrograms(o);
      loadingPrograms := false;
    }

    /** Which of the slides, in order, is drawn opaque: the current one and no other. */
    function VisibleSlides(): (vs: seq<bool>)
      reads this
      ensures |vs| == SlideCount
      ensures forall i :: 0 <= i < SlideCount ==> (vs[i] <==> i == currentSlide)
    {
      seq(SlideCount, i reads this => i == currentSlide)
    }

    /** The program cards: none while loading, then one per program, in order. */
    function Cards(): (cs: seq<Card>)
      reads this
      ensures loadingPrograms ==> cs == []
      ensures !loadingPrograms ==> (|cs| == |programs| &&
                forall i :: 0 <= i < |cs| ==> cs[i] == CardAt(programs[i], i))
    {
      if loadingPrograms then []
      else seq(|programs|, i requires 0 <= i < |programs| reads this => CardAt(programs[i], i))
    }
  }

  /** The picture each compiled-in program's slug selects, in table order. */
  function FallbackImage(i: nat): ProgramImage
  {
    if i == 0 then AngustiaImage else if i == 1 then CulpaImage else IrritabilidadImage
  }

  /** A slug naming "angustia" selects the angustia picture. */
  lemma AngustiaSlugImage(slug: string)
    requires slug == "programa-angustia"
    ensures ResolveProgramImage(slug) == AngustiaImage
  {
    assert slug == "programa-" + "angustia";
    SuffixContained("programa-", "angustia");
  }

  /** A slug naming "culpa" and not "angustia" selects the culpa picture. */
  lemma CulpaSlugImage(slug: string)
    requires slug == "programa-culpa"
    ensures ResolveProgramImage(slug) == CulpaImage
  {
    AbsentCharRulesOut(slug, "angustia", 'n');
    assert slug == "programa-" + "culpa";
    SuffixContained("programa-", "culpa");
  }

  /** A slug with no 'n' and no 'c' that contains "irritabilidad" selects the irritabilidad picture. */
  lemma OnlyIrritabilidad(slug: string)
    requires 'n' !in slug && 'c' !in slug && Contains(slug, "irritabilidad")
    ensures ResolveProgramImage(slug) == IrritabilidadImage
  {
    AbsentCharRulesOut(slug, "angustia", 'n');
    AbsentCharRulesOut(slug, "culpa", 'c');
  }

  /** "programa-irritabilidad" selects the irritabilidad picture. */
  lemma IrritabilidadSlugImage(slug: string)
    requires slug == "programa-irritabilidad"
    ensures ResolveProgramImage(slug) == IrritabilidadImage
  {
    assert 'n' !in slug && 'c' !in slug;
    assert slug == "programa-" + "irritabilidad";
    SuffixContained("programa-", "irritabilidad");
    OnlyIrritabilidad(slug);
  }

  /** Each compiled-in program's slug selects its own picture. */
  lemma FallbackProgramImage(i: nat)
    requires i < |Fallback.FallbackPrograms|
    ensures ResolveProgramImage(Fallback.FallbackPrograms[i].slug) == FallbackImage(i)
  {
    Fallback.Slugs();
    var slug := Fallback.FallbackPrograms[i].slug;
    if i == 0 {
      AngustiaSlugImage(slug);
    } else if i == 1 {
      CulpaSlugImage(slug);
    } else {
      IrritabilidadSlugImage(slug);
    }
  }

  /**
   * With the content service down, the home page shows the three
   * compiled-in programs with their own pictures, the third marked
   * "SOLO 5 CUPOS", each linking to the route that opens it.
   */
  method OfflineCards() returns (cards: seq<Card>)
    ensures |cards| == 3
    ensures cards[0].image == AngustiaImage && cards[1].image == CulpaImage && cards[2].image == IrritabilidadImage
    ensures cards[0].badge == "PREMIUM" && cards[1].badge == "PREMIUM" && cards[2].badge == "SOLO 5 CUPOS"
    ensures forall i :: 0 <= i < 3 ==>
              Routes.Match(cards[i].link) == Some(Routes.Route(cards[i].link, Routes.ProgramDetailPage(cards[i].program.slug), false))
  {
    var home := new HomeView();
    home.ProgramsLoaded(Api.NetworkError);
    cards := home.Cards();
    Fallback.Slugs();
    forall i | 0 <= i < 3
      ensures cards[i].image == FallbackImage(i)
      ensures Routes.Match(cards[i].link) ==
              Some(Routes.Route(cards[i].link, Routes.ProgramDetailPage(cards[i].program.slug), false))
    {
      FallbackProgramImage(i);
      Routes.ProgramPathOpensProgram(i);
    }
  }
}
