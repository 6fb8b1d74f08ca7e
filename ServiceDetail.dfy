/**
 * The service detail page: a loading flag and an optional service, hydrated
 * by one asynchronous lookup per slug (split at its `await` into `Begin` and
 * `Complete`, as on the program page), rendered as Loading, NotFound or
 * Ready. The picture comes from the slug, not from the record, and the
 * booking button opens a WhatsApp link carrying the service's message.
 */
module ServiceDetail {
  import opened Types
  import opened Strings
  import Api
  import Fallback

  /** The two bundled service pictures. */
  datatype ServiceImage = PsychiatryImage | PsychologyImage

  /** The not-found screen names no slug. */
  datatype Screen = Loading | NotFound | Ready(service: Service, image: ServiceImage)

  /** The fixed part of every booking link; the encoded message follows it. */
  const BookingPrefix: string := "https://wa.me/56930179724?text="

  /** `resolveImage(slug)`: the psychiatry picture for "psiquiatria", the psychology picture for anything else. */
  function ResolveImage(slug: Option<string>): (r: ServiceImage)
    ensures r == PsychiatryImage <==> slug == Some("psiquiatria")
    ensures r == PsychologyImage <==> slug != Some("psiquiatria")
  {
    if slug == Some("psiquiatria") then PsychiatryImage
    else if slug == Some("psicologia") then PsychologyImage
    else PsychologyImage
  }

  /**
   * `handleBooking(message)`'s link: the fixed prefix followed by the encoded
   * message. `encode` stands for `encodeURIComponent`.
   */
  function BookingUrl(message: string, encode: string -> string): (r: string)
    ensures |r| == |BookingPrefix| + |encode(message)|
    ensures r[..|BookingPrefix|] == BookingPrefix
    ensures r[|BookingPrefix|..] == encode(message)
  {
    BookingPrefix + encode(message)
  }

  /** Two booking links are equal exactly when the encoded messages are. */
  lemma BookingUrlDeterminesMessage(m1: string, m2: string, encode: string -> string)
    ensures BookingUrl(m1, encode) == BookingUrl(m2, encode) <==> encode(m1) == encode(m2)
  {
    if BookingUrl(m1, encode) == BookingUrl(m2, encode) {
      assert BookingUrl(m1, encode)[|BookingPrefix|..] == BookingUrl(m2, encode)[|BookingPrefix|..];
    }
  }

  class ServiceDetailView {
    var loading: bool
    var service: Option<Service>

    /** The first render: loading, no service. */
    constructor ()
      ensures loading && service == None
    {
      loading, service := true, None;
    }

    /**
     * The part of the hydration effect that runs before the lookup: with no
     * slug, loading ends and no request is made; with one, loading starts.
     * The service is not reset.
     */
    method Begin(slug: Option<string>) returns (requested: bool)
      modifies this`loading
      ensures requested <==> Truthy(slug)
      ensures loading == requested
    {
      if !Truthy(slug) {
        loading := false;
        return false;
      }
      loading := true;
      return true;
    }

    /** The lookup for `slug` resolved with outcome `o`: its result becomes the service and loading ends. */
    method Complete(slug: string, o: Api.Fetch<Option<Service>>)
      modifies this`loading, this`service
      ensures service == Api.GetServiceBySlug(slug, o)
      ensures !loading
    {
      service := Api.GetServiceBySlug(slug, o);
      loading := false;
    }

    /** What the page renders for the current `slug`. */
    function View(slug: Option<string>): (s: Screen)
      reads this
      ensures s.Loading? <==> loading
      ensures s.NotFound? <==> !loading && service.None?
      ensures s.Ready? ==> service == Some(s.service) && s.image == ResolveImage(slug)
    {
      if loading then Loading
      else if service.None? then NotFound
      else Ready(service.value, ResolveImage(slug))
    }
  }

  /**
   * A URL parameter "no-existe", with no `slug` prop, answered with a 404
   * renders NotFound, even on a page that had shown a service.
   */
  method MissingServiceScenario(earlier: Api.Fetch<Option<Service>>, body: Api.Body<Option<Service>>)
    returns (s: Screen)
    ensures s == NotFound
  {
    var view := new ServiceDetailView();
    var _ := view.Begin(Some("psiquiatria"));
    view.Complete("psiquiatria", earlier);
    var slug := Or(None, Some("no-existe"));
    var _ := view.Begin(slug);
    view.Complete(slug.value, Api.Response(404, body));
    s := view.View(slug);
  }

  /** Each compiled-in service, reached with the content service down, shows the picture its slug selects. */
  method OfflineService(i: nat) returns (s: Screen)
    requires i < |Fallback.FallbackServices|
    ensures s.Ready? && s.service == Fallback.FallbackServices[i]
    ensures s.image == (if i == 0 then PsychiatryImage else PsychologyImage)
  {
    var slug := Fallback.FallbackServices[i].slug;
    var view := new ServiceDetailView();
    Fallback.Slugs();
    var _ := view.Begin(Some(slug));
    Api.ServiceDegradesToFallback(i, Api.NetworkError);
    view.Complete(slug, Api.NetworkError);
    s := view.View(Some(slug));
  }
}
