/**
  The part of the route table that consults the subdomain constraint. The
  catch-all redirect to the canonical site is only declared outside the test
  environment; it holds GET routes only, and the redirects of retired pages
  are declared before it, so they answer their own paths first. For the
  requests that reach it, it fires when the constraint matches.
 */
module Routes {
  import opened NonValidSubdomainConstraint

  /** The retired pages, each redirected to `/` before the constraint is consulted. */
  const InexistentPages: seq<string> := [
    "/projects/free",
    "/projects/7-kc-streetcar-starter-line/video_embed",
    "/projects/7-kc-streetcar-starter-line/embed",
    "/projects/12-academie-lafayette-cherry-street-playground/video_embed",
    "/projects/12-cherry-street-playground/embed",
    "/projects/16-better-block-kc-making-grand-grand/embed",
    "/projects/20-powell-street-skate-spot/video_embed",
    "/projects/29-rockledge-dog-park/embed",
    "/projects/29-rockledge-dog-park/video_embed",
    "/projects/44-wish-upon-a-fountain/embed",
    "/projects/50-better-block-kc-2013/embed",
    "/projects/57/video_embed",
    "/projects/6-sustain-kansas-city-b-cycle/video_embed",
    "/projects/rivermarket-dogpark/video_embed"]

  /**
    Whether a request is sent to the canonical site by the catch-all redirect:
    a GET request, outside the test environment, whose path no retired-page
    redirect claims, on a subdomain the constraint matches.
   */
  function RedirectsToCanonicalSite(
    testEnvironment: bool, isGet: bool, path: string, channels: seq<Channel>, subdomain: string): (redirect: bool)
    ensures testEnvironment || !isGet || path in InexistentPages ==> !redirect
    ensures !testEnvironment && isGet && path !in InexistentPages ==>
      (redirect <==> subdomain != Donate && forall c :: c in channels ==> c.permalink != subdomain)
  {
    !testEnvironment && isGet && path !in InexistentPages && Matches(channels, subdomain)
  }
}
