/**
 * The HTTP front door: the verification-token check, the order of the guards of a POST
 * (challenge, token, retry header, event), and the path normalisation and routing of a GET.
 */
module App {
  import opened Wrappers
  import opened Text
  import Events

  const HTTP_200: nat := 200
  const HTTP_403: nat := 403
  const HTTP_500: nat := 500

  /** The placeholder the sample configuration ships with: 24 `x` characters. */
  const DEFAULT_TOKEN: string := "xxxxxxxxxxxxxxxxxxxxxxxx"
  const SERVER_ERROR: string := "Internal server error."
  const ACCESS_DENIED: string := "Access denied."
  const IT_WORKS: string := "It works! However, this app only accepts POST requests for now."

  /** `validateToken`'s two outcomes: `true`, or `{error, message}`. */
  datatype Validation = Accepted | Refused(error: nat, message: string)

  /** A server token that is blank or still the placeholder is a configuration error. */
  predicate BadServerToken(serverToken: string) {
    Trim(serverToken) == "" || serverToken == DEFAULT_TOKEN
  }

  /** `validateToken`: a misconfigured server token is refused with 500 whatever was
      supplied; otherwise a supplied token (or its absence) that differs is refused with
      403; only the exact server token is accepted. */
  function ValidateToken(suppliedToken: Option<string>, serverToken: string): (r: Validation)
    ensures BadServerToken(serverToken) ==> r == Refused(HTTP_500, SERVER_ERROR)
    ensures !BadServerToken(serverToken) && suppliedToken != Some(serverToken) ==> r == Refused(HTTP_403, ACCESS_DENIED)
    ensures r == Accepted <==> !BadServerToken(serverToken) && suppliedToken == Some(serverToken)
  {
    if Trim(serverToken) == "" || serverToken == DEFAULT_TOKEN then Refused(HTTP_500, SERVER_ERROR)
    else if suppliedToken != Some(serverToken) then Refused(HTTP_403, ACCESS_DENIED)
    else Accepted
  }

  /** A token is accepted only when the server's token has a non-white-space character
      and is not the placeholder, and the request carries exactly that token. */
  lemma AcceptedTokenIsSane(suppliedToken: Option<string>, serverToken: string)
    requires ValidateToken(suppliedToken, serverToken) == Accepted
    ensures exists i :: 0 <= i < |serverToken| && !IsWhitespace(serverToken[i])
    ensures serverToken != DEFAULT_TOKEN && suppliedToken == Some(serverToken)
  {
    TrimEmpty(serverToken);
  }

  /** A JavaScript value is truthy here when it is present and not the empty string. */
  predicate Truthy(v: Option<string>) {
    v.Some? && v.value != ""
  }

  /** The parts of a POST the handler looks at; `event` is absent when the body has none. */
  datatype PostRequest = PostRequest(challenge: Option<string>, token: Option<string>, retryNum: Option<string>,
                                     event: Option<Events.Event>)

  /** What happens next: nothing, the event goes to `handleEvent`, or `handleEvent` is
      given `undefined` (and throws reading its `type`). */
  datatype Action = NoAction | Dispatch(event: Events.Event) | DispatchMissing

  /** The response sent and what is done after it. */
  datatype PostOutcome = PostOutcome(status: nat, body: string, action: Action)

  /** `handlePost`. */
  function HandlePost(request: PostRequest, serverToken: string): (r: PostOutcome)
    ensures Truthy(request.challenge) ==> r == PostOutcome(HTTP_200, request.challenge.value, NoAction)
    ensures !Truthy(request.challenge) && ValidateToken(request.token, serverToken).Refused? ==>
              r == PostOutcome(ValidateToken(request.token, serverToken).error,
                               ValidateToken(request.token, serverToken).message, NoAction)
    ensures !Truthy(request.challenge) && ValidateToken(request.token, serverToken) == Accepted ==>
              r.status == HTTP_200 && r.body == ""
    ensures r.action != NoAction <==>
              !Truthy(request.challenge) && ValidateToken(request.token, serverToken) == Accepted
              && !Truthy(request.retryNum)
    ensures r.action.Dispatch? ==> request.event == Some(r.action.event)
    ensures r.action == DispatchMissing ==> request.event.None?
  {
    if Truthy(request.challenge) then PostOutcome(HTTP_200, request.challenge.value, NoAction)
    else
      var validation := ValidateToken(request.token, serverToken);
      if validation.Refused? then PostOutcome(validation.error, validation.message, NoAction)
      else if Truthy(request.retryNum) then PostOutcome(HTTP_200, "", NoAction)
      else match request.event
           case Some(e) => PostOutcome(HTTP_200, "", Dispatch(e))
           case None => PostOutcome(HTTP_200, "", DispatchMissing)
  }

  /** `path.replace(/\/$/, '')`: one trailing slash removed, if there is one. */
  function NormalisePath(path: string): (r: string)
    ensures |path| > 0 && path[|path| - 1] == '/' ==> r == path[..|path| - 1]
    ensures (|path| == 0 || path[|path| - 1] != '/') ==> r == path
  {
    if |path| > 0 && path[|path| - 1] == '/' then path[..|path| - 1] else path
  }

  /** Adding one slash to a path that has none does not change where it goes. */
  lemma TrailingSlashIgnored(path: string)
    requires |path| == 0 || path[|path| - 1] != '/'
    ensures NormalisePath(path + "/") == path
    ensures HandleGet(path + "/") == HandleGet(path)
  {
    assert (path + "/")[..|path|] == path;
  }

  /** Only one slash goes: two trailing slashes reach the default response. */
  lemma OnlyOneSlash()
    ensures RouteOf(NormalisePath("/leaderboard//")) == Default
  {
    assert NormalisePath("/leaderboard//") == "/leaderboard/";
  }

  /** The pages a GET can ask for. */
  datatype Page = Leaderboard | Channels | FromUsers | KarmaFeed | UserProfile | Default

  function RouteOf(path: string): (r: Page)
    ensures r == Default <==> path !in {"/leaderboard", "/channels", "/fromusers", "/karmafeed", "/userprofile"}
  {
    match path
    case "/leaderboard" => Leaderboard
    case "/channels" => Channels
    case "/fromusers" => FromUsers
    case "/karmafeed" => KarmaFeed
    case "/userprofile" => UserProfile
    case _ => Default
  }

  /** What `handleGet` does: the route the normalised path names; a path without one gets
      the plain `It works!` text. */
  datatype GetOutcome = Json(page: Page) | Plain(body: string)

  function HandleGet(path: string): (r: GetOutcome)
    ensures r == Plain(IT_WORKS) <==> RouteOf(NormalisePath(path)) == Default
    ensures r.Json? ==> r.page == RouteOf(NormalisePath(path)) && r.page != Default
    ensures forall p :: p in {"/leaderboard", "/channels", "/fromusers", "/karmafeed", "/userprofile"} ==>
              (path == p || path == p + "/" ==> r == Json(RouteOf(p)))
  {
    var route := RouteOf(NormalisePath(path));
    if route == Default then Plain(IT_WORKS) else Json(route)
  }
}
