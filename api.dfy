/**
 * The `post '/events'` endpoint of the `API` class: check the verification
 * token, answer the URL verification handshake, and route event callbacks
 * to their handler. The request body arrives already parsed as an
 * `Envelope`.
 */
module Api {
  import opened Wrappers
  import opened Tutorial
  import opened Events

  /** The fields of the request body the endpoint reads. `challenge` is
      only present on a URL verification, `teamId` and `event` on a callback. */
  datatype Envelope = Envelope(
    token: Option<string>,
    kind: string,
    challenge: Option<string>,
    teamId: string,
    event: Event)

  /** What the endpoint answers: 403 with a plain-text body, 200 with the
      challenge as body, 200 with an empty body, or 500 when a handler raised. */
  datatype Response = Forbidden(body: string) | Challenge(body: string) | Ack | ServerError

  datatype Reply = Reply(response: Response, world: World)

  const UrlVerification: string := "url_verification"
  const EventCallback: string := "event_callback"
  const ForbiddenPrefix: string := "Invalid Slack verification token received: "

  /** The 403 body, which quotes the token received (`nil` interpolates as ""). */
  function ForbiddenBody(token: Option<string>): (body: string)
    ensures |ForbiddenPrefix| <= |body| && body[..|ForbiddenPrefix|] == ForbiddenPrefix
    ensures token.Some? ==> body[|ForbiddenPrefix|..] == token.value
    ensures token.None? ==> body == ForbiddenPrefix
  {
    ForbiddenPrefix + token.GetOr("")
  }

  predicate TokenValid(secret: string, env: Envelope)
  {
    env.token == Some(secret)
  }

  /** The install flow has run for the team of every callback whose handler
      reads the team's entry. */
  predicate Installed(secret: string, w: World, env: Envelope)
  {
    TokenValid(secret, env) && env.kind == EventCallback && ReadsTeam(env.event) ==> env.teamId in w.teams
  }

  /** One request to `/events`, from the state before it to the answer and
      the state after it. Only an authenticated callback can change the store
      or send a message; a request sends at most one and never rewrites
      earlier ones, and keeps every tutorial at the template's three steps. */
  function PostEvents(secret: string, template: seq<Step>, w: World, env: Envelope): (r: Reply)
    requires WellFormed(w.teams) && Installed(secret, w, env)
    ensures r.world != w ==> TokenValid(secret, env) && env.kind == EventCallback
    ensures w.outbox <= r.world.outbox && |r.world.outbox| <= |w.outbox| + 1
    ensures |template| == StepCount ==> WellFormed(r.world.teams)
  {
    if !TokenValid(secret, env) then Reply(Forbidden(ForbiddenBody(env.token)), w)
    else if env.kind == UrlVerification then
      match env.challenge
      case Some(c) => Reply(Challenge(c), w)
      case None => Reply(Ack, w)
    else if env.kind == EventCallback then
      match Dispatch(w, template, env.teamId, env.event)
      case Handled(next) => Reply(Ack, next)
      case Raised => Reply(ServerError, w)
    else Reply(Ack, w)
  }

  // ---------------------------------------------------------------------
  // Properties
  // ---------------------------------------------------------------------

  /** A wrong or missing token is refused with 403 whatever the body holds:
      no handler runs, the store is untouched and nothing is sent. */
  lemma WrongTokenRefused(secret: string, template: seq<Step>, w: World, env: Envelope)
    requires WellFormed(w.teams)
    requires env.token != Some(secret)
    ensures PostEvents(secret, template, w, env) == Reply(Forbidden(ForbiddenBody(env.token)), w)
  {
  }

  /** Only a wrong or missing token yields 403. */
  lemma ForbiddenOnlyForWrongToken(secret: string, template: seq<Step>, w: World, env: Envelope)
    requires WellFormed(w.teams) && Installed(secret, w, env)
    ensures PostEvents(secret, template, w, env).response.Forbidden? <==> !TokenValid(secret, env)
  {
  }

  /** The handshake echoes the challenge unchanged and has no effect. */
  lemma ChallengeEchoed(secret: string, template: seq<Step>, w: World, env: Envelope)
    requires WellFormed(w.teams)
    requires TokenValid(secret, env) && env.kind == UrlVerification && env.challenge.Some?
    ensures PostEvents(secret, template, w, env) == Reply(Challenge(env.challenge.value), w)
  {
  }

  /** Every callback is acknowledged with 200 whichever handler ran, except
      when the message handler raised, which leaves the state untouched. */
  lemma CallbackAcknowledged(secret: string, template: seq<Step>, w: World, env: Envelope)
    requires WellFormed(w.teams) && Installed(secret, w, env)
    requires TokenValid(secret, env) && env.kind == EventCallback
    ensures var r := PostEvents(secret, template, w, env);
      && (r.response == Ack || r.response == ServerError)
      && (r.response == ServerError <==> env.event.MessageEvent? && Message(w, env.teamId, env.event).Raised?)
      && (r.response == ServerError ==> r.world == w)
      && (env.event.OtherEvent? ==> r == Reply(Ack, w))
  {
  }

  /** A user joins team A and then reacts to the welcome message in channel
      C1: the join posts the welcome message with every step as in the
      template, and the reaction completes the first step only and updates
      that message at the reaction item's timestamp. */
  lemma JoinThenReact(template: seq<Step>)
    requires |template| == StepCount
    ensures var w0 := World(map["A" := Team("B", map[])], []);
      var joined := PostEvents("T", template, w0,
        Envelope(Some("T"), EventCallback, None, "A", TeamJoinEvent("U1")));
      var reacted := PostEvents("T", template, joined.world,
        Envelope(Some("T"), EventCallback, None, "A", ReactionAddedEvent("U1", "C1", Some("123.45"))));
      && joined.response == Ack
      && Content(joined.world.teams, "A", "U1") == template
      && joined.world.outbox == [Create("A", "U1", WelcomeText, template)]
      && reacted.response == Ack
      && HasUser(reacted.world.teams, "A", "U1")
      && Content(reacted.world.teams, "A", "U1") == [Complete(template[0]), template[1], template[2]]
      && reacted.world.outbox == joined.world.outbox
           + [Update("A", "C1", "123.45", WelcomeText, Content(reacted.world.teams, "A", "U1"))]
  {
  }
}
