/**
 * The running bot: the process-wide team map (`$teams`) and the calls made
 * through the teams' web API clients, updated in place by one method per
 * operation of `SlackTutorial`, `API` and `Events`. Each method is proved
 * to have the effect the functions of `Events` and `Api` describe.
 */
module Server {
  import opened Wrappers
  import opened Tutorial
  import opened Events
  import opened Api

  class Bot {
    /** The configured verification token. */
    const secret: string
    /** The tutorial template every user gets a copy of. */
    const template: seq<Step>
    /** The store, by team id. */
    var teams: map<string, Team>
    /** Every message posted or updated so far, oldest first. */
    var outbox: seq<Outbound>

    ghost predicate Valid()
      reads this
    {
      |template| == StepCount && WellFormed(teams)
    }

    function State(): (s: World)
      reads this
    {
      World(teams, outbox)
    }

    /** A bot for the teams the install flow has set up, each mapped to the
        id of its bot user; no user has a tutorial yet. */
    constructor (secret: string, template: seq<Step>, bots: map<string, string>)
      requires |template| == StepCount
      ensures Valid() && this.secret == secret && this.template == template
      ensures teams == (map t | t in bots :: Team(bots[t], map[])) && outbox == []
    {
      this.secret := secret;
      this.template := template;
      teams := map t | t in bots :: Team(bots[t], map[]);
      outbox := [];
    }

    /** `SlackTutorial.update_item`: tick the first pending icon of step `i`
        and give the step the completed colour. */
    method UpdateItem(t: string, u: string, i: nat)
      requires Valid() && HasUser(teams, t, u) && i < StepCount
      modifies this
      ensures Valid()
      ensures teams == Events.UpdateItem(old(teams), t, u, i) && outbox == old(outbox)
    {
      var team := teams[t];
      var content := team.users[u];
      var item := content[i];
      item := Step(Sub(item.text, PendingMarker, DoneMarker), DoneColor);
      content := content[i := item];
      teams := teams[t := team.(users := team.users[u := content])];
    }

    /** `Events.send_response`: update the message at `ts`, or post a new one. */
    method SendResponse(t: string, u: string, channel: string, ts: Option<string>)
      requires HasUser(teams, t, u)
      modifies this
      ensures teams == old(teams)
      ensures outbox == old(outbox) + [Events.SendResponse(teams, t, u, channel, ts)]
    {
      var content := teams[t].users[u];
      if ts.Some? {
        outbox := outbox + [Update(t, channel, ts.value, WelcomeText, content)];
      } else {
        outbox := outbox + [Create(t, channel, WelcomeText, content)];
      }
    }

    /** `Events.user_join`. */
    method UserJoin(t: string, e: Event)
      requires Valid() && e.TeamJoinEvent? && t in teams
      modifies this
      ensures Valid() && State() == Events.UserJoin(old(State()), template, t, e)
    {
      var u := e.userId;
      var team := teams[t];
      teams := teams[t := team.(users := team.users[u := template])];
      SendResponse(t, u, u, None);
    }

    /** `Events.reaction_added`. */
    method ReactionAdded(t: string, e: Event)
      requires Valid() && e.ReactionAddedEvent? && t in teams
      modifies this
      ensures Valid() && State() == Events.ReactionAdded(old(State()), t, e)
    {
      if e.user in teams[t].users {
        UpdateItem(t, e.user, Index(Reaction));
        SendResponse(t, e.user, e.channel, e.ts);
      }
    }

    /** `Events.pin_added`. */
    method PinAdded(t: string, e: Event)
      requires Valid() && e.PinAddedEvent? && t in teams
      modifies this
      ensures Valid() && State() == Events.PinAdded(old(State()), t, e)
    {
      if e.user in teams[t].users {
        UpdateItem(t, e.user, Index(Pin));
        SendResponse(t, e.user, e.channel, e.ts);
      }
    }

    /** `Events.message`; `raised` reports the `NoMethodError` of an empty
        attachment list or of a share from an unknown user. */
    method Message(t: string, e: Event) returns (raised: bool)
      requires Valid() && e.MessageEvent? && t in teams
      modifies this
      ensures Valid()
      ensures raised == Events.Message(old(State()), t, e).Raised?
      ensures !raised ==> State() == Events.Message(old(State()), t, e).world
      ensures raised ==> State() == old(State())
    {
      raised := false;
      if e.user != teams[t].botUserId && e.attachments.Some? {
        var atts := e.attachments.value;
        if |atts| == 0 {
          raised := true;
        } else if atts[0].isShare {
          if e.user !in teams[t].users {
            raised := true;
          } else {
            UpdateItem(t, e.user, Index(Share));
            SendResponse(t, e.user, e.channel, atts[0].ts);
          }
        }
      }
    }

    /** `post '/events'`. */
    method PostEvents(env: Envelope) returns (response: Response)
      requires Valid() && Installed(secret, State(), env)
      modifies this
      ensures Valid()
      ensures Reply(response, State()) == Api.PostEvents(secret, template, old(State()), env)
    {
      if env.token != Some(secret) {
        return Forbidden(ForbiddenBody(env.token));
      }
      if env.kind == UrlVerification {
        response := if env.challenge.Some? then Challenge(env.challenge.value) else Ack;
      } else if env.kind == EventCallback {
        var t := env.teamId;
        var e := env.event;
        response := Ack;
        match e
        case TeamJoinEvent(_) => UserJoin(t, e);
        case ReactionAddedEvent(_, _, _) => ReactionAdded(t, e);
        case PinAddedEvent(_, _, _) => PinAdded(t, e);
        case MessageEvent(_, _, _) =>
          var raised := Message(t, e);
          if raised {
            response := ServerError;
          }
        case OtherEvent(_) =>
      } else {
        response := Ack;
      }
    }
  }
}
