/**
 * The team/user state store and the four event handlers of the `Events`
 * class, as functions from the state before an event to the state after
 * it. The outbound web API client is modelled as a log of the calls made
 * through it: `Create` for `chat.postMessage`, `Update` for `chat.update`.
 */
module Events {
  import opened Wrappers
  import opened Tutorial

  /** A team's entry in the store: the bot's own user id (written by the
      install flow) and every known user's tutorial content. */
  datatype Team = Team(botUserId: string, users: map<string, seq<Step>>)

  /** One call through a team's client; both are sent as the bot user. */
  datatype Outbound =
    | Create(team: string, channel: string, text: string, attachments: seq<Step>)
    | Update(team: string, channel: string, ts: string, text: string, attachments: seq<Step>)

  /** All state the handlers read or write: the store and the calls made so far. */
  datatype World = World(teams: map<string, Team>, outbox: seq<Outbound>)

  /** The part of a message attachment the share detection reads. */
  datatype Attachment = Attachment(isShare: bool, ts: Option<string>)

  /** The inner event of an `event_callback`, with the fields each handler
      reads: `user.id` for a join; `user`, `item.channel` and `item.ts`
      (a reaction) or `item.message.ts` (a pin); `user`, `channel` and
      `attachments` for a message. */
  datatype Event =
    | TeamJoinEvent(userId: string)
    | ReactionAddedEvent(user: string, channel: string, ts: Option<string>)
    | PinAddedEvent(user: string, channel: string, ts: Option<string>)
    | MessageEvent(user: string, channel: string, attachments: Option<seq<Attachment>>)
    | OtherEvent(kind: string)

  /** The result of a handler: the new state, or the `NoMethodError` Ruby
      raises when it indexes `nil`, which happens before anything is written. */
  datatype Outcome = Handled(world: World) | Raised

  /** Every tutorial in the store has the template's three steps. */
  ghost predicate WellFormed(teams: map<string, Team>)
  {
    forall t, u :: t in teams && u in teams[t].users ==> |teams[t].users[u]| == StepCount
  }

  predicate HasUser(teams: map<string, Team>, t: string, u: string)
  {
    t in teams && u in teams[t].users
  }

  /** The tutorial content of a known user. */
  function Content(teams: map<string, Team>, t: string, u: string): (c: seq<Step>)
    requires HasUser(teams, t, u)
  {
    teams[t].users[u]
  }

  /** A step counts as completed once it carries the completed colour. */
  predicate IsDone(step: Step)
  {
    step.color == DoneColor
  }

  // ---------------------------------------------------------------------
  // SlackTutorial.update_item and Events.send_response
  // ---------------------------------------------------------------------

  /** `update_item(t, u, i)`: complete step `i` of user `u` in team `t`,
      and nothing else. */
  function UpdateItem(teams: map<string, Team>, t: string, u: string, i: nat): (r: map<string, Team>)
    requires HasUser(teams, t, u) && i < |Content(teams, t, u)|
    ensures r.Keys == teams.Keys
    ensures forall t' :: t' in teams && t' != t ==> r[t'] == teams[t']
    ensures r[t].botUserId == teams[t].botUserId
    ensures r[t].users.Keys == teams[t].users.Keys
    ensures forall u' :: u' in teams[t].users && u' != u ==> r[t].users[u'] == teams[t].users[u']
    ensures |r[t].users[u]| == |teams[t].users[u]|
    ensures r[t].users[u][i] == Complete(teams[t].users[u][i])
    ensures forall j :: 0 <= j < |teams[t].users[u]| && j != i ==> r[t].users[u][j] == teams[t].users[u][j]
  {
    var team := teams[t];
    var content := team.users[u];
    teams[t := team.(users := team.users[u := content[i := Complete(content[i])]])]
  }

  /** `send_response(t, u, channel, ts)`: update the message at `ts` when
      there is one, otherwise post a new one; both carry the welcome text
      and the user's current content. */
  function SendResponse(teams: map<string, Team>, t: string, u: string, channel: string, ts: Option<string>): (o: Outbound)
    requires HasUser(teams, t, u)
    ensures o.Update? <==> ts.Some?
    ensures o.Update? ==> o.ts == ts.value
    ensures o.team == t && o.channel == channel
    ensures o.text == WelcomeText && o.attachments == Content(teams, t, u)
  {
    match ts
    case Some(stamp) => Update(t, channel, stamp, WelcomeText, Content(teams, t, u))
    case None => Create(t, channel, WelcomeText, Content(teams, t, u))
  }

  /** Complete step `name` of a known user and send the new content. */
  function CompleteAndSend(w: World, t: string, u: string, name: StepName, channel: string, ts: Option<string>): (r: World)
    requires WellFormed(w.teams) && HasUser(w.teams, t, u)
    ensures r.teams.Keys == w.teams.Keys && WellFormed(r.teams)
    ensures w.outbox <= r.outbox && |r.outbox| == |w.outbox| + 1
  {
    var teams := UpdateItem(w.teams, t, u, Index(name));
    World(teams, w.outbox + [SendResponse(teams, t, u, channel, ts)])
  }

  // ---------------------------------------------------------------------
  // The handlers
  // ---------------------------------------------------------------------

  /** `user_join`: give the user a fresh copy of the template, discarding
      any progress, and post the welcome message to their channel. */
  function UserJoin(w: World, template: seq<Step>, t: string, e: Event): (r: World)
    requires e.TeamJoinEvent? && t in w.teams
    ensures r.teams.Keys == w.teams.Keys
    ensures HasUser(r.teams, t, e.userId) && Content(r.teams, t, e.userId) == template
    ensures w.outbox <= r.outbox && |r.outbox| == |w.outbox| + 1
    ensures WellFormed(w.teams) && |template| == StepCount ==> WellFormed(r.teams)
  {
    var team := w.teams[t];
    var teams := w.teams[t := team.(users := team.users[e.userId := template])];
    World(teams, w.outbox + [SendResponse(teams, t, e.userId, e.userId, None)])
  }

  /** `reaction_added`: for a known user, complete the reaction step and
      update the message the reaction was left on. */
  function ReactionAdded(w: World, t: string, e: Event): (r: World)
    requires e.ReactionAddedEvent? && t in w.teams && WellFormed(w.teams)
    ensures r.teams.Keys == w.teams.Keys && WellFormed(r.teams)
    ensures r == w <==> !HasUser(w.teams, t, e.user)
    ensures w.outbox <= r.outbox && |r.outbox| <= |w.outbox| + 1
  {
    if HasUser(w.teams, t, e.user) then CompleteAndSend(w, t, e.user, Reaction, e.channel, e.ts)
    else w
  }

  /** `pin_added`: for a known user, complete the pin step and update the
      pinned message, whose own timestamp the event carries. */
  function PinAdded(w: World, t: string, e: Event): (r: World)
    requires e.PinAddedEvent? && t in w.teams && WellFormed(w.teams)
    ensures r.teams.Keys == w.teams.Keys && WellFormed(r.teams)
    ensures r == w <==> !HasUser(w.teams, t, e.user)
    ensures w.outbox <= r.outbox && |r.outbox| <= |w.outbox| + 1
  {
    if HasUser(w.teams, t, e.user) then CompleteAndSend(w, t, e.user, Pin, e.channel, e.ts)
    else w
  }

  /** `message`: ignore the bot's own messages; otherwise a message whose
      first attachment is a share completes the share step. The source has
      no known-user check here, and reads `first` of an empty list as `nil`:
      both become `Raised`. */
  function Message(w: World, t: string, e: Event): (o: Outcome)
    requires e.MessageEvent? && t in w.teams && WellFormed(w.teams)
    ensures e.user == w.teams[t].botUserId ==> o == Handled(w)
    ensures o.Handled? ==> o.world.teams.Keys == w.teams.Keys && WellFormed(o.world.teams)
    ensures o.Handled? ==> w.outbox <= o.world.outbox && |o.world.outbox| <= |w.outbox| + 1
  {
    if e.user == w.teams[t].botUserId then Handled(w)
    else
      match e.attachments
      case None => Handled(w)
      case Some(atts) =>
        if |atts| == 0 then Raised
        else if !atts[0].isShare then Handled(w)
        else if !HasUser(w.teams, t, e.user) then Raised
        else Handled(CompleteAndSend(w, t, e.user, Share, e.channel, atts[0].ts))
  }

  /** The events whose handler reads the team's entry. */
  predicate ReadsTeam(e: Event)
  {
    !e.OtherEvent?
  }

  /** The inner `case` of the router: run the handler for the event's type;
      any other type changes nothing. A handler sends at most one message and
      never rewrites earlier ones, keeps every tutorial at the template's
      length, and only the message handler can raise. */
  function Dispatch(w: World, template: seq<Step>, t: string, e: Event): (o: Outcome)
    requires WellFormed(w.teams)
    requires ReadsTeam(e) ==> t in w.teams
    ensures o.Handled? ==> w.outbox <= o.world.outbox && |o.world.outbox| <= |w.outbox| + 1
    ensures o.Handled? && |template| == StepCount ==> WellFormed(o.world.teams)
    ensures o.Raised? ==> e.MessageEvent?
    ensures e.OtherEvent? ==> o == Handled(w)
  {
    match e
    case TeamJoinEvent(_) => Handled(UserJoin(w, template, t, e))
    case ReactionAddedEvent(_, _, _) => Handled(ReactionAdded(w, t, e))
    case PinAddedEvent(_, _, _) => Handled(PinAdded(w, t, e))
    case MessageEvent(_, _, _) => Message(w, t, e)
    case OtherEvent(_) => Handled(w)
  }

  // ---------------------------------------------------------------------
  // Properties
  // ---------------------------------------------------------------------

  /** Completing a step twice is completing it once, when its text shows the
      pending icon at most once: `sub!` then finds nothing to replace and the
      colour is already the completed one. */
  lemma UpdateItemIdempotent(teams: map<string, Team>, t: string, u: string, i: nat)
    requires HasUser(teams, t, u) && i < |Content(teams, t, u)|
    requires AtMostOnce(Content(teams, t, u)[i].text, PendingMarker)
    ensures UpdateItem(UpdateItem(teams, t, u, i), t, u, i) == UpdateItem(teams, t, u, i)
  {
    var once := UpdateItem(teams, t, u, i);
    var c := Content(once, t, u);
    CompleteIdempotent(Content(teams, t, u)[i]);
    assert c[i := Complete(c[i])] == c;
    assert once[t].users[u := c] == once[t].users;
    assert once[t].(users := once[t].users) == once[t];
  }

  lemma UpdateItemKeepsWellFormed(teams: map<string, Team>, t: string, u: string, i: nat)
    requires WellFormed(teams) && HasUser(teams, t, u) && i < |Content(teams, t, u)|
    ensures WellFormed(UpdateItem(teams, t, u, i))
  {
  }

  /** `user_join` discards prior progress: the user's content is the template,
      everyone else is untouched, and exactly one new message is posted to the
      user's own channel. */
  lemma UserJoinResets(w: World, template: seq<Step>, t: string, e: Event)
    requires e.TeamJoinEvent? && t in w.teams
    ensures var r := UserJoin(w, template, t, e);
      && r.teams.Keys == w.teams.Keys
      && (forall t' :: t' in w.teams && t' != t ==> r.teams[t'] == w.teams[t'])
      && r.teams[t].botUserId == w.teams[t].botUserId
      && r.teams[t].users.Keys == w.teams[t].users.Keys + {e.userId}
      && (forall u' :: u' in w.teams[t].users && u' != e.userId ==> r.teams[t].users[u'] == w.teams[t].users[u'])
      && Content(r.teams, t, e.userId) == template
      && r.outbox == w.outbox + [Create(t, e.userId, WelcomeText, template)]
  {
  }

  /** Reactions and pins from users the store does not know change nothing. */
  lemma UnknownUserIgnored(w: World, t: string, e: Event)
    requires (e.ReactionAddedEvent? || e.PinAddedEvent?) && t in w.teams && WellFormed(w.teams)
    requires !HasUser(w.teams, t, e.user)
    ensures e.ReactionAddedEvent? ==> ReactionAdded(w, t, e) == w
    ensures e.PinAddedEvent? ==> PinAdded(w, t, e) == w
  {
  }

  /** A reaction or pin from a known user completes its step (0 for the
      reaction, 1 for the pin) and sends exactly one message: an update at
      the event's timestamp, or a new post when it carries none. */
  lemma KnownUserStepCompleted(w: World, t: string, e: Event)
    requires (e.ReactionAddedEvent? || e.PinAddedEvent?) && WellFormed(w.teams)
    requires HasUser(w.teams, t, e.user)
    ensures var i := if e.ReactionAddedEvent? then 0 else 1;
      var r := if e.ReactionAddedEvent? then ReactionAdded(w, t, e) else PinAdded(w, t, e);
      && r.teams == UpdateItem(w.teams, t, e.user, i)
      && r.outbox == w.outbox + [match e.ts
                                 case Some(ts) => Update(t, e.channel, ts, WelcomeText, Content(r.teams, t, e.user))
                                 case None => Create(t, e.channel, WelcomeText, Content(r.teams, t, e.user))]
  {
  }

  /** The bot's own messages, messages without attachments and messages
      whose first attachment is not a share change nothing and send nothing. */
  lemma MessageIgnored(w: World, t: string, e: Event)
    requires e.MessageEvent? && t in w.teams && WellFormed(w.teams)
    requires || e.user == w.teams[t].botUserId
             || e.attachments.None?
             || (|e.attachments.value| > 0 && !e.attachments.value[0].isShare)
    ensures Message(w, t, e) == Handled(w)
  {
  }

  /** A shared message from a known user other than the bot completes the
      share step and sends one message to the message's channel at the
      shared attachment's timestamp. */
  lemma ShareCompletesStep(w: World, t: string, e: Event)
    requires e.MessageEvent? && WellFormed(w.teams) && HasUser(w.teams, t, e.user)
    requires e.user != w.teams[t].botUserId
    requires e.attachments.Some? && |e.attachments.value| > 0 && e.attachments.value[0].isShare
    ensures var a := e.attachments.value[0];
      var teams := UpdateItem(w.teams, t, e.user, 2);
      && Message(w, t, e).Handled?
      && Message(w, t, e).world.teams == teams
      && Message(w, t, e).world.outbox == w.outbox + [SendResponse(teams, t, e.user, e.channel, a.ts)]
  {
  }

  /** The message handler raises exactly when a non-bot message has an empty
      attachment list, or a share comes from a user the store does not know. */
  lemma MessageRaises(w: World, t: string, e: Event)
    requires e.MessageEvent? && t in w.teams && WellFormed(w.teams)
    ensures Message(w, t, e).Raised? <==>
      && e.user != w.teams[t].botUserId
      && e.attachments.Some?
      && (|e.attachments.value| == 0 || (e.attachments.value[0].isShare && !HasUser(w.teams, t, e.user)))
  {
  }

  /** Completed steps stay completed and known users stay known; only a
      `team_join` for that very user resets their steps. */
  lemma DispatchMonotonic(w: World, template: seq<Step>, t: string, e: Event, t': string, u: string, j: nat)
    requires WellFormed(w.teams)
    requires ReadsTeam(e) ==> t in w.teams
    requires Dispatch(w, template, t, e).Handled?
    requires HasUser(w.teams, t', u) && j < |Content(w.teams, t', u)|
    ensures var r := Dispatch(w, template, t, e).world;
      && HasUser(r.teams, t', u)
      && (IsDone(Content(w.teams, t', u)[j]) && !(e.TeamJoinEvent? && e.userId == u && t' == t)
          ==> j < |Content(r.teams, t', u)| && IsDone(Content(r.teams, t', u)[j]))
  {
  }
}
