# Slack onboarding tutorial bot, modelled in Dafny

The bot receives Slack Events API webhooks and walks each new team member
through a three-step tutorial: add a reaction, pin a message, share a
message. For each team, the bot keeps a map from user to that user's copy
of the tutorial attachments. When a user completes a step, the bot ticks
the step in the user's copy and edits the welcome message it sent them.

The model covers the whole of `bot.rb` except its transport:

- `tutorial.dfy`, module `Tutorial`, models `SlackTutorial`. It holds:
  - the tutorial step record `{text, color}`;
  - the welcome text, the two icons and the completed colour;
  - the step names `items` and their positions;
  - the text replacement that `update_item` does with `sub!`.

  Ruby's `String#sub!` with a string pattern replaces the first literal
  occurrence. It is modelled by a search (`FindFrom`) and a splice (`Sub`).
  Both are specified by the declarative `OccursAt` / `IsFirst`.
- `events.dfy`, module `Events`, models the store and the `Events` class.
  - The store is `Team`: the bot user id plus a map from user to tutorial.
  - The outbound client is a log of `Outbound` calls. `Create` stands for
    `chat.postMessage` and `Update` for `chat.update`.
  - The parsed inner event is a tagged union with one variant per handled
    event type, plus `OtherEvent`.
  - `update_item`, `send_response` and the four handlers are functions from
    the state before to the state after.
- `api.dfy`, module `Api`, models the `post '/events'` route of `API`:
  - it checks the token;
  - it answers the `url_verification` handshake;
  - it dispatches `event_callback` events and acknowledges them.

  `PostEvents` maps a parsed `Envelope` and the state to a response and the
  new state.
- `server.dfy`, module `Server`, holds the class `Bot`. Its fields are the
  team map (`$teams`) and the outbound log. It has one method per Ruby
  operation. Each method updates the fields in place and is proved to have
  exactly the effect of the matching function in `Events` or `Api`.
  - The constructor stands for the install flow, which is not part of this
    model. It receives each installed team's bot user id and starts every
    team with no users.
  - The template is a constructor argument instead of being read from
    `welcome.json`.
- `wrappers.dfy` holds `Option`, which stands in for Ruby's `nil`.

### Where the code departs from its evident intent

- Unknown users in `message`. Unlike `reaction_added` and `pin_added`, which
  check the user first (bot.rb:110, bot.rb:121), `message` has no known-user
  check (bot.rb:139-147). A share from an unknown user therefore indexes
  `nil` and raises `NoMethodError`. The model makes this an explicit
  outcome: the handler returns `Raised`, the route answers `ServerError`
  (Sinatra's 500), and neither the store nor the log changes. Nothing is
  written before the failing lookup.
- Empty attachment list. `[]` is truthy in Ruby, so
  `event_data['attachments'].first['is_share']` indexes `nil` and raises
  too. This is also `Raised`.
- Errors that reach Slack. The route answers 200 so that Slack knows the
  event arrived (bot.rb:85-86). In the two cases above the handler raises
  first and Sinatra answers 500. These are the two failures the model
  represents. A failed delivery, a failed template read and an event for a
  team missing from `$teams` also end in a 500 in the source; they are not
  modelled (see "## Left out").
- Idempotence of `update_item`. It holds only when the step text shows the
  pending icon at most once: `sub!` ticks one icon per call.
  `Events.UpdateItemIdempotent` carries that hypothesis.
- Unknown outer `type`, and `url_verification` without `challenge`. In both
  cases the route returns `nil`. Sinatra answers that with 200 and an empty
  body, modelled as `Ack`.
- Missing `ts`. A reaction or pin whose `ts` is missing reaches
  `send_response` with `ts == nil`, so the bot posts a new message to the
  channel instead of updating one. `ts` is therefore an `Option`.

The model assumes that the install flow has stored `$teams[team_id]` before
any event for that team arrives. This is a precondition of every handler and
of a callback routed to one (`Api.Installed`). The source does not guarantee
it: the map lives only in memory, so after a restart an event for a team
raises at bot.rb:100, 110, 121 or 132.

## Model

| member | source | states |
|---|---|---|
| `Tutorial.Index` | bot.rb:19-21 | reaction, pin and share resolve to positions 0, 1 and 2, each below the template's three steps, and each position belongs to exactly one name |
| `Tutorial.FindFrom` | bot.rb:36 | the search returns an occurrence of the pattern with none before it from the start position, or reports that there is none |
| `Tutorial.Sub` | bot.rb:36 | with no occurrence the text is unchanged; otherwise exactly the leftmost occurrence is replaced by the replacement string |
| `Tutorial.Complete` | bot.rb:36-37 | completing a step sets the colour `#439FE0`, replaces only the first `:white_large_square:` with `:white_check_mark:`, and leaves a text without that icon as it was |
| `Tutorial.SubRemovesSoleMarker` | bot.rb:36 | if the text shows the pending icon at most once, no pending icon is left after the replacement, even across the splice boundaries |
| `Tutorial.CompleteIdempotent` | bot.rb:36-37 | completing a step twice equals completing it once, when its text shows the pending icon at most once |
| `Events.UpdateItem` | bot.rb:32-38 | only step `i` of user `u` in team `t` changes, and it becomes the completed step; every other step, user, team and the bot user id stay as they were |
| `Events.UpdateItemIdempotent` | bot.rb:32-38 | applying `update_item` twice to a step that shows the pending icon at most once leaves the same store as applying it once |
| `Events.UpdateItemKeepsWellFormed` | bot.rb:32-38 | every tutorial keeps its three steps |
| `Events.SendResponse` | bot.rb:153-173 | an update exactly when a timestamp is given, at that timestamp; a new post otherwise; both go to the given channel through the team's client and carry the welcome text and the user's current content |
| `Events.UserJoin` | bot.rb:97-105 | the user is known afterwards with exactly the template as content, no team is added or removed, exactly one message is appended, and three-step tutorials stay three-step; the full effect is in `Events.UserJoinResets` |
| `Events.ReactionAdded` | bot.rb:108-116 | the state changes if and only if the user is known; no team is added or removed, at most one message is appended and tutorials keep three steps; the effect per case is in `Events.UnknownUserIgnored` and `Events.KnownUserStepCompleted` |
| `Events.PinAdded` | bot.rb:119-127 | the state changes if and only if the user is known; no team is added or removed, at most one message is appended and tutorials keep three steps; the effect per case is in `Events.UnknownUserIgnored` and `Events.KnownUserStepCompleted` |
| `Events.Message` | bot.rb:129-150 | the bot's own messages change nothing; when the handler does not raise, no team is added or removed, at most one message is appended and tutorials keep three steps; the cases are in `Events.MessageIgnored`, `Events.ShareCompletesStep` and `Events.MessageRaises` |
| `Events.UserJoinResets` | bot.rb:97-105 | the user's tutorial becomes a fresh copy of the template, discarding any progress; other users, other teams and the bot user id are unchanged; exactly one new message is posted, to the user's own channel, with the welcome text and the template |
| `Events.UnknownUserIgnored` | bot.rb:108-127 | a reaction or pin from a user with no tutorial changes nothing and sends nothing |
| `Events.KnownUserStepCompleted` | bot.rb:108-127 | for a known user a reaction completes step 0 and a pin step 1, and exactly one message follows: an update in the item's channel at `item.ts`, or at `item.message.ts` for a pin, or a new post there when the timestamp is missing |
| `Events.MessageIgnored` | bot.rb:129-150 | a message from the bot user, a message without attachments, or one whose first attachment is not a share changes nothing and sends nothing |
| `Events.ShareCompletesStep` | bot.rb:139-147 | a share from a known non-bot user completes step 2 and sends one message to the message's channel at the first attachment's timestamp |
| `Events.MessageRaises` | bot.rb:139-145 | the message handler fails exactly when a non-bot message has an empty attachment list, or shares from a user with no tutorial |
| `Events.Dispatch` | bot.rb:67-84 | a handled event appends at most one outbound call and never rewrites earlier ones; whichever handler runs, every tutorial keeps the template's three steps; only the message handler can raise; an unrecognised event changes nothing |
| `Events.DispatchMonotonic` | bot.rb:67-84 | known users stay known and completed steps stay completed, except that a join for that very user resets their steps |
| `Api.ForbiddenBody` | bot.rb:50 | the 403 body is the fixed prefix followed by the token received, or the prefix alone when there is no token |
| `Api.WrongTokenRefused` | bot.rb:49-51 | a wrong or missing token gets 403 whatever the envelope holds; the store and the log are unchanged |
| `Api.ForbiddenOnlyForWrongToken` | bot.rb:49-51 | the answer is 403 if and only if the token does not match the configured one |
| `Api.ChallengeEchoed` | bot.rb:57-58 | a verification handshake gets its own `challenge` back unchanged, with no change to the store or the log |
| `Api.CallbackAcknowledged` | bot.rb:60-86 | every callback gets 200, except that a failing message handler gives 500 with nothing changed; an unrecognised inner type gets 200 with nothing changed |
| `Api.PostEvents` | bot.rb:44-88 | only an authenticated callback can change the store or the log; a request sends at most one message without rewriting earlier ones and keeps every tutorial at three steps; the answers for each kind of request are in `Api.WrongTokenRefused`, `Api.ChallengeEchoed` and `Api.CallbackAcknowledged` |
| `Api.JoinThenReact` | bot.rb:44-127 | a join for U1 in team A posts the welcome message with the template's steps; a later reaction in C1 at 123.45 completes only step 0 and updates that message there |
| `Server.Bot.UpdateItem` | bot.rb:32-38 | the store becomes `Events.UpdateItem` of the old store and nothing is sent |
| `Server.Bot.SendResponse` | bot.rb:153-173 | the log gains exactly the call `Events.SendResponse` describes; the store is unchanged |
| `Server.Bot.UserJoin` | bot.rb:97-105 | the new state is `Events.UserJoin` of the old one |
| `Server.Bot.ReactionAdded` | bot.rb:108-116 | the new state is `Events.ReactionAdded` of the old one |
| `Server.Bot.PinAdded` | bot.rb:119-127 | the new state is `Events.PinAdded` of the old one |
| `Server.Bot.Message` | bot.rb:129-150 | reports failure exactly when `Events.Message` raises, in which case the state is unchanged; otherwise the state is the one `Events.Message` gives |
| `Server.Bot.PostEvents` | bot.rb:44-88 | the response and the new state are those of `Api.PostEvents` |

## Left out

- Sinatra routing, `request.body.read` and `JSON.parse` of the request are
  transport and parsing. The envelope arrives already parsed. Its JSON
  values are assumed to have the shapes the handlers read: strings for ids
  and timestamps, a boolean for `is_share`. Every event is assumed to carry
  the `user` field its handler reads.
- Reading and parsing `welcome.json` (bot.rb:12-16) is file I/O. The
  source re-reads welcome.json on every join (bot.rb:24-26, bot.rb:101). The
  model fixes one template, a constructor argument of `Bot` with three
  steps, for the bot's lifetime. A read or parse failure during a join (500,
  nothing changed) is not modelled, and neither is an edited file changing
  the template of later joins.
- `chat_postMessage` and `chat_update` (bot.rb:159-172) are calls into the
  `slack-ruby-client` gem. They are modelled only as records appended to the
  outbound log. The `as_user` flag is the same on every call and is not
  recorded. A failed delivery is not modelled. In the source it raises
  after `update_item` has already ticked the step (bot.rb:113-114,
  bot.rb:124-125, bot.rb:145-147), so the store changes while Slack gets a
  500 and retries.
- The `puts` diagnostics of an unexpected event (bot.rb:82-83) have no
  effect on state.
- The install/OAuth flow that creates `$teams[team_id]` with its client and
  `:bot_user_id` is not part of this model. Its result is the argument of
  the `Bot` constructor, and a stored team is a precondition of the handlers.
  An event for a team missing from `$teams`, which the source answers with
  a 500 (bot.rb:100, 110, 121, 132), is therefore not modelled.
- Concurrency: the code has no locking. Each request is one atomic step.
- Object identity is not modelled because the store holds values. In Ruby,
  each user gets a `deep_dup` of the template (bot.rb:24-26), and `sub!`
  mutates that copy's string. With values, one user's update cannot affect
  another user or the template, so the aliasing question does not arise.
- Collision of user ids with the team hash's own keys. In Ruby, a team's
  hash also holds the keys `'client'` and `:bot_user_id` next to the user
  ids. The model keeps users in a map of their own. So a user id spelled
  `client` does not collide with the client handle as it would in Ruby.
- An unset verification token (`nil == nil`) is not modelled: the
  configured token is always a string.
- `Events.DispatchMonotonic`: a step counts as completed by its colour
  alone. The text's icon is covered by `Tutorial.Complete` and
  `Tutorial.SubRemovesSoleMarker`.
