# Rainbow Roles bot: command handling, pause flags and channel choice

A Dafny model of the decision logic in `discord.js` of the Rainbow Roles Discord bot. The
bot cycles the colours of specially named roles once per interval, answers a few commands
addressed to it by mention, and greets a guild it joins in a "main" channel. The model
covers what can be decided without the Discord client library:

- **Message gate and dispatch** (`commands.dfy`, module `Commands`). A message counts only if
  all four of these hold: the author is not a bot, it came from a guild, it mentions the bot,
  and its text holds the token `<@ID>` or `<@!ID>`. Its text is then tested against
  `help`, `guide`, `colors`, `sets` and `pause|play` in that order. The first pattern that
  matches decides the reply, and "Command Not Found" is sent when none does. `Step` is the
  whole handler as a pure function from the pause map and a message to the reply and the new map.
- **Pause flags** (`pause_state.dfy`, module `PauseState`). The module-level `paused` object
  maps a guild id to a flag. A missing entry reads as `undefined`, so the guild is active.
  `Toggled` is the assignment `paused[id] = !paused[id]`. `Unpaused` is the list of guilds an
  update tick starts.
- **The bot's state** (`bot.dfy`, module `RainbowBot`). Class `Bot` holds the `paused` map
  and the bot's user id. `OnMessage` is the handler's chain of early returns and updates the
  map in place. It is proved equal to `Step`. `UpdateAll` is the `updateAll` loop with its
  `continue` on paused guilds. It is proved to start exactly `Unpaused(guilds, paused)`.
- **Channel choice** (`channels.dfy`, module `Channels`). `Sendable` is `hasSendPermission`:
  a text channel where the bot holds SEND_MESSAGES. `MainChannel` is `mainChannel`. It takes
  the system channel if that one is sendable. Otherwise it takes the first channel named
  exactly `general`, `main` or `chat`, if that channel is sendable. Otherwise it takes the
  first channel of the collection the library's sort returns.
- **Substring test** (`text.dfy`, module `Text`). Every pattern the handler tests is an
  unanchored literal or an alternation of literals (`pause|play`, `<@(!|)ID>`). A
  regular-expression test is then a substring search, or a disjunction of such searches.
- `wrappers.dfy` holds `Option`.

Three behaviours of `mainChannel` that the model keeps as the code has them:

- The channel-name match is case-sensitive (`/^(general|main|chat)$/` has no `i` flag).
  `Channels.IsMainName` does not accept `General`.
- The fallback returns the first channel of the sorted collection whether or not the bot can
  send there (`Channels.FallbackMayBeUnsendable`). `mainChannel` returns nothing only for a
  guild without channels.
- When `systemChannelID` is set but names no channel in `guild.channels`, the code calls
  `hasSendPermission(undefined)`, which throws a TypeError. `MainChannel` returns
  `SystemChannelMissing` in that case.

## Model

| member | source | states |
|---|---|---|
| `Text.ContainsAt` | discord.js:203 | an occurrence of a pattern at any position makes the pattern test succeed |
| `Text.ContainsWitness` | discord.js:203 | a pattern test succeeds only when the pattern occurs at some position |
| `Text.ContainsIffOccurs` | discord.js:203 | the pattern test succeeds exactly when the pattern occurs somewhere in the text |
| `Text.ContainsInfix` | discord.js:203 | a keyword written anywhere in a message, whatever surrounds it, is found by the test |
| `PauseState.IsPaused` | discord.js:108 | the truthiness test `paused[id]`: a guild with no entry is active, otherwise its stored flag decides |
| `PauseState.Toggled` | discord.js:248 | the toggled guild's flag becomes the negation of its old truthiness (absent = false); its status flips; every other guild's entry is unchanged and no other key appears |
| `PauseState.ToggleTwiceRestores` | discord.js:248 | toggling a guild twice gives every guild its original active/paused status |
| `PauseState.Unpaused` | discord.js:106-108 | a tick starts at most as many guilds as the list holds |
| `PauseState.UnpausedMembers` | discord.js:106-108 | a tick starts a guild exactly when it is in the guild list and its flag is not truthy |
| `PauseState.UnpausedAppend` | discord.js:107-108 | the tick distributes over concatenation of the guild list, so guilds are started in list order |
| `PauseState.UnpausedAllActive` | discord.js:106-108 | with no guild paused, a tick starts the whole guild list in order |
| `PauseState.UnpausedSameStatus` | discord.js:108 | the tick depends only on each guild's active/paused status, not on whether its entry is absent or false |
| `Commands.HasMentionToken` | discord.js:128 | the mention-token test succeeds exactly when `<@ID>` or `<@!ID>` occurs in the content |
| `Commands.Accepts` | discord.js:188-191 | a message passes the gate exactly when its author is not a bot, it came from a guild, it mentions the bot, and `<@ID>` or `<@!ID>` occurs in its content |
| `Commands.CannedReply` | discord.js:203-236 | each of help, guide, colors, sets and no-match gets a fixed embed that is neither the permission nor a cycling reply; "Command Not Found" exactly for no match |
| `Commands.Classify` | discord.js:203-256 | the command chosen matches the content, and no command tested before it matches; NotFound exactly when none of the five patterns matches |
| `Commands.ClassifyUnique` | discord.js:203-256 | the first-match contract determines the command: any command satisfying it is the one `Classify` returns |
| `Commands.Step` | discord.js:187-263 | a reply is sent exactly when the message passes the bot/guild/mention/token gate; only a permitted pause/play changes the map; without MANAGE_ROLES the reply is "Permission Required"; a permitted pause/play toggles that guild and reports "Stopped" exactly when the new flag is true and "Started" otherwise; help, guide, colors, sets and no match get their own fixed embed (`CannedReply`) and leave the map unchanged; content matching no pattern gets "Command Not Found" |
| `Commands.PauseTwiceRestores` | discord.js:238-252 | the same permitted pause/play sent twice gives opposite replies, restores every guild's status and leaves the next tick's guild set as it was |
| `Commands.HelpBeatsColors` | discord.js:203-231 | every accepted message whose content holds both `help` and `colors` is the help command, gets the help page and leaves the pause map unchanged |
| `Commands.MentionedHelpGetsHelpPage` | discord.js:187-216 | a guild member's message `<@ID> help` gets the help page and leaves the pause map unchanged, with or without MANAGE_ROLES |
| `RainbowBot.Bot.constructor` | discord.js:101-105 | a new process starts with no guild paused |
| `RainbowBot.Bot.OnMessage` | discord.js:187-263 | the early-return handler sends the reply and leaves the map that `Step` gives for the old map and the message |
| `RainbowBot.Bot.UpdateAll` | discord.js:106-116 | the loop starts exactly `Unpaused(guilds, paused)`, so in list order every guild whose flag is not truthy and no other; the map is not modified |
| `RainbowBot.PauseThenPlay` | discord.js:238-252 | on a new bot, a permitted pause/play replies "Stopped" and the next tick skips that guild and starts every other listed guild; a second pause/play replies "Started" and the next tick starts every guild again |
| `Channels.Sendable` | discord.js:72-74 | `hasSendPermission`: a channel that is not of type text never qualifies; a text channel qualifies exactly when the bot holds SEND_MESSAGES in it |
| `Channels.SortComparator` | discord.js:89-92 | the comparator never reports two channels equal; an unsendable first channel always sorts first; a sendable first channel sorts first exactly when its position is lower |
| `Channels.Lookup` | discord.js:78 | `guild.channels.get(id)` returns a channel of the guild with that id, or nothing only when no channel has it |
| `Channels.FirstMainNamed` | discord.js:84 | the index found is of a channel named exactly `general`, `main` or `chat` with no such name before it; nothing only when no channel has such a name |
| `Channels.SortComparatorInconsistent` | discord.js:89-92 | the sort comparator reports two unsendable channels each before the other, is non-zero on an unsendable channel compared with itself, and reports two sendable channels at one position each after the other |
| `Channels.MainChannel` | discord.js:76-97 | a sendable system channel wins whatever the other channels are; a dangling system channel id throws; otherwise the first main-named channel when sendable; otherwise the first of the sorted collection; anything chosen is a channel of the guild; nothing exactly when the guild has no channels and no system channel id |
| `Channels.GeneralChosen` | discord.js:84-86 | when the system channel is unset or unsendable (and does not dangle), a sendable `general` with no main-named channel before it is chosen over every other channel |
| `Channels.OnlyFirstMainNameConsidered` | discord.js:84-93 | when the system channel is unset or unsendable and the first main-named channel cannot be sent in, later main-named channels are passed over and the first of the sorted collection is chosen |
| `Channels.FallbackMayBeUnsendable` | discord.js:89-96 | a guild with no system channel id whose only channel is a voice channel gets that unsendable channel |

## Left out

- Client construction, `bot.login`, the presence, and the `disconnect`, `rateLimit`, `error` and `warn` log handlers (discord.js:42-60, 117-125, 270): I/O and library calls.
- The startup statistics and invite logging (discord.js:130-149): logging over library collections and promises.
- `dieOnBoot` and `itsOver` (discord.js:151-165, 273-305): timers and guild-leave network calls.
- The interval timer and the promise chains (discord.js:111-114, 127, 194-267): one tick and one message are modelled synchronously. A failed `send` or update is only logged by the source, so nothing in the model depends on it.
- `ManagedGuild.update` and the colour and scheme tables (`guild.js`, `colors.js`): guild.js and colors.js are not part of this model. `UpdateAll` returns the ids of the guilds whose update it starts.
- The embed texts (discord.js:168-185 and the replies at 203-263): replies are modelled as one tag per embed title.
- The `guildCreate` greeting (discord.js:62-70): a `send` to the channel `mainChannel` picks, which is I/O.
- `Channels.MainChannel`: does not say which channel the fallback sort puts first. The comparator is not a consistent ordering (`SortComparatorInconsistent`), so the order depends on the library's sort algorithm. The sorted collection is a parameter required to be a permutation of the guild's channels.
- `RainbowBot.Bot.OnMessage`: `mentionRegex` is set only when the `ready` event fires, and a message before that would make the handler throw. The model takes the bot's id as fixed at construction.
- `Commands.HasMentionToken`: the bot's id is spliced into a regular expression. The model treats it as a literal, which agrees for Discord ids (decimal digits).
- `message.isMentioned(bot.user)` and `message.member.hasPermission('MANAGE_ROLES')` are library calls, modelled as two booleans of the message. The permission check also passes for administrators and the guild owner, and the boolean stands for that outcome.
- Whether the bot may send in a channel (`channel.memberPermissions(channel.guild.me).has('SEND_MESSAGES')`) is a boolean of the channel record.
