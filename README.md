# DeepSeek Discord bot: settings table and handler decisions

This project models the two stateful, rule-based pieces of a Discord bot
that relays questions to the DeepSeek chat-completion service:

* **The per-guild settings table** (`database.py`). A map from `guild_id`
  to a row `{api_key, current_model, model_message_id, model_channel_id}`.
  Every setter is an SQLite `INSERT OR REPLACE` that names only some
  columns. REPLACE deletes the old row and inserts a new one, so every
  column the statement does not name returns to its default: NULL, or
  `'deepseek-chat'` for `current_model`. The setters replace the whole row;
  they never merge into it. So `set_model` erases the stored key, and
  `update_model_message` erases both the key and the chosen model.
* **The decisions of the handlers** (`bot.py`). Each handler is a function
  from the table and its inputs to the new table and a trace of outward
  calls (`Handlers`). Discord calls and completion calls are `Action`s.
  Their results are inputs: the new message's id, or the completion's text
  or exception message. The `DeepseekBot` class (`Bot`) owns a `Database`
  object and runs each handler step by step, reading and writing the store
  in the source's order. Each method is proved to end in the state its
  step function describes.

Consequences proved from this (module `Properties`):

* After `/model` records its selector, the guild's key reads as absent.
  The next `/ask` therefore replies "Please run /setup first!".
  A click on a selector button has the same effect.
* A guild without a key stays without one, and calls the completion
  service never, through any sequence of its own events that submits no
  key.
* Start from an empty table and no row ever holds both a key and a
  selector id. So, as long as each handler runs to completion before the
  next one starts, `/model`'s deletion of the previous selector
  (bot.py:194-200) is never reached. Handlers that interleave at their
  `await`s are outside this model. Two `/model` calls in one guild can
  both pass the key gate, the second can record its selector before the
  first reads the record, and the first then deletes the second's
  selector.
* A key is stored before it is tested. It stays stored whether the test
  succeeds or raises.
* `on_ready` keeps no record of welcomes it sent. A second run sends them
  all again.
* A message that is only the bot's mention still goes to the completion
  service, with the empty prompt.
* When Discord rejects the answer of `/ask` or of the mention handler
  (for instance an answer over its message length limit), the same
  `except` clause that reports failed completions sends "Error: " and the
  rejection.

Module layout: `Wrappers` (Option), `Settings` (database.py), `Selector`,
`Mentions`, `Welcome` (the pure parts of bot.py), `Handlers` (step
functions, the inbound-event type and its dispatcher), `Properties`
(lemmas), `Bot` (the bot class).

## Model

| member | source | states |
|---|---|---|
| `Settings.WithApiKey` | database.py:21-27 | after `set_api_key(g,k)` the key reads back as k, the model reads as 'deepseek-chat' and the selector reference as (None, None), whatever the row held before; the guild has exactly one row; every other guild's row is unchanged |
| `Settings.WithModel` | database.py:38-44 | after `set_model(g,m)` the model reads back as m, the key reads as None and the selector reference as (None, None); one row per guild; other guilds unchanged |
| `Settings.WithModelMessage` | database.py:55-63 | after `update_model_message(g,i,c)` the selector reference reads back as (i, c), the key as None and the model as 'deepseek-chat'; one row per guild; other guilds unchanged |
| `Settings.ApiKey` | database.py:29-36 | `get_api_key`: the row's key column, or None when the guild has no row |
| `Settings.Model` | database.py:46-53 | `get_model`: the row's model column, or 'deepseek-chat' when the guild has no row |
| `Settings.ModelMessage` | database.py:65-73 | `get_model_message`: the row's (message id, channel id), or (None, None) when the guild has no row |
| `Settings.AbsentGuildDefaults` | database.py:29-73 | for a guild without a row the getters answer None, 'deepseek-chat' and (None, None) |
| `Settings.SettersKeepKeyExcludesSelector` | database.py:21-63 | no setter makes a row that holds both a key and a selector message id |
| `Settings.Database.constructor` | database.py:4-6 | the object starts from the database file as found: with the table and its rows, or without the table |
| `Settings.Database.Init` | database.py:8-19 | `CREATE TABLE IF NOT EXISTS`: afterwards the table exists and the rows already there are untouched, so a second call changes nothing |
| `Settings.Database.SetApiKey` | database.py:21-27 | the table becomes `WithApiKey` of the old table |
| `Settings.Database.GetApiKey` | database.py:29-36 | returns the stored key, or None without a row |
| `Settings.Database.SetModel` | database.py:38-44 | the table becomes `WithModel` of the old table |
| `Settings.Database.GetModel` | database.py:46-53 | returns the stored model, or 'deepseek-chat' without a row |
| `Settings.Database.UpdateModelMessage` | database.py:55-63 | the table becomes `WithModelMessage` of the old table |
| `Settings.Database.GetModelMessage` | database.py:65-73 | returns the stored (message id, channel id), or (None, None) without a row |
| `Selector.RenderSelector` | bot.py:112-122 | two buttons, chat then reasoning, whose custom ids are their model ids; a button is highlighted ("[SELECTED] " label and green) exactly when its id is the current model, and otherwise plain (unmarked and grey) |
| `Selector.HighlightCount` | bot.py:112-122 | for 'deepseek-chat' or 'deepseek-r1' exactly the matching button is highlighted; for any other model neither is |
| `Mentions.MentionsUser` | bot.py:270 | `bot.user in message.mentions` holds iff some mention has the bot's id |
| `Mentions.AnyBroadcast` | bot.py:270 | the `any(...)` holds iff some mention has `everyone` or `role` set |
| `Mentions.Triggers` | bot.py:267-270 | a message triggers iff its author is not a bot, the bot is among the mentions and no mention is an everyone or role mention |
| `Mentions.Decimal` | bot.py:280 | the id in the mention token is written as a non-empty string of decimal digits |
| `Mentions.DecimalValue` | bot.py:280 | the digits of the token denote exactly the bot's id, as `str(id)` writes it |
| `Mentions.MentionToken` | bot.py:280 | the token `<@ID>` is at least four characters, starting with '<' and ending with '>' |
| `Mentions.RemoveAll` | bot.py:280 | `replace(token, '')` never lengthens the text |
| `Mentions.RemoveAllNoOccurrence` | bot.py:280 | text without the token is returned unchanged |
| `Mentions.RemoveAllLeadingToken` | bot.py:280 | a leading token is dropped and the scan goes on after it |
| `Mentions.RemoveAllFirstOccurrence` | bot.py:280 | for every text: when no occurrence starts before a given occurrence of the token, the text before it is kept, that occurrence is dropped and the rest is scanned on its own |
| `Mentions.RemovalIsSinglePass` | bot.py:280 | the scan is left-to-right and single-pass: from "<@<@1>1>" it leaves "<@1>" |
| `Mentions.IsSpace` | bot.py:280 | the characters `str.strip()` removes: Python's `isspace` set, U+0009-U+000D, U+001C-U+0020, U+0085, U+00A0, U+1680, U+2000-U+200A, U+2028, U+2029, U+202F, U+205F and U+3000 |
| `Mentions.LeadingSpaces` | bot.py:280 | counts the whitespace at the start: all of it whitespace, and the next character is not |
| `Mentions.TrailingSpaces` | bot.py:280 | counts the whitespace at the end: all of it whitespace, and the character before is not |
| `Mentions.Strip` | bot.py:280 | `strip()` returns a slice of the text with only whitespace cut on either side and no whitespace at its ends; these conditions fix the result |
| `Mentions.StripTrimmed` | bot.py:280 | text with no whitespace at its ends is kept by `strip()`, also after one leading space |
| `Mentions.StripMention` | bot.py:280 | `content.replace(f'<@{id}>', '').strip()`: the result has no whitespace at its ends and is never longer than the content |
| `Mentions.BareMentionIsEmpty` | bot.py:280 | content that is exactly the token becomes "" |
| `Mentions.LeadingMentionStripped` | bot.py:280 | "<@ID> question" becomes "question" when the question holds no token and no whitespace at its ends |
| `Welcome.IsGeneral` | bot.py:29 | a channel matches `name='general'` exactly when its name is 'general' |
| `Welcome.CanPost` | bot.py:34-35 | a channel qualifies as fallback exactly when the bot may both send messages and embed links there |
| `Welcome.FirstWhere` | bot.py:29 | `discord.utils.get` finds the first channel with the property, or none when no channel has it |
| `Welcome.WelcomeChannel` | bot.py:28-37 | if any channel is named 'general' the first such is chosen, regardless of permissions; otherwise the first channel with both send and embed permission; otherwise none |
| `Welcome.ChooseWelcomeChannel` | bot.py:28-37 | the lookup and the `for` loop with `break` choose exactly `WelcomeChannel` |
| `Handlers.KeyPresent` | bot.py:178 | `not api_key` is false exactly when a key is stored and it is not the empty string |
| `Handlers.Truthy` | bot.py:194 | an id stored in the row is truthy exactly when it is present and not 0 |
| `Handlers.Relayed` | bot.py:230-244 | the texts sent after a completion call: the answer, or "Error: " and the exception; when sending the answer raises, "Error: " and that exception follow, so two sends are made, the first of them rejected |
| `Handlers.GuildWelcome` | bot.py:28-64 | at most one welcome per guild, sent exactly when a channel is chosen and the guild has no usable key, to that guild, in the channel `WelcomeChannel` chose |
| `Handlers.SubmitKeyStep` | bot.py:78-105 | stores the key, calls the completion service with it and 'deepseek-chat', then posts and deletes the answer and confirms, or reports the test's exception |
| `Handlers.ButtonStep` | bot.py:130-145 | stores the clicked id as the model with no key check, acknowledges privately and redraws the clicked message |
| `Handlers.ModelStep` | bot.py:186-216 | key gate with the "/setup" hint; deletion attempt when both recorded ids are truthy; a selector for the current model; the new message and channel recorded |
| `Handlers.SelectModelStep` | bot.py:176-181 | key gate with the "set an API key" hint, then the steps of `/model` |
| `Handlers.AskStep` | bot.py:219-244 | key gate; otherwise defer, one completion with the stored key and model, and the relayed texts as follow-ups; never writes |
| `Handlers.MessageStep` | bot.py:266-296 | nothing unless the message triggers; nothing in a direct message; key gate; otherwise one completion on the stripped text and the relayed texts as replies; never writes |
| `Handlers.Dispatch` | bot.py:20-296 | each inbound event runs the handler the source registers for it |
| `Handlers.Run` | bot.py:20-296 | events are handled one after another, each to completion, and their traces are concatenated |
| `Handlers.ReadyActions` | bot.py:26-64 | `on_ready` only sends welcomes, and only to guilds that have no usable key |
| `Properties.ReadyActionsExact` | bot.py:26-64 | the welcomes of `on_ready` are exactly those of the individual guilds: each guild with a chosen channel and no key gets one, in that channel |
| `Properties.ReadyTwiceWelcomesTwice` | bot.py:26-64 | there is no welcome-sent flag: two runs send the welcomes twice |
| `Properties.SetupGate` | bot.py:177-190 | without a usable key the Select Model button, `/model`, `/ask` and the mention handler reply with a setup hint, make no other call and leave the table unchanged |
| `Properties.AskCompletion` | bot.py:218-244 | `/ask` never writes; it calls the completion service iff a usable key is stored, and then with that key, the stored model and the prompt |
| `Properties.MessageCompletion` | bot.py:265-296 | the mention handler never writes; it calls the completion service iff the message triggers, comes from a guild and that guild has a usable key, and then with the key, the stored model and the stripped text |
| `Properties.RelayOutcomes` | bot.py:230-244 | with a key, `/ask` and the mention handler send the answer; a rejected answer is followed by "Error: " and the rejection; a failed completion gives one "Error: " message; nothing else is sent |
| `Properties.BareMentionStillCompletes` | bot.py:280-294 | a message that is only the bot's mention is still sent on, as the empty prompt; there is no empty check |
| `Properties.ModelCommandEffects` | bot.py:193-216 | with a key, `/model` makes at most two calls: it attempts to delete the recorded selector exactly when both stored ids are truthy, then shows a selector for the current model and records the new message id with the invoking channel; the key is erased and the model reads as the default |
| `Properties.ButtonCallbackEffects` | bot.py:130-145 | a click stores the clicked id as the model and makes exactly two calls: it acknowledges privately and edits the same message so that exactly the clicked id is highlighted; it shows no new selector and, since the row is replaced, the key and the recorded selector are gone |
| `Properties.KeyErasedByModelWrites` | bot.py:130-216 | after `/model`, the Select Model button or a selector click, the guild has no usable key; for the Select Model button this rests on the assumption about bot.py:181 under "Left out" |
| `Properties.ModelThenAskNeedsSetup` | bot.py:216 | `/model` then `/ask` in the same guild: the `/ask` replies with the setup hint and neither calls the completion service |
| `Properties.DispatchWithoutKey` | bot.py:153-296 | an event of a keyless guild, other than a key submission, leaves it keyless and calls no completion |
| `Properties.NoCompletionUntilKeySubmitted` | bot.py:153-296 | a keyless guild stays keyless and calls no completion through any sequence of its events that submits no key |
| `Properties.SubmitKeyEffects` | bot.py:78-105 | the key is stored before the test call and stays stored whatever the test does; the model and selector reference are reset; the test uses 'deepseek-chat' |
| `Properties.SubmitKeyThenAsk` | bot.py:78-244 | after a non-empty key is submitted, the next `/ask` calls the completion service with that key and 'deepseek-chat' |
| `Properties.ModelStepKeepsKeyExcludesSelector` | bot.py:193-216 | from a table where no row holds both a key and a selector id, `/model` keeps it so and attempts no deletion |
| `Properties.DispatchKeepsKeyExcludesSelector` | bot.py:153-296 | every handler keeps the table free of rows holding both a key and a selector id |
| `Properties.DispatchNeverDeletesSelector` | bot.py:194-200 | on such a table no handler attempts to delete a previous selector |
| `Properties.NoStaleSelectorDeletion` | bot.py:194-200 | on such a table no sequence of events ever attempts that deletion |
| `Properties.FreshTableNeverDeletesSelector` | bot.py:194-200 | starting from an empty table the deletion of a previous selector never runs |
| `Bot.DeepseekBot.constructor` | bot.py:10-18 | the bot owns a fresh store on which `init` has run, and an empty trace |
| `Bot.DeepseekBot.OnReady` | bot.py:20-64 | appends exactly `ReadyActions` of the current table and writes nothing |
| `Bot.DeepseekBot.SetupCommand` | bot.py:153-183 | `/setup` shows the setup panel and touches no store |
| `Bot.DeepseekBot.ApiKeyCommand` | bot.py:246-263 | `/apikey` shows the private key panel and touches no store |
| `Bot.DeepseekBot.SetKey` | bot.py:171-173 | the "Set API Key" button opens the key form |
| `Bot.DeepseekBot.SubmitKey` | bot.py:78-105 | writes the key first, then records the test call and its replies, as `SubmitKeyStep` |
| `Bot.DeepseekBot.ButtonCallback` | bot.py:130-145 | stores the model, then acknowledges and edits, as `ButtonStep` |
| `Bot.DeepseekBot.ModelCommand` | bot.py:185-216 | key gate, optional deletion, selector, then the record of the new message, as `ModelStep` |
| `Bot.DeepseekBot.SelectModel` | bot.py:175-181 | key gate, then `/model`, as `SelectModelStep`, under the assumption about bot.py:181 under "Left out" |
| `Bot.DeepseekBot.AskCommand` | bot.py:218-244 | key gate, defer, one completion, its answer and the error report of a rejected answer, writing nothing, as `AskStep` |
| `Bot.DeepseekBot.OnMessage` | bot.py:265-296 | trigger check, key gate, one completion on the stripped text, its reply and the error report of a rejected reply, writing nothing, as `MessageStep` |

## Left out

- The Discord gateway, command-tree sync, logging with `print`, and the text, colours and footers of embeds: SDK plumbing. Panels, replies and selectors appear only as trace actions.
- The completion calls themselves (bot.py:82-97, 228-240, 277-292): a foreign network service. A call is a `Complete(key, model, prompt)` action; its result is an input. The fixed system prompt and `stream=False` are not recorded.
- `asyncio.to_thread`, the 60-second wait before the test answer is deleted, and interleaving of concurrent handlers: timing and concurrency. Each handler runs to completion before the next. The results about the stale-selector deletion (`Properties.NoStaleSelectorDeletion`, `Properties.FreshTableNeverDeletesSelector`) hold only under this assumption.
- aiosqlite connections, `commit` and storage errors: each store method is one atomic step that succeeds. The database path is not modelled.
- Use of the store before `init` (SQLite would raise "no such table"): the store methods require the table to exist, which `setup_hook` guarantees before any handler runs.
- Slash commands and buttons used outside a guild (`interaction.guild_id` is None): with a NULL primary key SQLite would assign a fresh row id. Messages outside a guild are modelled: the mention handler stops, because `message.guild.id` raises.
- Failures of Discord calls, except these: a failed welcome send is caught, so only the attempt is traced; a rejected answer in `/ask` or the mention handler is caught and reported (`Handlers.Relayed`). In the key form, a failed send or delete of the test answer would also reach the "Error testing API key" reply; only the test call's own exception is modelled there. A failure of an error reply itself is not caught by the source and is not modelled.
- Bot.DeepseekBot.SelectModel and Handlers.SelectModelStep assume that `await model(interaction)` at bot.py:181 runs the body of `/model` (bot.py:186-216). The SDK is not part of this model. If the name `model`, rebound by `@bot.tree.command` at bot.py:185, is an object that cannot be called, the click raises right after the key gate: no selector is shown, no deletion is attempted, nothing is recorded and the key stays. The second ensures of `Properties.KeyErasedByModelWrites` holds only under this assumption.
- Whether the SDK's mention objects carry `everyone` and `role` attributes is not part of this model: they are taken as two fields of each mention. If those objects lack the attributes, the `any(...)` at bot.py:270 raises on every message that mentions a user, and bot.py:271-296 never runs.
- A completion whose text is None.
- View timeouts of the setup panel and the selector.
- Loading the Discord token from `.env` and aborting when it is missing (bot.py:297-305): process I/O.
- The program has none of the following, and neither does the model: splitting of long answers (Discord's rejection of one is reported as above); a welcome-sent flag; classification of errors; a test of the key before it is stored; an empty check on the stripped prompt; `/ask` persisting the default model.
