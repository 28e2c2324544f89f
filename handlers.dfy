/**
 * The decisions of the bot's handlers (bot.py), as functions from the
 * settings table and the handler's inputs to the new table and the
 * calls the handler makes, in order. Discord and completion-service calls
 * are `Action`s; what they return (a message id, a completion or an
 * exception) is an input.
 */
module Handlers {
  import opened Wrappers
  import opened Settings
  import opened Selector
  import opened Mentions
  import opened Welcome

  const SetupFirstReply: string := "Please run /setup first!"
  const SetKeyFirstReply: string := "Please set an API key first!"
  const KeySetReply: string := "API key has been set successfully!"
  const KeyTestErrorPrefix: string := "Error testing API key: "
  const ErrorPrefix: string := "Error: "
  const ModelChangedPrefix: string := "Model changed to "
  /** The user message of the key test; the model is always `ChatModel` there. */
  const KeyTestPrompt: string := "This is a test message from a Discord Bot. If you see this, reply with: API Key Setup Successful. This message is from the DeepSeek API."

  /** What one completion call gave back: the first choice's text, or an exception's message. */
  datatype Completion = Answer(content: string) | Raised(error: string)

  /** A guild as `on_ready` sees it: its id and its text channels in order. */
  datatype Guild = Guild(id: int, channels: seq<TextChannel>)

  /** One outward call of a handler. */
  datatype Action =
    | SendWelcome(guild: int, channel: int)             // target_channel.send(embed=...)
    | ShowSetupPanel                                    // /setup: embed with "Set API Key" and "Select Model"
    | ShowKeyPanel                                      // /apikey: private embed with "Set API Key"
    | OpenKeyForm                                       // send_modal(APIKeyModal)
    | PrivateReply(text: string)                        // interaction.response.send_message(..., ephemeral=True)
    | Defer                                             // interaction.response.defer()
    | Complete(key: string, model: string, prompt: string)  // chat.completions.create(...)
    | FollowUp(text: string)                            // interaction.followup.send(...)
    | ReplyToMessage(text: string)                      // message.reply(...)
    | PostTestAnswer(channel: int, text: string)        // interaction.channel.send(...) of the key test
    | DeleteTestAnswer(channel: int)                    // test_message.delete()
    | TryDeleteMessage(channel: int, message: int)      // fetch and delete, every failure ignored
    | ShowSelector(buttons: seq<Button>)                // send_message(embed, view=ModelSelect(...))
    | EditSelector(buttons: seq<Button>)                // interaction.message.edit(view=ModelSelect(...))

  /** The table after a handler, and what the handler did. */
  datatype Step = Step(table: Table, actions: seq<Action>)

  /** `not api_key` is false: a key is stored and it is not the empty string. */
  predicate KeyPresent(k: Option<string>)
  {
    k.Some? && k.value != ""
  }

  /** Python truthiness of an optional id: stored and non-zero. */
  predicate Truthy(id: Option<int>)
  {
    id.Some? && id.value != 0
  }

  predicate HasCompletion(acts: seq<Action>)
  {
    exists i :: 0 <= i < |acts| && acts[i].Complete?
  }

  /**
   * The texts sent after a completion call in /ask and in the mention
   * handler, each as its own message: the answer, or "Error: " and the
   * call's exception. The send of the answer sits in the same `try`, so
   * when Discord rejects it (`rejection`, for instance an answer over the
   * message length limit) "Error: " and that exception follow. A failure of
   * the error message itself is not caught and ends the handler.
   */
  function Relayed(c: Completion, rejection: Option<string>): (texts: seq<string>)
    ensures 1 <= |texts| <= 2
    ensures c.Raised? ==> texts == [ErrorPrefix + c.error]
    ensures c.Answer? ==> texts[0] == c.content
    ensures |texts| == 2 <==> c.Answer? && rejection.Some?
    ensures |texts| == 2 ==> texts[1] == ErrorPrefix + rejection.value
  {
    match c
    case Raised(error) => [ErrorPrefix + error]
    case Answer(content) =>
      if rejection.Some? then [content, ErrorPrefix + rejection.value] else [content]
  }

  /** `interaction.followup.send` of each text, in order. */
  function FollowUps(texts: seq<string>): (acts: seq<Action>)
    ensures |acts| == |texts|
    ensures forall i :: 0 <= i < |texts| ==> acts[i] == FollowUp(texts[i])
  {
    seq(|texts|, i requires 0 <= i < |texts| => FollowUp(texts[i]))
  }

  /** `message.reply` of each text, in order. */
  function Replies(texts: seq<string>): (acts: seq<Action>)
    ensures |acts| == |texts|
    ensures forall i :: 0 <= i < |texts| ==> acts[i] == ReplyToMessage(texts[i])
  {
    seq(|texts|, i requires 0 <= i < |texts| => ReplyToMessage(texts[i]))
  }

  // ---- on_ready (bot.py:20-64) ----

  /** The welcome for one guild: only when a channel is found and the guild has no key. */
  function GuildWelcome(t: Table, g: Guild): (acts: seq<Action>)
    ensures |acts| <= 1
    ensures |acts| == 1 <==> WelcomeChannel(g.channels).Some? && !KeyPresent(ApiKey(t, g.id))
    ensures forall a :: a in acts ==> a == SendWelcome(g.id, g.channels[WelcomeChannel(g.channels).value].id)
  {
    match WelcomeChannel(g.channels)
    case None => []
    case Some(k) =>
      if KeyPresent(ApiKey(t, g.id)) then [] else [SendWelcome(g.id, g.channels[k].id)]
  }

  /** The welcomes of `on_ready`, guild by guild; a failed send is caught and changes nothing. */
  function ReadyActions(t: Table, gs: seq<Guild>): (acts: seq<Action>)
    ensures forall i :: 0 <= i < |acts| ==> acts[i].SendWelcome? && !KeyPresent(ApiKey(t, acts[i].guild))
    decreases |gs|
  {
    if |gs| == 0 then []
    else ReadyActions(t, gs[..|gs| - 1]) + GuildWelcome(t, gs[|gs| - 1])
  }

  // ---- APIKeyModal.on_submit (bot.py:78-105) ----

  /** The key is stored first; the test call's outcome only decides the replies. */
  function SubmitKeyStep(t: Table, g: int, channel: int, value: string, test: Completion): Step
  {
    Step(
      WithApiKey(t, g, value),
      [Complete(value, ChatModel, KeyTestPrompt)] +
      match test
      case Answer(content) => [PostTestAnswer(channel, content), DeleteTestAnswer(channel), PrivateReply(KeySetReply)]
      case Raised(error) => [PrivateReply(KeyTestErrorPrefix + error)])
  }

  // ---- ModelSelect.button_callback (bot.py:130-145) ----

  /** Store the clicked model, acknowledge privately, redraw the same message. No key check. */
  function ButtonStep(t: Table, g: int, customId: string): Step
  {
    Step(
      WithModel(t, g, customId),
      [PrivateReply(ModelChangedPrefix + customId), EditSelector(RenderSelector(customId))])
  }

  // ---- /model (bot.py:185-216) ----

  /**
   * Gate on the key; delete the recorded selector when both of its ids are
   * truthy; show a selector for the current model; record the new message
   * (`newMessage`, what `original_response()` returns) and the invoking channel.
   */
  function ModelStep(t: Table, g: int, channel: int, newMessage: int): Step
  {
    if !KeyPresent(ApiKey(t, g)) then Step(t, [PrivateReply(SetupFirstReply)])
    else
      var (messageId, channelId) := ModelMessage(t, g);
      var delete := if Truthy(messageId) && Truthy(channelId)
        then [TryDeleteMessage(channelId.value, messageId.value)] else [];
      Step(
        WithModelMessage(t, g, newMessage, channel),
        delete + [ShowSelector(RenderSelector(Model(t, g)))])
  }

  // ---- SetupView.select_model (bot.py:175-181) ----

  function SelectModelStep(t: Table, g: int, channel: int, newMessage: int): Step
  {
    if !KeyPresent(ApiKey(t, g)) then Step(t, [PrivateReply(SetKeyFirstReply)])
    else ModelStep(t, g, channel, newMessage)
  }

  // ---- /ask (bot.py:218-244) ----

  function AskStep(t: Table, g: int, prompt: string, outcome: Completion, rejection: Option<string>): Step
  {
    var key := ApiKey(t, g);
    if !KeyPresent(key) then Step(t, [PrivateReply(SetupFirstReply)])
    else Step(t, [Defer, Complete(key.value, Model(t, g), prompt)] + FollowUps(Relayed(outcome, rejection)))
  }

  // ---- on_message (bot.py:265-296) ----

  /**
   * Nothing for a message that does not trigger. In a direct message
   * `message.guild.id` raises and the handler stops. Otherwise the key
   * gate, then one completion on the stripped text, empty or not.
   */
  function MessageStep(t: Table, botId: nat, m: Message, outcome: Completion, rejection: Option<string>): Step
  {
    if !Triggers(m, botId) || m.guild.None? then Step(t, [])
    else
      var key := ApiKey(t, m.guild.value);
      if !KeyPresent(key) then Step(t, [ReplyToMessage(SetupFirstReply)])
      else Step(t,
        [Complete(key.value, Model(t, m.guild.value), StripMention(m.content, botId))] +
        Replies(Relayed(outcome, rejection)))
  }

  // ---- All inbound events ----

  datatype Inbound =
    | Ready(guilds: seq<Guild>)
    | SetupCmd
    | ApiKeyCmd
    | SetKeyClick
    | KeySubmit(guild: int, channel: int, value: string, test: Completion)
    | SelectModelClick(guild: int, channel: int, newMessage: int)
    | ModelCmd(guild: int, channel: int, newMessage: int)
    | AskCmd(guild: int, prompt: string, outcome: Completion, rejection: Option<string>)
    | ModelButtonClick(guild: int, customId: string)
    | MessageCreate(message: Message, outcome: Completion, rejection: Option<string>)

  /** The handler each event reaches. */
  function Dispatch(t: Table, botId: nat, e: Inbound): Step
  {
    match e
    case Ready(gs) => Step(t, ReadyActions(t, gs))
    case SetupCmd => Step(t, [ShowSetupPanel])
    case ApiKeyCmd => Step(t, [ShowKeyPanel])
    case SetKeyClick => Step(t, [OpenKeyForm])
    case KeySubmit(g, ch, value, test) => SubmitKeyStep(t, g, ch, value, test)
    case SelectModelClick(g, ch, msg) => SelectModelStep(t, g, ch, msg)
    case ModelCmd(g, ch, msg) => ModelStep(t, g, ch, msg)
    case AskCmd(g, prompt, outcome, rejection) => AskStep(t, g, prompt, outcome, rejection)
    case ModelButtonClick(g, id) => ButtonStep(t, g, id)
    case MessageCreate(m, outcome, rejection) => MessageStep(t, botId, m, outcome, rejection)
  }

  /** Events handled one after another, each to completion. */
  function Run(t: Table, botId: nat, es: seq<Inbound>): Step
    decreases |es|
  {
    if |es| == 0 then Step(t, [])
    else
      var first := Dispatch(t, botId, es[0]);
      var rest := Run(first.table, botId, es[1..]);
      Step(rest.table, first.actions + rest.actions)
  }
}
