/**
 * The bot object (bot.py, `DeepseekBot` and the handlers registered on it):
 * it owns the `Database` and keeps the trace of outward calls. Each handler
 * reads and writes the store step by step, in the order the source does,
 * and is proved to end in the state its step function describes.
 */
module Bot {
  import opened Wrappers
  import opened Settings
  import opened Selector
  import opened Mentions
  import opened Welcome
  import opened Handlers

  class DeepseekBot {
    const db: Database
    /** `bot.user.id`. */
    const userId: nat
    /** Every Discord and completion-service call made so far, in order. */
    var trace: seq<Action>

    /** `DeepseekBot()` followed by `setup_hook`, which runs `db.init()`. */
    constructor (existing: Option<Table>, userId: nat)
      ensures fresh(db)
      ensures db.created
      ensures db.rows == if existing.Some? then existing.value else map[]
      ensures this.userId == userId && trace == []
    {
      var store := new Database(existing);
      store.Init();
      db := store;
      this.userId := userId;
      trace := [];
    }

    /** `on_ready`: for each guild, choose a channel and welcome it when no key is stored. */
    method OnReady(guilds: seq<Guild>)
      requires db.created
      modifies this`trace
      ensures trace == old(trace) + ReadyActions(db.rows, guilds)
    {
      for n := 0 to |guilds|
        invariant trace == old(trace) + ReadyActions(db.rows, guilds[..n])
      {
        var guild := guilds[n];
        var target := ChooseWelcomeChannel(guild.channels);
        if target.Some? {
          var key := db.GetApiKey(guild.id);
          if !KeyPresent(key) {
            trace := trace + [SendWelcome(guild.id, guild.channels[target.value].id)];
          }
        }
        assert guilds[..n + 1][..n] == guilds[..n];
      }
      assert guilds[..|guilds|] == guilds;
    }

    /** `/setup`. */
    method SetupCommand()
      modifies this`trace
      ensures trace == old(trace) + [ShowSetupPanel]
    {
      trace := trace + [ShowSetupPanel];
    }

    /** `/apikey`. */
    method ApiKeyCommand()
      modifies this`trace
      ensures trace == old(trace) + [ShowKeyPanel]
    {
      trace := trace + [ShowKeyPanel];
    }

    /** The "Set API Key" button of `/setup` and of `/apikey`. */
    method SetKey()
      modifies this`trace
      ensures trace == old(trace) + [OpenKeyForm]
    {
      trace := trace + [OpenKeyForm];
    }

    /** `APIKeyModal.on_submit`: store the key, then test it. */
    method SubmitKey(g: int, channel: int, value: string, test: Completion)
      requires db.created
      modifies this`trace, db`rows
      ensures db.rows == SubmitKeyStep(old(db.rows), g, channel, value, test).table
      ensures trace == old(trace) + SubmitKeyStep(old(db.rows), g, channel, value, test).actions
    {
      db.SetApiKey(g, value);
      trace := trace + [Complete(value, ChatModel, KeyTestPrompt)];
      match test
      case Answer(content) =>
        trace := trace + [PostTestAnswer(channel, content), DeleteTestAnswer(channel), PrivateReply(KeySetReply)];
      case Raised(error) =>
        trace := trace + [PrivateReply(KeyTestErrorPrefix + error)];
    }

    /** `ModelSelect.button_callback` for the button with id `customId`. */
    method ButtonCallback(g: int, customId: string)
      requires db.created
      modifies this`trace, db`rows
      ensures db.rows == ButtonStep(old(db.rows), g, customId).table
      ensures trace == old(trace) + ButtonStep(old(db.rows), g, customId).actions
    {
      var model := customId;
      db.SetModel(g, model);
      trace := trace + [PrivateReply(ModelChangedPrefix + model)];
      trace := trace + [EditSelector(RenderSelector(model))];
    }

    /** `/model`; `newMessage` is the id of the message the reply creates. */
    method ModelCommand(g: int, channel: int, newMessage: int)
      requires db.created
      modifies this`trace, db`rows
      ensures db.rows == ModelStep(old(db.rows), g, channel, newMessage).table
      ensures trace == old(trace) + ModelStep(old(db.rows), g, channel, newMessage).actions
    {
      var key := db.GetApiKey(g);
      if !KeyPresent(key) {
        trace := trace + [PrivateReply(SetupFirstReply)];
        return;
      }
      var messageId, channelId := db.GetModelMessage(g);
      if Truthy(messageId) && Truthy(channelId) {
        trace := trace + [TryDeleteMessage(channelId.value, messageId.value)];
      }
      var current := db.GetModel(g);
      trace := trace + [ShowSelector(RenderSelector(current))];
      db.UpdateModelMessage(g, newMessage, channel);
    }

    /** The "Select Model" button of `/setup`. */
    method SelectModel(g: int, channel: int, newMessage: int)
      requires db.created
      modifies this`trace, db`rows
      ensures db.rows == SelectModelStep(old(db.rows), g, channel, newMessage).table
      ensures trace == old(trace) + SelectModelStep(old(db.rows), g, channel, newMessage).actions
    {
      var key := db.GetApiKey(g);
      if !KeyPresent(key) {
        trace := trace + [PrivateReply(SetKeyFirstReply)];
        return;
      }
      ModelCommand(g, channel, newMessage);
    }

    /**
     * `/ask message`; `outcome` is what the completion call gives back and
     * `rejection` the exception that sending its answer raises, if any.
     */
    method AskCommand(g: int, prompt: string, outcome: Completion, rejection: Option<string>)
      requires db.created
      modifies this`trace
      ensures trace == old(trace) + AskStep(db.rows, g, prompt, outcome, rejection).actions
    {
      var key := db.GetApiKey(g);
      if !KeyPresent(key) {
        trace := trace + [PrivateReply(SetupFirstReply)];
        return;
      }
      trace := trace + [Defer];
      var model := db.GetModel(g);
      trace := trace + [Complete(key.value, model, prompt)];
      match outcome
      case Raised(error) =>
        trace := trace + [FollowUp(ErrorPrefix + error)];
      case Answer(content) =>
        trace := trace + [FollowUp(content)];
        if rejection.Some? {
          trace := trace + [FollowUp(ErrorPrefix + rejection.value)];
        }
    }

    /** `on_message`, with the completion's outcome and the rejection of its reply as in `AskCommand`. */
    method OnMessage(m: Message, outcome: Completion, rejection: Option<string>)
      requires db.created
      modifies this`trace
      ensures trace == old(trace) + MessageStep(db.rows, userId, m, outcome, rejection).actions
    {
      if m.authorIsBot {
        return;
      }
      if MentionsUser(m.mentions, userId) && !AnyBroadcast(m.mentions) {
        if m.guild.None? {
          return;
        }
        var g := m.guild.value;
        var key := db.GetApiKey(g);
        if !KeyPresent(key) {
          trace := trace + [ReplyToMessage(SetupFirstReply)];
          return;
        }
        var model := db.GetModel(g);
        var content := StripMention(m.content, userId);
        trace := trace + [Complete(key.value, model, content)];
        match outcome
        case Raised(error) =>
          trace := trace + [ReplyToMessage(ErrorPrefix + error)];
        case Answer(answer) =>
          trace := trace + [ReplyToMessage(answer)];
          if rejection.Some? {
            trace := trace + [ReplyToMessage(ErrorPrefix + rejection.value)];
          }
      }
    }
  }
}
