/**
 * What the handlers guarantee, alone and in sequence, given the
 * replace-the-whole-row behaviour of the settings table.
 */
module Properties {
  import opened Wrappers
  import opened Settings
  import opened Selector
  import opened Mentions
  import opened Welcome
  import opened Handlers

  /** Two events in a row. */
  lemma RunTwo(t: Table, botId: nat, e1: Inbound, e2: Inbound)
    ensures var s1 := Dispatch(t, botId, e1);
      var s2 := Dispatch(s1.table, botId, e2);
      Run(t, botId, [e1, e2]) == Step(s2.table, s1.actions + s2.actions)
  {
    var es := [e1, e2];
    assert es[1..] == [e2];
    assert es[1..][1..] == [];
    var s1 := Dispatch(t, botId, e1);
    var s2 := Dispatch(s1.table, botId, e2);
    assert Run(s2.table, botId, []) == Step(s2.table, []);
    assert Run(s1.table, botId, [e2]) == Step(s2.table, s2.actions + []);
    assert s2.actions + [] == s2.actions;
  }

  // ---- The key gate ----

  /** Without a usable key the four gated paths reply with a setup hint, call nothing and write nothing. */
  lemma SetupGate(t: Table, g: int, channel: int, newMessage: int, prompt: string,
                  outcome: Completion, rejection: Option<string>, botId: nat, m: Message)
    requires !KeyPresent(ApiKey(t, g))
    ensures SelectModelStep(t, g, channel, newMessage) == Step(t, [PrivateReply(SetKeyFirstReply)])
    ensures ModelStep(t, g, channel, newMessage) == Step(t, [PrivateReply(SetupFirstReply)])
    ensures AskStep(t, g, prompt, outcome, rejection) == Step(t, [PrivateReply(SetupFirstReply)])
    ensures Triggers(m, botId) && m.guild == Some(g) ==>
      MessageStep(t, botId, m, outcome, rejection) == Step(t, [ReplyToMessage(SetupFirstReply)])
  {
  }

  /** /ask calls the completion service iff a key is stored, and then with that key, the stored model and the prompt. */
  lemma AskCompletion(t: Table, g: int, prompt: string, outcome: Completion, rejection: Option<string>)
    ensures AskStep(t, g, prompt, outcome, rejection).table == t
    ensures HasCompletion(AskStep(t, g, prompt, outcome, rejection).actions) <==> KeyPresent(ApiKey(t, g))
    ensures forall a :: a in AskStep(t, g, prompt, outcome, rejection).actions && a.Complete? ==>
      ApiKey(t, g) == Some(a.key) && a.model == Model(t, g) && a.prompt == prompt
  {
    var acts := AskStep(t, g, prompt, outcome, rejection).actions;
    if KeyPresent(ApiKey(t, g)) {
      assert acts[1].Complete?;
    }
  }

  /** A message leads to a completion iff it triggers, comes from a guild, and that guild has a key; the prompt is the stripped text. */
  lemma MessageCompletion(t: Table, botId: nat, m: Message, outcome: Completion, rejection: Option<string>)
    ensures MessageStep(t, botId, m, outcome, rejection).table == t
    ensures HasCompletion(MessageStep(t, botId, m, outcome, rejection).actions) <==>
      Triggers(m, botId) && m.guild.Some? && KeyPresent(ApiKey(t, m.guild.value))
    ensures forall a :: a in MessageStep(t, botId, m, outcome, rejection).actions && a.Complete? ==>
      && m.guild.Some? && ApiKey(t, m.guild.value) == Some(a.key)
      && a.model == Model(t, m.guild.value) && a.prompt == StripMention(m.content, botId)
  {
    var acts := MessageStep(t, botId, m, outcome, rejection).actions;
    if Triggers(m, botId) && m.guild.Some? && KeyPresent(ApiKey(t, m.guild.value)) {
      assert acts[0].Complete?;
    }
  }

  /** A message that is only the bot's mention still goes to the completion service, with the empty prompt. */
  lemma BareMentionStillCompletes(t: Table, botId: nat, m: Message, outcome: Completion, rejection: Option<string>)
    requires Triggers(m, botId) && m.guild.Some? && KeyPresent(ApiKey(t, m.guild.value))
    requires m.content == MentionToken(botId)
    ensures MessageStep(t, botId, m, outcome, rejection).actions ==
      [Complete(ApiKey(t, m.guild.value).value, Model(t, m.guild.value), "")] + Replies(Relayed(outcome, rejection))
  {
  }

  /**
   * After the completion call, /ask and the mention handler send the answer;
   * when Discord rejects that send (an answer over its length limit, say)
   * the except clause sends "Error: " and the rejection as well. A failed
   * completion is reported once, and nothing else is sent.
   */
  lemma RelayOutcomes(t: Table, g: int, prompt: string, content: string, error: string,
                      rejection: Option<string>, botId: nat, m: Message)
    requires KeyPresent(ApiKey(t, g))
    ensures var call := Complete(ApiKey(t, g).value, Model(t, g), prompt);
      && AskStep(t, g, prompt, Answer(content), None).actions == [Defer, call, FollowUp(content)]
      && (rejection.Some? ==>
            AskStep(t, g, prompt, Answer(content), rejection).actions ==
            [Defer, call, FollowUp(content), FollowUp(ErrorPrefix + rejection.value)])
      && AskStep(t, g, prompt, Raised(error), rejection).actions == [Defer, call, FollowUp(ErrorPrefix + error)]
    ensures Triggers(m, botId) && m.guild == Some(g) ==>
      var call := Complete(ApiKey(t, g).value, Model(t, g), StripMention(m.content, botId));
      && MessageStep(t, botId, m, Answer(content), None).actions == [call, ReplyToMessage(content)]
      && (rejection.Some? ==>
            MessageStep(t, botId, m, Answer(content), rejection).actions ==
            [call, ReplyToMessage(content), ReplyToMessage(ErrorPrefix + rejection.value)])
      && MessageStep(t, botId, m, Raised(error), rejection).actions == [call, ReplyToMessage(ErrorPrefix + error)]
  {
  }

  // ---- /model and the selector buttons ----

  /**
   * With a key, /model deletes the recorded selector exactly when both of
   * its ids are truthy, shows a selector for the current model and records
   * the new message; the row is replaced, so the key is gone afterwards
   * and the model reads as the default.
   */
  lemma ModelCommandEffects(t: Table, g: int, channel: int, newMessage: int)
    requires KeyPresent(ApiKey(t, g))
    ensures var s := ModelStep(t, g, channel, newMessage);
      && ModelMessage(s.table, g) == (Some(newMessage), Some(channel))
      && ApiKey(s.table, g) == None
      && Model(s.table, g) == DefaultModel
      && s.table - {g} == t - {g}
      && 0 < |s.actions| <= 2 && s.actions[|s.actions| - 1] == ShowSelector(RenderSelector(Model(t, g)))
      && ((exists i :: 0 <= i < |s.actions| && s.actions[i].TryDeleteMessage?) <==>
         Truthy(ModelMessage(t, g).0) && Truthy(ModelMessage(t, g).1))
      && forall i :: 0 <= i < |s.actions| && s.actions[i].TryDeleteMessage? ==>
         s.actions[i] == TryDeleteMessage(ModelMessage(t, g).1.value, ModelMessage(t, g).0.value)
  {
    var s := ModelStep(t, g, channel, newMessage);
    var (messageId, channelId) := ModelMessage(t, g);
    var shown := ShowSelector(RenderSelector(Model(t, g)));
    if Truthy(messageId) && Truthy(channelId) {
      assert s.actions == [TryDeleteMessage(channelId.value, messageId.value), shown];
      assert s.actions[0].TryDeleteMessage?;
    } else {
      assert s.actions == [shown];
    }
  }

  /**
   * A click stores the clicked model and redraws the same message with that
   * model highlighted; it records no new selector message, and since the
   * row is replaced the key and the recorded selector are both gone.
   */
  lemma ButtonCallbackEffects(t: Table, g: int, customId: string)
    ensures var s := ButtonStep(t, g, customId);
      && Model(s.table, g) == customId
      && ApiKey(s.table, g) == None
      && ModelMessage(s.table, g) == (None, None)
      && s.table - {g} == t - {g}
      && |s.actions| == 2
      && s.actions[0] == PrivateReply(ModelChangedPrefix + customId)
      && s.actions[1].EditSelector?
      && (forall b :: b in s.actions[1].buttons ==> (Highlighted(b) <==> b.customId == customId))
      && forall a :: a in s.actions ==> !a.ShowSelector? && !a.Complete?
  {
  }

  /** After /model or a selector click, the guild has no usable key. */
  lemma KeyErasedByModelWrites(t: Table, g: int, channel: int, newMessage: int, customId: string)
    ensures !KeyPresent(ApiKey(ModelStep(t, g, channel, newMessage).table, g))
    ensures !KeyPresent(ApiKey(SelectModelStep(t, g, channel, newMessage).table, g))
    ensures !KeyPresent(ApiKey(ButtonStep(t, g, customId).table, g))
  {
  }

  /** /model followed by /ask in the same guild: the /ask takes the setup branch, and neither calls the completion service. */
  lemma ModelThenAskNeedsSetup(t: Table, botId: nat, g: int, channel: int, newMessage: int,
                               prompt: string, outcome: Completion, rejection: Option<string>)
    ensures var r := Run(t, botId, [ModelCmd(g, channel, newMessage), AskCmd(g, prompt, outcome, rejection)]);
      && r.actions[|r.actions| - 1] == PrivateReply(SetupFirstReply)
      && !HasCompletion(r.actions)
  {
    var s1 := ModelStep(t, g, channel, newMessage);
    KeyErasedByModelWrites(t, g, channel, newMessage, "");
    var s2 := AskStep(s1.table, g, prompt, outcome, rejection);
    assert s2.actions == [PrivateReply(SetupFirstReply)];
    RunTwo(t, botId, ModelCmd(g, channel, newMessage), AskCmd(g, prompt, outcome, rejection));
    var acts := s1.actions + s2.actions;
    assert !HasCompletion(s1.actions);
    forall i | 0 <= i < |acts| ensures !acts[i].Complete? {
      if i >= |s1.actions| {
        assert acts[i] == s2.actions[i - |s1.actions|];
      }
    }
  }

  // ---- Once the key is gone ----

  /** The event concerns guild `g` (events that carry no guild concern every guild). */
  predicate ForGuild(e: Inbound, g: int)
  {
    match e
    case KeySubmit(h, _, _, _) => h == g
    case SelectModelClick(h, _, _) => h == g
    case ModelCmd(h, _, _) => h == g
    case AskCmd(h, _, _, _) => h == g
    case ModelButtonClick(h, _) => h == g
    case MessageCreate(m, _, _) => m.guild.None? || m.guild == Some(g)
    case _ => true
  }

  lemma DispatchWithoutKey(t: Table, botId: nat, g: int, e: Inbound)
    requires !KeyPresent(ApiKey(t, g))
    requires ForGuild(e, g) && !e.KeySubmit?
    ensures !KeyPresent(ApiKey(Dispatch(t, botId, e).table, g))
    ensures !HasCompletion(Dispatch(t, botId, e).actions)
  {
  }

  /**
   * A guild without a usable key stays without one, and makes no completion
   * call, through any sequence of its own events that submits no key.
   */
  lemma {:induction false} NoCompletionUntilKeySubmitted(t: Table, botId: nat, g: int, es: seq<Inbound>)
    requires !KeyPresent(ApiKey(t, g))
    requires forall i :: 0 <= i < |es| ==> ForGuild(es[i], g) && !es[i].KeySubmit?
    ensures !KeyPresent(ApiKey(Run(t, botId, es).table, g))
    ensures !HasCompletion(Run(t, botId, es).actions)
    decreases |es|
  {
    if |es| > 0 {
      var first := Dispatch(t, botId, es[0]);
      DispatchWithoutKey(t, botId, g, es[0]);
      NoCompletionUntilKeySubmitted(first.table, botId, g, es[1..]);
      var rest := Run(first.table, botId, es[1..]);
      assert Run(t, botId, es).actions == first.actions + rest.actions;
      forall i | 0 <= i < |first.actions + rest.actions|
        ensures !(first.actions + rest.actions)[i].Complete?
      {
        if i >= |first.actions| {
          assert (first.actions + rest.actions)[i] == rest.actions[i - |first.actions|];
        }
      }
    }
  }

  // ---- Key submission ----

  /** The key stays stored whatever the test call does; the rest of the row is reset. */
  lemma SubmitKeyEffects(t: Table, g: int, channel: int, value: string, test: Completion)
    ensures var s := SubmitKeyStep(t, g, channel, value, test);
      && ApiKey(s.table, g) == Some(value)
      && Model(s.table, g) == DefaultModel
      && ModelMessage(s.table, g) == (None, None)
      && s.table - {g} == t - {g}
      && s.actions[0] == Complete(value, ChatModel, KeyTestPrompt)
      && (test.Raised? ==> s.actions == [Complete(value, ChatModel, KeyTestPrompt), PrivateReply(KeyTestErrorPrefix + test.error)])
  {
  }

  /** A submitted non-empty key is used by the next /ask, with the default model. */
  lemma SubmitKeyThenAsk(t: Table, botId: nat, g: int, channel: int, value: string, test: Completion,
                         prompt: string, outcome: Completion, rejection: Option<string>)
    requires value != ""
    ensures Run(t, botId, [KeySubmit(g, channel, value, test), AskCmd(g, prompt, outcome, rejection)]).actions ==
      SubmitKeyStep(t, g, channel, value, test).actions +
      [Defer, Complete(value, DefaultModel, prompt)] + FollowUps(Relayed(outcome, rejection))
  {
    RunTwo(t, botId, KeySubmit(g, channel, value, test), AskCmd(g, prompt, outcome, rejection));
  }

  // ---- on_ready ----

  /** Exactly the welcomes of the individual guilds: each guild with a channel and no key gets one, in that channel. */
  lemma {:induction false} ReadyActionsExact(t: Table, gs: seq<Guild>)
    ensures forall a :: a in ReadyActions(t, gs) <==> exists i :: 0 <= i < |gs| && a in GuildWelcome(t, gs[i])
    decreases |gs|
  {
    if |gs| > 0 {
      var init := gs[..|gs| - 1];
      ReadyActionsExact(t, init);
      forall a ensures a in ReadyActions(t, gs) <==> exists i :: 0 <= i < |gs| && a in GuildWelcome(t, gs[i]) {
        if a in ReadyActions(t, init) {
          var i :| 0 <= i < |init| && a in GuildWelcome(t, init[i]);
          assert gs[i] == init[i];
        }
        if exists i :: 0 <= i < |gs| && a in GuildWelcome(t, gs[i]) {
          var i :| 0 <= i < |gs| && a in GuildWelcome(t, gs[i]);
          if i < |init| {
            assert gs[i] == init[i];
          }
        }
      }
    }
  }

  /** `on_ready` keeps no record of welcomes sent: a second run sends them all again. */
  lemma ReadyTwiceWelcomesTwice(t: Table, botId: nat, gs: seq<Guild>)
    ensures Run(t, botId, [Ready(gs), Ready(gs)]).actions == ReadyActions(t, gs) + ReadyActions(t, gs)
  {
    RunTwo(t, botId, Ready(gs), Ready(gs));
  }

  // ---- The stale-selector deletion of /model ----

  /** No attempt to delete an earlier selector message. */
  predicate NoSelectorDeletion(acts: seq<Action>)
  {
    forall a :: a in acts ==> !a.TryDeleteMessage?
  }

  /** /model passes its gate only with a key, and then the row has no selector id to delete. */
  lemma ModelStepKeepsKeyExcludesSelector(t: Table, g: int, channel: int, newMessage: int)
    requires KeyExcludesSelector(t)
    ensures KeyExcludesSelector(ModelStep(t, g, channel, newMessage).table)
    ensures NoSelectorDeletion(ModelStep(t, g, channel, newMessage).actions)
  {
  }

  lemma DispatchKeepsKeyExcludesSelector(t: Table, botId: nat, e: Inbound)
    requires KeyExcludesSelector(t)
    ensures KeyExcludesSelector(Dispatch(t, botId, e).table)
  {
    var s := Dispatch(t, botId, e);
    match e
    case KeySubmit(g, ch, value, test) =>
      assert s == SubmitKeyStep(t, g, ch, value, test);
      SettersKeepKeyExcludesSelector(t, g, value, "", 0, 0);
    case SelectModelClick(g, ch, msg) =>
      assert s == SelectModelStep(t, g, ch, msg);
      ModelStepKeepsKeyExcludesSelector(t, g, ch, msg);
    case ModelCmd(g, ch, msg) =>
      assert s == ModelStep(t, g, ch, msg);
      ModelStepKeepsKeyExcludesSelector(t, g, ch, msg);
    case ModelButtonClick(g, id) =>
      assert s == ButtonStep(t, g, id);
      SettersKeepKeyExcludesSelector(t, g, "", id, 0, 0);
    case AskCmd(g, prompt, outcome, rejection) =>
      assert s == AskStep(t, g, prompt, outcome, rejection);
    case MessageCreate(m, outcome, rejection) =>
      assert s == MessageStep(t, botId, m, outcome, rejection);
    case _ =>
  }

  lemma DispatchNeverDeletesSelector(t: Table, botId: nat, e: Inbound)
    requires KeyExcludesSelector(t)
    ensures NoSelectorDeletion(Dispatch(t, botId, e).actions)
  {
    match e
    case Ready(gs) =>
      var acts := ReadyActions(t, gs);
      assert forall i :: 0 <= i < |acts| ==> acts[i].SendWelcome?;
      assert NoSelectorDeletion(acts);
    case SelectModelClick(g, ch, msg) =>
      ModelStepKeepsKeyExcludesSelector(t, g, ch, msg);
      assert NoSelectorDeletion(SelectModelStep(t, g, ch, msg).actions);
    case ModelCmd(g, ch, msg) =>
      ModelStepKeepsKeyExcludesSelector(t, g, ch, msg);
    case KeySubmit(g, ch, value, test) =>
      assert NoSelectorDeletion(SubmitKeyStep(t, g, ch, value, test).actions);
    case ModelButtonClick(g, id) =>
      assert NoSelectorDeletion(ButtonStep(t, g, id).actions);
    case AskCmd(g, prompt, outcome, rejection) =>
      assert NoSelectorDeletion(AskStep(t, g, prompt, outcome, rejection).actions);
    case MessageCreate(m, outcome, rejection) =>
      assert NoSelectorDeletion(MessageStep(t, botId, m, outcome, rejection).actions);
    case _ =>
  }

  /**
   * Starting from a table where no row holds both a key and a selector id,
   * no sequence of events ever reaches the deletion of a stale selector:
   * /model passes its key gate only with a key, and then the row has no
   * selector id.
   */
  lemma {:induction false} NoStaleSelectorDeletion(t: Table, botId: nat, es: seq<Inbound>)
    requires KeyExcludesSelector(t)
    ensures KeyExcludesSelector(Run(t, botId, es).table)
    ensures NoSelectorDeletion(Run(t, botId, es).actions)
    decreases |es|
  {
    if |es| > 0 {
      var first := Dispatch(t, botId, es[0]);
      DispatchKeepsKeyExcludesSelector(t, botId, es[0]);
      DispatchNeverDeletesSelector(t, botId, es[0]);
      NoStaleSelectorDeletion(first.table, botId, es[1..]);
      var rest := Run(first.table, botId, es[1..]);
      assert Run(t, botId, es).actions == first.actions + rest.actions;
    }
  }

  /** On a freshly created table the stale-selector deletion of /model never runs. */
  lemma FreshTableNeverDeletesSelector(botId: nat, es: seq<Inbound>)
    ensures NoSelectorDeletion(Run(map[], botId, es).actions)
  {
    NoStaleSelectorDeletion(map[], botId, es);
  }
}
