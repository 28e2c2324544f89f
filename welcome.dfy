/**
 * Where `on_ready` posts its welcome in one guild (bot.py:28-37): the first
 * text channel named "general", whatever the bot may do there; failing that,
 * the first text channel where the bot may both send messages and embed
 * links; failing that, none.
 */
module Welcome {
  import opened Wrappers

  /** A text channel of the guild, in the guild's order, with the bot's own permissions there. */
  datatype TextChannel = TextChannel(id: int, name: string, canSend: bool, canEmbed: bool)

  predicate IsGeneral(c: TextChannel)
  {
    c.name == "general"
  }

  /** `permissions.send_messages and permissions.embed_links`. */
  predicate CanPost(c: TextChannel)
  {
    c.canSend && c.canEmbed
  }

  /** The index of the first channel satisfying `p`, as `discord.utils.get` finds it. */
  function FirstWhere(cs: seq<TextChannel>, p: TextChannel -> bool): (r: Option<nat>)
    ensures r.Some? ==> r.value < |cs| && p(cs[r.value])
    ensures r.Some? ==> forall j :: 0 <= j < r.value ==> !p(cs[j])
    ensures r.None? ==> forall j :: 0 <= j < |cs| ==> !p(cs[j])
  {
    if |cs| == 0 then None
    else if p(cs[0]) then Some(0)
    else match FirstWhere(cs[1..], p)
      case None => None
      case Some(k) => Some(k + 1)
  }

  /** The index of the channel that gets the welcome, if any. */
  function WelcomeChannel(cs: seq<TextChannel>): (r: Option<nat>)
    ensures r.Some? ==> r.value < |cs|
    ensures (exists i :: 0 <= i < |cs| && IsGeneral(cs[i])) ==>
      && r.Some? && IsGeneral(cs[r.value])
      && forall j :: 0 <= j < r.value ==> !IsGeneral(cs[j])
    ensures (forall i :: 0 <= i < |cs| ==> !IsGeneral(cs[i])) ==>
      && (r.Some? <==> exists i :: 0 <= i < |cs| && CanPost(cs[i]))
      && (r.Some? ==> CanPost(cs[r.value]) && forall j :: 0 <= j < r.value ==> !CanPost(cs[j]))
  {
    var general := FirstWhere(cs, IsGeneral);
    if general.Some? then general else FirstWhere(cs, CanPost)
  }

  /** The search as `on_ready` runs it: a lookup by name, then a loop that stops at the first usable channel. */
  method ChooseWelcomeChannel(cs: seq<TextChannel>) returns (target: Option<nat>)
    ensures target == WelcomeChannel(cs)
  {
    target := FirstWhere(cs, IsGeneral);
    if target.None? {
      for i := 0 to |cs|
        invariant target.None?
        invariant forall j :: 0 <= j < i ==> !CanPost(cs[j])
      {
        if CanPost(cs[i]) {
          target := Some(i);
          break;
        }
      }
    }
  }
}
