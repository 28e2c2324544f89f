/**
 * The mention trigger of `on_message` (bot.py:265-280): which messages wake
 * the bot, and how the bot's own mention is cut out of the text before it
 * is sent on. Python's `str.replace` and `str.strip` are written out here
 * because the behaviour of the handler depends on their exact semantics.
 */
module Mentions {
  import opened Wrappers

  /** One entry of `message.mentions`, with the two attributes the handler reads. */
  datatype Mention = Mention(user: int, everyone: bool, role: bool)

  /** What `on_message` reads of a message. `guild` is None in a direct message. */
  datatype Message = Message(
    authorIsBot: bool,
    guild: Option<int>,
    mentions: seq<Mention>,
    content: string)

  /** `user in mentions`: users compare by id. */
  function MentionsUser(ms: seq<Mention>, user: int): (r: bool)
    ensures r <==> exists i :: 0 <= i < |ms| && ms[i].user == user
  {
    if |ms| == 0 then false
    else ms[0].user == user || MentionsUser(ms[1..], user)
  }

  /** `any(mention.everyone or mention.role for mention in mentions)`. */
  function AnyBroadcast(ms: seq<Mention>): (r: bool)
    ensures r <==> exists i :: 0 <= i < |ms| && (ms[i].everyone || ms[i].role)
  {
    if |ms| == 0 then false
    else ms[0].everyone || ms[0].role || AnyBroadcast(ms[1..])
  }

  /** A message triggers the bot: not from a bot, the bot is mentioned, and no mention is an @everyone or role mention. */
  predicate Triggers(m: Message, botId: int)
    ensures Triggers(m, botId) <==>
      && !m.authorIsBot
      && (exists i :: 0 <= i < |m.mentions| && m.mentions[i].user == botId)
      && (forall i :: 0 <= i < |m.mentions| ==> !m.mentions[i].everyone && !m.mentions[i].role)
  {
    !m.authorIsBot && MentionsUser(m.mentions, botId) && !AnyBroadcast(m.mentions)
  }

  // ---- The mention token `<@ID>` ----

  /** `str(n)` for a natural number: its decimal digits, most significant first. */
  function Decimal(n: nat): (s: string)
    ensures |s| > 0
    ensures forall i :: 0 <= i < |s| ==> '0' <= s[i] <= '9'
    ensures s[0] == '0' <==> n == 0
  {
    var last := ('0' as int + n % 10) as char;
    if n < 10 then [last] else Decimal(n / 10) + [last]
  }

  /** The number a string of decimal digits denotes, most significant first. */
  function DigitsValue(s: string): int
  {
    if |s| == 0 then 0 else 10 * DigitsValue(s[..|s| - 1]) + (s[|s| - 1] as int - '0' as int)
  }

  /** `Decimal` writes exactly `n`: read back as digits it denotes `n`. */
  lemma {:induction false} DecimalValue(n: nat)
    ensures DigitsValue(Decimal(n)) == n
  {
    var s := Decimal(n);
    if n >= 10 {
      DecimalValue(n / 10);
      assert s[..|s| - 1] == Decimal(n / 10);
    }
  }

  /** `f'<@{bot.user.id}>'`. */
  function MentionToken(botId: nat): (tok: string)
    ensures |tok| >= 4 && tok[0] == '<' && tok[|tok| - 1] == '>'
  {
    "<@" + Decimal(botId) + ">"
  }

  // ---- `s.replace(tok, '')` ----

  /** `tok` occurs in `s` starting at index `i`. */
  predicate OccursAt(s: string, tok: string, i: int)
  {
    0 <= i && i + |tok| <= |s| && s[i..i + |tok|] == tok
  }

  /**
   * `s.replace(tok, '')` for a non-empty `tok`: one left-to-right scan that
   * drops each occurrence it meets and resumes after it, so occurrences
   * never overlap and text that becomes a new occurrence is kept.
   */
  function RemoveAll(s: string, tok: string): (r: string)
    requires |tok| > 0
    ensures |r| <= |s|
    decreases |s|
  {
    if |s| < |tok| then s
    else if s[..|tok|] == tok then RemoveAll(s[|tok|..], tok)
    else [s[0]] + RemoveAll(s[1..], tok)
  }

  lemma {:induction false} RemoveAllNoOccurrence(s: string, tok: string)
    requires |tok| > 0
    requires forall i :: !OccursAt(s, tok, i)
    ensures RemoveAll(s, tok) == s
    decreases |s|
  {
    if |s| >= |tok| {
      assert !OccursAt(s, tok, 0);
      assert s[..|tok|] != tok by { assert s[0..|tok|] == s[..|tok|]; }
      forall i ensures !OccursAt(s[1..], tok, i) {
        if OccursAt(s[1..], tok, i) {
          assert s[1..][i..i + |tok|] == s[i + 1..i + 1 + |tok|];
          assert OccursAt(s, tok, i + 1);
        }
      }
      RemoveAllNoOccurrence(s[1..], tok);
      assert s == [s[0]] + s[1..];
    }
  }

  lemma RemoveAllLeadingToken(tok: string, s: string)
    requires |tok| > 0
    ensures RemoveAll(tok + s, tok) == RemoveAll(s, tok)
  {
  }

  /** An occurrence of `tok` at `i + 1` in `a + tok` is one at `i` in `a[1..] + tok`. */
  lemma ShiftedOccurrence(a: string, tok: string, i: int)
    requires |a| > 0 && 0 <= i
    requires OccursAt(a[1..] + tok, tok, i)
    ensures OccursAt(a + tok, tok, i + 1)
  {
    assert (a + tok)[1..] == a[1..] + tok;
    assert (a + tok)[i + 1..i + 1 + |tok|] == (a[1..] + tok)[i..i + |tok|];
  }

  lemma {:induction false} RemoveAllKeepsPrefix(a: string, tok: string, b: string)
    requires |tok| > 0
    requires forall i :: 0 <= i < |a| ==> !OccursAt(a + tok, tok, i)
    ensures RemoveAll(a + tok + b, tok) == a + RemoveAll(b, tok)
    decreases |a|
  {
    var s := a + tok + b;
    if |a| == 0 {
      assert s == tok + b;
      RemoveAllLeadingToken(tok, b);
    } else {
      assert !OccursAt(a + tok, tok, 0);
      assert s[..|tok|] == (a + tok)[0..|tok|];
      assert RemoveAll(s, tok) == [s[0]] + RemoveAll(s[1..], tok);
      assert s[1..] == a[1..] + tok + b;
      forall i | 0 <= i < |a[1..]| ensures !OccursAt(a[1..] + tok, tok, i) {
        if OccursAt(a[1..] + tok, tok, i) {
          ShiftedOccurrence(a, tok, i);
        }
      }
      RemoveAllKeepsPrefix(a[1..], tok, b);
      assert a == [a[0]] + a[1..];
    }
  }

  /**
   * The scan removes the first occurrence and goes on after it: when no
   * occurrence of `tok` starts inside `a`, even one running into the `tok`
   * that follows, `a` is kept, that `tok` is dropped and `b` is scanned on
   * its own.
   */
  lemma RemoveAllFirstOccurrence(a: string, tok: string, b: string)
    requires |tok| > 0
    requires forall i :: 0 <= i < |a| ==> !OccursAt(a + tok, tok, i)
    ensures RemoveAll(a + tok + b, tok) == a + RemoveAll(b, tok)
    ensures RemoveAll(a + tok + b, tok) == RemoveAll(a, tok) + RemoveAll(b, tok)
  {
    RemoveAllKeepsPrefix(a, tok, b);
    forall i ensures !OccursAt(a, tok, i) {
      if 0 <= i && i + |tok| <= |a| {
        assert !OccursAt(a + tok, tok, i);
        assert (a + tok)[i..i + |tok|] == a[i..i + |tok|];
      }
    }
    RemoveAllNoOccurrence(a, tok);
  }

  // ---- `s.strip()` ----

  /** Python's `str.isspace` for one character. */
  predicate IsSpace(c: char)
  {
    || ('\U{0009}' <= c <= '\U{000D}')
    || ('\U{001C}' <= c <= '\U{0020}')
    || c == '\U{0085}' || c == '\U{00A0}' || c == '\U{1680}'
    || ('\U{2000}' <= c <= '\U{200A}')
    || c == '\U{2028}' || c == '\U{2029}' || c == '\U{202F}' || c == '\U{205F}' || c == '\U{3000}'
  }

  /** Neither end of `s` is whitespace. */
  predicate Trimmed(s: string)
  {
    s == [] || (!IsSpace(s[0]) && !IsSpace(s[|s| - 1]))
  }

  /** The number of whitespace characters `s` starts with. */
  function LeadingSpaces(s: string): (k: nat)
    ensures k <= |s|
    ensures forall i :: 0 <= i < k ==> IsSpace(s[i])
    ensures k < |s| ==> !IsSpace(s[k])
  {
    if |s| == 0 || !IsSpace(s[0]) then 0 else 1 + LeadingSpaces(s[1..])
  }

  /** The number of whitespace characters `s` ends with. */
  function TrailingSpaces(s: string): (k: nat)
    ensures k <= |s|
    ensures forall i :: |s| - k <= i < |s| ==> IsSpace(s[i])
    ensures k < |s| ==> !IsSpace(s[|s| - 1 - k])
  {
    if |s| == 0 || !IsSpace(s[|s| - 1]) then 0 else 1 + TrailingSpaces(s[..|s| - 1])
  }

  /**
   * `s.strip()`: the slice of `s` left after dropping whitespace at both
   * ends. The two ensures determine the result uniquely.
   */
  function Strip(s: string): (r: string)
    ensures exists i, j ::
              && 0 <= i <= j <= |s| && r == s[i..j]
              && (forall k :: 0 <= k < i ==> IsSpace(s[k]))
              && (forall k :: j <= k < |s| ==> IsSpace(s[k]))
    ensures Trimmed(r)
  {
    var i := LeadingSpaces(s);
    var j := |s| - TrailingSpaces(s[i..]);
    s[i..j]
  }

  lemma StripTrimmed(s: string)
    requires Trimmed(s)
    ensures Strip(s) == s
    ensures Strip([' '] + s) == s
  {
  }

  // ---- `message.content.replace(f'<@{bot.user.id}>', '').strip()` ----

  function StripMention(content: string, botId: nat): (r: string)
    ensures Trimmed(r)
    ensures |r| <= |content|
  {
    Strip(RemoveAll(content, MentionToken(botId)))
  }

  /** A message that is exactly the bot's mention leaves the empty prompt. */
  lemma BareMentionIsEmpty(botId: nat)
    ensures StripMention(MentionToken(botId), botId) == ""
  {
  }

  /** "<@ID> question" becomes "question" when the question has no mention of its own and no whitespace at its ends. */
  lemma LeadingMentionStripped(botId: nat, text: string)
    requires Trimmed(text)
    requires forall i :: !OccursAt(text, MentionToken(botId), i)
    ensures StripMention(MentionToken(botId) + [' '] + text, botId) == text
  {
    var tok := MentionToken(botId);
    var rest := [' '] + text;
    assert tok + [' '] + text == tok + rest;
    RemoveAllLeadingToken(tok, rest);
    forall i ensures !OccursAt(rest, tok, i) {
      if i > 0 && OccursAt(rest, tok, i) {
        assert rest[i..i + |tok|] == text[i - 1..i - 1 + |tok|];
        assert OccursAt(text, tok, i - 1);
      }
    }
    RemoveAllNoOccurrence(rest, tok);
    StripTrimmed(text);
  }

  /** The scan is single-pass: removing the token can leave a new one behind. */
  lemma RemovalIsSinglePass()
    ensures RemoveAll("<@<@1>1>", MentionToken(1)) == MentionToken(1)
  {
  }
}
