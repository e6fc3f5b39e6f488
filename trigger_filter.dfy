/** The decision at the top of the `messageCreate` handler (index.js:43-64):
    whether a chat message starts an upload, and which attachment is sent. */
module TriggerFilter {
  import opened Wrappers

  /** An attachment; `name` is `None` when the attachment's name is not a string. */
  datatype Attachment = Attachment(name: Option<string>, url: string)

  /** The parts of a chat message the handler looks at, attachments in order. */
  datatype Message = Message(
    hasGuild: bool,
    authorBot: bool,
    hasWebhookId: bool,
    attachments: seq<Attachment>)

  const ReplayExtension: string := ".hbr2"

  /** `toLowerCase` restricted to ASCII letters. */
  function AsciiLower(c: char): (r: char)
    ensures 'A' <= c <= 'Z' ==> r as int == c as int + 32
    ensures !('A' <= c <= 'Z') ==> r == c
  {
    if 'A' <= c <= 'Z' then (c as int + 32) as char else c
  }

  /** Lower-casing a string: same length, each upper-case ASCII letter
      replaced by its lower-case letter, and every other character kept. */
  function Lower(s: string): (r: string)
    ensures |r| == |s|
    ensures forall i :: 0 <= i < |r| ==> !('A' <= r[i] <= 'Z')
    ensures forall i :: 0 <= i < |s| && 'A' <= s[i] <= 'Z' ==> r[i] as int == s[i] as int + 32
    ensures forall i :: 0 <= i < |s| && !('A' <= s[i] <= 'Z') ==> r[i] == s[i]
  {
    seq(|s|, i requires 0 <= i < |s| => AsciiLower(s[i]))
  }

  predicate EndsWith(s: string, suffix: string)
  {
    |suffix| <= |s| && s[|s| - |suffix|..] == suffix
  }

  /** The attachment test: the name is a string, and lower-cased it ends in
      the replay extension. */
  predicate IsReplayName(name: Option<string>)
    ensures IsReplayName(name) ==> name.Some? && |name.value| >= |ReplayExtension|
  {
    name.Some? && EndsWith(Lower(name.value), ReplayExtension)
  }

  /** The origin checks: in a guild, and not a bot unless it is a webhook. */
  predicate PassesOrigin(m: Message)
    ensures PassesOrigin(m) <==> m.hasGuild && (m.authorBot ==> m.hasWebhookId)
  {
    m.hasGuild && !(m.authorBot && !m.hasWebhookId)
  }

  /** The `find` over the attachments: the first one with a replay name. */
  function FirstReplay(atts: seq<Attachment>): (r: Option<Attachment>)
    ensures r.None? <==> forall i :: 0 <= i < |atts| ==> !IsReplayName(atts[i].name)
    ensures r.Some? ==> exists i :: 0 <= i < |atts| && atts[i] == r.value && IsReplayName(atts[i].name)
                                    && forall j :: 0 <= j < i ==> !IsReplayName(atts[j].name)
  {
    if |atts| == 0 then None
    else if IsReplayName(atts[0].name) then Some(atts[0])
    else
      var rest := FirstReplay(atts[1..]);
      assert forall i :: 1 <= i < |atts| ==> atts[i] == atts[1..][i - 1];
      rest
  }

  /** The whole filter: `None` when the handler returns without uploading. */
  function SelectReplay(m: Message): (r: Option<Attachment>)
    ensures r.Some? ==> IsReplayName(r.value.name)
    ensures r.Some? <==> PassesOrigin(m) && exists i :: 0 <= i < |m.attachments| && IsReplayName(m.attachments[i].name)
    ensures r.Some? ==> exists i :: 0 <= i < |m.attachments| && m.attachments[i] == r.value
                                    && IsReplayName(m.attachments[i].name)
                                    && forall j :: 0 <= j < i ==> !IsReplayName(m.attachments[j].name)
  {
    if !m.hasGuild then None
    else if m.authorBot && !m.hasWebhookId then None
    else if |m.attachments| == 0 then None
    else FirstReplay(m.attachments)
  }

  /** A replay name is one whose last five characters are '.', 'h' or 'H',
      'b' or 'B', 'r' or 'R', and '2'. */
  lemma ReplayNameCharacterisation(n: string)
    ensures IsReplayName(Some(n)) <==>
      && |n| >= 5
      && n[|n| - 5] == '.'
      && (n[|n| - 4] == 'h' || n[|n| - 4] == 'H')
      && (n[|n| - 3] == 'b' || n[|n| - 3] == 'B')
      && (n[|n| - 2] == 'r' || n[|n| - 2] == 'R')
      && n[|n| - 1] == '2'
  {
  }

  /** Examples: "Game.HBR2" is a replay, "game.hbr2x" and a non-string name are not. */
  lemma ReplayNameExamples()
    ensures IsReplayName(Some("Game.HBR2"))
    ensures !IsReplayName(Some("game.hbr2x"))
    ensures !IsReplayName(Some("hbr2"))
    ensures !IsReplayName(None)
  {
    ReplayNameCharacterisation("Game.HBR2");
    ReplayNameCharacterisation("game.hbr2x");
    ReplayNameCharacterisation("hbr2");
  }

  /** The origin rules: a message outside a guild, or from a bot that is not a
      webhook, is rejected whatever it carries; a webhook message passes even
      when its author is flagged as a bot. */
  lemma OriginRules(m: Message)
    ensures !m.hasGuild ==> SelectReplay(m).None?
    ensures m.authorBot && !m.hasWebhookId ==> SelectReplay(m).None?
    ensures m.hasGuild && m.authorBot && m.hasWebhookId ==>
      SelectReplay(m) == SelectReplay(m.(authorBot := false))
  {
  }

  /** No attachments, no upload. */
  lemma NoAttachmentsNoUpload(m: Message)
    requires |m.attachments| == 0
    ensures SelectReplay(m).None?
  {
  }

  /** The choice depends only on the order of the names: putting non-replay
      attachments in front of a list does not change the one chosen. */
  lemma {:induction false} FirstReplaySkipsPrefix(skipped: seq<Attachment>, atts: seq<Attachment>)
    requires forall i :: 0 <= i < |skipped| ==> !IsReplayName(skipped[i].name)
    ensures FirstReplay(skipped + atts) == FirstReplay(atts)
    decreases |skipped|
  {
    if |skipped| > 0 {
      assert (skipped + atts)[1..] == skipped[1..] + atts;
      FirstReplaySkipsPrefix(skipped[1..], atts);
    } else {
      assert skipped + atts == atts;
    }
  }

}
