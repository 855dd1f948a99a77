/**
 * The `message` handler of discord.js: the gate that decides whether a message is a
 * command for the bot, the first-match keyword dispatch, and the pause/play toggle,
 * as a pure function from the pause map and one message to the reply and the new map.
 */
module Commands {
  import opened Wrappers
  import opened Text
  import opened PauseState

  /** An inbound message, reduced to what the handler reads. */
  datatype Message = Message(
    authorIsBot: bool,          // message.author.bot
    guild: Option<GuildId>,     // message.guild.id; None for a direct message
    mentionsBot: bool,          // message.isMentioned(bot.user)
    content: string,            // message.content
    memberManagesRoles: bool)   // message.member.hasPermission('MANAGE_ROLES')

  /** The commands, in the order the handler tests for them; NotFound when none matches. */
  datatype Command = Help | Guide | Colors | Sets | PauseOrPlay | NotFound

  /** The one embed the bot sends back, named by its title. */
  datatype Reply =
    | HelpPage            // "Rainbow Roles Help"
    | UsageGuide          // "Usage Guide"
    | ColorList           // "Color List"
    | SetList             // "Color Set List"
    | PermissionRequired  // "Permission Required"
    | CyclingStopped      // "Role Cycling Stopped" ... "paused"
    | CyclingStarted      // "Role Cycling Started" ... "resumed"
    | CommandNotFound     // "Command Not Found"

  /** `<@ID>`, the plain mention of the bot account. */
  function MentionToken(botId: string): string { "<@" + botId + ">" }

  /** `<@!ID>`, the nickname mention of the bot account. */
  function NicknameMentionToken(botId: string): string { "<@!" + botId + ">" }

  /** The test of `new RegExp(`<@(!|)${bot.user.id}>`)` against the content. */
  predicate HasMentionToken(content: string, botId: string)
    ensures HasMentionToken(content, botId) <==>
      Occurs(content, MentionToken(botId)) || Occurs(content, NicknameMentionToken(botId))
  {
    ContainsIffOccurs(content, MentionToken(botId));
    ContainsIffOccurs(content, NicknameMentionToken(botId));
    Contains(content, MentionToken(botId)) || Contains(content, NicknameMentionToken(botId))
  }

  /** The four early returns at the top of the handler all pass. */
  predicate Accepts(msg: Message, botId: string)
    ensures Accepts(msg, botId) <==>
      && !msg.authorIsBot
      && msg.guild.Some?
      && msg.mentionsBot
      && (Occurs(msg.content, MentionToken(botId)) || Occurs(msg.content, NicknameMentionToken(botId)))
  {
    && !msg.authorIsBot
    && msg.guild.Some?
    && msg.mentionsBot
    && HasMentionToken(msg.content, botId)
  }

  /** Position of a command in the handler's chain of tests. */
  function Rank(cmd: Command): nat {
    match cmd
    case Help => 0
    case Guide => 1
    case Colors => 2
    case Sets => 3
    case PauseOrPlay => 4
    case NotFound => 5
  }

  /** The content matches the command's own pattern (NotFound has none). */
  predicate Mentions(content: string, cmd: Command) {
    match cmd
    case Help => Contains(content, "help")
    case Guide => Contains(content, "guide")
    case Colors => Contains(content, "colors")
    case Sets => Contains(content, "sets")
    case PauseOrPlay => Contains(content, "pause") || Contains(content, "play")
    case NotFound => false
  }

  /**
   * First match wins: the command chosen matches the content, and no command tested
   * before it does. So `help` beats every other keyword, `guide` beats `colors`, and so on,
   * and NotFound comes out exactly when none of the five patterns matches.
   */
  function Classify(content: string): (cmd: Command)
    ensures cmd != NotFound ==> Mentions(content, cmd)
    ensures forall c :: Rank(c) < Rank(cmd) ==> !Mentions(content, c)
  {
    if Contains(content, "help") then Help
    else if Contains(content, "guide") then Guide
    else if Contains(content, "colors") then Colors
    else if Contains(content, "sets") then Sets
    else if Contains(content, "pause") || Contains(content, "play") then PauseOrPlay
    else NotFound
  }

  /** The two clauses of Classify's contract pin the command down: nothing else satisfies them. */
  lemma ClassifyUnique(content: string, cmd: Command)
    requires cmd != NotFound ==> Mentions(content, cmd)
    requires forall c :: Rank(c) < Rank(cmd) ==> !Mentions(content, c)
    ensures cmd == Classify(content)
  {
  }

  /** The fixed reply of every command that does not touch the pause map. */
  function CannedReply(cmd: Command): (r: Reply)
    requires cmd != PauseOrPlay
    ensures r != PermissionRequired && r != CyclingStopped && r != CyclingStarted
    ensures r == CommandNotFound <==> cmd == NotFound
  {
    match cmd
    case Help => HelpPage
    case Guide => UsageGuide
    case Colors => ColorList
    case Sets => SetList
    case NotFound => CommandNotFound
  }

  /** The outcome of handling one message: what was sent, and the pause map afterwards. */
  datatype Handled = Handled(reply: Option<Reply>, paused: map<GuildId, bool>)

  /** The handler, one message at a time. */
  function Step(paused: map<GuildId, bool>, msg: Message, botId: string): (r: Handled)
    // exactly one reply for an accepted message, none for any other
    ensures r.reply.Some? <==> Accepts(msg, botId)
    // only a permitted pause/play of an accepted message changes the map
    ensures r.paused != paused ==>
      Accepts(msg, botId) && Classify(msg.content) == PauseOrPlay && msg.memberManagesRoles
    // help, guide, colors, sets and no match each get their own fixed embed, map untouched
    ensures Accepts(msg, botId) && Classify(msg.content) != PauseOrPlay ==>
      r == Handled(Some(CannedReply(Classify(msg.content))), paused)
    // a pause/play without MANAGE_ROLES is refused
    ensures Accepts(msg, botId) && Classify(msg.content) == PauseOrPlay && !msg.memberManagesRoles ==>
      r.reply == Some(PermissionRequired)
    // a permitted pause/play flips that guild's flag and reports the new flag
    ensures Accepts(msg, botId) && Classify(msg.content) == PauseOrPlay && msg.memberManagesRoles ==>
      && r.paused == Toggled(paused, msg.guild.value)
      && (r.reply == Some(CyclingStopped) <==> IsPaused(r.paused, msg.guild.value))
      && (r.reply == Some(CyclingStarted) <==> !IsPaused(r.paused, msg.guild.value))
    // content matching none of the five patterns gets "Command Not Found"
    ensures Accepts(msg, botId) && (forall c :: !Mentions(msg.content, c)) ==>
      r.reply == Some(CommandNotFound)
  {
    if !Accepts(msg, botId) then Handled(None, paused)
    else
      var cmd := Classify(msg.content);
      if cmd != PauseOrPlay then Handled(Some(CannedReply(cmd)), paused)
      else if !msg.memberManagesRoles then Handled(Some(PermissionRequired), paused)
      else
        var g := msg.guild.value;
        var now := Toggled(paused, g);
        Handled(Some(if IsPaused(now, g) then CyclingStopped else CyclingStarted), now)
  }

  /**
   * The same permitted pause/play sent twice: the first reply and the second are opposite,
   * every guild is back to its original active/paused status, and an update tick over any
   * guild list starts the same guilds as before the first.
   */
  lemma PauseTwiceRestores(paused: map<GuildId, bool>, msg: Message, botId: string, guilds: seq<GuildId>)
    requires Accepts(msg, botId) && Classify(msg.content) == PauseOrPlay && msg.memberManagesRoles
    ensures var first := Step(paused, msg, botId);
            var second := Step(first.paused, msg, botId);
            && (first.reply == Some(CyclingStopped) <==> second.reply == Some(CyclingStarted))
            && (forall h :: IsPaused(second.paused, h) == IsPaused(paused, h))
            && Unpaused(guilds, second.paused) == Unpaused(guilds, paused)
  {
  }

  /**
   * Any accepted message whose content holds both `help` and `colors` is answered with the
   * help page, and the pause map is left alone.
   */
  lemma HelpBeatsColors(paused: map<GuildId, bool>, msg: Message, botId: string)
    requires Accepts(msg, botId)
    requires Contains(msg.content, "help") && Contains(msg.content, "colors")
    ensures Classify(msg.content) == Help
    ensures Step(paused, msg, botId) == Handled(Some(HelpPage), paused)
  {
  }

  /**
   * A message from a guild member that mentions the bot by `<@ID>` and says `help` gets the
   * help page whatever the pause map holds, and leaves it alone.
   */
  lemma MentionedHelpGetsHelpPage(paused: map<GuildId, bool>, g: GuildId, botId: string, manages: bool)
    ensures var msg := Message(false, Some(g), true, MentionToken(botId) + " help", manages);
            Step(paused, msg, botId) == Handled(Some(HelpPage), paused)
  {
    var content := MentionToken(botId) + " help";
    ContainsInfix("", MentionToken(botId), " help");
    assert content == "" + MentionToken(botId) + " help";
    ContainsInfix(MentionToken(botId) + " ", "help", "");
    assert content == MentionToken(botId) + " " + "help" + "";
  }
}
