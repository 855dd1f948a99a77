/**
 * The bot process's own state and its two handlers that use it: the `message` handler,
 * which may flip a guild's pause flag in place, and the `updateAll` tick, which walks the
 * guild list and starts an update for every guild that is not paused.
 */
module RainbowBot {
  import opened Wrappers
  import opened Text
  import opened PauseState
  import opened Commands

  class Bot {
    /** `bot.user.id`, the id the mention token is built from. */
    const botId: string
    /** The module-level `paused` object. */
    var paused: map<GuildId, bool>

    /** A freshly started process: no guild is paused. */
    constructor (botId: string)
      ensures this.botId == botId && paused == map[]
    {
      this.botId := botId;
      paused := map[];
    }

    /** The `message` handler: a chain of early returns, then the first-match dispatch. */
    method OnMessage(msg: Message) returns (reply: Option<Reply>)
      modifies this
      ensures Handled(reply, paused) == Step(old(paused), msg, botId)
    {
      reply := None;
      if msg.authorIsBot { return; }
      if msg.guild.None? { return; }
      if !msg.mentionsBot { return; }
      if !HasMentionToken(msg.content, botId) { return; }

      var content := msg.content;
      if Contains(content, "help") { return Some(HelpPage); }
      if Contains(content, "guide") { return Some(UsageGuide); }
      if Contains(content, "colors") { return Some(ColorList); }
      if Contains(content, "sets") { return Some(SetList); }
      if Contains(content, "pause") || Contains(content, "play") {
        if !msg.memberManagesRoles {
          return Some(PermissionRequired);
        }
        var g := msg.guild.value;
        paused := paused[g := !IsPaused(paused, g)];
        reply := Some(if IsPaused(paused, g) then CyclingStopped else CyclingStarted);
        return;
      }
      reply := Some(CommandNotFound);
    }

    /**
     * One tick of `updateAll`: the ids of the guilds whose update is started, in the order
     * of the guild list. A paused guild is skipped; the pause map is only read.
     */
    method UpdateAll(guilds: seq<GuildId>) returns (started: seq<GuildId>)
      ensures started == Unpaused(guilds, paused)
      ensures forall g :: g in started <==> g in guilds && !IsPaused(paused, g)
    {
      started := [];
      var i := 0;
      while i < |guilds|
        invariant 0 <= i <= |guilds|
        invariant started == Unpaused(guilds[..i], paused)
      {
        var g := guilds[i];
        assert guilds[..i + 1] == guilds[..i] + [g];
        UnpausedAppend(guilds[..i], [g], paused);
        i := i + 1;
        if IsPaused(paused, g) {
          continue;
        }
        started := started + [g];
      }
      assert guilds[..i] == guilds;
      UnpausedMembers(guilds, paused);
    }
  }

  /**
   * A new process, a permitted pause/play sent twice, with a tick after each: the first
   * reply says cycling stopped and the tick skips the guild; the second says it started
   * again and the next tick updates every guild.
   */
  method PauseThenPlay(botId: string, msg: Message, guilds: seq<GuildId>)
    returns (first: Option<Reply>, tickAfterFirst: seq<GuildId>,
             second: Option<Reply>, tickAfterSecond: seq<GuildId>)
    requires Accepts(msg, botId) && Classify(msg.content) == PauseOrPlay && msg.memberManagesRoles
    ensures first == Some(CyclingStopped) && second == Some(CyclingStarted)
    ensures msg.guild.value !in tickAfterFirst
    ensures forall g :: g in tickAfterFirst <==> g in guilds && g != msg.guild.value
    ensures tickAfterSecond == guilds
  {
    var bot := new Bot(botId);
    first := bot.OnMessage(msg);
    tickAfterFirst := bot.UpdateAll(guilds);
    second := bot.OnMessage(msg);
    tickAfterSecond := bot.UpdateAll(guilds);
    forall g | g in guilds ensures !IsPaused(bot.paused, g) {
      ToggleTwiceRestores(map[], msg.guild.value);
    }
    UnpausedAllActive(guilds, bot.paused);
    UnpausedMembers(guilds, Toggled(map[], msg.guild.value));
  }
}
