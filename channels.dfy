/**
 * `hasSendPermission` and `mainChannel` of discord.js: where the bot posts a message
 * nobody asked for (its greeting on joining a guild).
 */
module Channels {
  import opened Wrappers

  type ChannelId = string

  /** The `type` of a guild channel. */
  datatype ChannelKind = Text | Voice | Category | News | Store

  /** A guild channel; `canSend` is whether the bot's member holds SEND_MESSAGES in it. */
  datatype Channel = Channel(id: ChannelId, kind: ChannelKind, canSend: bool, name: string, position: int)

  /** `guild.systemChannelID` (None for null) and `guild.channels` in collection order. */
  datatype Guild = Guild(systemChannelId: Option<ChannelId>, channels: seq<Channel>)

  /** What `mainChannel` ends in: a channel, `undefined`, or a TypeError thrown by
      `hasSendPermission(undefined)` when the system channel id names no channel. */
  datatype Choice = Chosen(channel: Channel) | NoChannel | SystemChannelMissing

  /** `hasSendPermission`: a text channel in which the bot may send messages. */
  predicate Sendable(c: Channel)
    ensures c.kind != Text ==> !Sendable(c)
    ensures c.kind == Text ==> (Sendable(c) <==> c.canSend)
  {
    c.kind == Text && c.canSend
  }

  /** `/^(general|main|chat)$/`: the whole name, case-sensitive. */
  predicate IsMainName(name: string) {
    name == "general" || name == "main" || name == "chat"
  }

  /** `guild.channels.get(id)`. */
  function Lookup(cs: seq<Channel>, id: ChannelId): (r: Option<Channel>)
    ensures r.Some? ==> r.value in cs && r.value.id == id
    ensures r.None? ==> forall c :: c in cs ==> c.id != id
  {
    if cs == [] then None
    else if cs[0].id == id then Some(cs[0])
    else Lookup(cs[1..], id)
  }

  /** `guild.channels.find(...)` with the name test: the index of the first main-named channel. */
  function FirstMainNamed(cs: seq<Channel>): (r: Option<nat>)
    ensures r.Some? ==> r.value < |cs| && IsMainName(cs[r.value].name)
    ensures r.Some? ==> forall j :: 0 <= j < r.value ==> !IsMainName(cs[j].name)
    ensures r.None? ==> forall j :: 0 <= j < |cs| ==> !IsMainName(cs[j].name)
  {
    if cs == [] then None
    else if IsMainName(cs[0].name) then Some(0)
    else match FirstMainNamed(cs[1..])
      case None => None
      case Some(i) => Some(i + 1)
  }

  /** The comparator handed to `guild.channels.sort`. */
  function SortComparator(a: Channel, b: Channel): (r: int)
    ensures r == -1 || r == 1
    ensures !Sendable(a) ==> r < 0
    ensures Sendable(a) ==> (r < 0 <==> a.position < b.position)
  {
    if !Sendable(a) then -1
    else if a.position < b.position then -1
    else 1
  }

  /**
   * The comparator is not a consistent ordering: of two channels the bot cannot send in,
   * each is reported to come before the other, and so is an unsendable channel compared with
   * itself; two sendable channels at the same position are each reported to come after the
   * other. Which channel the sort puts first is therefore up to the sort algorithm.
   */
  lemma SortComparatorInconsistent(a: Channel, b: Channel)
    ensures !Sendable(a) && !Sendable(b) ==> SortComparator(a, b) < 0 && SortComparator(b, a) < 0
    ensures !Sendable(a) ==> SortComparator(a, a) != 0
    ensures Sendable(a) && Sendable(b) && a.position == b.position ==>
      SortComparator(a, b) > 0 && SortComparator(b, a) > 0
  {
  }

  /** `if (guild.systemChannelID)`: set, and not the empty string. */
  predicate SystemChannelSet(g: Guild) {
    g.systemChannelId.Some? && g.systemChannelId.value != ""
  }

  /** The system channel is set and names no channel of the guild. */
  predicate SystemChannelDangling(g: Guild) {
    SystemChannelSet(g) && Lookup(g.channels, g.systemChannelId.value).None?
  }

  /** The system channel is set, exists and is sendable. */
  predicate SystemChannelUsable(g: Guild) {
    SystemChannelSet(g)
    && var sys := Lookup(g.channels, g.systemChannelId.value);
    sys.Some? && Sendable(sys.value)
  }

  /** The first main-named channel exists and is sendable. */
  predicate MainNamedUsable(g: Guild) {
    var n := FirstMainNamed(g.channels);
    n.Some? && Sendable(g.channels[n.value])
  }

  /**
   * `mainChannel(guild)`. `sorted` is the collection `guild.channels.sort(...)` returns: the
   * same channels in an order that the library's sort decides.
   */
  function MainChannel(g: Guild, sorted: seq<Channel>): (r: Choice)
    requires multiset(sorted) == multiset(g.channels)
    // a usable system channel wins, whatever the other channels are
    ensures SystemChannelUsable(g) ==> r == Chosen(Lookup(g.channels, g.systemChannelId.value).value)
    // a system channel id that names no channel makes the call throw
    ensures r == SystemChannelMissing <==> SystemChannelDangling(g)
    // otherwise the first main-named channel, when sendable, is chosen
    ensures !SystemChannelUsable(g) && !SystemChannelDangling(g) && MainNamedUsable(g) ==>
      r == Chosen(g.channels[FirstMainNamed(g.channels).value])
    // otherwise the first channel of the sorted collection
    ensures !SystemChannelUsable(g) && !SystemChannelDangling(g) && !MainNamedUsable(g) ==>
      r == if sorted == [] then NoChannel else Chosen(sorted[0])
    // whatever is chosen is one of the guild's channels; nothing only for a guild without any
    ensures r.Chosen? ==> r.channel in g.channels
    ensures r == NoChannel <==> g.channels == [] && !SystemChannelSet(g)
  {
    if SystemChannelDangling(g) then SystemChannelMissing
    else if SystemChannelUsable(g) then Chosen(Lookup(g.channels, g.systemChannelId.value).value)
    else if MainNamedUsable(g) then Chosen(g.channels[FirstMainNamed(g.channels).value])
    else if sorted == [] then NoChannel
    else
      assert sorted[0] in multiset(g.channels);
      Chosen(sorted[0])
  }

  /**
   * A sendable channel named exactly `general` is chosen over every other channel when the
   * system channel is unset or unsendable and no channel before it carries a main name.
   */
  lemma GeneralChosen(g: Guild, sorted: seq<Channel>, i: nat)
    requires multiset(sorted) == multiset(g.channels)
    requires !SystemChannelUsable(g) && !SystemChannelDangling(g)
    requires i < |g.channels| && g.channels[i].name == "general" && Sendable(g.channels[i])
    requires forall j :: 0 <= j < i ==> !IsMainName(g.channels[j].name)
    ensures MainChannel(g, sorted) == Chosen(g.channels[i])
  {
  }

  /**
   * Only the first main-named channel is looked at: when it cannot be sent in, a later
   * sendable `general` is passed over and the sorted collection decides.
   */
  lemma OnlyFirstMainNameConsidered(g: Guild, sorted: seq<Channel>, i: nat)
    requires multiset(sorted) == multiset(g.channels)
    requires !SystemChannelUsable(g) && !SystemChannelDangling(g)
    requires i < |g.channels| && IsMainName(g.channels[i].name) && !Sendable(g.channels[i])
    requires forall j :: 0 <= j < i ==> !IsMainName(g.channels[j].name)
    ensures MainChannel(g, sorted) == Chosen(sorted[0])
  {
  }

  /**
   * The fallback does not look for a sendable channel: a guild with no system channel id whose
   * only channel is a voice channel gets that voice channel.
   */
  lemma FallbackMayBeUnsendable(c: Channel)
    requires c.kind == Voice
    ensures MainChannel(Guild(None, [c]), [c]) == Chosen(c) && !Sendable(c)
  {
  }
}
