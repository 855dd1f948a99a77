/**
 * The module-level `paused` object of discord.js: guild id to flag. A guild with no
 * entry reads as `undefined`, which is falsy, so it counts as active.
 */
module PauseState {

  /** A Discord snowflake id, kept as the string the library hands out. */
  type GuildId = string

  /** `paused[id]` is truthy. */
  predicate IsPaused(paused: map<GuildId, bool>, g: GuildId)
    ensures g !in paused ==> !IsPaused(paused, g)
    ensures g in paused ==> (IsPaused(paused, g) <==> paused[g])
  {
    g in paused && paused[g]
  }

  /** `paused[g] = !paused[g]`: the flag of `g` flips, absent counting as false. */
  function Toggled(paused: map<GuildId, bool>, g: GuildId): (r: map<GuildId, bool>)
    ensures g in r && r[g] == !IsPaused(paused, g)
    ensures IsPaused(r, g) != IsPaused(paused, g)
    ensures r.Keys == paused.Keys + {g}
    ensures forall h :: h != g && h in paused ==> r[h] == paused[h]
  {
    paused[g := !IsPaused(paused, g)]
  }

  /** Toggling one guild twice gives every guild its original active/paused status. */
  lemma ToggleTwiceRestores(paused: map<GuildId, bool>, g: GuildId)
    ensures forall h :: IsPaused(Toggled(Toggled(paused, g), g), h) == IsPaused(paused, h)
  {
  }

  /**
   * The guilds an update tick starts, in guild-list order: those whose flag is not truthy.
   */
  function Unpaused(guilds: seq<GuildId>, paused: map<GuildId, bool>): (r: seq<GuildId>)
    ensures |r| <= |guilds|
  {
    if guilds == [] then []
    else (if IsPaused(paused, guilds[0]) then [] else [guilds[0]]) + Unpaused(guilds[1..], paused)
  }

  /** A tick starts exactly the guilds of the list that are not paused. */
  lemma {:induction false} UnpausedMembers(guilds: seq<GuildId>, paused: map<GuildId, bool>)
    ensures forall g :: g in Unpaused(guilds, paused) <==> g in guilds && !IsPaused(paused, g)
  {
    if guilds != [] {
      UnpausedMembers(guilds[1..], paused);
      assert guilds == [guilds[0]] + guilds[1..];
    }
  }

  /** The tick distributes over the guild list, so the relative order of guilds is kept. */
  lemma {:induction false} UnpausedAppend(a: seq<GuildId>, b: seq<GuildId>, paused: map<GuildId, bool>)
    ensures Unpaused(a + b, paused) == Unpaused(a, paused) + Unpaused(b, paused)
  {
    if a == [] {
      assert a + b == b;
    } else {
      var head := if IsPaused(paused, a[0]) then [] else [a[0]];
      assert (a + b)[0] == a[0] && (a + b)[1..] == a[1..] + b;
      UnpausedAppend(a[1..], b, paused);
      calc {
        Unpaused(a + b, paused);
        head + Unpaused(a[1..] + b, paused);
        head + (Unpaused(a[1..], paused) + Unpaused(b, paused));
        (head + Unpaused(a[1..], paused)) + Unpaused(b, paused);
        Unpaused(a, paused) + Unpaused(b, paused);
      }
    }
  }

  /** With no guild paused, a tick starts every guild in list order. */
  lemma {:induction false} UnpausedAllActive(guilds: seq<GuildId>, paused: map<GuildId, bool>)
    requires forall g :: g in guilds ==> !IsPaused(paused, g)
    ensures Unpaused(guilds, paused) == guilds
  {
    if guilds != [] {
      UnpausedAllActive(guilds[1..], paused);
      assert [guilds[0]] + guilds[1..] == guilds;
    }
  }

  /** Guilds whose status agrees in two maps are treated alike by a tick. */
  lemma {:induction false} UnpausedSameStatus(guilds: seq<GuildId>, p: map<GuildId, bool>, q: map<GuildId, bool>)
    requires forall g :: IsPaused(p, g) == IsPaused(q, g)
    ensures Unpaused(guilds, p) == Unpaused(guilds, q)
  {
    if guilds != [] {
      UnpausedSameStatus(guilds[1..], p, q);
    }
  }
}
