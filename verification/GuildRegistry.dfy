/** The registry of guild listeners, updated in place under its lock, against the steps of the protocol. */
module GuildRegistry {
  import opened Prelude
  import opened ConnectInfo
  import opened Session

  class DiscordInner {
    /** For each guild the sending end of a listener's channel, which may have been closed since. */
    var channels: map<nat, nat>
    /** The channels made so far. */
    var subs: seq<Subscription>
    /** How many guild events have come in. */
    var seen: nat

    constructor ()
      ensures channels == map[] && subs == [] && seen == 0
    {
      channels, subs, seen := map[], [], 0;
    }

    /** The registry's part of the whole protocol's state. */
    ghost predicate IsRegistryOf(s: System)
      reads this
    {
      channels == s.registry && subs == s.subs && seen == |s.log| && NamesExist(s)
    }

    /**
      `isClosed` is what the channels say about their receivers. The lock is free, so no event is being delivered.
     */
    method ExclusiveServerEvents(server: nat, isClosed: nat -> bool, ghost s: System, ghost created: bool)
      returns (rx: Option<nat>)
      requires IsRegistryOf(s) && !s.blocked
      requires forall r: nat :: isClosed(r) <==> !Live(s, r)
      modifies this
      ensures IsRegistryOf(Apply(s, PrepareCall(server, created)))
      ensures rx == None <==> Refused(s, server)
      ensures rx.Some? ==> rx.value == |old(subs)| && channels[server] == rx.value && subs[rx.value].guild == server
    {
      if server in channels && !isClosed(channels[server]) {
        return None;
      }
      rx := Some(|subs|);
      channels := channels[server := |subs|];
      subs := subs + [Subscription(server, seen, [], [])];
    }

    /** Delivers an event, forgets a listener that is gone, or waits for room with the lock in hand. */
    method Send(guild: nat, event: GlobalEvent, isClosed: nat -> bool, ghost s: System) returns (waits: bool)
      requires channels == s.registry && subs == s.subs && seen == |s.log| && NamesExist(s)
      requires forall r: nat :: isClosed(r) <==> !Live(s, r)
      modifies this
      ensures seen == old(seen) && waits == Deliver(s, guild, event).blocked
      ensures channels == Deliver(s, guild, event).registry && subs == Deliver(s, guild, event).subs
    {
      waits := false;
      if guild in channels {
        var r := channels[guild];
        if isClosed(r) {
          channels := channels - {guild};
        } else if |subs[r].queue| < CHANNEL_CAPACITY {
          subs := subs[r := subs[r].(queue := subs[r].queue + [event])];
        } else {
          waits := true;
        }
      }
    }

    method HandleEvent(guild: nat, event: GlobalEvent, isClosed: nat -> bool, ghost s: System) returns (waits: bool)
      requires IsRegistryOf(s) && !s.blocked
      requires forall r: nat :: isClosed(r) <==> !Live(s, r)
      modifies this
      ensures IsRegistryOf(Apply(s, Dispatch(guild, event))) && waits == Apply(s, Dispatch(guild, event)).blocked
    {
      ghost var logged := s.(log := s.log + [(guild, event)]);
      assert forall r: nat :: Live(logged, r) <==> Live(s, r);
      seen := seen + 1;
      waits := Send(guild, event, isClosed, logged);
    }

    /** The wait is over: the listener has made room, or is gone. */
    method FinishEvent(guild: nat, event: GlobalEvent, isClosed: nat -> bool, ghost s: System) returns (waits: bool)
      requires IsRegistryOf(s) && Enabled(s, Unblock) && s.log[|s.log| - 1] == (guild, event)
      requires forall r: nat :: isClosed(r) <==> !Live(s, r)
      modifies this
      ensures IsRegistryOf(Apply(s, Unblock)) && waits == Apply(s, Unblock).blocked == false
    {
      waits := Send(guild, event, isClosed, s);
    }
  }
}
