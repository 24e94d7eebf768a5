/** Recipients joining and leaving a cached group channel
    (src/models/events/channel/group_join.rs, src/models/events/channel/group_leave.rs). */
module GroupMembershipEvents {
  import opened Entities
  import opened Mirror

  datatype ChannelGroupJoinEvent = ChannelGroupJoinEvent(channelId: ID, userId: ID)
  datatype ChannelGroupLeaveEvent = ChannelGroupLeaveEvent(channelId: ID, userId: ID)

  /** `xs` without its first occurrence of `x`; `xs` itself when `x` is absent. */
  function RemoveFirst(xs: seq<ID>, x: ID): (r: seq<ID>)
    ensures x !in xs ==> r == xs
    ensures x in xs ==> |r| == |xs| - 1
    ensures multiset(r) == multiset(xs) - multiset{x}
  {
    if xs == [] then []
    else
      assert xs == [xs[0]] + xs[1..];
      if xs[0] == x then xs[1..] else [xs[0]] + RemoveFirst(xs[1..], x)
  }

  /** The position of the first occurrence of `x` in `xs`, when there is one. */
  method Position(xs: seq<ID>, x: ID) returns (found: bool, i: nat)
    ensures found <==> x in xs
    ensures found ==> i < |xs| && xs[i] == x && x !in xs[..i]
  {
    i := 0;
    while i < |xs|
      invariant i <= |xs|
      invariant x !in xs[..i]
    {
      if xs[i] == x {
        return true, i;
      }
      assert xs[..i + 1] == xs[..i] + [xs[i]];
      i := i + 1;
    }
    assert xs[..i] == xs;
    return false, 0;
  }

  /** Removing the first occurrence is cutting the sequence at its position. */
  lemma {:induction false} RemoveFirstAt(xs: seq<ID>, x: ID, i: nat)
    requires i < |xs| && xs[i] == x && x !in xs[..i]
    ensures RemoveFirst(xs, x) == xs[..i] + xs[i + 1..]
    decreases i
  {
    if i > 0 {
      var tail := xs[1..];
      assert xs[0] != x by { assert xs[0] == xs[..i][0]; }
      assert tail[..i - 1] == xs[..i][1..];
      RemoveFirstAt(tail, x, i - 1);
      assert xs[..i] == [xs[0]] + tail[..i - 1];
      assert xs[i + 1..] == tail[i..];
    }
  }

  /** The group recipients with `userId` appended. */
  function Joined(c: Channel, userId: ID): Channel {
    if c.Group? then Channel.Group(c.group.(recipients := c.group.recipients + [userId])) else c
  }

  /** The group recipients without the first occurrence of `userId`. */
  function Left(c: Channel, userId: ID): Channel {
    if c.Group? then Channel.Group(c.group.(recipients := RemoveFirst(c.group.recipients, userId))) else c
  }

  /** The mirror after a join: a cached group gains the user at the end of its
      recipients, with no check for an existing entry; nothing else changes. */
  function ApplyJoin(st: Snapshot, e: ChannelGroupJoinEvent): Snapshot {
    if e.channelId in st.channels
    then st.(channels := st.channels[e.channelId := Joined(st.channels[e.channelId], e.userId)])
    else st
  }

  /** The mirror after a leave: a cached group loses the first occurrence of
      the user; nothing else changes. */
  function ApplyLeave(st: Snapshot, e: ChannelGroupLeaveEvent): Snapshot {
    if e.channelId in st.channels
    then st.(channels := st.channels[e.channelId := Left(st.channels[e.channelId], e.userId)])
    else st
  }

  /** `ChannelGroupJoinEvent::update`. */
  method UpdateJoin(e: ChannelGroupJoinEvent, cache: Cache)
    modifies cache
    ensures cache.State() == ApplyJoin(old(cache.State()), e)
  {
    if e.channelId in cache.channels && cache.channels[e.channelId].Group? {
      var group := cache.channels[e.channelId].group;
      group := group.(recipients := group.recipients + [e.userId]);
      cache.channels := cache.channels[e.channelId := Channel.Group(group)];
    }
  }

  /** `ChannelGroupLeaveEvent::update`: find the user's first position, then
      remove that entry. */
  method UpdateLeave(e: ChannelGroupLeaveEvent, cache: Cache)
    modifies cache
    ensures cache.State() == ApplyLeave(old(cache.State()), e)
  {
    if e.channelId in cache.channels && cache.channels[e.channelId].Group? {
      var group := cache.channels[e.channelId].group;
      var found, i := Position(group.recipients, e.userId);
      if found {
        RemoveFirstAt(group.recipients, e.userId, i);
        group := group.(recipients := group.recipients[..i] + group.recipients[i + 1..]);
        cache.channels := cache.channels[e.channelId := Channel.Group(group)];
      }
    }
  }

  /** Leaving right after joining restores the recipients when the user was
      not already a recipient. */
  lemma {:induction false} LeaveUndoesJoin(xs: seq<ID>, x: ID)
    requires x !in xs
    ensures RemoveFirst(xs + [x], x) == xs
  {
    if xs != [] {
      assert (xs + [x])[1..] == xs[1..] + [x];
      LeaveUndoesJoin(xs[1..], x);
    }
  }

  /** Removing the first occurrence keeps the other recipients in order: the
      result is a subsequence of the input obtained by deleting one index. */
  lemma RemoveFirstKeepsOrder(xs: seq<ID>, x: ID)
    requires x in xs
    ensures exists i :: 0 <= i < |xs| && xs[i] == x && RemoveFirst(xs, x) == xs[..i] + xs[i + 1..]
  {
    var i :| 0 <= i < |xs| && xs[i] == x;
    while i > 0 && x in xs[..i]
      invariant 0 <= i < |xs| && xs[i] == x
      decreases i
    {
      var j :| 0 <= j < i && xs[..i][j] == x;
      i := j;
    }
    if i > 0 {
      RemoveFirstAt(xs, x, i);
    } else {
      RemoveFirstAt(xs, x, 0);
    }
  }

  /** Joining twice records the user twice: the join does not deduplicate. */
  lemma JoinDuplicates(g: GroupChannel, x: ID)
    ensures multiset(Joined(Joined(Channel.Group(g), x), x).group.recipients)[x]
      == multiset(g.recipients)[x] + 2
  {
  }

  /** Joins and leaves keep channels keyed by their ids. */
  lemma JoinKeepsKeyed(st: Snapshot, j: ChannelGroupJoinEvent)
    requires Keyed(st)
    ensures Keyed(ApplyJoin(st, j))
  {
  }

  lemma LeaveKeepsKeyed(st: Snapshot, l: ChannelGroupLeaveEvent)
    requires Keyed(st)
    ensures Keyed(ApplyLeave(st, l))
  {
  }

  /** Only the addressed channel can change, and only if it is a group. */
  lemma Frame(st: Snapshot, e: ChannelGroupLeaveEvent)
    ensures ApplyLeave(st, e).channels.Keys == st.channels.Keys
    ensures forall k :: k in st.channels && (k != e.channelId || !st.channels[k].Group?) ==>
      ApplyLeave(st, e).channels[k] == st.channels[k]
    ensures ApplyLeave(st, e).(channels := st.channels) == st
  {
  }
}
