/** The Ready snapshot and its bulk insert into the mirror
    (src/models/events/ready.rs). */
module ReadyEvents {
  import opened Entities
  import opened Mirror

  datatype ReadyEvent = ReadyEvent(users: seq<User>, servers: seq<Server>, channels: seq<Channel>, members: seq<Member>)

  /** The keys the four loops insert under. */
  function UserKey(u: User): ID { u.id }
  function ChannelKey(c: Channel): ID { c.Id() }
  function ServerKey(s: Server): ID { s.id }
  function MemberKey(m: Member): MemberID { m.id }

  /** The map that inserting `xs` one by one under `key` builds from nothing:
      a later element overwrites an earlier one with the same key. */
  function Index<K, V>(xs: seq<V>, key: V -> K): map<K, V>
    decreases |xs|
  {
    if xs == [] then map[] else Index(xs[..|xs| - 1], key)[key(xs[|xs| - 1]) := xs[|xs| - 1]]
  }

  /** The keys of the index are the keys of the list's elements. */
  lemma {:induction false} IndexKeys<K, V>(xs: seq<V>, key: V -> K)
    ensures Index(xs, key).Keys == set i | 0 <= i < |xs| :: key(xs[i])
    decreases |xs|
  {
    if xs != [] {
      var init := xs[..|xs| - 1];
      IndexKeys(init, key);
      assert (set i | 0 <= i < |xs| :: key(xs[i])) == (set i | 0 <= i < |init| :: key(init[i])) + {key(xs[|xs| - 1])};
    }
  }

  /** Each key holds the value of its last occurrence in the list. */
  lemma {:induction false} IndexLastOccurrence<K, V>(xs: seq<V>, key: V -> K, i: nat)
    requires i < |xs|
    requires forall j :: i < j < |xs| ==> key(xs[j]) != key(xs[i])
    ensures key(xs[i]) in Index(xs, key) && Index(xs, key)[key(xs[i])] == xs[i]
    decreases |xs|
  {
    if i < |xs| - 1 {
      var init := xs[..|xs| - 1];
      IndexLastOccurrence(init, key, i);
    }
  }

  /** Every value of the index is stored under its own key. */
  lemma {:induction false} IndexKeyed<K, V>(xs: seq<V>, key: V -> K)
    ensures forall k :: k in Index(xs, key) ==> key(Index(xs, key)[k]) == k
    decreases |xs|
  {
    if xs != [] {
      IndexKeyed(xs[..|xs| - 1], key);
    }
  }

  /** With distinct keys the index has one entry per element. */
  lemma {:induction false} IndexSize<K, V>(xs: seq<V>, key: V -> K)
    requires forall i, j :: 0 <= i < j < |xs| ==> key(xs[i]) != key(xs[j])
    ensures |Index(xs, key)| == |xs|
    decreases |xs|
  {
    if xs != [] {
      var init := xs[..|xs| - 1];
      IndexSize(init, key);
      IndexKeys(init, key);
      assert key(xs[|xs| - 1]) !in Index(init, key);
    }
  }

  /** What the Ready update leaves in the mirror: every snapshot entity inserted
      under its key over the old maps, nothing removed. */
  function Apply(s: Snapshot, e: ReadyEvent): Snapshot {
    Snapshot(
      s.users + Index(e.users, UserKey),
      s.channels + Index(e.channels, ChannelKey),
      s.servers + Index(e.servers, ServerKey),
      s.members + Index(e.members, MemberKey))
  }

  /** One of the four loops: insert each element of `xs` under its key, in list
      order, into a copy of `m`. */
  method InsertAll<K, V>(m: map<K, V>, xs: seq<V>, key: V -> K) returns (r: map<K, V>)
    ensures r == m + Index(xs, key)
  {
    r := m;
    for i := 0 to |xs|
      invariant r == m + Index(xs[..i], key)
    {
      assert xs[..i + 1][..i] == xs[..i];
      r := r[key(xs[i]) := xs[i]];
    }
    assert xs[..|xs|] == xs;
  }

  /** `ReadyEvent::update`: the users, channels, servers and members loops in turn. */
  method Update(e: ReadyEvent, cache: Cache)
    modifies cache
    ensures cache.State() == Apply(old(cache.State()), e)
  {
    cache.users := InsertAll(cache.users, e.users, UserKey);
    cache.channels := InsertAll(cache.channels, e.channels, ChannelKey);
    cache.servers := InsertAll(cache.servers, e.servers, ServerKey);
    cache.members := InsertAll(cache.members, e.members, MemberKey);
  }

  /** Inserting a list adds exactly the keys of its elements. */
  lemma {:induction false} InsertKeys<K, V>(m: map<K, V>, xs: seq<V>, key: V -> K)
    ensures (m + Index(xs, key)).Keys == m.Keys + set i | 0 <= i < |xs| :: key(xs[i])
  {
    IndexKeys(xs, key);
  }

  /** Afterwards each map holds its old keys and the snapshot's keys and
      nothing else: users and servers by id, channels by `Channel::id()`,
      members by their composite id. */
  lemma {:induction false} ReadyKeys(s: Snapshot, e: ReadyEvent)
    ensures Apply(s, e).users.Keys == s.users.Keys + set u | u in e.users :: u.id
    ensures Apply(s, e).channels.Keys == s.channels.Keys + set c | c in e.channels :: c.Id()
    ensures Apply(s, e).servers.Keys == s.servers.Keys + set v | v in e.servers :: v.id
    ensures Apply(s, e).members.Keys == s.members.Keys + set m | m in e.members :: m.id
  {
    UserKeys(s, e);
    ChannelKeys(s, e);
    ServerKeys(s, e);
    MemberKeys(s, e);
  }

  lemma {:induction false} UserKeys(s: Snapshot, e: ReadyEvent)
    ensures Apply(s, e).users.Keys == s.users.Keys + set u | u in e.users :: u.id
  {
    InsertKeys(s.users, e.users, UserKey);
    assert (set i | 0 <= i < |e.users| :: UserKey(e.users[i])) == set u | u in e.users :: u.id;
  }

  lemma {:induction false} ChannelKeys(s: Snapshot, e: ReadyEvent)
    ensures Apply(s, e).channels.Keys == s.channels.Keys + set c | c in e.channels :: c.Id()
  {
    InsertKeys(s.channels, e.channels, ChannelKey);
    assert (set i | 0 <= i < |e.channels| :: ChannelKey(e.channels[i])) == set c | c in e.channels :: c.Id();
  }

  lemma {:induction false} ServerKeys(s: Snapshot, e: ReadyEvent)
    ensures Apply(s, e).servers.Keys == s.servers.Keys + set v | v in e.servers :: v.id
  {
    InsertKeys(s.servers, e.servers, ServerKey);
    assert (set i | 0 <= i < |e.servers| :: ServerKey(e.servers[i])) == set v | v in e.servers :: v.id;
  }

  lemma {:induction false} MemberKeys(s: Snapshot, e: ReadyEvent)
    ensures Apply(s, e).members.Keys == s.members.Keys + set m | m in e.members :: m.id
  {
    InsertKeys(s.members, e.members, MemberKey);
    assert (set i | 0 <= i < |e.members| :: MemberKey(e.members[i])) == set m | m in e.members :: m.id;
  }

  /** A snapshot user is stored with the value of its last occurrence in the list. */
  lemma {:induction false} ReadyUserLastWins(s: Snapshot, e: ReadyEvent, i: nat)
    requires i < |e.users|
    requires forall j :: i < j < |e.users| ==> e.users[j].id != e.users[i].id
    ensures e.users[i].id in Apply(s, e).users && Apply(s, e).users[e.users[i].id] == e.users[i]
  {
    IndexLastOccurrence(e.users, UserKey, i);
  }

  /** A channel of the snapshot is stored under `Channel::id()` with the value of
      its last occurrence. */
  lemma {:induction false} ReadyChannelLastWins(s: Snapshot, e: ReadyEvent, i: nat)
    requires i < |e.channels|
    requires forall j :: i < j < |e.channels| ==> e.channels[j].Id() != e.channels[i].Id()
    ensures e.channels[i].Id() in Apply(s, e).channels && Apply(s, e).channels[e.channels[i].Id()] == e.channels[i]
  {
    IndexLastOccurrence(e.channels, ChannelKey, i);
  }

  /** A member of the snapshot is stored under its composite id with the value of
      its last occurrence. */
  lemma {:induction false} ReadyMemberLastWins(s: Snapshot, e: ReadyEvent, i: nat)
    requires i < |e.members|
    requires forall j :: i < j < |e.members| ==> e.members[j].id != e.members[i].id
    ensures e.members[i].id in Apply(s, e).members && Apply(s, e).members[e.members[i].id] == e.members[i]
  {
    IndexLastOccurrence(e.members, MemberKey, i);
  }

  /** A server of the snapshot is stored under its id with the value of its last
      occurrence. */
  lemma {:induction false} ReadyServerLastWins(s: Snapshot, e: ReadyEvent, i: nat)
    requires i < |e.servers|
    requires forall j :: i < j < |e.servers| ==> e.servers[j].id != e.servers[i].id
    ensures e.servers[i].id in Apply(s, e).servers && Apply(s, e).servers[e.servers[i].id] == e.servers[i]
  {
    IndexLastOccurrence(e.servers, ServerKey, i);
  }

  /** Nothing is cleared: in each of the four maps, an entry whose key the
      snapshot does not mention keeps its old value. */
  lemma {:induction false} ReadyKeepsOthers(s: Snapshot, e: ReadyEvent, uid: ID, cid: ID, sid: ID, mid: MemberID)
    ensures uid in s.users && (forall i :: 0 <= i < |e.users| ==> e.users[i].id != uid) ==>
      uid in Apply(s, e).users && Apply(s, e).users[uid] == s.users[uid]
    ensures cid in s.channels && (forall i :: 0 <= i < |e.channels| ==> e.channels[i].Id() != cid) ==>
      cid in Apply(s, e).channels && Apply(s, e).channels[cid] == s.channels[cid]
    ensures sid in s.servers && (forall i :: 0 <= i < |e.servers| ==> e.servers[i].id != sid) ==>
      sid in Apply(s, e).servers && Apply(s, e).servers[sid] == s.servers[sid]
    ensures mid in s.members && (forall i :: 0 <= i < |e.members| ==> e.members[i].id != mid) ==>
      mid in Apply(s, e).members && Apply(s, e).members[mid] == s.members[mid]
  {
    IndexKeys(e.users, UserKey);
    IndexKeys(e.channels, ChannelKey);
    IndexKeys(e.servers, ServerKey);
    IndexKeys(e.members, MemberKey);
  }

  /** An index built into an empty map has one entry per element when the keys
      are distinct. */
  lemma {:induction false} EmptyIndexSize<K, V>(xs: seq<V>, key: V -> K)
    ensures (forall i, j :: 0 <= i < j < |xs| ==> key(xs[i]) != key(xs[j])) ==>
      |map[] + Index(xs, key)| == |xs|
  {
    assert map[] + Index(xs, key) == Index(xs, key);
    if forall i, j :: 0 <= i < j < |xs| ==> key(xs[i]) != key(xs[j]) {
      IndexSize(xs, key);
    }
  }

  /** Starting from the empty mirror, each map has one entry per snapshot entity
      when that list's ids are distinct. */
  lemma {:induction false} ReadySizes(e: ReadyEvent)
    ensures (forall i, j :: 0 <= i < j < |e.users| ==> e.users[i].id != e.users[j].id) ==>
      |Apply(Empty, e).users| == |e.users|
    ensures (forall i, j :: 0 <= i < j < |e.channels| ==> e.channels[i].Id() != e.channels[j].Id()) ==>
      |Apply(Empty, e).channels| == |e.channels|
    ensures (forall i, j :: 0 <= i < j < |e.servers| ==> e.servers[i].id != e.servers[j].id) ==>
      |Apply(Empty, e).servers| == |e.servers|
    ensures (forall i, j :: 0 <= i < j < |e.members| ==> e.members[i].id != e.members[j].id) ==>
      |Apply(Empty, e).members| == |e.members|
  {
    EmptyIndexSize(e.users, UserKey);
    EmptyIndexSize(e.channels, ChannelKey);
    EmptyIndexSize(e.servers, ServerKey);
    EmptyIndexSize(e.members, MemberKey);
  }

  /** Applying the same Ready event twice is applying it once. */
  lemma ReadyIdempotent(s: Snapshot, e: ReadyEvent)
    ensures Apply(Apply(s, e), e) == Apply(s, e)
  {
  }

  /** The update keeps every map keyed by its entities' own identifiers. */
  lemma {:induction false} ReadyKeepsKeyed(s: Snapshot, e: ReadyEvent)
    requires Keyed(s)
    ensures Keyed(Apply(s, e))
  {
    IndexKeyed(e.users, UserKey);
    IndexKeyed(e.channels, ChannelKey);
    IndexKeyed(e.servers, ServerKey);
    IndexKeyed(e.members, MemberKey);
  }
}
