/** The event-sourced mirror of remote entities (src/cache.rs): four keyed maps
    that only inbound events write and that handler code reads by copy. */
module Mirror {
  import opened Wrappers
  import opened Entities

  /** The value of the four maps at one moment. */
  datatype Snapshot = Snapshot(
    users: map<ID, User>,
    channels: map<ID, Channel>,
    servers: map<ID, Server>,
    members: map<MemberID, Member>)

  /** The mirror with nothing in it. */
  const Empty: Snapshot := Snapshot(map[], map[], map[], map[])

  /** Each map holds every entity under its own identifier: users by `id`,
      channels by `Channel::id()`, servers by `id`, members by their composite id. */
  predicate Keyed(s: Snapshot) {
    && (forall k :: k in s.users ==> s.users[k].id == k)
    && (forall k :: k in s.channels ==> s.channels[k].Id() == k)
    && (forall k :: k in s.servers ==> s.servers[k].id == k)
    && (forall k :: k in s.members ==> s.members[k].id == k)
  }

  /** `r` holds one value per key of `keys`, read from `m` under that key, and
      no key is used twice. */
  ghost predicate OnePerKey<K, V>(m: map<K, V>, r: seq<V>, keys: seq<K>) {
    && |keys| == |r|
    && (forall i, j :: 0 <= i < j < |keys| ==> keys[i] != keys[j])
    && (forall i :: 0 <= i < |r| ==> keys[i] in m && r[i] == m[keys[i]])
  }

  /** The values of `m` for which `keep` holds, each entry exactly once, in an
      order the model leaves open (the source iterates a hash map). */
  method FilterValues<K, V(==)>(m: map<K, V>, keep: V -> bool) returns (r: seq<V>)
    ensures |r| == KeptCount(m, keep)
    ensures forall v :: v in r ==> v in m.Values && keep(v)
    ensures forall k :: k in m && keep(m[k]) ==> m[k] in r
    ensures exists keys :: OnePerKey(m, r, keys)
  {
    r := [];
    ghost var keys: seq<K> := [];
    var rest := m.Keys;
    while rest != {}
      invariant rest <= m.Keys
      invariant |keys| == |r|
      invariant forall i :: 0 <= i < |r| ==> keys[i] in m && r[i] == m[keys[i]] && keep(r[i])
      invariant forall i :: 0 <= i < |keys| ==> keys[i] !in rest
      invariant forall i, j :: 0 <= i < j < |keys| ==> keys[i] != keys[j]
      invariant forall k :: k in m && k !in rest && keep(m[k]) ==> k in keys
      decreases rest
    {
      var k :| k in rest;
      if keep(m[k]) {
        r, keys := r + [m[k]], keys + [k];
      }
      rest := rest - {k};
    }
    FilterLength(m, keep, r, keys);
    forall k | k in m && keep(m[k]) ensures m[k] in r {
      var i :| 0 <= i < |keys| && keys[i] == k;
    }
    assert OnePerKey(m, r, keys);
  }

  /** The number of distinct keys a filter keeps. */
  function KeptCount<K, V>(m: map<K, V>, keep: V -> bool): nat {
    |set k | k in m && keep(m[k])|
  }

  /** A filter's result is exactly as long as the set of entries it keeps. */
  lemma {:induction false} FilterLength<K, V>(m: map<K, V>, keep: V -> bool, r: seq<V>, keys: seq<K>)
    requires |keys| == |r|
    requires forall i :: 0 <= i < |r| ==> keys[i] in m && r[i] == m[keys[i]] && keep(r[i])
    requires forall i, j :: 0 <= i < j < |keys| ==> keys[i] != keys[j]
    requires forall k :: k in m && keep(m[k]) ==> k in keys
    ensures |r| == KeptCount(m, keep)
  {
    var kept := set k | k in m && keep(m[k]);
    assert kept == set i | 0 <= i < |keys| :: keys[i];
    DistinctCard(keys);
  }

  /** A sequence without repeats has as many elements as its set. */
  lemma {:induction false} DistinctCard<K>(keys: seq<K>)
    requires forall i, j :: 0 <= i < j < |keys| ==> keys[i] != keys[j]
    ensures |set i | 0 <= i < |keys| :: keys[i]| == |keys|
  {
    if keys != [] {
      var last := |keys| - 1;
      var init := keys[..last];
      DistinctCard(init);
      assert (set i | 0 <= i < |keys| :: keys[i]) == (set i | 0 <= i < |init| :: init[i]) + {keys[last]};
      assert keys[last] !in (set i | 0 <= i < |init| :: init[i]);
    }
  }

  class Cache {
    var users: map<ID, User>
    var channels: map<ID, Channel>
    var servers: map<ID, Server>
    var members: map<MemberID, Member>

    /** `Cache::default()`: all four maps empty. */
    constructor ()
      ensures State() == Empty
    {
      users, channels, servers, members := map[], map[], map[], map[];
    }

    function State(): Snapshot
      reads this
    {
      Snapshot(users, channels, servers, members)
    }

    /** `user`: the stored user under `id`, if there is one. */
    method User(id: ID) returns (r: Option<Entities.User>)
      ensures r.Some? <==> id in users
      ensures r.Some? ==> r.value == users[id]
    {
      r := if id in users then Some(users[id]) else None;
    }

    /** `users`: a copy of the whole map. */
    method Users() returns (r: map<ID, Entities.User>)
      ensures r == users
    {
      r := users;
    }

    /** `filter_users`: every stored user the filter keeps, each once. */
    method FilterUsers(keep: Entities.User -> bool) returns (r: seq<Entities.User>)
      ensures |r| == KeptCount(users, keep)
      ensures forall u :: u in r ==> u in users.Values && keep(u)
      ensures forall k :: k in users && keep(users[k]) ==> users[k] in r
      ensures exists keys :: OnePerKey(users, r, keys)
    {
      r := FilterValues(users, keep);
    }

    /** `channel`: the stored channel under `id`, if there is one. */
    method Channel(id: ID) returns (r: Option<Entities.Channel>)
      ensures r.Some? <==> id in channels
      ensures r.Some? ==> r.value == channels[id]
    {
      r := if id in channels then Some(channels[id]) else None;
    }

    /** `channels`: a copy of the whole map. */
    method Channels() returns (r: map<ID, Entities.Channel>)
      ensures r == channels
    {
      r := channels;
    }

    /** `filter_channels`: every stored channel the filter keeps, each once. */
    method FilterChannels(keep: Entities.Channel -> bool) returns (r: seq<Entities.Channel>)
      ensures |r| == KeptCount(channels, keep)
      ensures forall c :: c in r ==> c in channels.Values && keep(c)
      ensures forall k :: k in channels && keep(channels[k]) ==> channels[k] in r
      ensures exists keys :: OnePerKey(channels, r, keys)
    {
      r := FilterValues(channels, keep);
    }

    /** `server`: the stored server under `id`, if there is one. */
    method Server(id: ID) returns (r: Option<Entities.Server>)
      ensures r.Some? <==> id in servers
      ensures r.Some? ==> r.value == servers[id]
    {
      r := if id in servers then Some(servers[id]) else None;
    }

    /** `servers`: a copy of the whole map. */
    method Servers() returns (r: map<ID, Entities.Server>)
      ensures r == servers
    {
      r := servers;
    }

    /** `filter_servers`: every stored server the filter keeps, each once. */
    method FilterServers(keep: Entities.Server -> bool) returns (r: seq<Entities.Server>)
      ensures |r| == KeptCount(servers, keep)
      ensures forall s :: s in r ==> s in servers.Values && keep(s)
      ensures forall k :: k in servers && keep(servers[k]) ==> servers[k] in r
      ensures exists keys :: OnePerKey(servers, r, keys)
    {
      r := FilterValues(servers, keep);
    }

    /** `servers_count`: the number of cached servers. */
    method ServersCount() returns (n: nat)
      ensures n == |servers.Keys|
    {
      n := |servers|;
    }

    /** `member`: the stored member under the composite `id`, if there is one. */
    method Member(id: MemberID) returns (r: Option<Entities.Member>)
      ensures r.Some? <==> id in members
      ensures r.Some? ==> r.value == members[id]
    {
      r := if id in members then Some(members[id]) else None;
    }

    /** `members`: a copy of the whole map. */
    method Members() returns (r: map<MemberID, Entities.Member>)
      ensures r == members
    {
      r := members;
    }

    /** `filter_members`: every stored member the filter keeps, each once. */
    method FilterMembers(keep: Entities.Member -> bool) returns (r: seq<Entities.Member>)
      ensures |r| == KeptCount(members, keep)
      ensures forall m :: m in r ==> m in members.Values && keep(m)
      ensures forall k :: k in members && keep(members[k]) ==> members[k] in r
      ensures exists keys :: OnePerKey(members, r, keys)
    {
      r := FilterValues(members, keep);
    }
  }
}
