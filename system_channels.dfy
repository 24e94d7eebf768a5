/** The channels a server posts its system messages to
    (src/models/server/system_message_channels.rs). */
module SystemChannels {
  import opened Wrappers

  type ID = string

  /** The four kinds of system event a server can route to a channel. */
  datatype Slot = Joined | Left | Kicked | Banned

  datatype SystemMessageChannels = SystemMessageChannels(
    userJoined: Option<ID>,
    userLeft: Option<ID>,
    userKicked: Option<ID>,
    userBanned: Option<ID>)
  {
    /** The channel configured for one slot. */
    function Get(s: Slot): Option<ID> {
      match s
      case Joined => userJoined
      case Left => userLeft
      case Kicked => userKicked
      case Banned => userBanned
    }

    /** `user_joined`: route joins to `id`, leave the other slots alone. */
    function UserJoined(id: ID): (r: SystemMessageChannels)
      ensures r.Get(Joined) == Some(id)
      ensures forall s :: s != Joined ==> r.Get(s) == Get(s)
    {
      this.(userJoined := Some(id))
    }

    /** `user_left`: route leaves to `id`, leave the other slots alone. */
    function UserLeft(id: ID): (r: SystemMessageChannels)
      ensures r.Get(Left) == Some(id)
      ensures forall s :: s != Left ==> r.Get(s) == Get(s)
    {
      this.(userLeft := Some(id))
    }

    /** `user_kicked`: route kicks to `id`, leave the other slots alone. */
    function UserKicked(id: ID): (r: SystemMessageChannels)
      ensures r.Get(Kicked) == Some(id)
      ensures forall s :: s != Kicked ==> r.Get(s) == Get(s)
    {
      this.(userKicked := Some(id))
    }

    /** `user_banned`: route bans to `id`, leave the other slots alone. */
    function UserBanned(id: ID): (r: SystemMessageChannels)
      ensures r.Get(Banned) == Some(id)
      ensures forall s :: s != Banned ==> r.Get(s) == Get(s)
    {
      this.(userBanned := Some(id))
    }

    /** The setter for a slot, by name. */
    function Set(s: Slot, id: ID): SystemMessageChannels {
      match s
      case Joined => UserJoined(id)
      case Left => UserLeft(id)
      case Kicked => UserKicked(id)
      case Banned => UserBanned(id)
    }
  }

  /** `Default`: no slot routed anywhere. */
  function Default(): (r: SystemMessageChannels)
    ensures forall s :: r.Get(s) == None
  {
    SystemMessageChannels(None, None, None, None)
  }

  /** Two values with the same four slots are the same value. */
  lemma {:induction false} Extensional(a: SystemMessageChannels, b: SystemMessageChannels)
    requires forall s :: a.Get(s) == b.Get(s)
    ensures a == b
  {
    assert a.Get(Joined) == b.Get(Joined) && a.Get(Left) == b.Get(Left);
    assert a.Get(Kicked) == b.Get(Kicked) && a.Get(Banned) == b.Get(Banned);
  }

  /** Setters of different slots commute. */
  lemma {:induction false} SettersCommute(c: SystemMessageChannels, s1: Slot, a: ID, s2: Slot, b: ID)
    requires s1 != s2
    ensures c.Set(s1, a).Set(s2, b) == c.Set(s2, b).Set(s1, a)
  {
    var x, y := c.Set(s1, a).Set(s2, b), c.Set(s2, b).Set(s1, a);
    forall s ensures x.Get(s) == y.Get(s) {
    }
    Extensional(x, y);
  }

  /** Calling the same setter twice keeps only the last value. */
  lemma {:induction false} SetterLastWins(c: SystemMessageChannels, s: Slot, a: ID, b: ID)
    ensures c.Set(s, a).Set(s, b) == c.Set(s, b)
  {
    var x, y := c.Set(s, a).Set(s, b), c.Set(s, b);
    forall t ensures x.Get(t) == y.Get(t) {
    }
    Extensional(x, y);
  }
}
