/** `Context` (src/client/context.rs): the token, the optional message, the
    cache and the state a handler or command sees, and the actions it sends to
    the client's socket loop. */
module Contexts {
  import opened Wrappers
  import Entities
  import Mirror

  /** Which `State` value a context shares. The application's value, the
      default the client builds when none is given, or the separate default the
      client keeps for command contexts. `State` itself is not part of this model. */
  datatype StateRef = Supplied(handle: nat) | PartialDefault | ClientDefault

  /** `ClientEvent`: the frames the client sends. */
  datatype ClientEvent = Authenticate(token: string) | BeginTyping(channelId: Entities.ID)
                       | EndTyping(channelId: Entities.ID) | Ping(data: nat)

  /** What the messenger asks of the socket loop. */
  datatype Action = SendEvent(event: ClientEvent) | GetLatency | Close

  /** A context, with the contents of its cache at the time it is used. */
  datatype Context = Context(token: string, cache: Mirror.Snapshot, msg: Option<Entities.Message>, state: StateRef)

  /** `Context::new`: the given token, message and state, and a fresh empty
      cache. */
  function NewContext(token: string, msg: Option<Entities.Message>, state: StateRef): (r: Context)
    ensures r.cache == Mirror.Empty
    ensures r.msg == msg && r.state == state
  {
    Context(token, Mirror.Empty, msg, state)
  }

  /** `token()`. */
  function Token(ctx: Context): string {
    ctx.token
  }

  /** `token()` gives back what `new` was given. */
  lemma TokenRoundTrip(token: string, msg: Option<Entities.Message>, state: StateRef)
    ensures Token(NewContext(token, msg, state)) == token
  {
  }

  /** `msg()`: the message, or `None` where the call panics. */
  function Msg(ctx: Context): (r: Option<Entities.Message>)
    ensures r.Some? <==> ctx.msg.Some?
    ensures r.Some? ==> r.value == ctx.msg.value
  {
    ctx.msg
  }

  /** `begin_typing` and `end_typing`: the frame the messenger is asked to send. */
  function BeginTypingAction(channelId: Entities.ID): (r: Action)
    ensures r.SendEvent? && r.event.BeginTyping? && r.event.channelId == channelId
  {
    SendEvent(BeginTyping(channelId))
  }

  function EndTypingAction(channelId: Entities.ID): (r: Action)
    ensures r.SendEvent? && r.event.EndTyping? && r.event.channelId == channelId
  {
    SendEvent(EndTyping(channelId))
  }

  /** The first available latency in a sequence of replies. */
  function FirstSome(replies: seq<Option<nat>>): (r: Option<nat>)
    ensures r.Some? <==> exists i :: 0 <= i < |replies| && replies[i].Some?
    ensures r.Some? ==> r in replies
  {
    if replies == [] then None
    else if replies[0].Some? then replies[0]
    else
      assert forall i :: 0 < i < |replies| ==> replies[i] == replies[1..][i - 1];
      FirstSome(replies[1..])
  }

  /** The index of the first available latency. */
  function FirstSomeIndex(replies: seq<Option<nat>>): (i: nat)
    requires exists i :: 0 <= i < |replies| && replies[i].Some?
    ensures i < |replies| && replies[i].Some?
    ensures forall j :: 0 <= j < i ==> replies[j].None?
    ensures replies[i] == FirstSome(replies)
  {
    if replies[0].Some? then 0
    else
      assert exists i :: 0 <= i < |replies[1..]| && replies[1..][i].Some? by {
        var k :| 0 <= k < |replies| && replies[k].Some?;
        assert replies[1..][k - 1] == replies[k];
      }
      1 + FirstSomeIndex(replies[1..])
  }

  /** `latency`: ask the messenger, and on no answer sleep and ask again.
      `replies` are the successive answers; `sleeps` counts the sleeps. When the
      replies run out without an answer the call is still polling, and the
      result is `None`. */
  method Latency(replies: seq<Option<nat>>) returns (r: Option<nat>, sleeps: nat)
    ensures r == FirstSome(replies)
    ensures r.Some? ==> sleeps == FirstSomeIndex(replies)
    ensures r.None? ==> sleeps == |replies|
  {
    sleeps := 0;
    while sleeps < |replies|
      invariant sleeps <= |replies|
      invariant forall j :: 0 <= j < sleeps ==> replies[j].None?
      invariant FirstSome(replies) == FirstSome(replies[sleeps..])
    {
      if replies[sleeps].Some? {
        FirstSomeFrom(replies, sleeps);
        return replies[sleeps], sleeps;
      }
      assert replies[sleeps..][1..] == replies[sleeps + 1..];
      sleeps := sleeps + 1;
    }
    return None, sleeps;
  }

  /** When the first `k` replies are empty and the next is not, the next is the
      first answer, at index `k`. */
  lemma FirstSomeFrom(replies: seq<Option<nat>>, k: nat)
    requires k < |replies| && replies[k].Some?
    requires forall j :: 0 <= j < k ==> replies[j].None?
    ensures FirstSomeIndex(replies) == k
  {
    var i := FirstSomeIndex(replies);
    assert replies[i].Some? && replies[k].Some?;
  }
}
