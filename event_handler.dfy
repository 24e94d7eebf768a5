/** `RevoltEventHandlerExt::handle` (src/client/event_handler.rs): each event
    kind goes to its own callback, messages of the bot itself never leave the
    message arm, and the remaining kinds reach no callback. */
module EventHandler {
  import opened Wrappers
  import opened Errors
  import opened ServerEvents
  import Entities

  /** The callbacks of `RevoltEventHandler`. */
  datatype Callback =
    | OnReady | OnMessage | OnMessageUpdate | OnMessageDelete
    | OnChannelCreate | OnChannelUpdate | OnChannelDelete | OnChannelGroupJoin | OnChannelGroupLeave
    | OnChannelStartTyping | OnChannelStopTyping | OnChannelAck
    | OnServerUpdate | OnServerDelete | OnServerMemberUpdate | OnServerMemberJoin | OnServerMemberLeave
    | OnServerRoleUpdate | OnServerRoleDelete | OnUserUpdate

  /** What `handle` does with one event: call one callback with the event's
      payload, return `Ok(())` at once, or loop without end. */
  datatype Dispatch = Invoke(callback: Callback) | NoCallback | Spins

  /** `handle`; `botId` is the id of the bot's own user. */
  function Handle(botId: Entities.ID, e: ServerEvent): Dispatch {
    match e
    case Ready(_) => Invoke(OnReady)
    case Message(m) => if botId != m.authorId then Invoke(OnMessage) else Spins
    case MessageUpdate(_) => Invoke(OnMessageUpdate)
    case MessageDelete(_) => Invoke(OnMessageDelete)
    case ChannelCreate(_) => Invoke(OnChannelCreate)
    case ChannelUpdate(_) => Invoke(OnChannelUpdate)
    case ChannelDelete(_) => Invoke(OnChannelDelete)
    case ChannelGroupJoin(_) => Invoke(OnChannelGroupJoin)
    case ChannelGroupLeave(_) => Invoke(OnChannelGroupLeave)
    case ChannelStartTyping(_) => Invoke(OnChannelStartTyping)
    case ChannelStopTyping(_) => Invoke(OnChannelStopTyping)
    case ChannelAck(_) => Invoke(OnChannelAck)
    case ServerUpdate(_) => Invoke(OnServerUpdate)
    case ServerDelete(_) => Invoke(OnServerDelete)
    case ServerMemberUpdate(_) => Invoke(OnServerMemberUpdate)
    case ServerMemberJoin(_) => Invoke(OnServerMemberJoin)
    case ServerMemberLeave(_) => Invoke(OnServerMemberLeave)
    case ServerRoleUpdate(_) => Invoke(OnServerRoleUpdate)
    case ServerRoleDelete(_) => Invoke(OnServerRoleDelete)
    case UserUpdate(_) => Invoke(OnUserUpdate)
    case _ => NoCallback
  }

  /** The event kind each callback is declared for, read from the callback's
      side: an independent statement of the same table. */
  predicate ServesKind(cb: Callback, e: ServerEvent) {
    match cb
    case OnReady => e.Ready?
    case OnMessage => e.Message?
    case OnMessageUpdate => e.MessageUpdate?
    case OnMessageDelete => e.MessageDelete?
    case OnChannelCreate => e.ChannelCreate?
    case OnChannelUpdate => e.ChannelUpdate?
    case OnChannelDelete => e.ChannelDelete?
    case OnChannelGroupJoin => e.ChannelGroupJoin?
    case OnChannelGroupLeave => e.ChannelGroupLeave?
    case OnChannelStartTyping => e.ChannelStartTyping?
    case OnChannelStopTyping => e.ChannelStopTyping?
    case OnChannelAck => e.ChannelAck?
    case OnServerUpdate => e.ServerUpdate?
    case OnServerDelete => e.ServerDelete?
    case OnServerMemberUpdate => e.ServerMemberUpdate?
    case OnServerMemberJoin => e.ServerMemberJoin?
    case OnServerMemberLeave => e.ServerMemberLeave?
    case OnServerRoleUpdate => e.ServerRoleUpdate?
    case OnServerRoleDelete => e.ServerRoleDelete?
    case OnUserUpdate => e.UserUpdate?
  }

  /** A message written by the bot itself. */
  predicate OwnMessage(botId: Entities.ID, e: ServerEvent) {
    e.Message? && e.message.authorId == botId
  }

  /** `handle` calls exactly the callback declared for the event's kind, except
      on the bot's own messages, where it spins; kinds no callback serves return
      at once. */
  lemma DispatchIff(botId: Entities.ID, e: ServerEvent, cb: Callback)
    ensures Handle(botId, e) == Invoke(cb) <==> ServesKind(cb, e) && !OwnMessage(botId, e)
    ensures Handle(botId, e) == Spins <==> OwnMessage(botId, e)
    ensures Handle(botId, e) == NoCallback <==> forall c :: !ServesKind(c, e)
  {
    if Handle(botId, e) == NoCallback {
      forall c ensures !ServesKind(c, e) {
      }
    } else if e.Message? {
      assert ServesKind(OnMessage, e);
    } else {
      assert ServesKind(Handle(botId, e).callback, e);
    }
  }

  /** Distinct kinds reach distinct callbacks. */
  lemma OneToOne(botId: Entities.ID, e1: ServerEvent, e2: ServerEvent)
    requires Handle(botId, e1).Invoke? && Handle(botId, e1) == Handle(botId, e2)
    ensures ServesKind(Handle(botId, e1).callback, e2)
  {
  }

  /** The result of `handle` when the callbacks return `results`: the callback's
      result, `Done` when none is called, `None` when the call never returns. */
  function HandleResult(botId: Entities.ID, e: ServerEvent, results: Callback -> Outcome): Option<Outcome> {
    match Handle(botId, e)
    case Invoke(cb) => Some(results(cb))
    case NoCallback => Some(Done)
    case Spins => None
  }

  /** Every callback of `RevoltEventHandler` returns `Ok(())` unless overridden. */
  function DefaultResults(cb: Callback): Outcome {
    Done
  }

  /** With the default callbacks, `handle` never fails, and it returns unless
      the event is one of the bot's own messages. */
  lemma DefaultHandlerNeverFails(botId: Entities.ID, e: ServerEvent)
    ensures HandleResult(botId, e, DefaultResults) == (if OwnMessage(botId, e) then None else Some(Done))
  {
  }
}
