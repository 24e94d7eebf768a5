/** The inbound frames of the push stream that the client handles: the cache
    events, the events that only reach handlers, and the two authentication
    replies. The payload types of the handler-only events are plain records. */
module ServerEvents {
  import Errors
  import Entities
  import ReadyEvents
  import ServerUpdateEvents
  import MemberUpdateEvents
  import UserUpdateEvents
  import GroupMembershipEvents
  import MemberJoinEvents
  import RemovalEvents

  datatype MessageUpdateEvent = MessageUpdateEvent(messageId: Entities.ID, channelId: Entities.ID)
  datatype MessageDeleteEvent = MessageDeleteEvent(messageId: Entities.ID, channelId: Entities.ID)
  /** The payload of a channel update; its own file is not part of this model. */
  datatype ChannelUpdateEvent = ChannelUpdateEvent(channelId: Entities.ID)
  datatype ChannelStartTypingEvent = ChannelStartTypingEvent(channelId: Entities.ID, userId: Entities.ID)
  datatype ChannelStopTypingEvent = ChannelStopTypingEvent(channelId: Entities.ID, userId: Entities.ID)
  datatype ChannelAckEvent = ChannelAckEvent(channelId: Entities.ID, userId: Entities.ID, messageId: Entities.ID)
  datatype ServerRoleUpdateEvent = ServerRoleUpdateEvent(serverId: Entities.ID, roleId: Entities.ID)
  datatype ServerRoleDeleteEvent = ServerRoleDeleteEvent(serverId: Entities.ID, roleId: Entities.ID)

  /** `ServerEvent`. `Other` stands for every variant the client neither caches
      nor dispatches (such as the heartbeat reply). */
  datatype ServerEvent =
    | Error(error: Errors.AuthenticationError)
    | Authenticated
    | Ready(ready: ReadyEvents.ReadyEvent)
    | Message(message: Entities.Message)
    | MessageUpdate(messageUpdate: MessageUpdateEvent)
    | MessageDelete(messageDelete: MessageDeleteEvent)
    | ChannelCreate(channel: Entities.Channel)
    | ChannelUpdate(channelUpdate: ChannelUpdateEvent)
    | ChannelDelete(channelDelete: RemovalEvents.ChannelDeleteEvent)
    | ChannelGroupJoin(groupJoin: GroupMembershipEvents.ChannelGroupJoinEvent)
    | ChannelGroupLeave(groupLeave: GroupMembershipEvents.ChannelGroupLeaveEvent)
    | ChannelStartTyping(startTyping: ChannelStartTypingEvent)
    | ChannelStopTyping(stopTyping: ChannelStopTypingEvent)
    | ChannelAck(ack: ChannelAckEvent)
    | ServerUpdate(serverUpdate: ServerUpdateEvents.ServerUpdateEvent)
    | ServerDelete(serverDelete: RemovalEvents.ServerDeleteEvent)
    | ServerMemberUpdate(memberUpdate: MemberUpdateEvents.ServerMemberUpdateEvent)
    | ServerMemberJoin(memberJoin: MemberJoinEvents.ServerMemberJoinEvent)
    | ServerMemberLeave(memberLeave: RemovalEvents.ServerMemberLeaveEvent)
    | ServerRoleUpdate(roleUpdate: ServerRoleUpdateEvent)
    | ServerRoleDelete(roleDelete: ServerRoleDeleteEvent)
    | UserUpdate(userUpdate: UserUpdateEvents.UserUpdateEvent)
    | Other(name: string)
}
