# resvolt core in Dafny

This project models the core of resvolt, a Rust client library for bots on the
Revolt chat platform. It covers:

- the client's event loop: the authentication handshake, dispatching each server
  event to a task, routing text messages to commands, and the action channel
  that contexts use to reach the WebSocket;
- the command registry and its error handler;
- the event-handler callback table;
- the in-memory cache and how each server event updates it;
- the HTTP client's rate-limit lease selection and the REST resource paths
  used by the model types;
- the request builders and the small value types (message content, system
  message channels, member identifiers).

The cache is a class (`Mirror.Cache`) whose four maps the update methods
reassign. Each update method is proved equal to a pure function on a
`Mirror.Snapshot` value, and the lemmas are stated about those functions.
The client (`ClientLoop.Client`) and the command registry
(`Commands.CommandRegistry`) are classes as well. Their methods are proved
against `ClientLoop.Run` / `ClientLoop.ListenOutcome` and
`Commands.Execute` / `Commands.HandleError`.

Each event task runs to completion before the next event is read. The outside
world is passed in as parameters:

- the HTTP response a request would get (`Http.Response`);
- what a command or callback returns (`ClientLoop.TaskWorld`);
- what the WebSocket delivers (`ClientLoop.Input`).

Modules, one per file:

| file | module | models |
|---|---|---|
| wrappers.dfy | Wrappers | `Option`, `Result` |
| errors.dfy | Errors | `src/error.rs` error kinds |
| entities.dfy | Entities | users, channels, servers, members, messages |
| content.dfy | MessageContent | display of message content |
| system_channels.dfy | SystemChannels | system message channel setters |
| builders.dfy | MessageBuilders, ChannelBuilders | request builders |
| http.dfy | Http | URL building, rate-limit leases, request outcome |
| resources.dfy | Resources | REST paths and calls of the model types, cache-first fetches |
| cache.dfy | Mirror | the cache and its getters |
| ready.dfy … member_join.dfy, channel_cache.dfy, removals.dfy | *Events, ChannelCache | cache update of each event |
| cache_update.dfy | CacheUpdate | `Cache::update` dispatch |
| server_events.dfy | ServerEvents | the server event enum |
| event_handler.dfy | EventHandler | callback dispatch |
| context.dfy | Contexts | context construction, typing actions, latency |
| command_registry.dfy | Commands | command registry |
| client.dfy | ClientLoop | message routing, event tasks, handshake, listen loop |

`Entities.User.IsBot` holds exactly when the user carries bot information, and
`Entities.Message.IsEdited` exactly when the message carries an edit date
(src/models/user/mod.rs:55-57, src/models/message/mod.rs:75-77). Both are
predicates whose definition is that equivalence, so they carry no contract of
their own.

Behaviour of the code that the model reproduces as written:

- `obtain_lease` matches POST and DELETE paths against `"/channels"` and
  `"/auth"` with a leading slash. The paths the library builds have no leading
  slash, so every POST and DELETE takes the shared limiter.
- The rate of a table entry is `limit / 10`, which is zero for `servers` (5)
  and `auth` (3). A zero rate makes the quota constructor's `unwrap` panic. So
  every GET, PUT or PATCH under `servers/` panics. This includes fetching a
  server or a member on a cache miss, and the member fetch a member-join event
  performs on a cache miss (`Http.LeasePanicsIff`, `Resources.MissOutcomes`,
  `MemberJoinEvents.UncachedPanics`).
- A text message with no words panics its task at `words[0]`.
- The bot's own message makes the message arm of the event handler loop forever.
- An unknown command reports `CommandNotFound` to the error handler and then
  succeeds.

## Model

| member | source | states |
|---|---|---|
| Http.ObtainLease | src/http.rs:176-206 | the lease of a request: POST to `/channels…/messages` gets a fresh limiter at 1 per second and DELETE under `/auth` one at 25, other POST/DELETE the shared one; any other method a fresh limiter at a tenth of its first segment's table rate, a panic when that is zero, or the shared limiter for an unlisted segment (properties in the rows below) |
| Http.ClassRate | src/http.rs:22-28 | a table class's rate, `RATE_LIMITS[segment] / 10` in integer division (see ZeroRateClasses, ClassRates) |
| Http.FirstSegment | src/http.rs:199-200 | the segment before the first `/`: a prefix of the path without `/`, followed by `/` or the end |
| Http.FirstSegmentOfJoin | src/http.rs:199-200 | the first segment of `a/b` is `a` when `a` has no `/` |
| Http.ZeroRateClasses | src/http.rs:22-28 | a table entry's rate `limit / 10` is zero exactly for `servers` and `auth` |
| Http.LeasePanicsIff | src/http.rs:176-206 | `obtain_lease` panics exactly for a non-POST, non-DELETE path whose first segment is `servers` or `auth` |
| Http.ClassRates | src/http.rs:22-28 | every table class has rate 0, 1 or 10 per second |
| Http.FreshRates | src/http.rs:182-204 | a fresh limiter is built only with rates 1, 10 or 25 per second |
| Http.TableRates | src/http.rs:197-205 | GET/PUT/PATCH under `bots` and `channels` get 1 per second, `swagger` 10, unlisted roots the shared limiter |
| Http.SegmentRate | src/http.rs:197-205 | a GET/PUT/PATCH under a table class gets a fresh limiter at a tenth of its rate, or panics when that is 0 |
| Http.PrefixOfPrefix | src/http.rs:182-196 | a path starting with `/channels…/messages` starts with `/channels` |
| Http.NoLeadingSlashIsShared | src/http.rs:182-196 | a POST or DELETE path without a leading `/` always takes the shared limiter |
| Http.MakeUrl | src/http.rs:73-75 | the URL is the API base, a `/`, then the path unchanged |
| Http.Answer | src/http.rs:79-95 | a request panics exactly when its lease panics, otherwise it returns the decoded body or the API error |
| Http.HttpClient.constructor | src/http.rs:41-71 | a new client holds the given bot user and has sent nothing |
| Http.HttpClient.Send | src/http.rs:79-175 | a request takes its lease, records the request unless the lease panics, and answers as `Answer` says |
| Resources.RequestFor | src/models/channel/mod.rs:35-64 | the method, path and body each REST call of the channel, message, server, member and user types sends (see PathRoot, CallLease, ReplyAddsOne) |
| Resources.PathRoot | src/models/channel/mod.rs:35-64 | every resource path is `root/rest` with the call's root as first segment and no leading `/` |
| Resources.CallLease | src/http.rs:176-206 | each resource call's lease: channel GET/PATCH fresh(1), user calls and all POST/DELETE shared, server GET/PUT/PATCH panic |
| Resources.ReplyAddsOne | src/models/message/mod.rs:91-103 | replying posts to the message's channel with the builder plus one reply entry |
| Resources.MessageCallsShareAPath | src/models/message/mod.rs:59-112 | fetch and edit of a message address the same path |
| Resources.MessagePathInjective | src/models/message/mod.rs:59-64 | distinct (channel, message) pairs give distinct message paths |
| Resources.FetchChannel | src/models/channel/mod.rs:35-42 | a cached channel is returned without a request, otherwise the GET's answer |
| Resources.FetchServer | src/models/server/mod.rs:54-61 | a cached server is returned without a request, otherwise the GET's answer |
| Resources.FetchMember | src/models/server/member.rs:48-57 | a cached member is returned without a request, otherwise the GET's answer |
| Resources.FetchUser | src/models/user/mod.rs:45-52 | a cached user is returned without a request, otherwise the GET's answer |
| Resources.MissOutcomes | src/http.rs:199-204 | on a miss, channel and user fetches deliver the response while server and member fetches panic |
| Resources.ChannelMiss | src/models/channel/mod.rs:35-42 | an uncached channel fetch returns the GET response without a panic |
| Resources.ServerMiss | src/models/server/mod.rs:54-61 | an uncached server fetch panics in the lease for `servers/` |
| Resources.MemberMiss | src/models/server/member.rs:48-57 | an uncached member fetch panics in the lease for `servers/` |
| Resources.UserMiss | src/models/user/mod.rs:45-52 | an uncached user fetch returns the GET response without a panic |
| Resources.PathShape | src/models/channel/mod.rs:35-64 | every resource path is the call's root name joined with `/` to the rest |
| Mirror.FilterValues | src/cache.rs:54-68 | the result holds one value per kept entry: each value is read from a distinct key whose value the predicate keeps, every kept entry is present, and the length is the number of kept keys |
| Mirror.FilterLength | src/cache.rs:54-68 | a filter result has exactly as many values as keys whose value is kept |
| Mirror.DistinctCard | src/cache.rs:54-68 | a sequence of distinct keys has as many elements as its set |
| Mirror.Cache.constructor | src/cache.rs:15-21 | a default cache has four empty maps |
| Mirror.Cache.User | src/cache.rs:44-46 | the user stored under the ID, or none exactly when absent |
| Mirror.Cache.Users | src/cache.rs:49-51 | a copy of the user map |
| Mirror.Cache.FilterUsers | src/cache.rs:54-68 | exactly the kept users, one value per key read from that key, so equal values under two keys appear twice |
| Mirror.Cache.Channel | src/cache.rs:71-73 | the channel stored under the ID, or none exactly when absent |
| Mirror.Cache.Channels | src/cache.rs:76-78 | a copy of the channel map |
| Mirror.Cache.FilterChannels | src/cache.rs:81-95 | exactly the kept channels, one value per key read from that key, so equal values under two keys appear twice |
| Mirror.Cache.Server | src/cache.rs:98-100 | the server stored under the ID, or none exactly when absent |
| Mirror.Cache.Servers | src/cache.rs:103-105 | a copy of the server map |
| Mirror.Cache.FilterServers | src/cache.rs:108-122 | exactly the kept servers, one value per key read from that key, so equal values under two keys appear twice |
| Mirror.Cache.ServersCount | src/cache.rs:125-127 | the number of cached servers |
| Mirror.Cache.Member | src/cache.rs:130-132 | the member stored under the ID, or none exactly when absent |
| Mirror.Cache.Members | src/cache.rs:135-137 | a copy of the member map |
| Mirror.Cache.FilterMembers | src/cache.rs:140-154 | exactly the kept members, one value per key read from that key, so equal values under two keys appear twice |
| ReadyEvents.Index | src/models/events/ready.rs:28-48 | the map a loop of inserts builds from a list, later elements overwriting earlier ones (see IndexKeys … IndexSize) |
| ReadyEvents.Apply | src/models/events/ready.rs:26-48 | the cache after Ready: each map overridden by the index of the event's list (see ReadyKeys … ReadyKeepsKeyed) |
| ReadyEvents.IndexKeys | src/models/events/ready.rs:28-48 | inserting a list keys the map by exactly the list's keys |
| ReadyEvents.IndexLastOccurrence | src/models/events/ready.rs:28-48 | for a repeated key the last element in the list wins |
| ReadyEvents.IndexKeyed | src/models/events/ready.rs:28-48 | every entry is stored under its own key |
| ReadyEvents.IndexSize | src/models/events/ready.rs:28-48 | a list with distinct keys gives a map of the same size |
| ReadyEvents.InsertAll | src/models/events/ready.rs:28-48 | the loop of inserts equals the old map overridden by the list's index |
| ReadyEvents.Update | src/models/events/ready.rs:26-48 | the cache after Ready is the old cache with users, channels, servers and members inserted |
| ReadyEvents.InsertKeys | src/models/events/ready.rs:28-48 | the keys after inserting are the old keys plus the list's keys |
| ReadyEvents.UserKeys | src/models/events/ready.rs:28-30 | the user keys grow by exactly the IDs of the event's users |
| ReadyEvents.ChannelKeys | src/models/events/ready.rs:34-36 | the channel keys grow by exactly the IDs of the event's channels |
| ReadyEvents.ServerKeys | src/models/events/ready.rs:40-42 | the server keys grow by exactly the IDs of the event's servers |
| ReadyEvents.MemberKeys | src/models/events/ready.rs:46-48 | the member keys grow by exactly the IDs of the event's members |
| ReadyEvents.ReadyKeys | src/models/events/ready.rs:26-48 | the user, channel, server and member keys grow by exactly the event's keys |
| ReadyEvents.ReadyUserLastWins | src/models/events/ready.rs:28-30 | each user is cached unless a later user in the event has its ID |
| ReadyEvents.ReadyChannelLastWins | src/models/events/ready.rs:34-38 | each channel is cached unless a later channel in the event has its ID |
| ReadyEvents.ReadyServerLastWins | src/models/events/ready.rs:40-42 | each server is cached unless a later server in the event has its ID |
| ReadyEvents.ReadyMemberLastWins | src/models/events/ready.rs:44-48 | each member is cached unless a later member in the event has its ID |
| ReadyEvents.ReadyKeepsOthers | src/models/events/ready.rs:26-48 | in each of the four maps, a cached entry whose key the event does not mention keeps its value |
| ReadyEvents.ReadySizes | src/models/events/ready.rs:26-48 | from an empty cache, each list with distinct ids fills its map one to one |
| ReadyEvents.ReadyIdempotent | src/models/events/ready.rs:26-48 | applying the same Ready twice changes nothing more |
| ReadyEvents.ReadyKeepsKeyed | src/models/events/ready.rs:26-48 | Ready keeps every entry under its own ID |
| ServerUpdateEvents.Patched | src/models/events/server/update.rs:68-102 | the server after the clear and then the data of an update (see ClearRemoves, DataWinsOverClear, EmptyCategoriesUnchanged) |
| ServerUpdateEvents.Apply | src/models/events/server/update.rs:67-103 | the cache with the named server patched when it is cached, unchanged otherwise (see UncachedUnchanged, Idempotent) |
| ServerUpdateEvents.Update | src/models/events/server/update.rs:67-103 | the cached server is patched in place, nothing else changes |
| ServerUpdateEvents.Patch | src/models/events/server/update.rs:67-103 | the field-by-field patch equals `Patched` |
| ServerUpdateEvents.UncachedUnchanged | src/models/events/server/update.rs:67-68 | an uncached server leaves the cache unchanged |
| ServerUpdateEvents.ClearRemoves | src/models/events/server/update.rs:68-74 | a cleared icon, banner or description without new data is removed |
| ServerUpdateEvents.DataWinsOverClear | src/models/events/server/update.rs:76-102 | new data for a field overrides its clear |
| ServerUpdateEvents.EmptyCategoriesUnchanged | src/models/events/server/update.rs:92-94 | an empty category list keeps the old categories |
| ServerUpdateEvents.EmptyEventIsIdentity | src/models/events/server/update.rs:67-103 | an event with no data and no clear leaves the server unchanged |
| ServerUpdateEvents.Idempotent | src/models/events/server/update.rs:67-103 | applying the same update twice changes nothing more |
| ServerUpdateEvents.KeepsKeyed | src/models/events/server/update.rs:67-103 | the patched server keeps its ID |
| MemberUpdateEvents.Patched | src/models/events/server/member_update.rs:68-85 | the member after the clear and then the data of an update (see ClearAndData, RolesReplacedIffNonEmpty) |
| MemberUpdateEvents.Apply | src/models/events/server/member_update.rs:66-87 | the cache with the named member patched when it is cached, unchanged otherwise (see UncachedUnchanged, Frame) |
| MemberUpdateEvents.Update | src/models/events/server/member_update.rs:66-87 | the cached member is patched, nothing else changes |
| MemberUpdateEvents.UncachedUnchanged | src/models/events/server/member_update.rs:66-67 | an uncached member leaves the cache unchanged |
| MemberUpdateEvents.ClearAndData | src/models/events/server/member_update.rs:68-81 | a clear without data removes the field; data sets it |
| MemberUpdateEvents.RolesReplacedIffNonEmpty | src/models/events/server/member_update.rs:83-85 | a non-empty role list from the event replaces the roles, an empty one keeps the stored roles |
| MemberUpdateEvents.Frame | src/models/events/server/member_update.rs:66-87 | only the named member's entry can change |
| MemberUpdateEvents.Idempotent | src/models/events/server/member_update.rs:66-87 | applying the same update twice changes nothing more |
| MemberUpdateEvents.KeepsKeyed | src/models/events/server/member_update.rs:66-87 | the patched member keeps its ID |
| UserUpdateEvents.ClearedStatus | src/models/events/user_update.rs:63-73 | the status with its text dropped when the clear names the status text and a status exists (see StatusTextClear) |
| UserUpdateEvents.Patched | src/models/events/user_update.rs:63-85 | the user after the clear and then the data of an update (see ProfileIgnored, DataWinsOverClear, Frame) |
| UserUpdateEvents.Apply | src/models/events/user_update.rs:61-87 | the cache with the named user patched when it is cached, unchanged otherwise (see UncachedUnchanged, Idempotent) |
| UserUpdateEvents.Update | src/models/events/user_update.rs:61-87 | the cached user is patched, nothing else changes |
| UserUpdateEvents.UncachedUnchanged | src/models/events/user_update.rs:61-62 | an uncached user leaves the cache unchanged |
| UserUpdateEvents.ProfileIgnored | src/models/events/user_update.rs:63-85 | profile data and profile clears have no effect on the cached user |
| UserUpdateEvents.StatusTextClear | src/models/events/user_update.rs:63-73 | clearing the status text drops the text and keeps the presence |
| UserUpdateEvents.DataWinsOverClear | src/models/events/user_update.rs:63-85 | new status or avatar overrides a clear; a cleared avatar without data is removed |
| UserUpdateEvents.Frame | src/models/events/user_update.rs:61-87 | a user update never changes the user's ID, name, badges, flags or bot information |
| UserUpdateEvents.Idempotent | src/models/events/user_update.rs:61-87 | applying the same update twice changes nothing more |
| UserUpdateEvents.KeepsKeyed | src/models/events/user_update.rs:61-87 | the patched user keeps its ID |
| GroupMembershipEvents.RemoveFirst | src/models/events/channel/group_leave.rs:43-49 | removing the first occurrence drops one copy and nothing else, and leaves a list without it unchanged |
| GroupMembershipEvents.Position | src/models/events/channel/group_leave.rs:43-49 | the position found is the first occurrence, and is found exactly when present |
| GroupMembershipEvents.RemoveFirstAt | src/models/events/channel/group_leave.rs:43-49 | removing the first occurrence cuts the list at that position |
| GroupMembershipEvents.ApplyJoin | src/models/events/channel/group_join.rs:38-45 | the cache with the user appended to a cached group channel's recipients (see JoinDuplicates, LeaveUndoesJoin) |
| GroupMembershipEvents.ApplyLeave | src/models/events/channel/group_leave.rs:38-52 | the cache with the user's first occurrence removed from a cached group channel (see RemoveFirst, Frame) |
| GroupMembershipEvents.UpdateJoin | src/models/events/channel/group_join.rs:38-45 | a cached group channel gets the user appended to its recipients |
| GroupMembershipEvents.UpdateLeave | src/models/events/channel/group_leave.rs:38-52 | a cached group channel loses the user's first occurrence |
| GroupMembershipEvents.LeaveUndoesJoin | src/models/events/channel/group_leave.rs:43-49 | leaving right after joining restores the recipients |
| GroupMembershipEvents.RemoveFirstKeepsOrder | src/models/events/channel/group_leave.rs:43-49 | removal keeps the order of the other recipients |
| GroupMembershipEvents.JoinDuplicates | src/models/events/channel/group_join.rs:43 | joining twice lists the user twice |
| GroupMembershipEvents.JoinKeepsKeyed | src/models/events/channel/group_join.rs:38-45 | a join keeps each channel under its own ID |
| GroupMembershipEvents.LeaveKeepsKeyed | src/models/events/channel/group_leave.rs:38-52 | a leave keeps each channel under its own ID |
| GroupMembershipEvents.Frame | src/models/events/channel/group_leave.rs:38-52 | only the named group channel can change |
| RemovalEvents.ApplyChannelDelete | src/models/events/channel/delete.rs:18-22 | the cache with the channel's entry removed (see ChannelDeleteEffect) |
| RemovalEvents.ApplyServerDelete | src/models/events/server/delete.rs:18-22 | the cache with the server's entry removed (see ServerDeleteEffect) |
| RemovalEvents.ApplyMemberLeave | src/models/events/server/member_leave.rs:38-46 | the cache with the member's composite entry removed (see MemberLeaveEffect) |
| RemovalEvents.UpdateChannelDelete | src/models/events/channel/delete.rs:18-22 | the channel entry is removed |
| RemovalEvents.UpdateServerDelete | src/models/events/server/delete.rs:18-22 | the server entry is removed |
| RemovalEvents.UpdateMemberLeave | src/models/events/server/member_leave.rs:38-46 | the member entry is removed |
| RemovalEvents.ChannelDeleteEffect | src/models/events/channel/delete.rs:20 | exactly the channel's key disappears, the rest of the cache is unchanged |
| RemovalEvents.ServerDeleteEffect | src/models/events/server/delete.rs:20 | exactly the server's key disappears, the rest of the cache is unchanged |
| RemovalEvents.MemberLeaveEffect | src/models/events/server/member_leave.rs:40-44 | exactly the member's key disappears, the rest of the cache is unchanged |
| RemovalEvents.Idempotent | src/models/events/server/delete.rs:18-22 | each removal applied twice changes nothing more |
| RemovalEvents.NoCascade | src/models/events/server/delete.rs:20 | deleting a server or channel leaves the other maps untouched |
| RemovalEvents.ChannelDeleteKeepsKeyed | src/models/events/channel/delete.rs:18-22 | a channel deletion keeps every entry under its own ID |
| RemovalEvents.ServerDeleteKeepsKeyed | src/models/events/server/delete.rs:18-22 | a server deletion keeps every entry under its own ID |
| RemovalEvents.MemberLeaveKeepsKeyed | src/models/events/server/member_leave.rs:38-46 | a member leave keeps every entry under its own ID |
| ChannelCache.ApplyChannel | src/models/channel/mod.rs:101-109 | the cache with the channel stored under its ID (see ChannelStored) |
| ChannelCache.ApplyMessage | src/models/message/mod.rs:135-146 | the cache with the message recorded as last message of its cached channel (see MessageEffect, MessageNoEffect) |
| ChannelCache.UpdateChannel | src/models/channel/mod.rs:101-109 | the channel is stored under its ID |
| ChannelCache.WithLastMessage | src/models/message/mod.rs:137-143 | a voice channel never records a last message |
| ChannelCache.UpdateMessage | src/models/message/mod.rs:135-146 | the message's cached channel records it as last message |
| ChannelCache.ChannelStored | src/models/channel/mod.rs:101-109 | the new channel replaces its key only, and the cache stays keyed |
| ChannelCache.MessageEffect | src/models/message/mod.rs:137-143 | a cached non-voice channel has the message as last message and is otherwise unchanged |
| ChannelCache.MessageNoEffect | src/models/message/mod.rs:137-143 | an uncached or voice channel leaves the cache unchanged |
| ChannelCache.MessageFrame | src/models/message/mod.rs:135-146 | only the message's channel can change; the update is idempotent and keeps the cache keyed |
| MemberJoinEvents.Apply | src/models/events/server/member_join.rs:43-53 | the cache with the fetched member inserted, unchanged on an error, or the task's panic (see CachedUnchanged, UncachedPanics) |
| MemberJoinEvents.Update | src/models/events/server/member_join.rs:43-53 | the cache gets the fetched member, or the task panics and the cache is unchanged |
| MemberJoinEvents.CachedUnchanged | src/models/events/server/member_join.rs:45-50 | a member already cached is stored again unchanged |
| MemberJoinEvents.UncachedPanics | src/models/events/server/member_join.rs:45-50 | an uncached member makes the task panic in the lease for `servers/` |
| MemberJoinEvents.Frame | src/models/events/server/member_join.rs:43-53 | only the member map can change |
| MemberJoinEvents.KeepsKeyed | src/models/events/server/member_join.rs:43-53 | a join keeps every entry under its own ID |
| CacheUpdate.Apply | src/cache.rs:24-41 | the cache after one event, by the event's own update, or the task's panic (see PanicsIff, KeepsKeyed) |
| CacheUpdate.Update | src/cache.rs:24-41 | each listed event runs its own update; the task panics exactly when that update does |
| CacheUpdate.UpdateInfallible | src/cache.rs:24-41 | every event other than a member join updates the cache as its own update says |
| CacheUpdate.UpdateChannelKind | src/cache.rs:27-32 | message, channel create/delete and group join/leave events run their own update |
| CacheUpdate.UpdateOtherKind | src/cache.rs:26-39 | Ready, user update and unlisted events run their own update or none |
| CacheUpdate.UpdateServerKind | src/cache.rs:33-37 | server update/delete and member update/leave run their own update |
| CacheUpdate.UnlistedUnchanged | src/cache.rs:38-39 | events of the kinds `Cache::update` does not list leave the cache unchanged |
| CacheUpdate.ChannelUpdateStub | src/cache.rs:29 | the model's stand-in for the channel update: it leaves the cache unchanged, since that update's own file is not part of this model |
| CacheUpdate.PanicsIff | src/cache.rs:24-41 | the cache update panics exactly for a member join whose member is uncached |
| CacheUpdate.KeepsKeyed | src/cache.rs:24-41 | every event keeps every cache entry under its own ID |
| CacheUpdate.ChannelKindKeepsKeyed | src/cache.rs:27-32 | message, channel and group events keep every entry under its own ID |
| CacheUpdate.OtherKindKeepsKeyed | src/cache.rs:26-39 | server, Ready, user and unlisted events keep every entry under its own ID |
| CacheUpdate.ServerKindKeepsKeyed | src/cache.rs:33-37 | server and member events keep every entry under its own ID |
| CacheUpdate.ServerEntryKeepsKeyed | src/cache.rs:33-34 | server update and delete keep every entry under its own ID |
| CacheUpdate.MemberEntryKeepsKeyed | src/cache.rs:35-37 | member update, join and leave keep every entry under its own ID |
| CacheUpdate.JoinKeepsKeyed | src/cache.rs:36 | a member join keeps every entry under its own ID |
| EventHandler.Handle | src/client/event_handler.rs:150-180 | the callback an event reaches, the spin on the bot's own message, or no callback (see DispatchIff, OneToOne) |
| EventHandler.DispatchIff | src/client/event_handler.rs:151-180 | an event reaches a callback exactly when the callback serves its kind and it is not the bot's own message; own messages spin; other kinds reach none |
| EventHandler.HandleResult | src/client/event_handler.rs:150-180 | what `handle` returns: the called callback's result, success when no callback is called, no result when it spins (see DefaultHandlerNeverFails) |
| EventHandler.OneToOne | src/client/event_handler.rs:151-180 | each callback serves one event kind |
| EventHandler.DefaultHandlerNeverFails | src/client/event_handler.rs:13-146 | the default callbacks all succeed |
| MessageContent.KindOf | src/models/message/content.rs:27-36 | the sentence kind of a non-text system message (see DisplayIgnoresFields) |
| MessageContent.Sentence | src/models/message/content.rs:27-36 | the fixed sentence of each kind (see SentenceInjective) |
| MessageContent.Display | src/models/message/content.rs:18-39 | text and system text render as themselves, other system messages as their fixed sentence |
| MessageContent.DisplayIgnoresFields | src/models/message/content.rs:27-36 | a system message's sentence depends only on its kind |
| MessageContent.SentenceInjective | src/models/message/content.rs:27-36 | distinct kinds have distinct sentences |
| SystemChannels.SystemMessageChannels.UserJoined | src/models/server/system_message_channels.rs:24-28 | sets the join channel and no other |
| SystemChannels.SystemMessageChannels.UserLeft | src/models/server/system_message_channels.rs:30-34 | sets the leave channel and no other |
| SystemChannels.SystemMessageChannels.UserKicked | src/models/server/system_message_channels.rs:36-40 | sets the kick channel and no other |
| SystemChannels.SystemMessageChannels.UserBanned | src/models/server/system_message_channels.rs:42-46 | sets the ban channel and no other |
| SystemChannels.Default | src/models/server/system_message_channels.rs:6 | the default has no channel set |
| SystemChannels.Extensional | src/models/server/system_message_channels.rs:6-20 | two values with the same four channels are equal |
| SystemChannels.SettersCommute | src/models/server/system_message_channels.rs:24-46 | setters of different slots commute |
| SystemChannels.SetterLastWins | src/models/server/system_message_channels.rs:24-46 | the last setter of a slot wins |
| Entities.Channel.Id | src/models/channel/mod.rs:45-52 | the ID of whichever channel kind it is |
| Entities.Channel.GetTextChannel | src/models/channel/mod.rs:66-72 | the text channel exactly when it is one |
| Entities.Channel.GetVoiceChannel | src/models/channel/mod.rs:74-80 | the voice channel exactly when it is one |
| Entities.Channel.GetGroupChannel | src/models/channel/mod.rs:82-88 | the group channel exactly when it is one |
| Entities.Channel.GetDmChannel | src/models/channel/mod.rs:90-96 | the direct message channel exactly when it is one |
| Entities.MemberIdFrom | src/models/server/member.rs:22-29 | a member ID carries the given server and user |
| Entities.CreateBanNew | src/models/server/member.rs:97-104 | a ban body carries the given reason |
| Entities.Zip | src/models/server/mod.rs:106-110 | pairs elements by position up to the shorter length |
| Entities.MemberPairs | src/models/server/mod.rs:106-110 | each member is paired with the user at the same position, up to the shorter list |
| MessageBuilders.CreateMessage.Attachment | src/builders/message.rs:41-44 | appends the attachment and changes nothing else |
| MessageBuilders.CreateMessage.ReplyTo | src/builders/message.rs:47-53 | appends the reply and changes nothing else |
| MessageBuilders.CreateMessage.Embed | src/builders/message.rs:56-59 | appends the built embed and changes nothing else |
| MessageBuilders.CreateMessage.Masquerade | src/builders/message.rs:62-65 | sets the masquerade and changes nothing else |
| MessageBuilders.NewCreateMessage | src/builders/message.rs:30-38 | only the content is set |
| MessageBuilders.CreateMessageFrom | src/builders/message.rs:68-72 | a string converts to a builder with that content |
| MessageBuilders.EditMessage.Content | src/builders/message.rs:90-93 | sets the content and keeps the embeds |
| MessageBuilders.EditMessage.Embed | src/builders/message.rs:96-99 | appends the built embed and keeps the content |
| MessageBuilders.NewEditMessage | src/builders/message.rs:85-87 | nothing is set |
| MessageBuilders.EditMessageFrom | src/builders/message.rs:102-106 | a string converts to an edit that sets that content |
| MessageBuilders.AttachmentsInOrder | src/builders/message.rs:41-44 | chained attachments are kept in call order |
| ChannelBuilders.CreateChannel.Description | src/builders/channel.rs:43-46 | sets the description and changes nothing else |
| ChannelBuilders.CreateChannel.Nsfw | src/builders/channel.rs:49-52 | sets the flag and changes nothing else |
| ChannelBuilders.TextChannel | src/builders/channel.rs:23-31 | a text channel with the name, no description, not nsfw |
| ChannelBuilders.VoiceChannel | src/builders/channel.rs:33-40 | a voice channel with the name, no description, not nsfw |
| ChannelBuilders.EditChannel.Name | src/builders/channel.rs:77-80 | sets the name and changes nothing else |
| ChannelBuilders.EditChannel.Description | src/builders/channel.rs:83-86 | sets the description and changes nothing else |
| ChannelBuilders.EditChannel.Icon | src/builders/channel.rs:89-92 | sets the icon and changes nothing else |
| ChannelBuilders.EditChannel.Nsfw | src/builders/channel.rs:95-98 | sets the flag and changes nothing else |
| ChannelBuilders.EditChannel.Remove | src/builders/channel.rs:101-104 | sets the field to remove and changes nothing else |
| ChannelBuilders.NewEditChannel | src/builders/channel.rs:72-74 | nothing is set |
| ChannelBuilders.SettersLastWins | src/builders/channel.rs:77-98 | the last call of each setter wins |
| Contexts.NewContext | src/client/context.rs:38-57 | a new context has an empty cache of its own and the given message and state |
| Contexts.Token | src/client/context.rs:60-62 | the token the context holds (see TokenRoundTrip) |
| Contexts.TokenRoundTrip | src/client/context.rs:60-62 | the token read back is the one the context was built with |
| Contexts.Msg | src/client/context.rs:127-129 | the message exactly when the context has one |
| Contexts.BeginTypingAction | src/client/context.rs:79-85 | sends a begin-typing event for the channel |
| Contexts.EndTypingAction | src/client/context.rs:88-94 | sends an end-typing event for the channel |
| Contexts.FirstSome | src/client/context.rs:100-110 | the first latency reply, present exactly when some reply is |
| Contexts.FirstSomeIndex | src/client/context.rs:100-110 | the position of the first reply, all earlier polls being empty |
| Contexts.Latency | src/client/context.rs:100-110 | the polling loop returns the first reply after one sleep per empty poll |
| Contexts.FirstSomeFrom | src/client/context.rs:100-110 | a reply preceded only by empty polls is the first one |
| Commands.NotFoundMessage | src/client/command_registry.rs:39 | the text `Command '<name>' not found` (see UnknownCommand) |
| Commands.HandleError | src/client/command_registry.rs:48-56 | succeeds and calls the handler once exactly when one is set, else fails with `ErrorHandlerNotSet` |
| Commands.Execute | src/client/command_registry.rs:33-46 | a known command runs with its own result; an unknown one reports `CommandNotFound` and succeeds |
| Commands.CommandRegistry.constructor | src/client/command_registry.rs:14-20 | the prefix, no commands, no error handler |
| Commands.CommandRegistry.RegisterCommand | src/client/command_registry.rs:23-25 | the name now maps to the command, nothing else changes |
| Commands.CommandRegistry.SetErrorHandler | src/client/command_registry.rs:28-30 | the handler is set, nothing else changes |
| Commands.CommandRegistry.ExecuteCommand | src/client/command_registry.rs:33-46 | agrees with `Execute` on the current registry |
| Commands.CommandRegistry.HandleErrorCall | src/client/command_registry.rs:48-56 | agrees with `HandleError` on the current registry |
| Commands.RegisterThenExecute | src/client/command_registry.rs:23-46 | a registered name runs its command; other names are unaffected |
| Commands.UnknownCommand | src/client/command_registry.rs:36-45 | an unknown name succeeds and calls the handler with `Command '<name>' not found` when one is set |
| Commands.LastHandlerWins | src/client/command_registry.rs:28-30 | the last handler set is the one called |
| ClientLoop.Words | src/client/mod.rs:139 | the whitespace-separated words of a text, in order (see WordsShape, FirstWordShape) |
| ClientLoop.RouteOf | src/client/mod.rs:137-179 | where an event goes: a command named by the first word, a panic at `words[0]`, nothing for a system message, or the event handler (see RouteCommandIff, QuietRoutes) |
| ClientLoop.Dispatch | src/client/mod.rs:137-180 | the task an event runs after the cache update, as its route says (see CommandTask, CommandFailureReachesHandler, UnknownCommandTask, FailureReachesHandler) |
| ClientLoop.PartialContext | src/client/mod.rs:129 | the client's own context a callback and its error handler get: the token, the shared cache, no message, the shared state |
| ClientLoop.CommandContext | src/client/mod.rs:141-147 | the context `Context::new` builds for a command: the token, the message and the client's default state (see CommandTask) |
| ClientLoop.OnFailure | src/client/mod.rs:152-160 | the error handler's calls for a failed outcome, its own result dropped with `.ok()`; nothing for a success |
| ClientLoop.RunTask | src/client/mod.rs:133-182 | one spawned task: the cache update, then the routed work unless the update panicked (see QuietRoutes) |
| ClientLoop.Authenticate | src/client/mod.rs:102-122 | the handshake's result from the token send and the first frame (see AuthenticateIff) |
| ClientLoop.Step | src/client/mod.rs:84-97 | the loop state after one input: an end of stream, an inbound event or an action (see EndedStays, HeartbeatIgnored, HandleAction) |
| ClientLoop.Run | src/client/mod.rs:83-98 | the loop state after a sequence of inputs (see EndedIff, WsSentGrows) |
| ClientLoop.ListenOutcome | src/client/mod.rs:78-100 | the result and final state of `listen`: the handshake, then the loop (see ListenOkIff) |
| ClientLoop.LeadingSpace | src/client/mod.rs:139 | the length of the leading whitespace run |
| ClientLoop.LeadingWord | src/client/mod.rs:139 | the length of the leading non-whitespace run |
| ClientLoop.WordsShape | src/client/mod.rs:139 | words are non-empty and whitespace-free, and there are none exactly when the text is all whitespace |
| ClientLoop.FirstWordShape | src/client/mod.rs:139-140 | a text that is not all whitespace has a first word: the text after the leading whitespace, up to the next whitespace or the end |
| ClientLoop.RouteCommandIff | src/client/mod.rs:137-179 | a command runs exactly for a text message whose first word starts with the prefix; system messages are ignored; other events go to the handler |
| ClientLoop.Lift | src/client/mod.rs:147-171 | registry calls are kept in order |
| ClientLoop.CommandTask | src/client/mod.rs:140-163 | a command task completes and only touches the registry, with a fresh context holding the message, an empty cache and the client's default state |
| ClientLoop.QuietRoutes | src/client/mod.rs:137-140 | a system message runs nothing; a whitespace-only text panics the task |
| ClientLoop.FailureReachesHandler | src/client/mod.rs:164-180 | a failing callback reaches the error handler exactly once when one is set, with the partial context |
| ClientLoop.CommandFailureReachesHandler | src/client/mod.rs:148-160 | a registered command runs once with its own context, and when it fails its error reaches the error handler exactly once, with that context, when one is set |
| ClientLoop.UnknownCommandTask | src/client/mod.rs:148-160 | an unknown command name reaches the error handler once with `CommandNotFound` when one is set, and no second `handle_error` follows |
| ClientLoop.AuthenticateIff | src/client/mod.rs:102-122 | the handshake succeeds exactly when the token is sent and `Authenticated` arrives first; send, stream and server errors propagate; a closed stream and an unexpected first frame each give their `Unknown` error |
| ClientLoop.HandleAction | src/client/mod.rs:188-194 | each action gets the WebSocket's answer to it |
| ClientLoop.EndedStays | src/client/mod.rs:88-97 | once the stream has ended, further inputs change nothing |
| ClientLoop.EndedIff | src/client/mod.rs:88-97 | the loop ends exactly when some frame read is the end of the stream |
| ClientLoop.HeartbeatIgnored | src/client/mod.rs:84-86 | heartbeat failures do not change the loop |
| ClientLoop.ListenOkIff | src/client/mod.rs:78-100 | `listen` returns `Ok` exactly after a good handshake and the end of the stream; a failed handshake is the result; the token goes first |
| ClientLoop.WsSentGrows | src/client/mod.rs:78-100 | frames sent are only ever appended |
| ClientLoop.Client.constructor | src/client/mod.rs:50-74 | empty cache, registry with the prefix, the supplied state or a default for the partial context |
| ClientLoop.Client.RegisterCommand | src/client/mod.rs:197-206 | the registry maps the name to the command |
| ClientLoop.Client.SetErrorHandler | src/client/mod.rs:209-214 | the registry holds the handler |
| ClientLoop.Client.HandleEvent | src/client/mod.rs:124-186 | one event step: cache update, routing and dispatch as `Step` says |
| ClientLoop.Client.Listen | src/client/mod.rs:78-100 | the loop's result and final state agree with `ListenOutcome` |
| ClientLoop.Client.Turn | src/client/mod.rs:88-98 | one turn stops exactly on a closed socket and otherwise advances the state as `Step` does |

## Left out

- Socket I/O, TLS and the JSON encoding of frames and bodies are not modelled. Deserialisation failures and the `json().unwrap()` panics on error bodies are left out, because they depend on the wire format.
- `HttpClient::new` fetches the bot user over the network. The model takes that user as a constructor parameter instead.
- Concurrency is not modelled: event tasks run one after another. So the model does not capture interleavings between tasks that share the cache, nor a task that spins forever running concurrently with later events. Such a task is marked `Diverged`, and the loop moves on.
- The governor rate limiter's timing and its 100 ms jitter are not modelled. The model only chooses which limiter applies and whether building it panics.
- The heartbeat is reduced to an outcome per step that the loop ignores. Its timing is not modelled.
- Contexts.Latency: the source polls forever at 150 ms per sleep. The model takes a finite list of poll results and reports how many sleeps occurred before the first reply.
- ClientLoop.Authenticate: the unexpected-event error text omits the event's debug rendering after the colon, because the model has no `Debug` formatter.
- CacheUpdate.ChannelUpdateStub: the cache effect of a channel update event is modelled as no change, because the channel update event's own `update` is not part of this model; `CacheUpdate.Apply` and everything built on it inherit that stand-in.
- Role updates and role deletions are modelled only as handler events. Their payloads, permission flags, `Server` flags and badges are not part of this model.
- The application's `State` is an opaque handle (`Contexts.StateRef`). Its contents are not modelled.
- The `EditServer` and `EditMember` bodies are opaque. The calls that send them are modelled; their fields are not.
- The error handler's and commands' own code is a parameter (`ClientLoop.TaskWorld`). The example programs are left out.
- Message deletion after a delay (`delete_after`) is modelled as a plain delete. The sleep is time only.
