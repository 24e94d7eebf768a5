/** The client (src/client/mod.rs): the authentication handshake, the listen
    loop over inbound frames and messenger actions, and the task each inbound
    event spawns: the cache update, then either a command or the generic
    handler, with failures passed to the error handler. Tasks are taken to run
    to completion one after the other, in arrival order. */
module ClientLoop {
  import opened Wrappers
  import opened Errors
  import Entities
  import Mirror
  import Http
  import MessageContent
  import ServerEvents
  import CacheUpdate
  import MemberJoinEvents
  import EventHandler
  import Commands
  import Contexts

  /** Unicode `White_Space`, the separator of `str::split_whitespace`. */
  predicate IsWhitespace(c: char) {
    || ('\U{0009}' <= c <= '\U{000D}') || c == ' ' || c == '\U{0085}' || c == '\U{00A0}'
    || c == '\U{1680}' || ('\U{2000}' <= c <= '\U{200A}') || c == '\U{2028}' || c == '\U{2029}'
    || c == '\U{202F}' || c == '\U{205F}' || c == '\U{3000}'
  }

  /** The length of the run of whitespace at the start of `s`. */
  function LeadingSpace(s: string): (n: nat)
    ensures n <= |s|
    ensures forall i :: 0 <= i < n ==> IsWhitespace(s[i])
    ensures n == |s| || !IsWhitespace(s[n])
  {
    if s == [] || !IsWhitespace(s[0]) then 0 else 1 + LeadingSpace(s[1..])
  }

  /** The length of the run of non-whitespace at the start of `s`. */
  function LeadingWord(s: string): (n: nat)
    ensures n <= |s|
    ensures forall i :: 0 <= i < n ==> !IsWhitespace(s[i])
    ensures n == |s| || IsWhitespace(s[n])
  {
    if s == [] || IsWhitespace(s[0]) then 0 else 1 + LeadingWord(s[1..])
  }

  /** `split_whitespace().collect()`: the maximal runs of non-whitespace, in
      order. */
  function Words(s: string): seq<string>
    decreases |s|
  {
    var t := s[LeadingSpace(s)..];
    if t == [] then []
    else
      var n := LeadingWord(t);
      assert n > 0;
      [t[..n]] + Words(t[n..])
  }

  /** Every word is non-empty and holds no whitespace; there are no words
      exactly when the text is all whitespace. */
  lemma {:induction false} WordsShape(s: string)
    ensures forall w :: w in Words(s) ==> w != [] && forall c :: c in w ==> !IsWhitespace(c)
    ensures Words(s) == [] <==> forall c :: c in s ==> IsWhitespace(c)
    decreases |s|
  {
    var k := LeadingSpace(s);
    var t := s[k..];
    if t != [] {
      var n := LeadingWord(t);
      WordsShape(t[n..]);
      assert !IsWhitespace(s[k]);
    } else {
      forall c | c in s ensures IsWhitespace(c) {
        var i :| 0 <= i < |s| && s[i] == c;
      }
    }
  }

  /** When the text is not all whitespace there is a first word, and it is
      what follows the leading whitespace, up to the next whitespace or the end. */
  lemma FirstWordShape(s: string)
    requires LeadingSpace(s) < |s|
    ensures Words(s) != []
    ensures var k := LeadingSpace(s);
      && s[k..][..|Words(s)[0]|] == Words(s)[0]
      && (k + |Words(s)[0]| == |s| || IsWhitespace(s[k + |Words(s)[0]|]))
  {
  }

  /** Where `handle_event` sends an event after the cache update. */
  datatype Route =
    | RunCommand(name: string)   // a text message whose first word carries the prefix
    | NoWords                    // a text message with no word: `words[0]` panics
    | Ignored                    // a system message: no handler at all
    | Generic                    // every other event: the event handler

  function RouteOf(prefix: string, e: ServerEvents.ServerEvent): Route {
    if e.Message? then
      match e.message.content
      case Text(t) =>
        var words := Words(t);
        if words == [] then NoWords
        else if Http.StartsWith(words[0], prefix) then RunCommand(words[0][|prefix|..])
        else Generic
      case SystemMessage(_) => Ignored
    else Generic
  }

  /** A command runs exactly for a text message whose first word starts with the
      prefix, and its name is that word with the prefix cut off. */
  lemma RouteCommandIff(prefix: string, e: ServerEvents.ServerEvent)
    ensures RouteOf(prefix, e).RunCommand? <==>
      && e.Message? && e.message.content.Text?
      && Words(e.message.content.text) != []
      && Http.StartsWith(Words(e.message.content.text)[0], prefix)
    ensures RouteOf(prefix, e).RunCommand? ==>
      prefix + RouteOf(prefix, e).name == Words(e.message.content.text)[0]
    ensures RouteOf(prefix, e) == Ignored <==> e.Message? && e.message.content.SystemMessage?
    ensures !e.Message? ==> RouteOf(prefix, e) == Generic
  {
  }

  /** What the client knows when it spawns a task: the token, the bot's own user
      id and the state shared by the client's own context. */
  datatype Setup = Setup(token: string, botId: Entities.ID, state: Contexts.StateRef)

  /** A call a task makes into application code. */
  datatype Call =
    | Registry(invocation: Commands.Invocation)
    | Callback(callback: EventHandler.Callback, ctx: Contexts.Context)

  function Lift(xs: seq<Commands.Invocation>): (r: seq<Call>)
    ensures |r| == |xs| && forall i :: 0 <= i < |xs| ==> r[i] == Registry(xs[i])
  {
    seq(|xs|, i requires 0 <= i < |xs| => Registry(xs[i]))
  }

  /** How a task ends: normally, by a panic, or never. */
  datatype TaskEnd = Completed | Panicked | Diverged

  datatype Task = Task(calls: seq<Call>, end: TaskEnd)

  /** The answers application code and the remote end give while one task
      runs: the remote answer to a member fetch, each command's result and each
      callback's result. */
  datatype TaskWorld = TaskWorld(
    memberResponse: Http.Response<Entities.Member>,
    run: Commands.CommandId -> Outcome,
    callbacks: EventHandler.Callback -> Outcome)

  /** The client's own context, as a handler sees it: the shared mirror, no
      message. */
  function PartialContext(setup: Setup, mirror: Mirror.Snapshot): Contexts.Context {
    Contexts.Context(setup.token, mirror, None, setup.state)
  }

  /** A command's context: `Context::new` with the message and the client's own
      default state. */
  function CommandContext(setup: Setup, m: Entities.Message): Contexts.Context {
    Contexts.NewContext(setup.token, Some(m), Contexts.ClientDefault)
  }

  /** The error handler's calls for an outcome, its own result dropped. */
  function OnFailure(reg: Commands.Registry, ctx: Contexts.Context, r: Outcome): seq<Call> {
    if r.Failed? then Lift(Commands.HandleError(reg, ctx, r.error).1) else []
  }

  /** The part of a task after the cache update, on the mirror `after`. */
  function Dispatch(reg: Commands.Registry, setup: Setup, after: Mirror.Snapshot,
                    e: ServerEvents.ServerEvent, w: TaskWorld): Task
  {
    match RouteOf(reg.prefix, e)
    case NoWords => Task([], Panicked)
    case Ignored => Task([], Completed)
    case RunCommand(name) =>
      var ctx := CommandContext(setup, e.message);
      var (r, calls) := Commands.Execute(reg, name, ctx, w.run);
      Task(Lift(calls) + OnFailure(reg, ctx, r), Completed)
    case Generic =>
      var ctx := PartialContext(setup, after);
      match EventHandler.Handle(setup.botId, e)
      case Spins => Task([], Diverged)
      case NoCallback => Task([], Completed)
      case Invoke(cb) => Task([Callback(cb, ctx)] + OnFailure(reg, ctx, w.callbacks(cb)), Completed)
  }

  /** One spawned task: the mirror afterwards and the task's calls and end. */
  function RunTask(reg: Commands.Registry, setup: Setup, mirror: Mirror.Snapshot,
                   e: ServerEvents.ServerEvent, w: TaskWorld): (Mirror.Snapshot, Task)
  {
    match CacheUpdate.Apply(mirror, e, w.memberResponse)
    case TaskPanicked => (mirror, Task([], Panicked))
    case Updated(after) => (after, Dispatch(reg, setup, after, e, w))
  }

  /** A command gets a fresh, empty cache, the message, and the client's own
      default state, whatever state the application gave; the generic handler
      is not called. */
  lemma CommandTask(reg: Commands.Registry, setup: Setup, mirror: Mirror.Snapshot,
                    e: ServerEvents.ServerEvent, w: TaskWorld)
    requires RouteOf(reg.prefix, e).RunCommand?
    requires CacheUpdate.Apply(mirror, e, w.memberResponse).Updated?
    ensures var t := RunTask(reg, setup, mirror, e, w).1;
      && t.end == Completed
      && (forall i :: 0 <= i < |t.calls| ==> t.calls[i].Registry?)
      && (forall i :: 0 <= i < |t.calls| ==>
            t.calls[i].invocation.ctx == Contexts.Context(setup.token, Mirror.Empty, Some(e.message), Contexts.ClientDefault))
  {
  }

  /** A system message runs no handler; an empty text message panics the task
      after the cache update. */
  lemma QuietRoutes(reg: Commands.Registry, setup: Setup, mirror: Mirror.Snapshot,
                    e: ServerEvents.ServerEvent, w: TaskWorld)
    requires e.Message? && CacheUpdate.Apply(mirror, e, w.memberResponse).Updated?
    ensures e.message.content.SystemMessage? ==> RunTask(reg, setup, mirror, e, w).1 == Task([], Completed)
    ensures (e.message.content.Text? && forall c :: c in e.message.content.text ==> IsWhitespace(c)) ==>
      RunTask(reg, setup, mirror, e, w).1 == Task([], Panicked)
  {
    if e.message.content.Text? {
      WordsShape(e.message.content.text);
    }
  }

  /** A failing event-handler callback reaches the error handler once, with the
      client's own context, when one is set; a failing error handler changes
      nothing further. */
  lemma FailureReachesHandler(reg: Commands.Registry, setup: Setup, after: Mirror.Snapshot,
                              e: ServerEvents.ServerEvent, w: TaskWorld, cb: EventHandler.Callback)
    requires RouteOf(reg.prefix, e) == Generic && EventHandler.Handle(setup.botId, e) == EventHandler.Invoke(cb)
    ensures var t := Dispatch(reg, setup, after, e, w);
      && t.end == Completed
      && t.calls[0] == Callback(cb, PartialContext(setup, after))
      && |t.calls| == (if w.callbacks(cb).Failed? && reg.errorHandler.Some? then 2 else 1)
      && (|t.calls| == 2 ==>
            t.calls[1] == Registry(Commands.RanErrorHandler(reg.errorHandler.value, w.callbacks(cb).error, PartialContext(setup, after))))
  {
  }

  /** A registered command runs once with its own context; when it fails, its
      error reaches the error handler once, with that same context, when one is
      set; a failing error handler changes nothing further. */
  lemma CommandFailureReachesHandler(reg: Commands.Registry, setup: Setup, after: Mirror.Snapshot,
                                     e: ServerEvents.ServerEvent, w: TaskWorld, c: Commands.CommandId)
    requires RouteOf(reg.prefix, e).RunCommand?
    requires RouteOf(reg.prefix, e).name in reg.commands && reg.commands[RouteOf(reg.prefix, e).name] == c
    ensures var ctx := CommandContext(setup, e.message);
      var t := Dispatch(reg, setup, after, e, w);
      && t.end == Completed
      && t.calls[0] == Registry(Commands.RanCommand(c, ctx))
      && |t.calls| == (if w.run(c).Failed? && reg.errorHandler.Some? then 2 else 1)
      && (|t.calls| == 2 ==>
            t.calls[1] == Registry(Commands.RanErrorHandler(reg.errorHandler.value, w.run(c).error, ctx)))
  {
  }

  /** An unknown command name reaches the error handler once with
      `CommandNotFound` when one is set, and nothing else runs: `execute_command`
      succeeds, so `handle_error` is not called a second time. */
  lemma UnknownCommandTask(reg: Commands.Registry, setup: Setup, after: Mirror.Snapshot,
                           e: ServerEvents.ServerEvent, w: TaskWorld)
    requires RouteOf(reg.prefix, e).RunCommand? && RouteOf(reg.prefix, e).name !in reg.commands
    ensures var t := Dispatch(reg, setup, after, e, w);
      && t.end == Completed
      && |t.calls| == (if reg.errorHandler.Some? then 1 else 0)
      && (|t.calls| == 1 ==>
            t.calls[0] == Registry(Commands.RanErrorHandler(reg.errorHandler.value,
              CommandNotFound(Commands.NotFoundMessage(RouteOf(reg.prefix, e).name)),
              CommandContext(setup, e.message))))
  {
  }

  // ---- the handshake ----

  /** The reason given when a frame other than the two replies arrives first;
      the event's debug rendering is not part of this model. */
  const UnexpectedEvent: string := "Unexpected event received while authenticating: "

  /** `authenticate`, after sending `Authenticate{token}` with result `sent`:
      the first inbound frame decides. */
  function Authenticate(sent: Outcome, first: Option<Result<ServerEvents.ServerEvent, Error>>): Outcome {
    if sent.Failed? then sent
    else match first
      case None => Failed(Unknown("The server closed the connection unexpectedly"))
      case Some(Err(e)) => Failed(e)
      case Some(Ok(ev)) =>
        if ev.Authenticated? then Done
        else if ev.Error? then Failed(Authentication(ev.error))
        else Failed(Unknown(UnexpectedEvent))
  }

  /** The handshake succeeds exactly when the send succeeds and the first frame
      is `Authenticated`; a refusal carries the server's reason. */
  lemma AuthenticateIff(sent: Outcome, first: Option<Result<ServerEvents.ServerEvent, Error>>)
    ensures Authenticate(sent, first) == Done <==> sent == Done && first == Some(Ok(ServerEvents.Authenticated))
    ensures sent.Failed? ==> Authenticate(sent, first) == sent
    ensures sent == Done && first.Some? && first.value.Ok? && first.value.value.Error? ==>
      Authenticate(sent, first) == Failed(Authentication(first.value.value.error))
    ensures sent == Done && first.Some? && first.value.Err? ==> Authenticate(sent, first) == Failed(first.value.error)
    ensures sent == Done && first.None? ==>
      Authenticate(sent, first) == Failed(Unknown("The server closed the connection unexpectedly"))
    ensures sent == Done && first.Some? && first.value.Ok? && !first.value.value.Authenticated? && !first.value.value.Error? ==>
      Authenticate(sent, first) == Failed(Unknown(UnexpectedEvent))
  {
  }

  // ---- actions ----

  /** The socket's answers to the three requests of an action. */
  datatype WsAnswers = WsAnswers(send: Outcome, latency: Option<nat>, close: Outcome)

  /** The reply an action receives. */
  datatype ActionReply = SendReply(sent: Outcome) | LatencyReply(latency: Option<nat>) | CloseReply(closed: Outcome)

  /** `handle_action`: each action gets the socket's answer to that same action. */
  function HandleAction(a: Contexts.Action, ws: WsAnswers): (r: ActionReply)
    ensures a.SendEvent? <==> r.SendReply?
    ensures a.GetLatency? <==> r.LatencyReply?
    ensures r.SendReply? ==> r.sent == ws.send
    ensures r.LatencyReply? ==> r.latency == ws.latency
    ensures r.CloseReply? ==> r.closed == ws.close
  {
    match a
    case SendEvent(_) => SendReply(ws.send)
    case GetLatency => LatencyReply(ws.latency)
    case Close => CloseReply(ws.close)
  }

  // ---- the loop ----

  /** One turn of the loop: a heartbeat check, whose failure is only logged,
      then either an inbound frame or a messenger action. */
  datatype Input =
    | Inbound(heartbeat: Outcome, frame: Option<Result<ServerEvents.ServerEvent, Error>>, world: TaskWorld)
    | Request(heartbeat: Outcome, action: Contexts.Action, ws: WsAnswers)

  /** What the loop has done so far: the mirror, the frames sent on the socket,
      the replies to actions, the spawned tasks, and whether the stream ended. */
  datatype Loop = Loop(
    mirror: Mirror.Snapshot,
    wsSent: seq<Contexts.ClientEvent>,
    replies: seq<ActionReply>,
    tasks: seq<Task>,
    ended: bool)

  /** One turn. A closed stream ends the loop; a frame that failed to decode is
      logged and dropped; an event spawns its task; an action is answered. */
  function Step(reg: Commands.Registry, setup: Setup, l: Loop, input: Input): Loop {
    if l.ended then l
    else match input
      case Inbound(_, None, _) => l.(ended := true)
      case Inbound(_, Some(Err(_)), _) => l
      case Inbound(_, Some(Ok(e)), w) =>
        var (after, task) := RunTask(reg, setup, l.mirror, e, w);
        l.(mirror := after, tasks := l.tasks + [task])
      case Request(_, a, ws) =>
        l.(wsSent := l.wsSent + (if a.SendEvent? then [a.event] else []),
           replies := l.replies + [HandleAction(a, ws)])
  }

  /** The loop over a sequence of inputs. */
  function Run(reg: Commands.Registry, setup: Setup, l: Loop, script: seq<Input>): Loop
    decreases |script|
  {
    if script == [] then l
    else Step(reg, setup, Run(reg, setup, l, script[..|script| - 1]), script[|script| - 1])
  }

  /** The result of `listen` once the script has been consumed. */
  datatype ListenResult = Stopped(result: Outcome) | StillListening

  /** `listen`: authenticate, then loop until the stream ends. */
  function ListenOutcome(reg: Commands.Registry, setup: Setup, l: Loop, sent: Outcome,
                  first: Option<Result<ServerEvents.ServerEvent, Error>>, script: seq<Input>): (ListenResult, Loop)
  {
    var l1 := l.(wsSent := l.wsSent + [Contexts.Authenticate(setup.token)]);
    if Authenticate(sent, first).Failed? then (Stopped(Authenticate(sent, first)), l1)
    else
      var last := Run(reg, setup, l1, script);
      (if last.ended then Stopped(Done) else StillListening, last)
  }

  /** Once the stream has ended, later inputs change nothing. */
  lemma {:induction false} EndedStays(reg: Commands.Registry, setup: Setup, l: Loop, xs: seq<Input>, ys: seq<Input>)
    requires Run(reg, setup, l, xs).ended
    ensures Run(reg, setup, l, xs + ys) == Run(reg, setup, l, xs)
    decreases |ys|
  {
    if ys != [] {
      var init := ys[..|ys| - 1];
      assert (xs + ys)[..|xs + ys| - 1] == xs + init;
      EndedStays(reg, setup, l, xs, init);
    } else {
      assert xs + ys == xs;
    }
  }

  /** The loop has ended exactly when some input so far was the end of the
      stream (or it had ended before). */
  lemma {:induction false} EndedIff(reg: Commands.Registry, setup: Setup, l: Loop, xs: seq<Input>)
    ensures Run(reg, setup, l, xs).ended <==>
      l.ended || exists i :: 0 <= i < |xs| && xs[i].Inbound? && xs[i].frame.None?
    decreases |xs|
  {
    if xs != [] {
      var init := xs[..|xs| - 1];
      EndedIff(reg, setup, l, init);
      if exists i :: 0 <= i < |init| && init[i].Inbound? && init[i].frame.None? {
        var i :| 0 <= i < |init| && init[i].Inbound? && init[i].frame.None?;
        assert xs[i] == init[i];
      }
      if exists i :: 0 <= i < |xs| && xs[i].Inbound? && xs[i].frame.None? {
        var i :| 0 <= i < |xs| && xs[i].Inbound? && xs[i].frame.None?;
        if i < |init| {
          assert init[i] == xs[i];
        }
      }
    }
  }

  /** Heartbeat failures never change the loop. */
  lemma HeartbeatIgnored(reg: Commands.Registry, setup: Setup, l: Loop, input: Input, h: Outcome)
    ensures Step(reg, setup, l, input.(heartbeat := h)) == Step(reg, setup, l, input)
  {
  }

  /** `listen` returns `Ok(())` exactly when the handshake succeeds and the
      stream ends; a failed handshake returns before the loop, its error as the
      result; the first frame sent is always the token. */
  lemma ListenOkIff(reg: Commands.Registry, setup: Setup, l: Loop, sent: Outcome,
                    first: Option<Result<ServerEvents.ServerEvent, Error>>, script: seq<Input>)
    requires !l.ended
    ensures ListenOutcome(reg, setup, l, sent, first, script).0 == Stopped(Done) <==>
      && sent == Done && first == Some(Ok(ServerEvents.Authenticated))
      && exists i :: 0 <= i < |script| && script[i].Inbound? && script[i].frame.None?
    ensures Authenticate(sent, first).Failed? ==>
      ListenOutcome(reg, setup, l, sent, first, script).0 == Stopped(Authenticate(sent, first))
    ensures l.wsSent + [Contexts.Authenticate(setup.token)] <= ListenOutcome(reg, setup, l, sent, first, script).1.wsSent
  {
    AuthenticateIff(sent, first);
    var l1 := l.(wsSent := l.wsSent + [Contexts.Authenticate(setup.token)]);
    EndedIff(reg, setup, l1, script);
    WsSentGrows(reg, setup, l1, script);
  }

  /** The loop only appends to what was sent. */
  lemma {:induction false} WsSentGrows(reg: Commands.Registry, setup: Setup, l: Loop, xs: seq<Input>)
    ensures l.wsSent <= Run(reg, setup, l, xs).wsSent
    decreases |xs|
  {
    if xs != [] {
      WsSentGrows(reg, setup, l, xs[..|xs| - 1]);
    }
  }

  /** The client: its command registry, the cache of its own context, what it
      spawns tasks with, and what the loop has sent, answered and spawned. */
  class Client {
    const registry: Commands.CommandRegistry
    const cache: Mirror.Cache
    const token: string
    const botId: Entities.ID
    const state: Contexts.StateRef
    var wsSent: seq<Contexts.ClientEvent>
    var replies: seq<ActionReply>
    var tasks: seq<Task>

    function Config(): Setup {
      Setup(token, botId, state)
    }

    function Progress(ended: bool): Loop
      reads this, cache
    {
      Loop(cache.State(), wsSent, replies, tasks, ended)
    }

    /** `Client::new`: a registry with the prefix, an empty cache, the
      application's state or a fresh default. `botId` is the id of the user the
      HTTP client fetched at start-up. */
    constructor (token: string, prefix: string, botId: Entities.ID, state: Option<nat>)
      ensures registry.State() == Commands.Registry(prefix, map[], None)
      ensures fresh(registry) && fresh(cache)
      ensures Progress(false) == Loop(Mirror.Empty, [], [], [], false)
      ensures Config() == Setup(token, botId, if state.Some? then Contexts.Supplied(state.value) else Contexts.PartialDefault)
    {
      registry := new Commands.CommandRegistry(prefix);
      cache := new Mirror.Cache();
      this.token := token;
      this.botId := botId;
      this.state := if state.Some? then Contexts.Supplied(state.value) else Contexts.PartialDefault;
      wsSent, replies, tasks := [], [], [];
    }

    /** `register_command`. */
    method RegisterCommand(name: string, command: Commands.CommandId)
      modifies registry
      ensures registry.State() == old(registry.State()).(commands := old(registry.commands)[name := command])
    {
      registry.RegisterCommand(name, command);
    }

    /** `set_error_handler`. */
    method SetErrorHandler(handler: Commands.HandlerId)
      modifies registry
      ensures registry.State() == old(registry.State()).(errorHandler := Some(handler))
    {
      registry.SetErrorHandler(handler);
    }

    /** `handle_event` for a decoded event: the cache update on the shared
      cache, then the routing. */
    method HandleEvent(e: ServerEvents.ServerEvent, w: TaskWorld)
      modifies this, cache
      ensures Progress(false) == Step(registry.State(), Config(), old(Progress(false)), Inbound(Done, Some(Ok(e)), w))
    {
      var panicked := CacheUpdate.Update(e, w.memberResponse, cache);
      var task := if panicked then Task([], Panicked) else Dispatch(registry.State(), Config(), cache.State(), e, w);
      tasks := tasks + [task];
    }

    /** `listen`. `sent` is the socket's answer to the authentication frame,
      `first` the first frame, `script` the turns that follow. */
    method Listen(sent: Outcome, first: Option<Result<ServerEvents.ServerEvent, Error>>, script: seq<Input>)
      returns (r: ListenResult)
      modifies this, cache
      ensures (r, Progress(r == Stopped(Done))) ==
        ListenOutcome(registry.State(), Config(), old(Progress(false)), sent, first, script)
    {
      wsSent := wsSent + [Contexts.Authenticate(token)];
      var auth := Authenticate(sent, first);
      if auth.Failed? {
        return Stopped(auth);
      }
      ghost var start := Progress(false);
      var i := 0;
      while i < |script|
        invariant i <= |script|
        invariant Progress(false) == Run(registry.State(), Config(), start, script[..i])
      {
        assert script[..i + 1][..i] == script[..i];
        var stop := Turn(script[i]);
        if stop {
          EndedStays(registry.State(), Config(), start, script[..i + 1], script[i + 1..]);
          assert script[..i + 1] + script[i + 1..] == script;
          return Stopped(Done);
        }
        i := i + 1;
      }
      assert script[..i] == script;
      return StillListening;
    }

    /** One turn of the `select!` in `listen`: the end of the stream stops the
      loop, a frame that failed to decode is dropped, an event is handled, an
      action is answered. */
    method Turn(input: Input) returns (stop: bool)
      modifies this, cache
      ensures stop <==> input.Inbound? && input.frame.None?
      ensures Progress(stop) == Step(registry.State(), Config(), old(Progress(false)), input)
    {
      stop := false;
      match input {
        case Inbound(_, frame, w) =>
          match frame {
            case None => stop := true;
            case Some(Err(_)) =>
            case Some(Ok(e)) => HandleEvent(e, w);
          }
        case Request(_, a, ws) =>
          if a.SendEvent? {
            wsSent := wsSent + [a.event];
          }
          replies := replies + [HandleAction(a, ws)];
      }
    }
  }
}
