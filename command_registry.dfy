/** `CommandRegistry` (src/client/command_registry.rs): named commands, an
    optional error handler, and the policy for unknown commands and unhandled
    errors. Commands and handlers are application code; each is known here by
    an identifier, and what a command returns is given by `run`. */
module Commands {
  import opened Wrappers
  import opened Errors
  import Contexts

  type CommandId = nat
  type HandlerId = nat

  /** A call into application code: a command, or the error handler with the
      error it is given. */
  datatype Invocation =
    | RanCommand(command: CommandId, ctx: Contexts.Context)
    | RanErrorHandler(handler: HandlerId, error: Error, ctx: Contexts.Context)

  /** The registry's contents. */
  datatype Registry = Registry(prefix: string, commands: map<string, CommandId>, errorHandler: Option<HandlerId>)

  /** The message of the `CommandNotFound` error. */
  function NotFoundMessage(name: string): string {
    "Command '" + name + "' not found"
  }

  /** `handle_error`: with a handler, call it once and succeed; without one,
      fail with `ErrorHandlerNotSet` and call nothing. */
  function HandleError(reg: Registry, ctx: Contexts.Context, err: Error): (r: (Outcome, seq<Invocation>))
    ensures r.0 == Done <==> reg.errorHandler.Some?
    ensures r.0.Failed? ==> r.0.error == ErrorHandlerNotSet && r.1 == []
    ensures reg.errorHandler.Some? ==> r.1 == [RanErrorHandler(reg.errorHandler.value, err, ctx)]
  {
    match reg.errorHandler
    case Some(h) => (Done, [RanErrorHandler(h, err, ctx)])
    case None => (Failed(ErrorHandlerNotSet), [])
  }

  /** `execute_command`: a registered command runs and its own result is
      returned; an unknown name is reported to `handle_error`, whose result is
      dropped, and the call succeeds. */
  function Execute(reg: Registry, name: string, ctx: Contexts.Context, run: CommandId -> Outcome): (r: (Outcome, seq<Invocation>))
    ensures name in reg.commands ==> r == (run(reg.commands[name]), [RanCommand(reg.commands[name], ctx)])
    ensures name !in reg.commands ==>
      r.0 == Done && r.1 == HandleError(reg, ctx, CommandNotFound(NotFoundMessage(name))).1
  {
    if name in reg.commands then (run(reg.commands[name]), [RanCommand(reg.commands[name], ctx)])
    else (Done, HandleError(reg, ctx, CommandNotFound(NotFoundMessage(name))).1)
  }

  class CommandRegistry {
    var prefix: string
    var commands: map<string, CommandId>
    var errorHandler: Option<HandlerId>

    function State(): Registry
      reads this
    {
      Registry(prefix, commands, errorHandler)
    }

    /** `new`: the prefix, no command, no error handler. */
    constructor (prefix: string)
      ensures State() == Registry(prefix, map[], None)
    {
      this.prefix := prefix;
      commands := map[];
      errorHandler := None;
    }

    /** `register_command`: insert or overwrite one name. */
    method RegisterCommand(name: string, command: CommandId)
      modifies this
      ensures State() == old(State()).(commands := old(commands)[name := command])
    {
      commands := commands[name := command];
    }

    /** `set_error_handler`: replace any previous handler. */
    method SetErrorHandler(handler: HandlerId)
      modifies this
      ensures State() == old(State()).(errorHandler := Some(handler))
    {
      errorHandler := Some(handler);
    }

    method ExecuteCommand(name: string, ctx: Contexts.Context, run: CommandId -> Outcome)
      returns (r: Outcome, calls: seq<Invocation>)
      ensures (r, calls) == Execute(State(), name, ctx, run)
    {
      if name in commands {
        var command := commands[name];
        r, calls := run(command), [RanCommand(command, ctx)];
      } else {
        var _, handled := HandleErrorCall(ctx, CommandNotFound(NotFoundMessage(name)));
        r, calls := Done, handled;
      }
    }

    method HandleErrorCall(ctx: Contexts.Context, err: Error) returns (r: Outcome, calls: seq<Invocation>)
      ensures (r, calls) == HandleError(State(), ctx, err)
    {
      if errorHandler.Some? {
        r, calls := Done, [RanErrorHandler(errorHandler.value, err, ctx)];
      } else {
        r, calls := Failed(ErrorHandlerNotSet), [];
      }
    }
  }

  /** After registering `command` under `name`, executing `name` runs exactly
      that command and returns its result; other names resolve as before. */
  lemma RegisterThenExecute(reg: Registry, name: string, command: CommandId, other: string,
                            ctx: Contexts.Context, run: CommandId -> Outcome)
    ensures Execute(reg.(commands := reg.commands[name := command]), name, ctx, run) ==
      (run(command), [RanCommand(command, ctx)])
    ensures other != name ==>
      Execute(reg.(commands := reg.commands[name := command]), other, ctx, run) == Execute(reg, other, ctx, run)
  {
  }

  /** An unknown command never fails, and reaches the error handler, once, with
      `CommandNotFound`, exactly when one is set. */
  lemma UnknownCommand(reg: Registry, name: string, ctx: Contexts.Context, run: CommandId -> Outcome)
    requires name !in reg.commands
    ensures Execute(reg, name, ctx, run).0 == Done
    ensures |Execute(reg, name, ctx, run).1| == (if reg.errorHandler.Some? then 1 else 0)
    ensures reg.errorHandler.Some? ==>
      Execute(reg, name, ctx, run).1[0].error == CommandNotFound("Command '" + name + "' not found")
  {
  }

  /** Only the last handler set is called. */
  lemma LastHandlerWins(reg: Registry, h1: HandlerId, h2: HandlerId, ctx: Contexts.Context, err: Error)
    ensures HandleError(reg.(errorHandler := Some(h1)).(errorHandler := Some(h2)), ctx, err) ==
      (Done, [RanErrorHandler(h2, err, ctx)])
  {
  }
}
