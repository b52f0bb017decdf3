/**
 * The command pipeline: interceptors chained by their `next` pointers, the
 * executor that enters the chain at its first interceptor, and the builder
 * that lays out the default chain. The `engine/` and `internal/engine/`
 * packages implement the same pipeline; they differ only in what the logging
 * interceptor returns on failure and in the retry delay.
 *
 * A chain is a sequence of interceptors whose `next` is an index into the
 * same sequence. A command is what its `Execute` returns; the commands' own
 * effects on the stores are modelled with the commands themselves.
 */
module Interceptors {
  import opened Common
  import opened CommandContexts

  /** A command as the chain sees it: the `(result, error)` its `Execute` returns. */
  datatype Command = Command(typeName: string, result: Value, err: Option<Error>)

  /** The `(any, error)` an interceptor returns. */
  datatype Reply = Reply(result: Value, err: Option<Error>)

  datatype Kind =
    | Base                                      // BaseCommandInterceptor itself
    | Custom(name: string)                      // a user interceptor that keeps the base Execute
    | Logging                                   // engine/: (nil, err) on failure
    | PlainLogging                              // internal/engine/: (result, err) as received
    | Transaction
    | ContextInterceptor(engine: Value)
    | Retry(maxRetries: int, retryDelayMillis: nat)
    | Invoker                                   // CommandInvoker

  datatype Interceptor = Interceptor(kind: Kind, next: Option<nat>)

  /**
   * How a call into the chain ends: it returns, it panics, or it never
   * returns (the base interceptor at the end of a chain re-enters the
   * executor with the same context and command, which takes the same path
   * again, without end).
   */
  datatype Ending = Returns(reply: Reply) | Panics(message: string) | Diverges

  /** The panic of calling `Execute` through a nil `next`. */
  const NilNext := "invalid memory address or nil pointer dereference"

  /** isRetryableError: no error is classified as retryable. */
  predicate IsRetryableError(err: Error)
  {
    false
  }

  // ------------------------------------------------------------------
  // Wiring
  // ------------------------------------------------------------------

  /** SetNext on interceptor `i`: its next becomes `j`; nothing else changes. */
  function SetNext(chain: seq<Interceptor>, i: nat, j: nat): (r: seq<Interceptor>)
    requires i < |chain|
    ensures |r| == |chain| && GetNext(r, i) == Some(j) && r[i].kind == chain[i].kind
    ensures forall k :: 0 <= k < |chain| && k != i ==> r[k] == chain[k]
  {
    chain[i := chain[i].(next := Some(j))]
  }

  function GetNext(chain: seq<Interceptor>, i: nat): Option<nat>
    requires i < |chain|
  {
    chain[i].next
  }

  /** Each interceptor's next is the one after it; the last has none. */
  predicate Wired(chain: seq<Interceptor>)
  {
    forall i :: 0 <= i < |chain| ==> chain[i].next == (if i + 1 < |chain| then Some(i + 1) else None)
  }

  /** Fresh interceptors of the given kinds, wired in order. */
  function Wire(kinds: seq<Kind>): (chain: seq<Interceptor>)
    ensures |chain| == |kinds| && Wired(chain)
    ensures forall i :: 0 <= i < |kinds| ==> chain[i].kind == kinds[i]
  {
    seq(|kinds|, i requires 0 <= i < |kinds| => Interceptor(kinds[i], if i + 1 < |kinds| then Some(i + 1) else None))
  }

  datatype CommandExecutor = CommandExecutor(chain: seq<Interceptor>, first: nat, last: nat)

  /** What NewCommandExecutor hands out: a wired, non-empty chain with its ends. */
  predicate ValidExecutor(e: CommandExecutor)
  {
    |e.chain| > 0 && Wired(e.chain) && e.first == 0 && e.last == |e.chain| - 1
  }

  /** NewCommandExecutor either panics or returns an executor. */
  datatype Construction = Panicked(message: string) | Constructed(executor: CommandExecutor)

  /**
   * NewCommandExecutor: panics on an empty list; otherwise sets each
   * interceptor's next to the one after it, and keeps the first and the last.
   */
  method NewCommandExecutor(kinds: seq<Kind>) returns (r: Construction)
    ensures r.Panicked? <==> |kinds| == 0
    ensures r.Panicked? ==> r.message == "at least one interceptor is required"
    ensures r.Constructed? ==> r.executor == CommandExecutor(Wire(kinds), 0, |kinds| - 1) && ValidExecutor(r.executor)
  {
    if |kinds| == 0 {
      return Panicked("at least one interceptor is required");
    }
    var chain := seq(|kinds|, i requires 0 <= i < |kinds| => Interceptor(kinds[i], None));
    var i := 0;
    while i < |kinds| - 1
      invariant 0 <= i <= |kinds| - 1 && |chain| == |kinds|
      invariant forall k :: 0 <= k < |kinds| ==> chain[k].kind == kinds[k]
      invariant forall k :: 0 <= k < i ==> chain[k].next == Some(k + 1)
      invariant forall k :: i <= k < |kinds| ==> chain[k].next == None
    {
      chain := SetNext(chain, i, i + 1);
      i := i + 1;
    }
    assert chain == Wire(kinds);
    r := Constructed(CommandExecutor(chain, 0, |chain| - 1));
  }

  // ------------------------------------------------------------------
  // What a call into the chain does
  // ------------------------------------------------------------------

  /** An interceptor that returns `(nil, err)` on failure and `(result, nil)` on success. */
  function Settle(reply: Reply): (r: Reply)
    ensures r.err == reply.err
    ensures r.err.Some? ==> r.result == Nil
    ensures r.err.None? ==> r.result == reply.result
  {
    if reply.err.Some? then Reply(Nil, reply.err) else reply
  }

  function SettleRun(x: Ending): Ending
  {
    if x.Returns? then Returns(Settle(x.reply)) else x
  }

  /** The retry interceptor's answer once its callee answered `x` on the last attempt. */
  function RetryRun(maxRetries: int, x: Ending): (r: Ending)
    ensures x.Returns? && x.reply.err.None? ==> r == x
    ensures x.Returns? && x.reply.err.Some? ==> r == Returns(Reply(Nil, Some(RetryExhausted(maxRetries, x.reply.err))))
    ensures !x.Returns? ==> r == x
  {
    match x
    case Returns(reply) =>
      if reply.err.None? then x else Returns(Reply(Nil, Some(RetryExhausted(maxRetries, reply.err))))
    case _ => x
  }

  /** Calling `Execute` on interceptor `i` with context `ctx` and command `cmd`. */
  function Run(chain: seq<Interceptor>, i: nat, ctx: Context, cmd: Command): Ending
    requires Wired(chain) && i < |chain|
    decreases |chain| - i
  {
    var next := chain[i].next;
    match chain[i].kind
    case Base => if next.Some? then Run(chain, next.value, ctx, cmd) else Diverges
    case Custom(_) => if next.Some? then Run(chain, next.value, ctx, cmd) else Diverges
    case Logging => if next.Some? then SettleRun(Run(chain, next.value, ctx, cmd)) else Panics(NilNext)
    case PlainLogging => if next.Some? then Run(chain, next.value, ctx, cmd) else Panics(NilNext)
    case Transaction => if next.Some? then SettleRun(Run(chain, next.value, ctx, cmd)) else Panics(NilNext)
    case ContextInterceptor(_) => Returns(Settle(Reply(cmd.result, cmd.err)))
    case Retry(maxRetries, _) =>
      if maxRetries < 0 then Returns(Reply(Nil, Some(RetryExhausted(maxRetries, None))))
      else if next.Some? then RetryRun(maxRetries, Run(chain, next.value, ctx, cmd))
      else Panics(NilNext)
    case Invoker =>
      if GetCommandContext(ctx).Some? then Returns(Reply(cmd.result, cmd.err))
      else Returns(Reply(Nil, Some(Failure("command context not found in context"))))
  }

  /** Whether interceptor `i`'s Execute calls its next at all. */
  predicate CallsNext(kind: Kind)
  {
    match kind
    case ContextInterceptor(_) => false
    case Invoker => false
    case Retry(maxRetries, _) => maxRetries >= 0
    case _ => true
  }

  /** The interceptors a call entering at `i` goes through, in order: a run of consecutive indices. */
  function Path(chain: seq<Interceptor>, i: nat): (p: seq<nat>)
    requires Wired(chain) && i < |chain|
    ensures 1 <= |p| <= |chain| - i
    ensures forall k :: 0 <= k < |p| ==> p[k] == i + k
    decreases |chain| - i
  {
    if CallsNext(chain[i].kind) && chain[i].next.Some? then [i] + Path(chain, i + 1) else [i]
  }

  // ------------------------------------------------------------------
  // The interceptors' Execute methods
  // ------------------------------------------------------------------

  /**
   * ContextInterceptor.Execute: a fresh command context, stored in the
   * context the command receives; the command runs directly, and its error
   * or its result is recorded in the command context.
   */
  method ExecuteInContext(ctx: Context, cmd: Command, engine: Value)
    returns (reply: Reply, commandContext: CommandContext, inner: Context)
    ensures fresh(commandContext)
    ensures commandContext.context == ctx && commandContext.engine == engine && commandContext.attributes == map[]
    ensures inner == WithValue(ctx, CommandContextKey, Holds(commandContext))
    ensures GetCommandContext(inner) == Some(commandContext)
    ensures cmd.err.Some? ==>
      reply == Reply(Nil, cmd.err) && commandContext.exception == cmd.err && commandContext.result == Nil
    ensures cmd.err.None? ==>
      reply == Reply(cmd.result, None) && commandContext.result == cmd.result && commandContext.exception == None
  {
    commandContext := new CommandContext(ctx, engine);
    inner := WithValue(ctx, CommandContextKey, Holds(commandContext));
    if cmd.err.Some? {
      commandContext.SetException(cmd.err);
      reply := Reply(Nil, cmd.err);
    } else {
      commandContext.SetResult(cmd.result);
      reply := Reply(cmd.result, None);
    }
    var _ := commandContext.Close();
  }

  /**
   * Interceptor `i`'s Execute. `entered` lists the interceptors the call
   * went through.
   */
  method ExecuteAt(chain: seq<Interceptor>, i: nat, ctx: Context, cmd: Command) returns (x: Ending, entered: seq<nat>)
    requires Wired(chain) && i < |chain|
    ensures x == Run(chain, i, ctx, cmd) && entered == Path(chain, i)
    decreases |chain| - i, 1
  {
    var next := chain[i].next;
    match chain[i].kind
    case Base =>
      if next.None? {
        return Diverges, [i];
      }
      x, entered := ExecuteAt(chain, next.value, ctx, cmd);
      entered := [i] + entered;
    case Custom(_) =>
      if next.None? {
        return Diverges, [i];
      }
      x, entered := ExecuteAt(chain, next.value, ctx, cmd);
      entered := [i] + entered;
    case Logging =>
      if next.None? {
        return Panics(NilNext), [i];
      }
      x, entered := ExecuteAt(chain, next.value, ctx, cmd);
      if x.Returns? && x.reply.err.Some? {
        x := Returns(Reply(Nil, x.reply.err));
      }
      entered := [i] + entered;
    case PlainLogging =>
      if next.None? {
        return Panics(NilNext), [i];
      }
      x, entered := ExecuteAt(chain, next.value, ctx, cmd);
      entered := [i] + entered;
    case Transaction =>
      if next.None? {
        return Panics(NilNext), [i];
      }
      x, entered := ExecuteAt(chain, next.value, ctx, cmd);
      if x.Returns? && x.reply.err.Some? {
        x := Returns(Reply(Nil, x.reply.err));
      }
      entered := [i] + entered;
    case ContextInterceptor(engine) =>
      var reply, _, _ := ExecuteInContext(ctx, cmd, engine);
      x, entered := Returns(reply), [i];
    case Retry(_, _) =>
      var attempts;
      x, entered, attempts := RetryExecute(chain, i, ctx, cmd);
    case Invoker =>
      var commandContext := GetCommandContext(ctx);
      if commandContext.None? {
        x := Returns(Reply(Nil, Some(Failure("command context not found in context"))));
      } else {
        x := Returns(Reply(cmd.result, cmd.err));
      }
      entered := [i];
  }

  /**
   * RetryInterceptor.Execute: up to maxRetries + 1 attempts, returning the
   * first success and stopping at the first error that is not retryable;
   * the last error comes back wrapped. `attempts` counts the calls to next:
   * none when maxRetries is negative, and otherwise exactly one, since no
   * error is retryable.
   */
  method RetryExecute(chain: seq<Interceptor>, i: nat, ctx: Context, cmd: Command)
    returns (x: Ending, entered: seq<nat>, attempts: nat)
    requires Wired(chain) && i < |chain| && chain[i].kind.Retry?
    ensures x == Run(chain, i, ctx, cmd) && entered == Path(chain, i)
    ensures attempts == (if chain[i].kind.maxRetries < 0 then 0 else 1)
    decreases |chain| - i, 0
  {
    var maxRetries := chain[i].kind.maxRetries;
    var lastErr: Option<Error> := None;
    var attempt := 0;
    var stop := false;
    entered, attempts := [i], 0;
    while attempt <= maxRetries && !stop
      invariant stop <==> attempt > 0
      invariant attempts == attempt <= 1
      invariant attempt == 0 ==> entered == [i] && lastErr.None?
      invariant attempt > 0 ==>
        && maxRetries >= 0 && chain[i].next.Some?
        && Run(chain, i + 1, ctx, cmd).Returns? && lastErr == Run(chain, i + 1, ctx, cmd).reply.err && lastErr.Some?
        && entered == [i] + Path(chain, i + 1)
      decreases maxRetries - attempt
    {
      var next := chain[i].next;
      if next.None? {
        return Panics(NilNext), [i], attempts + 1;
      }
      var y, path := ExecuteAt(chain, next.value, ctx, cmd);
      entered, attempts := [i] + path, attempts + 1;
      if !y.Returns? || y.reply.err.None? {
        return y, entered, attempts;
      }
      lastErr := y.reply.err;
      stop := !IsRetryableError(lastErr.value);
      attempt := attempt + 1;
    }
    if attempt > 0 {
      assert chain[i].next == Some(i + 1);
    }
    x := Returns(Reply(Nil, Some(RetryExhausted(maxRetries, lastErr))));
  }

  /**
   * CommandExecutorImpl.Execute: a nil command is refused before the chain
   * is entered; any other enters the chain once, at its first interceptor.
   */
  method Execute(executor: CommandExecutor, ctx: Context, command: Option<Command>) returns (x: Ending, entered: seq<nat>)
    requires ValidExecutor(executor)
    ensures command.None? ==> x == Returns(Reply(Nil, Some(Failure("command cannot be nil")))) && entered == []
    ensures command.Some? ==>
      x == Run(executor.chain, executor.first, ctx, command.value) && entered == Path(executor.chain, executor.first)
    ensures command.Some? ==> entered[0] == executor.first
  {
    if command.None? {
      return Returns(Reply(Nil, Some(Failure("command cannot be nil")))), [];
    }
    x, entered := ExecuteAt(executor.chain, executor.first, ctx, command.value);
  }

  // ------------------------------------------------------------------
  // What a chain of forwarding interceptors makes of a command
  // ------------------------------------------------------------------

  /** Interceptors that call their next and pass its answer back, at most wrapping the error. */
  predicate Forwards(kind: Kind)
  {
    kind.Base? || kind.Custom? || kind.Logging? || kind.PlainLogging? || kind.Transaction?
    || (kind.Retry? && kind.maxRetries >= 0)
  }

  /**
   * A call that reaches the context interceptor only through forwarding
   * interceptors runs the command exactly once there and never goes past
   * it: the interceptors after it (the invoker in a built chain) are never
   * entered, whatever the context. A success comes back with the command's
   * result; a failure comes back with nil, and its error still matches the
   * command's error under errors.Is.
   */
  lemma {:induction false} ForwardingReachesContext(chain: seq<Interceptor>, i: nat, c: nat, ctx: Context, cmd: Command)
    requires Wired(chain) && i <= c < |chain| && chain[c].kind.ContextInterceptor?
    requires forall j :: i <= j < c ==> Forwards(chain[j].kind)
    ensures Path(chain, i)[|Path(chain, i)| - 1] == c && |Path(chain, i)| == c - i + 1
    ensures Run(chain, i, ctx, cmd).Returns?
    ensures var reply := Run(chain, i, ctx, cmd).reply;
      && (reply.err.None? <==> cmd.err.None?)
      && (reply.err.None? ==> reply.result == cmd.result)
      && (reply.err.Some? ==> reply.result == Nil && Is(reply.err.value, cmd.err.value))
    decreases c - i
  {
    if i < c {
      ForwardingReachesContext(chain, i + 1, c, ctx, cmd);
    }
  }

  /**
   * Interceptors that pass their callee's answer back untouched once the
   * context interceptor has settled it.
   */
  predicate Transparent(kind: Kind)
  {
    kind.Base? || kind.Custom? || kind.Logging? || kind.PlainLogging? || kind.Transaction?
  }

  /** Through transparent interceptors the caller gets exactly what the context interceptor returned. */
  lemma {:induction false} TransparentReachesContext(chain: seq<Interceptor>, i: nat, c: nat, ctx: Context, cmd: Command)
    requires Wired(chain) && i <= c < |chain| && chain[c].kind.ContextInterceptor?
    requires forall j :: i <= j < c ==> Transparent(chain[j].kind)
    ensures Run(chain, i, ctx, cmd) == Returns(Settle(Reply(cmd.result, cmd.err)))
    decreases c - i
  {
    if i < c {
      TransparentReachesContext(chain, i + 1, c, ctx, cmd);
    }
  }

  // ------------------------------------------------------------------
  // The builder
  // ------------------------------------------------------------------

  /** The logging interceptor of each package. */
  function LoggingKind(internal: bool): Kind
  {
    if internal then PlainLogging else Logging
  }

  /** The retry interceptor of each package: no delay in engine/, 100 ms in internal/engine/. */
  function RetryKind(internal: bool, attempts: int): Kind
  {
    Retry(attempts, if internal then 100 else 0)
  }

  /** The chain Build lays out, appended in this order. */
  function Layout(engine: Value, internal: bool, custom: seq<Kind>, logging: bool, transaction: bool,
                  retry: bool, attempts: int): seq<Kind>
  {
    AppendIf(AppendIf(AppendIf([], logging, LoggingKind(internal)), retry, RetryKind(internal, attempts)) + custom,
             transaction, Transaction)
    + [ContextInterceptor(engine)] + [Invoker]
  }

  /**
   * The layout's order: logging (outermost), retry, the custom interceptors
   * in the order added, transaction, the context interceptor, and the
   * invoker (innermost), each optional one present exactly when enabled.
   */
  lemma LayoutOrder(engine: Value, internal: bool, custom: seq<Kind>, logging: bool, transaction: bool,
                    retry: bool, attempts: int)
    ensures var kinds := Layout(engine, internal, custom, logging, transaction, retry, attempts);
      var l := if logging then 1 else 0;
      var t := if retry then 1 else 0;
      && |kinds| == l + t + |custom| + (if transaction then 1 else 0) + 2
      && kinds[|kinds| - 1] == Invoker && kinds[|kinds| - 2] == ContextInterceptor(engine)
      && (logging ==> kinds[0] == LoggingKind(internal))
      && (retry ==> kinds[l] == RetryKind(internal, attempts))
      && (forall j :: 0 <= j < |custom| ==> kinds[l + t + j] == custom[j])
      && (transaction ==> kinds[|kinds| - 3] == Transaction)
  {
    var front := AppendIf(AppendIf([], logging, LoggingKind(internal)), retry, RetryKind(internal, attempts));
    FrontOrder(internal, logging, retry, attempts);
    var middle := AppendIf(front + custom, transaction, Transaction);
    MiddleOrder(front, custom, transaction);
    var kinds := Layout(engine, internal, custom, logging, transaction, retry, attempts);
    assert kinds == middle + [ContextInterceptor(engine)] + [Invoker];
  }

  lemma FrontOrder(internal: bool, logging: bool, retry: bool, attempts: int)
    ensures var front := AppendIf(AppendIf([], logging, LoggingKind(internal)), retry, RetryKind(internal, attempts));
      var l := if logging then 1 else 0;
      && |front| == l + (if retry then 1 else 0)
      && (logging ==> front[0] == LoggingKind(internal))
      && (retry ==> front[l] == RetryKind(internal, attempts))
  {
  }

  lemma MiddleOrder(front: seq<Kind>, custom: seq<Kind>, transaction: bool)
    ensures var middle := AppendIf(front + custom, transaction, Transaction);
      && |middle| == |front| + |custom| + (if transaction then 1 else 0)
      && (forall j :: 0 <= j < |front| ==> middle[j] == front[j])
      && (forall j :: 0 <= j < |custom| ==> middle[|front| + j] == custom[j])
      && (transaction ==> middle[|middle| - 1] == Transaction)
  {
  }

  /** `if enabled { kinds = append(kinds, kind) }` */
  function AppendIf(kinds: seq<Kind>, enabled: bool, kind: Kind): (r: seq<Kind>)
    ensures r == if enabled then kinds + [kind] else kinds
  {
    if enabled then kinds + [kind] else kinds
  }

  /** Every interceptor Build places before the context interceptor forwards; those after retry are transparent. */
  lemma LayoutForwards(engine: Value, internal: bool, custom: seq<Kind>, logging: bool,
                       transaction: bool, retry: bool, attempts: int)
    requires forall j :: 0 <= j < |custom| ==> Transparent(custom[j])
    requires retry ==> attempts >= 0
    ensures var kinds := Layout(engine, internal, custom, logging, transaction, retry, attempts);
      var start := (if logging then 1 else 0) + (if retry then 1 else 0);
      && (forall j :: 0 <= j < |kinds| - 2 ==> Forwards(kinds[j]))
      && (forall j :: start <= j < |kinds| - 2 ==> Transparent(kinds[j]))
  {
    var kinds := Layout(engine, internal, custom, logging, transaction, retry, attempts);
    var start := (if logging then 1 else 0) + (if retry then 1 else 0);
    forall j | 0 <= j < |kinds| - 2
      ensures Forwards(kinds[j]) && (start <= j ==> Transparent(kinds[j]))
    {
      if start <= j < start + |custom| {
        assert kinds[j] == custom[j - start];
      }
    }
  }

  /**
   * A built executor whose custom interceptors are transparent (and whose
   * retry, if any, has a non-negative count) runs the command once, in the
   * context interceptor, and never enters the invoker. Without retry the
   * caller gets the command's result, or nil and the command's own error;
   * with retry the error comes back wrapped once.
   */
  lemma BuiltChainBypassesInvoker(engine: Value, internal: bool, custom: seq<Kind>, logging: bool,
                                  transaction: bool, retry: bool, attempts: int, ctx: Context, cmd: Command)
    requires forall j :: 0 <= j < |custom| ==> Transparent(custom[j])
    requires retry ==> attempts >= 0
    ensures var chain := Wire(Layout(engine, internal, custom, logging, transaction, retry, attempts));
      && |chain| - 1 !in Path(chain, 0)
      && Path(chain, 0)[|Path(chain, 0)| - 1] == |chain| - 2
      && Run(chain, 0, ctx, cmd) == Returns(
           if cmd.err.None? then Reply(cmd.result, None)
           else Reply(Nil, Some(if retry then RetryExhausted(attempts, cmd.err) else cmd.err.value)))
  {
    var kinds := Layout(engine, internal, custom, logging, transaction, retry, attempts);
    var chain := Wire(kinds);
    var c := |chain| - 2;
    var l := if logging then 1 else 0;
    var start := l + (if retry then 1 else 0);
    LayoutForwards(engine, internal, custom, logging, transaction, retry, attempts);
    LayoutOrder(engine, internal, custom, logging, transaction, retry, attempts);
    ForwardingReachesContext(chain, 0, c, ctx, cmd);
    TransparentReachesContext(chain, start, c, ctx, cmd);
    var settled := Returns(Settle(Reply(cmd.result, cmd.err)));
    assert Run(chain, start, ctx, cmd) == settled;
    if retry {
      assert chain[l].kind == Retry(attempts, if internal then 100 else 0);
      assert Run(chain, l, ctx, cmd) == RetryRun(attempts, settled);
    }
    var p := Path(chain, 0);
    assert forall k :: 0 <= k < |p| ==> p[k] <= c;
  }

  /** With a negative retry count the retry interceptor refuses at once: the command never runs. */
  lemma NegativeRetryNeverRunsCommand(engine: Value, internal: bool, custom: seq<Kind>, logging: bool,
                                      transaction: bool, attempts: int, ctx: Context, cmd: Command)
    requires attempts < 0
    ensures var chain := Wire(Layout(engine, internal, custom, logging, transaction, true, attempts));
      && Path(chain, 0) == (if logging then [0, 1] else [0])
      && Run(chain, 0, ctx, cmd) == Returns(Reply(Nil, Some(RetryExhausted(attempts, None))))
  {
  }

  /** The builder of the default executor. */
  class ExecutorBuilder {
    /** The engine the context interceptor hands to each command context, by handle. */
    const engine: Value
    /** Whether this is the internal/engine/ builder. */
    const internal: bool
    var interceptors: seq<Kind>
    var enableLogging: bool
    var enableTransaction: bool
    var enableRetry: bool
    var retryAttempts: int

    /** The defaults: logging and transaction on, retry off with 3 attempts, no custom interceptors. */
    constructor (engine: Value, internal: bool)
      ensures this.engine == engine && this.internal == internal
      ensures interceptors == [] && enableLogging && enableTransaction && !enableRetry && retryAttempts == 3
    {
      this.engine := engine;
      this.internal := internal;
      interceptors := [];
      enableLogging, enableTransaction, enableRetry, retryAttempts := true, true, false, 3;
    }

    method WithLogging(enabled: bool) returns (b: ExecutorBuilder)
      modifies this
      ensures b == this && enableLogging == enabled
      ensures interceptors == old(interceptors) && enableTransaction == old(enableTransaction)
      ensures enableRetry == old(enableRetry) && retryAttempts == old(retryAttempts)
    {
      enableLogging := enabled;
      b := this;
    }

    method WithTransaction(enabled: bool) returns (b: ExecutorBuilder)
      modifies this
      ensures b == this && enableTransaction == enabled
      ensures interceptors == old(interceptors) && enableLogging == old(enableLogging)
      ensures enableRetry == old(enableRetry) && retryAttempts == old(retryAttempts)
    {
      enableTransaction := enabled;
      b := this;
    }

    method WithRetry(enabled: bool, attempts: int) returns (b: ExecutorBuilder)
      modifies this
      ensures b == this && enableRetry == enabled && retryAttempts == attempts
      ensures interceptors == old(interceptors) && enableLogging == old(enableLogging)
      ensures enableTransaction == old(enableTransaction)
    {
      enableRetry, retryAttempts := enabled, attempts;
      b := this;
    }

    method AddInterceptor(interceptor: Kind) returns (b: ExecutorBuilder)
      modifies this
      ensures b == this && interceptors == old(interceptors) + [interceptor]
      ensures enableLogging == old(enableLogging) && enableTransaction == old(enableTransaction)
      ensures enableRetry == old(enableRetry) && retryAttempts == old(retryAttempts)
    {
      interceptors := interceptors + [interceptor];
      b := this;
    }

    /** Build: the layout, wired by NewCommandExecutor; never empty, so it never panics. */
    method Build() returns (r: Construction)
      ensures r.Constructed? && ValidExecutor(r.executor)
      ensures r.executor.chain == Wire(Layout(engine, internal, interceptors, enableLogging, enableTransaction,
                                              enableRetry, retryAttempts))
    {
      var kinds: seq<Kind> := [];
      if enableLogging {
        kinds := kinds + [LoggingKind(internal)];
      }
      if enableRetry {
        kinds := kinds + [RetryKind(internal, retryAttempts)];
      }
      kinds := kinds + interceptors;
      if enableTransaction {
        kinds := kinds + [Transaction];
      }
      kinds := kinds + [ContextInterceptor(engine)];
      kinds := kinds + [Invoker];
      assert kinds == Layout(engine, internal, interceptors, enableLogging, enableTransaction, enableRetry, retryAttempts);
      r := NewCommandExecutor(kinds);
    }
  }
}
