/**
 * The state a command runs with: the `CommandContext` the context
 * interceptor creates for each command (attributes, the exception or result
 * it records), and the Go `context.Context` that carries it down the chain.
 * The `engine/` and `internal/engine/` packages define the same record; one
 * class serves both.
 */
module CommandContexts {
  import opened Common

  /** A key of `context.WithValue`: the package's own typed key, or any other. */
  datatype ContextKey = CommandContextKey | OtherKey(name: string)

  /** A value stored in a `context.Context`: a `*CommandContext`, or anything else. */
  datatype ContextValue = Holds(commandContext: CommandContext) | Plain(value: Value)

  /** A `context.Context`: the background context, or a value layered over a parent. */
  datatype Context = Background | WithValue(parent: Context, key: ContextKey, val: ContextValue)

  /** `ctx.Value(key)`: the innermost value stored under the key. */
  function Lookup(ctx: Context, key: ContextKey): (v: Option<ContextValue>)
    ensures ctx.WithValue? && ctx.key == key ==> v == Some(ctx.val)
    ensures ctx.Background? ==> v.None?
  {
    match ctx
    case Background => None
    case WithValue(parent, k, val) => if k == key then Some(val) else Lookup(parent, key)
  }

  /**
   * GetCommandContext: the `*CommandContext` stored under the package's key,
   * or nil when there is none or the innermost value under that key is not one.
   */
  function GetCommandContext(ctx: Context): (r: Option<CommandContext>)
    ensures r.Some? <==> Lookup(ctx, CommandContextKey).Some? && Lookup(ctx, CommandContextKey).value.Holds?
    ensures r.Some? ==> Lookup(ctx, CommandContextKey) == Some(Holds(r.value))
  {
    match Lookup(ctx, CommandContextKey)
    case Some(Holds(commandContext)) => Some(commandContext)
    case _ => None
  }

  /** A context stored with `WithValue` under the package's key is the one read back. */
  lemma StoredContextIsFound(ctx: Context, commandContext: CommandContext)
    ensures GetCommandContext(WithValue(ctx, CommandContextKey, Holds(commandContext))) == Some(commandContext)
  {
  }

  /** Values stored under other keys neither hide nor replace the command context. */
  lemma OtherKeysAreTransparent(ctx: Context, name: string, val: ContextValue)
    ensures GetCommandContext(WithValue(ctx, OtherKey(name), val)) == GetCommandContext(ctx)
  {
  }

  class CommandContext {
    /** The Go context the command context was created in. */
    const context: Context
    /** The engine the command runs on, by handle. */
    const engine: Value
    var session: Value
    var attributes: map<string, Value>
    var exception: Option<Error>
    var result: Value

    /** NewCommandContext: no attributes, no session, no exception, no result. */
    constructor (context: Context, engine: Value)
      ensures this.context == context && this.engine == engine
      ensures session == Nil && attributes == map[] && exception == None && result == Nil
      ensures !HasException() && GetResult() == Nil
    {
      this.context := context;
      this.engine := engine;
      session := Nil;
      attributes := map[];
      exception := None;
      result := Nil;
    }

    /** GetAttribute: the stored value, or nil for a key never set. */
    function GetAttribute(key: string): (v: Value)
      reads this
      ensures key in attributes ==> v == attributes[key]
      ensures key !in attributes ==> v == Nil
    {
      if key in attributes then attributes[key] else Nil
    }

    /** SetAttribute: the key now reads back the value; every other key reads as before. */
    method SetAttribute(key: string, value: Value)
      modifies this
      ensures attributes == old(attributes)[key := value]
      ensures GetAttribute(key) == value
      ensures forall k :: k != key ==> GetAttribute(k) == old(GetAttribute(k))
      ensures session == old(session) && exception == old(exception) && result == old(result)
    {
      attributes := attributes[key := value];
    }

    /** HasException: an exception has been recorded. */
    function HasException(): (b: bool)
      reads this
      ensures b <==> exception.Some?
    {
      exception != None
    }

    function GetException(): (e: Option<Error>)
      reads this
      ensures e.Some? <==> HasException()
      ensures e == exception
    {
      exception
    }

    /** SetException: records `err` (nil clears it); the result and attributes stay. */
    method SetException(err: Option<Error>)
      modifies this
      ensures exception == err && GetException() == err
      ensures HasException() <==> err.Some?
      ensures session == old(session) && attributes == old(attributes) && result == old(result)
    {
      exception := err;
    }

    function GetResult(): (v: Value)
      reads this
      ensures v == result
    {
      result
    }

    /** SetResult: records the result; the exception and attributes stay. */
    method SetResult(value: Value)
      modifies this
      ensures result == value && GetResult() == value
      ensures session == old(session) && attributes == old(attributes) && exception == old(exception)
    {
      result := value;
    }

    /** Close: nothing to release yet, and it never fails. */
    function Close(): (r: Outcome)
      ensures r == Pass
    {
      Pass
    }
  }
}
