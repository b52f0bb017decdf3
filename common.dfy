/**
 * Values shared by every service of the workflow engine: Go's `(T, error)`
 * and `error` returns, the errors the services build with `errors.New` and
 * `fmt.Errorf`, the dynamically typed variable values, and the small loops
 * the services run over Go maps and slices.
 */
module Common {

  datatype Option<+T> = None | Some(value: T)

  /** A byte of a resource's content. */
  newtype byte = b: int | 0 <= b < 256

  /** A reading of `time.Now()`; the clock itself is a parameter of every operation that reads it. */
  type Time = nat

  /** A value stored in an `interface{}` slot: a process or task variable, or a command result. */
  datatype Value =
    | Nil                       // Go's untyped nil
    | Str(str: string)
    | Num(num: int)
    | Flag(flag: bool)
    | Bytes(bytes: seq<byte>)
    | Object(handle: nat)       // a pointer to some record, identified by a handle

  /** A variable scope, Go's `map[string]interface{}`. */
  type Variables = map<string, Value>

  /** The errors the services return. */
  datatype Error =
    | NotFound(entity: string, id: string)           // fmt.Errorf("<entity> not found: %s", id)
    | Failure(message: string)                       // errors.New / fmt.Errorf without %w
    | Wrapped(message: string, cause: Error)         // fmt.Errorf("<message>: %w", cause)
    | RetryExhausted(maxRetries: int, lastError: Option<Error>)
                                                     // fmt.Errorf("command failed after %d retries: %w", n, err)
    | DecodeError                                    // any json.Unmarshal error: bad syntax or a non-object document

  /** Go's `errors.Is`: `target` is `err` or sits somewhere in its `%w` chain. */
  predicate Is(err: Error, target: Error)
    decreases err
  {
    err == target
    || (err.Wrapped? && Is(err.cause, target))
    || (err.RetryExhausted? && err.lastError.Some? && Is(err.lastError.value, target))
  }

  /** A Go function that returns only `error`: nil is `Pass`. */
  datatype Outcome = Pass | Fail(error: Error)

  /** A Go function that returns `(T, error)`. */
  datatype Result<T> = Ok(value: T) | Err(error: Error)

  /**
   * `for k, v := range src { dst[k] = v }` into a fresh map: the copy
   * `GetVariables`, `GetTaskVariables` and process start hand out.
   */
  method CopyVariables(src: Variables) returns (dst: Variables)
    ensures dst == src
  {
    dst := map[];
    var pending := src.Keys;
    while pending != {}
      invariant pending <= src.Keys
      invariant dst.Keys == src.Keys - pending
      invariant forall k :: k in dst ==> dst[k] == src[k]
      decreases pending
    {
      var k :| k in pending;
      dst := dst[k := src[k]];
      pending := pending - {k};
    }
  }

  /**
   * `for k, v := range vars { scope[k] = v }`: every entry of `vars` is
   * written over `scope`, and the rest of `scope` stays.
   */
  method MergeVariables(scope: Variables, vars: Variables) returns (merged: Variables)
    ensures Merged(scope, vars, merged)
  {
    merged := scope;
    var pending := vars.Keys;
    while pending != {}
      invariant pending <= vars.Keys
      invariant merged.Keys == scope.Keys + (vars.Keys - pending)
      invariant forall k :: k in vars.Keys - pending ==> merged[k] == vars[k]
      invariant forall k :: k in merged && k !in vars.Keys - pending ==> merged[k] == scope[k]
      decreases pending
    {
      var k :| k in pending;
      merged := merged[k := vars[k]];
      pending := pending - {k};
    }
  }

  /**
   * The cascade loops of the services: `for id, v := range m { if matches(v)
   * { delete(m, id) } }`. Gives the surviving map and the deleted keys.
   */
  method RemoveWhere<V>(m: map<string, V>, matches: V -> bool) returns (kept: map<string, V>, removed: set<string>)
    ensures kept.Keys !! removed && kept.Keys + removed == m.Keys
    ensures forall id :: id in removed <==> id in m && matches(m[id])
    ensures forall id :: id in kept ==> kept[id] == m[id]
  {
    kept, removed := m, {};
    var pending := m.Keys;
    while pending != {}
      invariant pending <= m.Keys
      invariant kept.Keys !! removed && kept.Keys + removed == m.Keys
      invariant forall id :: id in removed <==> id in m.Keys - pending && matches(m[id])
      invariant forall id :: id in kept ==> kept[id] == m[id]
      decreases pending
    {
      var id :| id in pending;
      if matches(m[id]) {
        kept := kept - {id};
        removed := removed + {id};
      }
      pending := pending - {id};
    }
  }

  /** `for _, u := range s { if u == x { … } }`: a linear scan for `x`. */
  method Contains<T(==)>(s: seq<T>, x: T) returns (found: bool)
    ensures found <==> x in s
  {
    found := false;
    var i := 0;
    while i < |s|
      invariant 0 <= i <= |s|
      invariant !found ==> x !in s[..i]
      invariant found ==> x in s
    {
      if s[i] == x {
        found := true;
        break;
      }
      i := i + 1;
    }
  }

  /** The position of the first `x` in `s`. */
  function FirstIndex<T(==)>(s: seq<T>, x: T): (i: nat)
    requires x in s
    ensures i < |s| && s[i] == x && x !in s[..i]
  {
    if s[0] == x then 0
    else
      assert x in s[1..] by { var j :| 0 <= j < |s| && s[j] == x; assert s[1..][j - 1] == x; }
      var k := FirstIndex(s[1..], x);
      assert s[..k + 1] == [s[0]] + s[1..][..k];
      k + 1
  }

  /** `s` with its first `x` cut out, or `s` itself when `x` does not occur. */
  function RemoveFirst<T(==)>(s: seq<T>, x: T): seq<T>
  {
    if x in s then s[..FirstIndex(s, x)] + s[FirstIndex(s, x) + 1..] else s
  }

  /** Cutting out an occurrence of `x` removes exactly one `x` and nothing else. */
  lemma RemoveFirstRemovesOne<T>(s: seq<T>, x: T)
    requires x in s
    ensures |RemoveFirst(s, x)| == |s| - 1
    ensures multiset(RemoveFirst(s, x)) == multiset(s) - multiset{x}
  {
    var k := FirstIndex(s, x);
    assert s == s[..k] + [x] + s[k + 1..];
    assert multiset(s) == multiset(s[..k]) + multiset{x} + multiset(s[k + 1..]);
  }

  /**
   * `for i, u := range s { if u == x { … break } }`: the position of the
   * first `x`, or `|s|` when there is none.
   */
  method FindFirst<T(==)>(s: seq<T>, x: T) returns (i: nat)
    ensures i <= |s|
    ensures i < |s| <==> x in s
    ensures i < |s| ==> i == FirstIndex(s, x)
  {
    i := 0;
    while i < |s| && s[i] != x
      invariant 0 <= i <= |s|
      invariant x !in s[..i]
    {
      i := i + 1;
    }
    if x in s {
      assert s[..|s|] == s;
      var k := FirstIndex(s, x);
      assert i == k by {
        assert forall j :: 0 <= j < i ==> s[..i][j] == s[j];
        assert forall j :: 0 <= j < k ==> s[..k][j] == s[j];
      }
    }
  }

  /**
   * `for i, u := range s { if u == x { s = append(s[:i], s[i+1:]...); break } }`:
   * the loop that deletes a candidate user or group.
   */
  method RemoveFirstOccurrence<T(==)>(s: seq<T>, x: T) returns (r: seq<T>)
    ensures r == RemoveFirst(s, x)
    ensures x in s ==> |r| == |s| - 1 && multiset(r) == multiset(s) - multiset{x}
    ensures x !in s ==> r == s
  {
    var i := FindFirst(s, x);
    if i < |s| {
      r := s[..i] + s[i + 1..];
      RemoveFirstRemovesOne(s, x);
    } else {
      r := s;
    }
  }

  /** The variable scope keyed by `id`, empty when there is none yet. */
  function ScopeOf(scopes: map<string, Variables>, id: string): Variables
  {
    if id in scopes then scopes[id] else map[]
  }

  /** `merged` is `scope` with every entry of `vars` written over it. */
  ghost predicate Merged(scope: Variables, vars: Variables, merged: Variables)
  {
    && merged.Keys == scope.Keys + vars.Keys
    && (forall k :: k in vars ==> merged[k] == vars[k])
    && (forall k :: k in scope && k !in vars ==> merged[k] == scope[k])
  }
}
