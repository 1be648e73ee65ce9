/**
 The optional-value and fallible-result types and the railway combinators
 that thread them (FunctionalExtensions/ResultExtensions.cs).

 The `Maybe` and `Result` classes themselves are not part of this model; they
 are declared here as the two-case sum types the combinators branch on:
 `HasNoValue` is `None?`, `IsFailure` is `Fail?`.  The valueless C# `Result`
 is `Result<()>`.
 */
module Functional {

  datatype Maybe<+T> = None | Some(value: T)

  datatype Result<+T> = Ok(value: T) | Fail(error: string)

  /** Drops the error message; the inverse of `ToResult` on its image. */
  function ToMaybe<T>(result: Result<T>): (m: Maybe<T>)
    ensures m.Some? <==> result.Ok?
    ensures m.Some? ==> m.value == result.value
  {
    match result
    case Ok(v) => Some(v)
    case Fail(_) => None
  }

  /** `Maybe.ToResult(errorMessage)`: absence becomes a failure carrying the message. */
  function ToResult<T>(maybe: Maybe<T>, errorMessage: string): (r: Result<T>)
    ensures ToMaybe(r) == maybe
    ensures r.Fail? ==> r.error == errorMessage
  {
    if maybe.None? then Fail(errorMessage) else Ok(maybe.value)
  }

  /** `Result.Map(func)`: only the success value is transformed; a failure keeps its error. */
  function Map<T, K>(result: Result<T>, func: T -> K): (r: Result<K>)
    ensures r.Ok? <==> result.Ok?
    ensures r.Fail? ==> r.error == result.error
    ensures r.Ok? ==> r.value == func(result.value)
  {
    if result.Fail? then Fail(result.error) else Ok(func(result.value))
  }

  /** `OnSuccess(Func<T, K>)`: the same contract as `Map`, a separate overload in the source. */
  function OnSuccessMap<T, K>(result: Result<T>, func: T -> K): (r: Result<K>)
    ensures r == Map(result, func)
  {
    if result.Fail? then Fail(result.error) else Ok(func(result.value))
  }

  /** `OnSuccess(Func<T, Result<K>>)`: monadic bind, short-circuiting on failure. */
  function OnSuccessBind<T, K>(result: Result<T>, func: T -> Result<K>): (r: Result<K>)
    ensures result.Fail? ==> r == Fail(result.error)
    ensures result.Ok? ==> r == func(result.value)
  {
    if result.Fail? then Fail(result.error) else func(result.value)
  }

  /**
   `OnSuccess(Action<T>)`: the action is an effect on some world `S`; it runs
   only on success, and the result handed on is always the input result.
   */
  function OnSuccessDo<T, S>(result: Result<T>, world: S, action: (S, T) -> S): (r: (Result<T>, S))
    ensures r.0 == result
    ensures result.Fail? ==> r.1 == world
    ensures result.Ok? ==> r.1 == action(world, result.value)
  {
    if result.Fail? then (Fail(result.error), world)
    else (result, action(world, result.value))
  }

  /**
   `OnSuccess(Result, Func<K>)` on the valueless result.  The function may be
   partial: callers guarantee it is defined whenever the result is a success.
   */
  function OnSuccessThen<K>(result: Result<()>, func: () --> K): (r: Result<K>)
    requires result.Ok? ==> func.requires()
    ensures r.Ok? <==> result.Ok?
    ensures r.Fail? ==> r.error == result.error
    ensures r.Ok? ==> r.value == func()
  {
    if result.Fail? then Fail(result.error) else Ok(func())
  }

  /** `OnEither(onFailure, onSuccess)`: exactly one branch is taken, chosen by the tag. */
  function OnEither<T, K>(result: Result<T>, onFailure: string -> Result<K>, onSuccess: T -> Result<K>): (r: Result<K>)
    ensures result.Fail? ==> r == onFailure(result.error)
    ensures result.Ok? ==> r == onSuccess(result.value)
  {
    if result.Fail? then onFailure(result.error) else onSuccess(result.value)
  }

  /** `Ensure(predicate, errorMessage)`: a success that violates `holds` becomes a failure. */
  function Ensure<T>(result: Result<T>, holds: T -> bool, errorMessage: string): (r: Result<T>)
    ensures r.Ok? <==> result.Ok? && holds(result.value)
    ensures r.Ok? ==> r == result
    ensures result.Fail? ==> r == result
    ensures result.Ok? && !holds(result.value) ==> r == Fail(errorMessage)
  {
    if result.Fail? then result
    else if !holds(result.value) then Fail(errorMessage)
    else result
  }

  /** `OnBoth(function)`: the whole result, whichever its tag, is handed to the function. */
  function OnBoth<T, K>(result: Result<T>, func: Result<T> -> K): (r: K)
    ensures r == func(result)
  {
    func(result)
  }

  /** The upcast of a `Result<T>` to the valueless `Result` that `Result.Combine` takes. */
  function Forget<T>(result: Result<T>): (r: Result<()>)
    ensures r.Ok? <==> result.Ok?
    ensures r.Fail? ==> r.error == result.error
  {
    if result.Fail? then Fail(result.error) else Ok(())
  }

  /**
   `Result.Combine(r1, ..., rn)`: a success when every input is one, otherwise
   the failure of the first failing input.  The class is not part of this
   model; this is the policy the service relies on.
   */
  function Combine(results: seq<Result<()>>): (r: Result<()>)
    ensures r.Ok? <==> forall i | 0 <= i < |results| :: results[i].Ok?
    ensures r.Fail? ==> exists i | 0 <= i < |results| ::
      results[i] == r && forall j | 0 <= j < i :: results[j].Ok?
  {
    if |results| == 0 then Ok(())
    else if results[0].Fail? then results[0]
    else
      var rest := Combine(results[1..]);
      assert forall i | 1 <= i < |results| :: results[i] == results[1..][i - 1];
      if rest.Fail? then
        var k :| 0 <= k < |results[1..]| && results[1..][k] == rest && forall j | 0 <= j < k :: results[1..][j].Ok?;
        assert results[k + 1] == rest;
        rest
      else rest
  }

  // ---------------------------------------------------------------------
  // Laws of the combinator algebra.
  // ---------------------------------------------------------------------

  lemma ToResultRoundTrip<T>(result: Result<T>)
    ensures ToResult(ToMaybe(result), if result.Fail? then result.error else "") == result
  {
  }

  /** `Map` with the identity function is the identity. */
  lemma MapIdentity<T>(result: Result<T>)
    ensures Map(result, x => x) == result
  {
  }

  /** `Map` distributes over function composition. */
  lemma MapComposition<T, U, K>(result: Result<T>, f: T -> U, g: U -> K)
    ensures Map(Map(result, f), g) == Map(result, x => g(f(x)))
  {
  }

  /** `Map` is `OnSuccessBind` with a continuation that always succeeds. */
  lemma MapIsBindOfOk<T, K>(result: Result<T>, f: T -> K)
    ensures Map(result, f) == OnSuccessBind(result, x => Ok(f(x)))
  {
  }

  /** Left and right identity of bind. */
  lemma BindIdentities<T, K>(v: T, f: T -> Result<K>, result: Result<T>)
    ensures OnSuccessBind(Ok(v), f) == f(v)
    ensures OnSuccessBind(result, x => Ok(x)) == result
  {
  }

  /** Chaining two binds is associative. */
  lemma BindAssociative<T, U, K>(result: Result<T>, f: T -> Result<U>, g: U -> Result<K>)
    ensures OnSuccessBind(OnSuccessBind(result, f), g) == OnSuccessBind(result, x => OnSuccessBind(f(x), g))
  {
  }

  /** Bind is the case of `OnEither` whose failure branch re-raises the error. */
  lemma BindIsOnEither<T, K>(result: Result<T>, f: T -> Result<K>)
    ensures OnSuccessBind(result, f) == OnEither(result, e => Fail(e), f)
    ensures OnEither(result, e => Fail(e), x => Ok(x)) == result
  {
  }

  /** `Ensure` never changes the value, and checking the same predicate twice is checking it once. */
  lemma EnsureIdempotent<T>(result: Result<T>, p: T -> bool, e: string)
    ensures Ensure(Ensure(result, p, e), p, e) == Ensure(result, p, e)
  {
  }

  /** Two `Ensure`s report the first predicate's message when both fail. */
  lemma EnsureFirstFailureWins<T>(v: T, p: T -> bool, e1: string, q: T -> bool, e2: string)
    requires !p(v)
    ensures Ensure(Ensure(Ok(v), p, e1), q, e2) == Fail(e1)
  {
  }

  /** `OnEither` itself is an instance of `OnBoth`. */
  lemma OnEitherIsOnBoth<T, K>(result: Result<T>, onFailure: string -> Result<K>, onSuccess: T -> Result<K>)
    ensures OnEither(result, onFailure, onSuccess)
         == OnBoth(result, (r: Result<T>) => if r.Fail? then onFailure(r.error) else onSuccess(r.value))
  {
  }

  /** The valueless `OnSuccess` is `Map` with a function that ignores its argument. */
  lemma OnSuccessThenIsMap<K>(result: Result<()>, f: () -> K)
    ensures OnSuccessThen(result, f) == Map(result, _ => f())
  {
  }

  /** `Combine` of no results is a success. */
  lemma CombineEmpty()
    ensures Combine([]) == Ok(())
  {
  }

  /** Failures before a success prefix: the first failure is reported. */
  lemma CombineFirstError(results: seq<Result<()>>, i: nat)
    requires i < |results| && results[i].Fail?
    requires forall j | 0 <= j < i :: results[j].Ok?
    ensures Combine(results) == results[i]
  {
  }

  /** Appending a success changes nothing; appending to a failure keeps that failure. */
  lemma {:induction false} CombineAppend(results: seq<Result<()>>, last: Result<()>)
    ensures Combine(results + [last]) == if Combine(results).Fail? then Combine(results) else last
  {
    if |results| > 0 {
      assert (results + [last])[1..] == results[1..] + [last];
      CombineAppend(results[1..], last);
    } else {
      assert results + [last] == [last] && [last][1..] == [];
      assert Combine([last]) == if last.Fail? then last else Combine([]);
      match last
      case Ok(u) => assert u == ();
      case Fail(_) =>
    }
  }
}
