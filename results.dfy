/** The `Result<T>` sum type of Result.swift: a success value or a failure error. */
module Results {
  import opened Prelude

  datatype Result<T, E> = Success(value: T) | Failure(error: E)
  {
    /** `error`: the stored error of a failure, `nil` for a success. */
    function Error(): (r: Option<E>)
      ensures r.Some? <==> Failure?
      ensures r.Some? ==> r.value == error
    {
      if Failure? then Some(error) else None
    }

    /** `value`: the stored value of a success, `nil` for a failure. */
    function Value(): (r: Option<T>)
      ensures r.Some? <==> Success?
      ensures r.Some? ==> r.value == value
    {
      if Success? then Some(value) else None
    }

    /** `valueOrThrow()`: returns the value of a success, throws the error of a failure. */
    function ValueOrThrow(): (c: Completion<T, E>)
      ensures c.Returned? <==> Success?
      ensures c.Returned? ==> c.value == value
      ensures c.Threw? ==> c.error == error
    {
      match this
      case Success(v) => Returned(v)
      case Failure(e) => Threw(e)
    }

    /** `result ?? fallbackValue`: the success value, otherwise the fallback. */
    function OrValue(fallback: T): (v: T)
      ensures Success? ==> v == value
      ensures Failure? ==> v == fallback
    {
      match this
      case Success(v) => v
      case Failure(_) => fallback
    }

    /** `result ?? fallbackResult`: this result if it is a success, otherwise the fallback. */
    function OrResult(fallback: Result<T, E>): (r: Result<T, E>)
      ensures Success? ==> r == this
      ensures Failure? ==> r == fallback
    {
      match this
      case Success(_) => this
      case Failure(_) => fallback
    }
  }

  /** `Result(try f())`: catches what the throwing expression produced. */
  function FromThrowing<T, E>(c: Completion<T, E>): (r: Result<T, E>)
    ensures r.Success? <==> c.Returned?
    ensures r.Success? ==> r.value == c.value
    ensures r.Failure? ==> r.error == c.error
  {
    match c
    case Returned(v) => Success(v)
    case Threw(e) => Failure(e)
  }

  /** Exactly one of the two projections is set. */
  lemma ExactlyOneProjection<T, E>(r: Result<T, E>)
    ensures r.Value().Some? != r.Error().Some?
  {
  }

  /** Catching and rethrowing are inverse to each other, in both directions. */
  lemma CatchRethrowRoundTrip<T, E>(r: Result<T, E>, c: Completion<T, E>)
    ensures FromThrowing(r.ValueOrThrow()) == r
    ensures FromThrowing(c).ValueOrThrow() == c
  {
  }

  /** A chain `r0 ?? r1 ?? ... ?? rn` of the Result overload; `??` associates to the right. */
  function Coalesce<T, E>(rs: seq<Result<T, E>>): Result<T, E>
    requires |rs| > 0
  {
    if |rs| == 1 then rs[0] else rs[0].OrResult(Coalesce(rs[1..]))
  }

  /** The first success of a `??` chain wins; a chain of failures yields its last failure. */
  lemma {:induction false} CoalesceFirstSuccess<T, E>(rs: seq<Result<T, E>>)
    requires |rs| > 0
    ensures (exists i :: 0 <= i < |rs| && rs[i].Success?) ==>
              exists i :: 0 <= i < |rs| && rs[i].Success? && Coalesce(rs) == rs[i] &&
                          forall j :: 0 <= j < i ==> rs[j].Failure?
    ensures (forall i :: 0 <= i < |rs| ==> rs[i].Failure?) ==> Coalesce(rs) == rs[|rs| - 1]
  {
    if |rs| > 1 {
      CoalesceFirstSuccess(rs[1..]);
      if rs[0].Failure? && exists i :: 0 <= i < |rs| && rs[i].Success? {
        var i :| 0 <= i < |rs| && rs[i].Success?;
        assert rs[1..][i - 1].Success?;
        var k :| 0 <= k < |rs[1..]| && rs[1..][k].Success? && Coalesce(rs[1..]) == rs[1..][k] &&
                 forall j :: 0 <= j < k ==> rs[1..][j].Failure?;
        assert rs[k + 1] == rs[1..][k];
        forall j | 0 <= j < k + 1 ensures rs[j].Failure? {
          if j > 0 { assert rs[j] == rs[1..][j - 1]; }
        }
      }
      if forall i :: 0 <= i < |rs| ==> rs[i].Failure? {
        assert forall i :: 0 <= i < |rs[1..]| ==> rs[1..][i].Failure? by {
          forall i | 0 <= i < |rs[1..]| ensures rs[1..][i].Failure? { assert rs[1..][i] == rs[i + 1]; }
        }
      }
    }
  }
}
