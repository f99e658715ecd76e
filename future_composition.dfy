/** `bind`, `>>>` and `|>` over future-returning functions (FutureComposition.swift, and the
    textually identical PromiseComposition.swift over the older type). They are modelled at the
    level of outcomes: a future-returning function `A -> Future<B>` is the function from its
    argument to the state the returned future eventually settles in (`Pending` if it never
    does), and `correlate`/`bind` give the state the future they create settles in. */
module FutureComposition {
  import opened Settlement

  /** `target.correlate(source, transform)` on a pending target: the success handler fulfills the
      target with the transformed value, the failure handler rejects it with the same error, and
      the target stays pending as long as the source does. */
  function Correlate<U, T, E>(source: FutureState<U, E>, transform: U -> T): (r: FutureState<T, E>)
    ensures r.Pending? <==> source.Pending?
    ensures r.Fulfilled? <==> source.Fulfilled?
    ensures r.Fulfilled? ==> r.value == transform(source.value)
    ensures r.Rejected? ==> r.error == source.error
  {
    match source
    case Pending => Pending
    case Fulfilled(u) => Fulfilled(transform(u))
    case Rejected(e) => Rejected(e)
  }

  /** `bind(closure)(futureA)`: a fresh future, rejected with `futureA`'s error on its failure, and
      correlated with `closure(a)` (identity transform) on its success with `a`. */
  function Bind<A, B, E>(closure: A -> FutureState<B, E>, fa: FutureState<A, E>): FutureState<B, E>
  {
    match fa
    case Pending => Pending
    case Rejected(e) => Rejected(e)
    case Fulfilled(a) => Correlate(closure(a), b => b)
  }

  /** `left >>> right`: `bind(right)(left(a))`. */
  function Compose<A, B, C, E>(left: A -> FutureState<B, E>, right: B -> FutureState<C, E>): A -> FutureState<C, E>
  {
    a => Bind(right, left(a))
  }

  /** `value |> f`: plain application. */
  function PipeValue<A, B, E>(left: A, right: A -> FutureState<B, E>): FutureState<B, E>
  {
    right(left)
  }

  /** `future |> f`: `bind(f)(future)`. */
  function PipeFuture<A, B, E>(left: FutureState<A, E>, right: A -> FutureState<B, E>): FutureState<B, E>
  {
    Bind(right, left)
  }

  /** The outcome of `bind`: it stays pending while its input does; a rejection passes with the
      same error whatever the closure (which is never consulted); a fulfillment takes on the
      outcome of the closure's future unchanged. */
  lemma BindOutcome<A, B, E>(k: A -> FutureState<B, E>, k': A -> FutureState<B, E>, fa: FutureState<A, E>)
    ensures fa.Pending? ==> Bind(k, fa) == Pending
    ensures fa.Rejected? ==> Bind(k, fa) == Rejected(fa.error) == Bind(k', fa)
    ensures fa.Fulfilled? ==> Bind(k, fa) == k(fa.value)
  {
    if fa.Fulfilled? {
      CorrelateIdentity(k(fa.value));
    }
  }

  /** Correlating with the identity transform copies the source's outcome. */
  lemma CorrelateIdentity<T, E>(source: FutureState<T, E>)
    ensures Correlate(source, x => x) == source
  {
  }

  /** The pipe forms agree with the composition: `a |> f` is `f(a)`, and `a |> f |> g` (left
      associative, so its second pipe is the future overload) is `(f >>> g)(a)`. */
  lemma PipeIsComposition<A, B, C, E>(f: A -> FutureState<B, E>, g: B -> FutureState<C, E>, a: A)
    ensures PipeValue(a, f) == f(a)
    ensures PipeFuture(PipeValue(a, f), g) == Compose(f, g)(a)
  {
  }

  /** Regrouping a composition does not change its outcome. */
  lemma {:induction false} ComposeAssociative<A, B, C, D, E>(f: A -> FutureState<B, E>, g: B -> FutureState<C, E>,
                                                             h: C -> FutureState<D, E>, a: A)
    ensures Compose(Compose(f, g), h)(a) == Compose(f, Compose(g, h))(a)
  {
    match f(a)
    case Pending =>
    case Rejected(e) =>
    case Fulfilled(b) =>
      BindOutcome(g, g, f(a));
      BindOutcome(Compose(g, h), Compose(g, h), f(a));
      BindOutcome(h, h, g(b));
      match g(b)
      case Pending =>
      case Rejected(e) =>
      case Fulfilled(c) =>
  }

  /** A pipeline `fx |> s0 |> s1 |> ...` of stages over one type. */
  function Pipeline<X, E>(fx: FutureState<X, E>, stages: seq<X -> FutureState<X, E>>): FutureState<X, E>
    decreases |stages|
  {
    if stages == [] then fx else Pipeline(PipeFuture(fx, stages[0]), stages[1..])
  }

  /** A rejection runs through every further stage unchanged. */
  lemma {:induction false} RejectionPassesStages<X, E>(e: E, stages: seq<X -> FutureState<X, E>>)
    ensures Pipeline(Rejected(e), stages) == Rejected(e)
    decreases |stages|
  {
    if stages != [] {
      RejectionPassesStages(e, stages[1..]);
    }
  }

  /** Running a pipeline in two pieces is running it whole. */
  lemma {:induction false} PipelineSplit<X, E>(fx: FutureState<X, E>, a: seq<X -> FutureState<X, E>>, b: seq<X -> FutureState<X, E>>)
    ensures Pipeline(fx, a + b) == Pipeline(Pipeline(fx, a), b)
    decreases |a|
  {
    if a == [] {
      assert a + b == b;
    } else {
      assert (a + b)[0] == a[0] && (a + b)[1..] == a[1..] + b;
      PipelineSplit(PipeFuture(fx, a[0]), a[1..], b);
    }
  }

  /** A rejection in the middle of a pipeline reaches its end with the same error. */
  lemma RejectionReachesEnd<X, E>(fx: FutureState<X, E>, stages: seq<X -> FutureState<X, E>>, i: nat, e: E)
    requires i <= |stages| && Pipeline(fx, stages[..i]) == Rejected(e)
    ensures Pipeline(fx, stages) == Rejected(e)
  {
    assert stages == stages[..i] + stages[i..];
    PipelineSplit(fx, stages[..i], stages[i..]);
    RejectionPassesStages(e, stages[i..]);
  }
}
