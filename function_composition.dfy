/** `>>>` and `|>` over throwing functions (FunctionComposition.swift). A throwing function
    `A throws -> B` is a total function `A -> Completion<B, E>`. */
module FunctionComposition {
  import opened Prelude

  /** `left >>> right`: a new function that feeds `left`'s result into `right`; `try` makes an
      error of `left` leave the function before `right` is reached. */
  function Compose<A, B, C, E>(left: A -> Completion<B, E>, right: B -> Completion<C, E>): A -> Completion<C, E>
  {
    a => match left(a)
         case Threw(e) => Threw(e)
         case Returned(b) => right(b)
  }

  /** `left |> right`: applies `right` to `left` at once. */
  function Pipe<A, B, E>(left: A, right: A -> Completion<B, E>): Completion<B, E>
  {
    right(left)
  }

  /** The three outcomes of a composition: both succeed, the first throws (the second is never
      consulted, so its result does not matter), or the second throws. */
  lemma ComposeOutcome<A, B, C, E>(f: A -> Completion<B, E>, g: B -> Completion<C, E>, g': B -> Completion<C, E>, a: A)
    ensures f(a).Returned? && g(f(a).value).Returned? ==> Compose(f, g)(a) == Returned(g(f(a).value).value)
    ensures f(a).Threw? ==> Compose(f, g)(a) == Threw(f(a).error) == Compose(f, g')(a)
    ensures f(a).Returned? && g(f(a).value).Threw? ==> Compose(f, g)(a) == Threw(g(f(a).value).error)
  {
  }

  /** `a |> f |> g` (left associative) agrees with `(f >>> g)(a)`, error propagation included;
      a pipe is plain application. */
  lemma PipeIsComposition<A, B, C, E>(f: A -> Completion<B, E>, g: B -> Completion<C, E>, a: A)
    ensures Pipe(a, f) == f(a)
    ensures Pipe(a, f).Returned? ==> Pipe(Pipe(a, f).value, g) == Compose(f, g)(a)
    ensures Pipe(a, f).Threw? ==> Compose(f, g)(a) == Threw(Pipe(a, f).error)
  {
  }

  /** Regrouping a composition does not change it. */
  lemma ComposeAssociative<A, B, C, D, E>(f: A -> Completion<B, E>, g: B -> Completion<C, E>, h: C -> Completion<D, E>, a: A)
    ensures Compose(Compose(f, g), h)(a) == Compose(f, Compose(g, h))(a)
  {
    match f(a)
    case Threw(e) =>
    case Returned(b) =>
      assert Compose(f, Compose(g, h))(a) == Compose(g, h)(b);
  }
}
