/** What both generations of the future engine (Future.swift and Promise.swift) share: the
    settle-once state, the producer's settlement calls, completion handlers and the rule that
    decides which handler is dispatched in which state. */
module Settlement {
  import opened Prelude

  /** `FutureState`: pending, or settled with a value or with an error. */
  datatype FutureState<T, E> = Pending | Fulfilled(value: T) | Rejected(error: E)
  {
    /** `isPending`: no terminal state has been reached. */
    predicate IsPending()
      ensures IsPending() <==> !(Fulfilled? || Rejected?)
    {
      Pending?
    }
  }

  /** A producer's settlement call: `fulfill(value)` or `reject(error)`. */
  datatype Command<T, E> = Fulfill(value: T) | Reject(error: E)

  /** The terminal state a command asks for. */
  function Target<T, E>(c: Command<T, E>): (s: FutureState<T, E>)
    ensures !s.Pending?
    ensures s.Fulfilled? <==> c.Fulfill?
    ensures s.Fulfilled? ==> s.value == c.value
    ensures s.Rejected? ==> s.error == c.error
  {
    match c
    case Fulfill(v) => Fulfilled(v)
    case Reject(e) => Rejected(e)
  }

  /** `fulfill`/`reject` behind their `guard case .pending`: a pending future takes the requested
      terminal state, a settled one ignores the call. */
  function Apply<T, E>(s: FutureState<T, E>, c: Command<T, E>): (r: FutureState<T, E>)
    ensures !r.Pending?
    ensures s.Pending? ==> r == Target(c)
    ensures !s.Pending? ==> r == s
  {
    if s.Pending? then Target(c) else s
  }

  /** The state after a sequence of settlement calls, in call order. */
  function ApplyAll<T, E>(s: FutureState<T, E>, cs: seq<Command<T, E>>): FutureState<T, E>
    decreases |cs|
  {
    if cs == [] then s else ApplyAll(Apply(s, cs[0]), cs[1..])
  }

  /** A settled state is fixed by every further settlement call. */
  lemma {:induction false} SettledIsFinal<T, E>(s: FutureState<T, E>, cs: seq<Command<T, E>>)
    requires !s.Pending?
    ensures ApplyAll(s, cs) == s
    decreases |cs|
  {
    if cs != [] {
      SettledIsFinal(Apply(s, cs[0]), cs[1..]);
    }
  }

  /** Settle-once: from pending, only the first of N >= 1 settlement calls has an effect, so the
      state after all of them is the state after the first alone. */
  lemma {:induction false} FirstSettlementWins<T, E>(cs: seq<Command<T, E>>)
    requires |cs| > 0
    ensures ApplyAll(Pending, cs) == Target(cs[0])
    ensures ApplyAll(Pending, cs) == ApplyAll(Pending, cs[..1])
  {
    SettledIsFinal(Target(cs[0]), cs[1..]);
    SettledIsFinal(Target(cs[0]), cs[..1][1..]);
  }

  /** `resolveWith(f)` / `resolve(f)`: a value `f` returns becomes `fulfill`, an error it throws
      becomes `reject`. */
  function Resolve<T, E>(outcome: Completion<T, E>): (c: Command<T, E>)
    ensures c.Fulfill? <==> outcome.Returned?
    ensures c.Fulfill? ==> c.value == outcome.value
    ensures c.Reject? ==> c.error == outcome.error
  {
    match outcome
    case Returned(v) => Fulfill(v)
    case Threw(e) => Reject(e)
  }

  /** Identity of a handler closure. */
  type TaskId = nat
  /** Identity of the DispatchQueue (or ExecutionContext) a handler is bound to. */
  type ContextId = nat

  datatype Kind = Success | Failure | Finally

  /** `FutureCompletionHandler`: a kind, the closure and where it must run. */
  datatype Handler = Handler(kind: Kind, task: TaskId, context: ContextId)

  /** The argument a handler is called with. */
  datatype Payload<T, E> = WithValue(value: T) | WithError(error: E) | NoArgument

  /** One hand-off of a handler to its queue or context (`queue.async { task(payload) }`). */
  datatype Dispatch<T, E> = Dispatch(task: TaskId, context: ContextId, payload: Payload<T, E>)

  /** The filter of `executeCompletionHandler`: success handlers run on a fulfilled future, failure
      handlers on a rejected one, `finally` handlers on any terminal state. */
  predicate Fires<T, E>(h: Handler, s: FutureState<T, E>)
  {
    match h.kind
    case Success => s.Fulfilled?
    case Failure => s.Rejected?
    case Finally => !s.Pending?
  }

  /** `executeCompletionHandler(handler)`: at most one dispatch, carrying the payload that matches
      the handler's kind. */
  function Execute<T, E>(h: Handler, s: FutureState<T, E>): (ds: seq<Dispatch<T, E>>)
    ensures |ds| <= 1
    ensures |ds| == 1 <==> Fires(h, s)
    ensures |ds| == 1 ==> ds[0].task == h.task && ds[0].context == h.context
    ensures |ds| == 1 && h.kind == Success ==> s.Fulfilled? && ds[0].payload == WithValue(s.value)
    ensures |ds| == 1 && h.kind == Failure ==> s.Rejected? && ds[0].payload == WithError(s.error)
    ensures |ds| == 1 && h.kind == Finally ==> !s.Pending? && ds[0].payload == NoArgument
  {
    match (h.kind, s)
    case (Success, Fulfilled(v)) => [Dispatch(h.task, h.context, WithValue(v))]
    case (Failure, Rejected(e)) => [Dispatch(h.task, h.context, WithError(e))]
    case (Finally, _) => if s.Pending? then [] else [Dispatch(h.task, h.context, NoArgument)]
    case _ => []
  }

  /** `stateHandlers.forEach(executeCompletionHandler)`: the dispatches of a handler list, in
      list order. */
  function DispatchAll<T, E>(hs: seq<Handler>, s: FutureState<T, E>): (ds: seq<Dispatch<T, E>>)
    ensures |ds| <= |hs|
    ensures s.Pending? ==> ds == []
  {
    if hs == [] then [] else Execute(hs[0], s) + DispatchAll(hs[1..], s)
  }

  /** Dispatching two lists one after the other is dispatching their concatenation. */
  lemma {:induction false} DispatchAllAppend<T, E>(a: seq<Handler>, b: seq<Handler>, s: FutureState<T, E>)
    ensures DispatchAll(a + b, s) == DispatchAll(a, s) + DispatchAll(b, s)
  {
    if a != [] {
      assert (a + b)[0] == a[0] && (a + b)[1..] == a[1..] + b;
      DispatchAllAppend(a[1..], b, s);
      assert DispatchAll(a + b, s) == Execute(a[0], s) + (DispatchAll(a[1..], s) + DispatchAll(b, s));
    } else {
      assert a + b == b;
    }
  }

  /** Nothing is dispatched that is not the dispatch of a listed handler whose kind fits the
      state: a success handler never sees a rejection, a failure handler never sees a value. */
  lemma {:induction false} DispatchAllSound<T, E>(hs: seq<Handler>, s: FutureState<T, E>, d: Dispatch<T, E>)
    requires d in DispatchAll(hs, s)
    ensures exists i :: 0 <= i < |hs| && Fires(hs[i], s) && Execute(hs[i], s) == [d]
  {
    if d in Execute(hs[0], s) {
      assert Execute(hs[0], s) == [d];
    } else {
      DispatchAllSound(hs[1..], s, d);
      var i :| 0 <= i < |hs[1..]| && Fires(hs[1..][i], s) && Execute(hs[1..][i], s) == [d];
      assert hs[i + 1] == hs[1..][i];
    }
  }

  /** A handler that fits the state is dispatched right after everything dispatched for the
      handlers listed before it. */
  lemma DispatchPosition<T, E>(hs: seq<Handler>, s: FutureState<T, E>, i: nat)
    requires i < |hs| && Fires(hs[i], s)
    ensures |DispatchAll(hs[..i], s)| < |DispatchAll(hs[..i + 1], s)|
    ensures DispatchAll(hs[..i + 1], s) == DispatchAll(hs[..i], s) + Execute(hs[i], s)
    ensures |DispatchAll(hs[..i], s)| < |DispatchAll(hs, s)|
    ensures DispatchAll(hs, s)[|DispatchAll(hs[..i], s)|] == Execute(hs[i], s)[0]
  {
    assert hs[..i + 1] == hs[..i] + [hs[i]];
    DispatchAllAppend(hs[..i], [hs[i]], s);
    assert hs == hs[..i + 1] + hs[i + 1..];
    DispatchAllAppend(hs[..i + 1], hs[i + 1..], s);
  }

  /** Registration order is dispatch order: of two handlers that fit the state, the one listed
      first is dispatched first. */
  lemma DispatchOrder<T, E>(hs: seq<Handler>, s: FutureState<T, E>, i: nat, j: nat)
    requires i < j < |hs| && Fires(hs[i], s) && Fires(hs[j], s)
    ensures exists p, q :: 0 <= p < q < |DispatchAll(hs, s)| &&
                           DispatchAll(hs, s)[p] == Execute(hs[i], s)[0] &&
                           DispatchAll(hs, s)[q] == Execute(hs[j], s)[0]
  {
    DispatchPosition(hs, s, i);
    DispatchPosition(hs, s, j);
    assert hs[..j] == hs[..i + 1] + hs[i + 1..j];
    DispatchAllAppend(hs[..i + 1], hs[i + 1..j], s);
    var p, q := |DispatchAll(hs[..i], s)|, |DispatchAll(hs[..j], s)|;
    assert p < q;
  }

  /** How often a handler closure appears in a dispatch log. */
  function Occurrences<T, E>(t: TaskId, ds: seq<Dispatch<T, E>>): nat
  {
    if ds == [] then 0 else (if ds[0].task == t then 1 else 0) + Occurrences(t, ds[1..])
  }

  lemma {:induction false} OccurrencesAppend<T, E>(t: TaskId, a: seq<Dispatch<T, E>>, b: seq<Dispatch<T, E>>)
    ensures Occurrences(t, a + b) == Occurrences(t, a) + Occurrences(t, b)
  {
    if a != [] {
      assert (a + b)[0] == a[0] && (a + b)[1..] == a[1..] + b;
      OccurrencesAppend(t, a[1..], b);
    } else {
      assert a + b == b;
    }
  }

  /** Distinct closures in a handler list. */
  predicate DistinctTasks(hs: seq<Handler>)
  {
    forall i, j :: 0 <= i < j < |hs| ==> hs[i].task != hs[j].task
  }

  /** Exactly once: each listed handler that fits the state is dispatched once, every other one
      never. */
  lemma {:induction false} DispatchedOnce<T, E>(hs: seq<Handler>, s: FutureState<T, E>, i: nat)
    requires DistinctTasks(hs) && i < |hs|
    ensures Occurrences(hs[i].task, DispatchAll(hs, s)) == if Fires(hs[i], s) then 1 else 0
  {
    var t := hs[i].task;
    OccurrencesAppend(t, Execute(hs[0], s), DispatchAll(hs[1..], s));
    if i == 0 {
      NeverDispatched(hs[1..], s, t);
    } else {
      assert hs[1..][i - 1] == hs[i];
      DispatchedOnce(hs[1..], s, i - 1);
    }
  }

  /** A closure that is not in the list is never dispatched. */
  lemma {:induction false} NeverDispatched<T, E>(hs: seq<Handler>, s: FutureState<T, E>, t: TaskId)
    requires forall i :: 0 <= i < |hs| ==> hs[i].task != t
    ensures Occurrences(t, DispatchAll(hs, s)) == 0
  {
    if hs != [] {
      OccurrencesAppend(t, Execute(hs[0], s), DispatchAll(hs[1..], s));
      NeverDispatched(hs[1..], s, t);
    }
  }
}
