/** The older engine of Promise.swift (despite the file name it defines a `Future` class). It has
    no queue: assigning a terminal state runs the `didSet` observer, which dispatches every stored
    handler that fits the state and empties the list within the same `fulfill`/`reject` call. A
    dispatch `context { handler(payload) }()` is recorded as an entry of the `dispatched` log. */
module SyncFuture {
  import opened Prelude
  import opened Settlement

  class Future<T, E> {
    var state: FutureState<T, E>
    var stateHandlers: seq<Handler>
    /** Every handler run through its execution context so far, in order. */
    var dispatched: seq<Dispatch<T, E>>
    /** Every registration made so far, in call order. */
    ghost var registered: seq<Handler>

    /** While pending every registration is stored and nothing has run; once settled, nothing
        is stored and the log is exactly the dispatch of every registration, in registration
        order. */
    ghost predicate Valid()
      reads this
    {
      if state.Pending? then
        stateHandlers == registered && dispatched == []
      else
        stateHandlers == [] && dispatched == DispatchAll(registered, state)
    }

    /** `init()`: a fresh future is pending and has no handlers. */
    constructor ()
      ensures Valid()
      ensures state == Pending && stateHandlers == [] && dispatched == [] && registered == []
    {
      state := Pending;
      stateHandlers := [];
      dispatched := [];
      registered := [];
    }

    /** The `state` setter. Its `willSet` observer asserts that the old state is pending; its
        `didSet` observer, on a terminal state, runs every stored handler that fits it in list
        order and then empties the list. */
    method SetState(newState: FutureState<T, E>)
      requires Valid() && state.Pending?
      modifies this
      ensures Valid()
      ensures state == newState && registered == old(registered)
      ensures newState.Pending? ==> stateHandlers == old(stateHandlers) && dispatched == old(dispatched)
      ensures !newState.Pending? ==>
                stateHandlers == [] && dispatched == old(dispatched) + DispatchAll(old(stateHandlers), newState)
    {
      state := newState;
      if !state.Pending? {
        for i := 0 to |stateHandlers|
          invariant stateHandlers == old(stateHandlers) && state == newState
          invariant registered == old(registered)
          invariant dispatched == old(dispatched) + DispatchAll(stateHandlers[..i], state)
        {
          assert stateHandlers[..i + 1] == stateHandlers[..i] + [stateHandlers[i]];
          DispatchAllAppend(stateHandlers[..i], [stateHandlers[i]], state);
          ExecuteCompletionHandler(stateHandlers[i]);
        }
        assert stateHandlers[..|stateHandlers|] == stateHandlers;
        stateHandlers := [];
      }
    }

    /** `fulfill(value)`: a pending future becomes fulfilled and runs its fitting handlers at
        once; a settled future ignores the call. */
    method Fulfill(value: T)
      requires Valid()
      modifies this
      ensures Valid()
      ensures state == Apply(old(state), Command.Fulfill(value))
      ensures registered == old(registered)
      ensures old(state).Pending? ==> stateHandlers == [] && dispatched == DispatchAll(old(stateHandlers), state)
      ensures !old(state).Pending? ==> stateHandlers == old(stateHandlers) && dispatched == old(dispatched)
    {
      if !state.Pending? {
        return;
      }
      SetState(Fulfilled(value));
    }

    /** `reject(error)`: the mirror image of `fulfill`. */
    method Reject(error: E)
      requires Valid()
      modifies this
      ensures Valid()
      ensures state == Apply(old(state), Command.Reject(error))
      ensures registered == old(registered)
      ensures old(state).Pending? ==> stateHandlers == [] && dispatched == DispatchAll(old(stateHandlers), state)
      ensures !old(state).Pending? ==> stateHandlers == old(stateHandlers) && dispatched == old(dispatched)
    {
      if !state.Pending? {
        return;
      }
      SetState(Rejected(error));
    }

    /** `resolve(f)`: fulfills with what `f` returns, rejects with what it throws. */
    method Resolve(outcome: Completion<T, E>)
      requires Valid()
      modifies this
      ensures Valid()
      ensures state == Apply(old(state), Settlement.Resolve(outcome))
      ensures registered == old(registered)
      ensures old(state).Pending? ==> stateHandlers == [] && dispatched == DispatchAll(old(stateHandlers), state)
      ensures !old(state).Pending? ==> stateHandlers == old(stateHandlers) && dispatched == old(dispatched)
    {
      match outcome
      case Returned(v) => Fulfill(v);
      case Threw(e) => Reject(e);
    }

    /** `executeCompletionHandler(handler)`: runs the handler through its context if it fits the
        state. */
    method ExecuteCompletionHandler(h: Handler)
      modifies this`dispatched
      ensures dispatched == old(dispatched) + Execute(h, state)
    {
      match h.kind {
        case Success =>
          if state.Fulfilled? {
            dispatched := dispatched + [Dispatch(h.task, h.context, WithValue(state.value))];
          }
        case Failure =>
          if state.Rejected? {
            dispatched := dispatched + [Dispatch(h.task, h.context, WithError(state.error))];
          }
        case _ =>
          if !state.Pending? {
            dispatched := dispatched + [Dispatch(h.task, h.context, NoArgument)];
          }
      }
    }

    /** Records a registration on a settled future, which has just been run if it fits. */
    ghost method RecordSettled(h: Handler, before: seq<Dispatch<T, E>>)
      requires !state.Pending? && stateHandlers == [] && before == DispatchAll(registered, state)
      requires dispatched == before + Execute(h, state)
      modifies this`registered
      ensures registered == old(registered) + [h] && Valid()
    {
      DispatchAllAppend(registered, [h], state);
      registered := registered + [h];
    }

    /** `onSuccess(context, successHandler)`: stored while pending, run at once with the value on
        a fulfilled future, ignored on a rejected one; returns the future itself. */
    method OnSuccess(task: TaskId, context: ContextId) returns (self: Future<T, E>)
      requires Valid()
      modifies this
      ensures Valid() && self == this
      ensures state == old(state) && registered == old(registered) + [Handler(Success, task, context)]
      ensures old(state).Pending? ==>
                stateHandlers == old(stateHandlers) + [Handler(Success, task, context)] && dispatched == old(dispatched)
      ensures old(state).Fulfilled? ==>
                stateHandlers == old(stateHandlers) && dispatched == old(dispatched) + [Dispatch(task, context, WithValue(state.value))]
      ensures old(state).Rejected? ==> stateHandlers == old(stateHandlers) && dispatched == old(dispatched)
    {
      var h := Handler(Success, task, context);
      if state.Pending? {
        stateHandlers := stateHandlers + [h];
        registered := registered + [h];
      } else {
        ghost var before := dispatched;
        if state.Fulfilled? {
          ExecuteCompletionHandler(h);
        } else {
          assert |Execute(h, state)| == 0;
        }
        RecordSettled(h, before);
      }
      self := this;
    }

    /** `onFailure(context, failureHandler)`: the mirror image of `onSuccess`. */
    method OnFailure(task: TaskId, context: ContextId) returns (self: Future<T, E>)
      requires Valid()
      modifies this
      ensures Valid() && self == this
      ensures state == old(state) && registered == old(registered) + [Handler(Failure, task, context)]
      ensures old(state).Pending? ==>
                stateHandlers == old(stateHandlers) + [Handler(Failure, task, context)] && dispatched == old(dispatched)
      ensures old(state).Rejected? ==>
                stateHandlers == old(stateHandlers) && dispatched == old(dispatched) + [Dispatch(task, context, WithError(state.error))]
      ensures old(state).Fulfilled? ==> stateHandlers == old(stateHandlers) && dispatched == old(dispatched)
    {
      var h := Handler(Failure, task, context);
      if state.Pending? {
        stateHandlers := stateHandlers + [h];
        registered := registered + [h];
      } else {
        ghost var before := dispatched;
        if state.Rejected? {
          ExecuteCompletionHandler(h);
        } else {
          assert |Execute(h, state)| == 0;
        }
        RecordSettled(h, before);
      }
      self := this;
    }

    /** `finally(context, handler)`: stored while pending, run at once on either terminal
        state. */
    method Finally(task: TaskId, context: ContextId) returns (self: Future<T, E>)
      requires Valid()
      modifies this
      ensures Valid() && self == this
      ensures state == old(state) && registered == old(registered) + [Handler(Kind.Finally, task, context)]
      ensures old(state).Pending? ==>
                stateHandlers == old(stateHandlers) + [Handler(Kind.Finally, task, context)] && dispatched == old(dispatched)
      ensures !old(state).Pending? ==>
                stateHandlers == old(stateHandlers) && dispatched == old(dispatched) + [Dispatch(task, context, NoArgument)]
    {
      var h := Handler(Kind.Finally, task, context);
      if state.Pending? {
        stateHandlers := stateHandlers + [h];
        registered := registered + [h];
      } else {
        ghost var before := dispatched;
        ExecuteCompletionHandler(h);
        RecordSettled(h, before);
      }
      self := this;
    }
  }

  /** `defaultExecutionContext`: runs the task at once and returns a future already settled by
      it, fulfilled if the task returned and rejected with its error if it threw. */
  method DefaultExecutionContext<E>(task: Completion<(), E>) returns (f: Future<(), E>)
    ensures fresh(f) && f.Valid()
    ensures f.state == Target(Settlement.Resolve(task))
    ensures f.stateHandlers == [] && f.dispatched == []
  {
    f := new Future();
    f.Resolve(task);
  }
}
