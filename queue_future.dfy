/** The current engine of Future.swift. Every block the future runs on its serial `syncQueue`
    is one atomic method here. `fulfill`/`reject` write the state and then enqueue the flush of
    the stored handlers as a separate block, so `Flush` is a method of its own and registrations
    may run between a settlement and its flush. A hand-off `queue.async { handler(payload) }` is
    recorded as an entry of the `dispatched` log. */
module QueueFuture {
  import opened Prelude
  import opened Settlement

  /** What `result()` throws: `FutureError.stillPending`, or the error the future was rejected
      with. */
  datatype FutureError<E> = StillPending | Stored(error: E)

  class Future<T, E> {
    var state: FutureState<T, E>
    var stateHandlers: seq<Handler>
    /** Every handler handed to its queue so far, in hand-off order. */
    var dispatched: seq<Dispatch<T, E>>
    /** A flush block enqueued by `fulfill`/`reject` is waiting on `syncQueue`. */
    var flushScheduled: bool
    /** The registrations made while the future was pending, */
    ghost var early: seq<Handler>
    /** those made after it settled but before its flush ran, */
    ghost var overtaking: seq<Handler>
    /** and those made after the flush, each in call order. */
    ghost var late: seq<Handler>

    /** Every registration made so far, in call order. */
    ghost function Registered(): seq<Handler>
      reads this
    {
      early + overtaking + late
    }

    /** While pending, every registration is stored and nothing is dispatched. Once settled, a
        registration is dispatched at once if it fits the state; the stored (early) ones wait
        for the flush, so the ones made before the flush overtake them. */
    ghost predicate Valid()
      reads this
    {
      if state.Pending? then
        !flushScheduled && stateHandlers == early && overtaking == [] && late == [] && dispatched == []
      else
        SettledLog(dispatched)
    }

    /** The dispatch log `ds` of a settled future: the overtaking registrations' dispatches,
        followed, once the flush has run, by those of the stored and the late registrations. */
    ghost predicate SettledLog(ds: seq<Dispatch<T, E>>)
      reads this
    {
      if flushScheduled then
        stateHandlers == early && late == [] && ds == DispatchAll(overtaking, state)
      else
        stateHandlers == [] && ds == DispatchAll(overtaking, state) + DispatchAll(early, state) + DispatchAll(late, state)
    }

    /** `init()`: a fresh future is pending and has no handlers. */
    constructor ()
      ensures Valid()
      ensures state == Pending && stateHandlers == [] && dispatched == [] && Registered() == []
      ensures !flushScheduled
    {
      state := Pending;
      stateHandlers := [];
      dispatched := [];
      flushScheduled := false;
      early, overtaking, late := [], [], [];
    }

    /** `result()`: the value of a fulfilled future; a pending future throws `stillPending` and a
        rejected one throws its stored error. */
    function Result(): (r: Completion<T, FutureError<E>>)
      reads this
      ensures r == Threw(StillPending) <==> state.Pending?
      ensures r.Returned? <==> state.Fulfilled?
      ensures r.Returned? ==> r.value == state.value
      ensures state.Rejected? ==> r == Threw(Stored(state.error))
    {
      match state
      case Pending => Threw(StillPending)
      case Rejected(e) => Threw(Stored(e))
      case Fulfilled(v) => Returned(v)
    }

    /** `fulfill(value)`: a pending future becomes fulfilled and schedules the flush of its stored
        handlers; a settled future ignores the call. */
    method Fulfill(value: T)
      requires Valid()
      modifies this
      ensures Valid()
      ensures state == Apply(old(state), Command.Fulfill(value))
      ensures flushScheduled == (old(state).Pending? || old(flushScheduled))
      ensures stateHandlers == old(stateHandlers) && dispatched == old(dispatched)
      ensures early == old(early) && overtaking == old(overtaking) && late == old(late)
    {
      if !state.Pending? {
        return;
      }
      state := Fulfilled(value);
      flushScheduled := true;
    }

    /** `reject(error)`: the mirror image of `fulfill`. */
    method Reject(error: E)
      requires Valid()
      modifies this
      ensures Valid()
      ensures state == Apply(old(state), Command.Reject(error))
      ensures flushScheduled == (old(state).Pending? || old(flushScheduled))
      ensures stateHandlers == old(stateHandlers) && dispatched == old(dispatched)
      ensures early == old(early) && overtaking == old(overtaking) && late == old(late)
    {
      if !state.Pending? {
        return;
      }
      state := Rejected(error);
      flushScheduled := true;
    }

    /** `resolveWith(f)`: fulfills with what `f` returns, rejects with what it throws. */
    method ResolveWith(outcome: Completion<T, E>)
      requires Valid()
      modifies this
      ensures Valid()
      ensures state == Apply(old(state), Resolve(outcome))
      ensures flushScheduled == (old(state).Pending? || old(flushScheduled))
      ensures stateHandlers == old(stateHandlers) && dispatched == old(dispatched)
      ensures early == old(early) && overtaking == old(overtaking) && late == old(late)
    {
      match outcome
      case Returned(v) => Fulfill(v);
      case Threw(e) => Reject(e);
    }

    /** `executeCompletionHandler(handler)`: hands the handler to its queue if it fits the state. */
    method ExecuteCompletionHandler(h: Handler)
      modifies this`dispatched
      ensures dispatched == old(dispatched) + Execute(h, state)
    {
      match h.kind {
        case Success =>
          if state.Fulfilled? {
            dispatched := dispatched + [Dispatch(h.task, h.context, WithValue(state.value))];
          }
        case Failure =>
          if state.Rejected? {
            dispatched := dispatched + [Dispatch(h.task, h.context, WithError(state.error))];
          }
        case _ =>
          if !state.Pending? {
            dispatched := dispatched + [Dispatch(h.task, h.context, NoArgument)];
          }
      }
    }

    /** `executeDeferedCompletionHandlers()`, the block that `fulfill`/`reject` enqueue: dispatches
        the stored handlers that fit the terminal state, in the order they were stored, then
        empties the list. */
    method Flush()
      requires Valid() && flushScheduled
      modifies this
      ensures Valid()
      ensures !flushScheduled && stateHandlers == []
      ensures dispatched == old(dispatched) + DispatchAll(old(stateHandlers), state)
      ensures state == old(state)
      ensures early == old(early) && overtaking == old(overtaking) && late == old(late)
    {
      for i := 0 to |stateHandlers|
        invariant stateHandlers == old(stateHandlers) && state == old(state) && flushScheduled
        invariant early == old(early) && overtaking == old(overtaking) && late == old(late)
        invariant dispatched == old(dispatched) + DispatchAll(stateHandlers[..i], state)
      {
        assert stateHandlers[..i + 1] == stateHandlers[..i] + [stateHandlers[i]];
        DispatchAllAppend(stateHandlers[..i], [stateHandlers[i]], state);
        ExecuteCompletionHandler(stateHandlers[i]);
      }
      assert stateHandlers[..|stateHandlers|] == stateHandlers;
      stateHandlers := [];
      flushScheduled := false;
    }

    /** After the flush, every registration has been dispatched exactly as the dispatch filter
        says; when none ran between settlement and flush, the log is in registration order. */
    lemma FlushedLog()
      requires Valid() && !state.Pending? && !flushScheduled
      ensures dispatched == DispatchAll(overtaking, state) + DispatchAll(early + late, state)
      ensures overtaking == [] ==> dispatched == DispatchAll(Registered(), state)
    {
      DispatchAllAppend(early, late, state);
      DispatchAllAppend(early + overtaking, late, state);
      DispatchAllAppend(early, overtaking, state);
    }

    /** `deferCompletionHandler(handler)`: appends to the stored handlers. */
    method DeferCompletionHandler(h: Handler)
      modifies this`stateHandlers
      ensures stateHandlers == old(stateHandlers) + [h]
    {
      stateHandlers := stateHandlers + [h];
    }

    /** Records a registration on a settled future, which has just been handed to its queue if it
        fits the state: it overtakes the stored handlers if their flush has not yet run. */
    ghost method RecordSettled(h: Handler, before: seq<Dispatch<T, E>>)
      requires !state.Pending? && SettledLog(before) && dispatched == before + Execute(h, state)
      modifies this`overtaking, this`late
      ensures SettledLog(dispatched) && early == old(early)
      ensures Registered() == old(Registered()) + [h]
      ensures flushScheduled ==> overtaking == old(overtaking) + [h] && late == old(late)
      ensures !flushScheduled ==> overtaking == old(overtaking) && late == old(late) + [h]
    {
      DispatchAllAppend(if flushScheduled then overtaking else late, [h], state);
      assert DispatchAll([h], state) == Execute(h, state) by { assert [h][1..] == []; }
      if flushScheduled {
        RecordOvertaking(h);
      } else {
        RecordLate(h);
      }
    }

    /** A registration made before the flush joins the overtaking ones. */
    ghost method RecordOvertaking(h: Handler)
      requires flushScheduled && stateHandlers == early && late == []
      requires dispatched == DispatchAll(overtaking + [h], state)
      modifies this`overtaking
      ensures SettledLog(dispatched)
      ensures overtaking == old(overtaking) + [h] && Registered() == old(Registered()) + [h]
    {
      overtaking := overtaking + [h];
    }

    /** A registration made after the flush joins the late ones. */
    ghost method RecordLate(h: Handler)
      requires !flushScheduled && stateHandlers == []
      requires dispatched == DispatchAll(overtaking, state) + DispatchAll(early, state) + DispatchAll(late + [h], state)
      modifies this`late
      ensures SettledLog(dispatched)
      ensures late == old(late) + [h] && Registered() == old(Registered()) + [h]
    {
      late := late + [h];
    }

    /** `onSuccess(on: queue, successHandler:)`: while pending the handler is stored; on a
        fulfilled future it is dispatched at once with the value; on a rejected one it is
        dropped. The state never changes and the future itself is returned. */
    method OnSuccess(task: TaskId, queue: ContextId) returns (self: Future<T, E>)
      requires Valid()
      modifies this
      ensures Valid() && self == this
      ensures state == old(state) && flushScheduled == old(flushScheduled)
      ensures Registered() == old(Registered()) + [Handler(Success, task, queue)]
      ensures old(state).Pending? ==>
                stateHandlers == old(stateHandlers) + [Handler(Success, task, queue)] && dispatched == old(dispatched)
      ensures old(state).Fulfilled? ==>
                stateHandlers == old(stateHandlers) && dispatched == old(dispatched) + [Dispatch(task, queue, WithValue(state.value))]
      ensures old(state).Rejected? ==> stateHandlers == old(stateHandlers) && dispatched == old(dispatched)
    {
      var h := Handler(Success, task, queue);
      if state.Pending? {
        DeferCompletionHandler(h);
        early := early + [h];
        assert Registered() == early;
      } else {
        ghost var before := dispatched;
        if state.Fulfilled? {
          ExecuteCompletionHandler(h);
        } else {
          assert |Execute(h, state)| == 0;
        }
        RecordSettled(h, before);
      }
      self := this;
    }

    /** `onFailure(on: queue, failureHandler:)`: the mirror image of `onSuccess`. */
    method OnFailure(task: TaskId, queue: ContextId) returns (self: Future<T, E>)
      requires Valid()
      modifies this
      ensures Valid() && self == this
      ensures state == old(state) && flushScheduled == old(flushScheduled)
      ensures Registered() == old(Registered()) + [Handler(Failure, task, queue)]
      ensures old(state).Pending? ==>
                stateHandlers == old(stateHandlers) + [Handler(Failure, task, queue)] && dispatched == old(dispatched)
      ensures old(state).Rejected? ==>
                stateHandlers == old(stateHandlers) && dispatched == old(dispatched) + [Dispatch(task, queue, WithError(state.error))]
      ensures old(state).Fulfilled? ==> stateHandlers == old(stateHandlers) && dispatched == old(dispatched)
    {
      var h := Handler(Failure, task, queue);
      if state.Pending? {
        DeferCompletionHandler(h);
        early := early + [h];
        assert Registered() == early;
      } else {
        ghost var before := dispatched;
        if state.Rejected? {
          ExecuteCompletionHandler(h);
        } else {
          assert |Execute(h, state)| == 0;
        }
        RecordSettled(h, before);
      }
      self := this;
    }

    /** `finally(on: queue, handler:)`: stored while pending, dispatched at once on either
        terminal state. */
    method Finally(task: TaskId, queue: ContextId) returns (self: Future<T, E>)
      requires Valid()
      modifies this
      ensures Valid() && self == this
      ensures state == old(state) && flushScheduled == old(flushScheduled)
      ensures Registered() == old(Registered()) + [Handler(Kind.Finally, task, queue)]
      ensures old(state).Pending? ==>
                stateHandlers == old(stateHandlers) + [Handler(Kind.Finally, task, queue)] && dispatched == old(dispatched)
      ensures !old(state).Pending? ==>
                stateHandlers == old(stateHandlers) && dispatched == old(dispatched) + [Dispatch(task, queue, NoArgument)]
    {
      var h := Handler(Kind.Finally, task, queue);
      if state.Pending? {
        DeferCompletionHandler(h);
        early := early + [h];
        assert Registered() == early;
      } else {
        ghost var before := dispatched;
        ExecuteCompletionHandler(h);
        RecordSettled(h, before);
      }
      self := this;
    }
  }
}
