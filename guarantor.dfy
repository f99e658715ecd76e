/** `PromiseGuarantor<T>` (PromiseGuarantor.swift): the write side that owns one promise and
    forwards settlement to it. The promise it owns is the future class of Promise.swift, whose
    pending state the guarantor inspects. */
module Guarantor {
  import opened Prelude
  import opened Settlement
  import SyncFuture

  class PromiseGuarantor<T, E> {
    const promise: SyncFuture.Future<T, E>

    ghost predicate Valid()
      reads promise
    {
      promise.Valid()
    }

    /** `init()`: owns a fresh, pending promise. */
    constructor ()
      ensures Valid() && fresh(promise)
      ensures promise.state == Pending && promise.stateHandlers == [] && promise.registered == []
      ensures IsPending()
    {
      promise := new SyncFuture.Future();
    }

    /** `isPending`: the owned promise has not been settled. */
    predicate IsPending()
      reads promise
      ensures IsPending() <==> promise.state.IsPending()
    {
      promise.state.Pending?
    }

    /** `reject(error)`: forwards to the promise and returns it. */
    method Reject(error: E) returns (p: SyncFuture.Future<T, E>)
      requires Valid()
      modifies promise
      ensures Valid() && p == promise && !IsPending()
      ensures promise.state == Apply(old(promise.state), Command.Reject(error))
      ensures promise.registered == old(promise.registered)
    {
      promise.Reject(error);
      p := promise;
    }

    /** `fulfill(value)`: forwards to the promise and returns it. */
    method Fulfill(value: T) returns (p: SyncFuture.Future<T, E>)
      requires Valid()
      modifies promise
      ensures Valid() && p == promise && !IsPending()
      ensures promise.state == Apply(old(promise.state), Command.Fulfill(value))
      ensures promise.registered == old(promise.registered)
    {
      promise.Fulfill(value);
      p := promise;
    }

    /** `resolve(f)`: forwards to the promise. */
    method Resolve(outcome: Completion<T, E>)
      requires Valid()
      modifies promise
      ensures Valid() && !IsPending()
      ensures promise.state == Apply(old(promise.state), Settlement.Resolve(outcome))
      ensures promise.registered == old(promise.registered)
    {
      promise.Resolve(outcome);
    }

    /** `ensureResolution()`: whether its debug assertion `!isPending` holds. */
    predicate EnsureResolution()
      reads promise
      ensures EnsureResolution() <==> !promise.state.Pending?
    {
      !IsPending()
    }
  }
}
