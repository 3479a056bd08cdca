/**
 * How a call's promise settles and how the optional completion callback is
 * driven.  Both client variants end a call with the same chain: on success the
 * callback, if any, receives `(null, res, body)`; a rejection, including one
 * thrown by that success handler, is handed to the callback as `(err)`; without
 * a callback the promise's own outcome is returned unchanged.
 */
module Promises {
  import opened Js

  /** The state a promise ends in; `Pending` when it never settles. */
  datatype Settlement<T, E> = Pending | Fulfilled(value: T) | Rejected(reason: E)

  /** What a completion callback did: returned a value or threw an error. */
  datatype CallbackResult<E> = Returned(value: Value) | Threw(error: E)

  /** The value a fulfilled call promise carries. */
  datatype Delivered<T> = Direct(value: T) | FromCallback(returned: Value)

  /**
   * The arguments of every callback invocation, in order (`Fulfilled(v)` stands
   * for `cb(null, res, body)`, `Rejected(e)` for `cb(e)`), and the promise that
   * the call hands back to its caller.
   */
  datatype Delivery<T, E> = Delivery(calls: seq<Settlement<T, E>>, promise: Settlement<Delivered<T>, E>)

  type Callback<!T, !E> = Settlement<T, E> -> CallbackResult<E>

  /** How a callback's own behaviour settles the promise it is chained into. */
  function Outcome<T, E>(r: CallbackResult<E>): (s: Settlement<Delivered<T>, E>)
    ensures !s.Pending?
    ensures s.Fulfilled? <==> r.Returned?
  {
    match r
    case Returned(v) => Fulfilled(FromCallback(v))
    case Threw(e) => Rejected(e)
  }

  /** The `.catch` branch: the callback receives the rejection reason. */
  function CatchWith<T, E>(before: seq<Settlement<T, E>>, cb: Callback<T, E>, e: E): (d: Delivery<T, E>)
    ensures d.calls == before + [Rejected(e)]
    ensures !d.promise.Pending?
    ensures d.promise == Outcome(cb(Rejected(e)))
  {
    var arg: Settlement<T, E> := Rejected(e);
    match cb(arg)
    case Returned(v) => Delivery(before + [arg], Fulfilled(FromCallback(v)))
    case Threw(e') => Delivery(before + [arg], Rejected(e'))
  }

  /**
   * `p.then(ok => cb ? cb(null, ok) : ok).catch(err => cb ? cb(err) : throw err)`.
   */
  function ThenCatch<T(==), E(==)>(p: Settlement<T, E>, cb: Option<Callback<T, E>>): (d: Delivery<T, E>)
    ensures d.promise.Pending? <==> p.Pending?
    ensures cb.None? || p.Pending? ==> d.calls == []
    ensures cb.None? && p.Fulfilled? ==> d.promise == Fulfilled(Direct(p.value))
    ensures cb.None? && p.Rejected? ==> d.promise == Rejected(p.reason)
    ensures cb.Some? && !p.Pending? ==> 1 <= |d.calls| <= 2 && d.calls[0] == p
    ensures cb.Some? ==> forall i :: 0 <= i < |d.calls| ==> !d.calls[i].Pending?
    ensures |d.calls| == 2 ==> p.Fulfilled? && d.calls[1].Rejected? && cb.value(p).Threw?
    ensures cb.Some? && d.promise.Fulfilled? ==> d.promise.value.FromCallback?
    ensures cb.Some? && !p.Pending? ==> d.promise == Outcome(cb.value(d.calls[|d.calls| - 1]))
  {
    match cb
    case None =>
      var promise := match p
        case Pending => Pending
        case Fulfilled(v) => Fulfilled(Direct(v))
        case Rejected(e) => Rejected(e);
      Delivery([], promise)
    case Some(f) =>
      match p
      case Pending => Delivery([], Pending)
      case Rejected(e) => CatchWith([], f, e)
      case Fulfilled(_) =>
        match f(p)
        case Returned(v) => Delivery([p], Fulfilled(FromCallback(v)))
        case Threw(e) => CatchWith([p], f, e)
  }

  /** A callback that never throws is invoked exactly once, with the call's outcome. */
  lemma CallbackCalledOnce<T, E>(p: Settlement<T, E>, f: Callback<T, E>)
    requires !p.Pending?
    requires f(p).Returned?
    ensures ThenCatch(p, Some(f)).calls == [p]
    ensures ThenCatch(p, Some(f)).promise == Fulfilled(FromCallback(f(p).value))
  {
  }

  /**
   * A callback that throws from the success branch is invoked a second time,
   * with its own error, by the trailing `.catch`.
   */
  lemma ThrowingCallbackCalledTwice<T, E>(p: Settlement<T, E>, f: Callback<T, E>)
    requires p.Fulfilled?
    requires f(p).Threw?
    ensures ThenCatch(p, Some(f)).calls == [p, Rejected(f(p).error)]
  {
  }

  /** With a callback the caller's promise never rejects unless the callback throws. */
  lemma CallbackAbsorbsRejection<T, E>(p: Settlement<T, E>, f: Callback<T, E>)
    requires forall a :: f(a).Returned?
    ensures p.Pending? || ThenCatch(p, Some(f)).promise.Fulfilled?
  {
  }
}
