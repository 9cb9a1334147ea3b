/** Hook callbacks as the host bundler holds them, and the registration entry
    points (`build.onResolve`, `build.onLoad`) through which plugins install
    them. The candidate arguments `A` and the results `R` are opaque: the
    adapter only passes them along. */
module Hooks {
  import opened Wrappers

  /** The two hook kinds the adapter can filter. */
  datatype HookKind = Resolve | Load

  /** A callback the host may call with candidate arguments. A plugin's own
      callback returns a result or `undefined` (None); the adapter installs
      `Gated(pred, inner)`, the lambda `(args) => { if (pred(args)) return
      inner(args); }`. */
  datatype Callback<!A, R> =
    | Fn(f: A -> Option<R>)
    | Gated(pred: A -> bool, inner: Callback<A, R>)

  /** What one call of a callback does, in order: a predicate evaluated on
      `args`, or a plugin's own callback called with `args`. */
  datatype Event<A> = Tested(args: A) | Called(args: A)

  /** The value a callback returns to the host and the calls it made. */
  datatype Invocation<A, R> = Invocation(result: Option<R>, trace: seq<Event<A>>)

  /** Every gate around the plugin's own callback accepts `a`. */
  predicate Passes<A(!new), R>(cb: Callback<A, R>, a: A)
  {
    match cb
    case Fn(_) => true
    case Gated(pred, inner) => pred(a) && Passes(inner, a)
  }

  /** The host calling `cb` with `a`. Every call made receives the same `a`;
      the plugin's own callback is reached exactly when every gate accepts,
      at most once and as the last step; otherwise the result is `undefined`. */
  function Invoke<A(!new), R>(cb: Callback<A, R>, a: A): (r: Invocation<A, R>)
    ensures |r.trace| > 0
    ensures forall e | e in r.trace :: e.args == a
    ensures forall i | 0 <= i < |r.trace| - 1 :: r.trace[i].Tested?
    ensures Called(a) in r.trace <==> Passes(cb, a)
    ensures !Passes(cb, a) ==> r.result == None
  {
    match cb
    case Fn(f) => Invocation(f(a), [Called(a)])
    case Gated(pred, inner) =>
      if pred(a) then
        var r := Invoke(inner, a);
        Invocation(r.result, [Tested(a)] + r.trace)
      else
        Invocation(None, [Tested(a)])
  }

  /** A build object's registration entry point for one hook kind: the host's
      own (`Native`), or an override installed by the adapter that gates the
      callback with `pred` and hands it to the entry point of the build it was
      given (`next`). */
  datatype Registrar<!A> = Native | Filtering(pred: A -> bool, next: Registrar<A>)

  /** The callback that reaches the host when `cb` is registered through
      `reg`: each override forwards the gated callback to the entry point it
      copied. The host gets `cb`'s own result exactly when every override
      admits the arguments, and `undefined` otherwise. */
  function Wrap<A(!new), R>(reg: Registrar<A>, cb: Callback<A, R>): (r: Callback<A, R>)
    ensures forall a :: Passes(r, a) <==> Admits(reg, a) && Passes(cb, a)
    ensures forall a :: Invoke(r, a).result == if Admits(reg, a) then Invoke(cb, a).result else None
  {
    match reg
    case Native => cb
    case Filtering(pred, next) => Wrap(next, Gated(pred, cb))
  }

  /** Every override stacked in `reg` accepts `a`. */
  predicate Admits<A(!new)>(reg: Registrar<A>, a: A)
  {
    match reg
    case Native => true
    case Filtering(pred, next) => Admits(next, a) && pred(a)
  }

  /** `reg` with one more override for `pred`, placed directly above the
      host's own entry point, below every override `reg` already has. */
  function Graft<A(!new)>(reg: Registrar<A>, pred: A -> bool): Registrar<A>
  {
    match reg
    case Native => Filtering(pred, Native)
    case Filtering(p, next) => Filtering(p, Graft(next, pred))
  }

  /** A hook registration as the host records it. */
  datatype Registration<O, !A, R> = Registration(kind: HookKind, options: O, callback: Callback<A, R>)

  /** The gating lambda: when the predicate accepts, the host gets exactly what
      the wrapped callback returns, after one evaluation of the predicate on
      the same arguments; when it rejects, `undefined` and the wrapped callback
      is never called. */
  lemma GateDecision<A(!new), R>(pred: A -> bool, cb: Callback<A, R>, a: A)
    ensures pred(a) ==> Invoke(Gated(pred, cb), a).result == Invoke(cb, a).result
    ensures pred(a) ==> Invoke(Gated(pred, cb), a).trace == [Tested(a)] + Invoke(cb, a).trace
    ensures !pred(a) ==> Invoke(Gated(pred, cb), a) == Invocation(None, [Tested(a)])
  {
  }

  /** An override placed directly above the host's entry point gates the
      whole callback the other overrides produce. */
  lemma {:induction false} WrapGraft<A(!new), R>(reg: Registrar<A>, pred: A -> bool, cb: Callback<A, R>)
    ensures Wrap(Graft(reg, pred), cb) == Gated(pred, Wrap(reg, cb))
  {
    match reg
    case Native =>
    case Filtering(p, next) =>
      WrapGraft(next, pred, Gated(p, cb));
  }
}
