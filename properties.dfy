/** What the adapter promises, stated over the registrations the host records
    (`Registrations`, which `Setup` is proved to produce). Throughout, `D` is
    what the host records when the delegate's `setup` gets the build object
    directly, and `W` is what it records when the adapter's plugin is set up
    with that build object instead. */
module FilterCallbackProperties {
  import opened Wrappers
  import opened Hooks
  import opened FilterCallback

  // ---------------------------------------------------------------------
  // Induction over plugins: how a plugin's registrations depend on the
  // entry points of the build object it is given.

  /** The registrations of one kind depend only on the entry point for that
      kind. */
  lemma {:induction false} EntryPointDecides<O, A(!new), R>(p: Plugin<O, A, R>, kind: HookKind,
                                                      onResolve: Registrar<A>, onLoad: Registrar<A>,
                                                      onResolve': Registrar<A>, onLoad': Registrar<A>)
    requires ForKind(kind, onResolve, onLoad) == ForKind(kind, onResolve', onLoad')
    ensures var x, y := Registrations(p, onResolve, onLoad), Registrations(p, onResolve', onLoad');
      |x| == |y| &&
      forall i | 0 <= i < |x| && x[i].kind == kind :: x[i] == y[i]
  {
    match p
    case Delegate(_, requests) =>
    case Filtered(plugin, filter) =>
      var s := ResolveFilter(filter);
      EntryPointDecides(plugin, kind, Override(onResolve, s.onResolve), Override(onLoad, s.onLoad),
                        Override(onResolve', s.onResolve), Override(onLoad', s.onLoad));
  }

  /** An extra override directly above the host's entry point for `kind`
      turns every registration of that kind into a gated one, options kept. */
  lemma {:induction false} GraftedEntryPoint<O, A(!new), R>(p: Plugin<O, A, R>, kind: HookKind, pred: A -> bool,
                                                      onResolve: Registrar<A>, onLoad: Registrar<A>,
                                                      onResolve': Registrar<A>, onLoad': Registrar<A>)
    requires ForKind(kind, onResolve', onLoad') == Graft(ForKind(kind, onResolve, onLoad), pred)
    ensures var x, y := Registrations(p, onResolve', onLoad'), Registrations(p, onResolve, onLoad);
      |x| == |y| &&
      forall i | 0 <= i < |y| && y[i].kind == kind :: x[i] == Registration(kind, y[i].options, Gated(pred, y[i].callback))
  {
    match p
    case Delegate(_, requests) =>
      var x, y := Registrations(p, onResolve', onLoad'), Registrations(p, onResolve, onLoad);
      forall i | 0 <= i < |y| && y[i].kind == kind
        ensures x[i] == Registration(kind, y[i].options, Gated(pred, y[i].callback))
      {
        var reg := ForKind(kind, onResolve, onLoad);
        WrapGraft(reg, pred, Fn(requests[i].callback));
      }
    case Filtered(plugin, filter) =>
      var s := ResolveFilter(filter);
      GraftedEntryPoint(plugin, kind, pred, Override(onResolve, s.onResolve), Override(onLoad, s.onLoad),
                        Override(onResolve', s.onResolve), Override(onLoad', s.onLoad));
  }

  /** An entry point that admits exactly what another one admits and also
      satisfies `pred` gates every registration of that kind by `pred`:
      the host gets the original callback's result when `pred` accepts and
      `undefined` otherwise, and the delegate is reached in the same cases. */
  lemma {:induction false} ExtraGate<O, A(!new), R>(p: Plugin<O, A, R>, kind: HookKind, pred: A -> bool,
                                                    onResolve: Registrar<A>, onLoad: Registrar<A>,
                                                    onResolve': Registrar<A>, onLoad': Registrar<A>, a: A)
    requires Admits(ForKind(kind, onResolve', onLoad'), a) == (pred(a) && Admits(ForKind(kind, onResolve, onLoad), a))
    ensures var x, y := Registrations(p, onResolve', onLoad'), Registrations(p, onResolve, onLoad);
      |x| == |y| &&
      forall i | 0 <= i < |y| && y[i].kind == kind ::
        && Invoke(x[i].callback, a).result == (if pred(a) then Invoke(y[i].callback, a).result else None)
        && (Called(a) in Invoke(x[i].callback, a).trace <==> pred(a) && Called(a) in Invoke(y[i].callback, a).trace)
  {
    match p
    case Delegate(_, requests) =>
    case Filtered(plugin, filter) =>
      var s := ResolveFilter(filter);
      ExtraGate(plugin, kind, pred, Override(onResolve, s.onResolve), Override(onLoad, s.onLoad),
                Override(onResolve', s.onResolve), Override(onLoad', s.onLoad), a);
  }

  // ---------------------------------------------------------------------
  // The adapter.

  /** Every registration the delegate makes reaches the host as exactly one
      registration, in the same order, of the same kind and with the same
      options object, whatever the filter. */
  lemma OneRegistrationPerRequest<O, A(!new), R>(d: Plugin<O, A, R>, filter: Filter<A>, onResolve: Registrar<A>, onLoad: Registrar<A>)
    ensures var w, dd := Registrations(Filtered(d, filter), onResolve, onLoad), Registrations(d, onResolve, onLoad);
      |w| == |dd| &&
      forall i | 0 <= i < |w| :: w[i].kind == dd[i].kind && w[i].options == dd[i].options
  {
  }

  /** A hook kind without a predicate is not intercepted: each of the
      delegate's registrations of that kind reaches the host untouched, the
      delegate's own callback included. */
  lemma AbsentPredicatePassesThrough<O, A(!new), R>(d: Plugin<O, A, R>, filter: Filter<A>, kind: HookKind,
                                              onResolve: Registrar<A>, onLoad: Registrar<A>)
    requires ForKind(kind, ResolveFilter(filter).onResolve, ResolveFilter(filter).onLoad) == None
    ensures var w, dd := Registrations(Filtered(d, filter), onResolve, onLoad), Registrations(d, onResolve, onLoad);
      |w| == |dd| &&
      forall i | 0 <= i < |dd| && dd[i].kind == kind :: w[i] == dd[i]
  {
    var s := ResolveFilter(filter);
    EntryPointDecides(d, kind, onResolve, onLoad, Override(onResolve, s.onResolve), Override(onLoad, s.onLoad));
  }

  /** With the host's own build object, a hook kind with predicate `pred`
      gets, for each of the delegate's registrations of that kind, one
      registration with the same options whose callback is the gate of
      `pred` around the delegate's callback. */
  lemma PresentPredicateGates<O, A(!new), R>(d: Plugin<O, A, R>, filter: Filter<A>, kind: HookKind, pred: A -> bool)
    requires ForKind(kind, ResolveFilter(filter).onResolve, ResolveFilter(filter).onLoad) == Some(pred)
    ensures var w, dd := Registrations(Filtered(d, filter), Native, Native), Registrations(d, Native, Native);
      |w| == |dd| &&
      forall i | 0 <= i < |dd| && dd[i].kind == kind :: w[i] == Registration(kind, dd[i].options, Gated(pred, dd[i].callback))
  {
    var s := ResolveFilter(filter);
    GraftedEntryPoint(d, kind, pred, Native, Native, Override(Native, s.onResolve), Override(Native, s.onLoad));
  }

  /** Per candidate: a candidate the predicate accepts gets exactly the
      delegate callback's result, the callback being reached as if called
      directly; a candidate it rejects gets `undefined` after the one
      predicate call, and the delegate's callback is never called. */
  lemma GatedHookBehaviour<O, A(!new), R>(d: Plugin<O, A, R>, filter: Filter<A>, kind: HookKind, pred: A -> bool, a: A)
    requires ForKind(kind, ResolveFilter(filter).onResolve, ResolveFilter(filter).onLoad) == Some(pred)
    ensures var w, dd := Registrations(Filtered(d, filter), Native, Native), Registrations(d, Native, Native);
      |w| == |dd| &&
      forall i | 0 <= i < |dd| && dd[i].kind == kind ::
        && (pred(a) ==> Invoke(w[i].callback, a).result == Invoke(dd[i].callback, a).result)
        && (pred(a) ==> Invoke(w[i].callback, a).trace == [Tested(a)] + Invoke(dd[i].callback, a).trace)
        && (!pred(a) ==> Invoke(w[i].callback, a) == Invocation(None, [Tested(a)]))
  {
    PresentPredicateGates(d, filter, kind, pred);
  }

  /** On any build object, including one another adapter has already
      wrapped: for each of the delegate's registrations of a kind with
      predicate `pred`, the host gets the result the delegate's registration
      would give it when `pred` accepts the candidate and `undefined` when
      it rejects; the delegate's callback is reached only when `pred`
      accepts. */
  lemma GatedOnAnyBuild<O, A(!new), R>(d: Plugin<O, A, R>, filter: Filter<A>, kind: HookKind, pred: A -> bool,
                                       onResolve: Registrar<A>, onLoad: Registrar<A>, a: A)
    requires ForKind(kind, ResolveFilter(filter).onResolve, ResolveFilter(filter).onLoad) == Some(pred)
    ensures var w, dd := Registrations(Filtered(d, filter), onResolve, onLoad), Registrations(d, onResolve, onLoad);
      |w| == |dd| &&
      forall i | 0 <= i < |dd| && dd[i].kind == kind ::
        && Invoke(w[i].callback, a).result == (if pred(a) then Invoke(dd[i].callback, a).result else None)
        && (Called(a) in Invoke(w[i].callback, a).trace <==> pred(a) && Called(a) in Invoke(dd[i].callback, a).trace)
  {
    var s := ResolveFilter(filter);
    ExtraGate(d, kind, pred, onResolve, onLoad, Override(onResolve, s.onResolve), Override(onLoad, s.onLoad), a);
  }

  /** A single predicate is the same configuration as that predicate given
      for both hook kinds. */
  lemma UniformIsBothSlots<O, A(!new), R>(d: Plugin<O, A, R>, pred: A -> bool, onResolve: Registrar<A>, onLoad: Registrar<A>)
    ensures Registrations(Filtered(d, Uniform(pred)), onResolve, onLoad)
         == Registrations(Filtered(d, PerHook(Some(pred), Some(pred))), onResolve, onLoad)
  {
  }

  /** The registrations of one hook kind depend only on that kind's
      predicate: two filters that agree on it agree on them, whatever they
      say about the other kind. */
  lemma SlotsAreIndependent<O, A(!new), R>(d: Plugin<O, A, R>, filter: Filter<A>, filter': Filter<A>, kind: HookKind,
                                     onResolve: Registrar<A>, onLoad: Registrar<A>)
    requires ForKind(kind, ResolveFilter(filter).onResolve, ResolveFilter(filter).onLoad)
          == ForKind(kind, ResolveFilter(filter').onResolve, ResolveFilter(filter').onLoad)
    ensures var w, w' := Registrations(Filtered(d, filter), onResolve, onLoad), Registrations(Filtered(d, filter'), onResolve, onLoad);
      |w| == |w'| &&
      forall i | 0 <= i < |w| && w[i].kind == kind :: w[i] == w'[i]
  {
    var s, s' := ResolveFilter(filter), ResolveFilter(filter');
    EntryPointDecides(d, kind, Override(onResolve, s.onResolve), Override(onLoad, s.onLoad),
                      Override(onResolve, s'.onResolve), Override(onLoad, s'.onLoad));
  }

  /** With neither predicate the adapter is a transparent pass-through: the
      host records exactly what the delegate registers. */
  lemma NoPredicateIsTransparent<O, A(!new), R>(d: Plugin<O, A, R>, onResolve: Registrar<A>, onLoad: Registrar<A>)
    ensures Registrations(Filtered(d, PerHook(None, None)), onResolve, onLoad) == Registrations(d, onResolve, onLoad)
  {
  }

  /** Wrapping an adapted plugin once more, on any build object: for a hook
      kind that both filters give a predicate, the two act as their
      conjunction. */
  lemma NestedFiltersConjoin<O, A(!new), R>(d: Plugin<O, A, R>, innerFilter: Filter<A>, outerFilter: Filter<A>, kind: HookKind,
                                            inner: A -> bool, outer: A -> bool, onResolve: Registrar<A>, onLoad: Registrar<A>, a: A)
    requires ForKind(kind, ResolveFilter(innerFilter).onResolve, ResolveFilter(innerFilter).onLoad) == Some(inner)
    requires ForKind(kind, ResolveFilter(outerFilter).onResolve, ResolveFilter(outerFilter).onLoad) == Some(outer)
    ensures var w, dd := Registrations(Filtered(Filtered(d, innerFilter), outerFilter), onResolve, onLoad), Registrations(d, onResolve, onLoad);
      |w| == |dd| &&
      forall i | 0 <= i < |dd| && dd[i].kind == kind ::
        && Invoke(w[i].callback, a).result == (if outer(a) && inner(a) then Invoke(dd[i].callback, a).result else None)
        && (Called(a) in Invoke(w[i].callback, a).trace <==> outer(a) && inner(a) && Called(a) in Invoke(dd[i].callback, a).trace)
  {
    GatedOnAnyBuild(Filtered(d, innerFilter), outerFilter, kind, outer, onResolve, onLoad, a);
    GatedOnAnyBuild(d, innerFilter, kind, inner, onResolve, onLoad, a);
  }

  /** On the host's own build object, the outer adapter's predicate is
      tested first: its gate encloses the inner adapter's. */
  lemma NestedOuterGateFirst<O, A(!new), R>(d: Plugin<O, A, R>, inner: A -> bool, outer: A -> bool, kind: HookKind)
    ensures var w, dd := Registrations(Filtered(Filtered(d, Uniform(inner)), Uniform(outer)), Native, Native), Registrations(d, Native, Native);
      |w| == |dd| &&
      forall i | 0 <= i < |dd| && dd[i].kind == kind :: w[i].callback == Gated(outer, Gated(inner, dd[i].callback))
  {
    PresentPredicateGates(Filtered(d, Uniform(inner)), Uniform(outer), kind, outer);
    PresentPredicateGates(d, Uniform(inner), kind, inner);
  }

  /** The decoration loses nothing: the produced name determines the
      delegate's name. */
  lemma NameDeterminesDelegateName<O, A(!new), R>(d: Plugin<O, A, R>, filter: Filter<A>, d': Plugin<O, A, R>, filter': Filter<A>)
    requires Name(Filtered(d, filter)) == Name(Filtered(d', filter'))
    ensures Name(d) == Name(d')
  {
  }

  // ---------------------------------------------------------------------
  // Two concrete configurations, with paths as candidate arguments.

  predicate IsTypeScript(path: string)
  {
    |path| >= 3 && path[|path| - 3..] == ".ts"
  }

  /** A delegate named "sample" filtered to TypeScript paths: the name is
      decorated, and its resolve callback runs for "x.ts" and not for "x.js". */
  lemma TypeScriptOnlyExample(options: string, callback: string -> Option<string>)
    ensures var sample := Delegate("sample", [ResolveRequest(options, callback)]);
      var w := Registrations(Filtered(sample, Uniform(IsTypeScript)), Native, Native);
      && Name(Filtered(sample, Uniform(IsTypeScript))) == "filter-callback(sample)"
      && |w| == 1 && w[0].kind == Resolve && w[0].options == options
      && Invoke(w[0].callback, "x.ts") == Invocation(callback("x.ts"), [Tested("x.ts"), Called("x.ts")])
      && Invoke(w[0].callback, "x.js") == Invocation(None, [Tested("x.js")])
  {
    var sample := Delegate("sample", [ResolveRequest(options, callback)]);
    var w := Registrations(Filtered(sample, Uniform(IsTypeScript)), Native, Native);
    assert ResolveFilter(Uniform(IsTypeScript)) == Slots(Some(IsTypeScript), Some(IsTypeScript));
    assert Override(Native, Some(IsTypeScript)) == Filtering(IsTypeScript, Native);
    assert w == Registrations(sample, Filtering(IsTypeScript, Native), Filtering(IsTypeScript, Native));
    assert w == RequestsRegistrations(sample.requests, Filtering(IsTypeScript, Native), Filtering(IsTypeScript, Native));
    assert Wrap(Filtering(IsTypeScript, Native), Fn(callback)) == Gated(IsTypeScript, Fn(callback));
    assert w[0].callback == Gated(IsTypeScript, Fn(callback));
    assert IsTypeScript("x.ts");
    assert !IsTypeScript("x.js") by { assert "x.js"[0..] != ".ts"; }
  }

  /** Only a load predicate: the delegate's resolve registration reaches the
      host with its own callback. */
  lemma LoadOnlyExample(options: string, callback: string -> Option<string>, isVirtual: string -> bool)
    ensures var sample := Delegate("sample", [ResolveRequest(options, callback)]);
      Registrations(Filtered(sample, PerHook(None, Some(isVirtual))), Native, Native)
        == [Registration(Resolve, options, Fn(callback))]
  {
  }
}
