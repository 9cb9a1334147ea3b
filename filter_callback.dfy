/** The filtering adapter: `filterCallback({plugin, filter})` returns a plugin
    named after `plugin` whose `setup` hands `plugin.setup` a copy of the
    build object whose `onResolve` / `onLoad` entry points gate every callback
    with the predicate configured for that hook kind. */
module FilterCallback {
  import opened Wrappers
  import opened Hooks
  import opened Build

  /** The `filter` option: one predicate for both hook kinds, or a record
      with an optional predicate per hook kind. */
  datatype Filter<!A> =
    | Uniform(pred: A -> bool)
    | PerHook(onResolve: Option<A -> bool>, onLoad: Option<A -> bool>)

  /** `filterCallbacks`: one optional predicate per hook kind. */
  datatype Slots<!A> = Slots(onResolve: Option<A -> bool>, onLoad: Option<A -> bool>)

  /** A single predicate fills both slots; a record fills each slot from its
      own property only. */
  function ResolveFilter<A(!new)>(filter: Filter<A>): (r: Slots<A>)
    ensures filter.Uniform? ==> r.onResolve == r.onLoad == Some(filter.pred)
    ensures filter.PerHook? ==> r.onResolve == filter.onResolve && r.onLoad == filter.onLoad
  {
    match filter
    case Uniform(pred) => Slots(Some(pred), Some(pred))
    case PerHook(onResolve, onLoad) => Slots(onResolve, onLoad)
  }

  /** The value of a per-kind pair for `kind`. */
  function ForKind<T>(kind: HookKind, onResolve: T, onLoad: T): T
  {
    if kind == Resolve then onResolve else onLoad
  }

  /** One call a plugin's `setup` makes on its build object. */
  datatype Request<O, !A, R> =
    | ResolveRequest(options: O, callback: A -> Option<R>)
    | LoadRequest(options: O, callback: A -> Option<R>)

  /** A plugin: one whose `setup` makes a fixed sequence of registration
      calls, or the plugin the adapter produces around another plugin. */
  datatype Plugin<O, !A, R> =
    | Delegate(name: string, requests: seq<Request<O, A, R>>)
    | Filtered(plugin: Plugin<O, A, R>, filter: Filter<A>)

  /** The plugin's `name` property: an adapted plugin's name is the
      delegate's name decorated as `filter-callback(<name>)`. */
  function Name<O, A(!new), R>(p: Plugin<O, A, R>): (r: string)
    ensures p.Filtered? ==>
      && |r| == |Name(p.plugin)| + 17
      && r[..16] == "filter-callback(" && r[16..|r| - 1] == Name(p.plugin) && r[|r| - 1] == ')'
  {
    match p
    case Delegate(name, _) => name
    case Filtered(plugin, _) => "filter-callback(" + Name(plugin) + ")"
  }

  /** The entry point the wrapper exposes for one hook kind: the one copied
      from the build when there is no predicate, otherwise an override that
      gates the callback and forwards it to the copied one. */
  function Override<A(!new)>(copied: Registrar<A>, slot: Option<A -> bool>): (r: Registrar<A>)
    ensures slot == None ==> r == copied
    ensures forall a :: Admits(r, a) <==> Admits(copied, a) && (slot == None || slot.value(a))
  {
    match slot
    case None => copied
    case Some(pred) => Filtering(pred, copied)
  }

  /** The hook kind a request registers. */
  function RequestKind<O, A, R>(req: Request<O, A, R>): HookKind
  {
    if req.ResolveRequest? then Resolve else Load
  }

  /** What the host records for one request made on a build object whose
      entry points are `onResolve` and `onLoad`: one registration of the
      request's kind with its options object, whose callback returns the
      request's callback's result exactly when every override of that kind's
      entry point admits the arguments, and `undefined` otherwise. */
  function RequestRegistration<O, A(!new), R>(req: Request<O, A, R>, onResolve: Registrar<A>, onLoad: Registrar<A>): (r: Registration<O, A, R>)
    ensures r.kind == RequestKind(req) && r.options == req.options
    ensures forall a ::
      Invoke(r.callback, a).result == if Admits(ForKind(r.kind, onResolve, onLoad), a) then req.callback(a) else None
  {
    match req
    case ResolveRequest(options, callback) => Registration(Resolve, options, Wrap(onResolve, Fn(callback)))
    case LoadRequest(options, callback) => Registration(Load, options, Wrap(onLoad, Fn(callback)))
  }

  /** The registrations a delegate's requests produce: one per request, in
      order. */
  function RequestsRegistrations<O, A(!new), R>(requests: seq<Request<O, A, R>>, onResolve: Registrar<A>, onLoad: Registrar<A>): (r: seq<Registration<O, A, R>>)
    ensures |r| == |requests|
    ensures forall i | 0 <= i < |r| :: r[i].kind == RequestKind(requests[i]) && r[i].options == requests[i].options
  {
    seq(|requests|, i requires 0 <= i < |requests| => RequestRegistration(requests[i], onResolve, onLoad))
  }

  /** The registration calls the innermost delegate of `p` makes. */
  function Requests<O, A, R>(p: Plugin<O, A, R>): seq<Request<O, A, R>>
  {
    match p
    case Delegate(_, requests) => requests
    case Filtered(plugin, _) => Requests(plugin)
  }

  /** The registrations the host records, in order, when `p.setup` is called
      with a build object whose entry points are `onResolve` and `onLoad`:
      one per registration call of the innermost delegate, of the same kind
      and with the same options object, however many adapters wrap it. */
  function Registrations<O, A(!new), R>(p: Plugin<O, A, R>, onResolve: Registrar<A>, onLoad: Registrar<A>): (r: seq<Registration<O, A, R>>)
    ensures |r| == |Requests(p)|
    ensures forall i | 0 <= i < |r| :: r[i].kind == RequestKind(Requests(p)[i]) && r[i].options == Requests(p)[i].options
  {
    match p
    case Delegate(_, requests) => RequestsRegistrations(requests, onResolve, onLoad)
    case Filtered(plugin, filter) =>
      var slots := ResolveFilter(filter);
      Registrations(plugin, Override(onResolve, slots.onResolve), Override(onLoad, slots.onLoad))
  }

  /** The host calling `p.setup(build)`. */
  method Setup<O, A(!new), R, C>(p: Plugin<O, A, R>, build: PluginBuild<O, A, R, C>)
    modifies build.host
    ensures build.host.registrations == old(build.host.registrations) + Registrations(p, build.onResolve, build.onLoad)
    ensures unchanged(build)
    decreases p, 1
  {
    match p
    case Delegate(_, requests) => DelegateSetup(requests, build);
    case Filtered(plugin, filter) => FilteredSetup(plugin, filter, build);
  }

  /** A delegate's own `setup`: its registration calls, in order. */
  method DelegateSetup<O, A(!new), R, C>(requests: seq<Request<O, A, R>>, build: PluginBuild<O, A, R, C>)
    modifies build.host
    ensures build.host.registrations == old(build.host.registrations) + RequestsRegistrations(requests, build.onResolve, build.onLoad)
    ensures unchanged(build)
  {
    for i := 0 to |requests|
      invariant build.host.registrations == old(build.host.registrations) + RequestsRegistrations(requests[..i], build.onResolve, build.onLoad)
    {
      match requests[i]
      case ResolveRequest(options, callback) => build.OnResolve(options, Fn(callback));
      case LoadRequest(options, callback) => build.OnLoad(options, Fn(callback));
      assert RequestsRegistrations(requests[..i + 1], build.onResolve, build.onLoad)
          == RequestsRegistrations(requests[..i], build.onResolve, build.onLoad) + [RequestRegistration(requests[i], build.onResolve, build.onLoad)];
    }
    assert requests[..|requests|] == requests;
  }

  /** `setup` of the plugin `filterCallback({plugin, filter})`: resolve the
      filter, build the wrapper, and call `plugin.setup` once, with the
      wrapper. The build object itself is left as it was. */
  method FilteredSetup<O, A(!new), R, C>(plugin: Plugin<O, A, R>, filter: Filter<A>, build: PluginBuild<O, A, R, C>)
    modifies build.host
    ensures build.host.registrations == old(build.host.registrations) + Registrations(Filtered(plugin, filter), build.onResolve, build.onLoad)
    ensures unchanged(build)
    decreases plugin, 2
  {
    var slots := ResolveFilter(filter);
    var wrapper := MakeWrapper(build, slots);
    Setup(plugin, wrapper);
  }

  /** `buildWrapper`: a shallow copy of `build` sharing its host and every
      other capability; an entry point is overridden exactly when its hook
      kind has a predicate, and the override forwards to the copied one. */
  method MakeWrapper<O, A(!new), R, C>(build: PluginBuild<O, A, R, C>, slots: Slots<A>) returns (wrapper: PluginBuild<O, A, R, C>)
    ensures fresh(wrapper)
    ensures wrapper.host == build.host && wrapper.others == build.others
    ensures slots.onResolve == None ==> wrapper.onResolve == build.onResolve
    ensures slots.onResolve.Some? ==> wrapper.onResolve == Filtering(slots.onResolve.value, build.onResolve)
    ensures slots.onLoad == None ==> wrapper.onLoad == build.onLoad
    ensures slots.onLoad.Some? ==> wrapper.onLoad == Filtering(slots.onLoad.value, build.onLoad)
  {
    wrapper := new PluginBuild.Copy(build);
    if slots.onResolve.Some? {
      wrapper.onResolve := Filtering(slots.onResolve.value, build.onResolve);
    }
    if slots.onLoad.Some? {
      wrapper.onLoad := Filtering(slots.onLoad.value, build.onLoad);
    }
  }
}
