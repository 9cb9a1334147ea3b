/** The objects a plugin's `setup` works with: the host bundler's record of
    registered hooks, and the build object handed to `setup`. */
module Build {
  import opened Hooks

  /** The host bundler's record of registered hooks, in registration order. */
  class Host<O, A(!new), R> {
    var registrations: seq<Registration<O, A, R>>

    constructor ()
      ensures registrations == []
    {
      registrations := [];
    }

    method Add(r: Registration<O, A, R>)
      modifies this
      ensures registrations == old(registrations) + [r]
    {
      registrations := registrations + [r];
    }
  }

  /** A build object as handed to a plugin's `setup`: the two registration
      entry points, every other capability the host exposes (`others`, by
      property name) and the host the entry points register with. */
  class PluginBuild<O, A(!new), R, C> {
    const host: Host<O, A, R>
    var onResolve: Registrar<A>
    var onLoad: Registrar<A>
    var others: map<string, C>

    /** The build object the host itself creates. */
    constructor (host: Host<O, A, R>, others: map<string, C>)
      ensures this.host == host && this.others == others
      ensures onResolve == Native && onLoad == Native
    {
      this.host := host;
      this.others := others;
      onResolve, onLoad := Native, Native;
    }

    /** `{...build}`: a new object whose properties are those of `build`. */
    constructor Copy(build: PluginBuild<O, A, R, C>)
      ensures host == build.host && others == build.others
      ensures onResolve == build.onResolve && onLoad == build.onLoad
    {
      host := build.host;
      others := build.others;
      onResolve, onLoad := build.onResolve, build.onLoad;
    }

    /** `build.onResolve(options, callback)`: the host records one resolve
        hook with the same options and the callback as the entry point
        passes it on. */
    method OnResolve(options: O, callback: Callback<A, R>)
      modifies host
      ensures host.registrations == old(host.registrations) + [Registration(Resolve, options, Wrap(onResolve, callback))]
    {
      host.Add(Registration(Resolve, options, Wrap(onResolve, callback)));
    }

    /** `build.onLoad(options, callback)`, symmetric to OnResolve. */
    method OnLoad(options: O, callback: Callback<A, R>)
      modifies host
      ensures host.registrations == old(host.registrations) + [Registration(Load, options, Wrap(onLoad, callback))]
    {
      host.Add(Registration(Load, options, Wrap(onLoad, callback)));
    }
  }
}
