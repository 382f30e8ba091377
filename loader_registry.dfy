/** The loader-factory registry as `Glide` uses it: a map from model class to
    `ModelLoaderFactory` whose `register` hands back the factory it displaced, plus the
    log of `teardown()` calls `Glide.register` makes on displaced factories. */
module LoaderRegistry {
  import opened Identities

  datatype Registry = Registry(factories: map<ClassRef, Factory>, tornDown: seq<Factory>)

  /** `GenericLoaderFactory.register(clazz, factory)`, as far as this model needs it:
      install `factory` and return the factory previously registered for `clazz`. */
  function Put(factories: map<ClassRef, Factory>, clazz: ClassRef, factory: Factory): (r: (map<ClassRef, Factory>, Option<Factory>))
    ensures r.0.Keys == factories.Keys + {clazz}
    ensures r.0[clazz] == factory
    ensures forall c :: c in factories && c != clazz ==> r.0[c] == factories[c]
    ensures r.1.Some? <==> clazz in factories
    ensures r.1.Some? ==> r.1.value == factories[clazz]
  {
    (factories[clazz := factory], Get(factories, clazz))
  }

  /** `Glide.register(clazz, factory)`: install the factory; if one was displaced, call
      its `teardown()`. */
  function Register(r: Registry, clazz: ClassRef, factory: Factory): Registry {
    var (factories, removed) := Put(r.factories, clazz, factory);
    Registry(factories, r.tornDown + if removed.Some? then [removed.value] else [])
  }

  /** `register` installs the factory, leaves the other classes alone, and tears down
      the displaced factory exactly once, or nothing when no factory was displaced. */
  lemma RegisterTearsDownDisplaced(r: Registry, clazz: ClassRef, factory: Factory)
    ensures var r' := Register(r, clazz, factory);
      && r'.factories == r.factories[clazz := factory]
      && (clazz in r.factories ==> r'.tornDown == r.tornDown + [r.factories[clazz]])
      && (clazz !in r.factories ==> r'.tornDown == r.tornDown)
      && (forall g :: multiset(r'.tornDown)[g] ==
            multiset(r.tornDown)[g] + if clazz in r.factories && g == r.factories[clazz] then 1 else 0)
  {
  }

  /** Registering the factories `fs` one after another for the same class. */
  function RegisterAll(r: Registry, clazz: ClassRef, fs: seq<Factory>): Registry {
    if |fs| == 0 then r else Register(RegisterAll(r, clazz, fs[..|fs| - 1]), clazz, fs[|fs| - 1])
  }

  /** Successive registrations for a class nobody had registered: the last factory is
      installed and every earlier one is torn down once, in registration order. */
  lemma {:induction false} RegisterAllTearsDownAllButLast(r: Registry, clazz: ClassRef, fs: seq<Factory>)
    requires clazz !in r.factories
    requires |fs| > 0
    ensures RegisterAll(r, clazz, fs).factories == r.factories[clazz := fs[|fs| - 1]]
    ensures RegisterAll(r, clazz, fs).tornDown == r.tornDown + fs[..|fs| - 1]
  {
    if |fs| > 1 {
      var init := fs[..|fs| - 1];
      RegisterAllTearsDownAllButLast(r, clazz, init);
      assert init[|init| - 1] == fs[|fs| - 2];
      assert init[..|init| - 1] + [fs[|fs| - 2]] == fs[..|fs| - 1];
    } else {
      assert fs[..0] == [];
    }
  }

  // The classes and factories the `Glide` constructor registers. Factory identities
  // are arbitrary distinct numbers; the loader classes are the classes named in the
  // source.
  const FILE: ClassRef := ClassRef("java.io.File")
  const INTEGER: ClassRef := ClassRef("java.lang.Integer")
  const STRING: ClassRef := ClassRef("java.lang.String")
  const URI: ClassRef := ClassRef("android.net.Uri")
  const URL: ClassRef := ClassRef("java.net.URL")

  const FILE_FACTORY: Factory := Factory(0, ClassRef("com.bumptech.glide.loader.model.FileLoader"))
  const RESOURCE_FACTORY: Factory := Factory(1, ClassRef("com.bumptech.glide.loader.model.ResourceLoader"))
  const STRING_FACTORY: Factory := Factory(2, ClassRef("com.bumptech.glide.loader.model.StringLoader"))
  const URI_FACTORY: Factory := Factory(3, ClassRef("com.bumptech.glide.loader.model.UriLoader"))
  const VOLLEY_FACTORY: Factory := Factory(4, ClassRef("com.bumptech.glide.volley.VolleyUrlLoader"))
  /** The factory installed for URLs when Volley is absent: every loader it builds
      throws "No ModelLoaderFactory for urls registered with Glide". */
  const ERROR_URL_FACTORY: Factory := Factory(5, ClassRef("com.bumptech.glide.Glide$1$1"))

  /** The registry the `Glide` constructor leaves behind; `volleyPresent` is whether
      `Class.forName` finds Volley's URL loader factory. */
  function Initial(volleyPresent: bool): (r: Registry)
    ensures r.factories.Keys == {FILE, INTEGER, STRING, URI, URL}
    ensures r.factories[URL] == if volleyPresent then VOLLEY_FACTORY else ERROR_URL_FACTORY
    ensures r.factories[STRING] == STRING_FACTORY
    ensures r.tornDown == []
  {
    var f := map[];
    var f := Put(f, FILE, FILE_FACTORY).0;
    var f := Put(f, INTEGER, RESOURCE_FACTORY).0;
    var f := Put(f, STRING, STRING_FACTORY).0;
    var f := Put(f, URI, URI_FACTORY).0;
    var f := Put(f, URL, if volleyPresent then VOLLEY_FACTORY else ERROR_URL_FACTORY).0;
    Registry(f, [])
  }
}
