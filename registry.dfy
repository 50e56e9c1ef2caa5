/** The configuration registry (module `rstview.registry`). */
module Registry {
  import opened Wrappers
  import opened Texts
  import opened Values

  /** The registry's two exceptions, each carrying the name it was given. */
  datatype ConfigError = ConfigAlreadyRegistered(name: string) | ConfigNotRegistered(name: string)

  /** The text each exception is raised with. */
  function ErrorMessage(e: ConfigError): (s: string)
    ensures e.ConfigNotRegistered? ==> s == "Given name \"" + e.name + "\" is not registered as a configuration."
    ensures e.ConfigAlreadyRegistered? ==> s == "Given name \"" + e.name + "\" is already registered as a configuration."
  {
    var state := if e.ConfigNotRegistered? then "not" else "already";
    "Given name \"" + e.name + "\" is " + state + " registered as a configuration."
  }

  /** A registry of named parameter sets. */
  class RstConfigSite {
    var registry: map<string, Params>

    /** A registry built without an `initial` argument is empty. */
    constructor ()
      ensures registry == map[]
    {
      registry := map[];
    }

    /** A registry seeded with the `initial` configurations. */
    constructor WithInitial(initial: map<string, Params>)
      ensures registry == initial
    {
      registry := initial;
    }

    /** Empties the registry, whatever it held. */
    method Reset()
      modifies this
      ensures registry == map[]
    {
      registry := map[];
    }

    /** The current mapping. */
    method GetRegistry() returns (r: map<string, Params>)
      ensures r == registry
    {
      r := registry;
    }

    /** Every registered name exactly once, in ascending order. */
    function GetNames(): (r: seq<string>)
      reads this
      ensures |r| == |registry.Keys|
      ensures forall n :: n in r <==> n in registry
      ensures forall i, j :: 0 <= i < j < |r| ==> Below(r[i], r[j])
    {
      SortedNames(registry.Keys)
    }

    /** Whether `name` is registered. */
    predicate HasName(name: string)
      reads this
    {
      name in registry
    }

    /** `HasName` holds exactly for the names `GetNames` lists. */
    lemma HasNameIffListed(name: string)
      ensures HasName(name) <==> name in GetNames()
    {
    }

    /** The stored parameter set of `name`, or ConfigNotRegistered. */
    function GetParameters(name: string): (r: Result<Params, ConfigError>)
      reads this
      ensures r.Failure? <==> !HasName(name)
      ensures r.Failure? ==> r.error == ConfigNotRegistered(name)
      ensures r.Success? ==> r.value == registry[name]
    {
      if !HasName(name) then Failure(ConfigNotRegistered(name)) else Success(registry[name])
    }

    /** Adds a new name; a name already present is refused and nothing changes. */
    method Register(name: string, value: Params) returns (o: Outcome<ConfigError>)
      modifies this
      ensures old(HasName(name)) ==> o == Fail(ConfigAlreadyRegistered(name)) && registry == old(registry)
      ensures !old(HasName(name)) ==> o == Pass && registry == old(registry)[name := value]
    {
      if HasName(name) {
        return Fail(ConfigAlreadyRegistered(name));
      }
      registry := registry[name := value];
      o := Pass;
    }

    /** Removes a name; an absent name is refused and nothing changes. */
    method Unregister(name: string) returns (o: Outcome<ConfigError>)
      modifies this
      ensures !old(HasName(name)) ==> o == Fail(ConfigNotRegistered(name)) && registry == old(registry)
      ensures old(HasName(name)) ==> o == Pass
      ensures old(HasName(name)) ==> registry.Keys == old(registry).Keys - {name}
      ensures old(HasName(name)) ==> forall n :: n in registry ==> registry[n] == old(registry)[n]
    {
      if !HasName(name) {
        return Fail(ConfigNotRegistered(name));
      }
      registry := registry - {name};
      o := Pass;
    }

    /** `dict.update`: every given configuration is set, overwriting a name already present. */
    method Update(configs: map<string, Params>)
      modifies this
      ensures registry.Keys == old(registry).Keys + configs.Keys
      ensures forall n :: n in configs ==> registry[n] == configs[n]
      ensures forall n :: n in old(registry) && n !in configs ==> registry[n] == old(registry)[n]
    {
      registry := registry + configs;
    }
  }

  /** Registering a fresh name and unregistering it again restores the registry. */
  method RegisterThenUnregister(site: RstConfigSite, name: string, value: Params)
    requires !site.HasName(name)
    modifies site
    ensures site.registry == old(site.registry)
  {
    ghost var before := site.registry;
    var registered := site.Register(name, value);
    assert site.registry.Keys == before.Keys + {name};
    var unregistered := site.Unregister(name);
    assert site.registry.Keys == before.Keys;
    assert forall n :: n in before ==> site.registry[n] == before[n];
  }

  /** A second `Register` of a name fails, as does a second `Unregister`. */
  method RepeatedCallsFail(site: RstConfigSite, name: string, value: Params)
      returns (second: Outcome<ConfigError>, fourth: Outcome<ConfigError>)
    modifies site
    ensures second == Fail(ConfigAlreadyRegistered(name))
    ensures fourth == Fail(ConfigNotRegistered(name))
    ensures !site.HasName(name)
  {
    var first := site.Register(name, value);
    second := site.Register(name, value);
    var third := site.Unregister(name);
    fourth := site.Unregister(name);
  }

  /** Names are listed in ascending order: `bar` before `foo`. */
  lemma NamesSorted()
    ensures SortedNames({"foo", "bar"}) == ["bar", "foo"]
  {
    var r := ["bar", "foo"];
    assert Below("bar", "foo");
    SortedNamesUnique({"foo", "bar"}, r);
  }

  /** Lookup is case-sensitive: `Foo` is not registered when only `foo` is. */
  lemma HasNameCaseSensitive(site: RstConfigSite, foo: Params)
    requires site.registry == map["foo" := foo]
    ensures site.HasName("foo") && !site.HasName("Foo")
  {
  }
}
