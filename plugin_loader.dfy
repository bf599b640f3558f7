/** `PluginLoader`: plugins registered under distinct namespaces, and `boot`,
    which hands each of them, in the order they were loaded, its configuration. */
module Plugins {
  import opened Common

  /** A configuration object; `deepmerge` over it is a parameter of `boot`. */
  datatype Config = Config(settings: map<string, Value>)

  const EmptyConfig := Config(map[])

  /** A plugin: its identity, `getDefaultNamespace()` and `getDefaultConfig()`. */
  datatype Plugin = Plugin(id: nat, defaultNamespace: string, defaultConfig: Config)

  /** `namespace || plugin.getDefaultNamespace()`: an omitted, `null` or empty
      namespace falls back to the plugin's default. */
  function Namespace(p: Plugin, namespace: Option<string>): (ns: string)
    ensures namespace.Some? && namespace.value != "" ==> ns == namespace.value
    ensures namespace.None? || namespace.value == "" ==> ns == p.defaultNamespace
  {
    if namespace.Some? && namespace.value != "" then namespace.value else p.defaultNamespace
  }

  /** `appConfig[ns] || {}`. */
  function ConfigFor(appConfig: map<string, Config>, ns: string): Config {
    if ns in appConfig then appConfig[ns] else EmptyConfig
  }

  /** One `plugin.registerServices(serviceContainer, mergedConfig)` call made by `boot`. */
  datatype Call = Call(ns: string, plugin: Plugin, config: Config)

  /** The call `boot` makes for the plugin loaded under `ns`. */
  function CallFor(plugins: map<string, Plugin>, appConfig: map<string, Config>, merge: (Config, Config) -> Config, ns: string): (c: Call)
    requires ns in plugins
    ensures c.ns == ns && c.plugin == plugins[ns]
    ensures c.config == merge(plugins[ns].defaultConfig, ConfigFor(appConfig, ns))
  {
    Call(ns, plugins[ns], merge(plugins[ns].defaultConfig, ConfigFor(appConfig, ns)))
  }

  predicate Distinct(s: seq<string>) {
    forall i, j :: 0 <= i < j < |s| ==> s[i] != s[j]
  }

  /** The calls of `boot`, in the map's insertion order `order`. */
  function BootCalls(order: seq<string>, plugins: map<string, Plugin>, appConfig: map<string, Config>, merge: (Config, Config) -> Config): (calls: seq<Call>)
    requires forall i :: 0 <= i < |order| ==> order[i] in plugins
    ensures |calls| == |order|
    ensures forall i :: 0 <= i < |order| ==> calls[i] == CallFor(plugins, appConfig, merge, order[i])
  {
    seq(|order|, i requires 0 <= i < |order| => CallFor(plugins, appConfig, merge, order[i]))
  }

  /** When the insertion order lists each namespace of the map once, `boot` calls
      every loaded plugin exactly once and no other. */
  lemma BootOncePerPlugin(order: seq<string>, plugins: map<string, Plugin>, appConfig: map<string, Config>, merge: (Config, Config) -> Config)
    requires (forall ns :: ns in plugins <==> ns in order) && Distinct(order)
    ensures var calls := BootCalls(order, plugins, appConfig, merge);
      && (forall i :: 0 <= i < |calls| ==> calls[i].ns in plugins && calls[i].plugin == plugins[calls[i].ns])
      && forall ns :: ns in plugins ==>
           exists i :: 0 <= i < |calls| && calls[i].ns == ns &&
             forall j :: 0 <= j < |calls| && calls[j].ns == ns ==> j == i
  {
    var calls := BootCalls(order, plugins, appConfig, merge);
    forall ns | ns in plugins
      ensures exists i :: 0 <= i < |calls| && calls[i].ns == ns &&
                forall j :: 0 <= j < |calls| && calls[j].ns == ns ==> j == i
    {
      var i :| 0 <= i < |order| && order[i] == ns;
      assert calls[i].ns == ns;
      forall j | 0 <= j < |calls| && calls[j].ns == ns ensures j == i {
        assert order[j] == ns;
      }
    }
  }

  class PluginLoader {
    /** The `plugins` Map: its entries, and its keys in insertion order. */
    var plugins: map<string, Plugin>
    var order: seq<string>

    /** The order lists each key of the map exactly once. */
    ghost predicate Valid()
      reads this
    {
      (forall ns :: ns in plugins <==> ns in order) && Distinct(order)
    }

    constructor()
      ensures Valid() && plugins == map[] && order == []
    {
      plugins := map[];
      order := [];
    }

    /** `loadPlugin(plugin, {namespace})`: a taken namespace fails and changes
        nothing; otherwise exactly `ns -> plugin` is added, last in order. */
    method LoadPlugin(p: Plugin, namespace: Option<string>) returns (r: Result<()>)
      requires Valid()
      modifies this
      ensures Valid()
      ensures var ns := Namespace(p, namespace);
        ns in old(plugins) ==> r == Err(DuplicateNamespace) && plugins == old(plugins) && order == old(order)
      ensures var ns := Namespace(p, namespace);
        ns !in old(plugins) ==> r == Ok(()) && plugins == old(plugins)[ns := p] && order == old(order) + [ns]
    {
      var ns := if namespace.Some? && namespace.value != "" then namespace.value else p.defaultNamespace;
      if ns in plugins {
        return Err(DuplicateNamespace);
      }
      plugins := plugins[ns := p];
      order := order + [ns];
      return Ok(());
    }

    /** `boot(appConfig, serviceContainer)`: for each loaded plugin in insertion
        order, its default configuration merged with `appConfig[ns] || {}`. The
        plugins' own `registerServices` are not part of this model, so the calls
        are returned. */
    method Boot(appConfig: map<string, Config>, merge: (Config, Config) -> Config) returns (calls: seq<Call>)
      requires Valid()
      ensures calls == BootCalls(order, plugins, appConfig, merge)
    {
      calls := [];
      for i := 0 to |order|
        invariant |calls| == i
        invariant forall j :: 0 <= j < i ==> calls[j] == CallFor(plugins, appConfig, merge, order[j])
      {
        var ns := order[i];
        assert ns in plugins;
        var plugin := plugins[ns];
        var config := if ns in appConfig then appConfig[ns] else EmptyConfig;
        var merged := merge(plugin.defaultConfig, config);
        calls := calls + [Call(ns, plugin, merged)];
      }
    }
  }
}
