/** The plugin registry of src/core/plugin_system.py: plugin instances
    (class `TuxPlugin`) and the manager (class `PluginManager`) that keeps
    the loaded instances and the manifest of every known plugin. Importing a
    plugin file is an oracle that yields the members of the module or fails;
    the manifest file is read once, when the manager is created. */
module PluginSystem {

  import opened Common

  /** The version a plugin or a manifest entry has unless it says otherwise. */
  const DefaultVersion: string := "1.0.0"

  /** A class defined by a plugin module: its class name, the list its
      `get_capabilities` returns, and the name and the version its `__init__`
      sets after the base class's, if it sets them. */
  datatype PluginClass = PluginClass(className: string, capabilities: seq<string>,
                                     name: Option<string>, version: Option<string>)

  /** What `inspect.getmembers` reports for a module, member by member: a
      proper subclass of `TuxPlugin`, `TuxPlugin` itself (imported by the
      module), or anything else. */
  datatype ModuleMember = Other | PluginBase | PluginSubclass(cls: PluginClass)

  /** Executing a plugin file: its members in `getmembers` order, or an
      exception. */
  datatype ImportResult = ImportFailed | Imported(members: seq<ModuleMember>)

  /** One manifest entry. */
  datatype ManifestEntry = ManifestEntry(enabled: bool, version: string, capabilities: seq<string>)

  /** The entry `discover_plugins` writes for a plugin seen for the first time. */
  const DefaultEntry: ManifestEntry := ManifestEntry(false, DefaultVersion, [])

  /** One entry of `get_plugin_status`. */
  datatype PluginStatus = PluginStatus(enabled: bool, version: string, capabilities: seq<string>)

  /** A plugin instance. Its name, version and capabilities never change;
      its `enabled` flag may be switched by its owner. */
  class TuxPlugin {
    const name: string
    const version: string
    const capabilities: seq<string>
    var enabled: bool

    /** `TuxPlugin.__init__` followed by the subclass's own: named after its
        class and versioned 1.0.0 unless the subclass sets another name or
        version, enabled. */
    constructor(cls: PluginClass)
      ensures name == cls.name.GetOr(cls.className)
      ensures version == cls.version.GetOr(DefaultVersion)
      ensures capabilities == cls.capabilities
      ensures enabled
    {
      name := cls.name.GetOr(cls.className);
      version := cls.version.GetOr(DefaultVersion);
      capabilities := cls.capabilities;
      enabled := true;
    }
  }

  // ---------------------------------------------------------------------
  // Discovery

  predicate StartsWith(s: string, prefix: string) {
    prefix <= s
  }

  predicate EndsWith(s: string, suffix: string) {
    |suffix| <= |s| && s[|s| - |suffix|..] == suffix
  }

  /** A directory entry matched by `*.py` whose name does not start with `__`. */
  predicate IsPluginFile(fileName: string) {
    EndsWith(fileName, ".py") && !StartsWith(fileName, "__")
  }

  /** `Path.stem` of a name ending in `.py`: the name without its last
      suffix; a name that starts with its only dot has no suffix. */
  function Stem(fileName: string): string
    requires EndsWith(fileName, ".py")
  {
    if |fileName| > 3 then fileName[..|fileName| - 3] else fileName
  }

  /** The plugin file a discovered name is loaded from again is the file it
      was discovered in, unless the file is named just `.py`. */
  lemma StemRoundTrip(fileName: string)
    requires IsPluginFile(fileName)
    ensures fileName != ".py" ==> Stem(fileName) + ".py" == fileName
    ensures fileName == ".py" ==> Stem(fileName) + ".py" == ".py.py"
  {
    if fileName != ".py" {
      assert fileName == fileName[..|fileName| - 3] + fileName[|fileName| - 3..];
    }
  }

  /** The names `discover_plugins` returns for the entries of the plugin
      directory, in directory order. */
  function DiscoveredNames(entries: seq<string>): seq<string> {
    if entries == [] then []
    else
      var last := entries[|entries| - 1];
      DiscoveredNames(entries[..|entries| - 1]) + if IsPluginFile(last) then [Stem(last)] else []
  }

  /** A name is returned exactly when it is the stem of a plugin file, and
      never more often than there are entries. */
  lemma {:induction false} DiscoveredNamesSpec(entries: seq<string>)
    ensures forall n :: n in DiscoveredNames(entries) <==>
      exists e | e in entries :: IsPluginFile(e) && Stem(e) == n
    ensures |DiscoveredNames(entries)| <= |entries|
    decreases |entries|
  {
    if entries != [] {
      var init := entries[..|entries| - 1];
      DiscoveredNamesSpec(init);
      assert entries == init + [entries[|entries| - 1]];
      forall n | exists e | e in entries :: IsPluginFile(e) && Stem(e) == n
        ensures n in DiscoveredNames(entries)
      {
        var e :| e in entries && IsPluginFile(e) && Stem(e) == n;
        if e in init {
          assert n in DiscoveredNames(init);
        }
      }
    }
  }

  // ---------------------------------------------------------------------
  // Loading

  /** The first member that is a proper subclass of `TuxPlugin`. */
  function FirstPluginClass(members: seq<ModuleMember>): (r: Option<PluginClass>)
    ensures r.None? <==> forall k :: 0 <= k < |members| ==> !members[k].PluginSubclass?
    ensures r.Some? ==> exists k :: (0 <= k < |members| && members[k] == PluginSubclass(r.value)
      && forall j :: 0 <= j < k ==> !members[j].PluginSubclass?)
  {
    if members == [] then None
    else if members[0].PluginSubclass? then Some(members[0].cls)
    else
      var r := FirstPluginClass(members[1..]);
      if r.Some? then
        var k :| 0 <= k < |members[1..]| && members[1..][k] == PluginSubclass(r.value)
          && forall j :: 0 <= j < k ==> !members[1..][j].PluginSubclass?;
        assert members[k + 1] == PluginSubclass(r.value);
        r
      else r
  }

  /** The class `load_plugin` instantiates for an import, if any. */
  function ClassToLoad(result: ImportResult): Option<PluginClass> {
    match result
    case ImportFailed => None
    case Imported(members) => FirstPluginClass(members)
  }

  class PluginManager {
    /** Loaded plugin instances by plugin name. */
    var plugins: map<string, TuxPlugin>
    /** The manifest: every known plugin by name. */
    var loadedPlugins: map<string, ManifestEntry>

    /** Every loaded plugin has a manifest entry that records its version
        and capabilities. */
    ghost predicate Valid()
      reads this
    {
      && plugins.Keys <= loadedPlugins.Keys
      && forall n | n in plugins ::
           loadedPlugins[n].version == plugins[n].version && loadedPlugins[n].capabilities == plugins[n].capabilities
    }

    /** `PluginManager.__init__`: nothing loaded; the manifest is the saved
        one if the file exists, else empty. */
    constructor(savedManifest: Option<map<string, ManifestEntry>>)
      ensures Valid()
      ensures plugins == map[]
      ensures loadedPlugins == savedManifest.GetOr(map[])
    {
      plugins := map[];
      loadedPlugins := savedManifest.GetOr(map[]);
    }

    /** `discover_plugins`: the stems of the plugin files, each new one added
        to the manifest with the default entry; known entries stay as they are. */
    method DiscoverPlugins(entries: seq<string>) returns (names: seq<string>)
      requires Valid()
      modifies this`loadedPlugins
      ensures Valid()
      ensures names == DiscoveredNames(entries)
      ensures loadedPlugins.Keys == old(loadedPlugins).Keys + set n | n in names
      ensures forall n | n in old(loadedPlugins) :: loadedPlugins[n] == old(loadedPlugins)[n]
      ensures forall n | n in loadedPlugins && n !in old(loadedPlugins) :: loadedPlugins[n] == DefaultEntry
    {
      names := [];
      for i := 0 to |entries|
        invariant names == DiscoveredNames(entries[..i])
        invariant loadedPlugins.Keys == old(loadedPlugins).Keys + set n | n in names
        invariant forall n | n in old(loadedPlugins) :: loadedPlugins[n] == old(loadedPlugins)[n]
        invariant forall n | n in loadedPlugins && n !in old(loadedPlugins) :: loadedPlugins[n] == DefaultEntry
      {
        assert entries[..i + 1][..i] == entries[..i];
        var fileName := entries[i];
        if IsPluginFile(fileName) {
          var name := Stem(fileName);
          if name !in loadedPlugins {
            loadedPlugins := loadedPlugins[name := DefaultEntry];
          }
          names := names + [name];
        }
      }
      assert entries[..|entries|] == entries;
    }

    /** `load_plugin`: an already loaded name succeeds without change;
        otherwise the first plugin class of the imported module is
        instantiated, registered and recorded as enabled in the manifest. A
        failed import or a module without a plugin class changes nothing. */
    method LoadPlugin(pluginName: string, importer: string -> ImportResult) returns (ok: bool)
      requires Valid()
      modifies this`plugins, this`loadedPlugins
      ensures Valid()
      ensures old(pluginName in plugins) ==> ok && plugins == old(plugins) && loadedPlugins == old(loadedPlugins)
      ensures !old(pluginName in plugins) && ClassToLoad(importer(pluginName)).None? ==>
        !ok && plugins == old(plugins) && loadedPlugins == old(loadedPlugins)
      ensures !old(pluginName in plugins) && ClassToLoad(importer(pluginName)).Some? ==>
        var cls := ClassToLoad(importer(pluginName)).value;
        ok && pluginName in plugins &&
        var p := plugins[pluginName];
        && plugins == old(plugins)[pluginName := p]
        && fresh(p) && p.name == cls.name.GetOr(cls.className) && p.enabled
        && loadedPlugins == old(loadedPlugins)[pluginName := ManifestEntry(true, p.version, p.capabilities)]
        && p.version == cls.version.GetOr(DefaultVersion) && p.capabilities == cls.capabilities
    {
      if pluginName in plugins {
        return true;
      }
      var result := importer(pluginName);
      if result.ImportFailed? {
        return false;
      }
      var members := result.members;
      for i := 0 to |members|
        invariant forall k :: 0 <= k < i ==> !members[k].PluginSubclass?
        invariant plugins == old(plugins) && loadedPlugins == old(loadedPlugins)
      {
        if members[i].PluginSubclass? {
          assert FirstPluginClass(members) == Some(members[i].cls) by {
            var r := FirstPluginClass(members);
            var k :| 0 <= k < |members| && members[k] == PluginSubclass(r.value)
              && forall j :: 0 <= j < k ==> !members[j].PluginSubclass?;
            assert k == i;
          }
          var instance := new TuxPlugin(members[i].cls);
          plugins := plugins[pluginName := instance];
          loadedPlugins := loadedPlugins[pluginName := ManifestEntry(true, instance.version, instance.capabilities)];
          return true;
        }
      }
      return false;
    }

    /** `unload_plugin`: a loaded plugin is removed and marked disabled in the
        manifest; an unknown name changes nothing. */
    method UnloadPlugin(pluginName: string) returns (ok: bool)
      requires Valid()
      modifies this`plugins, this`loadedPlugins
      ensures Valid()
      ensures ok == old(pluginName in plugins)
      ensures ok ==> plugins == old(plugins) - {pluginName}
      ensures ok ==> loadedPlugins == old(loadedPlugins)[pluginName := old(loadedPlugins)[pluginName].(enabled := false)]
      ensures !ok ==> plugins == old(plugins) && loadedPlugins == old(loadedPlugins)
    {
      if pluginName in plugins {
        plugins := plugins - {pluginName};
        loadedPlugins := loadedPlugins[pluginName := loadedPlugins[pluginName].(enabled := false)];
        return true;
      }
      return false;
    }

    /** `execute_plugin`: runs the capability on the plugin when the plugin is
        loaded, enabled and offers it; otherwise `None`. */
    function ExecutePlugin<V>(pluginName: string, capability: string, run: (TuxPlugin, string) -> V): (r: Option<V>)
      reads this, plugins.Values
      ensures r.Some? <==> pluginName in plugins && plugins[pluginName].enabled
                           && capability in plugins[pluginName].capabilities
      ensures r.Some? ==> r.value == run(plugins[pluginName], capability)
    {
      if pluginName in plugins && plugins[pluginName].enabled && capability in plugins[pluginName].capabilities
      then Some(run(plugins[pluginName], capability))
      else None
    }

    /** The map `get_available_capabilities` returns. */
    function AvailableCapabilities(): map<string, seq<string>>
      reads this, plugins.Values
    {
      map n | n in plugins && plugins[n].enabled :: plugins[n].capabilities
    }

    /** The map `get_plugin_status` returns. */
    function Status(): map<string, PluginStatus>
      reads this, plugins.Values
    {
      map n | n in plugins :: PluginStatus(plugins[n].enabled, plugins[n].version, plugins[n].capabilities)
    }

    /** A capability runs exactly when it is listed for its plugin among the
        available capabilities, and then the plugin itself runs it. */
    lemma ExecuteMatchesCapabilities<V>(pluginName: string, capability: string, run: (TuxPlugin, string) -> V)
      ensures ExecutePlugin(pluginName, capability, run).Some? <==>
        pluginName in AvailableCapabilities() && capability in AvailableCapabilities()[pluginName]
      ensures ExecutePlugin(pluginName, capability, run).Some? ==>
        ExecutePlugin(pluginName, capability, run).value == run(plugins[pluginName], capability)
    {
    }

    /** The status of every loaded plugin agrees with its manifest entry on
        version and capabilities. */
    lemma StatusAgreesWithManifest()
      requires Valid()
      ensures Status().Keys == plugins.Keys
      ensures forall n | n in Status() ::
        n in loadedPlugins && Status()[n].version == loadedPlugins[n].version
        && Status()[n].capabilities == loadedPlugins[n].capabilities
    {
    }

    /** `get_available_capabilities`: one pass over the loaded plugins. */
    method GetAvailableCapabilities() returns (capabilities: map<string, seq<string>>)
      ensures capabilities == AvailableCapabilities()
    {
      capabilities := map[];
      var todo := plugins.Keys;
      while todo != {}
        invariant todo <= plugins.Keys
        invariant capabilities == map n | n in plugins.Keys - todo && plugins[n].enabled :: plugins[n].capabilities
        decreases todo
      {
        var n :| n in todo;
        if plugins[n].enabled {
          capabilities := capabilities[n := plugins[n].capabilities];
        }
        todo := todo - {n};
      }
    }

    /** `get_plugin_status`: one pass over the loaded plugins. */
    method GetPluginStatus() returns (status: map<string, PluginStatus>)
      ensures status == Status()
    {
      status := map[];
      var todo := plugins.Keys;
      while todo != {}
        invariant todo <= plugins.Keys
        invariant status == map n | n in plugins.Keys - todo ::
          PluginStatus(plugins[n].enabled, plugins[n].version, plugins[n].capabilities)
        decreases todo
      {
        var n :| n in todo;
        status := status[n := PluginStatus(plugins[n].enabled, plugins[n].version, plugins[n].capabilities)];
        todo := todo - {n};
      }
    }
  }
}
