/**
 * `load_plugins` (plugins/plugin_loader.py): every `.py` file of the plugin
 * directory not starting with `__` is imported as `<dir>.<name>`; those
 * whose module defines `Engine` are registered under their name.
 */
module PluginLoader {
  import opened Wrappers
  import opened PyStr

  /** What `importlib.import_module` does: the module (with or without `Engine`), or an exception. */
  datatype ImportOutcome = Imported(hasEngine: bool) | ImportRaised(error: string)

  /** `module.Engine`, identified by the module it comes from. */
  datatype EngineClass = EngineClass(origin: string)

  datatype LoadError =
    | ListingFailed                                // `os.listdir(plugin_dir)` raised
    | ImportFailed(path: string, error: string)  // an import raised; not caught here

  /** The filename filter: ends with `.py` and does not start with `__`. */
  predicate IsPluginFile(filename: string) {
    EndsWith(filename, ".py") && !StartsWith(filename, "__")
  }

  /** `filename[:-3]`, the name with its `.py` removed. */
  function ModuleName(filename: string): (name: string)
    requires EndsWith(filename, ".py")
    ensures name + ".py" == filename
  {
    filename[..|filename| - 3]
  }

  /** The dotted name passed to `import_module`. */
  function ImportPath(dir: string, name: string): string {
    dir + "." + name
  }

  /** The effect of one directory entry on the registry. */
  function Register(plugins: map<string, EngineClass>, dir: string, filename: string, importModule: string -> ImportOutcome)
    : Result<map<string, EngineClass>, LoadError>
  {
    if !IsPluginFile(filename) then Ok(plugins)
    else
      var name := ModuleName(filename);
      match importModule(ImportPath(dir, name))
      case ImportRaised(e) => Err(ImportFailed(ImportPath(dir, name), e))
      case Imported(hasEngine) =>
        if hasEngine then Ok(plugins[name := EngineClass(ImportPath(dir, name))]) else Ok(plugins)
  }

  /** The dictionary the loop builds from the entries `files`, or the import failure that ends it. */
  function Registry(files: seq<string>, dir: string, importModule: string -> ImportOutcome)
    : Result<map<string, EngineClass>, LoadError>
  {
    if files == [] then Ok(map[])
    else
      match Registry(files[..|files| - 1], dir, importModule)
      case Err(e) => Err(e)
      case Ok(plugins) => Register(plugins, dir, files[|files| - 1], importModule)
  }

  /** The `load_plugins(plugin_dir)` outcome for a listing (None when `os.listdir` raises). */
  function LoadResult(listing: Option<seq<string>>, dir: string, importModule: string -> ImportOutcome)
    : Result<map<string, EngineClass>, LoadError>
  {
    if listing.None? then Err(ListingFailed) else Registry(listing.value, dir, importModule)
  }

  /** The engines of the `Loaded engine:` lines printed while walking `files`. */
  function Announced(files: seq<string>, dir: string, importModule: string -> ImportOutcome): seq<EngineClass> {
    if files == [] then []
    else
      var init := files[..|files| - 1];
      var f := files[|files| - 1];
      if Registry(init, dir, importModule).Err? || !IsPluginFile(f)
         || importModule(ImportPath(dir, ModuleName(f))) != Imported(true)
      then Announced(init, dir, importModule)
      else Announced(init, dir, importModule) + [EngineClass(ImportPath(dir, ModuleName(f)))]
  }

  /** One more directory entry, for the loop. */
  lemma RegistryStep(files: seq<string>, dir: string, importModule: string -> ImportOutcome, i: nat,
                     plugins: map<string, EngineClass>)
    requires i < |files| && Registry(files[..i], dir, importModule) == Ok(plugins)
    ensures Registry(files[..i + 1], dir, importModule) == Register(plugins, dir, files[i], importModule)
    ensures Announced(files[..i + 1], dir, importModule)
         == Announced(files[..i], dir, importModule)
            + (if IsPluginFile(files[i]) && importModule(ImportPath(dir, ModuleName(files[i]))) == Imported(true)
               then [EngineClass(ImportPath(dir, ModuleName(files[i])))] else [])
  {
    assert files[..i + 1][..i] == files[..i];
  }

  /** Once an import has failed, the later entries change nothing. */
  lemma {:induction false} RegistryErrSticks(files: seq<string>, dir: string, importModule: string -> ImportOutcome, k: nat)
    requires k <= |files| && Registry(files[..k], dir, importModule).Err?
    ensures Registry(files, dir, importModule) == Registry(files[..k], dir, importModule)
    ensures Announced(files, dir, importModule) == Announced(files[..k], dir, importModule)
    decreases |files| - k
  {
    if k < |files| {
      assert files[..k + 1][..k] == files[..k];
      RegistryErrSticks(files, dir, importModule, k + 1);
    } else {
      assert files[..k] == files;
    }
  }

  /**
   * `load_plugins`. `announced` lists the engines of the `Loaded engine:`
   * lines, in print order.
   */
  method LoadPlugins(listing: Option<seq<string>>, dir: string, importModule: string -> ImportOutcome)
    returns (r: Result<map<string, EngineClass>, LoadError>, announced: seq<EngineClass>)
    ensures r == LoadResult(listing, dir, importModule)
    ensures announced == if listing.None? then [] else Announced(listing.value, dir, importModule)
  {
    announced := [];
    if listing.None? {
      return Err(ListingFailed), announced;
    }
    var files := listing.value;
    var plugins: map<string, EngineClass> := map[];
    var i := 0;
    while i < |files|
      invariant 0 <= i <= |files|
      invariant Registry(files[..i], dir, importModule) == Ok(plugins)
      invariant announced == Announced(files[..i], dir, importModule)
    {
      var filename := files[i];
      RegistryStep(files, dir, importModule, i, plugins);
      if EndsWith(filename, ".py") && !StartsWith(filename, "__") {
        var moduleName := filename[..|filename| - 3];
        var imported := importModule(dir + "." + moduleName);
        if imported.ImportRaised? {
          RegistryErrSticks(files, dir, importModule, i + 1);
          assert files[..|files|] == files;
          return Err(ImportFailed(dir + "." + moduleName, imported.error)), announced;
        }
        if imported.hasEngine {
          plugins := plugins[moduleName := EngineClass(dir + "." + moduleName)];
          announced := announced + [plugins[moduleName]];
        }
      }
      i := i + 1;
    }
    assert files[..i] == files;
    r := Ok(plugins);
  }

  /**
   * The registry has a key exactly for each plugin file whose module defines
   * `Engine`; the key is the file name without `.py` and the value is that
   * module's `Engine`. Nothing else is added.
   */
  lemma {:induction false} RegistryMember(files: seq<string>, dir: string, importModule: string -> ImportOutcome,
                                           plugins: map<string, EngineClass>, name: string)
    requires Registry(files, dir, importModule) == Ok(plugins)
    ensures name in plugins <==>
              exists f :: f in files && IsPluginFile(f) && ModuleName(f) == name
                          && importModule(ImportPath(dir, name)) == Imported(true)
    ensures name in plugins ==> plugins[name] == EngineClass(ImportPath(dir, name))
    decreases |files|
  {
    if files != [] {
      var init := files[..|files| - 1];
      var f := files[|files| - 1];
      assert files == init + [f];
      var q :| Registry(init, dir, importModule) == Ok(q);
      RegistryMember(init, dir, importModule, q, name);
    }
  }

  /** Loading fails exactly when some plugin file's import raises. */
  lemma {:induction false} RegistryFails(files: seq<string>, dir: string, importModule: string -> ImportOutcome)
    ensures Registry(files, dir, importModule).Err? <==>
              exists f :: f in files && IsPluginFile(f) && importModule(ImportPath(dir, ModuleName(f))).ImportRaised?
    decreases |files|
  {
    if files != [] {
      var init := files[..|files| - 1];
      var f := files[|files| - 1];
      assert files == init + [f];
      RegistryFails(init, dir, importModule);
    }
  }

  /** Every announced engine is in the registry that is returned. */
  lemma {:induction false} AnnouncedRegistered(files: seq<string>, dir: string, importModule: string -> ImportOutcome,
                                                plugins: map<string, EngineClass>, e: EngineClass)
    requires Registry(files, dir, importModule) == Ok(plugins)
    requires e in Announced(files, dir, importModule)
    ensures e in plugins.Values
    decreases |files|
  {
    var init := files[..|files| - 1];
    var f := files[|files| - 1];
    var q :| Registry(init, dir, importModule) == Ok(q);
    if e in Announced(init, dir, importModule) {
      AnnouncedRegistered(init, dir, importModule, q, e);
      var n :| n in q && q[n] == e;
      RegistryMember(init, dir, importModule, q, n);
      RegistryMember(files, dir, importModule, plugins, n);
      var g :| g in init && IsPluginFile(g) && ModuleName(g) == n && importModule(ImportPath(dir, n)) == Imported(true);
      assert g in files;
      assert plugins[n] == e;
    } else {
      assert e == EngineClass(ImportPath(dir, ModuleName(f)));
      assert plugins[ModuleName(f)] == e;
    }
  }
}
