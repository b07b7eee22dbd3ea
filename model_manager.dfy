/** The model cache and mode switcher (class `ModelManager` of
    model_manager.py): a cache of loaded models keyed by mode and the current
    mode. Loading a model from disk is an oracle that yields a model or
    raises; converting a full model to a lite one is an oracle too. Each
    operation is specified by a function from the old cache state to the
    result and the new state. */
module ModelManagement {

  import opened Common

  /** A loaded model, known only by identity. */
  datatype Model = Model(id: nat)

  /** The `ValueError`s the manager raises. */
  datatype ModelError =
    | InvalidMode         // `switch_mode` got a mode other than "full" or "lite"
    | FullModelNotLoaded  // `create_lite_version` could not load the full model

  /** Loads the model of a mode from a directory; `None` when loading raises
      (a missing directory included). */
  type Loader = (string, string) -> Option<Model>

  const FullMode: string := "full"
  const LiteMode: string := "lite"

  /** The cached models and the current mode. */
  datatype Cache = Cache(models: map<string, Model>, currentMode: string)

  /** What `get_model_info` reports about modes: the current one and the cached ones. */
  datatype ModelInfo = ModelInfo(currentMode: string, loadedModels: set<string>)

  /** The directory a mode's model is loaded from: the full model's own
      directory for "full", the lite directory for every other mode. */
  function ModelPath(mode: string): (path: string)
    ensures mode == FullMode ==> path == "models/full"
    ensures mode != FullMode ==> path == "models/lite"
  {
    if mode == FullMode then "models/full" else "models/lite"
  }

  /** `load_model`: the cached model if there is one, with no change;
      otherwise a fresh load, which on success is cached under `mode` and
      makes `mode` current, and on failure changes nothing. */
  function Load(c: Cache, mode: string, loader: Loader): (Option<Model>, Cache) {
    if mode in c.models then (Some(c.models[mode]), c)
    else
      match loader(mode, ModelPath(mode))
      case None => (None, c)
      case Some(m) => (Some(m), Cache(c.models[mode := m], mode))
  }

  /** A load that succeeded leaves its model cached, so loading the same
      mode again returns the same model and changes nothing. */
  lemma LoadTwice(c: Cache, mode: string, loader: Loader)
    requires Load(c, mode, loader).0.Some?
    ensures var (m, c1) := Load(c, mode, loader);
      mode in c1.models && Load(c1, mode, loader) == (m, c1)
  {
  }

  /** A cache hit never changes the current mode. */
  lemma CachedLoadKeepsMode(c: Cache, mode: string, loader: Loader)
    requires mode in c.models
    ensures Load(c, mode, loader) == (Some(c.models[mode]), c)
  {
  }

  predicate ValidMode(mode: string) {
    mode == FullMode || mode == LiteMode
  }

  /** `switch_mode`. */
  function Switch(c: Cache, newMode: string, loader: Loader): (Result<bool, ModelError>, Cache) {
    if !ValidMode(newMode) then (Err(InvalidMode), c)
    else if newMode == c.currentMode then (Ok(true), c)
    else
      var evicted := Cache(c.models - {c.currentMode}, c.currentMode);
      var (m, c1) := Load(evicted, newMode, loader);
      (Ok(m.Some?), c1)
  }

  /** Any mode other than "full" or "lite" is refused and changes nothing. */
  lemma SwitchRejectsUnknownMode(c: Cache, newMode: string, loader: Loader)
    requires newMode != FullMode && newMode != LiteMode
    ensures Switch(c, newMode, loader) == (Err(InvalidMode), c)
  {
  }

  /** Switching to the current mode succeeds and changes nothing. */
  lemma SwitchToCurrentMode(c: Cache, loader: Loader)
    requires ValidMode(c.currentMode)
    ensures Switch(c, c.currentMode, loader) == (Ok(true), c)
  {
  }

  /** Switching to another valid mode evicts the current mode's model and
      reports whether the new mode could be loaded; a fresh load makes the
      new mode current, a failed one leaves the cache without the evicted model. */
  lemma SwitchEvictsThenLoads(c: Cache, newMode: string, loader: Loader)
    requires ValidMode(newMode) && newMode != c.currentMode
    ensures var (r, c1) := Switch(c, newMode, loader);
      && c.currentMode !in c1.models
      && r == Ok(newMode in c.models || loader(newMode, ModelPath(newMode)).Some?)
      && (newMode !in c.models && r == Ok(true) ==>
            c1 == Cache((c.models - {c.currentMode})[newMode := loader(newMode, ModelPath(newMode)).value], newMode))
      && (r == Ok(false) ==> c1 == Cache(c.models - {c.currentMode}, c.currentMode))
  {
  }

  /** The cache-hit path of `load_model` does not update the current mode, so
      switching to a mode that is already cached leaves the current mode at the
      mode whose model was just evicted. */
  lemma SwitchToCachedModeKeepsEvictedMode(c: Cache, newMode: string, loader: Loader)
    requires ValidMode(newMode) && newMode != c.currentMode && newMode in c.models
    ensures var (r, c1) := Switch(c, newMode, loader);
      && r == Ok(true)
      && c1.currentMode == c.currentMode
      && c1.currentMode !in c1.models
  {
  }

  /** `create_lite_version`: loads the full model (which may make "full"
      current), raises if that fails, and otherwise caches its lite
      conversion under "lite". */
  function CreateLite(c: Cache, loader: Loader, convert: Model -> Model): (Result<bool, ModelError>, Cache) {
    var (full, c1) := Load(c, FullMode, loader);
    match full
    case None => (Err(FullModelNotLoaded), c1)
    case Some(m) => (Ok(true), Cache(c1.models[LiteMode := convert(m)], c1.currentMode))
  }

  /** The lite model is the conversion of the full model, cached or freshly
      loaded; failure to load the full model changes nothing. */
  lemma CreateLiteSpec(c: Cache, loader: Loader, convert: Model -> Model)
    ensures var (r, c1) := CreateLite(c, loader, convert);
      && (r.Err? <==> FullMode !in c.models && loader(FullMode, ModelPath(FullMode)).None?)
      && (r.Err? ==> r.error == FullModelNotLoaded && c1 == c)
      && (r.Ok? ==> (r.value && LiteMode in c1.models && FullMode in c1.models
           && c1.models[LiteMode] == convert(Load(c, FullMode, loader).0.value)))
      && (r.Ok? && FullMode !in c.models ==> c1.currentMode == FullMode)
      && (FullMode in c.models ==> c1.currentMode == c.currentMode)
  {
  }

  class ModelManager {
    /** Cached models by mode. */
    var models: map<string, Model>
    var currentMode: string

    function State(): Cache
      reads this
    {
      Cache(models, currentMode)
    }

    /** `ModelManager.__init__`: nothing cached, mode "full". */
    constructor()
      ensures State() == Cache(map[], FullMode)
    {
      models := map[];
      currentMode := FullMode;
    }

    method LoadModel(loader: Loader, mode: string := FullMode) returns (model: Option<Model>)
      modifies this
      ensures (model, State()) == Load(old(State()), mode, loader)
    {
      if mode in models {
        return Some(models[mode]);
      }
      model := loader(mode, ModelPath(mode));
      if model.Some? {
        models := models[mode := model.value];
        currentMode := mode;
      }
    }

    method SwitchMode(newMode: string, loader: Loader) returns (r: Result<bool, ModelError>)
      modifies this
      ensures (r, State()) == Switch(old(State()), newMode, loader)
    {
      if newMode != FullMode && newMode != LiteMode {
        return Err(InvalidMode);
      }
      if newMode == currentMode {
        return Ok(true);
      }
      if currentMode in models {
        models := models - {currentMode};
      }
      assert models == old(models) - {old(currentMode)};
      var model := LoadModel(loader, newMode);
      return Ok(model.Some?);
    }

    method CreateLiteVersion(loader: Loader, convert: Model -> Model) returns (r: Result<bool, ModelError>)
      modifies this
      ensures (r, State()) == CreateLite(old(State()), loader, convert)
    {
      var full := LoadModel(loader, FullMode);
      if full.None? {
        return Err(FullModelNotLoaded);
      }
      models := models[LiteMode := convert(full.value)];
      return Ok(true);
    }

    /** `get_model_info`, as far as modes go. */
    function GetModelInfo(): (info: ModelInfo)
      reads this
      ensures info.currentMode == currentMode
      ensures forall mode :: mode in info.loadedModels <==> mode in models
    {
      ModelInfo(currentMode, models.Keys)
    }
  }
}
