# Tux AI core bookkeeping, modelled in Dafny

Tux AI is a terminal assistant. Around its UIs and neural networks sit four
pieces of plain bookkeeping, and this project models them and proves what they
guarantee:

- **The memory store** (`MemorySystem`, module `Memory`). It keeps three
  SQLite tables: conversation turns, facts and user preferences. Each table is
  a sequence of rows in row-id order, held in a Dafny class, and timestamps are
  integers. The TF-IDF vectorizer is kept as the corpus it was fitted on, and
  embeddings are symbolic. Cosine similarity is an uninterpreted function that
  may fail. Modelled: appending a turn, with the embedding taken before the
  refit and the refit corpus built after the insert; facts and their filtered,
  ordered query; the capped preference upsert and the thresholded profile;
  the retention sweep; and retrieval ranking over the 100 newest turns.
- **The plugin registry** (`TuxPlugin`, `PluginManager`, module
  `PluginSystem`). It is a state machine over two maps: loaded plugin
  instances and the manifest. Importing a plugin file is an oracle that
  returns the module's members or fails.
- **Search-result post-processing** (`AdvancedInternetSearch`, modules
  `InternetSearch` and `PageText`). This covers merging the hits of the three
  back-ends, dropping repeated urls, a stable sort by content length,
  truncation, whitespace normalisation of page text, and storing results as
  table rows. The back-ends are an oracle.
- **The model cache and mode switcher** (`ModelManager`, module
  `ModelManagement`). It is a cache of loaded models plus the current mode.
  Loading and converting models are oracles.

Shared pieces: `Common` holds `Option`, `Result`, `Filter` (a SQL `WHERE`) and
`Take`, which is Python's `s[:n]` including negative `n`. `StableSort` holds
the stable "highest rank first" insertion sort that stands for every
`list.sort(key=..., reverse=True)` and every `ORDER BY ... DESC`. It is proved
to return a sorted permutation and to be stable: the elements of one rank keep
their input order. It also keeps keys that were distinct distinct.

Each stateful operation is a method on its class. Its `ensures` ties the
result and the new state to a specification function of the old state. The
lemmas then state what the source promises about those functions.

## Model

| member | source | states |
|---|---|---|
| StableSort.SortSorted | src/core/memory_system.py:174 | the sort's output is ordered highest rank first, for any total preorder |
| StableSort.SortStable | src/core/internet_search.py:276 | elements of equal rank come out in the order they went in |
| StableSort.TakeSortedIsTop | src/core/memory_system.py:174-175 | the first n sorted elements come from the input, are sorted, and nothing left out ranks above anything kept |
| StableSort.SortDistinct | src/core/internet_search.py:276 | sorting keeps pairwise-distinct keys pairwise distinct |
| Memory.MemorySystem.constructor | src/core/memory_system.py:17-22 | opens the tables as given and loads the saved vectorizer if there is one, else an unfitted one; every row id is below the next id |
| Memory.CreateEmbedding | src/core/memory_system.py:111-118 | the zero vector exactly when the vectorizer is unfitted; otherwise the vector of the text under the fitted corpus |
| Memory.CorpusTexts | src/core/memory_system.py:127-132 | one text per stored turn, in row order, each "user_message ai_response" |
| Memory.MemorySystem.UpdateVectorizer | src/core/memory_system.py:120-141 | the vectorizer is refitted on all stored texts followed by the new text; a failed fit is taken to leave it as it was |
| Memory.MemorySystem.SaveConversation | src/core/memory_system.py:85-109 | on success: one row appended with the next id, the given topic and importance (default 1), and the embedding under the vectorizer as it was before, and the next id advances by one, so consecutive saves get consecutive ids; then a refit on the old texts plus the new text twice. A storage failure returns false and changes nothing; the other tables never change |
| Memory.RecentWindowIsNewest | src/core/memory_system.py:150-156 | the window holds min(n, 100) turns of the table, newest first, and no turn left out is newer than a turn kept |
| Memory.ScoreAll | src/core/memory_system.py:158-171 | scoring succeeds exactly when every similarity is computed; entry i is window turn i with its similarity, a missing embedding being the zero vector |
| Memory.MemorySystem.GetRelevantContext | src/core/memory_system.py:143-180 | the loop returns exactly the ranked context of the table, vectorizer and query, or [] on the first failed similarity |
| Memory.RelevantContextBounds | src/core/memory_system.py:150-180 | at most `limit` and at most 100 entries; any failed similarity gives [] |
| Memory.RelevantContextIsTop | src/core/memory_system.py:173-175 | the result is sorted by similarity, non-increasing, and lists scored window turns; nothing scored but left out is more similar than a result entry |
| Memory.RelevantContextTiesNewestFirst | src/core/memory_system.py:150-175 | entries of equal similarity keep window order (newest first), as a prefix of that order |
| Memory.NoTurnsNoContext | src/core/memory_system.py:143-180 | an empty table gives no context, whatever the vectorizer |
| Memory.MemorySystem.AddKnowledge | src/core/memory_system.py:182-193 | appends exactly one fact with the given confidence (default 1.0), never used, usage count 0 |
| Memory.MemorySystem.GetKnowledge | src/core/memory_system.py:195-227 | exactly the facts with confidence >= the minimum (and the given category when it is non-empty), each as often as stored, ordered by usage count then confidence, both descending |
| Memory.FindPreference | src/core/memory_system.py:235-240 | the first row with the user and type, or none exactly when no row has them |
| Memory.UpsertExisting | src/core/memory_system.py:242-249 | an existing key has its first row rewritten with the new value and strength min(1.0, old + delta) <= 1.0; no row is added and no other row changes |
| Memory.UpsertAbsent | src/core/memory_system.py:250-255 | an absent key gets exactly one appended row with the given strength, not capped |
| Memory.UpsertKeyCounts | src/core/memory_system.py:234-255 | after an update the key has max(1, old count) rows, so repeated updates never add a second row; every other key keeps its count |
| Memory.RepeatedUpdateIsCapped | src/core/memory_system.py:242-255 | two updates of 0.6 on a new key leave one row of strength 1.0 |
| Memory.MemorySystem.UpdatePreference | src/core/memory_system.py:229-258 | the table becomes the upsert of the old table |
| Memory.ShownRows | src/core/memory_system.py:265-270 | the selected rows are exactly the user's preferences stronger than 0.3, strongest first |
| Memory.PreferencesByType | src/core/memory_system.py:272-277 | every selected type is a key, and its entry comes from the last row of that type |
| Memory.ProfileKeys | src/core/memory_system.py:265-277 | the profile's keys are exactly the types of the user's preferences stronger than 0.3 |
| Memory.ProfileEntries | src/core/memory_system.py:265-277 | each profile entry is the value and strength of one such preference |
| Memory.ProfileWeakestWins | src/core/memory_system.py:265-277 | with several rows of a type, the weakest shown one is reported, because it is written last |
| Memory.MemorySystem.GetUserProfile | src/core/memory_system.py:260-301 | the profile of the user: the preferences above and the statistics of the sessions whose id matches |
| Memory.OfUserIsPrefix | src/core/memory_system.py:280-286 | for a user id without `%` or `_`, `LIKE 'id%'` holds exactly for session ids that start with the id, ignoring ASCII case |
| Memory.LatestTimestamp | src/core/memory_system.py:282 | none for no turns, else the greatest timestamp among them |
| Memory.PurgeExact | src/core/memory_system.py:310-314 | the sweep removes every turn older than the cutoff with importance < 2 and keeps every other turn, as often as it occurred |
| Memory.PurgeIdempotent | src/core/memory_system.py:310-314 | a second sweep with the same cutoff deletes nothing more |
| Memory.Decay | src/core/memory_system.py:317-321 | no fact is removed; facts never used or last used before the cutoff get 0.9 of their confidence, the others are unchanged |
| Memory.DecayNeverIncreases | src/core/memory_system.py:317-321 | a non-negative confidence stays non-negative and never increases |
| Memory.SweepTwiceDecaysTwice | src/core/memory_system.py:317-321 | nothing marks a fact used, so two sweeps leave 0.81 of a stale fact's confidence |
| Memory.NewFactDecays | src/core/memory_system.py:317-321 | a fact just added, never used, is decayed by the next sweep |
| Memory.MemorySystem.CleanupOldMemory | src/core/memory_system.py:303-324 | the cutoff is `days_old` days (default 30) before now; turns are purged and facts decayed as above |
| PageText.WordsEmpty | src/core/internet_search.py:256 | splitting finds no word exactly in whitespace-only text |
| PageText.WordsJoin | src/core/internet_search.py:256 | splitting words joined by single spaces gives the words back |
| PageText.JoinClean | src/core/internet_search.py:256 | joined words have no leading, trailing or repeated whitespace, and are empty only for no words |
| PageText.CollapseSingleSpaced | src/core/internet_search.py:257 | collapsing whitespace runs changes nothing in text without runs |
| PageText.Normalize | src/core/internet_search.py:256-259 | splitting, joining with single spaces, collapsing whitespace runs and stripping give exactly the words joined by single spaces, or none when there are no words |
| PageText.NormalizeSpec | src/core/internet_search.py:256-259 | none exactly for whitespace-only text; otherwise non-empty clean text with the same words |
| PageText.NormalizeIdempotent | src/core/internet_search.py:256-259 | normalising normalised text changes nothing |
| InternetSearch.AdvancedInternetSearch.constructor | src/core/internet_search.py:14-20 | opens the search table as given; every row id is below the next id |
| InternetSearch.FirstOccurrences | src/core/internet_search.py:267-273 | keeps the same set of urls, pairwise distinct, drawn from the input |
| InternetSearch.FirstOccurrencesInOrder | src/core/internet_search.py:267-273 | the kept results appear in input order, each at the first input position holding its url |
| InternetSearch.FirstOccurrenceKept | src/core/internet_search.py:270-273 | the first result with each url is kept |
| InternetSearch.AdvancedInternetSearch.DeduplicateResults | src/core/internet_search.py:265-277 | the seen-set loop and the sort return the first occurrences sorted by content length |
| InternetSearch.DeduplicatedUrls | src/core/internet_search.py:265-277 | urls pairwise distinct, every input url present, only input elements, no longer than the input |
| InternetSearch.DeduplicatedKeepsFirst | src/core/internet_search.py:270-273 | the result for a url is its first occurrence in the input |
| InternetSearch.DeduplicatedOrder | src/core/internet_search.py:276 | longest content first; equal lengths keep first-occurrence order |
| InternetSearch.GatheredFromBackends | src/core/internet_search.py:76-83 | a hit is gathered exactly when some back-end that answered, asked for the per-source count, returned it |
| InternetSearch.AdvancedInternetSearch.SearchMultipleSources | src/core/internet_search.py:65-87 | asks each back-end in order for max_results // 2, skips the ones that raise, de-duplicates and keeps the first max_results |
| InternetSearch.MergedResultsSpec | src/core/internet_search.py:65-87 | at most max_results results, distinct urls, longest first, each a hit some back-end returned for max_results // 2 |
| InternetSearch.PageRows | src/core/internet_search.py:284-288 | one row per result, in order, with its url, title and content, topic = query, language "ru", quality 1.0 |
| InternetSearch.AdvancedInternetSearch.StoreSearchResults | src/core/internet_search.py:279-291 | the table grows by exactly those rows, with consecutive new ids |
| PluginSystem.TuxPlugin.constructor | src/core/plugin_system.py:15-19 | a new plugin is named after its class and has version 1.0.0, unless the subclass's own `__init__` sets another name or version (both shipped plugins set their names), and is enabled |
| PluginSystem.StemRoundTrip | src/core/plugin_system.py:72-93 | the file a discovered name is loaded from is the file it was found in, except for a file named just `.py` |
| PluginSystem.DiscoveredNamesSpec | src/core/plugin_system.py:63-82 | a name is returned exactly when it is the stem of a `.py` entry not starting with `__` |
| PluginSystem.FirstPluginClass | src/core/plugin_system.py:99-102 | the first member that is a proper subclass of the plugin base, or none exactly when there is no such member |
| PluginSystem.PluginManager.constructor | src/core/plugin_system.py:42-55 | nothing loaded; the manifest is the saved one if it exists, else empty |
| PluginSystem.PluginManager.DiscoverPlugins | src/core/plugin_system.py:63-82 | returns the discovered names; each new name gets the default entry {disabled, 1.0.0, no capabilities}; known entries stay as they are; the registry invariant is kept |
| PluginSystem.PluginManager.LoadPlugin | src/core/plugin_system.py:84-122 | a loaded name returns true with no change; otherwise the first plugin class is instantiated, registered, and recorded as enabled with its version and capabilities; a failed import or no plugin class returns false with no change |
| PluginSystem.PluginManager.UnloadPlugin | src/core/plugin_system.py:124-133 | a loaded name is removed and marked disabled in the manifest, returning true; an unknown name returns false with no change |
| PluginSystem.PluginManager.ExecutePlugin | src/core/plugin_system.py:135-143 | the plugin runs the capability exactly when the plugin is loaded, enabled and lists it, and the result is that plugin's; otherwise none |
| PluginSystem.PluginManager.ExecuteMatchesCapabilities | src/core/plugin_system.py:135-151 | a capability runs exactly when it is listed for its plugin among the available capabilities, that is, the plugin is loaded, enabled and offers it; the plugin itself runs it |
| PluginSystem.PluginManager.StatusAgreesWithManifest | src/core/plugin_system.py:153-162 | one status entry per loaded plugin, agreeing with its manifest entry on version and capabilities |
| PluginSystem.PluginManager.GetAvailableCapabilities | src/core/plugin_system.py:145-151 | the loop returns the capabilities of exactly the enabled loaded plugins |
| PluginSystem.PluginManager.GetPluginStatus | src/core/plugin_system.py:153-162 | the loop returns the status of exactly the loaded plugins |
| ModelManagement.ModelPath | model_manager.py:30-33 | "full" loads from models/full, every other mode from models/lite |
| ModelManagement.CachedLoadKeepsMode | model_manager.py:26-27 | a cache hit returns the cached model and changes neither the cache nor the current mode |
| ModelManagement.LoadTwice | model_manager.py:24-51 | a successful load caches the model, so loading the mode again returns it and changes nothing |
| ModelManagement.ModelManager.constructor | model_manager.py:14-22 | nothing cached, mode "full" |
| ModelManagement.ModelManager.LoadModel | model_manager.py:24-51 | a cache hit changes nothing; a fresh load caches the model under the mode and makes the mode current; a failure returns none and changes nothing |
| ModelManagement.SwitchRejectsUnknownMode | model_manager.py:55-56 | any mode other than "full" or "lite" raises and changes nothing |
| ModelManagement.SwitchToCurrentMode | model_manager.py:58-59 | switching to the current mode returns true and changes nothing |
| ModelManagement.SwitchEvictsThenLoads | model_manager.py:61-67 | switching to another mode evicts the current mode's model first and returns whether the new mode could be loaded |
| ModelManagement.SwitchToCachedModeKeepsEvictedMode | model_manager.py:53-67 | switching to an already cached mode returns true but leaves the current mode at the mode whose model was just evicted |
| ModelManagement.ModelManager.SwitchMode | model_manager.py:53-67 | the result and the new state are those of the switch on the old state |
| ModelManagement.CreateLiteSpec | model_manager.py:69-84 | raises exactly when the full model is neither cached nor loadable, changing nothing; otherwise caches the conversion of the full model under "lite", and a fresh full load makes "full" current |
| ModelManagement.ModelManager.CreateLiteVersion | model_manager.py:69-84 | the result and the new state are those of the lite conversion on the old state |
| ModelManagement.ModelManager.GetModelInfo | model_manager.py:86-92 | reports the current mode and exactly the cached modes |

## Left out

- TF-IDF fitting, vector dimensions and cosine-similarity numerics are not modelled. The vectorizer is the corpus it was fitted on. The similarity is an uninterpreted function that may fail, and vectors of different lengths are one way it fails.
- Memory.MemorySystem.UpdateVectorizer: a fit that raises is taken to leave the vectorizer as it was. With scikit-learn's `TfidfVectorizer`, a fit that fails on an empty vocabulary (for example, every stored text consists of punctuation) may already have reset internal state. The old vectorizer then raises on `transform`, so `_create_embedding` would return the zero vector until a refit succeeds. Library internals are not modelled.
- Pickle persistence of the vectorizer and of embeddings is not modelled. The memory store's constructor takes the saved vectorizer, if any, as a parameter. A failure to save the vectorizer after a successful fit is not modelled.
- SQLite connections are not modelled. A storage failure is modelled only for `save_conversation`, where it decides the return value. The other operations always succeed.
- Timestamps are integers on one clock. The source compares a local-time `datetime.now()` string against UTC `CURRENT_TIMESTAMP` strings, and that difference is not modelled.
- Row order: rows are kept in row-id order. Ties under `ORDER BY` and the row `fetchone()` picks are taken in that order, which SQLite does not promise.
- AUTOINCREMENT: the next id is one more than the largest id present when the tables are opened. The `sqlite_sequence` table is not modelled.
- Floating point is exact real arithmetic here: `min(1.0, ...)`, `* 0.9` and the 0.3 threshold have no rounding.
- Memory.MemorySystem.GetKnowledge: returns whole rows; the dictionaries of the source leave out the row id and `created_at`.
- Memory.MemorySystem.GetRelevantContext: similarities are reals; numpy float types are not modelled.
- HTTP requests, BeautifulSoup parsing, the choice of the page element whose text is taken, `time.sleep` and printing are not modelled. Each back-end is an oracle that returns hits or raises, and its own truncation to the count asked for is part of the oracle.
- The `search_cache` and `sources` tables and the `embedding` column of the search table are not modelled, because the code shown never writes them.
- Plugin `on_enable`/`on_disable` side effects, the `plugin_manager` back-reference and the keyword arguments passed to `execute` are not modelled.
- PluginSystem.PluginManager.LoadPlugin: exceptions raised by plugin code are not modelled. In the source, an exception from a plugin's `get_capabilities` or `on_enable` after registration leaves the plugin registered but returns false. An exception from a plugin's constructor returns false with no change.
- Manifest file I/O (`_save_plugin_manifest`) is not modelled. Manifest entries of shapes other than {enabled, version, capabilities} are not modelled either. The order `glob` lists the plugin directory in is a parameter.
- Model manager: the real model import, configuration loading, `save_pretrained`, the FastAPI routes and `os.makedirs` are not modelled. The parameter counts and `size_mb` of `get_model_info` and the unused `compression_ratio` parameter are left out too. The module body names `List` without importing it (model_manager.py:117), so only the class is modelled.
- ModelManagement.ModelManager.GetModelInfo: reports the cached modes as a set; the order of the source's list is not modelled.
- ModelManagement.CreateLiteSpec: `convert_to_lite` is a total oracle; a conversion that raises is not modelled.
