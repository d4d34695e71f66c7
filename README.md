# The Python filter plugin interface of Fledge, modelled in Dafny

Fledge runs filters written in Python through a C++ bridge library. The
library is `C/services/filter-plugin-interfaces/python/python_plugin_interface.cpp`.
The loader calls `PluginInterfaceInit` once per plugin name to start the
embedded Python runtime and import the shim module. It then uses
`PluginInterfaceResolveSymbol` to look up the entry points. Each filter
instance afterwards goes through `filter_plugin_init_fn`,
`filter_plugin_ingest_fn` and `filter_plugin_reconfigure_fn`.

All of these work over two process-wide maps:

- `pythonModules` maps a plugin name to its `PythonModule` record;
- `pythonHandles` maps a plugin handle to its `PythonModule` record.

A record holds the imported module, the `m_init` flag, the plugin name, the
sub-interpreter and the category name. The model is in four modules.

- `Types` (`types.dfy`): pointers, with 0 for NULL, and record references.
  A record reference is NULL or the identity of an allocated record; one
  whose identity was freed is dangling. Also the record, configuration,
  readings, tracking tuples and what the bridge observes of Python: whether
  an attribute is callable, whether an object is a dict, which object a call
  returned, if it did not raise.
- `Symbols` (`symbols.dfy`): `PluginInterfaceResolveSymbol` as a function.
- `Registry` (`registry.dfy`): the state as a value. `Tables` holds the two
  maps (None for a NULL map pointer), the record table and the next
  identity. `BridgeState` adds everything else the entry points change.
  There is one specification function per stateful entry point, built from
  the steps it takes: allocate, set category, register. The consistency
  invariant is kept by every entry point.
- `Bridge` (`bridge.dfy`): the class `PluginBridge`, whose fields are that
  state plus the GIL. Its methods follow the C++ step by step:
  - the `std::map` loop over `pythonHandles`;
  - the GIL taken with `PyGILState_Ensure` and released either with
    `PyGILState_Release` or, after `Py_NewInterpreter`, with
    `PyEval_ReleaseThread`;
  - the early returns.

  Each method is proved to leave the fields equal to its specification
  function applied to the old state. It is also proved to keep the tables
  consistent and to release every GIL acquisition it makes. The
  release-kind discipline is enforced by preconditions: `PyGILState_Release`
  only when no sub-interpreter is current, `PyEval_ReleaseThread` only on
  the current one.
- `Properties` (`properties.dfy`): what the entry points guarantee, alone
  and in sequence.

The model follows the code as written, including behaviour that looks
unintended.

- `filter_plugin_init_fn` never inserts into `pythonModules`.
- While a handle of the same plugin exists, every further instance gets a
  new sub-interpreter and a new record. It inherits `m_init` from the
  first such handle in key order. So the record registered by
  `PluginInterfaceInit` is reused only by the first instance.
- The object `plugin_init` returns is inserted into `pythonHandles` even
  when it is NULL, because the call raised. After that, every later
  instance whose `plugin_init` raises collides with that key.
- On a key collision the selected record is deleted, even when it is the
  record `pythonModules` still points to. That entry then dangles.
- When `PluginInterfaceInit` finds its name already in `pythonModules`, the
  record it allocated is never freed: the `delete` at line 712 acts on an
  outer variable that the inner declaration at line 674 shadows.
- `filter_plugin_ingest_fn` deletes the `ReadingSet` only on the path that
  calls `plugin_ingest`; its early returns keep it.

One might expect a second instance of a plugin to share the first
instance's Python context. The code instead creates a new one (lines 316-333
and 374-377), and the model follows the code
(`Properties.SecondInstanceLoadsFresh`).

## Model

| member | source | states |
|---|---|---|
| `Symbols.ResolveSymbol` | C/services/filter-plugin-interfaces/python/python_plugin_interface.cpp:749-778 | An entry point is returned exactly for the five supported names, and it is the one requested under that name, with nothing logged. "plugin_start" gives NULL with a debug line. Any other name gives NULL with a fatal line. |
| `Symbols.ResolveSymbolName` | C/services/filter-plugin-interfaces/python/python_plugin_interface.cpp:752-761 | Every entry point is found under its own symbol name, and no two share a name. |
| `Registry.MinOf` | C/services/filter-plugin-interfaces/python/python_plugin_interface.cpp:316-317 | The first key a `std::map` iteration visits is a member of the key set and no greater than any other key. |
| `Registry.AllocatedKeepsConsistent` | C/services/filter-plugin-interfaces/python/python_plugin_interface.cpp:425-429 | Allocating a record with a non-NULL module keeps the tables consistent, and no handle refers to the new record. |
| `Registry.CategorisedKeepsConsistent` | C/services/filter-plugin-interfaces/python/python_plugin_interface.cpp:441-442 | Setting a record's category name keeps the tables consistent. |
| `Registry.RegisterKeepsConsistent` | C/services/filter-plugin-interfaces/python/python_plugin_interface.cpp:502-534 | Registering plugin_init's result for an unreferenced live record keeps the tables consistent, both on insertion and when the record is deleted after a collision. |
| `Registry.InterfaceInitKeepsConsistent` | C/services/filter-plugin-interfaces/python/python_plugin_interface.cpp:569-739 | PluginInterfaceInit keeps the tables consistent. |
| `Registry.ReusedUnreferenced` | C/services/filter-plugin-interfaces/python/python_plugin_interface.cpp:335-359 | The pythonModules record that filter_plugin_init_fn reuses is referenced by no handle yet. |
| `Registry.FilterInitKeepsConsistent` | C/services/filter-plugin-interfaces/python/python_plugin_interface.cpp:294-547 | filter_plugin_init_fn keeps the tables consistent on every path. |
| `Bridge.PluginBridge.GilEnsure` | C/services/filter-plugin-interfaces/python/python_plugin_interface.cpp:370-371 | Takes one more GIL acquisition. |
| `Bridge.PluginBridge.NewInterpreter` | C/services/filter-plugin-interfaces/python/python_plugin_interface.cpp:377-378 | On success one more interpreter exists and its thread state is current. On failure nothing changes. |
| `Bridge.PluginBridge.ReleaseThread` | C/services/filter-plugin-interfaces/python/python_plugin_interface.cpp:537-540 | Releasing through the current sub-interpreter gives back one GIL acquisition and leaves no sub-interpreter current. |
| `Bridge.PluginBridge.GilStateRelease` | C/services/filter-plugin-interfaces/python/python_plugin_interface.cpp:541-544 | Gives back one GIL acquisition. It may be called only when no sub-interpreter is current. |
| `Bridge.PluginBridge.FindHandleByName` | C/services/filter-plugin-interfaces/python/python_plugin_interface.cpp:315-333 | The loop finds a handle exactly when some handle's module carries the plugin name. The m_init it takes is that of the first such handle in key order. |
| `Bridge.PluginBridge.SelectModule` | C/services/filter-plugin-interfaces/python/python_plugin_interface.cpp:299-368 | The choice made before taking the GIL is the one `Registry.Selection` names: no pythonModules map, a fresh load inheriting m_init, a fresh load with m_init false, reuse of a live entry, or failure on a NULL entry. |
| `Bridge.PluginBridge.AllocateRecord` | C/services/filter-plugin-interfaces/python/python_plugin_interface.cpp:425-429 | The new record takes the next identity, and the tables become their allocation step. |
| `Bridge.PluginBridge.SetCategory` | C/services/filter-plugin-interfaces/python/python_plugin_interface.cpp:460-463 | Only the record's category name changes. |
| `Bridge.PluginBridge.RegisterResult` | C/services/filter-plugin-interfaces/python/python_plugin_interface.cpp:502-534 | plugin_init's result is inserted when it is a new key and returned. On a collision the record is deleted and NULL is returned. |
| `Bridge.PluginBridge.ImportModule` | C/services/filter-plugin-interfaces/python/python_plugin_interface.cpp:650-725 | A successful import with a pythonModules map allocates a record and inserts it under the plugin name unless the name is present. If the name is present, the result is NULL and the record stays allocated. A failed import, or no map, allocates nothing and returns NULL. |
| `Bridge.PluginBridge.PluginInterfaceInit` | C/services/filter-plugin-interfaces/python/python_plugin_interface.cpp:569-739 | The maps, result, runtime flag, interpreter count and gPluginName become those of `Registry.InterfaceInitSpec` applied to the old state. The tables stay consistent, and the GIL is released as often as it was taken. |
| `Bridge.PluginBridge.FilterPluginInit` | C/services/filter-plugin-interfaces/python/python_plugin_interface.cpp:294-547 | The maps, interpreter count and returned handle become those of `Registry.FilterInitSpec` applied to the old state. The tables stay consistent, and the GIL is back where it was, with no sub-interpreter left current. |
| `Bridge.PluginBridge.ReuseAndRegister` | C/services/filter-plugin-interfaces/python/python_plugin_interface.cpp:460-544 | Reusing a pythonModules record sets its category, registers plugin_init's result for it and releases the GIL with PyGILState_Release. |
| `Bridge.PluginBridge.LoadAndRegister` | C/services/filter-plugin-interfaces/python/python_plugin_interface.cpp:370-544 | A fresh load creates an interpreter, imports, allocates and categorises a record, registers the result and releases through the new interpreter. Each failure returns NULL. |
| `Bridge.PluginBridge.FilterPluginIngest` | C/services/filter-plugin-interfaces/python/python_plugin_interface.cpp:173-276 | The tracking log and the deleted batches become those of `Registry.IngestSpec` applied to the old state, and the GIL is back where it was. |
| `Bridge.PluginBridge.FilterPluginReconfigure` | C/services/filter-plugin-interfaces/python/python_plugin_interface.cpp:47-165 | The dict contents become those of `Registry.ReconfigureSpec` applied to the old state: the handle's dict is cleared, then updated from the returned object as seen after the clear. The GIL is back where it was. |
| `Properties.InheritedFromNamed` | C/services/filter-plugin-interfaces/python/python_plugin_interface.cpp:316-331 | The inherited m_init is that of a handle of the plugin. When instances agree, it is that of every such handle. |
| `Properties.FilterInitFrame` | C/services/filter-plugin-interfaces/python/python_plugin_interface.cpp:294-547 | filter_plugin_init_fn never changes pythonModules, the dicts, the runtime flag, gPluginName or the tracking. It creates an interpreter exactly on a fresh load whose Py_NewInterpreter succeeds. |
| `Properties.FilterInitEarlyExit` | C/services/filter-plugin-interfaces/python/python_plugin_interface.cpp:301-458 | Every failure before plugin_init returns NULL and leaves the tables unchanged. |
| `Properties.FilterInitRegisters` | C/services/filter-plugin-interfaces/python/python_plugin_interface.cpp:425-517 | A new key, NULL included, is returned and mapped to the selected record. That record carries the plugin name, the configuration's name as category and the selected m_init. A reused record changes only its category. A fresh load adds a record holding the imported module, the plugin name, the inherited m_init, the new sub-interpreter and the category. No other record changes. |
| `Properties.FilterInitKeepsRegisteredHandles` | C/services/filter-plugin-interfaces/python/python_plugin_interface.cpp:441-463 | A later instance leaves every registered handle with its key and with its record unchanged, category name included. So the category ingest tracks for a handle is never overwritten by another instance's setCategoryName. |
| `Properties.FilterInitCollision` | C/services/filter-plugin-interfaces/python/python_plugin_interface.cpp:518-533 | A colliding key returns NULL, leaves pythonHandles unchanged and deletes exactly the selected record. After a reuse this leaves the plugin's pythonModules entry dangling. Every other live entry stays live. |
| `Properties.FilterInitKeepsAgreement` | C/services/filter-plugin-interfaces/python/python_plugin_interface.cpp:315-359 | After filter_plugin_init_fn, all handles of one plugin still agree on m_init. |
| `Properties.SecondInstanceLoadsFresh` | C/services/filter-plugin-interfaces/python/python_plugin_interface.cpp:316-377 | Once a handle of a plugin is registered, the next instance of that plugin loads afresh and creates another interpreter. |
| `Properties.NullKeyBlocksFailedInits` | C/services/filter-plugin-interfaces/python/python_plugin_interface.cpp:504-533 | With a NULL key already registered, an instance whose plugin_init raises returns NULL and registers nothing. |
| `Properties.InterfaceInitRegistration` | C/services/filter-plugin-interfaces/python/python_plugin_interface.cpp:569-739 | The module is returned exactly when it is inserted under a new name. A record is allocated whenever the import succeeds with a pythonModules map. pythonHandles is untouched. An interpreter is created only when Python was already initialised. When no record is allocated, the tables are unchanged. The allocated record holds the imported module, m_init true exactly when this call initialised Python, the plugin name, the new sub-interpreter (none when Python was initialised here) and an empty category. |
| `Properties.InterfaceInitLeaksDuplicate` | C/services/filter-plugin-interfaces/python/python_plugin_interface.cpp:669-713 | When the name is already present, the allocated record stays allocated and is referenced by neither map. |
| `Properties.InterfaceInitKeepsAgreement` | C/services/filter-plugin-interfaces/python/python_plugin_interface.cpp:569-739 | PluginInterfaceInit keeps all handles of one plugin agreeing on m_init. |
| `Properties.InterfaceInitThenFilterInitReuses` | C/services/filter-plugin-interfaces/python/python_plugin_interface.cpp:335-374 | After PluginInterfaceInit registers a plugin, its first instance reuses that record, whose m_init says whether that call initialised Python, and creates no interpreter. |
| `Properties.IngestEffect` | C/services/filter-plugin-interfaces/python/python_plugin_interface.cpp:173-276 | Past the checks, one tuple per reading is appended in order when there is a tracker. Each tuple carries the category, the asset and "Filter". The batch is deleted once. Otherwise nothing changes, and the maps never change. |
| `Properties.ReconfigureEffect` | C/services/filter-plugin-interfaces/python/python_plugin_interface.cpp:47-165 | Only the handle's own dict can change, and only when every check passes and both the handle and the returned object are dicts. It then holds the returned dict's items, or nothing when the returned object is the handle itself. Otherwise nothing changes, and the maps never change. |
| `Properties.ReconfigureReturningHandleEmptiesIt` | C/services/filter-plugin-interfaces/python/python_plugin_interface.cpp:137-144 | A plugin_reconfigure that returns the handle itself leaves the handle's dict empty, because the clear also empties the object the update reads from. |
| `Properties.ReconfigureIdempotent` | C/services/filter-plugin-interfaces/python/python_plugin_interface.cpp:136-152 | Reconfiguring twice with the same outcome equals reconfiguring once. |

## Left out

- The Python C API is reduced to what the bridge observes, passed in as parameters:
  - whether `Py_NewInterpreter` succeeds;
  - the module `PyImport_ImportModule` returns;
  - the object `plugin_init` returns;
  - whether `plugin_ingest` or `plugin_reconfigure` is callable;
  - what a call returns: which object, and whether it is a dict.

  `sys.path`, `sys.argv`, capsules, reference counts and Python exceptions are not modelled.
- `createReadingsList`, `setImportParameters`, `logErrorMessage`, `plugin_info_fn`, `plugin_shutdown_fn`, `Py2C_PluginInfo` and `ConfigCategory::itemsToJSON` are defined elsewhere and are not part of this model. So is the header that declares `pythonModules`, `pythonHandles` and `gPluginName`. The constructor starts with both maps allocated and empty.
- Logging is not modelled, except the severity of the line `ResolveSymbol` writes. The `pName` argument of `PluginInterfaceResolveSymbol`, the `callRaised` argument of ingest and the configuration text of reconfigure only reach the log or Python, so they change no state.
- What the Python functions do to Python objects during the call is not modelled: `plugin_reconfigure` could itself change the handle's dict before returning. The model takes the dicts as they are when the call returns to be those before it.
- The local mutex in reconfigure and all concurrency are left out. Each entry point runs to completion.
- The `new PythonModule(...) == NULL` branches (lines 429-439 and 679-690) cannot be taken, because `new` throws instead of returning NULL. They are not modelled.
- Bridge.PluginBridge.FilterPluginInit: requires that a live `pythonHandles` map accompany `pythonModules`, and, when no handle of the plugin exists yet, that the plugin's `pythonModules` entry not dangle. The C++ dereferences both without a check (lines 316 and 352), so those states are undefined behaviour there.
- Bridge.PluginBridge.SelectModule: requires the same two conditions, for the same reason.
- The sub-interpreters created by `Py_NewInterpreter` are counted but never ended, as in the C++, which does not end them when an import fails. Their Python state is not modelled.
- The C++ constructor leaves a record's category name empty until `setCategoryName` runs. The model writes `""` for it.
