/** The state of the Python filter plugin interface as a value, one
    specification function per stateful entry point of
    python_plugin_interface.cpp, and the properties they have. */
module Registry {
  import opened Types

  /** The two process-wide maps (None when the map pointer is NULL), the
      allocated PythonModule records and the identity the next one receives. */
  datatype Tables = Tables(
    modules: Option<map<string, RecRef>>,
    handles: Option<map<Ptr, RecRef>>,
    records: map<nat, PythonModule>,
    nextRecord: nat)

  /** Everything the entry points read or change, except the GIL: the
      tables, the contents of the Python objects that are dicts, Python's
      own state, gPluginName, the asset tracker and the ReadingSets deleted
      so far. */
  datatype BridgeState = BridgeState(
    tables: Tables,
    dicts: map<Ptr, map<string, string>>,
    runtimeInitialized: bool,
    interpreters: nat,
    pluginName: string,
    trackerPresent: bool,
    tracked: seq<TrackingTuple>,
    deleted: multiset<nat>)

  /** The new state after an entry point and the pointer it returns. */
  datatype Step = Step(state: BridgeState, result: Ptr)

  /** How filter_plugin_init_fn proceeds for a plugin name: no
      pythonModules map, a NULL pythonModules entry, reuse of the record
      registered in pythonModules, or a new interpreter and a new record
      whose m_init is `init`. */
  datatype Plan = NoModules | Broken | Reuse(id: nat) | Load(init: bool)

  /** The least element of a non-empty set of addresses: the first key a
      `std::map` iteration visits. */
  ghost function MinOf(s: set<nat>): (m: nat)
    requires s != {}
    ensures m in s && forall x :: x in s ==> m <= x
    decreases s
  {
    var x :| x in s;
    if s - {x} == {} then
      assert forall y :: y in s ==> y !in s - {x};
      x
    else
      var m' := MinOf(s - {x});
      assert forall y :: y in s ==> y == x || y in s - {x};
      if x < m' then x else m'
  }

  // ---------------------------------------------------------------------
  // The tables and their invariant

  /** Record identities are below nextRecord and hold a non-NULL module;
      every handle maps to a live record; pythonModules maps to NULL or to
      an identity already handed out, and when that record is still live it
      carries the name it is registered under. */
  ghost predicate Consistent(t: Tables)
  {
    && (forall id :: id in t.records ==> id < t.nextRecord && t.records[id].code != NULL)
    && (t.handles.Some? ==>
          forall h :: h in t.handles.value ==> t.handles.value[h].Ref? && t.handles.value[h].id in t.records)
    && (t.modules.Some? ==>
          forall k :: k in t.modules.value && t.modules.value[k].Ref? ==>
            && t.modules.value[k].id < t.nextRecord
            && (t.modules.value[k].id in t.records ==> t.records[t.modules.value[k].id].name == k))
  }

  /** The pythonModules entry for `n`, if any, is NULL or a live record;
      otherwise it points to a deleted record. */
  ghost predicate ModuleEntryLive(t: Tables, n: string)
  {
    t.modules.Some? && n in t.modules.value && t.modules.value[n].Ref? ==> t.modules.value[n].id in t.records
  }

  /** Handle `h` is registered and its live record is named `n`. */
  ghost predicate Named(t: Tables, h: Ptr, n: string)
  {
    && t.handles.Some? && h in t.handles.value && t.handles.value[h].Ref?
    && t.handles.value[h].id in t.records
    && t.records[t.handles.value[h].id].name == n
  }

  ghost predicate HasNamedHandle(t: Tables, n: string)
  {
    exists h :: Named(t, h, n)
  }

  /** No handle refers to record `id`. */
  ghost predicate Unreferenced(t: Tables, id: nat)
  {
    t.handles.Some? ==> forall h :: h in t.handles.value ==> t.handles.value[h] != Ref(id)
  }

  /** The m_init of the record of handle `h`. */
  ghost function InitOf(t: Tables, h: Ptr): bool
    requires t.handles.Some? && h in t.handles.value && t.handles.value[h].Ref?
    requires t.handles.value[h].id in t.records
  {
    t.records[t.handles.value[h].id].init
  }

  /** The m_init of the first handle, in key order, whose module is named
      `n`, false when there is none: what filter_plugin_init_fn copies. */
  ghost function InheritedInit(t: Tables, n: string): bool
  {
    if t.handles.Some? && HasNamedHandle(t, n) then
      var ks := set h | h in t.handles.value && Named(t, h, n);
      var w :| Named(t, w, n);
      assert w in ks;
      InitOf(t, MinOf(ks))
    else false
  }

  /** All handles whose modules carry the same name agree on m_init. */
  ghost predicate InstancesAgree(t: Tables)
  {
    forall h1, h2, n :: Named(t, h1, n) && Named(t, h2, n) ==> InitOf(t, h1) == InitOf(t, h2)
  }

  /** Handle `h` is non-NULL, registered and mapped to a record. */
  ghost predicate Resolves(t: Tables, h: Ptr)
  {
    h != NULL && t.handles.Some? && h in t.handles.value && t.handles.value[h].Ref?
  }

  /** The category name of the record of a resolving handle. */
  ghost function CategoryOf(t: Tables, h: Ptr): string
    requires Consistent(t) && Resolves(t, h)
  {
    t.records[t.handles.value[h].id].category
  }

  // ---------------------------------------------------------------------
  // The steps the entry points take on the tables

  /** `new PythonModule(rec)`: the record goes under the next identity. */
  ghost function Allocated(t: Tables, rec: PythonModule): Tables
  {
    t.(records := t.records[t.nextRecord := rec], nextRecord := t.nextRecord + 1)
  }

  /** PythonModule::setCategoryName on record `id`. */
  ghost function Categorised(t: Tables, id: nat, category: string): Tables
    requires id in t.records
  {
    t.(records := t.records[id := t.records[id].(category := category)])
  }

  /** Registration of plugin_init's result `key` for record `id`: inserted
      when the key is new; on a collision the record is deleted and NULL is
      returned. Without a pythonHandles map nothing is inserted. */
  ghost function Register(t: Tables, key: Ptr, id: nat): (Tables, Ptr)
  {
    if t.handles.None? then (t, key)
    else if key !in t.handles.value then (t.(handles := Some(t.handles.value[key := Ref(id)])), key)
    else (t.(records := t.records - {id}), NULL)
  }

  // ---------------------------------------------------------------------
  // PluginInterfaceInit

  /** The import step of PluginInterfaceInit for module `imported` (NULL when
      the import failed): a record is allocated whenever there is a
      pythonModules map, and inserted under `name` unless the name is already
      present; the record is then not freed. */
  ghost function RegisterModule(t: Tables, name: string, rec: PythonModule, imported: Ptr): (Tables, Ptr)
  {
    if imported == NULL || t.modules.None? then (t, NULL)
    else
      var t1 := Allocated(t, rec);
      if name in t1.modules.value then (t1, NULL)
      else (t1.(modules := Some(t1.modules.value[name := Ref(t.nextRecord)])), imported)
  }

  /** PluginInterfaceInit(name): initialises Python when it is not yet
      initialised and otherwise asks for a new interpreter (`interpOk`), then
      imports the shim (`imported`, NULL on failure) and registers it. */
  ghost function InterfaceInitSpec(s: BridgeState, name: string, interpOk: bool, imported: Ptr): Step
  {
    var initPython := !s.runtimeInitialized;
    var s0 := s.(runtimeInitialized := true, pluginName := name);
    if !initPython && !interpOk then Step(s0, NULL)
    else
      var rec := PythonModule(imported, initPython, name, if initPython then None else Some(s.interpreters), "");
      var (t, r) := RegisterModule(s.tables, name, rec, imported);
      Step(s0.(tables := t, interpreters := if initPython then s.interpreters else s.interpreters + 1), r)
  }

  // ---------------------------------------------------------------------
  // filter_plugin_init_fn

  /** The choice filter_plugin_init_fn makes for plugin `n` before taking the
      GIL. A pythonModules entry whose record was freed also gives Broken
      here; the C++ reads freed memory in that case, and the methods of the
      bridge require that it does not arise. */
  ghost function Selection(t: Tables, n: string): Plan
  {
    if t.modules.None? then NoModules
    else if HasNamedHandle(t, n) then Load(InheritedInit(t, n))
    else if n !in t.modules.value then Load(false)
    else match t.modules.value[n]
      case Ref(id) => if id in t.records && t.records[id].code != NULL then Reuse(id) else Broken
      case Null => Broken
  }

  /** filter_plugin_init_fn once it reuses the live pythonModules record `id`. */
  ghost function ProceedReuse(s: BridgeState, id: nat, config: Config, initResult: Ptr): Step
    requires id in s.tables.records
  {
    var (t, r) := Register(Categorised(s.tables, id, config.name), initResult, id);
    Step(s.(tables := t), r)
  }

  /** filter_plugin_init_fn once it loads the module afresh, inheriting m_init
      `init`: `interpOk` is whether Py_NewInterpreter succeeds, `imported` the
      module the import returns (NULL on failure) and `initResult` the object
      plugin_init returns (NULL when it raises). */
  ghost function ProceedLoad(s: BridgeState, init: bool, config: Config, interpOk: bool, imported: Ptr, initResult: Ptr): Step
  {
    if !interpOk then Step(s, NULL)
    else if imported == NULL then Step(s.(interpreters := s.interpreters + 1), NULL)
    else
      var id := s.tables.nextRecord;
      var t1 := Allocated(s.tables, PythonModule(imported, init, config.plugin, Some(s.interpreters), ""));
      var (t, r) := Register(Categorised(t1, id, config.name), initResult, id);
      Step(s.(tables := t, interpreters := s.interpreters + 1), r)
  }

  /** filter_plugin_init_fn(config). */
  ghost function FilterInitSpec(s: BridgeState, config: Config, interpOk: bool, imported: Ptr, initResult: Ptr): Step
  {
    match Selection(s.tables, config.plugin)
    case NoModules => Step(s, NULL)
    case Broken => Step(s, NULL)
    case Reuse(id) => ProceedReuse(s, id, config, initResult)
    case Load(init) => ProceedLoad(s, init, config, interpOk, imported, initResult)
  }

  // ---------------------------------------------------------------------
  // filter_plugin_ingest_fn and filter_plugin_reconfigure_fn

  /** The tracking tuples ingest records for a batch routed to the filter
      whose category is `category`, one per reading and in reading order. */
  ghost function TrackedFor(category: string, rs: seq<Reading>): seq<TrackingTuple>
  {
    seq(|rs|, i requires 0 <= i < |rs| => TrackingTuple(category, rs[i].asset, FilterEvent))
  }

  /** filter_plugin_ingest_fn(handle, data) when the module's plugin_ingest is
      `attr`: past the checks, one tuple per reading is tracked (when there is
      a tracker) and the batch is deleted; otherwise nothing changes. */
  ghost function IngestSpec(s: BridgeState, handle: Ptr, data: ReadingSet, attr: Attr): BridgeState
    requires Consistent(s.tables)
  {
    if Resolves(s.tables, handle) && attr == Callable then
      var category := CategoryOf(s.tables, handle);
      s.(tracked := s.tracked + (if s.trackerPresent then TrackedFor(category, data.readings) else []),
         deleted := s.deleted + multiset{data.id})
    else s
  }

  /** The object at `obj`, returned with `shape`, as the dicts `dicts` show
      it: the dict held at that address, otherwise the returned shape. */
  function Viewed(dicts: map<Ptr, map<string, string>>, obj: Ptr, shape: PyValue): PyValue
  {
    if obj in dicts then Dict(dicts[obj]) else shape
  }

  /** filter_plugin_reconfigure_fn(handle, config) changes the handle's dict:
      the handle resolves, plugin_reconfigure is callable, the call returns,
      and both the handle and the returned object are dicts. */
  ghost predicate ReconfigureApplies(s: BridgeState, handle: Ptr, attr: Attr, result: CallOutcome)
  {
    && Resolves(s.tables, handle) && attr == Callable && result.Returned? && result.obj != NULL
    && handle in s.dicts && Viewed(s.dicts, result.obj, result.shape).Dict?
  }

  /** filter_plugin_reconfigure_fn(handle, config) when plugin_reconfigure
      is `attr` and the call's outcome is `result`: the handle's dict is
      cleared, then updated from the returned object as it is after the
      clear, which is empty when that object is the handle itself. */
  ghost function ReconfigureSpec(s: BridgeState, handle: Ptr, attr: Attr, result: CallOutcome): BridgeState
  {
    if ReconfigureApplies(s, handle, attr, result) then
      var cleared := s.dicts[handle := map[]];
      s.(dicts := cleared[handle := Viewed(cleared, result.obj, result.shape).items])
    else s
  }

  // ---------------------------------------------------------------------
  // The consistency invariant is kept by every step and entry point

  lemma AllocatedKeepsConsistent(t: Tables, rec: PythonModule)
    requires Consistent(t) && rec.code != NULL
    ensures Consistent(Allocated(t, rec)) && Unreferenced(Allocated(t, rec), t.nextRecord)
  {
  }

  lemma CategorisedKeepsConsistent(t: Tables, id: nat, category: string)
    requires Consistent(t) && id in t.records
    ensures Consistent(Categorised(t, id, category))
  {
  }

  lemma RegisterKeepsConsistent(t: Tables, key: Ptr, id: nat)
    requires Consistent(t) && id in t.records && Unreferenced(t, id)
    ensures Consistent(Register(t, key, id).0)
  {
  }

  lemma InterfaceInitKeepsConsistent(s: BridgeState, name: string, interpOk: bool, imported: Ptr)
    requires Consistent(s.tables)
    ensures Consistent(InterfaceInitSpec(s, name, interpOk, imported).state.tables)
  {
  }

  /** The record filter_plugin_init_fn reuses is not yet referenced by any handle. */
  lemma ReusedUnreferenced(t: Tables, n: string)
    requires Consistent(t) && Selection(t, n).Reuse?
    ensures Unreferenced(t, Selection(t, n).id)
  {
    var id := Selection(t, n).id;
    assert t.records[id].name == n;
    assert t.handles.Some? ==>
      forall h :: h in t.handles.value && t.handles.value[h] == Ref(id) ==> Named(t, h, n);
  }

  lemma FilterInitKeepsConsistent(s: BridgeState, config: Config, interpOk: bool, imported: Ptr, initResult: Ptr)
    requires Consistent(s.tables)
    ensures Consistent(FilterInitSpec(s, config, interpOk, imported, initResult).state.tables)
  {
    var t := s.tables;
    match Selection(t, config.plugin)
    case NoModules =>
    case Broken =>
    case Reuse(id) =>
      ReusedUnreferenced(t, config.plugin);
      CategorisedKeepsConsistent(t, id, config.name);
      RegisterKeepsConsistent(Categorised(t, id, config.name), initResult, id);
    case Load(init) =>
      if interpOk && imported != NULL {
        var rec := PythonModule(imported, init, config.plugin, Some(s.interpreters), "");
        var id := t.nextRecord;
        AllocatedKeepsConsistent(t, rec);
        CategorisedKeepsConsistent(Allocated(t, rec), id, config.name);
        RegisterKeepsConsistent(Categorised(Allocated(t, rec), id, config.name), initResult, id);
      }
  }
}
