/** What the entry points of the Python filter plugin interface guarantee,
    stated over the specification functions of Registry, alone and in
    sequence. */
module Properties {
  import opened Types
  import opened Registry

  /** filter_plugin_init_fn for plugin `n` gets as far as calling plugin_init. */
  ghost predicate ReachesInit(s: BridgeState, n: string, interpOk: bool, imported: Ptr)
  {
    match Selection(s.tables, n)
    case Reuse(_) => true
    case Load(_) => interpOk && imported != NULL
    case _ => false
  }

  /** The record plugin_init's result is registered for: the reused
      pythonModules record, or the one allocated for the new import. */
  ghost function SelectedId(s: BridgeState, n: string): nat
  {
    if Selection(s.tables, n).Reuse? then Selection(s.tables, n).id else s.tables.nextRecord
  }

  /** The m_init the registered record carries. */
  ghost function SelectedInit(s: BridgeState, n: string): bool
    requires Selection(s.tables, n).Reuse? ==> Selection(s.tables, n).id in s.tables.records
  {
    match Selection(s.tables, n)
    case Reuse(id) => s.tables.records[id].init
    case Load(init) => init
    case _ => false
  }

  // ---------------------------------------------------------------------
  // Which handle's m_init a new instance inherits

  /** When some handle's module is named `n`, the inherited m_init is that of
      one of them, and, when instances agree, that of every one of them. */
  lemma InheritedFromNamed(t: Tables, n: string)
    requires HasNamedHandle(t, n)
    ensures exists h :: Named(t, h, n) && InheritedInit(t, n) == InitOf(t, h)
    ensures InstancesAgree(t) ==> forall h :: Named(t, h, n) ==> InitOf(t, h) == InheritedInit(t, n)
  {
    var ks := set h | h in t.handles.value && Named(t, h, n);
    var w :| Named(t, w, n);
    assert w in ks;
    var m := MinOf(ks);
    assert Named(t, m, n) && InheritedInit(t, n) == InitOf(t, m);
  }

  // ---------------------------------------------------------------------
  // filter_plugin_init_fn, one call

  /** filter_plugin_init_fn never modifies pythonModules, the Python dicts,
      the runtime flag, gPluginName or the asset tracking; it creates one
      interpreter exactly when it loads afresh and Py_NewInterpreter succeeds. */
  lemma FilterInitFrame(s: BridgeState, config: Config, interpOk: bool, imported: Ptr, initResult: Ptr)
    ensures var st := FilterInitSpec(s, config, interpOk, imported, initResult).state;
      && st.tables.modules == s.tables.modules
      && st == s.(tables := st.tables, interpreters := st.interpreters)
      && st.interpreters == s.interpreters + (if Selection(s.tables, config.plugin).Load? && interpOk then 1 else 0)
  {
  }

  /** Every failure before plugin_init is called returns NULL and leaves the
      tables as they were. */
  lemma FilterInitEarlyExit(s: BridgeState, config: Config, interpOk: bool, imported: Ptr, initResult: Ptr)
    requires !ReachesInit(s, config.plugin, interpOk, imported)
    ensures var st := FilterInitSpec(s, config, interpOk, imported, initResult);
      st.result == NULL && st.state.tables == s.tables
  {
  }

  /** When plugin_init's result is a new key, it is returned and registered,
      NULL included, for the selected record, which carries the plugin's name,
      the configuration's category name and the selected m_init. A reused
      record changes only its category; a fresh load adds a record holding the
      imported module and the new sub-interpreter; no other record changes. */
  lemma FilterInitRegisters(s: BridgeState, config: Config, interpOk: bool, imported: Ptr, initResult: Ptr)
    requires Consistent(s.tables) && s.tables.handles.Some?
    requires ReachesInit(s, config.plugin, interpOk, imported) && initResult !in s.tables.handles.value
    ensures var st := FilterInitSpec(s, config, interpOk, imported, initResult);
      var t := st.state.tables;
      var id := SelectedId(s, config.plugin);
      && st.result == initResult
      && t.handles == Some(s.tables.handles.value[initResult := Ref(id)])
      && Named(t, initResult, config.plugin)
      && t.records[id].category == config.name
      && t.records[id].init == SelectedInit(s, config.plugin)
      && t.records == s.tables.records[id := t.records[id]]
      && (Selection(s.tables, config.plugin).Reuse? ==>
            t.records[id] == s.tables.records[id].(category := config.name))
      && (Selection(s.tables, config.plugin).Load? ==>
            t.records[id] == PythonModule(imported, SelectedInit(s, config.plugin), config.plugin,
                                          Some(s.interpreters), config.name))
  {
    var n := config.plugin;
    if Selection(s.tables, n).Reuse? {
      assert s.tables.records[Selection(s.tables, n).id].name == n;
    }
  }

  /** When plugin_init's result is already a key, NULL is returned,
      pythonHandles is unchanged and the selected record is deleted. After a
      reuse this leaves the plugin's pythonModules entry dangling; every
      other live entry stays live. */
  lemma FilterInitCollision(s: BridgeState, config: Config, interpOk: bool, imported: Ptr, initResult: Ptr)
    requires Consistent(s.tables) && s.tables.handles.Some?
    requires ReachesInit(s, config.plugin, interpOk, imported) && initResult in s.tables.handles.value
    ensures var st := FilterInitSpec(s, config, interpOk, imported, initResult);
      var t := st.state.tables;
      && st.result == NULL
      && t.handles == s.tables.handles
      && t.records == s.tables.records - {SelectedId(s, config.plugin)}
      && (Selection(s.tables, config.plugin).Reuse? ==>
            t.modules.value[config.plugin] == Ref(SelectedId(s, config.plugin)) && !ModuleEntryLive(t, config.plugin))
      && forall k :: k != config.plugin && ModuleEntryLive(s.tables, k) ==> ModuleEntryLive(t, k)
  {
    var n := config.plugin;
    var id := SelectedId(s, n);
    var t := FilterInitSpec(s, config, interpOk, imported, initResult).state.tables;
    if Selection(s.tables, n).Reuse? {
      assert s.tables.records[id].name == n;
    } else {
      assert id !in s.tables.records;
    }
    assert t.records == s.tables.records - {id};
    forall k | k != n && ModuleEntryLive(s.tables, k)
      ensures ModuleEntryLive(t, k)
    {
      if s.tables.modules.Some? && k in s.tables.modules.value && s.tables.modules.value[k].Ref? {
        var e := s.tables.modules.value[k].id;
        assert e in s.tables.records && s.tables.records[e].name == k;
      }
    }
  }

  /** A later instance never disturbs an instance already registered: every
      handle keeps its key and its record, category name included, so what
      ingest tracks for it is not overwritten by another setCategoryName. */
  lemma FilterInitKeepsRegisteredHandles(s: BridgeState, config: Config, interpOk: bool, imported: Ptr, initResult: Ptr)
    requires Consistent(s.tables) && s.tables.handles.Some?
    ensures var t := FilterInitSpec(s, config, interpOk, imported, initResult).state.tables;
      forall h :: h in s.tables.handles.value ==>
        && h in t.handles.value && t.handles.value[h] == s.tables.handles.value[h]
        && t.handles.value[h].id in t.records
        && t.records[t.handles.value[h].id] == s.tables.records[s.tables.handles.value[h].id]
  {
    if Selection(s.tables, config.plugin).Reuse? {
      ReusedUnreferenced(s.tables, config.plugin);
    }
  }

  /** A handle of the same plugin name always agrees with the existing ones
      on m_init: filter_plugin_init_fn keeps all instances in agreement. */
  lemma FilterInitKeepsAgreement(s: BridgeState, config: Config, interpOk: bool, imported: Ptr, initResult: Ptr)
    requires Consistent(s.tables) && InstancesAgree(s.tables)
    ensures InstancesAgree(FilterInitSpec(s, config, interpOk, imported, initResult).state.tables)
  {
    var n := config.plugin;
    var t := s.tables;
    var t2 := FilterInitSpec(s, config, interpOk, imported, initResult).state.tables;
    if ReachesInit(s, n, interpOk, imported) && t.handles.Some? {
      var id := SelectedId(s, n);
      if Selection(t, n).Reuse? {
        ReusedUnreferenced(t, n);
      }
      assert Unreferenced(t, id);
      if initResult in t.handles.value {
        FilterInitCollision(s, config, interpOk, imported, initResult);
        RecordsAgree(t, t2);
      } else {
        FilterInitRegisters(s, config, interpOk, imported, initResult);
        var rec := t2.records[id];
        assert rec.name == n;
        assert t2.records == t.records[id := rec];
        if Selection(t, n).Load? && HasNamedHandle(t, n) {
          InheritedFromNamed(t, n);
        }
        assert forall h :: Named(t, h, n) ==> InitOf(t, h) == rec.init;
        InsertAgrees(t, t2, initResult, id);
      }
    }
  }

  /** Records that handles refer to are kept, with their names and m_init:
      agreement carries over. */
  lemma RecordsAgree(t: Tables, t2: Tables)
    requires Consistent(t) && InstancesAgree(t) && t2.handles == t.handles
    requires t.handles.Some? ==> forall h :: h in t.handles.value ==>
      var id := t.handles.value[h].id;
      id in t2.records && t2.records[id].name == t.records[id].name && t2.records[id].init == t.records[id].init
    ensures InstancesAgree(t2)
  {
    assert forall h, n :: Named(t2, h, n) ==> Named(t, h, n) && InitOf(t2, h) == InitOf(t, h);
  }

  /** Registering a new key for an unreferenced record whose m_init agrees
      with every handle of its name keeps agreement. */
  lemma InsertAgrees(t: Tables, t2: Tables, key: Ptr, id: nat)
    requires Consistent(t) && InstancesAgree(t) && t.handles.Some? && key !in t.handles.value
    requires Unreferenced(t, id) && id in t2.records
    requires t2.handles == Some(t.handles.value[key := Ref(id)])
    requires t2.records == t.records[id := t2.records[id]]
    requires forall h :: Named(t, h, t2.records[id].name) ==> InitOf(t, h) == t2.records[id].init
    ensures InstancesAgree(t2)
  {
    forall h, n | h != key && Named(t2, h, n)
      ensures Named(t, h, n) && InitOf(t2, h) == InitOf(t, h)
    {
      assert t.handles.value[h] != Ref(id);
    }
  }

  // ---------------------------------------------------------------------
  // filter_plugin_init_fn, two calls

  /** Once a handle of plugin `n` is registered, every later
      filter_plugin_init_fn for `n` loads the module afresh: it inherits m_init
      and, when Py_NewInterpreter succeeds, creates a new interpreter. */
  lemma SecondInstanceLoadsFresh(s: BridgeState, config: Config, interpOk: bool, imported: Ptr, initResult: Ptr,
                                 config2: Config, imported2: Ptr, initResult2: Ptr)
    requires Consistent(s.tables) && s.tables.handles.Some?
    requires ReachesInit(s, config.plugin, interpOk, imported) && initResult !in s.tables.handles.value
    requires config2.plugin == config.plugin
    ensures var s1 := FilterInitSpec(s, config, interpOk, imported, initResult).state;
      && Selection(s1.tables, config.plugin).Load?
      && FilterInitSpec(s1, config2, true, imported2, initResult2).state.interpreters == s1.interpreters + 1
  {
    FilterInitRegisters(s, config, interpOk, imported, initResult);
  }

  /** A NULL key in pythonHandles, left by a plugin_init that raised, makes
      every later filter_plugin_init_fn whose plugin_init raises return NULL
      without registering anything. */
  lemma NullKeyBlocksFailedInits(s: BridgeState, config: Config, interpOk: bool, imported: Ptr)
    requires s.tables.handles.Some? && NULL in s.tables.handles.value
    ensures var st := FilterInitSpec(s, config, interpOk, imported, NULL);
      st.result == NULL && st.state.tables.handles == s.tables.handles
  {
  }

  // ---------------------------------------------------------------------
  // PluginInterfaceInit

  /** PluginInterfaceInit returns the imported module exactly when it inserts
      it under a new name; a record is allocated whenever the import succeeds
      with a pythonModules map; a new interpreter is created only when the
      runtime was already initialised; pythonHandles is not touched. */
  lemma InterfaceInitRegistration(s: BridgeState, name: string, interpOk: bool, imported: Ptr)
    ensures var st := InterfaceInitSpec(s, name, interpOk, imported);
      var t := st.state.tables;
      var created := (!s.runtimeInitialized || interpOk) && imported != NULL && s.tables.modules.Some?;
      && (st.result != NULL <==> created && name !in s.tables.modules.value)
      && (st.result != NULL ==>
            st.result == imported && t.modules == Some(s.tables.modules.value[name := Ref(s.tables.nextRecord)]))
      && (created ==>
            t.records == s.tables.records[s.tables.nextRecord := PythonModule(imported, !s.runtimeInitialized, name,
                           if s.runtimeInitialized then Some(s.interpreters) else None, "")])
      && (!created ==> t == s.tables)
      && (st.result == NULL ==> t.modules == s.tables.modules)
      && t.handles == s.tables.handles
      && t.nextRecord == s.tables.nextRecord + (if created then 1 else 0)
      && st.state.interpreters == s.interpreters + (if s.runtimeInitialized && interpOk then 1 else 0)
      && st.state.runtimeInitialized && st.state.pluginName == name
  {
  }

  /** When the name is already in pythonModules, the record allocated for the
      new import is referenced by neither map: it is leaked. */
  lemma InterfaceInitLeaksDuplicate(s: BridgeState, name: string, interpOk: bool, imported: Ptr)
    requires Consistent(s.tables) && s.tables.modules.Some? && name in s.tables.modules.value
    requires (!s.runtimeInitialized || interpOk) && imported != NULL
    ensures var t := InterfaceInitSpec(s, name, interpOk, imported).state.tables;
      var id := s.tables.nextRecord;
      && id in t.records && Unreferenced(t, id)
      && forall k :: k in t.modules.value ==> t.modules.value[k] != Ref(id)
  {
    var t := InterfaceInitSpec(s, name, interpOk, imported).state.tables;
    assert t.modules == s.tables.modules;
  }

  /** PluginInterfaceInit keeps all instances in agreement on m_init. */
  lemma InterfaceInitKeepsAgreement(s: BridgeState, name: string, interpOk: bool, imported: Ptr)
    requires Consistent(s.tables) && InstancesAgree(s.tables)
    ensures InstancesAgree(InterfaceInitSpec(s, name, interpOk, imported).state.tables)
  {
    RecordsAgree(s.tables, InterfaceInitSpec(s, name, interpOk, imported).state.tables);
  }

  /** After PluginInterfaceInit has registered plugin `name`, the first
      filter_plugin_init_fn for it reuses that record, with the m_init of that
      load, and creates no interpreter. */
  lemma InterfaceInitThenFilterInitReuses(s: BridgeState, name: string, interpOk: bool, imported: Ptr,
                                          config: Config, interpOk2: bool, imported2: Ptr, initResult: Ptr)
    requires Consistent(s.tables) && s.tables.handles.Some? && !HasNamedHandle(s.tables, name)
    requires InterfaceInitSpec(s, name, interpOk, imported).result != NULL
    requires config.plugin == name
    ensures var s1 := InterfaceInitSpec(s, name, interpOk, imported).state;
      && Selection(s1.tables, name) == Reuse(s.tables.nextRecord)
      && s1.tables.records[s.tables.nextRecord].init == !s.runtimeInitialized
      && FilterInitSpec(s1, config, interpOk2, imported2, initResult).state.interpreters == s1.interpreters
  {
    var t1 := InterfaceInitSpec(s, name, interpOk, imported).state.tables;
    forall h | Named(t1, h, name)
      ensures Named(s.tables, h, name)
    {
      assert t1.handles.value[h].id < s.tables.nextRecord;
    }
  }

  // ---------------------------------------------------------------------
  // filter_plugin_ingest_fn and filter_plugin_reconfigure_fn

  /** Once past its checks, ingest appends one tuple per reading, in reading
      order, carrying the filter's category, the reading's asset and the
      "Filter" event (when there is a tracker), and deletes the batch exactly
      once; otherwise nothing changes. The tables are never touched. */
  lemma IngestEffect(s: BridgeState, handle: Ptr, data: ReadingSet, attr: Attr)
    requires Consistent(s.tables)
    ensures var s2 := IngestSpec(s, handle, data, attr);
      && s2.tables == s.tables && s2.dicts == s.dicts
      && (Resolves(s.tables, handle) && attr == Callable ==>
            && s2.deleted == s.deleted + multiset{data.id}
            && |s2.tracked| == |s.tracked| + (if s.trackerPresent then |data.readings| else 0)
            && s2.tracked[..|s.tracked|] == s.tracked
            && (s.trackerPresent ==> forall i :: 0 <= i < |data.readings| ==>
                  s2.tracked[|s.tracked| + i] == TrackingTuple(CategoryOf(s.tables, handle), data.readings[i].asset, FilterEvent)))
      && (!(Resolves(s.tables, handle) && attr == Callable) ==> s2 == s)
  {
  }

  /** Reconfiguration replaces the contents of the handle's dict with those
      of the returned dict, when both are dicts, except that a handle returned
      as its own result ends up empty; it touches no other dict and neither
      map: the handle keeps its key and its record. */
  lemma ReconfigureEffect(s: BridgeState, handle: Ptr, attr: Attr, result: CallOutcome)
    ensures var s2 := ReconfigureSpec(s, handle, attr, result);
      && s2.tables == s.tables
      && s2.dicts.Keys == s.dicts.Keys
      && (forall h :: h in s.dicts && h != handle ==> s2.dicts[h] == s.dicts[h])
      && (ReconfigureApplies(s, handle, attr, result) ==>
            s2.dicts[handle] ==
              if result.obj == handle then map[] else Viewed(s.dicts, result.obj, result.shape).items)
      && (!ReconfigureApplies(s, handle, attr, result) ==> s2 == s)
  {
  }

  /** A plugin_reconfigure that returns the handle itself empties it, whatever
      it held. */
  lemma ReconfigureReturningHandleEmptiesIt(s: BridgeState, handle: Ptr, shape: PyValue)
    requires Resolves(s.tables, handle) && handle in s.dicts
    ensures ReconfigureSpec(s, handle, Callable, Returned(handle, shape)).dicts[handle] == map[]
  {
  }

  /** Reconfiguring twice with the same outcome is reconfiguring once. */
  lemma ReconfigureIdempotent(s: BridgeState, handle: Ptr, attr: Attr, result: CallOutcome)
    ensures ReconfigureSpec(ReconfigureSpec(s, handle, attr, result), handle, attr, result)
         == ReconfigureSpec(s, handle, attr, result)
  {
  }
}
