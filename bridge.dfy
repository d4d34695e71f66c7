/** The process-wide state of the Python filter plugin interface and its
    four stateful entry points: PluginInterfaceInit, filter_plugin_init_fn,
    filter_plugin_ingest_fn and filter_plugin_reconfigure_fn. Each entry point
    is proved to take the state to what the matching function of Registry
    says and to give back every GIL acquisition it makes. */
module Bridge {
  import opened Types
  import opened Registry

  class PluginBridge {
    /** pythonModules: plugin name -> module record (None: the map pointer is NULL). */
    var modules: Option<map<string, RecRef>>
    /** pythonHandles: plugin handle -> module record (None: the map pointer is NULL). */
    var handles: Option<map<Ptr, RecRef>>
    /** The PythonModule records currently allocated, by identity. */
    var records: map<nat, PythonModule>
    /** The identity the next allocated record receives. */
    var nextRecord: nat
    /** Contents of the Python objects that are dicts, by address. */
    var dicts: map<Ptr, map<string, string>>
    /** Py_IsInitialized(). */
    var runtimeInitialized: bool
    /** How many sub-interpreters Py_NewInterpreter has created. */
    var interpreters: nat
    /** How many times the GIL is currently held. */
    var gil: nat
    /** The sub-interpreter whose thread state is current, if one was swapped in. */
    var current: Option<nat>
    /** gPluginName. */
    var pluginName: string
    /** Whether AssetTracker::getAssetTracker() returns a tracker. */
    var trackerPresent: bool
    /** The asset tracking tuples added so far, in order. */
    var tracked: seq<TrackingTuple>
    /** The ReadingSets deleted so far, with multiplicity. */
    var deleted: multiset<nat>

    /** The two maps and the records, as a value. */
    ghost function Maps(): Tables
      reads this`modules, this`handles, this`records, this`nextRecord
    {
      Tables(modules, handles, records, nextRecord)
    }

    /** The fields other than the GIL, as a value. */
    ghost function State(): BridgeState
      reads this`modules, this`handles, this`records, this`nextRecord, this`dicts,
            this`runtimeInitialized, this`interpreters, this`pluginName,
            this`trackerPresent, this`tracked, this`deleted
    {
      BridgeState(Maps(), dicts, runtimeInitialized, interpreters, pluginName,
                  trackerPresent, tracked, deleted)
    }

    /** Between calls no sub-interpreter is swapped in and the tables are consistent. */
    ghost predicate Valid()
      reads this`current, this`modules, this`handles, this`records, this`nextRecord
    {
      current.None? && Consistent(Maps())
    }

    /** The state at library load: both maps allocated and empty, no record,
        Python not initialised. Which Python objects are dicts, and whether an
        asset tracker exists, belong to the rest of the process. */
    constructor (trackerPresent: bool, dicts: map<Ptr, map<string, string>>)
      ensures Valid() && gil == 0
      ensures State() == BridgeState(Tables(Some(map[]), Some(map[]), map[], 0), dicts, false, 0, "",
                                     trackerPresent, [], multiset{})
    {
      modules := Some(map[]);
      handles := Some(map[]);
      records := map[];
      nextRecord := 0;
      this.dicts := dicts;
      runtimeInitialized := false;
      interpreters := 0;
      gil := 0;
      current := None;
      pluginName := "";
      this.trackerPresent := trackerPresent;
      tracked := [];
      deleted := multiset{};
    }

    /** PyGILState_Ensure. */
    method GilEnsure()
      modifies this`gil
      ensures gil == old(gil) + 1
    {
      gil := gil + 1;
    }

    /** PyGILState_Release(state): only valid on the thread state that
        PyGILState_Ensure made current, never on a new sub-interpreter's. */
    method GilStateRelease()
      requires gil > 0 && current.None?
      modifies this`gil
      ensures gil == old(gil) - 1
    {
      gil := gil - 1;
    }

    /** Py_NewInterpreter, called with the GIL held: on success the new
        interpreter's thread state becomes current. */
    method NewInterpreter(ok: bool) returns (t: Option<nat>)
      requires gil > 0 && current.None?
      modifies this`interpreters, this`current
      ensures ok ==> t == Some(old(interpreters)) && interpreters == old(interpreters) + 1 && current == t
      ensures !ok ==> t.None? && interpreters == old(interpreters) && current.None?
    {
      if ok {
        t := Some(interpreters);
        interpreters := interpreters + 1;
        current := t;
      } else {
        t := None;
      }
    }

    /** PyEval_ReleaseThread(t): releases the GIL held through sub-interpreter `t`. */
    method ReleaseThread(t: nat)
      requires gil > 0 && current == Some(t)
      modifies this`gil, this`current
      ensures gil == old(gil) - 1 && current.None?
    {
      gil := gil - 1;
      current := None;
    }

    /** The loop over pythonHandles in filter_plugin_init_fn: visits handles in
        key order and stops at the first whose module is named `n`, taking
        that module's m_init. */
    method FindHandleByName(n: string) returns (found: bool, initState: bool)
      requires Valid() && handles.Some?
      ensures found <==> HasNamedHandle(Maps(), n)
      ensures initState == InheritedInit(Maps(), n)
    {
      ghost var s := Maps();
      var hs := handles.value;
      var remaining := hs.Keys;
      found, initState := false, false;
      while remaining != {}
        invariant remaining <= hs.Keys
        invariant forall h :: h in hs.Keys - remaining ==> !Named(s, h, n)
        invariant forall h, h' :: h in hs.Keys - remaining && h' in remaining ==> h < h'
        decreases remaining
      {
        // the least remaining key exists: the witness for the choice below
        assert MinOf(remaining) in remaining;
        var h :| h in remaining && forall j :: j in remaining ==> h <= j;
        var rec := hs[h];
        if records[rec.id].name == n {
          assert Named(s, h, n);
          ghost var ks := set k | k in hs && Named(s, k, n);
          assert h in ks;
          assert forall k :: k in ks ==> h <= k;
          assert MinOf(ks) == h;
          found, initState := true, records[rec.id].init;
          return;
        }
        ghost var visited := hs.Keys - remaining;
        remaining := remaining - {h};
        assert hs.Keys - remaining == visited + {h};
      }
      assert forall h :: !Named(s, h, n);
    }

    /** The first half of filter_plugin_init_fn, up to taking the GIL: whether
        pythonModules exists, whether a handle of the same plugin exists
        (then a new interpreter, with that handle's m_init), else whether the
        pythonModules entry can be reused. */
    method SelectModule(n: string) returns (plan: Plan)
      requires Valid()
      requires modules.Some? ==> handles.Some? && (!HasNamedHandle(Maps(), n) ==> ModuleEntryLive(Maps(), n))
      ensures plan == Selection(Maps(), n)
    {
      if modules.None? {
        return NoModules;
      }
      var loadModule, pythonInitState := FindHandleByName(n);
      if loadModule {
        return Load(pythonInitState);
      }
      if n !in modules.value {
        return Load(false);
      }
      var entry := modules.value[n];
      if entry.Ref? && records[entry.id].code != NULL {
        return Reuse(entry.id);
      }
      return Broken;
    }

    /** `new PythonModule(rec)`: the record goes under the next identity. */
    method AllocateRecord(rec: PythonModule) returns (id: nat)
      modifies this`records, this`nextRecord
      ensures id == old(nextRecord) && Maps() == Allocated(old(Maps()), rec)
    {
      id := nextRecord;
      records := records[id := rec];
      nextRecord := nextRecord + 1;
    }

    /** PythonModule::setCategoryName on the live record `id`. */
    method SetCategory(id: nat, category: string)
      requires id in records
      modifies this`records
      ensures Maps() == Categorised(old(Maps()), id, category)
    {
      records := records[id := records[id].(category := category)];
    }

    /** The insertion of plugin_init's result into pythonHandles; on a
        collision the module record is deleted and NULL is returned. */
    method RegisterResult(key: Ptr, id: nat) returns (r: Ptr)
      modifies this`handles, this`records
      ensures (Maps(), r) == Register(old(Maps()), key, id)
    {
      r := key;
      if handles.Some? {
        if key !in handles.value {
          handles := Some(handles.value[key := Ref(id)]);
        } else {
          records := records - {id};
          r := NULL;
        }
      }
    }

    /** The import step of PluginInterfaceInit: allocates the record for
        the imported module and inserts it into pythonModules under `name`
        unless that name is taken; the returned module is NULL when the
        import failed or the record was not inserted. */
    method ImportModule(name: string, rec: PythonModule, imported: Ptr) returns (r: Ptr)
      modifies this`modules, this`records, this`nextRecord
      ensures (Maps(), r) == RegisterModule(old(Maps()), name, rec, imported)
    {
      r := imported;
      if r != NULL {
        var inserted := false;
        if modules.Some? {
          var id := AllocateRecord(rec);
          if name !in modules.value {
            modules := Some(modules.value[name := Ref(id)]);
            inserted := true;
          }
        }
        if !inserted {
          // The record allocated above is not deleted: the cleanup deletes the
          // outer, still NULL, newModule.
          r := NULL;
        }
      }
    }

    /** PluginInterfaceInit: initialises the Python runtime when it is not yet
        initialised (otherwise starts a new interpreter), imports the filter
        shim and registers it in pythonModules under `name`. `interpOk` is
        whether Py_NewInterpreter succeeds and `imported` the module
        PyImport_ImportModule returns (NULL when the import fails). */
    method PluginInterfaceInit(name: string, interpOk: bool, imported: Ptr) returns (r: Ptr)
      requires Valid()
      modifies this`modules, this`records, this`nextRecord, this`runtimeInitialized,
               this`interpreters, this`gil, this`current, this`pluginName
      ensures Valid() && gil == old(gil)
      ensures var st := InterfaceInitSpec(old(State()), name, interpOk, imported);
              && Maps() == st.state.tables && r == st.result
              && runtimeInitialized == st.state.runtimeInitialized
              && interpreters == st.state.interpreters && pluginName == st.state.pluginName
    {
      ghost var s := State();
      var initPython := false;
      pluginName := name;
      if !runtimeInitialized {
        // Py_Initialize takes the GIL and PyEval_SaveThread gives it back.
        runtimeInitialized := true;
        initPython := true;
      }
      var newInterp: Option<nat> := None;
      GilEnsure();
      if !initPython {
        newInterp := NewInterpreter(interpOk);
        if newInterp.None? {
          GilStateRelease();
          return NULL;
        }
      }
      var pModule := ImportModule(name, PythonModule(imported, initPython, name, newInterp, ""), imported);
      if !initPython {
        ReleaseThread(newInterp.value);
      } else {
        GilStateRelease();
      }
      r := pModule;
      InterfaceInitKeepsConsistent(s, name, interpOk, imported);
    }

    /** filter_plugin_init_fn: selects or loads the module record for the
        configured plugin, calls its plugin_init and registers the returned
        object as a handle. `interpOk` is whether Py_NewInterpreter succeeds,
        `imported` the module the import returns (NULL on failure) and
        `initResult` the object plugin_init returns (NULL when it raises). */
    method FilterPluginInit(config: Config, interpOk: bool, imported: Ptr, initResult: Ptr) returns (r: Ptr)
      requires Valid()
      requires modules.Some? ==> handles.Some? && (!HasNamedHandle(Maps(), config.plugin) ==> ModuleEntryLive(Maps(), config.plugin))
      modifies this`handles, this`records, this`nextRecord, this`interpreters, this`gil, this`current
      ensures Valid() && gil == old(gil)
      ensures var st := FilterInitSpec(old(State()), config, interpOk, imported, initResult);
              Maps() == st.state.tables && interpreters == st.state.interpreters && r == st.result
    {
      FilterInitKeepsConsistent(State(), config, interpOk, imported, initResult);
      var plan := SelectModule(config.plugin);
      if plan.NoModules? || plan.Broken? {
        return NULL;
      }
      if plan.Reuse? {
        r := ReuseAndRegister(plan.id, config, initResult);
      } else {
        r := LoadAndRegister(plan.init, config, interpOk, imported, initResult);
      }
    }

    /** filter_plugin_init_fn when it reuses the pythonModules record `id`:
        takes the GIL, sets the category name, registers plugin_init's result
        and gives the GIL back with PyGILState_Release. */
    method ReuseAndRegister(id: nat, config: Config, initResult: Ptr) returns (r: Ptr)
      requires current.None? && id in records
      modifies this`handles, this`records, this`gil
      ensures gil == old(gil)
      ensures var st := ProceedReuse(old(State()), id, config, initResult);
              Maps() == st.state.tables && r == st.result
    {
      GilEnsure();
      SetCategory(id, config.name);
      // plugin_init(config JSON, output handle capsule, output stream capsule)
      r := RegisterResult(initResult, id);
      GilStateRelease();
    }

    /** filter_plugin_init_fn when it loads the module afresh: takes the GIL,
        starts a new interpreter, imports the module, sets the category name,
        registers plugin_init's result and releases the new interpreter's
        thread state. */
    method LoadAndRegister(init: bool, config: Config, interpOk: bool, imported: Ptr, initResult: Ptr) returns (r: Ptr)
      requires current.None?
      modifies this`handles, this`records, this`nextRecord, this`interpreters, this`gil, this`current
      ensures current.None? && gil == old(gil)
      ensures var st := ProceedLoad(old(State()), init, config, interpOk, imported, initResult);
              Maps() == st.state.tables && interpreters == st.state.interpreters && r == st.result
    {
      GilEnsure();
      var newInterp := NewInterpreter(interpOk);
      if newInterp.None? {
        GilStateRelease();
        return NULL;
      }
      if imported == NULL {
        ReleaseThread(newInterp.value);
        return NULL;
      }
      var id := AllocateRecord(PythonModule(imported, init, config.plugin, newInterp, ""));
      SetCategory(id, config.name);
      // plugin_init(config JSON, output handle capsule, output stream capsule)
      r := RegisterResult(initResult, id);
      ReleaseThread(newInterp.value);
    }

    /** filter_plugin_ingest_fn: checks the handle and the plugin_ingest entry
        point, records one asset tracking tuple per reading, calls
        plugin_ingest and deletes the batch. `attr` is what the module offers
        as plugin_ingest; `callRaised` whether the call raises, which changes
        nothing but the log. */
    method FilterPluginIngest(handle: Ptr, data: ReadingSet, attr: Attr, callRaised: bool)
      requires Valid()
      modifies this`gil, this`tracked, this`deleted
      ensures Valid() && gil == old(gil)
      ensures var st := IngestSpec(old(State()), handle, data, attr);
              tracked == st.tracked && deleted == st.deleted
    {
      if handle == NULL {
        return;
      }
      if handles.None? {
        return;
      }
      if handle !in handles.value || handles.value[handle].Null? {
        return;
      }
      var rec := records[handles.value[handle].id];
      GilEnsure();
      if attr != Callable {
        GilStateRelease();
        return;
      }
      var i := 0;
      while i < |data.readings|
        invariant 0 <= i <= |data.readings|
        invariant gil == old(gil) + 1 && deleted == old(deleted)
        invariant tracked == old(tracked) + (if trackerPresent then TrackedFor(rec.category, data.readings[..i]) else [])
      {
        if trackerPresent {
          tracked := tracked + [TrackingTuple(rec.category, data.readings[i].asset, FilterEvent)];
        }
        i := i + 1;
      }
      assert data.readings[..i] == data.readings;
      // createReadingsList, then plugin_ingest(handle, readings): callRaised only reaches the log
      deleted := deleted + multiset{data.id};
      GilStateRelease();
    }

    /** filter_plugin_reconfigure_fn: calls plugin_reconfigure and, when both
        the handle and the returned object are dicts, clears the handle's dict
        and updates it from the result, keeping the handle itself. `attr` is
        what the module offers as plugin_reconfigure and `result` the outcome
        of the call with `config`, which only Python sees. */
    method FilterPluginReconfigure(handle: Ptr, config: string, attr: Attr, result: CallOutcome)
      requires Valid()
      modifies this`gil, this`dicts
      ensures Valid() && gil == old(gil)
      ensures dicts == ReconfigureSpec(old(State()), handle, attr, result).dicts
    {
      if handle == NULL {
        return;
      }
      if handles.None? {
        return;
      }
      if handle !in handles.value || handles.value[handle].Null? {
        return;
      }
      GilEnsure();
      if attr != Callable {
        GilStateRelease();
        return;
      }
      // plugin_reconfigure(handle, config)
      if result.Returned? && result.obj != NULL {
        if handle in dicts && Viewed(dicts, result.obj, result.shape).Dict? {
          // PyDict_Clear(handle)
          dicts := dicts[handle := map[]];
          // PyDict_Update(handle, result), reading the result after the clear
          dicts := dicts[handle := Viewed(dicts, result.obj, result.shape).items];
        }
      }
      GilStateRelease();
    }
  }
}
