/** Values shared by the filter plugin bridge: pointers, module records,
    readings, asset tracking tuples and the Python-side outcomes the bridge
    only observes. */
module Types {

  datatype Option<T> = None | Some(value: T)

  /** Addresses of Python objects (plugin handles, imported modules).
      0 stands for NULL. */
  type Ptr = nat

  const NULL: Ptr := 0

  /** A `PythonModule*` as stored in pythonModules and pythonHandles:
      NULL, or the identity of a record in the bridge's record table.
      A `Ref` whose identity is no longer in the table is a dangling pointer. */
  datatype RecRef = Null | Ref(id: nat)

  /** One `PythonModule` record: the imported shim module (m_module), whether
      the load that created it also initialised the Python runtime (m_init),
      the plugin name (m_name), the sub-interpreter it was imported into
      (m_tState, None for the main interpreter) and the configuration
      category name used for asset tracking. */
  datatype PythonModule = PythonModule(
    code: Ptr,
    init: bool,
    name: string,
    interp: Option<nat>,
    category: string)

  /** The two things the bridge reads from a filter's ConfigCategory:
      the value of its "plugin" item and the category's own name. */
  datatype Config = Config(plugin: string, name: string)

  /** A reading, reduced to the asset name it carries. */
  datatype Reading = Reading(asset: string)

  /** A ReadingSet handed to ingest: an identity (its address) and its readings. */
  datatype ReadingSet = ReadingSet(id: nat, readings: seq<Reading>)

  /** An asset tracking tuple: (service or category name, asset name, event). */
  datatype TrackingTuple = TrackingTuple(service: string, asset: string, event: string)

  /** The event name ingest records for every reading routed to a filter. */
  const FilterEvent: string := "Filter"

  /** What `PyObject_GetAttrString` and `PyCallable_Check` find for an
      entry point of the loaded module. */
  datatype Attr = Missing | NotCallable | Callable

  /** The shape of a Python object, as far as the bridge looks at it:
      a dict with its items, or anything else. */
  datatype PyValue = Dict(items: map<string, string>) | NonDict

  /** The outcome of calling into Python: an exception was raised (NULL
      result) or the object at `obj` was returned; a NULL `obj` is a
      failed call too. `shape` is what that
      object is when it is not one of the dicts the bridge already knows,
      for instance a freshly created one. */
  datatype CallOutcome = Raised | Returned(obj: Ptr, shape: PyValue)
}
