/** The symbol table the plugin loader uses to find the filter entry points
    of a Python filter plugin (PluginInterfaceResolveSymbol). */
module Symbols {
  import opened Types

  /** The entry points the interface library exports. */
  datatype EntryPoint =
    | PluginInfo          // plugin_info_fn
    | FilterInit          // filter_plugin_init_fn
    | PluginShutdown      // plugin_shutdown_fn
    | FilterReconfigure   // filter_plugin_reconfigure_fn
    | FilterIngest        // filter_plugin_ingest_fn

  /** Severity of the log line written when no entry point is returned. */
  datatype Severity = Debug | Fatal

  /** A resolved entry point (None for NULL) and the log line written, if any. */
  datatype Resolution = Resolution(entry: Option<EntryPoint>, logged: Option<Severity>)

  /** The plugin symbol name under which each entry point is requested. */
  function SymbolName(e: EntryPoint): string
  {
    match e
    case PluginInfo => "plugin_info"
    case FilterInit => "plugin_init"
    case PluginShutdown => "plugin_shutdown"
    case FilterReconfigure => "plugin_reconfigure"
    case FilterIngest => "plugin_ingest"
  }

  /** The symbol names that resolve to an entry point. */
  const Supported: set<string> :=
    {"plugin_info", "plugin_init", "plugin_shutdown", "plugin_reconfigure", "plugin_ingest"}

  /** The symbol that is known but deliberately not supported by filters. */
  const Unsupported: string := "plugin_start"

  /** Resolves a plugin symbol name. Exactly the five supported names yield
      an entry point, and each yields the one whose name it is; "plugin_start"
      yields NULL with a debug line; any other name yields NULL with a fatal line. */
  function ResolveSymbol(sym: string): (r: Resolution)
    ensures r.entry.Some? <==> sym in Supported
    ensures r.entry.Some? ==> SymbolName(r.entry.value) == sym && r.logged.None?
    ensures sym == Unsupported ==> r == Resolution(None, Some(Debug))
    ensures sym !in Supported && sym != Unsupported ==> r == Resolution(None, Some(Fatal))
  {
    if sym == "plugin_info" then Resolution(Some(PluginInfo), None)
    else if sym == "plugin_init" then Resolution(Some(FilterInit), None)
    else if sym == "plugin_shutdown" then Resolution(Some(PluginShutdown), None)
    else if sym == "plugin_reconfigure" then Resolution(Some(FilterReconfigure), None)
    else if sym == "plugin_ingest" then Resolution(Some(FilterIngest), None)
    else if sym == Unsupported then Resolution(None, Some(Debug))
    else Resolution(None, Some(Fatal))
  }

  /** Every entry point is found again under its own symbol name, and two
      different entry points are never requested under the same name. */
  lemma ResolveSymbolName(e: EntryPoint, f: EntryPoint)
    ensures ResolveSymbol(SymbolName(e)) == Resolution(Some(e), None)
    ensures SymbolName(e) == SymbolName(f) ==> e == f
  {
  }
}
