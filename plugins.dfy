/**
 * PluginWrapper: the per-plugin record holding the plugin, the metadata of its
 * optional ConverterPluginDetails annotation and the two lifecycle flags,
 * plus the listener list it shares with the handler that created it.
 */
module Plugins {
  import opened Options
  import opened Lifecycle
  import JavaStrings

  /** The values of a ConverterPluginDetails annotation. */
  datatype Details = Details(authorName: string, authorEmail: string, pluginName: string,
                             pluginDescription: string, pluginVersion: string, pluginWebsite: string)

  /**
   * A discovered ConverterPlugin instance as the application sees it: the
   * name of its class, what its toString() returns, the annotation on its
   * class if any, and how its hooks behave.
   */
  datatype Plugin = Plugin(className: string, display: string, annotation: Option<Details>, hooks: Hooks)

  /**
   * The six metadata fields a wrapper takes from its plugin: those of the
   * annotation, or, without one, empty fields and the name toString() gives.
   */
  function MetadataOf(p: Plugin): Details
  {
    match p.annotation
    case Some(d) => d
    case None => Details("", "", p.display, "", "", "")
  }

  /** The name a plugin is registered, compared and shown under. */
  function NameOf(p: Plugin): string
  {
    MetadataOf(p).pluginName
  }

  /** A PluginListener, identified by reference. */
  datatype Listener = Listener(id: nat)

  /** The four callbacks of PluginListener. */
  datatype EventKind = Added | Removed | Initialized | Destroyed

  /** One callback made on one listener about one wrapper. */
  datatype Event = Event(listener: Listener, kind: EventKind, plugin: PluginWrapper)

  /** The callbacks of one notification pass: one per listener, in list order. */
  function Fanout(ls: seq<Listener>, kind: EventKind, w: PluginWrapper): (es: seq<Event>)
    ensures |es| == |ls|
    ensures forall k :: 0 <= k < |ls| ==> es[k] == Event(ls[k], kind, w)
  {
    if ls == [] then [] else Fanout(ls[..|ls| - 1], kind, w) + [Event(ls[|ls| - 1], kind, w)]
  }

  /**
   * The handler's listener list. A wrapper holds a read-only view of the same
   * list, so it sees listeners added after it was created. `delivered`
   * records every callback made on the listeners of this list.
   */
  class ListenerList {
    var listeners: seq<Listener>
    var delivered: seq<Event>

    constructor ()
      ensures listeners == [] && delivered == []
    {
      listeners := [];
      delivered := [];
    }

    /** The for-each loop that calls one callback on every listener. */
    method Notify(kind: EventKind, w: PluginWrapper)
      modifies this`delivered
      ensures delivered == old(delivered) + Fanout(listeners, kind, w)
    {
      var i := 0;
      while i < |listeners|
        invariant 0 <= i <= |listeners|
        invariant delivered == old(delivered) + Fanout(listeners[..i], kind, w)
      {
        assert listeners[..i + 1][..i] == listeners[..i];
        delivered := delivered + [Event(listeners[i], kind, w)];
        i := i + 1;
      }
      assert listeners[..i] == listeners;
    }
  }

  class PluginWrapper {
    const plugin: Plugin
    const authorName: string
    const authorEmail: string
    const pluginName: string
    const pluginDescription: string
    const pluginVersion: string
    const pluginWebsite: string

    var pluginInitialized: bool
    var pluginEnabled: bool

    /** The listener list to notify on initialize and destroy; null until set. */
    var list: ListenerList?

    /** Every hook this wrapper has called on its plugin, in order. */
    ghost var hookCalls: seq<Hook>

    /** Takes the six metadata fields from the annotation, or only the name, from toString(), without one. */
    constructor (plugin: Plugin)
      ensures this.plugin == plugin
      ensures Metadata() == MetadataOf(plugin)
      ensures pluginName == NameOf(plugin)
      ensures !pluginInitialized && !pluginEnabled && list == null && hookCalls == []
    {
      this.plugin := plugin;
      match plugin.annotation {
        case Some(d) =>
          authorName, authorEmail, pluginName := d.authorName, d.authorEmail, d.pluginName;
          pluginDescription, pluginVersion, pluginWebsite := d.pluginDescription, d.pluginVersion, d.pluginWebsite;
        case None =>
          authorName, authorEmail, pluginName := "", "", plugin.display;
          pluginDescription, pluginVersion, pluginWebsite := "", "", "";
      }
      pluginInitialized, pluginEnabled := false, false;
      list := null;
      hookCalls := [];
    }

    /** The six metadata fields, as the annotation lays them out. */
    function Metadata(): Details
    {
      Details(authorName, authorEmail, pluginName, pluginDescription, pluginVersion, pluginWebsite)
    }

    function Flags(): Flags
      reads this
    {
      Lifecycle.Flags(pluginInitialized, pluginEnabled)
    }

    /** The listener list as a frame: empty while none is set. */
    function Notified(): set<ListenerList>
      reads this
    {
      if list == null then {} else {list}
    }

    /** Calls one hook of the plugin. */
    method Call(k: Hook) returns (ok: bool)
      modifies this`hookCalls
      ensures hookCalls == old(hookCalls) + [k]
      ensures ok == Succeeds(plugin.hooks, k)
    {
      hookCalls := hookCalls + [k];
      ok := Succeeds(plugin.hooks, k);
    }

    /**
     * Calls the init hook unless already initialized; on success sets the flag
     * and tells every listener, in list order. The source's "plugin == null"
     * guard cannot fire: the constructor already dereferences the plugin.
     */
    method InitializePlugin() returns (ok: bool)
      modifies this`pluginInitialized, this`hookCalls, Notified()`delivered
      ensures var t := Initialize(old(Flags()), plugin.hooks);
        Flags() == t.after && hookCalls == old(hookCalls) + t.calls && ok == t.ok
      ensures list != null ==>
        list.delivered == old(list.delivered) +
          (if !old(pluginInitialized) && pluginInitialized then Fanout(list.listeners, Initialized, this) else [])
    {
      ok := true;
      if !pluginInitialized {
        ok := Call(InitHook);
        if !ok {
          return;
        }
        pluginInitialized := true;
        if list != null {
          list.Notify(Initialized, this);
        }
      }
    }

    /**
     * Calls the destroy hook when initialized; on success clears the flag and
     * tells every listener. The plugin is kept and pluginEnabled is left as it is.
     */
    method DestroyPlugin() returns (ok: bool)
      modifies this`pluginInitialized, this`hookCalls, Notified()`delivered
      ensures var t := Destroy(old(Flags()), plugin.hooks);
        Flags() == t.after && hookCalls == old(hookCalls) + t.calls && ok == t.ok
      ensures list != null ==>
        list.delivered == old(list.delivered) +
          (if old(pluginInitialized) && !pluginInitialized then Fanout(list.listeners, Destroyed, this) else [])
    {
      ok := true;
      if pluginInitialized {
        ok := Call(DestroyHook);
        if !ok {
          return;
        }
        pluginInitialized := false;
        if list != null {
          list.Notify(Destroyed, this);
        }
      }
    }

    /** Calls the enable hook when not enabled; does not look at initialization. */
    method EnablePlugin() returns (ok: bool)
      modifies this`pluginEnabled, this`hookCalls
      ensures var t := Enable(old(Flags()), plugin.hooks);
        Flags() == t.after && hookCalls == old(hookCalls) + t.calls && ok == t.ok
    {
      ok := true;
      if !pluginEnabled {
        ok := Call(EnableHook);
        if !ok {
          return;
        }
        pluginEnabled := true;
      }
    }

    /** Calls the disable hook when enabled. */
    method DisablePlugin() returns (ok: bool)
      modifies this`pluginEnabled, this`hookCalls
      ensures var t := Disable(old(Flags()), plugin.hooks);
        Flags() == t.after && hookCalls == old(hookCalls) + t.calls && ok == t.ok
    {
      ok := true;
      if pluginEnabled {
        ok := Call(DisableHook);
        if !ok {
          return;
        }
        pluginEnabled := false;
      }
    }

    /** Orders wrappers by plugin name alone; zero exactly for equal names. */
    function CompareTo(o: PluginWrapper): (r: int)
      ensures r == 0 <==> pluginName == o.pluginName
    {
      JavaStrings.CompareTo(pluginName, o.pluginName)
    }

    /** A wrapper displays as its plugin name. */
    function ToString(): (s: string)
      ensures s == pluginName
    {
      pluginName
    }

    /** Hands the wrapper a (read-only) reference to a listener list. */
    method SetPluginListenerList(l: ListenerList?)
      modifies this`list
      ensures list == l
    {
      list := l;
    }
  }
}
