/**
 * The plugin chooser: the selection rule that disables the plugin left
 * and enables the plugin chosen, and the list model behind the chooser.
 */
module ComboBox {
  import opened Lifecycle
  import opened Plugins

  /** A java.util.List of wrappers, which the model may share with its creator. */
  class PluginList {
    var items: seq<PluginWrapper>

    constructor (items: seq<PluginWrapper>)
      ensures this.items == items
    {
      this.items := items;
    }
  }

  /**
   * The collection handed to reloadPlugins: a List, which the model keeps
   * by reference, or any other collection, given by its iteration order.
   */
  datatype Collection = AList(list: PluginList) | Other(elements: seq<PluginWrapper>)

  function Elements(c: Collection): seq<PluginWrapper>
    reads if c.AList? then {c.list} else {}
  {
    match c
    case AList(l) => l.items
    case Other(es) => es
  }

  /** The comparison setSelectedItem makes, null-aware, on object identity. */
  predicate SelectionChanges(current: PluginWrapper?, anItem: PluginWrapper?)
  {
    (current != null && current != anItem) || (current == null && anItem != null)
  }

  /** The selection changes exactly when the new item is a different reference. */
  lemma SelectionChangesIffDifferent(current: PluginWrapper?, anItem: PluginWrapper?)
    ensures SelectionChanges(current, anItem) <==> current != anItem
  {
  }

  class Model {
    const plugins: PluginList
    var selectedItem: PluginWrapper?
    /** How many contents-changed notifications the model has fired. */
    ghost var changesFired: nat

    constructor (c: Collection)
      ensures c.AList? ==> plugins == c.list
      ensures c.Other? ==> fresh(plugins)
      ensures GetSize() == |Elements(c)|
      ensures forall i :: 0 <= i < GetSize() ==> GetElementAt(i) == Elements(c)[i]
      ensures selectedItem == null && changesFired == 0
    {
      match c {
        case AList(l) => plugins := l;
        case Other(es) => plugins := new PluginList(es);
      }
      selectedItem := null;
      changesFired := 0;
    }

    /** The size of the list the model reads, which is the caller's own List when one was passed. */
    function GetSize(): (n: int)
      reads this, plugins
      ensures n == |plugins.items|
    {
      |plugins.items|
    }

    function GetElementAt(index: int): (e: PluginWrapper)
      requires 0 <= index < GetSize()
      reads this, plugins
      ensures e == plugins.items[index]
    {
      plugins.items[index]
    }

    function GetSelectedItem(): (r: PluginWrapper?)
      reads this
      ensures r == selectedItem
    {
      selectedItem
    }

    /** Stores the item and fires one notification, but only when it differs from the current selection. */
    method SetSelectedItem(anItem: PluginWrapper?)
      modifies this`selectedItem, this`changesFired
      ensures GetSelectedItem() == anItem
      ensures changesFired == old(changesFired) + (if old(selectedItem) != anItem then 1 else 0)
    {
      if SelectionChanges(selectedItem, anItem) {
        selectedItem := anItem;
        changesFired := changesFired + 1;
      }
    }
  }

  class PluginComboBox {
    var lastPlugin: PluginWrapper?
    var model: Model?

    constructor ()
      ensures lastPlugin == null && model == null
    {
      lastPlugin := null;
      model := null;
    }

    /** The previous selection, as a frame. */
    function Previous(): set<PluginWrapper>
      reads this
    {
      if lastPlugin == null then {} else {lastPlugin}
    }

    /**
     * Installs a model over the collection and selects its first element
     * exactly when there is one.
     */
    method ReloadPlugins(c: Collection)
      modifies this`model
      ensures model != null && fresh(model)
      ensures c.AList? ==> model.plugins == c.list
      ensures model.GetSize() == |Elements(c)|
      ensures forall i :: 0 <= i < model.GetSize() ==> model.GetElementAt(i) == Elements(c)[i]
      ensures model.GetSelectedItem() == (if |Elements(c)| != 0 then Elements(c)[0] else null)
    {
      var m := new Model(c);
      model := m;
      if m.GetSize() != 0 {
        m.SetSelectedItem(m.GetElementAt(0));
      }
    }

    /**
     * Disables the previous selection when it is enabled, then makes the new
     * plugin the selection and enables it; failed hooks are swallowed.
     */
    method PluginStateChanged(newPlugin: PluginWrapper)
      modifies this`lastPlugin, Previous()`pluginEnabled, Previous()`hookCalls
      modifies newPlugin`pluginEnabled, newPlugin`hookCalls
      ensures lastPlugin == newPlugin
      ensures var p := old(lastPlugin);
        p != null && p != newPlugin ==>
          var d := Disable(old(p.Flags()), p.plugin.hooks);
          p.Flags() == d.after && p.hookCalls == old(p.hookCalls) + d.calls
      ensures var p := old(lastPlugin);
        var h := newPlugin.plugin.hooks;
        var before := if p == newPlugin then Disable(old(newPlugin.Flags()), h)
          else Transition(old(newPlugin.Flags()), [], true);
        var e := Enable(before.after, h);
        newPlugin.Flags() == e.after && newPlugin.hookCalls == old(newPlugin.hookCalls) + before.calls + e.calls
      ensures var p := old(lastPlugin);
        p != null && p != newPlugin && p.plugin.hooks.disableOk ==> !p.pluginEnabled
      ensures newPlugin.plugin.hooks.enableOk ==> newPlugin.pluginEnabled
    {
      var p := lastPlugin;
      if p != null && p.pluginEnabled {
        var disabled := p.DisablePlugin();
      }
      lastPlugin := newPlugin;
      var enabled := newPlugin.EnablePlugin();
    }
  }
}
