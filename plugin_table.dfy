/**
 * The plugin configuration panel: a listener that mirrors the registry
 * into a list, and the table model that shows one row per plugin with the
 * "Enabled?" checkbox driving initialization and teardown.
 */
module PluginTable {
  import opened Options
  import opened Lifecycle
  import opened Plugins
  import Handler

  /** The position of the first occurrence of w. */
  function IndexOf(s: seq<PluginWrapper>, w: PluginWrapper): (i: nat)
    requires w in s
    ensures i < |s| && s[i] == w && w !in s[..i]
  {
    if s[0] == w then 0
    else
      var i := IndexOf(s[1..], w);
      assert s[..i + 1] == [s[0]] + s[1..][..i];
      i + 1
  }

  /** List.remove(Object): drops the first element equal to w, if there is one. */
  function RemoveFirst(s: seq<PluginWrapper>, w: PluginWrapper): (r: seq<PluginWrapper>)
    ensures w !in s ==> r == s
    ensures w in s ==> r == s[..IndexOf(s, w)] + s[IndexOf(s, w) + 1..]
    ensures multiset(r) == multiset(s) - multiset{w}
  {
    if w in s then
      var i := IndexOf(s, w);
      assert s == s[..i] + [w] + s[i + 1..];
      s[..i] + s[i + 1..]
    else
      s
  }

  /** Removing a plugin right after appending it, when it was absent, restores the list. */
  lemma RemoveAfterAdd(s: seq<PluginWrapper>, w: PluginWrapper)
    requires w !in s
    ensures RemoveFirst(s + [w], w) == s
  {
    var t := s + [w];
    assert t[|s|] == w;
    assert t[..|s|] == s;
  }

  const ColumnNames: seq<string> := ["Name", "Description", "Version", "Website", "Author", "Email", "Enabled?"]

  /** The Java classes a column may declare. */
  datatype ColumnType = StringClass | BooleanClass

  /** What a cell may hold: a String, a Boolean or null. */
  datatype Cell = Text(text: string) | Flag(flag: bool) | Null

  /** The metadata field a column heading stands for; the checkbox heading stands for none. */
  function FieldNamed(heading: string, d: Details): Option<string>
  {
    if heading == "Name" then Some(d.pluginName)
    else if heading == "Description" then Some(d.pluginDescription)
    else if heading == "Version" then Some(d.pluginVersion)
    else if heading == "Website" then Some(d.pluginWebsite)
    else if heading == "Author" then Some(d.authorName)
    else if heading == "Email" then Some(d.authorEmail)
    else None
  }

  /** getColumnClass: Boolean for the column headed "Enabled?", String for every other. */
  function ColumnClass(columnIndex: int): (t: ColumnType)
    ensures t == BooleanClass <==> 0 <= columnIndex < |ColumnNames| && ColumnNames[columnIndex] == "Enabled?"
  {
    if columnIndex == 6 then BooleanClass else StringClass
  }

  class PluginConfiguration {
    /** The identity under which the panel listens to the registry. */
    const id: Listener
    var plugins: seq<PluginWrapper>

    /** Registers the panel as a listener, then copies the registry's plugins in name order. */
    constructor (handler: Handler.PluginHandler, id: Listener)
      requires handler.Valid()
      modifies handler.listenerList`listeners
      ensures this.id == id
      ensures handler.listenerList.listeners == Handler.AddOnce(old(handler.listenerList.listeners), id)
      ensures plugins == handler.plugins && Handler.SortedByName(plugins)
    {
      handler.AddPluginListener(id);
      var snapshot := handler.GetPlugins();
      this.id := id;
      plugins := snapshot;
    }

    method AddedPlugin(plugin: PluginWrapper)
      modifies this`plugins
      ensures plugins == old(plugins) + [plugin]
      ensures GetRowCount() == old(GetRowCount()) + 1
    {
      plugins := plugins + [plugin];
    }

    method RemovedPlugin(plugin: PluginWrapper)
      modifies this`plugins
      ensures plugins == RemoveFirst(old(plugins), plugin)
      ensures GetRowCount() == old(GetRowCount()) - (if plugin in old(plugins) then 1 else 0)
    {
      plugins := RemoveFirst(plugins, plugin);
      assert |multiset(plugins)| == |plugins|;
    }

    // The members below are those of the table model, which reads the panel's list.

    function GetRowCount(): (n: int)
      reads this
      ensures n == |plugins|
    {
      |plugins|
    }

    function GetColumnCount(): (n: int)
      ensures n == 7
    {
      |ColumnNames|
    }

    /** Every heading but the checkbox's names a metadata field; the checkbox column is the Boolean one. */
    function GetColumnName(column: int): (name: string)
      requires 0 <= column < |ColumnNames|
      ensures name == ColumnNames[column]
      ensures ColumnClass(column) == BooleanClass <==> name == "Enabled?"
      ensures forall d :: FieldNamed(name, d).Some? <==> column != 6
    {
      ColumnNames[column]
    }

    /** Only the checkbox column is editable, and it is the only Boolean column. */
    function IsCellEditable(rowIndex: int, columnIndex: int): (b: bool)
      ensures b <==> columnIndex == 6
      ensures b <==> ColumnClass(columnIndex) == BooleanClass
    {
      columnIndex == 6
    }

    /**
     * Columns 0 to 5 show the metadata, column 6 whether the plugin is
     * initialized; any other column is null.
     */
    function GetValueAt(rowIndex: int, columnIndex: int): (r: Cell)
      requires 0 <= rowIndex < GetRowCount()
      reads this, plugins[rowIndex]
      ensures r.Null? <==> !(0 <= columnIndex < GetColumnCount())
      ensures 0 <= columnIndex < GetColumnCount() ==> (r.Flag? <==> ColumnClass(columnIndex) == BooleanClass)
      ensures columnIndex == 0 ==> r == Text(plugins[rowIndex].ToString())
      ensures 0 <= columnIndex < 6 ==>
        r.Text? && FieldNamed(ColumnNames[columnIndex], plugins[rowIndex].Metadata()) == Some(r.text)
      ensures columnIndex == 6 ==> r == Flag(plugins[rowIndex].Flags().initialized)
    {
      var w := plugins[rowIndex];
      match columnIndex
      case 0 => Text(w.pluginName)
      case 1 => Text(w.pluginDescription)
      case 2 => Text(w.pluginVersion)
      case 3 => Text(w.pluginWebsite)
      case 4 => Text(w.authorName)
      case 5 => Text(w.authorEmail)
      case 6 => Flag(w.pluginInitialized)
      case _ => Null
    }

    function Row(rowIndex: int): PluginWrapper
      requires 0 <= rowIndex < |plugins|
      reads this
    {
      plugins[rowIndex]
    }

    /** The listener lists the row's wrapper notifies, as a frame. */
    function RowNotified(rowIndex: int): set<ListenerList>
      requires 0 <= rowIndex < |plugins|
      reads this, plugins[rowIndex]
    {
      plugins[rowIndex].Notified()
    }

    /**
     * Ticking the checkbox initializes the row's plugin; clearing it disables
     * the plugin when enabled and then destroys it, stopping at the first
     * failed hook. Failures are swallowed and the column is not consulted.
     */
    method SetValueAt(aValue: bool, rowIndex: int, columnIndex: int)
      requires 0 <= rowIndex < |plugins|
      modifies Row(rowIndex)`pluginInitialized, Row(rowIndex)`pluginEnabled
      modifies Row(rowIndex)`hookCalls, RowNotified(rowIndex)`delivered
      ensures var w := plugins[rowIndex];
        var t := if aValue then Initialize(old(w.Flags()), w.plugin.hooks)
          else TearDown(old(w.Flags()), w.plugin.hooks);
        w.Flags() == t.after && w.hookCalls == old(w.hookCalls) + t.calls
      ensures var w := plugins[rowIndex];
        w.list != null ==>
          w.list.delivered == old(w.list.delivered) +
            (if old(w.pluginInitialized) != w.pluginInitialized
             then Fanout(w.list.listeners, if aValue then Initialized else Destroyed, w)
             else [])
      ensures var w := plugins[rowIndex];
        aValue && w.plugin.hooks.initOk ==> GetValueAt(rowIndex, 6) == Flag(true)
      ensures var w := plugins[rowIndex];
        !aValue && w.plugin.hooks.disableOk && w.plugin.hooks.destroyOk ==>
          GetValueAt(rowIndex, 6) == Flag(false) && !w.pluginEnabled
    {
      var w := plugins[rowIndex];
      if aValue {
        var ok := w.InitializePlugin();
      } else {
        var ok := true;
        if w.pluginEnabled {
          ok := w.DisablePlugin();
        }
        if ok {
          ok := w.DestroyPlugin();
        }
      }
    }
  }
}
