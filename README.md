# Plugin lifecycle of drop-converter, in Dafny

This project models the plugin runtime of the drop-converter desktop
application and proves properties of it.

- `PluginWrapper` keeps the bookkeeping state of one discovered plugin:
  metadata, whether it is initialized and whether it is enabled. Its guarded
  methods call the plugin's four hooks and tell the shared listener list when
  the plugin is initialized or destroyed.
- `PluginHandler` is the registry. It holds a `TreeSet` of wrappers ordered
  by plugin name and a list of listeners. It initializes each new plugin
  unless its class name is excluded, announces every registration, and
  disables and destroys every plugin once at shutdown.
- `Configuration` stores the excluded class names as one comma-terminated
  property and the look-and-feel as another.
- `JPluginComboBox` disables the plugin the user leaves and enables the one
  they choose. Its list model only fires a change when the selection differs.
- `JPluginConfiguration` mirrors the registry into a list. Its table shows
  the metadata and an "Enabled?" checkbox that initializes a plugin, or
  disables and destroys it.
- `Converter.alignWindow` places the window at one of eight screen positions.

Modules, one per source file or concept:

- `Lifecycle` holds the state machine as pure functions on a pair of flags.
  Each function returns the new flags, the hooks called and whether the
  operation returned normally.
- `Plugins` holds `PluginWrapper` and the shared `ListenerList`. The wrapper
  methods are proved against the `Lifecycle` functions.
  - A hook's outcome is fixed per plugin (`Hooks`).
  - A failing hook is the `InitializationException` path: `ok` is false.
  - Every hook call is appended to a ghost log, `hookCalls`.
  - Every listener callback is appended to `ListenerList.delivered`.
- `JavaStrings` holds `String.compareTo` on the UTF-16 encoding of the
  strings, as Java compares them, and the strict order it induces.
- `Handler` holds `PluginHandler`. The `TreeSet` is a sequence kept strictly
  ascending by name. Insertion follows `TreeSet.add`: an element that
  compares equal to one present is not added.
- `Config`, `ComboBox`, `PluginTable` and `Align` hold the remaining files.

In five places the code behaves differently from what its names and
comments suggest. The model follows the code in each:

- A destroyed plugin is not released. `destroyPlugin` keeps the plugin, and
  a later `initializePlugin` calls the init hook again
  (`Lifecycle.DestroyThenInitialize`).
- Destroying does not disable. `destroyPlugin` leaves the enabled flag alone.
  Only `dispose` and the table's checkbox disable before destroying.
- Enabling does not need initialization. `enablePlugin` does not look at the
  initialized flag (`Lifecycle.EnableDisableIgnoreInitialization`).
- Duplicates are found by name, not by identity. The `TreeSet` compares
  plugin names, so a second plugin with a name already present is not added
  (`Handler.InsertSpec`, `Handler.PluginHandler.RegisterPlugin`). That plugin
  is still initialized and still announced as added. It never enters the set,
  so `dispose` never destroys it.
- Shutdown goes on past failures, but only from one plugin to the next. One
  `try` block covers both calls for a plugin, so a failing disable skips that
  plugin's destroy (`Lifecycle.TearDownDisableFailure`).

## Model

| member | source | states |
|---|---|---|
| Lifecycle.Initialize | drop-converter-app/src/main/java/de/drop_converter/PluginWrapper.java:102-124 | initialization never touches the enabled flag; afterwards the plugin is initialized exactly when it was already or the init hook returned, and the call returns normally exactly then; at most one hook is called |
| Lifecycle.Destroy | drop-converter-app/src/main/java/de/drop_converter/PluginWrapper.java:131-147 | destroying never touches the enabled flag; afterwards the plugin is initialized exactly when it was and the destroy hook failed, and the call fails exactly then; at most one hook is called |
| Lifecycle.Enable | drop-converter-app/src/main/java/de/drop_converter/PluginWrapper.java:155-163 | enabling never touches the initialized flag; afterwards the plugin is enabled exactly when it was already or the enable hook returned; at most one hook is called |
| Lifecycle.Disable | drop-converter-app/src/main/java/de/drop_converter/PluginWrapper.java:170-178 | disabling never touches the initialized flag; afterwards the plugin is enabled exactly when it was and the disable hook failed; at most one hook is called |
| Lifecycle.TearDown | drop-converter-app/src/main/java/de/drop_converter/PluginHandler.java:110-125 | disable-then-destroy returns normally exactly when it leaves the plugin neither initialized nor enabled; a failing disable leaves the flags as they were, a failing destroy leaves the plugin initialized and disabled; at most two hooks are called |
| Lifecycle.InitializeOnce | drop-converter-app/src/main/java/de/drop_converter/PluginWrapper.java:102-114 | after a successful initialization the plugin is initialized and a second initialization is a no-op that calls no hook |
| Lifecycle.InitializeCallsHookIffUninitialized | drop-converter-app/src/main/java/de/drop_converter/PluginWrapper.java:102-124 | the init hook is called exactly when the plugin is not initialized, and initialization never touches the enabled flag |
| Lifecycle.InitializeFailure | drop-converter-app/src/main/java/de/drop_converter/PluginWrapper.java:112-122 | when the init hook fails the flags stay as they were, the hook was called once and the operation fails |
| Lifecycle.DestroyThenInitialize | drop-converter-app/src/main/java/de/drop_converter/PluginWrapper.java:131-147 | a successful destroy clears only the initialized flag, and initializing afterwards calls the init hook again |
| Lifecycle.EnableDisableIgnoreInitialization | drop-converter-app/src/main/java/de/drop_converter/PluginWrapper.java:155-178 | enable and disable never change the initialized flag, and enable behaves the same whether or not the plugin is initialized |
| Lifecycle.EnableDisableGuarded | drop-converter-app/src/main/java/de/drop_converter/PluginWrapper.java:155-178 | enable is a no-op when enabled and disable when disabled; the enabled flag changes exactly when the guard lets the hook run and the hook succeeds |
| Lifecycle.TearDownClears | drop-converter-app/src/main/java/de/drop_converter/PluginHandler.java:110-125 | when the disable and destroy hooks succeed, disable-then-destroy leaves the plugin neither initialized nor enabled |
| Lifecycle.TearDownDisableFailure | drop-converter-app/src/main/java/de/drop_converter/PluginHandler.java:110-125 | a failing disable hook ends the tear-down of that plugin: no destroy hook is called and the flags are unchanged |
| Lifecycle.TearDownCalls | drop-converter-app/src/main/java/de/drop_converter/PluginHandler.java:110-125 | tear-down calls the disable hook exactly when enabled, then the destroy hook exactly when initialized and the disable did not fail |
| Lifecycle.TearDownIdle | drop-converter-app/src/main/java/de/drop_converter/PluginHandler.java:110-125 | tearing down a plugin that is neither initialized nor enabled calls no hook |
| JavaStrings.EncodeChar | drop-converter-app/src/main/java/de/drop_converter/PluginWrapper.java:201-204 | a character's UTF-16 encoding is one unit below U+10000 and two otherwise, and it is two exactly when the first unit is a high surrogate |
| JavaStrings.Utf16 | drop-converter-app/src/main/java/de/drop_converter/PluginWrapper.java:201-204 | a string has at least one and at most two UTF-16 units per character |
| JavaStrings.EncodeCharInjective | drop-converter-app/src/main/java/de/drop_converter/PluginWrapper.java:201-204 | distinct characters have distinct UTF-16 encodings |
| JavaStrings.Utf16Injective | drop-converter-app/src/main/java/de/drop_converter/PluginWrapper.java:201-204 | distinct strings have distinct UTF-16 encodings |
| JavaStrings.CompareUnits | drop-converter-app/src/main/java/de/drop_converter/PluginWrapper.java:201-204 | the comparison of two code-unit sequences is zero exactly when they are equal |
| JavaStrings.CompareTo | drop-converter-app/src/main/java/de/drop_converter/PluginWrapper.java:201-204 | String.compareTo runs on the UTF-16 units of the two strings and is zero exactly when the strings are equal |
| JavaStrings.CompareUnitsAntisymmetric | drop-converter-app/src/main/java/de/drop_converter/PluginWrapper.java:201-204 | swapping two code-unit sequences negates their comparison |
| JavaStrings.CompareUnitsTransitive | drop-converter-app/src/main/java/de/drop_converter/PluginWrapper.java:201-204 | the order on code-unit sequences is transitive |
| JavaStrings.CompareToAntisymmetric | drop-converter-app/src/main/java/de/drop_converter/PluginWrapper.java:201-204 | swapping the arguments of String.compareTo negates the result |
| JavaStrings.LessTransitive | drop-converter-app/src/main/java/de/drop_converter/PluginWrapper.java:201-204 | the name order used by the TreeSet is transitive |
| JavaStrings.LessTotal | drop-converter-app/src/main/java/de/drop_converter/PluginWrapper.java:201-204 | of two different names one is less than the other |
| JavaStrings.SupplementaryBeforeLastBmp | drop-converter-app/src/main/java/de/drop_converter/PluginWrapper.java:201-204 | the order is by UTF-16 unit, not by code point: U+10000 sorts before U+FFFF although its code point is larger |
| Plugins.Fanout | drop-converter-app/src/main/java/de/drop_converter/PluginWrapper.java:116-122 | one callback per listener, in listener order, each carrying the kind and the wrapper |
| Plugins.ListenerList.Notify | drop-converter-app/src/main/java/de/drop_converter/PluginHandler.java:75-78 | the delivered callbacks grow by exactly one callback per registered listener, in registration order |
| Plugins.PluginWrapper.constructor | drop-converter-app/src/main/java/de/drop_converter/PluginWrapper.java:40-60 | the six metadata fields are those of the annotation, or, without one, the name is the plugin's toString() and the other five are empty (Plugins.MetadataOf); not initialized, not enabled, no listener list |
| Plugins.PluginWrapper.InitializePlugin | drop-converter-app/src/main/java/de/drop_converter/PluginWrapper.java:102-124 | new flags, hook calls and outcome are those of Lifecycle.Initialize; the listeners get one initialized callback each exactly when the flag went from false to true |
| Plugins.PluginWrapper.DestroyPlugin | drop-converter-app/src/main/java/de/drop_converter/PluginWrapper.java:131-147 | new flags, hook calls and outcome are those of Lifecycle.Destroy; the listeners get one destroyed callback each exactly when the flag went from true to false |
| Plugins.PluginWrapper.EnablePlugin | drop-converter-app/src/main/java/de/drop_converter/PluginWrapper.java:155-163 | new flags, hook calls and outcome are those of Lifecycle.Enable; nothing else changes |
| Plugins.PluginWrapper.DisablePlugin | drop-converter-app/src/main/java/de/drop_converter/PluginWrapper.java:170-178 | new flags, hook calls and outcome are those of Lifecycle.Disable; nothing else changes |
| Plugins.PluginWrapper.CompareTo | drop-converter-app/src/main/java/de/drop_converter/PluginWrapper.java:201-204 | two wrappers compare equal exactly when their plugin names are equal |
| Plugins.PluginWrapper.ToString | drop-converter-app/src/main/java/de/drop_converter/PluginWrapper.java:207-210 | the text of a wrapper is its plugin name |
| Plugins.PluginWrapper.SetPluginListenerList | drop-converter-app/src/main/java/de/drop_converter/PluginWrapper.java:219-222 | the wrapper now notifies the given list; nothing else changes |
| Handler.Insert | drop-converter-app/src/main/java/de/drop_converter/PluginHandler.java:73 | TreeSet.add either leaves the set as it was or adds exactly the one wrapper |
| Handler.SortedDistinct | drop-converter-app/src/main/java/de/drop_converter/PluginHandler.java:30 | a set ordered strictly by name never holds the same wrapper twice |
| Handler.InsertPresent | drop-converter-app/src/main/java/de/drop_converter/PluginHandler.java:73 | adding a wrapper whose name is already present leaves the set unchanged |
| Handler.InsertAbsent | drop-converter-app/src/main/java/de/drop_converter/PluginHandler.java:73 | adding a wrapper with a new name adds exactly that wrapper |
| Handler.InsertMembers | drop-converter-app/src/main/java/de/drop_converter/PluginHandler.java:73 | adding a wrapper brings in no element other than that wrapper |
| Handler.InsertSorted | drop-converter-app/src/main/java/de/drop_converter/PluginHandler.java:73 | adding a wrapper keeps the set strictly ascending by name |
| Handler.InsertSpec | drop-converter-app/src/main/java/de/drop_converter/PluginHandler.java:73 | TreeSet.add as a whole: stays sorted, unchanged if the name is present, one more element if not, and the name is now present |
| Handler.InsertNames | drop-converter-app/src/main/java/de/drop_converter/PluginHandler.java:73 | after adding a wrapper the names present are the old ones plus its name |
| Handler.InsertSameName | drop-converter-app/src/main/java/de/drop_converter/PluginHandler.java:73 | adding a second wrapper under a name already added leaves the set as the first one left it |
| Handler.InsertAllSorted | drop-converter-app/src/main/java/de/drop_converter/PluginHandler.java:44-49 | registering any number of wrappers keeps the set sorted by name |
| Handler.InsertAllNames | drop-converter-app/src/main/java/de/drop_converter/PluginHandler.java:44-49 | after registering a sequence of wrappers the names present are the old ones plus theirs |
| Handler.AddOnce | drop-converter-app/src/main/java/de/drop_converter/PluginHandler.java:96-101 | the list keeps its old listeners in order, grows by at most one, and afterwards holds exactly the old listeners and the new one |
| Handler.NamesOfWrapped | drop-converter-app/src/main/java/de/drop_converter/PluginHandler.java:44-49 | wrappers made one for one from a sequence of plugins carry exactly the names of those plugins |
| Handler.AddOnceIdempotent | drop-converter-app/src/main/java/de/drop_converter/PluginHandler.java:96-101 | adding a listener twice is the same as adding it once; the listener is then present and the list has no duplicates |
| Handler.DisableAndDestroy | drop-converter-app/src/main/java/de/drop_converter/PluginHandler.java:112-124 | one plugin's shutdown step has the flags and hook calls of Lifecycle.TearDown, and a destroyed callback per listener exactly when the plugin stopped being initialized |
| Handler.DisableAndDestroyAll | drop-converter-app/src/main/java/de/drop_converter/PluginHandler.java:109-125 | every wrapper of the set ends as Lifecycle.TearDown says, independently of the others, with the destroyed callbacks in set order |
| Handler.PluginHandler.constructor | drop-converter-app/src/main/java/de/drop_converter/PluginHandler.java:30-36 | the registry starts open, with no plugins, no exclusions and no listeners |
| Handler.PluginHandler.Wrap | drop-converter-app/src/main/java/de/drop_converter/PluginHandler.java:58-71 | the new wrapper carries the plugin's metadata and the shared listener list; it is initialized exactly when its class is not excluded, with initialized callbacks only when that succeeded |
| Handler.PluginHandler.RegisterPlugin | drop-converter-app/src/main/java/de/drop_converter/PluginHandler.java:56-79 | the new wrapper carries the plugin's metadata and is initialized exactly when its class is not excluded; the set becomes TreeSet.add of it, even when the init hook failed: unchanged when a plugin of the same name is present, one wrapper larger otherwise, and the plugin's name is present afterwards; the callbacks are the initialized ones when initialization succeeded, then one added callback per listener |
| Handler.PluginHandler.LoadPlugins | drop-converter-app/src/main/java/de/drop_converter/PluginHandler.java:44-49 | every discovered plugin is registered in discovery order, each wrapper carrying its plugin's metadata; the set stays sorted and its names grow by exactly the plugins' names; the callbacks are those of the registrations in order |
| Handler.PluginHandler.GetPlugins | drop-converter-app/src/main/java/de/drop_converter/PluginHandler.java:86-89 | the plugins are returned in strictly ascending name order |
| Handler.PluginHandler.AddPluginListener | drop-converter-app/src/main/java/de/drop_converter/PluginHandler.java:96-101 | a listener is appended only when not already registered |
| Handler.PluginHandler.Dispose | drop-converter-app/src/main/java/de/drop_converter/PluginHandler.java:106-130 | on the first call every plugin is torn down as Lifecycle.TearDown says and plugins whose hooks succeed end neither initialized nor enabled; the handler is then closed, and a later call changes no flag, calls no hook and delivers no callback |
| Handler.PluginHandler.SetPluginExclusion | drop-converter-app/src/main/java/de/drop_converter/PluginHandler.java:135-139 | the exclusion list is replaced wholesale and the registry invariant is kept |
| Config.Split | drop-converter-app/src/main/java/de/drop_converter/Configuration.java:146 | a text without a comma comes back whole; otherwise the pieces between commas, none holding a comma, with only empty pieces dropped from the end and the last piece kept not empty |
| Config.Pieces | drop-converter-app/src/main/java/de/drop_converter/Configuration.java:146 | the pieces between commas contain no comma and, joined with commas, give back the text |
| Config.DropTrailingEmpty | drop-converter-app/src/main/java/de/drop_converter/Configuration.java:146 | split keeps a prefix of the pieces, drops only empty pieces, and the last piece kept is not empty |
| Config.DisabledPlugins | drop-converter-app/src/main/java/de/drop_converter/Configuration.java:137-148 | a missing or blank property gives no class names; a non-blank one gives String.split(",") of it, which is the property itself when it has no comma; no class name read back holds a comma |
| Config.SplitHandEdited | drop-converter-app/src/main/java/de/drop_converter/Configuration.java:146 | a hand-edited "a,,b,," reads back as "a", "", "b": inner empty names stay and trailing ones go |
| Config.SplitTrailingComma | drop-converter-app/src/main/java/de/drop_converter/Configuration.java:146 | "a," reads back as "a" alone, and a property of commas only reads back as no names |
| Config.Terminated | drop-converter-app/src/main/java/de/drop_converter/Configuration.java:159-177 | the written text is empty exactly when there are no names, and otherwise ends with a comma |
| Config.TerminatedSnoc | drop-converter-app/src/main/java/de/drop_converter/Configuration.java:165-177 | appending a class name appends it and a comma to the property text |
| Config.PiecesAfter | drop-converter-app/src/main/java/de/drop_converter/Configuration.java:146 | a comma after a comma-free prefix ends the first piece |
| Config.PiecesOfTerminated | drop-converter-app/src/main/java/de/drop_converter/Configuration.java:146 | the pieces of the written property are the class names followed by one empty piece |
| Config.TerminatedHasComma | drop-converter-app/src/main/java/de/drop_converter/Configuration.java:141 | a non-empty written property contains a comma and is not blank |
| Config.DropOneTrailingEmpty | drop-converter-app/src/main/java/de/drop_converter/Configuration.java:146 | split drops the one empty piece after a non-empty last name and nothing more |
| Config.DisabledPluginsRoundTrip | drop-converter-app/src/main/java/de/drop_converter/Configuration.java:137-181 | reading back a written list of non-empty comma-free class names gives exactly that list, in order |
| Config.Configuration.constructor | drop-converter-app/src/main/java/de/drop_converter/Configuration.java:48-67 | the properties are those stored in the file when it exists and is a regular file, and none otherwise, in which case no plugin is excluded and the look-and-feel is the system one |
| Config.Configuration.GetLookAndFeel | drop-converter-app/src/main/java/de/drop_converter/Configuration.java:69-72 | the stored look-and-feel when there is one, the system default otherwise |
| Config.Configuration.GetDisabledPlugins | drop-converter-app/src/main/java/de/drop_converter/Configuration.java:137-148 | no class names when the property is missing or blank, otherwise String.split(",") of the stored property; no class name holds a comma |
| Config.Configuration.SetLookAndFeel | drop-converter-app/src/main/java/de/drop_converter/Configuration.java:74-77 | only the look-and-feel property changes, and reading it afterwards gives the value stored, whatever the system default |
| Config.Configuration.SetDisabledPlugins | drop-converter-app/src/main/java/de/drop_converter/Configuration.java:155-181 | an empty collection leaves the properties alone; otherwise the property becomes each uninitialized plugin's class name followed by a comma, in order, and reading it back gives those names |
| ComboBox.SelectionChangesIffDifferent | drop-converter-app/src/main/java/de/drop_converter/components/JPluginComboBox.java:144 | the null-aware test of setSelectedItem holds exactly when the new item is a different reference |
| ComboBox.Model.constructor | drop-converter-app/src/main/java/de/drop_converter/components/JPluginComboBox.java:120-127 | a List is shared by reference and any other collection is copied; size and elements are those of the collection in order; nothing is selected |
| ComboBox.Model.GetSize | drop-converter-app/src/main/java/de/drop_converter/components/JPluginComboBox.java:129-133 | the size of the list the model reads, which is the caller's own List when one was passed |
| ComboBox.Model.GetElementAt | drop-converter-app/src/main/java/de/drop_converter/components/JPluginComboBox.java:135-139 | the element at that position of the list the model reads |
| ComboBox.Model.GetSelectedItem | drop-converter-app/src/main/java/de/drop_converter/components/JPluginComboBox.java:150-154 | the current selection, which SetSelectedItem sets |
| ComboBox.Model.SetSelectedItem | drop-converter-app/src/main/java/de/drop_converter/components/JPluginComboBox.java:142-148 | the item becomes the selection, and exactly one change is fired when it differs from the previous one |
| ComboBox.PluginComboBox.constructor | drop-converter-app/src/main/java/de/drop_converter/components/JPluginComboBox.java:32 | no plugin has been selected yet |
| ComboBox.PluginComboBox.ReloadPlugins | drop-converter-app/src/main/java/de/drop_converter/components/JPluginComboBox.java:39-58 | a new model over the collection is installed, and its first element is selected exactly when the collection is not empty |
| ComboBox.PluginComboBox.PluginStateChanged | drop-converter-app/src/main/java/de/drop_converter/components/JPluginComboBox.java:66-81 | the previous selection is disabled as Lifecycle.Disable says; the new plugin becomes the selection and is enabled as Lifecycle.Enable says, whatever the disable did; with succeeding hooks the old one ends disabled and the new one enabled |
| PluginTable.IndexOf | drop-converter-app/src/main/java/de/drop_converter/components/JPluginConfiguration.java:53 | the first position holding the wrapper |
| PluginTable.RemoveFirst | drop-converter-app/src/main/java/de/drop_converter/components/JPluginConfiguration.java:51-54 | an absent wrapper changes nothing; otherwise exactly its first occurrence is removed and one copy leaves the multiset |
| PluginTable.RemoveAfterAdd | drop-converter-app/src/main/java/de/drop_converter/components/JPluginConfiguration.java:45-54 | removing a wrapper right after appending it, when it was absent, restores the list |
| PluginTable.ColumnClass | drop-converter-app/src/main/java/de/drop_converter/components/JPluginConfiguration.java:144-148 | a column is of class Boolean exactly when it is the one headed "Enabled?" |
| PluginTable.PluginConfiguration.constructor | drop-converter-app/src/main/java/de/drop_converter/components/JPluginConfiguration.java:32-42 | the panel registers as a listener, then starts with the handler's plugins in name order |
| PluginTable.PluginConfiguration.AddedPlugin | drop-converter-app/src/main/java/de/drop_converter/components/JPluginConfiguration.java:45-48 | the wrapper is appended and the row count grows by one |
| PluginTable.PluginConfiguration.RemovedPlugin | drop-converter-app/src/main/java/de/drop_converter/components/JPluginConfiguration.java:51-54 | the first occurrence is removed, and the row count shrinks by one exactly when the wrapper was present |
| PluginTable.PluginConfiguration.GetRowCount | drop-converter-app/src/main/java/de/drop_converter/components/JPluginConfiguration.java:69-73 | one row per wrapper in the mirrored list |
| PluginTable.PluginConfiguration.GetColumnCount | drop-converter-app/src/main/java/de/drop_converter/components/JPluginConfiguration.java:67-79 | the table always has 7 columns |
| PluginTable.PluginConfiguration.GetColumnName | drop-converter-app/src/main/java/de/drop_converter/components/JPluginConfiguration.java:138-142 | the heading of the column; the Boolean column is headed "Enabled?" and every other heading names a metadata field |
| PluginTable.PluginConfiguration.IsCellEditable | drop-converter-app/src/main/java/de/drop_converter/components/JPluginConfiguration.java:82-85 | a cell is editable exactly in column 6, the only column of class Boolean |
| PluginTable.PluginConfiguration.GetValueAt | drop-converter-app/src/main/java/de/drop_converter/components/JPluginConfiguration.java:114-136 | a cell is null exactly outside the 7 columns, holds a Boolean exactly in the Boolean column, shows the name in column 0, in each of columns 0 to 5 the metadata field its heading names, and the initialized flag in column 6 |
| PluginTable.PluginConfiguration.SetValueAt | drop-converter-app/src/main/java/de/drop_converter/components/JPluginConfiguration.java:88-111 | ticking initializes the row's plugin as Lifecycle.Initialize says; unticking tears it down as Lifecycle.TearDown says; the callbacks follow the initialized flag; with succeeding hooks the cell then shows the new value |
| Align.AlignWindow | drop-converter-app/src/main/java/de/drop_converter/Converter.java:275-313 | the bounds keep the frame size; x and y are the start, centred or end offsets the position names, in Java int arithmetic |
| Align.OffsetPlacement | drop-converter-app/src/main/java/de/drop_converter/Converter.java:277-311 | for non-negative sizes nothing wraps: the window is flush with the start or the end, or centred with margins that differ by at most one |
| Align.OffsetInsideScreen | drop-converter-app/src/main/java/de/drop_converter/Converter.java:277-311 | on one axis, a window no larger than the screen starts at or after 0 and ends at or before the screen edge |
| Align.AlignedInsideScreen | drop-converter-app/src/main/java/de/drop_converter/Converter.java:275-313 | for any position, a window that fits the screen lies entirely on it |

## Left out

- Plugin discovery through `ServiceLoader`: `LoadPlugins` takes the discovered plugins as a sequence.
- Reflection over the `ConverterPluginDetails` annotation: each plugin value carries its annotation as an optional record.
- Plugin hooks: each hook has one fixed outcome per plugin, and the calls are counted per wrapper in a ghost log. A hook that succeeds on one call and fails on another is not modelled.
- Exceptions and logging: a hook that throws InitializationException is a false outcome, and log messages are not modelled.
- Unchecked exceptions from a hook: the model does not capture them. `registerPlugin` catches only InitializationException, so a RuntimeException from an init hook would abort that registration and the rest of `loadPlugins`, and one from a hook during `dispose` would escape before the handler is marked closed, leaving the remaining plugins running.
- Unpaired surrogates: a Java String may hold a lone surrogate code unit, a Dafny string cannot, so `JavaStrings` orders well-formed names only.
- `synchronized` and thread safety: the model is sequential.
- File access in `Configuration`'s constructor: whether the file exists, whether it is a regular file and what `Properties.load` reads are parameters, and creating a missing file is not modelled.
- `createPanel` and `storeConfiguration` (Swing and file output). The system look-and-feel is a parameter of `GetLookAndFeel`.
- Unmodifiable views: `GetPlugins` returns a sequence value, and every wrapper shares the handler's `ListenerList` object. No path in the model writes through either view, so the refusal to write is not modelled.
- Handler.PluginHandler.SetPluginExclusion: stores a sequence value, so later changes the caller makes to its own list are not seen, unlike the Java list kept by reference.
- Listener dispatch: callbacks are recorded in `ListenerList.delivered`. The panel's `AddedPlugin` and `RemovedPlugin` are separate methods, and the model does not connect a delivered callback to a call of them.
- The panel's `initializedPlugin` and `destroyedPlugin` do nothing, and the handler never fires `removedPlugin`.
- ComboBox.PluginComboBox.ReloadPlugins: does not model the item listener it adds or the selection event that listener turns into a `pluginStateChanged` call. Each reload adds one more listener, so the k-th reload leads to k such calls. `PluginStateChanged` is its own method.
- The drag-and-drop `JPluginComboBoxTransferHandler` (unimplemented in the code) and all other Swing layout.
- `JComboBox.setSelectedIndex(0)` becomes the model's `SetSelectedItem` on element 0.
- The `plugin == null` branch of `initializePlugin`: the constructor dereferences the plugin, so the field is never null.
- A `toString()` that returns null, and a null cell value passed to `setValueAt`: strings and flags are never null here.
- ComboBox.Model.GetElementAt: requires an index inside the list, where Java's `List.get` throws IndexOutOfBoundsException; Swing only asks for indices below `getSize()`.
- PluginTable.PluginConfiguration.GetColumnName: requires a column inside the seven headings, where Java's array access throws ArrayIndexOutOfBoundsException; Swing only asks for columns below `getColumnCount()`.
- PluginTable.PluginConfiguration.GetValueAt: requires a row inside the list, where Java's `List.get` throws IndexOutOfBoundsException; Swing only asks for rows below `getRowCount()`.
- PluginTable.PluginConfiguration.SetValueAt: requires a row inside the list, where Java's `List.get` throws IndexOutOfBoundsException; Swing only edits rows below `getRowCount()`.
- The rest of `Converter`: directories, class loading, images, the GUI and `main`.
