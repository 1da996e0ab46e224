/**
 * The per-plugin lifecycle of PluginWrapper as pure transitions: two independent
 * flags, four guarded operations, and the outcome of the plugin hook each one
 * calls. The wrapper class in module Plugins is proved against these functions.
 */
module Lifecycle {

  /** The four lifecycle hooks of a ConverterPlugin. */
  datatype Hook = InitHook | DestroyHook | EnableHook | DisableHook

  /**
   * How a plugin's hooks behave when called: true means the hook returns
   * normally, false that it throws an InitializationException.
   */
  datatype Hooks = Hooks(initOk: bool, destroyOk: bool, enableOk: bool, disableOk: bool)

  function Succeeds(h: Hooks, k: Hook): bool
  {
    match k
    case InitHook => h.initOk
    case DestroyHook => h.destroyOk
    case EnableHook => h.enableOk
    case DisableHook => h.disableOk
  }

  /** The wrapper's pluginInitialized and pluginEnabled flags. */
  datatype Flags = Flags(initialized: bool, enabled: bool)

  /**
   * The effect of one operation: the flags afterwards, the hooks it invoked
   * (in order), and whether it returned normally (false: the exception of a
   * failing hook propagated).
   */
  datatype Transition = Transition(after: Flags, calls: seq<Hook>, ok: bool)

  /** initializePlugin: calls the init hook only when not initialized; sets the flag only if the hook returns. */
  function Initialize(f: Flags, h: Hooks): (t: Transition)
    ensures t.after.enabled == f.enabled
    ensures t.after.initialized <==> f.initialized || h.initOk
    ensures t.ok <==> t.after.initialized
    ensures |t.calls| <= 1
  {
    if f.initialized then Transition(f, [], true)
    else Transition(f.(initialized := h.initOk), [InitHook], h.initOk)
  }

  /** destroyPlugin: calls the destroy hook only when initialized; clears the flag only if the hook returns. */
  function Destroy(f: Flags, h: Hooks): (t: Transition)
    ensures t.after.enabled == f.enabled
    ensures t.after.initialized <==> f.initialized && !h.destroyOk
    ensures t.ok <==> !t.after.initialized
    ensures |t.calls| <= 1
  {
    if !f.initialized then Transition(f, [], true)
    else Transition(f.(initialized := !h.destroyOk), [DestroyHook], h.destroyOk)
  }

  /** enablePlugin: calls the enable hook only when not enabled, whatever the initialization state. */
  function Enable(f: Flags, h: Hooks): (t: Transition)
    ensures t.after.initialized == f.initialized
    ensures t.after.enabled <==> f.enabled || h.enableOk
    ensures t.ok <==> t.after.enabled
    ensures |t.calls| <= 1
  {
    if f.enabled then Transition(f, [], true)
    else Transition(f.(enabled := h.enableOk), [EnableHook], h.enableOk)
  }

  /** disablePlugin: calls the disable hook only when enabled. */
  function Disable(f: Flags, h: Hooks): (t: Transition)
    ensures t.after.initialized == f.initialized
    ensures t.after.enabled <==> f.enabled && !h.disableOk
    ensures t.ok <==> !t.after.enabled
    ensures |t.calls| <= 1
  {
    if !f.enabled then Transition(f, [], true)
    else Transition(f.(enabled := !h.disableOk), [DisableHook], h.disableOk)
  }

  /**
   * "Disable if enabled, then destroy if initialized" inside one try block,
   * as PluginHandler.dispose does per plugin and as unticking the "Enabled?"
   * cell does: a failing disable skips the destroy.
   */
  function TearDown(f: Flags, h: Hooks): (t: Transition)
    ensures t.ok <==> t.after == Flags(false, false)
    ensures !t.ok && f.enabled && !h.disableOk ==> t.after == f
    ensures !t.ok && !(f.enabled && !h.disableOk) ==> t.after == Flags(true, false)
    ensures |t.calls| <= 2
  {
    var d := Disable(f, h);
    if !d.ok then d
    else
      var e := Destroy(d.after, h);
      Transition(e.after, d.calls + e.calls, e.ok)
  }

  /** A successful initialization makes a second one a no-op that calls no hook. */
  lemma InitializeOnce(f: Flags, h: Hooks)
    requires Initialize(f, h).ok
    ensures Initialize(Initialize(f, h).after, h) == Transition(Initialize(f, h).after, [], true)
    ensures Initialize(f, h).after.initialized
  {
  }

  /** The init hook runs exactly when the wrapper is not initialized, and at most once per call. */
  lemma InitializeCallsHookIffUninitialized(f: Flags, h: Hooks)
    ensures Initialize(f, h).calls == (if f.initialized then [] else [InitHook])
    ensures Initialize(f, h).after.enabled == f.enabled
  {
  }

  /** A failing init hook leaves the wrapper uninitialized and reports the failure. */
  lemma InitializeFailure(f: Flags, h: Hooks)
    requires !f.initialized && !h.initOk
    ensures Initialize(f, h) == Transition(f, [InitHook], false)
  {
  }

  /** destroy never touches the enabled flag, and after it a new initialize runs the init hook again. */
  lemma DestroyThenInitialize(f: Flags, h: Hooks)
    requires f.initialized && h.destroyOk
    ensures Destroy(f, h).after == Flags(false, f.enabled)
    ensures Initialize(Destroy(f, h).after, h).calls == [InitHook]
  {
  }

  /** enable and disable only ever change the enabled flag, and ignore whether the plugin is initialized. */
  lemma EnableDisableIgnoreInitialization(f: Flags, h: Hooks, b: bool)
    ensures Enable(f, h).after.initialized == f.initialized
    ensures Disable(f, h).after.initialized == f.initialized
    ensures Enable(f.(initialized := b), h).after.enabled == Enable(f, h).after.enabled
    ensures Enable(f.(initialized := b), h).calls == Enable(f, h).calls
    ensures Disable(f.(initialized := b), h).after.enabled == Disable(f, h).after.enabled
  {
  }

  /** enable and disable are no-ops when already in the target state, and change the flag only when the hook returns. */
  lemma EnableDisableGuarded(f: Flags, h: Hooks)
    ensures f.enabled ==> Enable(f, h) == Transition(f, [], true)
    ensures !f.enabled ==> Disable(f, h) == Transition(f, [], true)
    ensures Enable(f, h).after.enabled != f.enabled <==> !f.enabled && h.enableOk
    ensures Disable(f, h).after.enabled != f.enabled <==> f.enabled && h.disableOk
  {
  }

  /** When neither the disable nor the destroy hook fails, tear-down leaves the plugin neither initialized nor enabled. */
  lemma TearDownClears(f: Flags, h: Hooks)
    requires h.disableOk && h.destroyOk
    ensures TearDown(f, h).after == Flags(false, false)
    ensures TearDown(f, h).ok
  {
  }

  /** A failing disable hook aborts the tear-down before the destroy hook is called. */
  lemma TearDownDisableFailure(f: Flags, h: Hooks)
    requires f.enabled && !h.disableOk
    ensures TearDown(f, h) == Transition(f, [DisableHook], false)
  {
  }

  /** Tear-down calls the disable hook exactly when enabled, and the destroy hook exactly when initialized and not stopped by a failing disable. */
  lemma TearDownCalls(f: Flags, h: Hooks)
    ensures TearDown(f, h).calls ==
      (if f.enabled then [DisableHook] else []) +
      (if f.initialized && (!f.enabled || h.disableOk) then [DestroyHook] else [])
  {
  }

  /** A plugin that is neither enabled nor initialized is left alone: no hook is called. */
  lemma TearDownIdle(h: Hooks)
    ensures TearDown(Flags(false, false), h) == Transition(Flags(false, false), [], true)
  {
  }
}
