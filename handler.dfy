/**
 * PluginHandler: the registry. Its TreeSet of wrappers is a sequence kept
 * strictly ascending by plugin name; its listener list is shared with every
 * wrapper it creates.
 */
module Handler {
  import opened Lifecycle
  import opened Plugins
  import JavaStrings

  /** Strictly ascending by plugin name: the TreeSet order, which also makes names unique. */
  predicate SortedByName(s: seq<PluginWrapper>)
  {
    forall j, k :: 0 <= j < k < |s| ==> JavaStrings.Less(s[j].pluginName, s[k].pluginName)
  }

  /** The plugin names present. */
  function Names(s: seq<PluginWrapper>): set<string>
  {
    set w | w in s :: w.pluginName
  }

  /** TreeSet.add: an element that compares equal to one present is not added; otherwise it goes in name order. */
  function Insert(s: seq<PluginWrapper>, w: PluginWrapper): (r: seq<PluginWrapper>)
    ensures r == s || multiset(r) == multiset(s) + multiset{w}
  {
    if s == [] then [w]
    else if w.CompareTo(s[0]) < 0 then [w] + s
    else if w.CompareTo(s[0]) == 0 then s
    else
      assert s == [s[0]] + s[1..];
      [s[0]] + Insert(s[1..], w)
  }

  /** Registering each wrapper in turn. */
  function InsertAll(s: seq<PluginWrapper>, ws: seq<PluginWrapper>): seq<PluginWrapper>
  {
    if ws == [] then s else Insert(InsertAll(s, ws[..|ws| - 1]), ws[|ws| - 1])
  }

  /** Wrappers in a name-sorted sequence are distinct objects. */
  lemma SortedDistinct(s: seq<PluginWrapper>)
    requires SortedByName(s)
    ensures forall j, k :: 0 <= j < k < |s| ==> s[j] != s[k]
  {
  }

  /** A wrapper whose name is already present leaves the collection as it was. */
  lemma {:induction false} InsertPresent(s: seq<PluginWrapper>, w: PluginWrapper, k: nat)
    requires SortedByName(s)
    requires k < |s| && s[k].pluginName == w.pluginName
    ensures Insert(s, w) == s
  {
    if k > 0 {
      assert JavaStrings.Less(s[0].pluginName, w.pluginName);
      JavaStrings.CompareToAntisymmetric(s[0].pluginName, w.pluginName);
      assert s == [s[0]] + s[1..];
      InsertPresent(s[1..], w, k - 1);
    }
  }

  /** A wrapper whose name is new is added, and nothing else changes. */
  lemma {:induction false} InsertAbsent(s: seq<PluginWrapper>, w: PluginWrapper)
    requires forall k :: 0 <= k < |s| ==> s[k].pluginName != w.pluginName
    ensures multiset(Insert(s, w)) == multiset(s) + multiset{w}
  {
    if s != [] && w.CompareTo(s[0]) > 0 {
      assert s == [s[0]] + s[1..];
      InsertAbsent(s[1..], w);
    }
  }

  /** Inserting brings in no wrapper other than the inserted one. */
  lemma {:induction false} InsertMembers(s: seq<PluginWrapper>, w: PluginWrapper)
    ensures forall x :: x in Insert(s, w) ==> x in s || x == w
  {
    if s != [] && w.CompareTo(s[0]) > 0 {
      InsertMembers(s[1..], w);
    }
  }

  /** Inserting keeps the name order. */
  lemma {:induction false} InsertSorted(s: seq<PluginWrapper>, w: PluginWrapper)
    requires SortedByName(s)
    ensures SortedByName(Insert(s, w))
  {
    if s == [] {
    } else if w.CompareTo(s[0]) < 0 {
      forall k | 0 < k < |s|
        ensures JavaStrings.Less(w.pluginName, s[k].pluginName)
      {
        JavaStrings.LessTransitive(w.pluginName, s[0].pluginName, s[k].pluginName);
      }
    } else if w.CompareTo(s[0]) > 0 {
      var rest := s[1..];
      assert SortedByName(rest);
      InsertSorted(rest, w);
      InsertMembers(rest, w);
      var r := Insert(rest, w);
      assert JavaStrings.Less(s[0].pluginName, w.pluginName) by {
        JavaStrings.CompareToAntisymmetric(w.pluginName, s[0].pluginName);
      }
      forall k | 0 <= k < |r|
        ensures JavaStrings.Less(s[0].pluginName, r[k].pluginName)
      {
        assert r[k] in r;
        if r[k] != w {
          var j :| 0 <= j < |rest| && rest[j] == r[k];
          assert s[j + 1] == r[k];
        }
      }
    }
  }

  /**
   * TreeSet.add on the model: the order is kept; a wrapper whose name is
   * present leaves the collection as it was; otherwise exactly that wrapper
   * is added.
   */
  lemma InsertSpec(s: seq<PluginWrapper>, w: PluginWrapper)
    requires SortedByName(s)
    ensures SortedByName(Insert(s, w))
    ensures w.pluginName in Names(s) ==> Insert(s, w) == s
    ensures w.pluginName !in Names(s) ==> multiset(Insert(s, w)) == multiset(s) + multiset{w}
    ensures Names(Insert(s, w)) == Names(s) + {w.pluginName}
  {
    InsertSorted(s, w);
    if w.pluginName in Names(s) {
      var x :| x in s && x.pluginName == w.pluginName;
      var k :| 0 <= k < |s| && s[k] == x;
      InsertPresent(s, w, k);
    } else {
      forall k | 0 <= k < |s|
        ensures s[k].pluginName != w.pluginName
      {
        assert s[k] in s;
      }
      InsertAbsent(s, w);
      var r := Insert(s, w);
      forall n ensures n in Names(r) <==> n in Names(s) + {w.pluginName}
      {
        if n in Names(r) {
          var x :| x in r && x.pluginName == n;
          assert x in multiset(r);
        }
        if n in Names(s) {
          var x :| x in s && x.pluginName == n;
          assert x in multiset(s);
          assert x in multiset(r);
        }
        if n == w.pluginName {
          assert w in multiset(r);
        }
      }
    }
  }

  /** A second wrapper under a name already registered leaves the set as the first one left it. */
  lemma InsertSameName(s: seq<PluginWrapper>, w1: PluginWrapper, w2: PluginWrapper)
    requires SortedByName(s) && w1.pluginName == w2.pluginName
    ensures Insert(Insert(s, w1), w2) == Insert(s, w1)
  {
    InsertSpec(s, w1);
    InsertSpec(Insert(s, w1), w2);
  }

  /** Registering a sequence keeps the order. */
  lemma {:induction false} InsertAllSorted(s: seq<PluginWrapper>, ws: seq<PluginWrapper>)
    requires SortedByName(s)
    ensures SortedByName(InsertAll(s, ws))
  {
    if ws != [] {
      InsertAllSorted(s, ws[..|ws| - 1]);
      InsertSorted(InsertAll(s, ws[..|ws| - 1]), ws[|ws| - 1]);
    }
  }

  /** Inserting adds the wrapper's name, whether or not the wrapper itself goes in. */
  lemma {:induction false} InsertNames(s: seq<PluginWrapper>, w: PluginWrapper)
    ensures Names(Insert(s, w)) == Names(s) + {w.pluginName}
  {
    if s == [] {
      assert Names([w]) == {w.pluginName} by { assert w in [w]; }
    } else {
      assert s == [s[0]] + s[1..];
      NamesCons(s[0], s[1..]);
      if w.CompareTo(s[0]) < 0 {
        NamesCons(w, s);
      } else if w.CompareTo(s[0]) > 0 {
        InsertNames(s[1..], w);
        NamesCons(s[0], Insert(s[1..], w));
      }
    }
  }

  /** Registering a sequence adds exactly the names of the sequence. */
  lemma {:induction false} InsertAllNames(s: seq<PluginWrapper>, ws: seq<PluginWrapper>)
    ensures Names(InsertAll(s, ws)) == Names(s) + Names(ws)
  {
    if ws != [] {
      var n := |ws| - 1;
      InsertAllNames(s, ws[..n]);
      InsertNames(InsertAll(s, ws[..n]), ws[n]);
      NamesSnoc(ws[..n], ws[n]);
      assert ws == ws[..n] + [ws[n]];
    }
  }

  lemma NamesCons(w: PluginWrapper, ws: seq<PluginWrapper>)
    ensures Names([w] + ws) == {w.pluginName} + Names(ws)
  {
    forall n | n in Names([w] + ws)
      ensures n in {w.pluginName} + Names(ws)
    {
      var x :| x in [w] + ws && x.pluginName == n;
    }
    forall n | n in Names(ws)
      ensures n in Names([w] + ws)
    {
      var x :| x in ws && x.pluginName == n;
      assert x in [w] + ws;
    }
    assert w in [w] + ws;
  }

  lemma NamesSnoc(ws: seq<PluginWrapper>, w: PluginWrapper)
    ensures Names(ws + [w]) == Names(ws) + {w.pluginName}
  {
    forall n | n in Names(ws + [w])
      ensures n in Names(ws) + {w.pluginName}
    {
      var x :| x in ws + [w] && x.pluginName == n;
    }
    forall n | n in Names(ws)
      ensures n in Names(ws + [w])
    {
      var x :| x in ws && x.pluginName == n;
      assert x in ws + [w];
    }
    assert w in ws + [w];
  }

  /** The names a sequence of plugins is registered under. */
  function PluginNames(ps: seq<Plugin>): set<string>
  {
    set p | p in ps :: NameOf(p)
  }

  /** Wrappers made from `ps`, one for one, carry the plugins' names. */
  lemma NamesOfWrapped(ws: seq<PluginWrapper>, ps: seq<Plugin>)
    requires |ws| == |ps|
    requires forall k :: 0 <= k < |ws| ==> ws[k].pluginName == NameOf(ps[k])
    ensures Names(ws) == PluginNames(ps)
  {
    forall n | n in Names(ws)
      ensures n in PluginNames(ps)
    {
      var x :| x in ws && x.pluginName == n;
      var k :| 0 <= k < |ws| && ws[k] == x;
      assert ps[k] in ps;
    }
    forall n | n in PluginNames(ps)
      ensures n in Names(ws)
    {
      var p :| p in ps && NameOf(p) == n;
      var k :| 0 <= k < |ps| && ps[k] == p;
      assert ws[k] in ws;
    }
  }

  /** addPluginListener: appends a listener unless it is already registered. */
  function AddOnce(ls: seq<Listener>, l: Listener): (r: seq<Listener>)
    ensures ls <= r && |r| <= |ls| + 1
    ensures forall x :: x in r <==> x in ls || x == l
  {
    if l in ls then ls else ls + [l]
  }

  predicate NoDuplicates(ls: seq<Listener>)
  {
    forall j, k :: 0 <= j < k < |ls| ==> ls[j] != ls[k]
  }

  /** Adding a listener twice is the same as adding it once, and the list stays free of duplicates. */
  lemma AddOnceIdempotent(ls: seq<Listener>, l: Listener)
    ensures AddOnce(AddOnce(ls, l), l) == AddOnce(ls, l)
    ensures l in AddOnce(ls, l)
    ensures NoDuplicates(ls) ==> NoDuplicates(AddOnce(ls, l))
  {
  }

  /** The flags of each wrapper, in order. */
  function FlagsOf(ws: seq<PluginWrapper>): (fs: seq<Flags>)
    reads set w | w in ws
    ensures |fs| == |ws|
    ensures forall k :: 0 <= k < |ws| ==> fs[k] == ws[k].Flags()
  {
    seq(|ws|, k requires 0 <= k < |ws| reads set w | w in ws => ws[k].Flags())
  }

  /** The destroyedPlugin callbacks tearing down one wrapper with flags `f` produces. */
  function DestroyedEvents(ls: seq<Listener>, w: PluginWrapper, f: Flags): seq<Event>
  {
    if f.initialized && !TearDown(f, w.plugin.hooks).after.initialized then Fanout(ls, Destroyed, w) else []
  }

  /** The hook log of each wrapper, in order. */
  ghost function HookLogsOf(ws: seq<PluginWrapper>): (cs: seq<seq<Hook>>)
    reads set w | w in ws
    ensures |cs| == |ws|
    ensures forall k :: 0 <= k < |ws| ==> cs[k] == ws[k].hookCalls
  {
    seq(|ws|, k requires 0 <= k < |ws| reads set w | w in ws => ws[k].hookCalls)
  }

  /**
   * The destroyedPlugin callbacks of a dispose pass over `ws`, whose flags
   * were `fs` before it: one notification pass per wrapper that tear-down
   * moved from initialized to not initialized.
   */
  function TearDownEvents(ls: seq<Listener>, ws: seq<PluginWrapper>, fs: seq<Flags>): seq<Event>
    requires |ws| == |fs|
  {
    if ws == [] then []
    else
      var n := |ws| - 1;
      TearDownEvents(ls, ws[..n], fs[..n]) + DestroyedEvents(ls, ws[n], fs[n])
  }

  // TearDownEventsStep, AppendRegroup, RegistrationEventsStep, RegisteredAllSnoc,
  // DisableAndDestroyAt, DisableAndDestroyNext and PluginHandler.RegisterNext
  // add no behaviour: they cut the loop bodies of dispose and loadPlugins into
  // steps small enough for the verifier to check one at a time.

  /** One more wrapper of a dispose pass adds its own destroyedPlugin callbacks at the end. */
  lemma TearDownEventsStep(ls: seq<Listener>, ws: seq<PluginWrapper>, fs: seq<Flags>, i: nat)
    requires |ws| == |fs| && i < |ws|
    ensures TearDownEvents(ls, ws[..i + 1], fs[..i + 1]) ==
      TearDownEvents(ls, ws[..i], fs[..i]) + DestroyedEvents(ls, ws[i], fs[i])
  {
    assert ws[..i + 1][..i] == ws[..i];
    assert fs[..i + 1][..i] == fs[..i];
  }

  /** Whether registration leaves a plugin initialized: its class is not excluded and its init hook returns. */
  predicate InitializedOnRegistration(p: Plugin, exclusions: seq<string>)
  {
    p.className !in exclusions && p.hooks.initOk
  }

  /** The callbacks of registering `ws` in turn: initializedPlugin for those initialized, then addedPlugin. */
  function RegistrationEvents(ls: seq<Listener>, ws: seq<PluginWrapper>, exclusions: seq<string>): seq<Event>
  {
    if ws == [] then []
    else
      var n := |ws| - 1;
      RegistrationEvents(ls, ws[..n], exclusions) +
      (if InitializedOnRegistration(ws[n].plugin, exclusions) then Fanout(ls, Initialized, ws[n]) else []) +
      Fanout(ls, Added, ws[n])
  }

  /** Regrouping callback logs, away from the heap. */
  lemma AppendRegroup(a: seq<Event>, b: seq<Event>, c: seq<Event>, d: seq<Event>)
    ensures a + b + c + d == a + (b + c + d)
    ensures a + b + c == a + (b + c)
  {
  }

  /** One more registration adds its own callbacks at the end. */
  lemma RegistrationEventsStep(ls: seq<Listener>, ws: seq<PluginWrapper>, w: PluginWrapper, exclusions: seq<string>)
    ensures RegistrationEvents(ls, ws + [w], exclusions) ==
      RegistrationEvents(ls, ws, exclusions) +
      (if InitializedOnRegistration(w.plugin, exclusions) then Fanout(ls, Initialized, w) else []) +
      Fanout(ls, Added, w)
  {
    assert (ws + [w])[..|ws|] == ws;
  }

  /** The flags and hook calls registration leaves on a new wrapper, depending on the exclusion list. */
  ghost predicate RegisteredAs(w: PluginWrapper, exclusions: seq<string>)
    reads w
  {
    && w.Metadata() == MetadataOf(w.plugin)
    && w.pluginName == NameOf(w.plugin)
    &&
    if w.plugin.className in exclusions
    then w.Flags() == Flags(false, false) && w.hookCalls == []
    else w.Flags() == Initialize(Flags(false, false), w.plugin.hooks).after && w.hookCalls == [InitHook]
  }

  /** The first |ws| plugins of `ps` were registered, in order, as the wrappers `ws` sharing `l`. */
  ghost predicate RegisteredAll(ws: seq<PluginWrapper>, ps: seq<Plugin>, l: ListenerList, exclusions: seq<string>)
    reads set w | w in ws
  {
    && |ws| <= |ps|
    && forall k :: 0 <= k < |ws| ==>
         ws[k].plugin == ps[k] && ws[k].list == l && RegisteredAs(ws[k], exclusions)
  }

  /** Registering one more plugin extends the registered prefix by its wrapper. */
  lemma RegisteredAllSnoc(ws: seq<PluginWrapper>, w: PluginWrapper, ps: seq<Plugin>, l: ListenerList, exclusions: seq<string>)
    requires RegisteredAll(ws, ps, l, exclusions) && |ws| < |ps|
    requires w.plugin == ps[|ws|] && w.list == l && RegisteredAs(w, exclusions)
    ensures RegisteredAll(ws + [w], ps, l, exclusions)
  {
    var ws' := ws + [w];
    forall k | 0 <= k < |ws'|
      ensures ws'[k].plugin == ps[k] && ws'[k].list == l && RegisteredAs(ws'[k], exclusions)
    {
      if k < |ws| {
        assert ws'[k] == ws[k];
      }
    }
  }

  /**
   * The body of the dispose loop for one plugin: disable it if enabled, then
   * destroy it if initialized, inside one try block whose exception is
   * swallowed.
   */
  method DisableAndDestroy(w: PluginWrapper)
    requires w.list != null
    modifies w`pluginEnabled, w`pluginInitialized, w`hookCalls, w.list`delivered
    ensures var t := TearDown(old(w.Flags()), w.plugin.hooks);
      w.Flags() == t.after && w.hookCalls == old(w.hookCalls) + t.calls
    ensures w.list.delivered == old(w.list.delivered) + DestroyedEvents(w.list.listeners, w, old(w.Flags()))
  {
    var ok := true;
    if w.pluginEnabled {
      ok := w.DisablePlugin();
    }
    if ok && w.pluginInitialized {
      ok := w.DestroyPlugin();
    }
  }

  /**
   * The state of a dispose pass over `ws` after its first `i` wrappers, given
   * the flags `before` and the hook logs `calls` each wrapper had at the start.
   */
  ghost predicate TornDownUpTo(ws: seq<PluginWrapper>, before: seq<Flags>, calls: seq<seq<Hook>>, i: int)
    reads set w | w in ws
  {
    && |before| == |ws| && |calls| == |ws| && 0 <= i <= |ws|
    && (forall k :: 0 <= k < i ==>
          var t := TearDown(before[k], ws[k].plugin.hooks);
          ws[k].Flags() == t.after && ws[k].hookCalls == calls[k] + t.calls)
    && (forall k :: i <= k < |ws| ==>
          ws[k].Flags() == before[k] && ws[k].hookCalls == calls[k])
  }

  /**
   * DisableAndDestroy on wrapper `i` of a dispose pass, seen from the pass:
   * its destroyedPlugin callbacks extend those of the wrappers before it.
   */
  method DisableAndDestroyAt(ws: seq<PluginWrapper>, l: ListenerList, i: int, w: PluginWrapper,
                             ghost before: seq<Flags>, ghost start: seq<Event>)
    requires |before| == |ws| && 0 <= i < |ws| && w == ws[i] && w.list == l && w.Flags() == before[i]
    requires l.delivered == start + TearDownEvents(l.listeners, ws[..i], before[..i])
    modifies w`pluginEnabled, w`pluginInitialized, w`hookCalls, l`delivered
    ensures var t := TearDown(before[i], w.plugin.hooks);
      w.Flags() == t.after && w.hookCalls == old(w.hookCalls) + t.calls
    ensures l.delivered == start + TearDownEvents(l.listeners, ws[..i + 1], before[..i + 1])
  {
    DisableAndDestroy(w);
    AppendRegroup(start, TearDownEvents(l.listeners, ws[..i], before[..i]), DestroyedEvents(l.listeners, w, before[i]), []);
    TearDownEventsStep(l.listeners, ws, before, i);
  }

  /** One turn of the dispose loop: wrapper `i` is torn down and the others keep their state. */
  method DisableAndDestroyNext(ws: seq<PluginWrapper>, l: ListenerList, i: int, w: PluginWrapper,
                               ghost before: seq<Flags>, ghost calls: seq<seq<Hook>>, ghost start: seq<Event>)
    requires forall j, k :: 0 <= j < k < |ws| ==> ws[j] != ws[k]
    requires TornDownUpTo(ws, before, calls, i) && i < |ws| && w == ws[i] && w.list == l
    requires l.delivered == start + TearDownEvents(l.listeners, ws[..i], before[..i])
    modifies w`pluginEnabled, w`pluginInitialized, w`hookCalls, l`delivered
    ensures TornDownUpTo(ws, before, calls, i + 1)
    ensures l.delivered == start + TearDownEvents(l.listeners, ws[..i + 1], before[..i + 1])
  {
    DisableAndDestroyAt(ws, l, i, w, before, start);
    assert forall k :: 0 <= k < |ws| && k != i ==> ws[k] != w;
  }

  /**
   * The dispose loop: DisableAndDestroy on every wrapper, in order. The
   * wrappers are distinct and all share the listener list `l`.
   */
  method DisableAndDestroyAll(ws: seq<PluginWrapper>, l: ListenerList)
    requires forall j, k :: 0 <= j < k < |ws| ==> ws[j] != ws[k]
    requires forall w :: w in ws ==> w.list == l
    modifies (set w | w in ws)`pluginEnabled, (set w | w in ws)`pluginInitialized
    modifies (set w | w in ws)`hookCalls, l`delivered
    ensures forall k :: 0 <= k < |ws| ==>
      var t := TearDown(old(ws[k].Flags()), ws[k].plugin.hooks);
      ws[k].Flags() == t.after && ws[k].hookCalls == old(ws[k].hookCalls) + t.calls
    ensures l.delivered == old(l.delivered) + TearDownEvents(l.listeners, ws, old(FlagsOf(ws)))
  {
    ghost var before := FlagsOf(ws);
    ghost var calls := HookLogsOf(ws);
    var i := 0;
    while i < |ws|
      invariant TornDownUpTo(ws, before, calls, i)
      invariant l.delivered == old(l.delivered) + TearDownEvents(l.listeners, ws[..i], before[..i])
    {
      assert ws[i] in ws;
      DisableAndDestroyNext(ws, l, i, ws[i], before, calls, old(l.delivered));
      i := i + 1;
    }
    assert ws[..i] == ws && before[..i] == before;
    assert before == old(FlagsOf(ws));
    assert forall k :: 0 <= k < |ws| ==> before[k] == old(ws[k].Flags()) && calls[k] == old(ws[k].hookCalls);
  }

  class PluginHandler {
    /** The TreeSet<PluginWrapper>, in iteration order. */
    var plugins: seq<PluginWrapper>
    /** Class names of plugins that must not be initialized. */
    var pluginExclusions: seq<string>
    const listenerList: ListenerList
    var closed: bool

    ghost predicate Valid()
      reads this, listenerList, set w | w in plugins
    {
      && SortedByName(plugins)
      && (forall w :: w in plugins ==> w.list == listenerList)
      && NoDuplicates(listenerList.listeners)
    }

    constructor ()
      ensures Valid() && fresh(listenerList)
      ensures plugins == [] && pluginExclusions == [] && !closed
      ensures listenerList.listeners == [] && listenerList.delivered == []
    {
      plugins := [];
      pluginExclusions := [];
      listenerList := new ListenerList();
      closed := false;
    }

    /**
     * The first half of registerPlugin: wraps a plugin, hands it the listener
     * list and initializes it unless its class is excluded (an init failure
     * is swallowed).
     */
    method Wrap(p: Plugin) returns (w: PluginWrapper)
      modifies listenerList`delivered
      ensures fresh(w) && w.plugin == p && w.list == listenerList
      ensures RegisteredAs(w, pluginExclusions)
      ensures listenerList.delivered == old(listenerList.delivered) +
        (if InitializedOnRegistration(p, pluginExclusions) then Fanout(listenerList.listeners, Initialized, w) else [])
    {
      w := new PluginWrapper(p);
      w.SetPluginListenerList(listenerList);
      if p.className !in pluginExclusions {
        var _ := w.InitializePlugin();
      }
    }

    /**
     * Wraps a plugin, initializes it unless its class is excluded (an init
     * failure is swallowed), adds it to the set and tells every listener.
     */
    method RegisterPlugin(p: Plugin) returns (ghost w: PluginWrapper)
      requires Valid()
      modifies this`plugins, listenerList`delivered
      ensures Valid()
      ensures fresh(w) && w.plugin == p && w.list == listenerList
      ensures RegisteredAs(w, pluginExclusions)
      ensures plugins == Insert(old(plugins), w)
      ensures NameOf(p) in Names(old(plugins)) ==> plugins == old(plugins)
      ensures NameOf(p) !in Names(old(plugins)) ==> multiset(plugins) == multiset(old(plugins)) + multiset{w}
      ensures Names(plugins) == Names(old(plugins)) + {NameOf(p)}
      ensures listenerList.delivered == old(listenerList.delivered) +
        (if InitializedOnRegistration(p, pluginExclusions) then Fanout(listenerList.listeners, Initialized, w) else []) +
        Fanout(listenerList.listeners, Added, w)
    {
      var wrapper := Wrap(p);
      InsertSpec(plugins, wrapper);
      InsertMembers(plugins, wrapper);
      plugins := Insert(plugins, wrapper);
      listenerList.Notify(Added, wrapper);
      w := wrapper;
    }

    /**
     * One turn of the loadPlugins loop: registers ps[i] after the wrappers
     * `ws` of the earlier turns, which keep their state.
     */
    method RegisterNext(ps: seq<Plugin>, i: int, ghost ws: seq<PluginWrapper>, ghost start: seq<PluginWrapper>,
                        ghost delivered: seq<Event>) returns (ghost w: PluginWrapper)
      requires Valid() && i == |ws| < |ps|
      requires RegisteredAll(ws, ps, listenerList, pluginExclusions)
      requires plugins == InsertAll(start, ws)
      requires listenerList.delivered == delivered + RegistrationEvents(listenerList.listeners, ws, pluginExclusions)
      modifies this`plugins, listenerList`delivered
      ensures Valid() && fresh(w)
      ensures RegisteredAll(ws + [w], ps, listenerList, pluginExclusions)
      ensures plugins == InsertAll(start, ws + [w])
      ensures listenerList.delivered == delivered + RegistrationEvents(listenerList.listeners, ws + [w], pluginExclusions)
    {
      w := RegisterPlugin(ps[i]);
      RegisteredAllSnoc(ws, w, ps, listenerList, pluginExclusions);
      assert (ws + [w])[..|ws|] == ws;
      var ls := listenerList.listeners;
      ghost var initialized := if InitializedOnRegistration(w.plugin, pluginExclusions) then Fanout(ls, Initialized, w) else [];
      AppendRegroup(delivered, RegistrationEvents(ls, ws, pluginExclusions), initialized, Fanout(ls, Added, w));
      RegistrationEventsStep(ls, ws, w, pluginExclusions);
    }

    /** loadPlugins: registers every discovered plugin, in discovery order. */
    method LoadPlugins(ps: seq<Plugin>) returns (ghost ws: seq<PluginWrapper>)
      requires Valid()
      modifies this`plugins, listenerList`delivered
      ensures Valid()
      ensures |ws| == |ps|
      ensures forall k :: 0 <= k < |ps| ==>
        fresh(ws[k]) && ws[k].plugin == ps[k] && ws[k].list == listenerList && RegisteredAs(ws[k], pluginExclusions)
      ensures plugins == InsertAll(old(plugins), ws)
      ensures Names(plugins) == Names(old(plugins)) + PluginNames(ps)
      ensures listenerList.delivered == old(listenerList.delivered) + RegistrationEvents(listenerList.listeners, ws, pluginExclusions)
    {
      ws := [];
      var i := 0;
      while i < |ps|
        invariant 0 <= i <= |ps| && |ws| == i
        invariant Valid()
        invariant RegisteredAll(ws, ps, listenerList, pluginExclusions)
        invariant forall k :: 0 <= k < i ==> fresh(ws[k])
        invariant plugins == InsertAll(old(plugins), ws)
        invariant listenerList.delivered == old(listenerList.delivered) + RegistrationEvents(listenerList.listeners, ws, pluginExclusions)
      {
        ghost var w := RegisterNext(ps, i, ws, old(plugins), old(listenerList.delivered));
        ws := ws + [w];
        i := i + 1;
      }
      InsertAllNames(old(plugins), ws);
      NamesOfWrapped(ws, ps);
    }

    /**
     * The set as an unmodifiable view, in ascending name order. Java hands out
     * a live view; it is returned here as a value. Nothing is lost: its one
     * caller, the configuration panel, copies it into a list at once.
     */
    method GetPlugins() returns (r: seq<PluginWrapper>)
      requires Valid()
      ensures r == plugins
      ensures SortedByName(r)
    {
      r := plugins;
    }

    method AddPluginListener(l: Listener)
      requires Valid()
      modifies listenerList`listeners
      ensures Valid()
      ensures listenerList.listeners == AddOnce(old(listenerList.listeners), l)
    {
      if l !in listenerList.listeners {
        listenerList.listeners := listenerList.listeners + [l];
      }
    }

    /**
     * On the first call, disables every enabled plugin and then destroys it
     * if initialized, in name order; a failing hook is swallowed and skips the
     * rest of that plugin only. Then marks the handler closed. Later calls do
     * nothing.
     */
    method Dispose()
      requires Valid()
      modifies this`closed, listenerList`delivered
      modifies (set w | w in plugins)`pluginEnabled, (set w | w in plugins)`pluginInitialized
      modifies (set w | w in plugins)`hookCalls
      ensures Valid() && closed
      ensures old(closed) ==>
        listenerList.delivered == old(listenerList.delivered) &&
        forall k :: 0 <= k < |plugins| ==>
          plugins[k].Flags() == old(plugins[k].Flags()) && plugins[k].hookCalls == old(plugins[k].hookCalls)
      ensures !old(closed) ==>
        forall k :: 0 <= k < |plugins| ==>
          var t := TearDown(old(plugins[k].Flags()), plugins[k].plugin.hooks);
          plugins[k].Flags() == t.after && plugins[k].hookCalls == old(plugins[k].hookCalls) + t.calls
      ensures !old(closed) ==>
        forall k :: 0 <= k < |plugins| ==>
          var h := plugins[k].plugin.hooks;
          h.disableOk && h.destroyOk ==> !plugins[k].pluginInitialized && !plugins[k].pluginEnabled
      ensures !old(closed) ==>
        listenerList.delivered ==
          old(listenerList.delivered) + TearDownEvents(listenerList.listeners, plugins, old(FlagsOf(plugins)))
    {
      if closed {
        return;
      }
      SortedDistinct(plugins);
      DisableAndDestroyAll(plugins, listenerList);
      closed := true;
    }

    /** Replaces the exclusion list; only later registrations consult it. */
    method SetPluginExclusion(disabledPlugins: seq<string>)
      requires Valid()
      modifies this`pluginExclusions
      ensures Valid()
      ensures pluginExclusions == disabledPlugins
    {
      pluginExclusions := disabledPlugins;
    }
  }
}
