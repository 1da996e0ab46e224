/**
 * The exclusion part of Configuration: the comma-separated
 * "disabled_plugins" property and the look-and-feel property, over the
 * key/value store of java.util.Properties.
 */
module Config {
  import opened Options
  import opened Plugins

  const KeyLookAndFeel: string := "look_and_feel"
  const KeyDisabledPlugins: string := "disabled_plugins"

  /** String.trim().isEmpty(): trim strips every character up to U+0020 from both ends. */
  predicate IsBlank(s: string)
  {
    forall k :: 0 <= k < |s| ==> s[k] <= ' '
  }

  /** Pieces glued back together with commas between them. */
  function Join(ps: seq<string>): string
    requires |ps| >= 1
  {
    if |ps| == 1 then ps[0] else ps[0] + "," + Join(ps[1..])
  }

  /** Every piece between commas, empty pieces included; Join undoes it. */
  function Pieces(s: string): (r: seq<string>)
    ensures |r| >= 1
    ensures forall k :: 0 <= k < |r| ==> ',' !in r[k]
    ensures Join(r) == s
  {
    if s == [] then [""]
    else
      var rest := Pieces(s[1..]);
      if s[0] == ',' then
        assert ([""] + rest)[1..] == rest;
        assert s == "," + s[1..];
        [""] + rest
      else
        var r := [[s[0]] + rest[0]] + rest[1..];
        assert r[1..] == rest[1..];
        assert s == [s[0]] + s[1..];
        assert |rest| > 1 ==> Join(rest) == rest[0] + "," + Join(rest[1..]);
        r
  }

  /** Drops the empty strings at the end, and only those. */
  function DropTrailingEmpty(ps: seq<string>): (r: seq<string>)
    ensures |r| <= |ps| && r == ps[..|r|]
    ensures forall k :: |r| <= k < |ps| ==> ps[k] == ""
    ensures r == [] || r[|r| - 1] != ""
  {
    if ps == [] || ps[|ps| - 1] != "" then ps else DropTrailingEmpty(ps[..|ps| - 1])
  }

  /**
   * String.split(","): a string without a comma comes back whole; otherwise
   * the pieces between commas, untrimmed, with the empty pieces at the end
   * removed.
   */
  function Split(s: string): (r: seq<string>)
    ensures ',' !in s ==> r == [s]
    ensures forall k :: 0 <= k < |r| ==> ',' !in r[k]
    ensures ',' in s ==> |r| <= |Pieces(s)| && r == Pieces(s)[..|r|] && forall k :: |r| <= k < |Pieces(s)| ==> Pieces(s)[k] == ""
    ensures ',' in s ==> r == [] || r[|r| - 1] != ""
  {
    if ',' !in s then [s] else DropTrailingEmpty(Pieces(s))
  }

  /** getDisabledPlugins on the stored property value, if any. */
  function DisabledPlugins(property: Option<string>): (r: seq<string>)
    ensures property.None? || IsBlank(property.value) ==> r == []
    ensures forall k :: 0 <= k < |r| ==> ',' !in r[k]
    ensures property.Some? && !IsBlank(property.value) ==> r == Split(property.value)
    ensures property.Some? && !IsBlank(property.value) && ',' !in property.value ==> r == [property.value]
  {
    if property.None? || IsBlank(property.value) then [] else Split(property.value)
  }

  /** What setDisabledPlugins writes: every class name followed by a comma. */
  function Terminated(names: seq<string>): (r: string)
    ensures r == "" <==> names == []
    ensures r != "" ==> r[|r| - 1] == ','
  {
    if names == [] then "" else names[0] + "," + Terminated(names[1..])
  }

  /** The class names of the plugins left uninitialized, in iteration order. */
  function UninitializedClassNames(ps: seq<PluginWrapper>): seq<string>
    reads set p | p in ps
  {
    if ps == [] then []
    else
      var n := |ps| - 1;
      UninitializedClassNames(ps[..n]) + (if !ps[n].pluginInitialized then [ps[n].plugin.className] else [])
  }

  /** Names the property can carry unchanged: non-empty and free of commas. */
  predicate Separable(names: seq<string>)
  {
    forall k :: 0 <= k < |names| ==> names[k] != "" && ',' !in names[k]
  }

  /** Appending a name appends it and its comma to the text. */
  lemma {:induction false} TerminatedSnoc(names: seq<string>, x: string)
    ensures Terminated(names + [x]) == Terminated(names) + x + ","
  {
    if names != [] {
      assert (names + [x])[1..] == names[1..] + [x];
      TerminatedSnoc(names[1..], x);
    }
  }

  /** A comma right after a comma-free prefix ends the first piece. */
  lemma {:induction false} PiecesAfter(a: string, b: string)
    requires ',' !in a
    ensures Pieces(a + "," + b) == [a] + Pieces(b)
  {
    if a == [] {
      assert a + "," + b == "," + b;
      assert ("," + b)[1..] == b;
    } else {
      assert (a + "," + b)[1..] == a[1..] + "," + b;
      assert (a + "," + b)[0] == a[0];
      PiecesAfter(a[1..], b);
      assert [a[0]] + a[1..] == a;
    }
  }

  /** The pieces of the written text are the names followed by one empty piece. */
  lemma {:induction false} PiecesOfTerminated(names: seq<string>)
    requires forall k :: 0 <= k < |names| ==> ',' !in names[k]
    ensures Pieces(Terminated(names)) == names + [""]
  {
    if names != [] {
      PiecesOfTerminated(names[1..]);
      PiecesAfter(names[0], Terminated(names[1..]));
      assert names == [names[0]] + names[1..];
    }
  }

  /** A comma-terminated text is neither blank nor free of commas. */
  lemma TerminatedHasComma(names: seq<string>)
    requires names != []
    ensures ',' in Terminated(names) && !IsBlank(Terminated(names))
  {
    var s := Terminated(names);
    assert s[|names[0]|] == ',';
  }

  /** One empty piece after a non-empty last name is all split removes. */
  lemma DropOneTrailingEmpty(names: seq<string>)
    requires names != [] && names[|names| - 1] != ""
    ensures DropTrailingEmpty(names + [""]) == names
  {
    assert (names + [""])[..|names|] == names;
  }

  lemma PiecesOfHandEdited()
    ensures Pieces("a,,b,,") == ["a", "", "b", "", ""]
  {
    assert Pieces("") == [""];
    assert Pieces(",") == ["", ""];
    assert "b,," == "b" + "," + ",";
    PiecesAfter("b", ",");
    assert Pieces(",b,,") == ["", "b", "", ""];
    assert "a,,b,," == "a" + "," + ",b,,";
    PiecesAfter("a", ",b,,");
  }

  /** A hand-edited property keeps inner empty names and loses only the trailing ones. */
  lemma SplitHandEdited()
    ensures Split("a,,b,,") == ["a", "", "b"]
  {
    PiecesOfHandEdited();
    assert "a,,b,,"[1] == ',';
    var ps: seq<string> := ["a", "", "b", "", ""];
    assert ps[..4] == ["a", "", "b", ""];
    assert ps[..4][..3] == ["a", "", "b"];
    assert DropTrailingEmpty(ps) == DropTrailingEmpty(ps[..4]);
    assert DropTrailingEmpty(ps[..4]) == DropTrailingEmpty(ps[..4][..3]);
  }

  /** A single trailing comma is dropped, and a text of commas alone splits into nothing. */
  lemma SplitTrailingComma()
    ensures Split("a,") == ["a"]
    ensures Split(",,") == []
  {
    assert "a," == "a" + "," + "";
    PiecesAfter("a", "");
    assert Pieces("") == [""];
    assert "a,"[1] == ',';
    assert Pieces(",") == ["", ""];
    assert Pieces(",,") == ["", "", ""];
    assert ",,"[0] == ',';
  }

  /** Reading the property back gives exactly the names written, in order. */
  lemma DisabledPluginsRoundTrip(names: seq<string>)
    requires Separable(names)
    ensures DisabledPlugins(Some(Terminated(names))) == names
  {
    if names != [] {
      TerminatedHasComma(names);
      PiecesOfTerminated(names);
      DropOneTrailingEmpty(names);
    }
  }

  class Configuration {
    /** The loaded java.util.Properties. */
    var props: map<string, string>

    /**
     * Loads the properties stored in the configuration file when it exists
     * and is a regular file; a missing file is created empty and nothing is
     * loaded, and neither is anything from a path that is not a regular file.
     * The file system is the parameters: whether the path exists, whether it
     * is a regular file, and what Properties.load reads from it.
     */
    constructor (fileExists: bool, isFile: bool, stored: map<string, string>)
      ensures props == (if fileExists && isFile then stored else map[])
      ensures !(fileExists && isFile) ==> GetDisabledPlugins() == [] && forall d :: GetLookAndFeel(d) == d
    {
      if fileExists && isFile {
        props := stored;
      } else {
        props := map[];
      }
    }

    function Property(key: string): Option<string>
      reads this
    {
      if key in props then Some(props[key]) else None
    }

    /** The stored look-and-feel, or the system one (a parameter here) when none is stored. */
    function GetLookAndFeel(systemDefault: string): (r: string)
      reads this
      ensures KeyLookAndFeel in props ==> r == props[KeyLookAndFeel]
      ensures KeyLookAndFeel !in props ==> r == systemDefault
    {
      if KeyLookAndFeel in props then props[KeyLookAndFeel] else systemDefault
    }

    method SetLookAndFeel(lookAndFeel: string)
      modifies this`props
      ensures props == old(props)[KeyLookAndFeel := lookAndFeel]
      ensures forall d :: GetLookAndFeel(d) == lookAndFeel
    {
      props := props[KeyLookAndFeel := lookAndFeel];
    }

    /** The excluded class names, none when the property is missing or blank; none of them holds a comma. */
    function GetDisabledPlugins(): (r: seq<string>)
      reads this
      ensures KeyDisabledPlugins !in props || IsBlank(props[KeyDisabledPlugins]) ==> r == []
      ensures KeyDisabledPlugins in props && !IsBlank(props[KeyDisabledPlugins]) ==> r == Split(props[KeyDisabledPlugins])
      ensures forall k :: 0 <= k < |r| ==> ',' !in r[k]
    {
      DisabledPlugins(Property(KeyDisabledPlugins))
    }

    /**
     * Stores the class names of the plugins that are not initialized, each
     * followed by a comma; leaves the property alone for an empty collection.
     * (The source's second emptiness test, on the iterator, cannot fire.)
     */
    method SetDisabledPlugins(plugins: seq<PluginWrapper>)
      modifies this`props
      ensures plugins == [] ==> props == old(props)
      ensures plugins != [] ==>
        props == old(props)[KeyDisabledPlugins := Terminated(UninitializedClassNames(plugins))]
      ensures plugins != [] && Separable(UninitializedClassNames(plugins)) ==>
        GetDisabledPlugins() == UninitializedClassNames(plugins)
    {
      if |plugins| != 0 {
        var sb := "";
        var i := 0;
        while true
          invariant 0 <= i < |plugins|
          invariant sb == Terminated(UninitializedClassNames(plugins[..i]))
          invariant props == old(props)
          decreases |plugins| - i
        {
          var p := plugins[i];
          assert plugins[..i + 1][..i] == plugins[..i];
          ghost var before := UninitializedClassNames(plugins[..i]);
          if !p.pluginInitialized {
            assert UninitializedClassNames(plugins[..i + 1]) == before + [p.plugin.className];
            TerminatedSnoc(before, p.plugin.className);
            sb := sb + p.plugin.className + ",";
          } else {
            assert UninitializedClassNames(plugins[..i + 1]) == before + [];
            assert before + [] == before;
          }
          i := i + 1;
          if i == |plugins| {
            assert plugins[..i] == plugins;
            assert sb == Terminated(UninitializedClassNames(plugins));
            props := props[KeyDisabledPlugins := sb];
            if Separable(UninitializedClassNames(plugins)) {
              DisabledPluginsRoundTrip(UninitializedClassNames(plugins));
            }
            return;
          }
        }
      }
    }
  }
}
