/**
 * The key-combination formatter of libobs/obs-nix.c (add_combo_key and
 * obs_key_combination_to_str): it appends the names of a combination's parts
 * to a caller-owned string, in the fixed order Control, Meta, Alt, Shift, key,
 * skipping parts whose name is empty and putting " + " between parts.
 */
module CombinationFormat {
  import opened Keys
  import opened HotkeysRegistry

  const Separator: string := " + "

  /** Reference rendering: the parts joined by the separator. */
  function Join(parts: seq<string>): string
  {
    if |parts| == 0 then ""
    else if |parts| == 1 then parts[0]
    else parts[0] + Separator + Join(parts[1..])
  }

  /** The parts whose name is not empty, in their order. */
  function NonEmpty(names: seq<string>): (r: seq<string>)
    ensures |r| <= |names|
    ensures forall i :: 0 <= i < |r| ==> r[i] != ""
  {
    if names == [] then []
    else (if names[0] == "" then [] else [names[0]]) + NonEmpty(names[1..])
  }

  /** One step of add_combo_key once the key's name is known: an empty name
      adds nothing, a non-empty one is appended, after the separator when the
      output already holds text. */
  function AppendName(out: string, name: string): (r: string)
    ensures |out| <= |r| && r[..|out|] == out
    ensures r == out <==> name == ""
    ensures name != "" ==> |r| > |out|
    ensures out == "" ==> r == name
  {
    if name == "" then out
    else if out == "" then name
    else out + Separator + name
  }

  /** add_combo_key applied to each name in turn. */
  function AppendNames(out: string, names: seq<string>): (r: string)
    ensures |out| <= |r| && r[..|out|] == out
  {
    if names == [] then out
    else AppendName(AppendNames(out, names[..|names| - 1]), names[|names| - 1])
  }

  /** The rank of a modifier key in the output order; 4 for any other key. */
  function ModifierRank(k: Key): nat
  {
    match k
    case KeyControl => 0
    case KeyMeta => 1
    case KeyAlt => 2
    case KeyShift => 3
    case _ => 4
  }

  /** The key that renders a modifier flag. */
  function ModifierKey(m: Modifier): Key
  {
    match m
    case ControlKey => KeyControl
    case CommandKey => KeyMeta
    case AltKey => KeyAlt
    case ShiftKey => KeyShift
  }

  /** The keys rendered for the modifier flags of a combination. */
  function ModifierKeys(modifiers: set<Modifier>): seq<Key>
  {
    (if ControlKey in modifiers then [KeyControl] else []) +
    (if CommandKey in modifiers then [KeyMeta] else []) +
    (if AltKey in modifiers then [KeyAlt] else []) +
    (if ShiftKey in modifiers then [KeyShift] else [])
  }

  /** Exactly the keys of the flags that are set are rendered, whatever the
      flags are. */
  lemma ModifierKeysExactly(modifiers: set<Modifier>)
    ensures forall m :: ModifierKey(m) in ModifierKeys(modifiers) <==> m in modifiers
  {
  }

  /** The rendered modifier keys come in the order Control, Meta, Alt, Shift. */
  lemma ModifierKeysOrdered(modifiers: set<Modifier>)
    ensures var keys := ModifierKeys(modifiers);
            forall i, j :: 0 <= i < j < |keys| ==> ModifierRank(keys[i]) < ModifierRank(keys[j])
  {
  }

  /** The keys obs_key_combination_to_str renders, in output order. */
  function PartKeys(c: KeyCombination): (keys: seq<Key>)
    ensures KeyNone !in keys
    ensures forall i :: 0 <= i < |keys| ==> keys[i] == c.key || ModifierRank(keys[i]) < 4
    ensures c.key != KeyNone ==> |keys| > 0 && keys[|keys| - 1] == c.key
  {
    ModifierKeys(c.modifiers) + (if c.key != KeyNone then [c.key] else [])
  }

  /** The name of each key, in order. */
  function Names(keys: seq<Key>, name: Key -> string): seq<string>
  {
    seq(|keys|, i requires 0 <= i < |keys| => name(keys[i]))
  }

  /** What obs_key_combination_to_str leaves in a string that held out, when
      the bound backend names keys by name: one add_combo_key step per flag
      that is set, then one for the primary key unless it is OBS_KEY_NONE. */
  function Render(out: string, c: KeyCombination, name: Key -> string): (r: string)
    ensures c.modifiers == {} && c.key == KeyNone ==> r == out
  {
    var withControl := if ControlKey in c.modifiers then AppendName(out, name(KeyControl)) else out;
    var withMeta := if CommandKey in c.modifiers then AppendName(withControl, name(KeyMeta)) else withControl;
    var withAlt := if AltKey in c.modifiers then AppendName(withMeta, name(KeyAlt)) else withMeta;
    var withShift := if ShiftKey in c.modifiers then AppendName(withAlt, name(KeyShift)) else withAlt;
    if c.key != KeyNone then AppendName(withShift, name(c.key)) else withShift
  }

  lemma {:induction false} JoinConcat(xs: seq<string>, ys: seq<string>)
    requires xs != [] && ys != []
    ensures Join(xs + ys) == Join(xs) + Separator + Join(ys)
    decreases |xs|
  {
    if |xs| == 1 {
      assert (xs + ys)[1..] == ys;
    } else {
      assert (xs + ys)[1..] == xs[1..] + ys;
      JoinConcat(xs[1..], ys);
    }
  }

  lemma {:induction false} JoinNotEmpty(parts: seq<string>)
    requires parts != [] && forall i :: 0 <= i < |parts| ==> parts[i] != ""
    ensures Join(parts) != ""
  {
    assert |Join(parts)| >= |parts[0]|;
  }

  lemma {:induction false} NonEmptyConcat(a: seq<string>, b: seq<string>)
    ensures NonEmpty(a + b) == NonEmpty(a) + NonEmpty(b)
    decreases |a|
  {
    if a != [] {
      assert (a + b)[0] == a[0];
      assert (a + b)[1..] == a[1..] + b;
      NonEmptyConcat(a[1..], b);
      var head := if a[0] == "" then [] else [a[0]];
      assert NonEmpty(a) == head + NonEmpty(a[1..]);
      assert NonEmpty(a + b) == head + NonEmpty(a[1..] + b);
    } else {
      assert a + b == b;
    }
  }

  /** Appending names one by one equals joining the non-empty strings among
      the prior output and the names: no separator is ever leading, trailing
      or doubled. */
  lemma {:induction false} AppendNamesIsJoin(out: string, names: seq<string>)
    ensures AppendNames(out, names) == Join(NonEmpty([out] + names))
    decreases |names|
  {
    if names == [] {
      assert [out] + names == [out];
    } else {
      var init, n := names[..|names| - 1], names[|names| - 1];
      AppendNamesIsJoin(out, init);
      var prior := NonEmpty([out] + init);
      assert [out] + names == ([out] + init) + [n];
      NonEmptyConcat([out] + init, [n]);
      assert NonEmpty([n]) == (if n == "" then [] else [n]);
      if n != "" {
        if prior == [] {
          assert prior + [n] == [n];
        } else {
          JoinNotEmpty(prior);
          JoinConcat(prior, [n]);
        }
      } else {
        assert prior + [] == prior;
      }
    }
  }

  lemma NamesSnoc(keys: seq<Key>, k: Key, name: Key -> string)
    ensures Names(keys + [k], name) == Names(keys, name) + [name(k)]
  {
  }

  /** One step of the formatter: appending key's name extends the rendering of done. */
  lemma AppendNamesStep(out: string, done: seq<Key>, k: Key, name: Key -> string)
    ensures AppendNames(out, Names(done + [k], name)) == AppendName(AppendNames(out, Names(done, name)), name(k))
  {
    NamesSnoc(done, k, name);
    var names := Names(done + [k], name);
    assert names[..|names| - 1] == Names(done, name);
  }

  /** An add_combo_key step that runs only when present extends the rendering
      of done by key exactly when present. */
  lemma StepIf(out: string, done: seq<Key>, present: bool, key: Key, name: Key -> string)
    ensures var before := AppendNames(out, Names(done, name));
            (if present then AppendName(before, name(key)) else before) ==
            AppendNames(out, Names(done + (if present then [key] else []), name))
  {
    if present {
      AppendNamesStep(out, done, key, name);
    } else {
      assert done + [] == done;
    }
  }

  /** The formatter's steps append the names of PartKeys(c), in order. */
  lemma RenderIsAppendNames(out: string, c: KeyCombination, name: Key -> string)
    ensures Render(out, c, name) == AppendNames(out, Names(PartKeys(c), name))
  {
    var m := c.modifiers;
    var control := if ControlKey in m then [KeyControl] else [];
    var meta := control + if CommandKey in m then [KeyMeta] else [];
    var alt := meta + if AltKey in m then [KeyAlt] else [];
    var shift := alt + if ShiftKey in m then [KeyShift] else [];
    assert Names([], name) == [];
    StepIf(out, [], ControlKey in m, KeyControl, name);
    assert [] + control == control;
    StepIf(out, control, CommandKey in m, KeyMeta, name);
    StepIf(out, meta, AltKey in m, KeyAlt, name);
    StepIf(out, alt, ShiftKey in m, KeyShift, name);
    StepIf(out, shift, c.key != KeyNone, c.key, name);
  }

  /** The rendered string is the non-empty names of the prior output and the
      parts, in order Control, Meta, Alt, Shift, key, joined by " + ". */
  lemma RenderIsJoin(out: string, c: KeyCombination, name: Key -> string)
    ensures Render(out, c, name) == Join(NonEmpty([out] + Names(PartKeys(c), name)))
  {
    RenderIsAppendNames(out, c, name);
    AppendNamesIsJoin(out, Names(PartKeys(c), name));
  }

  /** What the output held before is kept as a prefix. */
  lemma RenderKeepsPrefix(out: string, c: KeyCombination, name: Key -> string)
    ensures var r := Render(out, c, name); |out| <= |r| && r[..|out|] == out
  {
    RenderIsAppendNames(out, c, name);
  }

  /** Rendered into an empty string, the result is exactly the non-empty part
      names joined by " + ". */
  lemma RenderFromEmpty(c: KeyCombination, name: Key -> string)
    ensures Render("", c, name) == Join(NonEmpty(Names(PartKeys(c), name)))
  {
    var names := Names(PartKeys(c), name);
    RenderIsJoin("", c, name);
    NonEmptyConcat([""], names);
    assert [""][1..] == [];
    assert NonEmpty([""]) == [];
    assert [] + NonEmpty(names) == NonEmpty(names);
  }

  /** Appending leaves the output as it was exactly when every name is empty. */
  lemma {:induction false} AppendNamesUnchanged(out: string, names: seq<string>)
    ensures AppendNames(out, names) == out <==> forall i :: 0 <= i < |names| ==> names[i] == ""
    decreases |names|
  {
    if names != [] {
      var init, n := names[..|names| - 1], names[|names| - 1];
      AppendNamesUnchanged(out, init);
      var prior := AppendNames(out, init);
      if n != "" {
        assert |AppendName(prior, n)| > |prior|;
      } else if forall i :: 0 <= i < |init| ==> init[i] == "" {
        assert forall i :: 0 <= i < |names| ==> names[i] == "" by {
          forall i | 0 <= i < |names| ensures names[i] == "" {
            if i < |init| { assert names[i] == init[i]; }
          }
        }
      } else {
        var i :| 0 <= i < |init| && init[i] != "";
        assert names[i] == init[i];
      }
    }
  }

  /** The output is left unchanged exactly when every part renders to the empty name. */
  lemma RenderUnchanged(out: string, c: KeyCombination, name: Key -> string)
    ensures Render(out, c, name) == out <==> forall k :: k in PartKeys(c) ==> name(k) == ""
  {
    var keys := PartKeys(c);
    var names := Names(keys, name);
    RenderIsAppendNames(out, c, name);
    AppendNamesUnchanged(out, names);
    if forall i :: 0 <= i < |names| ==> names[i] == "" {
      forall k | k in keys ensures name(k) == "" {
        var i :| 0 <= i < |keys| && keys[i] == k;
        assert names[i] == name(k);
      }
    }
  }

  /** No modifier flags and OBS_KEY_NONE: the output is unchanged. */
  lemma EmptyCombinationUnchanged(out: string, name: Key -> string)
    ensures Render(out, KeyCombination({}, KeyNone), name) == out
  {
  }

  /** A primary key of OBS_KEY_NONE never contributes, whatever name the
      backend would give it. */
  lemma KeyNoneIgnored(out: string, modifiers: set<Modifier>, name1: Key -> string, name2: Key -> string)
    requires forall k :: k != KeyNone ==> name1(k) == name2(k)
    ensures Render(out, KeyCombination(modifiers, KeyNone), name1) ==
            Render(out, KeyCombination(modifiers, KeyNone), name2)
  {
  }

  /** Control and Alt held with a primary key named "A" render as "Ctrl + Alt + A". */
  lemma RenderCtrlAltA(a: Key, name: Key -> string)
    requires a != KeyNone
    requires name(KeyControl) == "Ctrl" && name(KeyAlt) == "Alt" && name(a) == "A"
    ensures Render("", KeyCombination({ControlKey, AltKey}, a), name) == "Ctrl + Alt + A"
  {
  }

  /** Shift and Control are rendered Control first, whatever order the flags
      were set in. */
  lemma RenderControlBeforeShift(name: Key -> string)
    requires name(KeyControl) == "Control" && name(KeyShift) == "Shift"
    ensures Render("", KeyCombination({ShiftKey, ControlKey}, KeyNone), name) == "Control + Shift"
  {
  }

  /** Control held but named "" by the backend, with key "A": renders as "A",
      with no leading separator. */
  lemma RenderSkipsEmptyModifier(a: Key, name: Key -> string)
    requires a != KeyNone
    requires name(KeyControl) == "" && name(a) == "A"
    ensures Render("", KeyCombination({ControlKey}, a), name) == "A"
  {
  }

  /** The caller-owned dynamic string (struct dstr) appended to in place. */
  class DStr {
    var text: string

    constructor ()
      ensures text == ""
    {
      text := "";
    }
  }

  /** add_combo_key: look up the key's name through the registry and append it. */
  method AddComboKey(registry: Registry, key: Key, str: DStr)
    requires registry.IsBound()
    modifies str
    ensures str.text == AppendName(old(str.text), registry.BoundOps().keyToStr(key))
  {
    var keyStr := registry.KeyToStr(key);
    if keyStr != "" {
      if str.text != "" {
        str.text := str.text + Separator;
      }
      str.text := str.text + keyStr;
    }
  }

  /** obs_key_combination_to_str: append the combination's rendering to str. */
  method KeyCombinationToStr(registry: Registry, combination: KeyCombination, str: DStr)
    requires registry.IsBound() || PartKeys(combination) == []
    modifies str
    ensures PartKeys(combination) == [] ==> str.text == old(str.text)
    ensures registry.IsBound() ==> str.text == Render(old(str.text), combination, registry.BoundOps().keyToStr)
  {
    if ControlKey in combination.modifiers {
      AddComboKey(registry, KeyControl, str);
    }
    if CommandKey in combination.modifiers {
      AddComboKey(registry, KeyMeta, str);
    }
    if AltKey in combination.modifiers {
      AddComboKey(registry, KeyAlt, str);
    }
    if ShiftKey in combination.modifiers {
      AddComboKey(registry, KeyShift, str);
    }
    if combination.key != KeyNone {
      AddComboKey(registry, combination.key, str);
    }
  }
}
