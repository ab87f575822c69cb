/**
 * Key bindings (src/app/keybindings/keybindings.rs): key modifiers written
 * as '+'-separated names in the configuration file and read back, the
 * display text of a key press, and the per-section tables from action to
 * key presses and from key press to action that `Keybindings::new` builds
 * from the configuration and each action's defaults.
 *
 * The action type is a type parameter; its sections, the actions listed in
 * a section and an action's default bindings are parameters, as the
 * `KeyboundAction` trait leaves them to the implementing type.
 */
module Keybindings {
  import opened Wrappers
  import opened Realm
  import Strings

  // ---------------------------------------------------------------------
  // Modifiers as text
  // ---------------------------------------------------------------------

  /** The names of the flags that are set, in the order Ctrl, Alt, Shift. */
  function ModifierNames(m: KeyModifiers): (names: seq<string>)
    ensures |names| <= 3
    ensures ("Ctrl" in names <==> m.control) && ("Alt" in names <==> m.alt) && ("Shift" in names <==> m.shift)
    ensures forall k :: 0 <= k < |names| ==> names[k] in {"Ctrl", "Alt", "Shift"}
  {
    (if m.control then ["Ctrl"] else []) + (if m.alt then ["Alt"] else []) + (if m.shift then ["Shift"] else [])
  }

  /** The text `key_modifiers_to_string` produces: the names joined with '+'. */
  function ModifiersText(m: KeyModifiers): (r: string)
    ensures r == "" <==> m == NONE
  {
    var names := ModifierNames(m);
    assert names != [] ==> names[0] in {"Ctrl", "Alt", "Shift"} && |Strings.Join(names, '+')| >= |names[0]| > 0;
    Strings.Join(names, '+')
  }

  /** No flags give the empty text; otherwise the text neither starts nor ends with '+'. */
  lemma ModifiersTextShape(m: KeyModifiers)
    ensures ModifiersText(m) == "" <==> m == NONE
    ensures ModifiersText(m) != "" ==> ModifiersText(m)[0] != '+' && ModifiersText(m)[|ModifiersText(m)| - 1] != '+'
  {
    var names := ModifierNames(m);
    var t := ModifiersText(m);
    if names != [] {
      if |names| > 1 {
        assert t == names[0] + "+" + Strings.Join(names[1..], '+');
      }
      assert t[0] == names[0][0];
      var n := |names| - 1;
      assert names == names[..n] + [names[n]];
      Strings.JoinSnoc(names[..n], names[n], '+');
      assert t[|t| - 1] == names[n][|names[n]| - 1];
    }
  }

  /** `key_modifiers_to_string`: each set flag's name, with '+' before all but the first. */
  method KeyModifiersToString(m: KeyModifiers) returns (result: string)
    ensures result == ModifiersText(m)
  {
    result := "";
    var hasOne := false;
    if m.control {
      result := result + "Ctrl";
      hasOne := true;
    }
    if m.alt {
      if hasOne {
        result := result + "+";
      }
      result := result + "Alt";
      hasOne := true;
    }
    if m.shift {
      if hasOne {
        result := result + "+";
      }
      result := result + "Shift";
    }
  }

  /** The tokens `visit_str` accepts. */
  predicate KnownToken(item: string)
  {
    item == "Ctrl" || item == "Alt" || item == "Shift" || item == ""
  }

  /** Whether every token is one `visit_str` accepts. */
  predicate AllKnown(items: seq<string>)
  {
    forall k :: 0 <= k < |items| ==> KnownToken(items[k])
  }

  /** The flag a known token stands for; the empty token stands for none. */
  function TokenFlags(item: string): KeyModifiers
  {
    if item == "Ctrl" then CONTROL else if item == "Alt" then ALT else if item == "Shift" then SHIFT else NONE
  }

  /** The flags whose names occur among the tokens. */
  function Mentioned(items: seq<string>): (m: KeyModifiers)
    ensures m.control == ("Ctrl" in items) && m.alt == ("Alt" in items) && m.shift == ("Shift" in items)
  {
    KeyModifiers("Ctrl" in items, "Alt" in items, "Shift" in items)
  }

  /** The tokens of a modifiers text read from left to right onto `acc`, stopping at the first unknown one. */
  function ParseItems(items: seq<string>, acc: KeyModifiers): Result<KeyModifiers, string>
    decreases |items|
  {
    if items == [] then Ok(acc)
    else
      var item := items[0];
      if item == "Ctrl" then ParseItems(items[1..], Union(acc, CONTROL))
      else if item == "Alt" then ParseItems(items[1..], Union(acc, ALT))
      else if item == "Shift" then ParseItems(items[1..], Union(acc, SHIFT))
      else if item == "" then ParseItems(items[1..], acc)
      else Err("Unknown key modifier: " + item)
  }

  /** What reading a modifiers text gives. */
  function ParseModifiers(value: string): (r: Result<KeyModifiers, string>)
    ensures r.Ok? <==> AllKnown(Strings.Split(value, '+'))
    ensures r.Ok? ==> r.value == Mentioned(Strings.Split(value, '+'))
  {
    var items := Strings.Split(value, '+');
    ParseFailsIffUnknown(items, NONE);
    if ParseItems(items, NONE).Ok? then
      ParseKnownItems(items, NONE);
      assert Union(NONE, Mentioned(items)) == Mentioned(items);
      ParseItems(items, NONE)
    else ParseItems(items, NONE)
  }

  /** `visit_str`: split at '+', OR in each known name, skip empty pieces, reject anything else. */
  method VisitStr(value: string) returns (r: Result<KeyModifiers, string>)
    ensures r == ParseModifiers(value)
  {
    var items := Strings.Split(value, '+');
    var modifiers := NONE;
    var i := 0;
    while i < |items|
      invariant 0 <= i <= |items|
      invariant ParseItems(items[i..], modifiers) == ParseItems(items, NONE)
    {
      var item := items[i];
      assert items[i..][1..] == items[i + 1..];
      if item == "Ctrl" {
        modifiers := Union(modifiers, CONTROL);
      } else if item == "Alt" {
        modifiers := Union(modifiers, ALT);
      } else if item == "Shift" {
        modifiers := Union(modifiers, SHIFT);
      } else if item == "" {
      } else {
        return Err("Unknown key modifier: " + item);
      }
      i := i + 1;
    }
    return Ok(modifiers);
  }

  /** `visit_none`: a missing value reads as no modifiers. */
  function VisitNone(): (m: KeyModifiers)
    ensures m == NONE && ModifiersText(m) == ""
  {
    NONE
  }

  /** Known tokens only: the result is the flags named, ORed onto `acc`, whatever their order or repetition. */
  lemma {:induction false} ParseKnownItems(items: seq<string>, acc: KeyModifiers)
    requires forall k :: 0 <= k < |items| ==> KnownToken(items[k])
    ensures ParseItems(items, acc) == Ok(Union(acc, Mentioned(items)))
    decreases |items|
  {
    if items != [] {
      assert items == [items[0]] + items[1..];
      ParseKnownItems(items[1..], Union(acc, TokenFlags(items[0])));
      assert Union(acc, NONE) == acc;
    }
  }

  /** An unknown token with only known ones before it is the one the error names. */
  lemma {:induction false} ParseStopsAtUnknown(items: seq<string>, acc: KeyModifiers, j: nat)
    requires j < |items| && !KnownToken(items[j])
    requires forall k :: 0 <= k < j ==> KnownToken(items[k])
    ensures ParseItems(items, acc) == Err("Unknown key modifier: " + items[j])
    decreases j
  {
    if j > 0 {
      assert Union(acc, NONE) == acc;
      ParseStopsAtUnknown(items[1..], Union(acc, TokenFlags(items[0])), j - 1);
    }
  }

  /** Reading fails exactly when some token is unknown. */
  lemma {:induction false} ParseFailsIffUnknown(items: seq<string>, acc: KeyModifiers)
    ensures ParseItems(items, acc).Err? <==> exists k :: 0 <= k < |items| && !KnownToken(items[k])
    decreases |items|
  {
    if items != [] {
      assert Union(acc, NONE) == acc;
      ParseFailsIffUnknown(items[1..], Union(acc, TokenFlags(items[0])));
      if exists k :: 0 <= k < |items[1..]| && !KnownToken(items[1..][k]) {
        var k :| 0 <= k < |items[1..]| && !KnownToken(items[1..][k]);
        assert !KnownToken(items[k + 1]);
      }
      if exists k :: 0 <= k < |items| && !KnownToken(items[k]) {
        var k :| 0 <= k < |items| && !KnownToken(items[k]);
        if k > 0 {
          assert !KnownToken(items[1..][k - 1]);
        }
      }
    }
  }

  /** Two texts naming the same flags with known tokens read the same: "Alt+Ctrl" is "Ctrl+Alt", "Ctrl+Ctrl" is "Ctrl". */
  lemma OrderAndRepetitionIgnored(a: string, b: string)
    requires forall k :: 0 <= k < |Strings.Split(a, '+')| ==> KnownToken(Strings.Split(a, '+')[k])
    requires forall k :: 0 <= k < |Strings.Split(b, '+')| ==> KnownToken(Strings.Split(b, '+')[k])
    requires forall t :: t in {"Ctrl", "Alt", "Shift"} ==> (t in Strings.Split(a, '+') <==> t in Strings.Split(b, '+'))
    ensures ParseModifiers(a) == ParseModifiers(b)
  {
    ParseKnownItems(Strings.Split(a, '+'), NONE);
    ParseKnownItems(Strings.Split(b, '+'), NONE);
  }

  lemma NamesAreKnownTokens(m: KeyModifiers)
    ensures forall k :: 0 <= k < |ModifierNames(m)| ==> KnownToken(ModifierNames(m)[k]) && '+' !in ModifierNames(m)[k]
  {
    var names := ModifierNames(m);
    forall k | 0 <= k < |names|
      ensures KnownToken(names[k]) && '+' !in names[k]
    {
      assert names[k] in {"Ctrl", "Alt", "Shift"};
    }
  }

  /** Writing modifiers as text and reading the text back gives the same modifiers. */
  lemma ModifiersRoundTrip(m: KeyModifiers)
    ensures ParseModifiers(ModifiersText(m)) == Ok(m)
  {
    var names := ModifierNames(m);
    if names == [] {
      assert ModifiersText(m) == "";
      assert Strings.Split("", '+') == [""];
    } else {
      NamesAreKnownTokens(m);
      Strings.SplitJoin(names, '+');
      ParseKnownItems(names, NONE);
    }
  }

  // ---------------------------------------------------------------------
  // Key presses
  // ---------------------------------------------------------------------

  /** `KeybindingKeyPress`: a key with its modifiers. */
  datatype KeyPress = KeyPress(key: Key, modifiers: KeyModifiers)

  /** `char::to_uppercase` on ASCII letters; other characters are kept. */
  function UpperAscii(c: char): (u: char)
    ensures 'a' <= c <= 'z' ==> 'A' <= u <= 'Z' && u as int == c as int - 32
    ensures !('a' <= c <= 'z') ==> u == c
  {
    if 'a' <= c <= 'z' then (c as int - 32) as char else c
  }

  /** The `{:?}` text of a key that is not a character. */
  function KeyDebug(k: Key): (t: string)
    ensures |t| >= 1
  {
    match k
    case Backspace => "Backspace"
    case Enter => "Enter"
    case Left => "Left"
    case Right => "Right"
    case Up => "Up"
    case Down => "Down"
    case Home => "Home"
    case End => "End"
    case PageUp => "PageUp"
    case PageDown => "PageDown"
    case Tab => "Tab"
    case BackTab => "BackTab"
    case Delete => "Delete"
    case Insert => "Insert"
    case Esc => "Esc"
    case Null => "Null"
    case Function(n) => "Function(" + Strings.NatToString(n) + ")"
    case Char(c) => "Char('" + [c] + "')"
  }

  /** How a key shows: a character upper-cased, any other key by its debug name. */
  function KeyText(k: Key): (t: string)
    ensures |t| >= 1
    ensures k.Char? ==> t == [UpperAscii(k.c)]
  {
    if k.Char? then [UpperAscii(k.c)] else KeyDebug(k)
  }

  /** The `Display` text of a key press: the key alone, or the modifiers, '+', and the key. */
  function Display(p: KeyPress): (r: string)
    ensures r == Strings.Join(ModifierNames(p.modifiers) + [KeyText(p.key)], '+')
    ensures p.modifiers == NONE ==> r == KeyText(p.key)
  {
    Strings.JoinSnoc(ModifierNames(p.modifiers), KeyText(p.key), '+');
    var mods := ModifiersText(p.modifiers);
    if mods == "" then KeyText(p.key) else mods + "+" + KeyText(p.key)
  }

  // ---------------------------------------------------------------------
  // Sections
  // ---------------------------------------------------------------------

  /** The bindings of one section: every action's presses, and the action each press triggers. */
  datatype SectionKeybindings<A> = SectionKeybindings(actions: map<A, seq<KeyPress>>, keyToAction: map<KeyPress, A>)

  /** A section's configuration: the presses configured per action. */
  type SectionConfig<A> = map<A, seq<KeyPress>>

  /** The configuration file's key bindings: a table per section name. */
  type Config<A> = map<string, SectionConfig<A>>

  /** `get_action`: only a press triggers anything, and then the action bound to its key and modifiers. */
  function GetAction<A>(s: SectionKeybindings<A>, e: KeyEvent): (r: Option<A>)
    ensures e.kind != Press ==> r.None?
    ensures e.kind == Press ==> (r.Some? <==> KeyPress(e.code, e.modifiers) in s.keyToAction)
    ensures r.Some? ==> r.value == s.keyToAction[KeyPress(e.code, e.modifiers)]
    ensures Consistent(s) && r.Some? ==> r.value in s.actions && KeyPress(e.code, e.modifiers) in s.actions[r.value]
  {
    if e.kind != Press then None
    else
      var p := KeyPress(e.code, e.modifiers);
      if p in s.keyToAction then Some(s.keyToAction[p]) else None
  }

  /** Every bound press triggers an action of the section that lists the press among its bindings. */
  ghost predicate Consistent<A>(s: SectionKeybindings<A>)
  {
    forall p :: p in s.keyToAction ==> s.keyToAction[p] in s.actions && p in s.actions[s.keyToAction[p]]
  }

  /** The presses an action gets: the section's configured ones when it has any, else the action's defaults. */
  function ConfiguredOrDefault<A>(config: Config<A>, name: string, a: A, defaults: A -> seq<KeyPress>): (r: seq<KeyPress>)
    ensures name in config && a in config[name] ==> r == config[name][a]
    ensures !(name in config && a in config[name]) ==> r == defaults(a)
  {
    if name in config && a in config[name] then config[name][a] else defaults(a)
  }

  /** `actions` after inserting an empty binding list for each listed action in turn. */
  function EmptyEntries<A>(actions: map<A, seq<KeyPress>>, list: seq<A>): map<A, seq<KeyPress>>
    decreases |list|
  {
    if list == [] then actions
    else EmptyEntries(actions, list[..|list| - 1])[list[|list| - 1] := []]
  }

  /** Every listed action has an empty entry; the others keep theirs. */
  lemma {:induction false} EmptyEntriesSpec<A>(actions: map<A, seq<KeyPress>>, list: seq<A>)
    ensures EmptyEntries(actions, list).Keys == actions.Keys + set a | a in list
    ensures forall a :: a in list ==> EmptyEntries(actions, list)[a] == []
    ensures forall a :: a in actions && a !in list ==> EmptyEntries(actions, list)[a] == actions[a]
    decreases |list|
  {
    if list != [] {
      var n := |list| - 1;
      EmptyEntriesSpec(actions, list[..n]);
      assert list == list[..n] + [list[n]];
    }
  }

  /** The section after the inner loop pushes each press onto the action's list and binds it to the action. */
  function AddPresses<A>(s: SectionKeybindings<A>, a: A, ps: seq<KeyPress>): SectionKeybindings<A>
    decreases |ps|
  {
    if ps == [] then s
    else
      var t := AddPresses(s, a, ps[..|ps| - 1]);
      var p := ps[|ps| - 1];
      if a in t.actions then SectionKeybindings(t.actions[a := t.actions[a] + [p]], t.keyToAction[p := a]) else t
  }

  /** The section after the outer loop over the (action, presses) pairs. */
  function AddBindings<A>(s: SectionKeybindings<A>, pairs: seq<(A, seq<KeyPress>)>): SectionKeybindings<A>
    decreases |pairs|
  {
    if pairs == [] then s
    else
      var n := |pairs| - 1;
      AddPresses(AddBindings(s, pairs[..n]), pairs[n].0, pairs[n].1)
  }

  /** An action's presses appended to its list, the presses bound to it, and nothing else changed. */
  lemma {:induction false} AddPressesSpec<A>(s: SectionKeybindings<A>, a: A, ps: seq<KeyPress>)
    ensures a !in s.actions ==> AddPresses(s, a, ps) == s
    ensures AddPresses(s, a, ps).actions.Keys == s.actions.Keys
    ensures a in s.actions ==> AddPresses(s, a, ps).actions == s.actions[a := s.actions[a] + ps]
    ensures a in s.actions ==> forall p :: p in ps ==> p in AddPresses(s, a, ps).keyToAction && AddPresses(s, a, ps).keyToAction[p] == a
    ensures forall p :: p !in ps ==> (p in AddPresses(s, a, ps).keyToAction <==> p in s.keyToAction)
    ensures forall p :: p !in ps && p in s.keyToAction ==> AddPresses(s, a, ps).keyToAction[p] == s.keyToAction[p]
    decreases |ps|
  {
    if ps == [] {
      if a in s.actions {
        assert s.actions[a] + ps == s.actions[a];
        assert s.actions[a := s.actions[a]] == s.actions;
      }
    } else {
      var n := |ps| - 1;
      AddPressesSpec(s, a, ps[..n]);
      assert ps == ps[..n] + [ps[n]];
      if a in s.actions {
        var t := AddPresses(s, a, ps[..n]);
        assert t.actions[a] == s.actions[a] + ps[..n];
        assert s.actions[a] + ps[..n] + [ps[n]] == s.actions[a] + ps;
        assert t.actions == s.actions[a := s.actions[a] + ps[..n]];
        assert a in t.actions;
        var r := AddPresses(s, a, ps);
        assert r.actions == s.actions[a := s.actions[a] + ps[..n]][a := s.actions[a] + ps];
      }
    }
  }

  /** Pushing presses keeps a section consistent. */
  lemma AddPressesConsistent<A>(s: SectionKeybindings<A>, a: A, ps: seq<KeyPress>)
    requires Consistent(s)
    ensures Consistent(AddPresses(s, a, ps))
  {
    AddPressesSpec(s, a, ps);
    var r := AddPresses(s, a, ps);
    forall p | p in r.keyToAction
      ensures r.keyToAction[p] in r.actions && p in r.actions[r.keyToAction[p]]
    {
      if p !in ps {
        var b := s.keyToAction[p];
        assert p in s.actions[b];
        if a in s.actions && b == a {
          assert r.actions[a] == s.actions[a] + ps;
        }
      } else if a in s.actions {
        assert p in s.actions[a] + ps;
      }
    }
  }

  /** The outer loop keeps a section consistent and its set of actions. */
  lemma {:induction false} AddBindingsConsistent<A>(s: SectionKeybindings<A>, pairs: seq<(A, seq<KeyPress>)>)
    requires Consistent(s)
    ensures Consistent(AddBindings(s, pairs))
    ensures AddBindings(s, pairs).actions.Keys == s.actions.Keys
    decreases |pairs|
  {
    if pairs != [] {
      var n := |pairs| - 1;
      AddBindingsConsistent(s, pairs[..n]);
      AddPressesConsistent(AddBindings(s, pairs[..n]), pairs[n].0, pairs[n].1);
      AddPressesSpec(AddBindings(s, pairs[..n]), pairs[n].0, pairs[n].1);
    }
  }

  /** All presses the pairs give to `a`, in pair order. */
  function PressesOf<A(==)>(pairs: seq<(A, seq<KeyPress>)>, a: A): seq<KeyPress>
    decreases |pairs|
  {
    if pairs == [] then []
    else
      var n := |pairs| - 1;
      PressesOf(pairs[..n], a) + (if pairs[n].0 == a then pairs[n].1 else [])
  }

  /** An action's list grows by every press the pairs give it, in order. */
  lemma {:induction false} AddBindingsActions<A>(s: SectionKeybindings<A>, pairs: seq<(A, seq<KeyPress>)>, a: A)
    requires a in s.actions
    ensures a in AddBindings(s, pairs).actions
    ensures AddBindings(s, pairs).actions[a] == s.actions[a] + PressesOf(pairs, a)
    decreases |pairs|
  {
    if pairs != [] {
      var n := |pairs| - 1;
      var t := AddBindings(s, pairs[..n]);
      AddBindingsActions(s, pairs[..n], a);
      AddPressesSpec(t, pairs[n].0, pairs[n].1);
      assert t.actions.Keys == AddBindings(s, pairs[..n]).actions.Keys;
      if pairs[n].0 == a {
        assert s.actions[a] + PressesOf(pairs[..n], a) + pairs[n].1 == s.actions[a] + PressesOf(pairs, a);
      } else {
        assert PressesOf(pairs, a) == PressesOf(pairs[..n], a) + [];
      }
    }
  }

  /** With the action listed once, the presses it gets are those of its pair. */
  lemma {:induction false} PressesOfDistinct<A>(pairs: seq<(A, seq<KeyPress>)>, i: nat)
    requires i < |pairs|
    requires forall k :: 0 <= k < |pairs| && k != i ==> pairs[k].0 != pairs[i].0
    ensures PressesOf(pairs, pairs[i].0) == pairs[i].1
    decreases |pairs|
  {
    var n := |pairs| - 1;
    var a := pairs[i].0;
    if i < n {
      PressesOfDistinct(pairs[..n], i);
      assert PressesOf(pairs, a) == PressesOf(pairs[..n], a) + [];
    } else {
      PressesOfAbsent(pairs[..n], a);
    }
  }

  lemma {:induction false} PressesOfAbsent<A>(pairs: seq<(A, seq<KeyPress>)>, a: A)
    requires forall k :: 0 <= k < |pairs| ==> pairs[k].0 != a
    ensures PressesOf(pairs, a) == []
    decreases |pairs|
  {
    if pairs != [] {
      PressesOfAbsent(pairs[..|pairs| - 1], a);
    }
  }

  /** A press given by several pairs triggers the action of the last pair that gives it. */
  lemma {:induction false} LastBinderWins<A>(s: SectionKeybindings<A>, pairs: seq<(A, seq<KeyPress>)>, j: nat, p: KeyPress)
    requires forall k :: 0 <= k < |pairs| ==> pairs[k].0 in s.actions
    requires j < |pairs| && p in pairs[j].1
    requires forall k :: j < k < |pairs| ==> p !in pairs[k].1
    ensures p in AddBindings(s, pairs).keyToAction && AddBindings(s, pairs).keyToAction[p] == pairs[j].0
    decreases |pairs|
  {
    var n := |pairs| - 1;
    var t := AddBindings(s, pairs[..n]);
    AddBindingsKeys(s, pairs[..n]);
    AddPressesSpec(t, pairs[n].0, pairs[n].1);
    if j < n {
      LastBinderWins(s, pairs[..n], j, p);
    }
  }

  /** A press no pair gives keeps whatever binding it had. */
  lemma {:induction false} UnboundPressUnchanged<A>(s: SectionKeybindings<A>, pairs: seq<(A, seq<KeyPress>)>, p: KeyPress)
    requires forall k :: 0 <= k < |pairs| ==> p !in pairs[k].1
    ensures p in AddBindings(s, pairs).keyToAction <==> p in s.keyToAction
    ensures p in s.keyToAction ==> AddBindings(s, pairs).keyToAction[p] == s.keyToAction[p]
    decreases |pairs|
  {
    if pairs != [] {
      var n := |pairs| - 1;
      UnboundPressUnchanged(s, pairs[..n], p);
      AddPressesSpec(AddBindings(s, pairs[..n]), pairs[n].0, pairs[n].1);
    }
  }

  lemma {:induction false} AddBindingsKeys<A>(s: SectionKeybindings<A>, pairs: seq<(A, seq<KeyPress>)>)
    ensures AddBindings(s, pairs).actions.Keys == s.actions.Keys
    decreases |pairs|
  {
    if pairs != [] {
      var n := |pairs| - 1;
      AddBindingsKeys(s, pairs[..n]);
      AddPressesSpec(AddBindings(s, pairs[..n]), pairs[n].0, pairs[n].1);
    }
  }

  /** The (action, presses) pairs of a section, in list order. */
  function BindingsByAction<A>(config: Config<A>, name: string, list: seq<A>, defaults: A -> seq<KeyPress>): (pairs: seq<(A, seq<KeyPress>)>)
    ensures |pairs| == |list|
    ensures forall k :: 0 <= k < |list| ==> pairs[k] == (list[k], ConfiguredOrDefault(config, name, list[k], defaults))
  {
    seq(|list|, k requires 0 <= k < |list| => (list[k], ConfiguredOrDefault(config, name, list[k], defaults)))
  }

  /** One section as `Keybindings::new` builds it. */
  function BuildSection<A>(config: Config<A>, name: string, list: seq<A>, defaults: A -> seq<KeyPress>): (r: SectionKeybindings<A>)
    ensures forall a :: a in r.actions ==> a in list
    ensures forall a :: a in list ==> a in r.actions
    ensures Consistent(r)
  {
    EmptyEntriesSpec(map[], list);
    AddBindingsConsistent(SectionKeybindings(EmptyEntries(map[], list), map[]), BindingsByAction(config, name, list, defaults));
    AddBindings(SectionKeybindings(EmptyEntries(map[], list), map[]), BindingsByAction(config, name, list, defaults))
  }

  /** Every section maps by name onto its table as built, for the section names in turn. */
  function BuildAll<A>(config: Config<A>, sections: seq<string>, list: string -> seq<A>, defaults: A -> seq<KeyPress>): (r: map<string, SectionKeybindings<A>>)
    ensures forall name :: name in r <==> name in sections
    ensures forall name :: name in r ==> r[name] == BuildSection(config, name, list(name), defaults)
    decreases |sections|
  {
    if sections == [] then map[]
    else
      var n := |sections| - 1;
      BuildAll(config, sections[..n], list, defaults)[sections[n] := BuildSection(config, sections[n], list(sections[n]), defaults)]
  }

  /** An action listed once has exactly its configured presses, or its defaults when the section does not configure it. */
  lemma SectionBindings<A>(config: Config<A>, name: string, list: seq<A>, defaults: A -> seq<KeyPress>, i: nat)
    requires i < |list|
    requires forall k :: 0 <= k < |list| && k != i ==> list[k] != list[i]
    ensures list[i] in BuildSection(config, name, list, defaults).actions
    ensures BuildSection(config, name, list, defaults).actions[list[i]] == ConfiguredOrDefault(config, name, list[i], defaults)
  {
    var pairs := BindingsByAction(config, name, list, defaults);
    EmptyEntriesSpec(map[], list);
    AddBindingsActions(SectionKeybindings(EmptyEntries(map[], list), map[]), pairs, list[i]);
    PressesOfDistinct(pairs, i);
  }

  /** `list[j]` gets press `p`, and no action listed after it does. */
  ghost predicate LastBinder<A>(config: Config<A>, name: string, list: seq<A>, defaults: A -> seq<KeyPress>, p: KeyPress, j: int)
  {
    && 0 <= j < |list|
    && p in ConfiguredOrDefault(config, name, list[j], defaults)
    && forall k :: j < k < |list| ==> p !in ConfiguredOrDefault(config, name, list[k], defaults)
  }

  /** A press bound by several listed actions triggers the last of them; a press none binds triggers nothing. */
  lemma SectionKeyToAction<A>(config: Config<A>, name: string, list: seq<A>, defaults: A -> seq<KeyPress>, p: KeyPress)
    ensures forall j :: LastBinder(config, name, list, defaults, p, j) ==>
      p in BuildSection(config, name, list, defaults).keyToAction && BuildSection(config, name, list, defaults).keyToAction[p] == list[j]
    ensures (forall k :: 0 <= k < |list| ==> p !in ConfiguredOrDefault(config, name, list[k], defaults)) ==>
      p !in BuildSection(config, name, list, defaults).keyToAction
  {
    var pairs := BindingsByAction(config, name, list, defaults);
    var start := SectionKeybindings(EmptyEntries(map[], list), map[]);
    EmptyEntriesSpec(map[], list);
    forall j | LastBinder(config, name, list, defaults, p, j)
      ensures p in AddBindings(start, pairs).keyToAction && AddBindings(start, pairs).keyToAction[p] == list[j]
    {
      LastBinderWins(start, pairs, j, p);
    }
    if forall k :: 0 <= k < |list| ==> p !in ConfiguredOrDefault(config, name, list[k], defaults) {
      UnboundPressUnchanged(start, pairs, p);
    }
  }

  /** The inner loop: each press pushed onto the action's list and bound to the action, when the action has an entry. */
  method PushPresses<A>(s: SectionKeybindings<A>, action: A, presses: seq<KeyPress>) returns (section: SectionKeybindings<A>)
    ensures section == AddPresses(s, action, presses)
  {
    section := s;
    var k := 0;
    while k < |presses|
      invariant 0 <= k <= |presses|
      invariant section == AddPresses(s, action, presses[..k])
    {
      assert presses[..k + 1][..k] == presses[..k];
      var press := presses[k];
      if action in section.actions {
        section := SectionKeybindings(section.actions[action := section.actions[action] + [press]], section.keyToAction[press := action]);
      }
      k := k + 1;
    }
    assert presses[..k] == presses;
  }

  /** One section: an empty entry per listed action, then each action's presses pushed and bound in turn. */
  method NewSection<A>(config: Config<A>, name: string, list: seq<A>, defaults: A -> seq<KeyPress>) returns (section: SectionKeybindings<A>)
    ensures section == BuildSection(config, name, list, defaults)
  {
    var actions: map<A, seq<KeyPress>> := map[];
    var i := 0;
    while i < |list|
      invariant 0 <= i <= |list|
      invariant actions == EmptyEntries(map[], list[..i])
    {
      assert list[..i + 1][..i] == list[..i];
      actions := actions[list[i] := []];
      i := i + 1;
    }
    assert list[..i] == list;
    section := SectionKeybindings(actions, map[]);
    ghost var start := section;
    var pairs := BindingsByAction(config, name, list, defaults);
    var j := 0;
    while j < |pairs|
      invariant 0 <= j <= |pairs|
      invariant section == AddBindings(start, pairs[..j])
    {
      section := PushPresses(section, pairs[j].0, pairs[j].1);
      assert pairs[..j + 1][..j] == pairs[..j];
      j := j + 1;
    }
    assert pairs[..j] == pairs;
  }

  /** One more section name: the map gains that section as built. */
  lemma BuildAllSnoc<A>(config: Config<A>, sections: seq<string>, list: string -> seq<A>, defaults: A -> seq<KeyPress>, i: nat)
    requires i < |sections|
    ensures BuildAll(config, sections[..i + 1], list, defaults)
      == BuildAll(config, sections[..i], list, defaults)[sections[i] := BuildSection(config, sections[i], list(sections[i]), defaults)]
  {
    assert sections[..i + 1][..i] == sections[..i];
  }

  /** `Keybindings::new`: every section of the action type, built in turn and stored by name. */
  method New<A>(config: Config<A>, sections: seq<string>, list: string -> seq<A>, defaults: A -> seq<KeyPress>)
    returns (bySection: map<string, SectionKeybindings<A>>)
    ensures bySection == BuildAll(config, sections, list, defaults)
  {
    bySection := map[];
    var i := 0;
    while i < |sections|
      invariant 0 <= i <= |sections|
      invariant bySection == BuildAll(config, sections[..i], list, defaults)
    {
      BuildAllSnoc(config, sections, list, defaults, i);
      var section := NewSection(config, sections[i], list(sections[i]), defaults);
      bySection := bySection[sections[i] := section];
      i := i + 1;
    }
    assert sections[..i] == sections;
  }
}
