/**
 * The program's own key-bound actions (src/app/keybindings/action.rs): the
 * four sections, the actions each section lists, and each action's default
 * key presses, and what `Keybindings::new` builds from them when the
 * configuration file sets no key bindings.
 */
module KeyboundActions {
  import opened Wrappers
  import opened Realm
  import Keybindings

  datatype Action =
    | GlobalExit
    | GlobalCycleNavigation
    | GlobalNavigateLeft
    | GlobalNavigateRight
    | GlobalNavigateUp
    | GlobalNavigateDown
    | EditorNextTab
    | EditorPrevTab
    | EditorMoveTabLeft
    | EditorMoveTabRight
    | EditorExecute
    | EditorPaste
    | EditorDeleteWord
    | EditorDeleteNextWord
    | EditorMoveToTop
    | EditorMoveToBottom
    | EditorCloseTab
    | EditorTryExpand
    | EditorToggleComment
    | BrowserAddServer
    | BrowserDatabaseOpenQueryEditor
    | ResultOffsetColumnRight
    | ResultOffsetColumnLeft

  const GlobalSection: string := "globals"
  const EditorSection: string := "editor"
  const BrowserSection: string := "browser"
  const QueryResultSection: string := "result"

  /** `sections()`, in the order `Keybindings::new` builds them. */
  const Sections: seq<string> := [GlobalSection, EditorSection, BrowserSection, QueryResultSection]

  /** The four sections, by name. */
  datatype Section = Globals | Editor | Browser | QueryResult

  function Name(s: Section): string
  {
    match s
    case Globals => GlobalSection
    case Editor => EditorSection
    case Browser => BrowserSection
    case QueryResult => QueryResultSection
  }

  /** The section with this name, if any. */
  function Named(name: string): (r: Option<Section>)
    ensures r.Some? ==> Name(r.value) == name
    ensures r.None? <==> name !in Sections
  {
    if name == GlobalSection then Some(Globals)
    else if name == EditorSection then Some(Editor)
    else if name == BrowserSection then Some(Browser)
    else if name == QueryResultSection then Some(QueryResult)
    else None
  }

  /** The actions a section lists, in the order `list` gives them. */
  function Actions(s: Section): (r: seq<Action>)
    ensures forall i :: 0 <= i < |r| ==> HomeSection(r[i]) == s
    ensures forall i, j :: 0 <= i < j < |r| ==> r[i] != r[j]
  {
    match s
    case Globals =>
      [GlobalExit, GlobalCycleNavigation, GlobalNavigateLeft, GlobalNavigateRight, GlobalNavigateUp, GlobalNavigateDown]
    case Editor =>
      [EditorNextTab, EditorPrevTab, EditorMoveTabLeft, EditorMoveTabRight, EditorExecute, EditorPaste,
       EditorDeleteWord, EditorDeleteNextWord, EditorMoveToTop, EditorMoveToBottom, EditorCloseTab,
       EditorTryExpand, EditorToggleComment]
    case Browser => [BrowserAddServer, BrowserDatabaseOpenQueryEditor]
    case QueryResult => [ResultOffsetColumnLeft, ResultOffsetColumnRight]
  }

  /** The section an action belongs to. */
  function HomeSection(a: Action): Section
  {
    match a
    case GlobalExit | GlobalCycleNavigation | GlobalNavigateLeft | GlobalNavigateRight
      | GlobalNavigateUp | GlobalNavigateDown => Globals
    case BrowserAddServer | BrowserDatabaseOpenQueryEditor => Browser
    case ResultOffsetColumnRight | ResultOffsetColumnLeft => QueryResult
    case _ => Editor
  }

  lemma ListedAtHome(a: Action)
    ensures a in Actions(HomeSection(a))
  {
  }

  /** A section lists exactly the actions whose home it is. */
  lemma ActionsOfHome(a: Action, s: Section)
    ensures a in Actions(s) <==> HomeSection(a) == s
  {
    ListedAtHome(a);
    if a in Actions(s) {
      var i :| 0 <= i < |Actions(s)| && Actions(s)[i] == a;
    }
  }

  /** `list(section)`: the actions of a section, or none for a name that is not a section. */
  function List(section: string): (r: seq<Action>)
    ensures section !in Sections ==> r == []
  {
    match Named(section)
    case None => []
    case Some(s) => Actions(s)
  }

  const CtrlAlt: KeyModifiers := Union(CONTROL, ALT)

  function Press(key: Key, modifiers: KeyModifiers): Keybindings.KeyPress
  {
    Keybindings.KeyPress(key, modifiers)
  }

  /** `get_default_bindings`: the presses an action has when the configuration names none. */
  function Defaults(a: Action): (r: seq<Keybindings.KeyPress>)
    ensures 1 <= |r| <= 3
    ensures forall i, j :: 0 <= i < j < |r| ==> r[i] != r[j]
  {
    match a
    case GlobalExit => [Press(Esc, NONE), Press(Char('c'), CONTROL)]
    case GlobalNavigateDown => [Press(Down, ALT), Press(Down, CtrlAlt)]
    case GlobalNavigateUp => [Press(Up, ALT), Press(Up, CtrlAlt)]
    case GlobalNavigateLeft => [Press(Left, ALT), Press(Left, CtrlAlt)]
    case GlobalNavigateRight => [Press(Right, ALT), Press(Right, CtrlAlt)]
    case GlobalCycleNavigation => [Press(Char('l'), CONTROL)]
    case EditorNextTab => [Press(PageUp, CONTROL)]
    case EditorPrevTab => [Press(PageDown, CONTROL)]
    case EditorMoveTabLeft => [Press(Char('['), CtrlAlt)]
    case EditorMoveTabRight => [Press(Char(']'), CtrlAlt)]
    case EditorExecute => [Press(Char('e'), CONTROL), Press(Char('r'), CONTROL), Press(Enter, Union(CONTROL, SHIFT))]
    case EditorPaste => [Press(Char('v'), CONTROL)]
    case EditorDeleteWord => [Press(Backspace, CONTROL)]
    case EditorDeleteNextWord => [Press(Delete, CONTROL)]
    case EditorMoveToTop => [Press(Home, CONTROL)]
    case EditorMoveToBottom => [Press(End, CONTROL)]
    case EditorCloseTab => [Press(Char('w'), CONTROL)]
    case EditorTryExpand => [Press(Char(' '), CONTROL)]
    case EditorToggleComment => [Press(Char('/'), CONTROL)]
    case BrowserAddServer => [Press(Char('a'), NONE)]
    case BrowserDatabaseOpenQueryEditor => [Press(Char('q'), NONE)]
    case ResultOffsetColumnLeft => [Press(Left, CONTROL)]
    case ResultOffsetColumnRight => [Press(Right, CONTROL)]
  }

  /** The name of the section an action belongs to. */
  function SectionOf(a: Action): (s: string)
    ensures s in Sections
  {
    Name(HomeSection(a))
  }

  /** The section names are distinct. */
  lemma SectionsDistinct()
    ensures GlobalSection != EditorSection && GlobalSection != BrowserSection && GlobalSection != QueryResultSection
    ensures EditorSection != BrowserSection && EditorSection != QueryResultSection && BrowserSection != QueryResultSection
    ensures forall i, j :: 0 <= i < j < |Sections| ==> Sections[i] != Sections[j]
  {
    assert GlobalSection[0] == 'g' && EditorSection[0] == 'e' && BrowserSection[0] == 'b' && QueryResultSection[0] == 'r';
  }

  /** A section's name finds that section, and different sections have different names. */
  lemma NamedName(s: Section)
    ensures Named(Name(s)) == Some(s)
    ensures forall t: Section :: Name(t) == Name(s) ==> t == s
  {
    SectionsDistinct();
  }

  /** `list` of an action's section name gives its section's actions. */
  lemma ListOfHome(a: Action)
    ensures List(SectionOf(a)) == Actions(HomeSection(a))
  {
    NamedName(HomeSection(a));
  }

  /** A section lists exactly the actions that belong to it. */
  lemma ListedInGlobals(a: Action)
    ensures a in List(GlobalSection) <==> SectionOf(a) == GlobalSection
  {
    NamedName(Globals);
    ActionsOfHome(a, Globals);
  }

  lemma ListedInEditor(a: Action)
    ensures a in List(EditorSection) <==> SectionOf(a) == EditorSection
  {
    NamedName(Editor);
    ActionsOfHome(a, Editor);
  }

  lemma ListedInBrowser(a: Action)
    ensures a in List(BrowserSection) <==> SectionOf(a) == BrowserSection
  {
    NamedName(Browser);
    ActionsOfHome(a, Browser);
  }

  lemma ListedInResult(a: Action)
    ensures a in List(QueryResultSection) <==> SectionOf(a) == QueryResultSection
  {
    NamedName(QueryResult);
    ActionsOfHome(a, QueryResult);
  }

  /** Every action is listed by its own section and by no other, and has at least one default press. */
  lemma EveryActionInOneSection(a: Action)
    ensures a in List(SectionOf(a))
    ensures forall i :: 0 <= i < |Sections| && Sections[i] != SectionOf(a) ==> a !in List(Sections[i])
    ensures |Defaults(a)| >= 1
  {
    NamedName(HomeSection(a));
    ActionsOfHome(a, HomeSection(a));
    forall i | 0 <= i < |Sections| && Sections[i] != SectionOf(a)
      ensures a !in List(Sections[i])
    {
      var t := [Globals, Editor, Browser, QueryResult][i];
      assert Sections[i] == Name(t);
      NamedName(t);
      ActionsOfHome(a, t);
    }
  }

  /** No section lists an action twice. */
  lemma ListsDistinct(section: string)
    ensures forall i, j :: 0 <= i < j < |List(section)| ==> List(section)[i] != List(section)[j]
  {
    if Named(section).Some? {
      ActionsDistinct(Named(section).value);
    }
  }

  lemma ActionsDistinct(s: Section)
    ensures forall i, j :: 0 <= i < j < |Actions(s)| ==> Actions(s)[i] != Actions(s)[j]
  {
  }

  /** The action whose defaults hold a press, found by the key first and then by the modifiers. */
  function DefaultOwner(p: Keybindings.KeyPress): Option<Action>
  {
    var m := p.modifiers;
    match p.key
    case Esc => if m == NONE then Some(GlobalExit) else None
    case Down => if m == ALT || m == CtrlAlt then Some(GlobalNavigateDown) else None
    case Up => if m == ALT || m == CtrlAlt then Some(GlobalNavigateUp) else None
    case Left =>
      if m == ALT || m == CtrlAlt then Some(GlobalNavigateLeft)
      else if m == CONTROL then Some(ResultOffsetColumnLeft)
      else None
    case Right =>
      if m == ALT || m == CtrlAlt then Some(GlobalNavigateRight)
      else if m == CONTROL then Some(ResultOffsetColumnRight)
      else None
    case PageUp => if m == CONTROL then Some(EditorNextTab) else None
    case PageDown => if m == CONTROL then Some(EditorPrevTab) else None
    case Enter => if m == Union(CONTROL, SHIFT) then Some(EditorExecute) else None
    case Backspace => if m == CONTROL then Some(EditorDeleteWord) else None
    case Delete => if m == CONTROL then Some(EditorDeleteNextWord) else None
    case Home => if m == CONTROL then Some(EditorMoveToTop) else None
    case End => if m == CONTROL then Some(EditorMoveToBottom) else None
    case Char(c) => CharOwner(c, m)
    case _ => None
  }

  function CharOwner(c: char, m: KeyModifiers): Option<Action>
  {
    if m == CONTROL then
      if c == 'c' then Some(GlobalExit)
      else if c == 'l' then Some(GlobalCycleNavigation)
      else if c == 'e' || c == 'r' then Some(EditorExecute)
      else if c == 'v' then Some(EditorPaste)
      else if c == 'w' then Some(EditorCloseTab)
      else if c == ' ' then Some(EditorTryExpand)
      else if c == '/' then Some(EditorToggleComment)
      else None
    else if m == CtrlAlt then
      if c == '[' then Some(EditorMoveTabLeft)
      else if c == ']' then Some(EditorMoveTabRight)
      else None
    else if m == NONE then
      if c == 'a' then Some(BrowserAddServer)
      else if c == 'q' then Some(BrowserDatabaseOpenQueryEditor)
      else None
    else None
  }

  lemma GlobalsDefaultsOwned(a: Action, p: Keybindings.KeyPress)
    requires HomeSection(a) == Globals && p in Defaults(a)
    ensures DefaultOwner(p) == Some(a)
  {
  }

  lemma EditorDefaultsOwned(a: Action, p: Keybindings.KeyPress)
    requires HomeSection(a) == Editor && p in Defaults(a)
    ensures DefaultOwner(p) == Some(a)
  {
  }

  lemma BrowserDefaultsOwned(a: Action, p: Keybindings.KeyPress)
    requires HomeSection(a) == Browser && p in Defaults(a)
    ensures DefaultOwner(p) == Some(a)
  {
  }

  lemma QueryResultDefaultsOwned(a: Action, p: Keybindings.KeyPress)
    requires HomeSection(a) == QueryResult && p in Defaults(a)
    ensures DefaultOwner(p) == Some(a)
  {
  }

  /** Each default press has one owner: no two actions, in any section, share a default press. */
  lemma DefaultsOwned(a: Action, p: Keybindings.KeyPress)
    requires p in Defaults(a)
    ensures DefaultOwner(p) == Some(a)
  {
    match HomeSection(a) {
      case Globals => GlobalsDefaultsOwned(a, p);
      case Editor => EditorDefaultsOwned(a, p);
      case Browser => BrowserDefaultsOwned(a, p);
      case QueryResult => QueryResultDefaultsOwned(a, p);
    }
  }

  /** With defaults only, no press is bound twice in a section. */
  ghost predicate DefaultsDisjoint(list: seq<Action>)
  {
    forall j, k, p :: 0 <= j < k < |list| && p in Defaults(list[j]) ==> p !in Defaults(list[k])
  }

  lemma DistinctListDefaultsDisjoint(list: seq<Action>)
    requires forall i, j :: 0 <= i < j < |list| ==> list[i] != list[j]
    ensures DefaultsDisjoint(list)
  {
    forall j, k, p | 0 <= j < k < |list| && p in Defaults(list[j])
      ensures p !in Defaults(list[k])
    {
      DefaultsOwned(list[j], p);
      if p in Defaults(list[k]) {
        DefaultsOwned(list[k], p);
      }
    }
  }

  /** The sections `Keybindings::new` builds from a configuration's key bindings. */
  ghost function BindingsFor(config: Keybindings.Config<Action>): map<string, Keybindings.SectionKeybindings<Action>>
  {
    Keybindings.BuildAll(config, Sections, List, Defaults)
  }

  /** The table built for an action's own section is that section built from its list. */
  lemma SectionTable(config: Keybindings.Config<Action>, a: Action)
    ensures BindingsFor(config).Keys == set s | s in Sections
    ensures SectionOf(a) in BindingsFor(config)
    ensures BindingsFor(config)[SectionOf(a)] == Keybindings.BuildSection(config, SectionOf(a), Actions(HomeSection(a)), Defaults)
  {
    SectionsDistinct();
    NamedName(HomeSection(a));
    assert SectionOf(a) in Sections;
  }

  /** A section the configuration sets nothing for, listing distinct actions: each has its defaults, and its default presses find it. */
  lemma SectionFromDefaults(config: Keybindings.Config<Action>, name: string, list: seq<Action>, a: Action, p: Keybindings.KeyPress)
    requires name !in config && a in list
    requires forall i, j :: 0 <= i < j < |list| ==> list[i] != list[j]
    ensures var table := Keybindings.BuildSection(config, name, list, Defaults);
      && (forall b :: b in table.actions <==> b in list)
      && a in table.actions && table.actions[a] == Defaults(a)
      && (p in Defaults(a) ==> Keybindings.GetAction(table, KeyEvent(p.key, p.modifiers, KeyEventKind.Press)) == Some(a))
  {
    var j :| 0 <= j < |list| && list[j] == a;
    Keybindings.SectionBindings(config, name, list, Defaults, j);
    if p in Defaults(a) {
      DistinctListDefaultsDisjoint(list);
      assert Keybindings.LastBinder(config, name, list, Defaults, p, j);
      Keybindings.SectionKeyToAction(config, name, list, Defaults, p);
    }
  }

  /**
   * When the configuration sets no key bindings for an action's section,
   * that section holds its own actions with their default presses, and
   * every default press of the action triggers it.
   */
  lemma DefaultKeybindings(config: Keybindings.Config<Action>, a: Action, p: Keybindings.KeyPress)
    requires SectionOf(a) !in config
    ensures BindingsFor(config).Keys == set s | s in Sections
    ensures SectionOf(a) in BindingsFor(config)
    ensures forall b :: b in BindingsFor(config)[SectionOf(a)].actions <==> b in List(SectionOf(a))
    ensures a in BindingsFor(config)[SectionOf(a)].actions && BindingsFor(config)[SectionOf(a)].actions[a] == Defaults(a)
    ensures p in Defaults(a) ==>
      Keybindings.GetAction(BindingsFor(config)[SectionOf(a)], KeyEvent(p.key, p.modifiers, KeyEventKind.Press)) == Some(a)
  {
    SectionTable(config, a);
    ListOfHome(a);
    ListedAtHome(a);
    ActionsDistinct(HomeSection(a));
    SectionFromDefaults(config, SectionOf(a), Actions(HomeSection(a)), a, p);
  }
}
