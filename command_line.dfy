/**
 * The command line (src/components/command_line.rs): Enter sends the typed
 * text as a command with its leading ':' characters removed, Backspace only
 * deletes while more than one byte of text is left, and the other keys are
 * passed to the input widget as commands.
 */
module CommandLine {
  import opened Wrappers
  import Strings
  import Utf8
  import Realm
  import Tui
  import UserEvent

  /** The commands `on` performs on the input widget; their effect on the text is the widget's. */
  datatype Cmd = MoveLeft | MoveRight | GoToBegin | GoToEnd | Cancel | Delete | Type(ch: char)

  /** The command the Enter branch sends for the typed value. */
  function Command(value: string): (c: string)
    ensures !Strings.StartsWith(c, ':')
    ensures !Strings.StartsWith(value, ':') ==> c == value
    ensures |c| <= |value| && c == value[|value| - |c|..]
    ensures forall k :: 0 <= k < |value| - |c| ==> value[k] == ':'
  {
    Strings.TrimStartMatchesSpec(value, ':');
    if Strings.StartsWith(value, ':') then Strings.TrimStartMatches(value, ':') else value
  }

  /** The Backspace guard: delete only when the text is longer than one byte. */
  function BackspaceDeletes(text: Option<string>): bool
  {
    text.Some? && Utf8.ByteLen(text.value) > 1
  }

  /** The guard counts bytes: a single ASCII character is kept, a single two-byte character is deleted. */
  lemma BackspaceCountsBytes()
    ensures !BackspaceDeletes(Some(":"))
    ensures !BackspaceDeletes(Some(""))
    ensures BackspaceDeletes(Some(":q"))
    ensures BackspaceDeletes(Some(['é']))
  {
    assert Utf8.Encode(":") == Utf8.EncodeChar(':') + Utf8.Encode([]);
    assert Utf8.Encode(":q") == Utf8.EncodeChar(':') + Utf8.Encode("q");
    assert Utf8.Encode(['é']) == Utf8.EncodeChar('é') + Utf8.Encode([]);
  }

  predicate Pressed(e: Realm.KeyEvent, k: Realm.Key)
  {
    e.code == k && e.kind == Realm.Press
  }

  /**
   * `on`: the message to the application and the command performed on the
   * widget, given the text the widget holds (None when its state is not a
   * text).
   */
  function On(ev: Realm.Event<UserEvent.TisqEvent>, text: Option<string>): (r: (Option<Tui.Msg>, Option<Cmd>))
    ensures r.0.Some?
    ensures ev.Keyboard? && Pressed(ev.key, Realm.Enter) && text.Some? ==> r == (Some(Tui.Msg.ExecuteCommand(Command(text.value))), None)
    ensures ev.Keyboard? && Pressed(ev.key, Realm.Enter) && text.None? ==> r == (Some(Tui.Msg.None), None)
    ensures ev.Keyboard? && Pressed(ev.key, Realm.Backspace) ==> r.0 == Some(Tui.Msg.None) && (r.1 == Some(Delete) <==> BackspaceDeletes(text))
    ensures r.1 == Some(Delete) ==> BackspaceDeletes(text)
    ensures !ev.Keyboard? ==> r == (Some(Tui.Msg.None), None)
  {
    match ev
    case Keyboard(e) =>
      if Pressed(e, Realm.Up) then (Some(Tui.Msg.FocusPreviousInput), None)
      else if Pressed(e, Realm.Down) || Pressed(e, Realm.Tab) then (Some(Tui.Msg.FocusNextInput), None)
      else if Pressed(e, Realm.Left) then (Some(Tui.Msg.None), Some(MoveLeft))
      else if Pressed(e, Realm.Right) then (Some(Tui.Msg.None), Some(MoveRight))
      else if Pressed(e, Realm.Home) then (Some(Tui.Msg.None), Some(GoToBegin))
      else if e.code == Realm.End then (Some(Tui.Msg.None), Some(GoToEnd))
      else if Pressed(e, Realm.Delete) then (Some(Tui.Msg.None), Some(Cancel))
      else if Pressed(e, Realm.Backspace) then (Some(Tui.Msg.None), if BackspaceDeletes(text) then Some(Delete) else None)
      else if e.code.Char? && e.kind == Realm.Press then (Some(Tui.Msg.None), Some(Type(e.code.c)))
      else if Pressed(e, Realm.Enter) then
        (if text.Some? then (Some(Tui.Msg.ExecuteCommand(Command(text.value))), None) else (Some(Tui.Msg.None), None))
      else (Some(Tui.Msg.None), None)
    case _ => (Some(Tui.Msg.None), None)
  }

  /** Enter on ":::q" sends "q"; Enter on "q" sends "q" too. */
  lemma EnterStripsColons()
    ensures Command(":::q") == "q" && Command("q") == "q"
  {
    assert Strings.TrimStartMatches(":::q", ':') == Strings.TrimStartMatches("::q", ':');
    assert ":::q"[1..] == "::q" && "::q"[1..] == ":q" && ":q"[1..] == "q";
  }
}
