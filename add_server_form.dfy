/**
 * The add-server form (src/components/add_server_form/mod.rs): two inputs,
 * the server name and the connection URL, and focus moving between them.
 * Giving the focus to the widget is not part of this model.
 */
module AddServerForm {
  import Tui

  predicate FormInput(id: Tui.Id)
  {
    id == Tui.Id.ServerNameInput || id == Tui.Id.ConnectionUrlInput
  }

  /** The input after `id`: the other form input, or the server name from anywhere else. */
  function OtherInput(id: Tui.Id): (r: Tui.Id)
    ensures FormInput(r)
    ensures id == Tui.Id.ServerNameInput ==> r == Tui.Id.ConnectionUrlInput
    ensures id == Tui.Id.ConnectionUrlInput ==> r == Tui.Id.ServerNameInput
    ensures !FormInput(id) ==> r == Tui.Id.ServerNameInput
  {
    match id
    case ServerNameInput => Tui.Id.ConnectionUrlInput
    case ConnectionUrlInput => Tui.Id.ServerNameInput
    case _ => Tui.Id.ServerNameInput
  }

  /** A second move from a form input returns to it; from elsewhere two moves reach the URL input. */
  lemma TwoMovesReturn(id: Tui.Id)
    ensures FormInput(id) ==> OtherInput(OtherInput(id)) == id
    ensures !FormInput(id) ==> OtherInput(OtherInput(id)) == Tui.Id.ConnectionUrlInput
  {
  }

  class Form {
    var activeInput: Tui.Id

    /** `new`: the form starts on the server name. */
    constructor ()
      ensures activeInput == Tui.Id.ServerNameInput
    {
      activeInput := Tui.Id.ServerNameInput;
    }

    method ActivateNextInput()
      modifies this
      ensures activeInput == OtherInput(old(activeInput))
    {
      match activeInput {
        case ServerNameInput => activeInput := Tui.Id.ConnectionUrlInput;
        case ConnectionUrlInput => activeInput := Tui.Id.ServerNameInput;
        case _ => activeInput := Tui.Id.ServerNameInput;
      }
    }

    /** The previous input is found with the same move as the next one. */
    method ActivatePreviousInput()
      modifies this
      ensures activeInput == OtherInput(old(activeInput))
    {
      match activeInput {
        case ServerNameInput => activeInput := Tui.Id.ConnectionUrlInput;
        case ConnectionUrlInput => activeInput := Tui.Id.ServerNameInput;
        case _ => activeInput := Tui.Id.ServerNameInput;
      }
    }
  }
}
