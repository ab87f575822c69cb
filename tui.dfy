/**
 * The messages components send to the application's update function and
 * the ids of the mounted components (src/tui.rs). The terminal loop in the
 * same file is not part of this model.
 */
module Tui {
  import Uuids
  import Connection
  import EditorIds

  type Uuid = Uuids.Uuid
  type EditorId = EditorIds.EditorId

  datatype Msg =
    | AppClose
    | ExecuteQuery(editorId: EditorId, query: string, retries: int)
    | ReconnectAndRepeat(originalRequest: Connection.DbRequest)
    | ChangeFocus(focus: Id)
    | NavigateRight
    | NavigateLeft
    | NavigateUp
    | NavigateDown
    | Cancel
    | PreviousEditor
    | NextEditor
    | MoveTabLeft(tab: EditorId)
    | MoveTabRight(tab: EditorId)
    | CloseTab(tab: EditorId)
    | CycleNavigation
    | StartAddingServer
    | FocusPreviousInput
    | FocusNextInput
    | SubmitAddServerForm
    | DeleteBrowsedNode(nodeId: string)
    | OpenDatabase(serverId: Uuid, database: string, retries: int)
    | OpenSchema(serverId: Uuid, database: string, schema: string, retries: int)
    | OpenTable(serverId: Uuid, database: string, schema: string, table: string, retries: int)
    | OpenConnection(serverId: Uuid)
    | LoadDatabases(serverId: Uuid)
    | OpenQueryEditor(serverId: Uuid, database: string)
    | ShowFetchedTable
    | ShowErrorResult
    | ApplySnippet(shortcut: string)
    | ShowSnippets
    | EditorTryExpand(editorId: EditorId, text: string, removeInput: bool)
    | TriggerRedraw
    | PopDbRequestStatus
    | EnterCommandMode
    | ExecuteCommand(command: string)
    | SetEnabledLastEnteredKey(enabled: bool)
    | None

  datatype Id =
    | Clock
    | DigitCounter
    | LetterCounter
    | Label
    | EditorPanel
    | Editor(editor: EditorId)
    | Tree
    | GlobalListener
    | SnippetsTable
    | EditorTabs
    | QueryResultTable
    | AddServerForm
    | ServerNameInput
    | ConnectionUrlInput
    | FormSubmitListener
    | ShowUsedKeyToggle
    | ExecuteErrorResult
    | DbResponseStatusListener
    | StatusSpinner
    | StatusSpan
    | StatusPressedKey
    | CommandLine
}
