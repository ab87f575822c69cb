# tisq core, modelled in Dafny

tisq is a terminal SQL client for PostgreSQL. This project models the
logic at its core and proves properties of that model:

- **The database worker.** It keeps a registry of open connections keyed by
  (database name, server id). It answers each of the six requests and sorts
  driver errors into plain errors, which keep the connection, and
  connection-is-down answers, which evict it and ask for a replay with one
  more retry. A query row that fails to read panics in the worker thread:
  that request and every later one go unanswered.
- **The retry ceiling.** The application model re-sends a replayed request
  while its retry count is at most 3.
- **Query results as text.** Each cell is matched against an ordered list of
  Rust types. Each column is handled by its kind. The headers come from the
  first row that has columns.
- **The editor tabs.** This covers the ordered editor-tab map: cyclic
  navigation, tab moves, opening and closing tabs. It also covers the
  request-in-progress counter and the last-in-first-out event buffer.
- **Keybindings.** The key-modifier text form and its parser, the default
  keybinding tables, and building each keybinding section from
  configuration.
- **Browser tree node ids.** Their parsing and printing, the storage key of
  saved editors, and the event handling of the browser, the result table,
  the snippets table, the add-server form and the command line.

One module per source file. The modules `Wrappers`, `Strings`, `Utf8`, `Uuids`, `Realm`
(key events of the terminal UI framework), `TreeView` (the tree widget's
node) and `Tui` (messages and component ids) carry what the modelled code
uses from the standard library and the libraries it depends on.

External parties are parameters:
- the database driver is a `DriverReply` value that says what each driver call answers;
- the type system of the SQL driver is a `Wire` value (`compatible`, `show`, `showNull`, the array writer);
- the tree widget of the browser is a `widget` function giving the selected node after each widget operation;
- the configuration is a map;
- a Rust `unwrap` that can fail on input the code accepts is either a precondition (where the caller guarantees it) or a `Panic` outcome (where input decides it).

The code behaves as follows where a reader might expect otherwise:
- an I/O error on a replayable request evicts the connection and asks for
  the request again with its retry count one higher
  (src/app/connection/mod.rs:184-190);
- ListTables without an open connection answers a plain error
  (src/app/connection/mod.rs:229-231);
- a cell that fails to decode panics in `row.get`; a NULL read by a type
  that is printed through `Debug` (`Vec<u8>`, `()`) prints whatever that
  type's decoder makes of NULL, and panics when the decoder refuses NULL
  (the `showNull` part of `Wire`);
- the user events are only the tree and database-response events (src/app/user_event.rs:6-9).

## Model

| member | source | states |
|---|---|---|
| Connection.KeyOf | src/app/connection/mod.rs:199-330 | every request works on (database, server id); ListDatabases and ConnectToServer on the "postgres" database |
| Connection.IdOf | src/app/connection/mod.rs:199-330 | the id an answer carries is the server id of the request's key |
| Connection.Replay | src/app/connection/mod.rs:211-216 | a `repeat` closure gives the same request with `retries` one higher and every other field copied |
| Connection.ErrorStep | src/app/connection/mod.rs:172-197 | a failed driver call leaves the registry as it was, except that an I/O error with a replay removes exactly the request's key |
| Connection.Dispatch | src/app/connection/mod.rs:199-330 | for a request that does not panic: Connected answers only a ConnectToServer, with its id, and leaves its key open; None answers only a ConnectToDatabase whose key is open; an Error carries the request's server id; a key that becomes open was opened by one of the two connects, with the request's url, and nothing else changed |
| Connection.OnlyOwnKeyChanges | src/app/connection/mod.rs:199-330 | a request never adds, removes or changes any entry but its own key's |
| Connection.ConnectToServerOutcome | src/app/connection/mod.rs:265-280 | ConnectToServer reuses an open ("postgres", id) connection and answers Connected; a successful connect registers the key and answers Connected |
| Connection.ConnectToDatabaseOutcome | src/app/connection/mod.rs:281-296 | ConnectToDatabase answers None when the key is already open, leaving the registry alone; a successful connect registers it and answers None |
| Connection.NoSecondManagementConnection | src/app/connection/mod.rs:265-296 | after a ConnectToServer that answered Connected, ConnectToDatabase of "postgres" opens nothing and answers None |
| Connection.DatabaseErrorKeepsConnections | src/app/connection/mod.rs:181-183 | a database-class error answers Error(id, message) and removes no connection, for every request |
| Connection.IoErrorEvicts | src/app/connection/mod.rs:184-190 | an I/O error on ListTables, ListSchemas or Execute removes exactly that key and answers ConnectionIsDown with the replay and "IO Error: …" |
| Connection.IoErrorWithoutReplay | src/app/connection/mod.rs:184-195 | an I/O error on the connects or ListDatabases answers "unknown db error: Io(…)" and removes nothing |
| Connection.MissingConnectionAnswers | src/app/connection/mod.rs:229-231 | with no connection, ListSchemas and Execute ask for a reconnect with the replay, while ListTables and ListDatabases answer their error texts; the registry is untouched in every case |
| Connection.ReplaysIncrementRetries | src/app/connection/mod.rs:211-216 | every ConnectionIsDown answer carries the original request with one more retry |
| Connection.Run | src/app/connection/mod.rs:331-345 | the worker answers each request in turn, at most one answer per request, and every request when it is still running |
| Connection.RunAnswersInOrder | src/app/connection/mod.rs:331-345 | the i-th response answers the i-th request, which did not panic, given the registry the first i requests left |
| Connection.RunStopsAtPanic | src/app/connection/mod.rs:331-345 | a stopped worker stopped at the request after its last answer, which panicked; the answers and registry are those from before it |
| Connection.StoppedStaysStopped | src/app/connection/mod.rs:331-345 | once the worker has stopped, later requests change nothing |
| Connection.RunStep | src/app/connection/mod.rs:331-345 | one more request stops a running worker when it panics, and otherwise adds exactly its dispatch's answer and registry |
| Connection.PanicStopsWorker | src/app/connection/mod.rs:331-345 | a request that panics, and every request after it, get no answer |
| Connection.ConnectionsManager.constructor | src/app/connection/mod.rs:165-170 | the registry starts empty |
| Connection.ConnectionsManager.ProcessDbError | src/app/connection/mod.rs:172-197 | the answer and the new registry are those of the error classification |
| Connection.ConnectionsManager.Execute | src/app/connection/mod.rs:347-365 | nothing exactly when there is no connection; otherwise the driver's rows, error or panic |
| Connection.ConnectionsManager.ProcessRequest | src/app/connection/mod.rs:199-330 | no answer exactly when the request panics, and then the registry stays; otherwise the answer and the new registry are the dispatch of the request against the old registry |
| Connection.ConnectionsManager.Answer | src/app/connection/mod.rs:199-330 | the requests other than Execute answer as their dispatch does |
| Connection.ConnectionsManager.RequestsLoop | src/app/connection/mod.rs:331-345 | the answers are sent in request order, one each, until a request panics; the registry and whether the worker still runs are those of `Run` |
| Types.CellText | src/app/connection/types.rs:90-119 | a NULL prints "null" for the Display candidates; for a Debug candidate it prints what that type's decoder makes of NULL, or panics with UnexpectedNull when the decoder refuses it; a decodable value prints its text, and a value that does not decode panics with DecodeFailed |
| Types.FirstCompatibleFromSpec | src/app/connection/types.rs:26-88 | the deciding candidate is compatible, every earlier candidate is not, and None means no candidate is |
| Types.CandidateCells | src/app/connection/types.rs:90-119 | a deciding candidate contributes exactly one cell |
| Types.ScalarCells | src/app/connection/types.rs:26-88 | a Simple column contributes at most one cell |
| Types.WriteViaDisplay | src/app/connection/types.rs:104-119 | returns true exactly for a compatible candidate, pushes one string then ("null" for NULL) and nothing otherwise |
| Types.WriteViaDebug | src/app/connection/types.rs:90-102 | returns true exactly for a compatible candidate; a NULL pushes the decoder's Debug text for NULL or panics when the decoder refuses NULL; otherwise it pushes one string |
| Types.TryCandidate | src/app/connection/types.rs:26-88 | one step of the early-return chain: done exactly when the candidate is compatible |
| Types.OrderPositions | src/app/connection/types.rs:27-59 | the candidates are tried in the order bool, String, i64, i32, i16, i8, f32, f64, BigDecimal, Vec<u8>, () |
| Types.SkipIncompatible | src/app/connection/types.rs:27-59 | skipping an incompatible candidate keeps the first match |
| Types.DecidedAt | src/app/connection/types.rs:27-59 | the first compatible candidate decides the cell |
| Types.WriteRowCell | src/app/connection/types.rs:26-88 | the cells are the previous cells plus the first compatible candidate's cell; no candidate leaves them unchanged; only appends, by at most one |
| Posgres.Names | src/app/connection/posgres.rs:39-45 | the headers taken from a row are its column names in order |
| Posgres.EnumText | src/app/connection/posgres.rs:71-87 | an Enum cell is its text when readable as str, else "not supported" |
| Posgres.ColumnCells | src/app/connection/posgres.rs:50-91 | Pseudo, Domain, Composite and Range give exactly "not supported"; Enum gives one cell; Simple goes to the scalar writer and gives at most one |
| Posgres.RowCellsPanicStays | src/app/connection/posgres.rs:46-98 | a panic in a column ends the row |
| Posgres.RowCellsCount | src/app/connection/posgres.rs:50-91 | columns of kinds other than Simple and Array give one cell each |
| Posgres.HeadersOfFirstRowWithColumns | src/app/connection/posgres.rs:39-45 | the headers are the names of the first row that has columns |
| Posgres.HeadersEmpty | src/app/connection/posgres.rs:33 | no rows, or rows without columns, leave the headers empty |
| Posgres.HeadersStable | src/app/connection/posgres.rs:39-45 | once set, the headers are never reassigned |
| Posgres.TablePanicStays | src/app/connection/posgres.rs:100-108 | a panic in a row ends the result |
| Posgres.TableInStreamOrder | src/app/connection/posgres.rs:100-108 | one output row per fetched row, in stream order |
| Posgres.NoRowsNoHeaders | src/app/connection/posgres.rs:33 | an empty result has no headers and no data |
| Posgres.StreamErrorDropsRows | src/app/connection/posgres.rs:106 | a stream error returns the error and none of the rows read before it |
| Posgres.MapRow | src/app/connection/posgres.rs:39-98 | the row closure sets the headers only when none are set, and its cells are the row's cells |
| Posgres.ExecuteSqlx | src/app/connection/posgres.rs:29-112 | the result is the headers and the rows of the stream, the stream's error, or the first panic |
| Posgres.ExecuteSpec | src/app/connection/posgres.rs:29-112 | the result panics exactly when some row fails, fails with the stream's error exactly when no row fails and the stream errs, and otherwise holds, under the headers of the first row with columns, the i-th fetched row's cells as its i-th row |
| Posgres.Outcome | src/app/connection/mod.rs:347-365 | the worker gets the rows, the error, or a panic, exactly as `execute_sqlx` ends |
| Posgres.ExecuteOutcome | src/app/connection/posgres.rs:29-112 | the worker's query panics exactly when some row fails to read, errs exactly when no row fails and the stream errs, and otherwise gets every row's cells in order |
| Posgres.FailingRowStopsWorker | src/app/connection/posgres.rs:46-98 | an Execute on an open connection whose stream has a row that fails to read ends the worker with no answer for it or any later request |
| Posgres.RowCellsOk | src/app/connection/posgres.rs:46-98 | a row converts exactly when every one of its columns converts |
| Posgres.TableOk | src/app/connection/posgres.rs:100-108 | the rows convert exactly when every one of them converts |
| UserEvent.Equal | src/app/user_event.rs:13-20 | two events are equal exactly when they are the same variant |
| UserEvent.EqualIsEquivalence | src/app/user_event.rs:13-20 | the equality is reflexive, symmetric and transitive |
| UserEvent.EqualExtendsIdentity | src/app/user_event.rs:13-20 | identical events are equal |
| UserEvent.DbResponsesAllEqual | src/app/user_event.rs:17-18 | any two DbResponse events are equal, and a tree event never equals one |
| EventDispatcher.BrowserUpdateHolder.constructor | src/app/event_dispatcher.rs:20-35 | the buffer starts empty |
| EventDispatcher.EventDispatcherPort.constructor | src/app/event_dispatcher.rs:31-35 | the port starts over a fresh, empty holder |
| EventDispatcher.EventDispatcherPort.Clone | src/app/event_dispatcher.rs:12-18 | a clone shares the holder |
| EventDispatcher.EventDispatcherPort.Dispatch | src/app/event_dispatcher.rs:37-39 | the event is appended to the end of the buffer |
| EventDispatcher.EventDispatcherPort.Poll | src/app/event_dispatcher.rs:45-51 | the last event is removed and returned; an empty buffer returns None and stays empty |
| EventDispatcher.SendTree | src/app/event_dispatcher.rs:56-58 | exactly one TreeReloaded event is appended |
| EventDispatcher.LastInFirstOut | src/app/event_dispatcher.rs:37-51 | two dispatched events are polled in reverse order |
| EventDispatcher.ClonesShareEvents | src/app/event_dispatcher.rs:12-18 | an event dispatched through one clone is polled through the other |
| Status.SpinnerTickingPort.constructor | src/app/spinner_ticking_port.rs:23-27 | the spinner starts still |
| Status.SpinnerTickingPort.SetTicking | src/app/spinner_ticking_port.rs:29-33 | the ticking flag becomes the given value |
| Status.AppStatus.Default | src/app/status.rs:24-32 | nothing in progress, not processing |
| Status.AppStatus.PushDbRequest | src/app/status.rs:35-43 | the counter goes up by one, processing and the spinner are on, and the invariant (processing exactly when the counter is positive) holds |
| Status.AppStatus.PopDbRequest | src/app/status.rs:45-57 | the counter goes down by one but not below zero, processing is off at zero, the spinner follows processing, and the invariant holds |
| Status.PopAtZero | src/app/status.rs:46-53 | a pop with nothing in progress leaves the counter at zero and processing off |
| AppModel.Keys | src/app/model.rs:584-588 | the ordered map's keys in order |
| AppModel.Position | src/app/model.rs:585-588 | `position` finds the first entry with the key, and None when there is none |
| AppModel.PositionOfDistinct | src/app/model.rs:585-588 | with distinct keys, the entry at i is found at i |
| AppModel.DistinctKeysSplit | src/app/model.rs:596-629 | a map with distinct keys splits into parts with distinct, disjoint keys |
| AppModel.InsertFresh | src/app/model.rs:610-628 | inserting a fresh key appends it |
| AppModel.RemoveSpec | src/app/model.rs:881-893 | after a removal the key is gone, the other entries stay in order and the keys stay distinct |
| AppModel.NextIndex | src/app/model.rs:646-654 | below zero goes to the last index, past the end to 0, otherwise current + increment |
| AppModel.Incremented | src/app/model.rs:636-668 | the shown editor is unchanged unless it is one of the tabs; then it is a tab |
| AppModel.IncrementedAt | src/app/model.rs:645-662 | from the tab at p, the tab at NextIndex becomes shown |
| AppModel.IncrementRoundTrip | src/app/model.rs:636-668 | +1 then -1, and -1 then +1, come back to the same tab |
| AppModel.IncrementWraps | src/app/model.rs:646-654 | next from the last tab is the first, previous from the first is the last |
| AppModel.ReverseAt | src/app/model.rs:598-602 | popping one by one reverses the order |
| AppModel.ReverseMultiset | src/app/model.rs:598-602 | reversing keeps every entry |
| AppModel.MovedTabAt | src/app/model.rs:584-634 | each moved position holds the entry `MovedFrom` names |
| AppModel.MovedTabPermutes | src/app/model.rs:584-634 | moving a tab keeps every editor exactly once |
| AppModel.MovedTabDistinct | src/app/model.rs:584-634 | moving a tab keeps the keys distinct |
| AppModel.MovedTab | src/app/model.rs:606-625 | the order keeps its length; a right move puts the target at k+1 and its neighbour at k, a left move puts it at k-1 and its neighbour at k; entries before the pair stay; the last tab does not move right |
| AppModel.MoveReversesLaterTabs | src/app/model.rs:598-629 | with four tabs, moving the first right gives [b, a, d, c]: the later tabs come back reversed |
| AppModel.SwappedTab | src/app/model.rs:606-625 | the intended move: the target and its neighbour swap and nothing else moves |
| AppModel.SwappedTabPermutes | src/app/model.rs:606-625 | the intended move keeps every editor exactly once |
| AppModel.RepeatMsg | src/app/model.rs:829-870 | Execute and ListSchemas are repeated exactly when retries is at most 3, with the same retries; every other request is dropped |
| AppModel.Resend | src/app/model.rs:829-870 | what the model sends again is the original request, exactly while retries is at most 3 |
| AppModel.RetryCeiling | src/app/model.rs:829-861 | under a lasting outage an Execute or ListSchemas starting at retries r is attempted 4 - r times (once from 3 on); ListTables only once |
| AppModel.DownAnswersAdvance | src/app/model.rs:829-861 | every connection-is-down answer of the worker leads to a resend with one more retry, or to none past the ceiling |
| AppModel.Model.constructor | src/app/model.rs:94-153 | the model starts with the given servers, nothing sent, the stored editors restored in order, and the first of them shown (none when there are none) |
| AppModel.InsertSpec | src/app/model.rs:529-557 | inserting into the editor map keeps the keys distinct, holds the new entry, and adds exactly its key |
| AppModel.RestoredSpec | src/app/model.rs:529-557 | the restored editor map has distinct keys, has a key exactly when some stored editor has it, and holds the last stored editor's entry |
| AppModel.RestoredInOrder | src/app/model.rs:529-557 | stored editors with distinct keys are restored one entry each, in storage order, each keyed by its server and database |
| AppModel.Model.GetOrSetShownEditorId | src/app/model.rs:517-527 | the shown editor if set; otherwise the first editor, which becomes shown; None only with no editors |
| AppModel.Model.ActivateFirstEditor | src/app/model.rs:692-703 | the first editor becomes shown; with no editors nothing changes |
| AppModel.Model.IncrementEditor | src/app/model.rs:636-668 | the shown editor moves cyclically by the increment |
| AppModel.Model.PopBackEntry | src/app/model.rs:600 | the last entry is taken off |
| AppModel.Model.InsertEntry | src/app/model.rs:610-628 | a fresh key goes to the end |
| AppModel.Model.PopBackEntries | src/app/model.rs:596-602 | the last `count` entries are popped, last first |
| AppModel.Model.InsertEntries | src/app/model.rs:627-629 | the popped entries are re-appended in pop order |
| AppModel.Model.MoveEntryAt | src/app/model.rs:596-629 | popping from the target on and re-inserting gives the moved list |
| AppModel.Model.MoveEditorTab | src/app/model.rs:584-634 | an unknown id changes nothing; otherwise the tabs become the moved list, keys stay distinct |
| AppModel.Model.OpenQueryEditor | src/app/model.rs:948-991 | an open tab only becomes shown; a new one is appended at the end, shown, and connected to its server and database |
| AppModel.Model.CloseTab | src/app/model.rs:881-893 | the tab is gone; none is shown exactly when no tab remains, otherwise the first is shown |
| AppModel.Model.ConnectToServer | src/app/model.rs:705-715 | one ConnectToServer request with the server's url is sent |
| AppModel.Model.ConnectToDatabase | src/app/model.rs:716-730 | one ConnectToDatabase request with the server's url is sent |
| AppModel.Model.Reconnect | src/app/model.rs:731-744 | ConnectToServer then ConnectToDatabase for the editor's server and database, in that order |
| AppModel.Model.ReconnectAndRepeat | src/app/model.rs:829-870 | within the ceiling: reconnect, then answer the message that repeats the request; past it, or for other requests, nothing is sent |
| AppModel.Model.ExecuteQuery | src/app/model.rs:1108-1130 | an Execute request for the editor's server and database is sent, with the retries |
| AppModel.Model.OpenDatabase | src/app/model.rs:816-828 | a ListSchemas request for the database is sent, with the retries |
| Keybindings.ModifierNames | src/app/keybindings/keybindings.rs:39-60 | each present modifier is named once, from Ctrl, Alt, Shift |
| Keybindings.ModifiersTextShape | src/app/keybindings/keybindings.rs:39-60 | the text is empty exactly for NONE and never starts or ends with '+' |
| Keybindings.ModifiersText | src/app/keybindings/keybindings.rs:39-60 | the text is empty exactly for NONE |
| Keybindings.ParseModifiers | src/app/keybindings/keybindings.rs:82-104 | the text parses exactly when every '+'-separated item is a known modifier, and then to the union of the modifiers it mentions |
| Keybindings.KeyModifiersToString | src/app/keybindings/keybindings.rs:39-60 | the method builds the joined names |
| Keybindings.Mentioned | src/app/keybindings/keybindings.rs:90-98 | a flag is set exactly when its token is present |
| Keybindings.VisitStr | src/app/keybindings/keybindings.rs:82-101 | the method's loop gives the parse of the split tokens |
| Keybindings.VisitNone | src/app/keybindings/keybindings.rs:75-80 | a missing value is NONE, the modifiers with empty text |
| Keybindings.ParseKnownItems | src/app/keybindings/keybindings.rs:90-98 | known tokens OR their flags together, empty tokens are skipped |
| Keybindings.ParseStopsAtUnknown | src/app/keybindings/keybindings.rs:96 | the first unknown token gives "Unknown key modifier: <token>" |
| Keybindings.ParseFailsIffUnknown | src/app/keybindings/keybindings.rs:90-98 | the parse fails exactly when some token is unknown |
| Keybindings.OrderAndRepetitionIgnored | src/app/keybindings/keybindings.rs:90-98 | texts that mention the same modifiers parse alike, whatever the order or repetition |
| Keybindings.ModifiersRoundTrip | src/app/keybindings/keybindings.rs:39-101 | parsing the text of any modifiers gives them back |
| Keybindings.UpperAscii | src/app/keybindings/keybindings.rs:126-127 | lower-case ASCII letters become upper-case, other characters are kept |
| Keybindings.KeyDebug | src/app/keybindings/keybindings.rs:128-129 | the Debug name of a key is never empty |
| Keybindings.KeyText | src/app/keybindings/keybindings.rs:125-130 | a character key shows upper-cased, any other key by its Debug name |
| Keybindings.Display | src/app/keybindings/keybindings.rs:124-137 | a press shows as its modifiers' names and its key joined by '+'; without modifiers, as the key alone |
| Keybindings.GetAction | src/app/keybindings/keybindings.rs:170-178 | None for any non-Press event, otherwise the action bound to (code, modifiers); in a consistent section that action lists the press among its bindings |
| Keybindings.ConfiguredOrDefault | src/app/keybindings/keybindings.rs:243-251 | configured bindings only when both the section and the action are configured, else the defaults |
| Keybindings.EmptyEntriesSpec | src/app/keybindings/keybindings.rs:235-237 | every listed action gets an empty entry |
| Keybindings.AddPressesSpec | src/app/keybindings/keybindings.rs:256-265 | an action's presses are appended and each maps to it; other presses are untouched; an unknown action changes nothing |
| Keybindings.AddPressesConsistent | src/app/keybindings/keybindings.rs:256-265 | adding presses keeps every press bound to the action it maps to |
| Keybindings.AddBindingsConsistent | src/app/keybindings/keybindings.rs:256-265 | all the pairs keep the section consistent and its actions the same |
| Keybindings.AddBindingsActions | src/app/keybindings/keybindings.rs:256-265 | an action's list gains exactly its presses, in order |
| Keybindings.PressesOfDistinct | src/app/keybindings/keybindings.rs:239-265 | with a distinct list, an action's presses are its own pair's |
| Keybindings.PressesOfAbsent | src/app/keybindings/keybindings.rs:239-265 | an action without a pair gains nothing |
| Keybindings.LastBinderWins | src/app/keybindings/keybindings.rs:263 | a press given to several actions maps to the last one |
| Keybindings.UnboundPressUnchanged | src/app/keybindings/keybindings.rs:256-265 | a press no pair mentions keeps its mapping |
| Keybindings.AddBindingsKeys | src/app/keybindings/keybindings.rs:256-265 | the set of actions does not change |
| Keybindings.BindingsByAction | src/app/keybindings/keybindings.rs:239-254 | one pair per listed action, in list order, with its configured or default bindings |
| Keybindings.BuildSection | src/app/keybindings/keybindings.rs:235-265 | a built section has an entry for every listed action and no other, and is consistent |
| Keybindings.SectionBindings | src/app/keybindings/keybindings.rs:239-265 | with distinct actions, an action's bindings are its configured or default ones |
| Keybindings.SectionKeyToAction | src/app/keybindings/keybindings.rs:256-265 | a press maps to the last listed action bound to it, and is absent when none is |
| Keybindings.BuildAll | src/app/keybindings/keybindings.rs:220-271 | one section per section name and no other, each built from its own list |
| Keybindings.PushPresses | src/app/keybindings/keybindings.rs:256-264 | the inner loop pushes and binds each press in turn, as the definition of a section's bindings describes, and skips an action without an entry |
| Keybindings.NewSection | src/app/keybindings/keybindings.rs:230-266 | the loops build the section the definition describes |
| Keybindings.New | src/app/keybindings/keybindings.rs:220-271 | the loop over sections builds every section |
| KeyboundActions.Named | src/app/keybindings/action.rs:58-94 | a name is matched to the section it names, and to none exactly when it is not one of the four section names |
| KeyboundActions.Actions | src/app/keybindings/action.rs:58-94 | every action a section lists belongs to that section, and none is listed twice |
| KeyboundActions.Defaults | src/app/keybindings/action.rs:96-297 | every action has one to three default presses, all distinct |
| KeyboundActions.ActionsOfHome | src/app/keybindings/action.rs:58-94 | a section's list holds an action exactly when that action belongs to the section |
| KeyboundActions.List | src/app/keybindings/action.rs:58-94 | an unknown section has an empty list |
| KeyboundActions.SectionOf | src/app/keybindings/action.rs:58-94 | every action belongs to one of the four sections |
| KeyboundActions.SectionsDistinct | src/app/keybindings/action.rs:54-56 | the section names globals, editor, browser, result are distinct |
| KeyboundActions.ListedInGlobals | src/app/keybindings/action.rs:60-67 | an action is listed under globals exactly when it belongs there |
| KeyboundActions.ListedInEditor | src/app/keybindings/action.rs:68-83 | the same for editor |
| KeyboundActions.ListedInBrowser | src/app/keybindings/action.rs:84-87 | the same for browser |
| KeyboundActions.ListedInResult | src/app/keybindings/action.rs:88-91 | the same for result |
| KeyboundActions.EveryActionInOneSection | src/app/keybindings/action.rs:58-303 | every action is in its own section's list, in no other, and has at least one default binding |
| KeyboundActions.ListsDistinct | src/app/keybindings/action.rs:58-94 | no section lists an action twice |
| KeyboundActions.NamedName | src/app/keybindings/action.rs:48-94 | a section's name finds that section, and no two sections share a name |
| KeyboundActions.ListOfHome | src/app/keybindings/action.rs:58-94 | `list` of an action's section name gives that section's actions |
| KeyboundActions.DefaultsOwned | src/app/keybindings/action.rs:96-297 | a default press belongs to exactly one action |
| KeyboundActions.DistinctListDefaultsDisjoint | src/app/keybindings/action.rs:96-297 | within a section no two default bindings share a press |
| KeyboundActions.SectionTable | src/app/keybindings/keybindings.rs:228-268 | the tables are stored under the four section names, and an action's section is built from that section's list |
| KeyboundActions.SectionFromDefaults | src/app/keybindings/keybindings.rs:228-268 | for a section the configuration does not mention, listing distinct actions: exactly the listed actions have entries, each holds its defaults, and each default press finds its action |
| KeyboundActions.DefaultKeybindings | src/app/keybindings/action.rs:54-303 | when the configuration sets nothing for an action's section, that section holds exactly its listed actions, the action holds its default presses, and each of them finds the action |
| Browser.ParseStr | src/components/browser.rs:21-40 | no ':' or an unknown kind gives None |
| Browser.ParseStrPrintsBack | src/components/browser.rs:21-46 | whatever parses prints back as the text it came from |
| Browser.ToString | src/components/browser.rs:42-47 | a server node prints as "server:<id>", a database node as "database:<server id>:<name>"; both split at the first ':' into the kind and the rest |
| Browser.ParseServerId | src/components/browser.rs:21-28 | a server id parses back, whatever it contains |
| Browser.ParseDatabaseId | src/components/browser.rs:29-37 | a database id parses back when the server part has no ':'; the name may contain ':' |
| Browser.DatabaseIdNeedsSecondColon | src/components/browser.rs:29-37 | a database id without a second ':' gives None |
| Browser.ParseNodeIdOfUuid | src/components/browser.rs:21-46 | ids printed from a UUID parse back |
| Browser.OpenQueryEditorMsg | src/components/browser.rs:96-127 | OpenQueryEditor exactly when the selection is a database node under a server node with a valid UUID, carrying that UUID and the database's name; otherwise Msg::None |
| Browser.OpenQueryEditorOnDatabaseNode | src/components/browser.rs:96-127 | a database node under its server node opens an editor for that server and database |
| Browser.OpenQueryEditorNeedsDatabaseNode | src/components/browser.rs:96-127 | no selection, or a server node, gives Msg::None |
| Browser.DatabaseNodes | src/components/browser.rs:164-175 | one node per database, in list order, with the database's id and name |
| Browser.DatabaseNodeIds | src/components/browser.rs:164-175 | each new node's id parses as that database of that server |
| Browser.RightArrow | src/components/browser.rs:227-249 | OpenConnection exactly when the selection parses as a server with a valid UUID; otherwise Msg::None |
| Browser.RightArrowOnServerNode | src/components/browser.rs:227-249 | Right on a server node opens its connection |
| Browser.BrowserTree.constructor | src/components/browser.rs:64-94 | the initial node is selected when the tree has it, otherwise the root |
| Browser.BrowserTree.DatabasesListed | src/components/browser.rs:159-206 | the server node's children become the database nodes and the selection stays; an unknown server changes nothing and answers nothing |
| Browser.Listed | src/components/browser.rs:159-206 | the new tree exists exactly when the server node does, and then that node has the database nodes as children |
| Browser.DatabaseChildren | src/components/browser.rs:169-174 | the loop builds one child node per database, "database:<server id>:<name>", in order |
| Browser.WidgetCmd | src/components/browser.rs:222-284 | Left, PageDown, PageUp, Down, Up, Home, End and Enter are plain key presses mapped to the widget's close, scroll, move, go-to and submit commands; Right and Delete are not among them |
| Browser.BrowserTree.OnUser | src/components/browser.rs:140-206 | a tree reload replaces the tree and takes the widget's selection; a database list goes through `Listed`; any other database response answers nothing and changes nothing |
| Browser.BrowserTree.OnKey | src/components/browser.rs:220-294 | Right answers `RightArrow` and opens the node unless it opens a connection; Delete answers the delete message; the widget keys answer Msg::None, keep the tree and take the widget's selection after the command; any other key answers nothing and changes nothing |
| Browser.BrowserTree.On | src/components/browser.rs:140-294 | keybinding actions answer their messages; tree reloads, database responses, Right, Delete and the widget keys behave as `OnUser` and `OnKey` state; any other key press, ticks and other events answer nothing and change nothing |
| EditorsStorage.NewEditorId | src/app/storage/editors_storage.rs:50-56 | the key holds the id and database, and its bytes are "<uuid>:<database>" |
| EditorsStorage.FromRawKey | src/app/storage/editors_storage.rs:31-42 | non-UTF-8 bytes give the error; a UTF-8 text gives a key exactly when it has a ':' and its first piece is a UUID, and panics otherwise; a key keeps the raw bytes, the parsed UUID and the second ':'-separated piece as its database |
| EditorsStorage.ToRawKey | src/app/storage/editors_storage.rs:44-56 | the raw key of a new_editor_id key is the UTF-8 of "<uuid>:<database>", and for a database without ':' it decodes back to the same key |
| EditorsStorage.RawKeyRoundTrip | src/app/storage/editors_storage.rs:40-46 | the raw key of a decoded key is the original bytes |
| EditorsStorage.KeyTextPieces | src/app/storage/editors_storage.rs:34-36 | the key text splits into the UUID and the database's own pieces |
| EditorsStorage.NewEditorIdRoundTrip | src/app/storage/editors_storage.rs:31-56 | a key built for a database without ':' decodes to the same id and database |
| EditorsStorage.DatabaseWithColonTruncated | src/app/storage/editors_storage.rs:34-36 | a database with ':' decodes to its text before the first ':' |
| EditorsStorage.FromRawKeyWhole | src/app/storage/editors_storage.rs:31-42 | the corrected decoder keeps everything after the first ':' |
| EditorsStorage.NewEditorIdRoundTripWhole | src/app/storage/editors_storage.rs:31-56 | with it, every key built by new_editor_id decodes to its id and database |
| ColumnWidths.Width16 | src/components/execute_result_table.rs:105-106 | `len() as u16`: the byte length when below 65536, truncated otherwise |
| ColumnWidths.Update | src/components/execute_result_table.rs:101-108 | update_widths grows the vector by one only at index == length, raises entry i to the cell's width and lowers nothing |
| ColumnWidths.UpdateRow | src/components/execute_result_table.rs:109-113 | a row makes the vector at least as long as the row |
| ColumnWidths.ColumnMaxIsMaximum | src/components/execute_result_table.rs:105-118 | a column's maximum bounds each cell and is 0 or one of them |
| ColumnWidths.UpdateRowPointwise | src/components/execute_result_table.rs:109-113 | each entry becomes the larger of itself and the row's cell |
| ColumnWidths.ColumnMaxBeyond | src/components/execute_result_table.rs:109-113 | columns beyond every row have maximum 0 |
| ColumnWidths.UpdateRowsPointwise | src/components/execute_result_table.rs:109-113 | after all rows each entry is the column's maximum, and the length the longest row's |
| ColumnWidths.AbsoluteWidthsSpec | src/components/execute_result_table.rs:101-118 | the length is the larger of the header count and the longest row; each entry is the maximum over the column's cells and header |
| ColumnWidths.UpdateWidths | src/components/execute_result_table.rs:101-108 | the in-place update computes Update |
| ColumnWidths.UpdateWithRow | src/components/execute_result_table.rs:109-113 | the loop over a row's columns computes UpdateRow |
| ColumnWidths.Widths | src/components/execute_result_table.rs:98-119 | the absolute widths of headers and rows |
| ResultTable.ExecuteResultTable.Default | src/components/execute_result_table.rs:33-56 | no result shown |
| ResultTable.ExecuteResultTable.SetResult | src/components/execute_result_table.rs:57-96 | the result is shown with its absolute widths |
| ResultTable.ExecuteResultTable.On | src/components/execute_result_table.rs:142-181 | Executed stores the result and answers ShowFetchedTable; an Error response and every other event answer Msg::None and change nothing |
| ResultTable.ResultWidthsBoundCells | src/components/execute_result_table.rs:98-119 | every cell and header of a column fits its width |
| SnippetsTable.Shortcuts | src/components/snippets_table.rs:39 | the shortcuts in snippet order |
| SnippetsTable.SnippetsTableComponent.constructor | src/components/snippets_table.rs:32-62 | the component keeps the snippets' shortcuts |
| SnippetsTable.Rows | src/components/snippets_table.rs:117-122 | one row per snippet: shortcut, then description |
| SnippetsTable.RowsAreShort | src/components/snippets_table.rs:117-122 | rows of two cells make at most two columns |
| SnippetsTable.Widths | src/components/snippets_table.rs:106-127 | exactly two widths, each the maximum of its header ("shortcut", "description") and its cells |
| SnippetsTable.ApplySnippet | src/components/snippets_table.rs:140-150 | ApplySnippet of the selected shortcut exactly when the index is in range, None otherwise |
| SnippetsTable.AppliesSelectedSnippet | src/components/snippets_table.rs:140-150 | the selected row's snippet is the one applied |
| SnippetsTable.On | src/components/snippets_table.rs:183-224 | Enter pressed without modifiers gives apply_snippet's result; every other event gives Msg::None |
| AddServerForm.OtherInput | src/components/add_server_form/mod.rs:33-37 | server name goes to url, url to server name, anything else to server name; the result is always a form input |
| AddServerForm.TwoMovesReturn | src/components/add_server_form/mod.rs:33-37 | two moves from a form input return to it |
| AddServerForm.Form.constructor | src/components/add_server_form/mod.rs:23-27 | the form starts on the server name |
| AddServerForm.Form.ActivateNextInput | src/components/add_server_form/mod.rs:29-39 | the focus takes the next input |
| AddServerForm.Form.ActivatePreviousInput | src/components/add_server_form/mod.rs:41-51 | the same transition as next |
| CommandLine.Command | src/components/command_line.rs:102-109 | the command never starts with ':'; a value not starting with ':' is sent unchanged; only leading ':' characters are removed |
| CommandLine.BackspaceCountsBytes | src/components/command_line.rs:84-87 | the guard counts bytes: ":" and "" are kept, ":q" and a lone two-byte character are deleted |
| CommandLine.On | src/components/command_line.rs:42-120 | Enter sends the command, or Msg::None without text; Backspace deletes exactly when the text is longer than one byte; non-key events give Msg::None |
| CommandLine.EnterStripsColons | src/components/command_line.rs:102-109 | ":::q" and "q" both send "q" |
| Utf8.DecodeEncode | src/app/storage/editors_storage.rs:32-54 | decoding the bytes of a string gives the string back |
| Uuids.ParseToString | src/components/browser.rs:117-118 | the printed form of a UUID parses back to it |
| Uuids.ToStringHasNoColon | src/app/storage/editors_storage.rs:54 | the printed form of a UUID has no ':' |
| Strings.SplitOnce | src/components/browser.rs:22-23 | `splitn(2, ':')`: None exactly when there is no ':'; otherwise the text before the first ':' and everything after it |
| Strings.TrimStartMatchesSpec | src/components/command_line.rs:106 | `trim_start_matches(":")` removes exactly the leading ':' characters |
| Realm.Union | src/app/keybindings/keybindings.rs:92-94 | `\|` on modifiers sets each flag set in either |
| TreeView.QuerySetChildren | src/components/browser.rs:164-175 | replacing a node's children changes the node query finds and nothing when there is none |

## Left out

- Connection.ConnectionsManager.RequestsLoop: after a panic the worker thread is gone; the application's later `send(..).unwrap()` on the closed request channel (src/app/model.rs:710-712) panics too, and that is not modelled.
- Threads, channels and async: the worker's blocking `recv` and the application's channels become plain sequences. The shared `Arc<Mutex<…>>` holders become objects that clones share.
- Driver I/O and SQL: connecting and the `list_*` queries become the answers of a `DriverReply` (src/app/connection/mod.rs:20-101).
- The SQL driver's type system: `compatible`, decoding and Display/Debug formatting become the `Wire` oracle. Floating-point and BigDecimal output are part of that oracle.
- The array writer: `GenericArrayTypeWriter` is not part of this model, and an Array column's cells come from the `writeArray` oracle.
- The percentage widths: both tables convert absolute widths to percentages with `f64` arithmetic. Only the absolute widths are modelled.
- Rendering, layout, mounting, focus (`app.active`) and widget state: open tree nodes, scrolling, the input cursor. The widgets' `perform` is not modelled either: the command line returns the command it would perform, and the browser takes the tree widget's selection after each operation from its `widget` parameter.
- The uuid crate: parsing accepts the simple, hyphenated, braced and URN forms, in either hex case, and printing gives lower-case hyphenated text. The `Uuids` module writes this out; the crate itself is not part of this model.
- The tree widget: `TreeView` models only the `query`, `parent` and child-replacement behaviour the browser relies on.
- Key-value storage reads and writes, configuration files, toml deserialisation and tracing output.
- `SectionKeybindings::subscriptions` (src/app/keybindings/keybindings.rs:180-208): it builds the UI framework's subscription clauses and has nothing to check beyond the framework.
- The unreachable `_ => vec![]` arm of the default bindings (src/app/keybindings/action.rs:299-301): every action has its own arm, so the model leaves the fallback out.
- What the update loop does with messages outside the tab list and the retry decision: focus changes, snippets, the add-server flow, exit.
- Keybindings.UpperAscii: `char::to_uppercase` is modelled for ASCII letters only; other letters keep their case.
- AppModel.Model.IncrementEditor: the `as i16` arithmetic does not model wrap-around for more than 32767 tabs.
- Status.AppStatus.PushDbRequest: the `i32` counter does not model overflow.
- Connection.Replay: `retries` is an `i32` in the source; `retries + 1` does not model overflow.
- EditorsStorage.FromRawKey: a failing `unwrap` is the `Panic` outcome; the panic's message is not modelled.
- AppModel.Model.OpenQueryEditor: the `get_server(..).unwrap().unwrap()` and the url `expect` are preconditions (`Connectable`), not panics.
- AppModel.Model.ReconnectAndRepeat: the same `unwrap` of the stored server is a precondition.
- ResultTable.ExecuteResultTable.SetResult: stores the absolute widths instead of the percentages the widget receives.
- AppModel.Model.constructor: the stored editors are a parameter; the `unwrap` of a failed storage read, mounting each editor and the `EditorContentAdd` event carrying its text are not modelled.
- Browser.BrowserTree.On: the widget's open and closed nodes and its scrolling are not modelled, so the `open_node` of the server after a database list changes no modelled state; the selection after a widget operation is the `widget` parameter's answer.

## Findings

| source | as written | input that shows it | evidently intended | confidence | as-written member | corrected member |
|---|---|---|---|---|---|---|
| src/app/model.rs:598-629 | `move_editor_tab` pops the tabs after the target, then re-inserts the ones it does not swap in the order they were popped | tabs [a, b, c, d], move a right: the result is [b, a, d, c] | a and b swap and c, d stay: [b, a, c, d] | medium, not executed | AppModel.MoveReversesLaterTabs | AppModel.SwappedTabPermutes |
| src/app/storage/editors_storage.rs:34-36 | `from_raw_key` splits the key on every ':' and keeps only the second piece as the database | a key built by `new_editor_id(u, "a:b")` decodes with database "a" | the database is everything after the first ':', so the key round-trips | medium, not executed | EditorsStorage.DatabaseWithColonTruncated | EditorsStorage.NewEditorIdRoundTripWhole |
