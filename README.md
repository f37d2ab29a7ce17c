# rumatui controller and block widget, in Dafny

rumatui is a terminal chat client for Matrix. This project models two parts of it.

**The `AppWidget` controller** (`src/widgets/app.rs`) is the UI's state machine:
- It holds a login form: a selected field plus the username and password text.
- It holds the flags `logged_in`, `logging_in`, `sync_started` and `main_screen`, and an optional error.
- It talks to the Matrix client through three tokio channels:
  - `send_jobs` carries user requests out to the client loop;
  - `ev_msgs` brings request results back;
  - `emitter_msgs` brings sync events.
- Key handlers edit the form, and Enter queues a login.
- `on_tick` does three things in order. First it starts the sync loop once the user is logged in. Then it takes at most one result without waiting, and folds it into the flags. Last it takes at most one event the same way, and a message event becomes a transcript line.

**The `Block` widget** (`rumatui-tui/src/widgets/block.rs`) is a box with optional borders on each side and an optional title:
- `inner` computes the area left inside the borders.
- `render` draws the background, the sides, the corners and the title into a cell buffer.

The files:
- `wrappers.dfy`: `Option` and `Result`.
- `layout.dfy`: `u16` and `Rect`.
- `buffers.dfy`: `Style`, `Cell`, and a `Buffer` class holding a 2-D array of cells. It has the three buffer writes `render` uses.
- `block.dfy`: module `BlockWidget`. The builders, `line_symbols` and `inner` are functions. `render` is a method that writes the buffer in place, with loops over the sides. Each cell it leaves is proved equal to the pure `Rendered`, and the lemmas about `Rendered` say what each edge, corner, title cell and interior cell shows.
- `app_model.dfy`: module `AppModel`, the controller as values.
  - `AppState` has every field of `AppWidget`, with each channel a FIFO `seq`.
  - Each handler is a function from the old state to the new one.
  - `Step` and `Run` also cover what the other ends of the channels do: a result or event arrives, the client loop takes a job, or it drops its receiver. So the lemmas about `Run` hold for every interleaving.
  - Calls into code outside this model are recorded as counters and logs: `start_sync`, `quit_sync`, `select_next`/`select_previous`, `set_room_state` and `add_message`.
- `app.dfy`: module `App`, the class `AppWidget`. Its methods update the fields in place. Each public handler (the constructor, `OnUp`, `OnDown`, `AddChar`, `OnBackspace`, `OnTick`, `OnQuit`) leaves the new state equal to the `AppModel` function of the same name applied to the old state, and keeps the invariant `Valid()`; `OnKey` leaves `AppModel.AddChar` of the old state, as `on_key` only calls `add_char`. `SetError` leaves `AppModel.SetError` of the old state. The three steps of `on_tick` (`StartSyncIfDue`, `ReceiveResult`, `ReceiveEvent`) state their new fields directly, through `LoginAfter`, `ChatAfter`, `ErrorAfter` and `LinesOf`; neither they nor `SetError` require or ensure `Valid()`.

## Model

| member | source | states |
|---|---|---|
| AppModel.New | src/widgets/app.rs:60-79 | starts on the login screen: title "RumaTui", nothing logged in, started or quit, no error, empty form with Username selected, empty queues, open job queue; satisfies `Inv` |
| AppModel.OnUp | src/widgets/app.rs:89-99 | logged out: only the selected field flips; logged in: only the room-move log changes, gaining `Previous` exactly when the main screen shows |
| AppModel.OnDown | src/widgets/app.rs:101-111 | logged out: only the selected field flips; logged in: only the room-move log changes, gaining `Next` exactly when the main screen shows |
| AppModel.SelectionMovesCancel | src/widgets/app.rs:89-111 | logged out, any two up/down presses restore the state exactly |
| AppModel.SetError | src/widgets/app.rs:157-159 | the error becomes `Some(e)` and nothing else changes |
| AppModel.SubmitLogin | src/widgets/app.rs:120-131 | `logging_in` is set and exactly one `Login(username, password)` with the current field text is queued; on a closed queue nothing is queued and the send error is recorded |
| AppModel.AddChar | src/widgets/app.rs:117-139 | logged in: no change; logged out: `c` (Enter included) is appended to exactly the selected field, the other field is kept, and the login is submitted first only on Enter with a ready form; otherwise no job, no error and no `logging_in` change |
| AppModel.Pop | src/widgets/app.rs:148 | `String::pop`: empty stays empty, otherwise the result plus the old last character is the old text |
| AppModel.OnBackspace | src/widgets/app.rs:145-153 | logged in, or the selected field empty: no change; otherwise only the selected field changes, losing its last character |
| AppModel.BackspaceUndoesKey | src/widgets/app.rs:117-153 | on the login screen, backspace after a key that submits nothing restores the state |
| AppModel.LoginAfter | src/widgets/app.rs:169-179 | after a result the login is no longer in progress, the form is kept, and the user is logged in iff they were or the result is `Ok` |
| AppModel.ChatAfter | src/widgets/app.rs:170-175 | an `Ok` result shows the main screen and hands its rooms to `set_room_state` once; an `Err` leaves the chat alone |
| AppModel.ErrorAfter | src/widgets/app.rs:176-179 | `Err(e)` records `e`; `Ok` keeps the error |
| AppModel.LineOf | src/widgets/app.rs:186-190 | the line for a message is `user`, one space, then `msg`, in the message's room |
| AppModel.OnTick | src/widgets/app.rs:162-194 | sync starts (one more `start_sync`) exactly when logged in and not yet started; each incoming queue loses at most its front item; an empty queue leaves its part of the state alone; a result sets or keeps `logged_in`, `main_screen`, `logging_in`, the error and the room lists as the source does; an event adds its line, or none if it is not a message; title, quit flag, job queue and room moves are untouched |
| AppModel.OnQuit | src/widgets/app.rs:196-202 | one more `quit_sync`, then `Quit` is queued if the job queue is open; a closed queue changes nothing else and records no error |
| AppModel.Deliver | src/widgets/app.rs:54 | a result sent by the client loop joins the back of `ev_msgs`; nothing else changes |
| AppModel.Emit | src/widgets/app.rs:56 | an event sent by the sync stream joins the back of `emitter_msgs`; nothing else changes |
| AppModel.TakeJob | src/widgets/app.rs:52 | the client loop's receive removes the front job; nothing else changes |
| AppModel.DropReceiver | src/widgets/app.rs:125-131 | once the receiver is dropped the job queue stays closed, so later sends fail; nothing else changes |
| AppModel.StepKeepsInv | src/widgets/app.rs:163-166 | every handler and channel event keeps `Inv`: `start_sync` was called once iff sync is marked started, sync runs only for a logged-in user, who sees the main screen |
| AppModel.RunKeepsInv | src/widgets/app.rs:163-166 | `Inv` holds after any sequence of inputs |
| AppModel.StartSyncAtMostOnce | src/widgets/app.rs:163-166 | from `new`, whatever happens, `start_sync` is called at most once, and once exactly when sync is marked started |
| AppModel.StepGrows | src/widgets/app.rs:89-202 | no step logs out, stops sync, leaves the main screen or reopens a closed queue, and the counters and chat logs only grow |
| AppModel.RunGrows | src/widgets/app.rs:89-202 | the same over any sequence of inputs |
| AppModel.SyncFollowsLogin | src/widgets/app.rs:163-166 | once logged in, sync is running after any later sequence of inputs that holds a tick |
| AppModel.LinesAppend | src/widgets/app.rs:184-193 | the lines of two event sequences in a row are the lines of each, in order |
| AppModel.StepTranscript | src/widgets/app.rs:184-193 | one step keeps the transcript plus the lines still queued, except that an arriving event adds its line at the end |
| AppModel.TranscriptFollowsEvents | src/widgets/app.rs:184-193 | over any run, the transcript plus the queued lines is the old one plus the lines of every event sent, in order: no message is lost, repeated or reordered |
| AppModel.LoginRoomsAppend | src/widgets/app.rs:168-182 | the room lists of two result sequences in a row are those of each, in order |
| AppModel.StepRoomStates | src/widgets/app.rs:168-182 | one step keeps the room lists handed over plus those still queued, except that an arriving result adds its own |
| AppModel.RoomStatesFollowResults | src/widgets/app.rs:168-182 | over any run, every successful login's rooms reach `set_room_state` exactly once, in the order the results came |
| AppModel.StepDrain | src/widgets/app.rs:168-193 | only a tick takes from the incoming queues, at most their front items, and arrivals join the back |
| AppModel.TicksDrainQueues | src/widgets/app.rs:168-193 | over any run, each incoming queue is drained strictly from the front: what is left is a suffix of all that was queued, and no more items are gone than there were ticks |
| App.AppWidget.constructor | src/widgets/app.rs:60-79 | the fields are `AppModel.New()` and the widget is valid |
| App.AppWidget.OnUp | src/widgets/app.rs:89-99 | the new fields are `AppModel.OnUp` of the old ones; validity is kept |
| App.AppWidget.OnDown | src/widgets/app.rs:101-111 | the new fields are `AppModel.OnDown` of the old ones; validity is kept |
| App.AppWidget.AddChar | src/widgets/app.rs:117-139 | the new fields are `AppModel.AddChar` of the old ones; validity is kept |
| App.AppWidget.OnKey | src/widgets/app.rs:141-143 | the same as `add_char` |
| App.AppWidget.OnBackspace | src/widgets/app.rs:145-153 | the new fields are `AppModel.OnBackspace` of the old ones; validity is kept |
| App.AppWidget.SetError | src/widgets/app.rs:157-159 | the new fields are `AppModel.SetError` of the old ones |
| App.AppWidget.StartSyncIfDue | src/widgets/app.rs:163-166 | sync is marked started and `start_sync` counted only when logged in and not yet started |
| App.AppWidget.ReceiveResult | src/widgets/app.rs:168-182 | an empty result queue changes nothing; otherwise the front result is removed and applied as `LoginAfter`, `ChatAfter` and `ErrorAfter` say |
| App.AppWidget.ReceiveEvent | src/widgets/app.rs:184-193 | an empty event queue changes nothing; otherwise the front event is removed and its line, if any, is appended |
| App.AppWidget.OnTick | src/widgets/app.rs:162-194 | the new fields are `AppModel.OnTick` of the old ones; validity is kept |
| App.AppWidget.OnQuit | src/widgets/app.rs:196-202 | the new fields are `AppModel.OnQuit` of the old ones; validity is kept |
| BlockWidget.LineSymbols | rumatui-tui/src/widgets/block.rs:15-24 | every set has one-cell glyphs, with the sides and the four corners all distinct; Plain and Rounded share their straight lines, and only they do |
| BlockWidget.LineSymbolsInjective | rumatui-tui/src/widgets/block.rs:15-24 | different border types give different glyph sets |
| BlockWidget.Default | rumatui-tui/src/widgets/block.rs:59-70 | no title, no borders, plain lines, default styles |
| BlockWidget.WithTitle | rumatui-tui/src/widgets/block.rs:73-76 | sets the title and nothing else |
| BlockWidget.WithTitleStyle | rumatui-tui/src/widgets/block.rs:78-81 | sets the title style and nothing else |
| BlockWidget.WithBorderStyle | rumatui-tui/src/widgets/block.rs:83-86 | sets the border style and nothing else |
| BlockWidget.WithStyle | rumatui-tui/src/widgets/block.rs:88-91 | sets the widget style and nothing else |
| BlockWidget.WithBorders | rumatui-tui/src/widgets/block.rs:93-96 | sets the border flags and nothing else |
| BlockWidget.WithBorderType | rumatui-tui/src/widgets/block.rs:98-101 | sets the border type and nothing else |
| BlockWidget.BuildersCommute | rumatui-tui/src/widgets/block.rs:72-101 | any two setters of different fields commute (all fifteen pairs of the six setters) |
| BlockWidget.BuildersLastWins | rumatui-tui/src/widgets/block.rs:72-101 | for each of the six setters, setting the same field twice equals setting it once to the second value |
| BlockWidget.Inc | rumatui-tui/src/widgets/block.rs:110 | `+= 1` on a `u16` is addition modulo 2^16 |
| BlockWidget.Inner | rumatui-tui/src/widgets/block.rs:104-124 | below 2x2 the result is the zero `Rect`; otherwise x moves by the left border, y by the top border or title, width loses the left and right borders, height the top row and bottom border, and no decrement underflows |
| BlockWidget.InnerWithin | rumatui-tui/src/widgets/block.rs:104-124 | past the size guard the inner area of a representable `area` lies inside it; below the guard it is empty |
| BlockWidget.InnerWithoutDecoration | rumatui-tui/src/widgets/block.rs:108-123 | with no borders and no title, `inner(area) == area` past the guard |
| BlockWidget.InnerAllBorders | rumatui-tui/src/widgets/block.rs:109-122 | with all borders the inner area loses one cell on every side |
| BlockWidget.TitleWidth | rumatui-tui/src/widgets/block.rs:191-201 | `area.width - lx - rx` does not underflow past the guard, and spans exactly from `left + lx` to `right - rx` |
| BlockWidget.TitleSpansInner | rumatui-tui/src/widgets/block.rs:191-201 | the title's room is exactly the inner area's width, starting at the inner area's left edge |
| BlockWidget.RenderedConfined | rumatui-tui/src/widgets/block.rs:128-131 | `render` changes no cell outside `area`, and no cell at all below 2x2 |
| BlockWidget.RenderedLeftEdge | rumatui-tui/src/widgets/block.rs:137-143 | with the left flag, every cell of the left column has the vertical glyph in the border style, except a corner glyph where the top or bottom side is drawn too |
| BlockWidget.RenderedRightEdge | rumatui-tui/src/widgets/block.rs:151-158 | with the right flag, every cell of the right column has the vertical glyph, except a corner glyph where the top or bottom side is drawn too |
| BlockWidget.RenderedTopEdge | rumatui-tui/src/widgets/block.rs:144-150 | with the top flag, every top-row cell shows its title character where the title is written, else the horizontal glyph or a corner glyph |
| BlockWidget.RenderedBottomEdge | rumatui-tui/src/widgets/block.rs:159-166 | with the bottom flag, every bottom-row cell has the horizontal glyph, except a corner glyph where the left or right side is drawn too |
| BlockWidget.RenderedTitle | rumatui-tui/src/widgets/block.rs:190-209 | every cell the title is written to shows that title character in the title style, with or without borders |
| BlockWidget.TitleSparesCorners | rumatui-tui/src/widgets/block.rs:190-209 | the title never covers the top-left or top-right cell of a drawn side |
| BlockWidget.RenderedInterior | rumatui-tui/src/widgets/block.rs:133 | a cell inside `area`, on no drawn side and outside the title, only takes the block's background colour |
| BlockWidget.DrawColumn | rumatui-tui/src/widgets/block.rs:138-142 | the cells of one column between `top` and `bottom` get the glyph cell; every other cell is unchanged |
| BlockWidget.DrawRow | rumatui-tui/src/widgets/block.rs:145-149 | the cells of one row between `left` and `right` get the glyph cell; every other cell is unchanged |
| BlockWidget.DrawSides | rumatui-tui/src/widgets/block.rs:136-166 | each cell ends as the four side loops leave it, in their order |
| BlockWidget.DrawCorners | rumatui-tui/src/widgets/block.rs:168-188 | each corner whose two sides are both set gets its corner glyph, over the side glyph; nothing else changes |
| BlockWidget.Render | rumatui-tui/src/widgets/block.rs:128-210 | every cell of the buffer ends as `Rendered` says, given the cell before |
| Buffers.StringnCount | rumatui-tui/src/widgets/block.rs:202-208 | `set_stringn` writes no more cells than the title has characters or `width` allows, stops at the buffer's right edge, and stops only at one of these |
| Buffers.Buffer.Set | rumatui-tui/src/widgets/block.rs:139-141 | `get_mut(x, y).set_symbol(..).set_style(..)` replaces exactly the cell at (x, y) |
| Buffers.Buffer.SetBackground | rumatui-tui/src/widgets/block.rs:133 | every cell of the rectangle takes the background colour, keeping its symbol and other style; cells outside are unchanged |
| Buffers.Buffer.SetStringn | rumatui-tui/src/widgets/block.rs:202-208 | the first `StringnCount` characters go to consecutive cells of the row from (x, y) in the given style; every other cell is unchanged |

## Left out

- `task::block_on` and its no-op waker (src/widgets/app.rs:234-276): executor plumbing with no behaviour of the widget.
- `DrawWidget::draw` (src/widgets/app.rs:205-231): terminal drawing and layout splitting; only the `Block` it uses is modelled.
- `on_click`, `on_right`, `on_left` and `on_delete`: they only forward to unmodelled widgets, or do nothing.
- The tokio runtime and channels: each channel is a FIFO sequence, and `await` is a plain call.
- The bound of 1024 on the result channel (src/widgets/app.rs:62, whose receiver is `ev_msgs`) is not modelled: `Deliver` never blocks the client loop.
- The capacity of the job channel is set inside `MatrixEventHandle::new`, which is not part of this model: the sends in `SubmitLogin` and `OnQuit` are taken never to wait for room. A send fails only after the client loop has dropped its receiver (`DropReceiver`).
- `MatrixEventHandle::new`, `start_sync` and `quit_sync`: the client loop is not part of this model. Calls to `start_sync` and `quit_sync` are counted.
- `RoomsWidget::select_next`/`select_previous`, `ChatWidget::set_room_state` and `MessageWidget::add_message`: the room list and the message list are not part of this model. Each call is logged in `ChatWidget` (room moves, room lists, lines).
- `LoginWidget::try_login`: login.rs is not part of this model. Its answer is the `loginReady` parameter of `AddChar` and `OnKey`.
- `LoginWidget::default`: login.rs is not part of this model. The form is taken to start empty with Username selected.
- src/client/mod.rs and the `matrix_sdk` calls behind it: network I/O. Request results and events arrive as the inputs `ResultIn` and `EventIn`.
- Error payloads: an `anyhow::Error` is kept as the failed request or a message string. Its text and chain are not modelled.
- Room lists are sets of room ids. The `Arc<Mutex<Room>>` values and the `Rc<RefCell<…>>` sharing in chat.rs are not modelled.
- `BlockWidget.LineSymbols`: symbols.rs is not part of this model. The glyphs are the Unicode box-drawing characters of the four line sets, written out.
- `Style`, `Color` and `Modifier`: a style is a foreground, a background and a modifier, each a number. `set_style` replaces a cell's style, and `set_bg` replaces only its background.
- `Buffers.Buffer.SetStringn`: every character is taken as one grapheme of display width 1, so wide and zero-width characters are not modelled. buffer.rs is not part of this model.
- `Buffers.Buffer.SetBackground`, `Buffers.Buffer.Set`: `get_mut` panics outside the buffer. These methods, and `BlockWidget.Render` past the size guard, therefore require the rectangle to lie inside the buffer.
- `BlockWidget.Inc`: `+= 1` on a `u16` is modelled as a release build runs it, wrapping round. A debug build panics instead. The wrap only happens on a rectangle whose far edge is not representable, and `InnerWithin` excludes that case.
