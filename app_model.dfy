/**
 * The controller state machine of the terminal UI (src/widgets/app.rs), as
 * values: `AppState` holds every field of `AppWidget`, and each operation of
 * the widget is a function from the state before to the state after. The
 * three channels are FIFO sequences: `sendJobs` carries requests to the
 * client loop, `evMsgs` brings back request results and `emitterMsgs` brings
 * state events from the sync stream. Calls into widgets and the client that
 * live elsewhere (`start_sync`, `quit_sync`, `select_next`, `select_previous`,
 * `set_room_state`, `add_message`) are recorded as counters and logs.
 */
module AppModel {
  import opened Wrappers

  type RoomId = string

  /** The joined rooms a successful login reports. */
  type Rooms = set<RoomId>

  /** Which field of the login form receives typed characters. */
  datatype LoginSelect = Username | Password

  function Toggled(sel: LoginSelect): (r: LoginSelect)
    ensures r != sel
  {
    if sel == Username then Password else Username
  }

  /** The login form: the selected field and the two fields' text. */
  datatype LoginForm = LoginForm(selected: LoginSelect, username: string, password: string)

  datatype LoginWidget = LoginWidget(login: LoginForm, loggedIn: bool, loggingIn: bool)

  /** A call to `select_previous` or `select_next` of the room list. */
  datatype RoomMove = Previous | Next

  /** One `add_message(text, room)` call. */
  datatype ChatLine = ChatLine(text: string, room: RoomId)

  /**
   * The main screen: whether it is shown, and the calls made into its room
   * list (`set_room_state`, the selection moves) and its message list.
   */
  datatype ChatWidget = ChatWidget(mainScreen: bool, roomStates: seq<Rooms>, lines: seq<ChatLine>, roomMoves: seq<RoomMove>)

  /** The handle of the sync task: how often it was started and stopped. */
  datatype EventLoop = EventLoop(syncStarts: nat, syncQuits: nat)

  /** A job for the client loop. */
  datatype UserRequest = Login(username: string, password: string) | Quit

  /** The `anyhow::Error` values the widget records. */
  datatype AppError = SendFailed(request: UserRequest) | ClientError(message: string)

  /** What the client loop sends back for a job. */
  datatype RequestResult = Login(outcome: Result<Rooms, AppError>)

  /** An event of the sync stream; only messages are shown. */
  datatype StateResult = Message(user: string, msg: string, room: RoomId) | OtherState

  datatype AppState = AppState(
    title: string,
    shouldQuit: bool,
    syncStarted: bool,
    loginW: LoginWidget,
    chat: ChatWidget,
    evLoop: EventLoop,
    sendJobs: seq<UserRequest>,
    /** The client loop still holds the receiving half of `sendJobs`. */
    jobsOpen: bool,
    evMsgs: seq<RequestResult>,
    emitterMsgs: seq<StateResult>,
    error: Option<AppError>)

  const AppTitle: string := "RumaTui"

  function LoggedIn(s: AppState): bool { s.loginW.loggedIn }

  function Selected(s: AppState): LoginSelect { s.loginW.login.selected }

  /** The text of one field of the login form. */
  function Field(s: AppState, sel: LoginSelect): string {
    if sel == Username then s.loginW.login.username else s.loginW.login.password
  }

  function WithSelected(s: AppState, sel: LoginSelect): AppState {
    s.(loginW := s.loginW.(login := s.loginW.login.(selected := sel)))
  }

  function WithField(s: AppState, sel: LoginSelect, text: string): (t: AppState)
    ensures Field(t, sel) == text && Field(t, Toggled(sel)) == Field(s, Toggled(sel))
  {
    if sel == Username then s.(loginW := s.loginW.(login := s.loginW.login.(username := text)))
    else s.(loginW := s.loginW.(login := s.loginW.login.(password := text)))
  }

  /** The queue after a non-blocking receive: one item fewer, or still empty. */
  function Rest<T>(q: seq<T>): (r: seq<T>)
    ensures q == [] ==> r == []
    ensures q != [] ==> |r| == |q| - 1
  {
    if q == [] then [] else q[1..]
  }

  /**
   * Facts every reachable state keeps: `start_sync` was called exactly when
   * `syncStarted` is set, sync runs only for a logged-in user, and a
   * logged-in user sees the main screen.
   */
  predicate Inv(s: AppState) {
    s.evLoop.syncStarts == (if s.syncStarted then 1 else 0) &&
    (s.syncStarted ==> LoggedIn(s)) &&
    (LoggedIn(s) ==> s.chat.mainScreen)
  }

  /** `AppWidget::new`: the login screen with empty queues. */
  function New(): (s: AppState)
    ensures s.title == AppTitle && !s.shouldQuit && !s.syncStarted && s.error == None
    ensures !LoggedIn(s) && !s.loginW.loggingIn && !s.chat.mainScreen
    ensures Selected(s) == Username && Field(s, Username) == [] && Field(s, Password) == []
    ensures s.sendJobs == [] && s.jobsOpen && s.evMsgs == [] && s.emitterMsgs == []
    ensures s.evLoop == EventLoop(0, 0) && s.chat.lines == [] && s.chat.roomStates == []
    ensures Inv(s)
  {
    AppState(
      AppTitle, false, false,
      LoginWidget(LoginForm(Username, "", ""), false, false),
      ChatWidget(false, [], [], []),
      EventLoop(0, 0),
      [], true, [], [], None)
  }

  /** `on_up`: on the login screen, switch fields; on the main screen, select the previous room. */
  function OnUp(s: AppState): (t: AppState)
    ensures !LoggedIn(s) ==> Selected(t) == Toggled(Selected(s)) && t == WithSelected(s, Selected(t))
    ensures LoggedIn(s) ==> t == s.(chat := t.chat) && t.chat == s.chat.(roomMoves := t.chat.roomMoves)
    ensures LoggedIn(s) ==> t.chat.roomMoves == s.chat.roomMoves + if s.chat.mainScreen then [Previous] else []
  {
    if !LoggedIn(s) then WithSelected(s, Toggled(Selected(s)))
    else if s.chat.mainScreen then s.(chat := s.chat.(roomMoves := s.chat.roomMoves + [Previous]))
    else s
  }

  /** `on_down`: on the login screen, switch fields; on the main screen, select the next room. */
  function OnDown(s: AppState): (t: AppState)
    ensures !LoggedIn(s) ==> Selected(t) == Toggled(Selected(s)) && t == WithSelected(s, Selected(t))
    ensures LoggedIn(s) ==> t == s.(chat := t.chat) && t.chat == s.chat.(roomMoves := t.chat.roomMoves)
    ensures LoggedIn(s) ==> t.chat.roomMoves == s.chat.roomMoves + if s.chat.mainScreen then [Next] else []
  {
    if !LoggedIn(s) then WithSelected(s, Toggled(Selected(s)))
    else if s.chat.mainScreen then s.(chat := s.chat.(roomMoves := s.chat.roomMoves + [Next]))
    else s
  }

  /** On the login screen two moves restore the form, whichever keys are pressed. */
  lemma SelectionMovesCancel(s: AppState)
    requires !LoggedIn(s)
    ensures OnUp(OnUp(s)) == s && OnDown(OnDown(s)) == s
    ensures OnDown(OnUp(s)) == s && OnUp(OnDown(s)) == s
  {
  }

  /** `set_error`. */
  function SetError(s: AppState, e: AppError): (t: AppState)
    ensures t.error == Some(e) && t.(error := s.error) == s
  {
    s.(error := Some(e))
  }

  /**
   * Enter on a complete form: mark the login as in progress and queue one
   * `Login` job with the fields' current text; a closed queue records the
   * send error instead.
   */
  function SubmitLogin(s: AppState): (t: AppState)
    ensures t.loginW == s.loginW.(loggingIn := true)
    ensures var job := UserRequest.Login(Field(s, Username), Field(s, Password));
      if s.jobsOpen then t.sendJobs == s.sendJobs + [job] && t.error == s.error
      else t.sendJobs == s.sendJobs && t.error == Some(SendFailed(job))
    ensures t == s.(loginW := t.loginW, sendJobs := t.sendJobs, error := t.error)
  {
    var job := UserRequest.Login(s.loginW.login.username, s.loginW.login.password);
    var s := s.(loginW := s.loginW.(loggingIn := true));
    if s.jobsOpen then s.(sendJobs := s.sendJobs + [job])
    else SetError(s, SendFailed(job))
  }

  /**
   * `add_char` (and `on_key`, which awaits it): on the login screen, Enter on
   * a complete form (`loginReady`, the result of `try_login`) first submits
   * the login; then the character, Enter included, is appended to the
   * selected field.
   */
  function AddChar(s: AppState, c: char, loginReady: bool): (t: AppState)
    ensures LoggedIn(s) ==> t == s
    ensures !LoggedIn(s) ==>
      Selected(t) == Selected(s) && !LoggedIn(t) &&
      Field(t, Selected(s)) == Field(s, Selected(s)) + [c] &&
      Field(t, Toggled(Selected(s))) == Field(s, Toggled(Selected(s)))
    ensures !LoggedIn(s) && c == '\n' && loginReady ==> (
      var job := UserRequest.Login(Field(s, Username), Field(s, Password));
      t.loginW.loggingIn &&
      if s.jobsOpen then t.sendJobs == s.sendJobs + [job] && t.error == s.error
      else t.sendJobs == s.sendJobs && t.error == Some(SendFailed(job)))
    ensures !(c == '\n' && loginReady) ==>
      t.sendJobs == s.sendJobs && t.error == s.error && t.loginW.loggingIn == s.loginW.loggingIn
    ensures t == s.(loginW := t.loginW, sendJobs := t.sendJobs, error := t.error)
  {
    if LoggedIn(s) then s
    else
      var s := if c == '\n' && loginReady then SubmitLogin(s) else s;
      WithField(s, Selected(s), Field(s, Selected(s)) + [c])
  }

  /** `String::pop`, keeping only the remaining text. */
  function Pop(text: string): (r: string)
    ensures text == [] ==> r == []
    ensures text != [] ==> r + [text[|text| - 1]] == text
  {
    if text == [] then [] else text[..|text| - 1]
  }

  /** `on_backspace`: on the login screen, drop the last character of the selected field. */
  function OnBackspace(s: AppState): (t: AppState)
    ensures LoggedIn(s) ==> t == s
    ensures !LoggedIn(s) ==> t == WithField(s, Selected(s), Field(t, Selected(s)))
    ensures !LoggedIn(s) && Field(s, Selected(s)) == [] ==> t == s
    ensures !LoggedIn(s) && Field(s, Selected(s)) != [] ==>
      var text := Field(s, Selected(s));
      Field(t, Selected(s)) + [text[|text| - 1]] == text
  {
    if LoggedIn(s) then s
    else WithField(s, Selected(s), Pop(Field(s, Selected(s))))
  }

  /** Backspace takes back a character typed on the login screen, unless it submitted a login. */
  lemma BackspaceUndoesKey(s: AppState, c: char, loginReady: bool)
    requires !LoggedIn(s) && !(c == '\n' && loginReady)
    ensures OnBackspace(AddChar(s, c, loginReady)) == s
  {
    var t := AddChar(s, c, loginReady);
    assert Pop(Field(t, Selected(s))) == Field(s, Selected(s));
    assert WithField(t, Selected(s), Field(s, Selected(s))).loginW.login == s.loginW.login;
  }

  /** The login widget after one request result: the attempt is over, and a successful one logs the user in. */
  function LoginAfter(w: LoginWidget, r: RequestResult): (v: LoginWidget)
    ensures v.login == w.login && !v.loggingIn
    ensures v.loggedIn == (w.loggedIn || r.outcome.Ok?)
  {
    if r.outcome.Ok? then w.(loggedIn := true, loggingIn := false) else w.(loggingIn := false)
  }

  /**
   * The chat widget after one request result: a successful login shows the
   * main screen and hands its rooms to `set_room_state`.
   */
  function ChatAfter(c: ChatWidget, r: RequestResult): (d: ChatWidget)
    ensures d.mainScreen == (c.mainScreen || r.outcome.Ok?)
    ensures d.roomStates == c.roomStates + RoomsOf(r)
    ensures d.lines == c.lines && d.roomMoves == c.roomMoves
  {
    match r.outcome
    case Ok(rooms) => c.(mainScreen := true, roomStates := c.roomStates + [rooms])
    case Err(_) => c
  }

  /** The error after one request result: a failed login records its error through `set_error`. */
  function ErrorAfter(e: Option<AppError>, r: RequestResult): (f: Option<AppError>)
    ensures r.outcome.Ok? ==> f == e
    ensures r.outcome.Err? ==> f == Some(r.outcome.error)
  {
    match r.outcome
    case Ok(_) => e
    case Err(err) => Some(err)
  }

  /** The line `add_message` gets for a message event. */
  function LineOf(user: string, msg: string, room: RoomId): (l: ChatLine)
    ensures l.room == room && |l.text| == |user| + 1 + |msg|
    ensures l.text[..|user|] == user && l.text[|user|] == ' ' && l.text[|user| + 1..] == msg
  {
    ChatLine(user + " " + msg, room)
  }

  /**
   * `on_tick`: start sync once the user is logged in (judged before this
   * tick's result is applied), then take at most one request result and at
   * most one sync event, never waiting for either.
   */
  function OnTick(s: AppState): (t: AppState)
    ensures t.syncStarted == (s.syncStarted || LoggedIn(s))
    ensures t.evLoop.syncStarts == s.evLoop.syncStarts + if LoggedIn(s) && !s.syncStarted then 1 else 0
    ensures t.evMsgs == Rest(s.evMsgs) && t.emitterMsgs == Rest(s.emitterMsgs)
    ensures (LoggedIn(t) == (LoggedIn(s) || (s.evMsgs != [] && s.evMsgs[0].outcome.Ok?)) &&
             t.chat.mainScreen == (s.chat.mainScreen || (s.evMsgs != [] && s.evMsgs[0].outcome.Ok?)) &&
             t.loginW.loggingIn == (s.loginW.loggingIn && s.evMsgs == []) &&
             t.loginW.login == s.loginW.login)
    ensures t.error == if s.evMsgs != [] && s.evMsgs[0].outcome.Err? then Some(s.evMsgs[0].outcome.error) else s.error
    ensures t.chat.roomStates == s.chat.roomStates + if s.evMsgs == [] then [] else RoomsOf(s.evMsgs[0])
    ensures t.chat.lines == s.chat.lines + if s.emitterMsgs == [] then [] else LinesOf(s.emitterMsgs[0])
    ensures t.chat.roomMoves == s.chat.roomMoves && t.evLoop.syncQuits == s.evLoop.syncQuits
    ensures t.title == s.title && t.shouldQuit == s.shouldQuit
    ensures t.sendJobs == s.sendJobs && t.jobsOpen == s.jobsOpen
  {
    var evLoop := if LoggedIn(s) && !s.syncStarted then s.evLoop.(syncStarts := s.evLoop.syncStarts + 1) else s.evLoop;
    var results := s.evMsgs;
    var loginW := if results == [] then s.loginW else LoginAfter(s.loginW, results[0]);
    var error := if results == [] then s.error else ErrorAfter(s.error, results[0]);
    var chat1 := if results == [] then s.chat else ChatAfter(s.chat, results[0]);
    var events := s.emitterMsgs;
    var chat2 := if events == [] then chat1 else chat1.(lines := chat1.lines + LinesOf(events[0]));
    s.(syncStarted := s.syncStarted || LoggedIn(s), evLoop := evLoop,
       loginW := loginW, error := error, chat := chat2,
       evMsgs := Rest(results), emitterMsgs := Rest(events))
  }

  /**
   * `on_quit`: stop the sync task, then queue `Quit`; a closed queue is
   * ignored and records no error.
   */
  function OnQuit(s: AppState): (t: AppState)
    ensures t.evLoop == s.evLoop.(syncQuits := s.evLoop.syncQuits + 1)
    ensures t.sendJobs == s.sendJobs + if s.jobsOpen then [Quit] else []
    ensures t == s.(evLoop := t.evLoop, sendJobs := t.sendJobs)
  {
    var s := s.(evLoop := s.evLoop.(syncQuits := s.evLoop.syncQuits + 1));
    if s.jobsOpen then s.(sendJobs := s.sendJobs + [Quit]) else s
  }

  // The other ends of the channels, driven by the client loop.

  /** The client loop sends a request result. */
  function Deliver(s: AppState, r: RequestResult): (t: AppState)
    ensures t.evMsgs == s.evMsgs + [r] && t.(evMsgs := s.evMsgs) == s
  {
    s.(evMsgs := s.evMsgs + [r])
  }

  /** The sync stream sends an event. */
  function Emit(s: AppState, e: StateResult): (t: AppState)
    ensures t.emitterMsgs == s.emitterMsgs + [e] && t.(emitterMsgs := s.emitterMsgs) == s
  {
    s.(emitterMsgs := s.emitterMsgs + [e])
  }

  /** The client loop receives the oldest queued job. */
  function TakeJob(s: AppState): (t: AppState)
    ensures t.sendJobs == Rest(s.sendJobs) && t.(sendJobs := s.sendJobs) == s
  {
    s.(sendJobs := Rest(s.sendJobs))
  }

  /** The client loop drops its receiving half: every later send fails. */
  function DropReceiver(s: AppState): (t: AppState)
    ensures !t.jobsOpen && t.(jobsOpen := s.jobsOpen) == s
  {
    s.(jobsOpen := false)
  }

  /** What can happen between two observations of the widget. */
  datatype Input =
    | Up | Down | Key(c: char, loginReady: bool) | Backspace | Tick | QuitApp
    | ResultIn(result: RequestResult) | EventIn(event: StateResult) | JobOut | ReceiverDropped

  function Step(s: AppState, i: Input): AppState {
    match i
    case Up => OnUp(s)
    case Down => OnDown(s)
    case Key(c, loginReady) => AddChar(s, c, loginReady)
    case Backspace => OnBackspace(s)
    case Tick => OnTick(s)
    case QuitApp => OnQuit(s)
    case ResultIn(r) => Deliver(s, r)
    case EventIn(e) => Emit(s, e)
    case JobOut => TakeJob(s)
    case ReceiverDropped => DropReceiver(s)
  }

  /** The state after the inputs `ins`, in order. */
  function Run(s: AppState, ins: seq<Input>): AppState
    decreases |ins|
  {
    if ins == [] then s else Run(Step(s, ins[0]), ins[1..])
  }

  // Properties of every run

  lemma StepKeepsInv(s: AppState, i: Input)
    requires Inv(s)
    ensures Inv(Step(s, i))
  {
    match i
    case Up => assert Step(s, i) == OnUp(s);
    case Down => assert Step(s, i) == OnDown(s);
    case Key(c, loginReady) => assert Step(s, i) == AddChar(s, c, loginReady);
    case Backspace => assert Step(s, i) == OnBackspace(s);
    case Tick => assert Step(s, i) == OnTick(s);
    case QuitApp => assert Step(s, i) == OnQuit(s);
    case ResultIn(r) => assert Step(s, i) == Deliver(s, r);
    case EventIn(e) => assert Step(s, i) == Emit(s, e);
    case JobOut => assert Step(s, i) == TakeJob(s);
    case ReceiverDropped => assert Step(s, i) == DropReceiver(s);
  }

  /** `Inv` holds after any sequence of inputs from a state where it holds. */
  lemma {:induction false} RunKeepsInv(s: AppState, ins: seq<Input>)
    requires Inv(s)
    ensures Inv(Run(s, ins))
    decreases |ins|
  {
    if ins != [] {
      StepKeepsInv(s, ins[0]);
      RunKeepsInv(Step(s, ins[0]), ins[1..]);
    }
  }

  /** Whatever happens after `new`, `start_sync` is called at most once, and only with sync marked started. */
  lemma StartSyncAtMostOnce(ins: seq<Input>)
    ensures Run(New(), ins).evLoop.syncStarts <= 1
    ensures Run(New(), ins).evLoop.syncStarts == 1 <==> Run(New(), ins).syncStarted
  {
    RunKeepsInv(New(), ins);
  }

  /**
   * What only ever grows from `s` to `t`: the login, sync and main-screen
   * flags stay set, a closed job queue stays closed, the call counters never
   * decrease, and the logs of calls into the chat widgets only get longer.
   */
  predicate Grows(s: AppState, t: AppState) {
    (LoggedIn(s) ==> LoggedIn(t)) && (s.syncStarted ==> t.syncStarted) &&
    (s.chat.mainScreen ==> t.chat.mainScreen) && (!s.jobsOpen ==> !t.jobsOpen) &&
    s.evLoop.syncStarts <= t.evLoop.syncStarts && s.evLoop.syncQuits <= t.evLoop.syncQuits &&
    s.chat.lines <= t.chat.lines && s.chat.roomStates <= t.chat.roomStates && s.chat.roomMoves <= t.chat.roomMoves
  }

  lemma StepGrows(s: AppState, i: Input)
    ensures Grows(s, Step(s, i))
  {
    match i
    case Up => assert Step(s, i) == OnUp(s);
    case Down => assert Step(s, i) == OnDown(s);
    case Key(c, loginReady) => assert Step(s, i) == AddChar(s, c, loginReady);
    case Backspace => assert Step(s, i) == OnBackspace(s);
    case Tick => assert Step(s, i) == OnTick(s);
    case QuitApp => assert Step(s, i) == OnQuit(s);
    case ResultIn(r) => assert Step(s, i) == Deliver(s, r);
    case EventIn(e) => assert Step(s, i) == Emit(s, e);
    case JobOut => assert Step(s, i) == TakeJob(s);
    case ReceiverDropped => assert Step(s, i) == DropReceiver(s);
  }

  lemma GrowsTransitive(s: AppState, t: AppState, u: AppState)
    requires Grows(s, t) && Grows(t, u)
    ensures Grows(s, u)
  {
  }

  /** No input ever logs out, stops the sync flag, reopens the job queue or takes back a call. */
  lemma {:induction false} RunGrows(s: AppState, ins: seq<Input>)
    ensures Grows(s, Run(s, ins))
    decreases |ins|
  {
    if ins != [] {
      StepGrows(s, ins[0]);
      RunGrows(Step(s, ins[0]), ins[1..]);
      GrowsTransitive(s, Step(s, ins[0]), Run(s, ins));
    }
  }

  /** Once the user is logged in, the sync loop is running after the next tick, and stays so. */
  lemma {:induction false} SyncFollowsLogin(s: AppState, ins: seq<Input>)
    requires LoggedIn(s) && Tick in ins
    ensures Run(s, ins).syncStarted
    decreases |ins|
  {
    if ins[0] == Tick {
      RunGrows(Step(s, Tick), ins[1..]);
    } else {
      StepGrows(s, ins[0]);
      SyncFollowsLogin(Step(s, ins[0]), ins[1..]);
    }
  }

  /** The lines the message events among `evs` produce, in order. */
  function Lines(evs: seq<StateResult>): seq<ChatLine>
    decreases |evs|
  {
    if evs == [] then [] else LinesOf(evs[0]) + Lines(evs[1..])
  }

  /** The line one event produces: one for a message, none otherwise. */
  function LinesOf(e: StateResult): (r: seq<ChatLine>)
    ensures |r| <= 1
  {
    match e
    case Message(user, msg, room) => [LineOf(user, msg, room)]
    case OtherState => []
  }

  lemma {:induction false} LinesAppend(a: seq<StateResult>, b: seq<StateResult>)
    ensures Lines(a + b) == Lines(a) + Lines(b)
    decreases |a|
  {
    if a == [] {
      assert a + b == b;
    } else {
      assert (a + b)[0] == a[0] && (a + b)[1..] == a[1..] + b;
      LinesAppend(a[1..], b);
      assert Lines(a + b) == LinesOf(a[0]) + (Lines(a[1..]) + Lines(b));
    }
  }

  /** The events the sync stream sends during `ins`, in order. */
  function Emitted(ins: seq<Input>): seq<StateResult>
    decreases |ins|
  {
    if ins == [] then []
    else (if ins[0].EventIn? then [ins[0].event] else []) + Emitted(ins[1..])
  }

  /** Inputs other than ticks and events leave the transcript and the event queue alone. */
  lemma StepKeepsMessages(s: AppState, i: Input)
    requires !i.Tick? && !i.EventIn?
    ensures Step(s, i).chat.lines == s.chat.lines && Step(s, i).emitterMsgs == s.emitterMsgs
  {
    match i
    case Up => assert Step(s, i) == OnUp(s);
    case Down => assert Step(s, i) == OnDown(s);
    case Key(c, loginReady) => assert Step(s, i) == AddChar(s, c, loginReady);
    case Backspace => assert Step(s, i) == OnBackspace(s);
    case QuitApp => assert Step(s, i) == OnQuit(s);
    case ResultIn(r) => assert Step(s, i) == Deliver(s, r);
    case JobOut => assert Step(s, i) == TakeJob(s);
    case ReceiverDropped => assert Step(s, i) == DropReceiver(s);
  }

  lemma StepTranscript(s: AppState, i: Input)
    ensures var t := Step(s, i);
      t.chat.lines + Lines(t.emitterMsgs) == s.chat.lines + Lines(s.emitterMsgs) + Lines(Emitted([i]))
  {
    assert Emitted([i]) == (if i.EventIn? then [i.event] else []) + Emitted([]);
    if i.EventIn? {
      LinesAppend(s.emitterMsgs, [i.event]);
    } else if i.Tick? {
      TickTranscript(s);
    } else {
      StepKeepsMessages(s, i);
    }
  }

  lemma TickTranscript(s: AppState)
    ensures var t := OnTick(s);
      t.chat.lines + Lines(t.emitterMsgs) == s.chat.lines + Lines(s.emitterMsgs)
  {
    var t := OnTick(s);
    if s.emitterMsgs != [] {
      var e := s.emitterMsgs[0];
      assert t.emitterMsgs == s.emitterMsgs[1..];
      assert Lines(s.emitterMsgs) == LinesOf(e) + Lines(s.emitterMsgs[1..]);
      assert t.chat.lines == s.chat.lines + LinesOf(e);
    }
  }

  /**
   * The transcript is the message events in the order they were sent: every
   * message event ends up exactly once, either as a line already added or
   * still waiting in the queue, and no line comes from anywhere else.
   */
  lemma {:induction false} TranscriptFollowsEvents(s: AppState, ins: seq<Input>)
    ensures var t := Run(s, ins);
      t.chat.lines + Lines(t.emitterMsgs) == s.chat.lines + Lines(s.emitterMsgs) + Lines(Emitted(ins))
    decreases |ins|
  {
    if ins != [] {
      var s1, t := Step(s, ins[0]), Run(s, ins);
      assert t == Run(s1, ins[1..]);
      StepTranscript(s, ins[0]);
      TranscriptFollowsEvents(s1, ins[1..]);
      var now, later := Emitted([ins[0]]), Emitted(ins[1..]);
      assert Emitted(ins) == now + later;
      LinesAppend(now, later);
    }
  }

  /** The room lists that the successful logins among `rs` report, in order. */
  function LoginRooms(rs: seq<RequestResult>): seq<Rooms>
    decreases |rs|
  {
    if rs == [] then [] else RoomsOf(rs[0]) + LoginRooms(rs[1..])
  }

  /** The room list one result reports: one for a successful login, none otherwise. */
  function RoomsOf(r: RequestResult): (rooms: seq<Rooms>)
    ensures |rooms| <= 1
  {
    if r.outcome.Ok? then [r.outcome.value] else []
  }

  lemma {:induction false} LoginRoomsAppend(a: seq<RequestResult>, b: seq<RequestResult>)
    ensures LoginRooms(a + b) == LoginRooms(a) + LoginRooms(b)
    decreases |a|
  {
    if a == [] {
      assert a + b == b;
    } else {
      assert (a + b)[0] == a[0] && (a + b)[1..] == a[1..] + b;
      LoginRoomsAppend(a[1..], b);
      assert LoginRooms(a + b) == RoomsOf(a[0]) + (LoginRooms(a[1..]) + LoginRooms(b));
    }
  }

  /** The results the client loop sends during `ins`, in order. */
  function Delivered(ins: seq<Input>): seq<RequestResult>
    decreases |ins|
  {
    if ins == [] then []
    else (if ins[0].ResultIn? then [ins[0].result] else []) + Delivered(ins[1..])
  }

  /** Inputs other than ticks and results leave the room lists and the result queue alone. */
  lemma StepKeepsRoomStates(s: AppState, i: Input)
    requires !i.Tick? && !i.ResultIn?
    ensures Step(s, i).chat.roomStates == s.chat.roomStates && Step(s, i).evMsgs == s.evMsgs
  {
    match i
    case Up => assert Step(s, i) == OnUp(s);
    case Down => assert Step(s, i) == OnDown(s);
    case Key(c, loginReady) => assert Step(s, i) == AddChar(s, c, loginReady);
    case Backspace => assert Step(s, i) == OnBackspace(s);
    case QuitApp => assert Step(s, i) == OnQuit(s);
    case EventIn(e) => assert Step(s, i) == Emit(s, e);
    case JobOut => assert Step(s, i) == TakeJob(s);
    case ReceiverDropped => assert Step(s, i) == DropReceiver(s);
  }

  lemma TickRoomStates(s: AppState)
    ensures var t := OnTick(s);
      t.chat.roomStates + LoginRooms(t.evMsgs) == s.chat.roomStates + LoginRooms(s.evMsgs)
  {
    var t := OnTick(s);
    if s.evMsgs != [] {
      var r := s.evMsgs[0];
      assert t.evMsgs == s.evMsgs[1..];
      assert LoginRooms(s.evMsgs) == RoomsOf(r) + LoginRooms(s.evMsgs[1..]);
      assert t.chat.roomStates == s.chat.roomStates + RoomsOf(r);
    }
  }

  lemma StepRoomStates(s: AppState, i: Input)
    ensures var t := Step(s, i);
      t.chat.roomStates + LoginRooms(t.evMsgs) == s.chat.roomStates + LoginRooms(s.evMsgs) + LoginRooms(Delivered([i]))
  {
    assert Delivered([i]) == (if i.ResultIn? then [i.result] else []) + Delivered([]);
    if i.ResultIn? {
      LoginRoomsAppend(s.evMsgs, [i.result]);
    } else if i.Tick? {
      TickRoomStates(s);
    } else {
      StepKeepsRoomStates(s, i);
    }
  }

  /** Every successful login's room list reaches `set_room_state` once, in the order the results came. */
  lemma {:induction false} RoomStatesFollowResults(s: AppState, ins: seq<Input>)
    ensures var t := Run(s, ins);
      t.chat.roomStates + LoginRooms(t.evMsgs) == s.chat.roomStates + LoginRooms(s.evMsgs) + LoginRooms(Delivered(ins))
    decreases |ins|
  {
    if ins != [] {
      var s1, t := Step(s, ins[0]), Run(s, ins);
      assert t == Run(s1, ins[1..]);
      StepRoomStates(s, ins[0]);
      RoomStatesFollowResults(s1, ins[1..]);
      var now, later := Delivered([ins[0]]), Delivered(ins[1..]);
      assert Delivered(ins) == now + later;
      LoginRoomsAppend(now, later);
    }
  }

  /** How many ticks `ins` holds. */
  function Ticks(ins: seq<Input>): nat
    decreases |ins|
  {
    if ins == [] then 0 else (if ins[0] == Tick then 1 else 0) + Ticks(ins[1..])
  }

  /** `q` is what is left of `all` after some items were taken from its front. */
  predicate SuffixOf<T(==)>(q: seq<T>, all: seq<T>) {
    |q| <= |all| && q == all[|all| - |q|..]
  }

  /** One input takes at most the front item of each incoming queue, and only when it is a tick. */
  lemma StepDrain(s: AppState, i: Input)
    ensures var t := Step(s, i);
      t.evMsgs == (if i.Tick? then Rest(s.evMsgs) else s.evMsgs) + (if i.ResultIn? then [i.result] else [])
    ensures var t := Step(s, i);
      t.emitterMsgs == (if i.Tick? then Rest(s.emitterMsgs) else s.emitterMsgs) + (if i.EventIn? then [i.event] else [])
  {
    if !i.Tick? && !i.ResultIn? {
      StepKeepsRoomStates(s, i);
    }
    if !i.Tick? && !i.EventIn? {
      StepKeepsMessages(s, i);
    }
  }

  /**
   * Appending what arrives later keeps `q` a suffix of everything queued, when
   * one step took at most the front item.
   */
  lemma SuffixAfterStep<T>(q0: seq<T>, q1: seq<T>, q: seq<T>, now: seq<T>, later: seq<T>, took: bool, bound: nat)
    requires q1 == (if took then Rest(q0) else q0) + now
    requires SuffixOf(q, q1 + later) && |q1 + later| - |q| <= bound
    ensures SuffixOf(q, q0 + (now + later))
    ensures |q0 + (now + later)| - |q| <= bound + if took then 1 else 0
  {
    var all := q0 + (now + later);
    var all1 := q1 + later;
    if took && q0 != [] {
      assert all1 == all[1..];
    } else {
      assert all1 == all;
    }
  }

  /**
   * Both incoming queues are drained strictly from the front, at most one
   * item per tick: what is left is a suffix of everything that was queued,
   * and no more items are gone than there were ticks.
   */
  lemma {:induction false} TicksDrainQueues(s: AppState, ins: seq<Input>)
    ensures var t := Run(s, ins); var all := s.evMsgs + Delivered(ins);
      SuffixOf(t.evMsgs, all) && |all| - |t.evMsgs| <= Ticks(ins)
    ensures var t := Run(s, ins); var all := s.emitterMsgs + Emitted(ins);
      SuffixOf(t.emitterMsgs, all) && |all| - |t.emitterMsgs| <= Ticks(ins)
    decreases |ins|
  {
    if ins != [] {
      var i, rest := ins[0], ins[1..];
      var s1 := Step(s, i);
      var t := Run(s, ins);
      assert t == Run(s1, rest);
      StepDrain(s, i);
      TicksDrainQueues(s1, rest);
      assert Ticks(ins) == (if i.Tick? then 1 else 0) + Ticks(rest);
      assert Delivered(ins) == (if i.ResultIn? then [i.result] else []) + Delivered(rest);
      assert Emitted(ins) == (if i.EventIn? then [i.event] else []) + Emitted(rest);
      SuffixAfterStep(s.evMsgs, s1.evMsgs, t.evMsgs, if i.ResultIn? then [i.result] else [], Delivered(rest), i.Tick?, Ticks(rest));
      SuffixAfterStep(s.emitterMsgs, s1.emitterMsgs, t.emitterMsgs, if i.EventIn? then [i.event] else [], Emitted(rest), i.Tick?, Ticks(rest));
    }
  }
}
