/**
 * `AppWidget` (src/widgets/app.rs) as an object whose methods update its
 * fields in place. Each method's new state is the `AppModel` function of the
 * same name applied to the old state, so every property proved there about
 * runs of the state machine holds of the widget.
 */
module App {
  import opened Wrappers
  import opened AppModel

  class AppWidget {
    var title: string
    var shouldQuit: bool
    var syncStarted: bool
    var loginW: LoginWidget
    var chat: ChatWidget
    var evLoop: EventLoop
    /** The sending half of the job channel: what is queued, and whether the client loop still receives. */
    var sendJobs: seq<UserRequest>
    var jobsOpen: bool
    /** The receiving half of the result channel. */
    var evMsgs: seq<RequestResult>
    /** The receiving half of the event stream. */
    var emitterMsgs: seq<StateResult>
    var error: Option<AppError>

    /** The widget's fields as a value. */
    function State(): AppState
      reads this
    {
      AppState(title, shouldQuit, syncStarted, loginW, chat, evLoop, sendJobs, jobsOpen, evMsgs, emitterMsgs, error)
    }

    ghost predicate Valid()
      reads this
    {
      Inv(State())
    }

    /** `AppWidget::new`. */
    constructor ()
      ensures State() == New() && Valid()
    {
      title := AppTitle;
      shouldQuit := false;
      syncStarted := false;
      loginW := LoginWidget(LoginForm(Username, "", ""), false, false);
      chat := ChatWidget(false, [], [], []);
      evLoop := EventLoop(0, 0);
      sendJobs := [];
      jobsOpen := true;
      evMsgs := [];
      emitterMsgs := [];
      error := None;
    }

    method OnUp()
      requires Valid()
      modifies this
      ensures State() == AppModel.OnUp(old(State())) && Valid()
    {
      if !loginW.loggedIn {
        if loginW.login.selected == Username {
          loginW := loginW.(login := loginW.login.(selected := Password));
        } else {
          loginW := loginW.(login := loginW.login.(selected := Username));
        }
      } else if chat.mainScreen {
        chat := chat.(roomMoves := chat.roomMoves + [Previous]);
      }
    }

    method OnDown()
      requires Valid()
      modifies this
      ensures State() == AppModel.OnDown(old(State())) && Valid()
    {
      if !loginW.loggedIn {
        if loginW.login.selected == Username {
          loginW := loginW.(login := loginW.login.(selected := Password));
        } else {
          loginW := loginW.(login := loginW.login.(selected := Username));
        }
      } else if chat.mainScreen {
        chat := chat.(roomMoves := chat.roomMoves + [Next]);
      }
    }

    /** `add_char`; `loginReady` is what `try_login` answers. */
    method AddChar(c: char, loginReady: bool)
      requires Valid()
      modifies this
      ensures State() == AppModel.AddChar(old(State()), c, loginReady) && Valid()
    {
      if !loginW.loggedIn {
        if c == '\n' && loginReady {
          var job := UserRequest.Login(loginW.login.username, loginW.login.password);
          loginW := loginW.(loggingIn := true);
          if jobsOpen {
            sendJobs := sendJobs + [job];
          } else {
            SetError(SendFailed(job));
          }
        }
        if loginW.login.selected == Username {
          loginW := loginW.(login := loginW.login.(username := loginW.login.username + [c]));
        } else {
          loginW := loginW.(login := loginW.login.(password := loginW.login.password + [c]));
        }
      }
    }

    /** `on_key`: a typed character goes to `add_char`. */
    method OnKey(c: char, loginReady: bool)
      requires Valid()
      modifies this
      ensures State() == AppModel.AddChar(old(State()), c, loginReady) && Valid()
    {
      AddChar(c, loginReady);
    }

    method OnBackspace()
      requires Valid()
      modifies this
      ensures State() == AppModel.OnBackspace(old(State())) && Valid()
    {
      if !loginW.loggedIn {
        if loginW.login.selected == Username {
          loginW := loginW.(login := loginW.login.(username := Pop(loginW.login.username)));
        } else {
          loginW := loginW.(login := loginW.login.(password := Pop(loginW.login.password)));
        }
      }
    }

    method SetError(e: AppError)
      modifies this
      ensures State() == AppModel.SetError(old(State()), e)
    {
      error := Some(e);
    }

    /** `on_tick`: start sync once logged in, then one `try_recv` on each incoming queue. */
    method OnTick()
      requires Valid()
      modifies this
      ensures State() == AppModel.OnTick(old(State())) && Valid()
    {
      StartSyncIfDue();
      ReceiveResult();
      ReceiveEvent();
      StepKeepsInv(old(State()), Tick);
    }

    /** The first step of `on_tick`: start the sync loop once the user is logged in. */
    method StartSyncIfDue()
      modifies this
      ensures (State() == old(State()).(syncStarted := old(syncStarted || loginW.loggedIn),
        evLoop := if old(loginW.loggedIn && !syncStarted) then old(evLoop.(syncStarts := evLoop.syncStarts + 1)) else old(evLoop)))
    {
      if loginW.loggedIn && !syncStarted {
        syncStarted := true;
        evLoop := evLoop.(syncStarts := evLoop.syncStarts + 1);
      }
    }

    /** The second step of `on_tick`: apply at most one request result. */
    method ReceiveResult()
      modifies this
      ensures old(evMsgs) == [] ==> State() == old(State())
      ensures (old(evMsgs) != [] ==>
        State() == old(State()).(evMsgs := old(evMsgs[1..]), loginW := LoginAfter(old(loginW), old(evMsgs[0])),
          chat := ChatAfter(old(chat), old(evMsgs[0])), error := ErrorAfter(old(error), old(evMsgs[0]))))
    {
      if evMsgs != [] {
        var res := evMsgs[0];
        evMsgs := evMsgs[1..];
        match res.outcome
        case Ok(rooms) =>
          loginW := loginW.(loggedIn := true);
          chat := chat.(mainScreen := true);
          loginW := loginW.(loggingIn := false);
          chat := chat.(roomStates := chat.roomStates + [rooms]);
        case Err(e) =>
          loginW := loginW.(loggingIn := false);
          SetError(e);
      }
    }

    /** The third step of `on_tick`: apply at most one sync event. */
    method ReceiveEvent()
      modifies this
      ensures old(emitterMsgs) == [] ==> State() == old(State())
      ensures (old(emitterMsgs) != [] ==>
        State() == old(State()).(emitterMsgs := old(emitterMsgs[1..]),
          chat := old(chat.(lines := chat.lines + LinesOf(emitterMsgs[0])))))
    {
      if emitterMsgs != [] {
        var res := emitterMsgs[0];
        emitterMsgs := emitterMsgs[1..];
        match res
        case Message(user, msg, room) =>
          chat := chat.(lines := chat.lines + [LineOf(user, msg, room)]);
        case OtherState =>
      }
    }

    /** `on_quit`: stop the sync task, then queue `Quit`, ignoring a closed queue. */
    method OnQuit()
      requires Valid()
      modifies this
      ensures State() == AppModel.OnQuit(old(State())) && Valid()
    {
      evLoop := evLoop.(syncQuits := evLoop.syncQuits + 1);
      if jobsOpen {
        sendJobs := sendJobs + [Quit];
      }
    }
  }
}
