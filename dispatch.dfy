/**
 * The window manager proper: `focus`, `subscribe` and the event loop of
 * swm.cxx. The pure functions state what one call does to the state the
 * loop carries (the focused window, the drag target, the drag mode and the
 * requests sent so far); the class `WM` performs the same steps in place and
 * is proved to agree with them.
 */
module WindowManager {
  import opened Protocol
  import opened Config
  import opened Effects
  import opened Border
  import opened Drag

  /**
   * What is fixed once the connection is up: the root window, the screen
   * size in pixels and the thickness of the outer border ring the renderer
   * is compiled with: 0 selects the flat border, which is what config.hxx
   * builds (`BUILT_OUTER`); the value 1 of config.hxx would select the ringed one.
   */
  datatype Setup = Setup(root: Window, width: int, height: int, outer: nat)

  /** The program as config.hxx builds it, on a given root window and screen. */
  predicate Built(cfg: Setup) {
    cfg.outer == BUILT_OUTER
  }

  /** The state the loop carries between notifications, with every request sent so far. */
  datatype State = State(focus: Window, dragWin: Window, mode: Mode, log: seq<Request>)

  /** The state right after start-up: the root is focused, no drag has begun, nothing is sent. */
  function Start(cfg: Setup): State {
    State(cfg.root, NONE, Idle, [])
  }

  /** `t` comes after `s`: it has sent everything `s` had sent, and maybe more. */
  predicate Extends(s: State, t: State) {
    s.log <= t.log
  }

  /** The requests sent on the way from `s` to `t`. */
  function Sent(s: State, t: State): seq<Request>
    requires Extends(s, t)
  {
    t.log[|s.log|..]
  }

  /**
   * `focus(win, active)`: decorate `win` as focused or unfocused; when
   * active, then give it the input focus and, if it is a different window,
   * decorate the previously focused window as unfocused. Nothing
   * happens when the decoration cannot be drawn (ringed border without a
   * window or without a geometry reply).
   */
  function FocusStep(cfg: Setup, srv: Server, s: State, win: Window, active: bool): (t: State)
    decreases if active then 1 else 0
    ensures Extends(s, t)
    ensures t.dragWin == s.dragWin && t.mode == s.mode
    ensures t.focus == (if active && Decoratable(cfg.outer, srv, win) then win else s.focus)
    ensures !Decoratable(cfg.outer, srv, win) ==> t == s
  {
    match Decoration(cfg.outer, srv, win, active)
    case None => s
    case Some(d) =>
      var drawn := s.(log := s.log + d);
      if !active then drawn
      else
        var given := drawn.(log := drawn.log + [SetInputFocus(win)]);
        if win == s.focus then given
        else FocusStep(cfg, srv, given, s.focus, false).(focus := win)
  }

  /** `subscribe(win)`: select the notifications wanted from `win` and give it the configured border width. */
  function Subscribed(s: State, win: Window): (t: State)
    ensures Extends(s, t) && t.focus == s.focus && t.dragWin == s.dragWin && t.mode == s.mode
    ensures forall q :: q in Sent(s, t) ==> q.Target() == Some(win)
  {
    // only the first of the two mask values is read for the one EVENT_MASK bit
    s.(log := s.log + [SelectInput(win, {EnterWindow}), SetBorderWidth(win, BORDERWIDTH)])
  }

  /**
   * A button press on `child`: it becomes the drag target whatever it is; a
   * real client is raised, the pointer is warped onto it and grabbed, and
   * the drag mode follows the button.
   */
  function Press(cfg: Setup, srv: Server, s: State, child: Window, detail: nat): (t: State)
    requires child != NONE && child != cfg.root ==> child in srv.geometry
    ensures Extends(s, t) && t.focus == s.focus && t.dragWin == child
    ensures child == NONE || child == cfg.root ==> t.log == s.log && t.mode == s.mode
    ensures child != NONE && child != cfg.root ==> t.mode == ModeFor(detail) && |Sent(s, t)| == 3
  {
    if child == NONE || child == cfg.root then s.(dragWin := child)
    else
      var at := WarpTarget(detail, srv.geometry[child]);
      State(s.focus, child, ModeFor(detail), s.log + [Raise(child), WarpPointer(child, at.x, at.y), GrabPointer])
  }

  /**
   * Pointer motion: a move re-places the drag target by the clamp (or does
   * nothing without a geometry reply); a resize gives it, as inside size,
   * the pointer's offset from its outer origin; outside a drag nothing
   * happens.
   */
  function Motion(cfg: Setup, srv: Server, s: State): (t: State)
    requires s.mode == Resize ==> s.dragWin in srv.geometry
    ensures Extends(s, t) && t.focus == s.focus && t.dragWin == s.dragWin && t.mode == s.mode
    ensures |Sent(s, t)| <= 1
    ensures forall q :: q in Sent(s, t) ==> q.Target() == Some(s.dragWin)
  {
    match s.mode
    case Idle => s
    case Move =>
      if s.dragWin !in srv.geometry then s
      else
        var g := srv.geometry[s.dragWin];
        var x := ClampAxis(srv.pointer.x, g.width, cfg.width);
        var y := ClampAxis(srv.pointer.y, g.height, cfg.height);
        s.(log := s.log + [MoveWindow(s.dragWin, x, y)])
    case Resize =>
      var e := ResizeExtent(srv.pointer, srv.geometry[s.dragWin]);
      s.(log := s.log + [ResizeWindow(s.dragWin, e.x, e.y)])
  }

  /** The server answers every query the handling of `ev` dereferences without a check. */
  predicate Answered(cfg: Setup, s: State, ev: Event, srv: Server) {
    match ev
    case ButtonPress(child, _) => child != NONE && child != cfg.root ==> child in srv.geometry
    case MotionNotify => s.mode == Resize ==> s.dragWin in srv.geometry
    case _ => true
  }

  /** One pass of the event loop: the state after handling `ev`. */
  function Dispatch(cfg: Setup, srv: Server, s: State, ev: Event): (t: State)
    requires Answered(cfg, s, ev, srv)
    ensures Extends(s, t)
    ensures s.mode != Idle ==> t.mode != Idle
    ensures t.dragWin == (if ev.ButtonPress? then ev.child else s.dragWin)
    ensures !ev.ButtonPress? ==> t.mode == s.mode
  {
    match ev
    case CreateNotify(w, overrideRedirect) =>
      if overrideRedirect then s else FocusStep(cfg, srv, Subscribed(s, w), w, true)
    case DestroyNotify(w) => s.(log := s.log + [KillClient(w)])
    case EnterNotify(w) => FocusStep(cfg, srv, s, w, true)
    case MapNotify(w, overrideRedirect) =>
      if overrideRedirect then s else FocusStep(cfg, srv, s.(log := s.log + [MapWindow(w)]), w, true)
    case ButtonPress(child, detail) => Press(cfg, srv, s, child, detail)
    case MotionNotify => Motion(cfg, srv, s)
    case ButtonRelease =>
      var t := FocusStep(cfg, srv, s, s.dragWin, true);
      t.(log := t.log + [UngrabPointer])
    case ConfigureNotify(w) =>
      var t := if w != s.focus then FocusStep(cfg, srv, s, w, true) else s;
      FocusStep(cfg, srv, t, t.focus, true)
    case Unhandled => s
  }

  /** What the loop reads in one iteration: a notification, or None when the connection broke. */
  datatype Input = Input(event: Option<Event>, server: Server)

  /** Where a run of the loop ends, and whether it ended on a broken connection. */
  datatype Outcome = Outcome(state: State, broken: bool)

  /** Every notification of `feed`, up to a broken connection, meets `Answered` in the state it arrives in. */
  predicate Feedable(cfg: Setup, s: State, feed: seq<Input>)
    decreases |feed|
  {
    feed == [] || feed[0].event.None?
    || (Answered(cfg, s, feed[0].event.value, feed[0].server)
        && Feedable(cfg, Dispatch(cfg, feed[0].server, s, feed[0].event.value), feed[1..]))
  }

  /** The loop run over `feed`: each notification is dispatched in turn; a broken connection stops it. */
  function Run(cfg: Setup, s: State, feed: seq<Input>): (r: Outcome)
    requires Feedable(cfg, s, feed)
    decreases |feed|
    ensures Extends(s, r.state)
    ensures s.mode != Idle ==> r.state.mode != Idle
    ensures r.broken <==> exists i :: 0 <= i < |feed| && feed[i].event.None?
  {
    if feed == [] then Outcome(s, false)
    else match feed[0].event
      case None => Outcome(s, true)
      case Some(ev) =>
        var r := Run(cfg, Dispatch(cfg, feed[0].server, s, ev), feed[1..]);
        assert forall i :: 1 <= i < |feed| ==> feed[i] == feed[1..][i - 1];
        r
  }

  /** The window manager as the C program holds it: globals and loop variables updated in place. */
  class WM {
    const setup: Setup
    var focuswin: Window
    var dragWin: Window
    var mode: Mode
    var log: seq<Request>

    function Current(): State
      reads this
    {
      State(focuswin, dragWin, mode, log)
    }

    constructor(setup: Setup)
      ensures this.setup == setup
      ensures Current() == Start(setup)
    {
      this.setup := setup;
      focuswin := setup.root;
      dragWin := NONE;
      mode := Idle;
      log := [];
    }

    method Focus(win: Window, active: bool, srv: Server)
      modifies this
      decreases if active then 1 else 0
      ensures Current() == FocusStep(setup, srv, old(Current()), win, active)
    {
      var d := Decoration(setup.outer, srv, win, active);
      if d.None? {
        return;
      }
      log := log + d.value;
      if active {
        log := log + [SetInputFocus(win)];
        if win != focuswin {
          Focus(focuswin, false, srv);
          focuswin := win;
        }
      }
    }

    method Subscribe(win: Window)
      modifies this
      ensures Current() == Subscribed(old(Current()), win)
    {
      log := log + [SelectInput(win, {EnterWindow}), SetBorderWidth(win, BORDERWIDTH)];
    }

    method Handle(ev: Event, srv: Server)
      requires Answered(setup, Current(), ev, srv)
      modifies this
      ensures Current() == Dispatch(setup, srv, old(Current()), ev)
    {
      match ev
      case CreateNotify(w, overrideRedirect) =>
        if !overrideRedirect {
          Subscribe(w);
          Focus(w, true, srv);
        }
      case DestroyNotify(w) =>
        log := log + [KillClient(w)];
      case EnterNotify(w) =>
        Focus(w, true, srv);
      case MapNotify(w, overrideRedirect) =>
        if !overrideRedirect {
          log := log + [MapWindow(w)];
          Focus(w, true, srv);
        }
      case ButtonPress(child, detail) =>
        dragWin := child;
        if child != NONE && child != setup.root {
          var at := WarpTarget(detail, srv.geometry[child]);
          mode := ModeFor(detail);
          log := log + [Raise(child), WarpPointer(child, at.x, at.y), GrabPointer];
        }
      case MotionNotify =>
        if mode == Move {
          if dragWin in srv.geometry {
            var g := srv.geometry[dragWin];
            var x := ClampAxis(srv.pointer.x, g.width, setup.width);
            var y := ClampAxis(srv.pointer.y, g.height, setup.height);
            log := log + [MoveWindow(dragWin, x, y)];
          }
        } else if mode == Resize {
          var e := ResizeExtent(srv.pointer, srv.geometry[dragWin]);
          log := log + [ResizeWindow(dragWin, e.x, e.y)];
        }
      case ButtonRelease =>
        Focus(dragWin, true, srv);
        log := log + [UngrabPointer];
      case ConfigureNotify(w) =>
        if w != focuswin {
          Focus(w, true, srv);
        }
        Focus(focuswin, true, srv);
      case Unhandled =>
    }

    /** `events_loop` over a finite feed; returns true when it stopped on a broken connection. */
    method EventsLoop(feed: seq<Input>) returns (broken: bool)
      requires Feedable(setup, Current(), feed)
      modifies this
      ensures Outcome(Current(), broken) == Run(setup, old(Current()), feed)
    {
      var i := 0;
      while i < |feed|
        invariant 0 <= i <= |feed|
        invariant Feedable(setup, Current(), feed[i..])
        invariant Run(setup, Current(), feed[i..]) == Run(setup, old(Current()), feed)
      {
        assert feed[i..][0] == feed[i] && feed[i..][1..] == feed[i + 1..];
        if feed[i].event.None? {
          return true;
        }
        Handle(feed[i].event.value, feed[i].server);
        i := i + 1;
      }
      return false;
    }
  }
}
